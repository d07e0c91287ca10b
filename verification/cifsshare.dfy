/**
 * CIFS shares (`provider/protocols/protocols_cifs_share_resource.go`): the
 * create body, removal of the ACL ONTAP adds by default, the ACL
 * reconciliation and changed-field body of update, and import.
 */
module CifsShare {
  import opened Wrappers
  import opened Tf
  import opened ImportId
  import opened GoStrings
  import opened Calls

  /** One access control entry of a share. */
  datatype Acl = Acl(permission: string, aclType: string, userOrGroup: string)

  /** The `Everyone` / `full_control` entry ONTAP creates with every share. */
  predicate IsDefaultAcl(a: Acl) {
    a.userOrGroup == "Everyone" && a.permission == "full_control"
  }

  /** The share attributes besides name, svm, path and ACLs. */
  datatype Share = Share(
    changeNotify: Value<bool>,
    comment: Value<string>,
    continuouslyAvailable: Value<bool>,
    dirUmask: Value<int>,
    encryption: Value<bool>,
    fileUmask: Value<int>,
    forceGroupForCreate: Value<string>,
    homeDirectory: Value<bool>,
    namespaceCaching: Value<bool>,
    noStrictSecurity: Value<bool>,
    offlineFiles: Value<string>,
    oplocks: Value<bool>,
    showSnapshot: Value<bool>,
    unixSymlink: Value<string>,
    vscanProfile: Value<string>)

  /** The attributes update may send: all but home_directory. */
  function UpdateAttrs(s: Share): (r: seq<Attr>)
    ensures DistinctKeys(r) && |r| == 14
  {
    [Attr("change_notify", LiftBool(s.changeNotify), JBool(false)),
     Attr("comment", LiftStr(s.comment), JStr("")),
     Attr("continuously_available", LiftBool(s.continuouslyAvailable), JBool(false)),
     Attr("dir_umask", LiftInt(s.dirUmask), JInt(0)),
     Attr("encryption", LiftBool(s.encryption), JBool(false)),
     Attr("file_umask", LiftInt(s.fileUmask), JInt(0)),
     Attr("force_group_for_create", LiftStr(s.forceGroupForCreate), JStr("")),
     Attr("namespace_caching", LiftBool(s.namespaceCaching), JBool(false)),
     Attr("no_strict_security", LiftBool(s.noStrictSecurity), JBool(false)),
     Attr("offline_files", LiftStr(s.offlineFiles), JStr("")),
     Attr("oplocks", LiftBool(s.oplocks), JBool(false)),
     Attr("show_snapshot", LiftBool(s.showSnapshot), JBool(false)),
     Attr("unix_symlink", LiftStr(s.unixSymlink), JStr("")),
     Attr("vscan_profile", LiftStr(s.vscanProfile), JStr(""))]
  }

  /** The attributes create may send: the update ones plus home_directory. */
  function CreateAttrs(s: Share): (r: seq<Attr>)
    ensures DistinctKeys(r) && |r| == 15
  {
    UpdateAttrs(s) + [Attr("home_directory", LiftBool(s.homeDirectory), JBool(false))]
  }

  function AclJson(a: Acl): Json {
    JObj(map["permission" := JStr(a.permission), "type" := JStr(a.aclType), "user_or_group" := JStr(a.userOrGroup)])
  }

  function AclList(acls: seq<Acl>): (r: seq<Json>)
    ensures |r| == |acls|
    ensures forall i :: 0 <= i < |acls| ==> r[i] == AclJson(acls[i])
  {
    if |acls| == 0 then [] else [AclJson(acls[0])] + AclList(acls[1..])
  }

  /**
   * The create body: name, svm and path always; the ACL list unless unknown
   * (a null list is sent empty); every other attribute unless unknown, null
   * ones as their zero value.
   */
  function CreateBody(name: string, svmName: string, path: string, acls: Value<seq<Acl>>, s: Share): (b: Body)
    ensures "name" in b && b["name"] == JStr(name)
    ensures "svm" in b && b["svm"] == JObj(map["name" := JStr(svmName)])
    ensures "path" in b && b["path"] == JStr(path)
    ensures "acls" in b <==> !acls.Unknown?
    ensures acls.Known? ==> b["acls"] == JList(AclList(acls.value))
    ensures acls.Null? ==> b["acls"] == JList(AclList([]))
    ensures SendsUnlessUnknown(b, CreateAttrs(s))
    ensures forall k :: k in b ==> k in {"name", "svm", "path", "acls"} || IsKey(CreateAttrs(s), k)
  {
    var attrs := CreateAttrs(s);
    var sent := PutUnlessUnknown(map[], attrs);
    var fixed := Fixed(name, svmName, path, acls);
    CreateKeysFresh(s);
    var b := sent + fixed;
    SendsFrame(b, sent, attrs);
    b
  }

  /** The keys create sets outside the attribute list. */
  function Fixed(name: string, svmName: string, path: string, acls: Value<seq<Acl>>): (b: Body)
    ensures "name" in b && b["name"] == JStr(name)
    ensures "svm" in b && b["svm"] == JObj(map["name" := JStr(svmName)])
    ensures "path" in b && b["path"] == JStr(path)
    ensures "acls" in b <==> !acls.Unknown?
    ensures acls.Known? ==> b["acls"] == JList(AclList(acls.value))
    ensures acls.Null? ==> b["acls"] == JList(AclList([]))
    ensures forall k :: k in b ==> k in {"name", "svm", "path", "acls"}
  {
    var b: Body := map["name" := JStr(name), "svm" := JObj(map["name" := JStr(svmName)]), "path" := JStr(path)];
    if acls.Unknown? then b else b["acls" := JList(AclList(ValueOr(acls, [])))]
  }

  /** None of the share attributes collides with name, svm, path or acls. */
  lemma CreateKeysFresh(s: Share)
    ensures forall i :: 0 <= i < |CreateAttrs(s)| ==> CreateAttrs(s)[i].key !in {"name", "svm", "path", "acls"}
  {
  }

  // ---------------------------------------------------------------- create

  /** `configHasDefaultACL`: some configured entry is Everyone / full_control. */
  function ConfigHasDefaultAcl(acls: Value<seq<Acl>>): (r: bool)
    ensures r <==> acls.Known? && exists i :: 0 <= i < |acls.value| && IsDefaultAcl(acls.value[i])
  {
    acls.Known? && exists i :: 0 <= i < |acls.value| && IsDefaultAcl(acls.value[i])
  }

  /** The ACL part of create's outcome: the entries deleted and the ACL set stored. */
  datatype AclOutcome = AclOutcome(deleted: seq<Acl>, stored: Value<seq<Acl>>)

  /** Keeps the server entries except the unwanted default, which is deleted. */
  function Prune(server: seq<Acl>, hasDefault: bool): (r: (seq<Acl>, seq<Acl>))
    ensures |r.0| + |r.1| == |server|
    ensures forall a :: a in r.0 ==> a in server && IsDefaultAcl(a) && !hasDefault
    ensures forall a :: a in r.1 ==> a in server && (hasDefault || !IsDefaultAcl(a))
    ensures forall a :: a in server ==> a in r.0 || a in r.1
    ensures hasDefault ==> r == ([], server)
    decreases |server|
  {
    if |server| == 0 then ([], [])
    else
      var rest := Prune(server[1..], hasDefault);
      assert server == [server[0]] + server[1..];
      if IsDefaultAcl(server[0]) && !hasDefault then ([server[0]] + rest.0, rest.1)
      else (rest.0, [server[0]] + rest.1)
  }

  /**
   * After create the share is read back. A nil ACL list is stored as the empty
   * set; otherwise the unwanted default is deleted and the rest stored. The
   * stored set is only assigned when some entry is kept, so when none is,
   * the planned value stays.
   */
  function CreateAcls(planned: Value<seq<Acl>>, server: Option<seq<Acl>>): (r: AclOutcome)
    ensures server.None? ==> r == AclOutcome([], Known([]))
    ensures server.Some? ==> r.deleted == Prune(server.value, ConfigHasDefaultAcl(planned)).0
    ensures server.Some? && |Prune(server.value, ConfigHasDefaultAcl(planned)).1| > 0 ==>
      r.stored == Known(Prune(server.value, ConfigHasDefaultAcl(planned)).1)
    ensures server.Some? && |Prune(server.value, ConfigHasDefaultAcl(planned)).1| == 0 ==> r.stored == planned
  {
    match server
    case None => AclOutcome([], Known([]))
    case Some(acls) =>
      var p := Prune(acls, ConfigHasDefaultAcl(planned));
      AclOutcome(p.0, if |p.1| > 0 then Known(p.1) else planned)
  }

  /** An unconfigured default entry is deleted and never reaches state. */
  lemma DefaultRemovedUnlessConfigured(planned: Value<seq<Acl>>, server: seq<Acl>, a: Acl)
    requires a in server && IsDefaultAcl(a) && !ConfigHasDefaultAcl(planned)
    ensures a in CreateAcls(planned, Some(server)).deleted
    ensures CreateAcls(planned, Some(server)).stored.Known? ==>
      a !in CreateAcls(planned, Some(server)).stored.value || (planned.Known? && a in planned.value)
  {
  }

  /** When the server returns only the default entry and it is unwanted, state keeps the plan's ACLs. */
  lemma OnlyDefaultKeepsPlan(planned: Value<seq<Acl>>)
    requires !ConfigHasDefaultAcl(planned)
    ensures CreateAcls(planned, Some([Acl("full_control", "windows", "Everyone")])) ==
      AclOutcome([Acl("full_control", "windows", "Everyone")], planned)
  {
    var d := Acl("full_control", "windows", "Everyone");
    assert IsDefaultAcl(d) && [d][1..] == [];
    assert Prune([], false) == ([], []);
    assert [d] + [] == [d];
    assert Prune([d], false) == ([d], []);
  }

  /** The calls pruning makes: for each deleted default, the SVM lookup and then the ACL DELETE. */
  function PruneCalls(deleted: seq<Acl>): (r: seq<Step>)
    ensures |r| == 2 * |deleted|
    ensures forall i :: 0 <= i < |deleted| ==>
      r[2 * i] == LookupSvm && r[2 * i + 1] == Acls(DeleteAcl(deleted[i].userOrGroup, deleted[i].aclType))
  {
    seq(2 * |deleted|, i requires 0 <= i < 2 * |deleted| =>
      if i % 2 == 0 then LookupSvm else Acls(DeleteAcl(deleted[i / 2].userOrGroup, deleted[i / 2].aclType)))
  }

  /** What an operation issued, and the state it saved: none when a call failed. */
  datatype Ran<T> = Ran(issued: seq<Step>, saved: Option<T>)

  /**
   * The ACL part of create with its calls: the first lookup or DELETE that
   * fails ends create before anything is saved.
   */
  function CreateAclsRun(planned: Value<seq<Acl>>, server: Option<seq<Acl>>, outcomes: seq<bool>): (r: Ran<AclOutcome>)
    ensures r.saved.Some? <==>
      forall i :: 0 <= i < |PruneCalls(CreateAcls(planned, server).deleted)| ==> !Fails(outcomes, i)
    ensures r.saved.Some? ==>
      r.saved.value == CreateAcls(planned, server) && r.issued == PruneCalls(CreateAcls(planned, server).deleted)
    ensures r.saved.None? ==>
      1 <= |r.issued| <= |PruneCalls(CreateAcls(planned, server).deleted)| &&
      r.issued == PruneCalls(CreateAcls(planned, server).deleted)[..|r.issued|] &&
      Fails(outcomes, |r.issued| - 1)
  {
    var run := Execute(PruneCalls(CreateAcls(planned, server).deleted), outcomes);
    Ran(run.issued, if run.failed then None else Some(CreateAcls(planned, server)))
  }

  /** Without a default entry nothing is pruned. */
  lemma {:induction false} PruneWithoutDefault(server: seq<Acl>, hasDefault: bool)
    requires forall i :: 0 <= i < |server| ==> !IsDefaultAcl(server[i])
    ensures Prune(server, hasDefault) == ([], server)
    decreases |server|
  {
    if |server| > 0 {
      assert forall i :: 0 <= i < |server| - 1 ==> server[1..][i] == server[i + 1];
      PruneWithoutDefault(server[1..], hasDefault);
      assert [server[0]] + server[1..] == server;
    }
  }

  /** A server list without the default entry needs no call, so create's ACL part always completes. */
  lemma NoDefaultNoCalls(planned: Value<seq<Acl>>, server: seq<Acl>, outcomes: seq<bool>)
    requires forall i :: 0 <= i < |server| ==> !IsDefaultAcl(server[i])
    ensures CreateAclsRun(planned, Some(server), outcomes) == Ran([], Some(CreateAcls(planned, Some(server))))
  {
    PruneWithoutDefault(server, ConfigHasDefaultAcl(planned));
    assert PruneCalls([]) == [];
  }

  /** When deleting the `k`-th unwanted default fails, create stops there and saves nothing. */
  lemma FailedDeleteSavesNothing(planned: Value<seq<Acl>>, server: seq<Acl>, outcomes: seq<bool>, k: nat)
    requires k < |CreateAcls(planned, Some(server)).deleted|
    requires forall i :: 0 <= i < 2 * k + 1 ==> !Fails(outcomes, i)
    requires Fails(outcomes, 2 * k + 1)
    ensures CreateAclsRun(planned, Some(server), outcomes).saved.None?
    ensures CreateAclsRun(planned, Some(server), outcomes).issued ==
      PruneCalls(CreateAcls(planned, Some(server)).deleted)[..2 * k + 2]
  {
    ExecuteStopsAtFailure(PruneCalls(CreateAcls(planned, Some(server)).deleted), outcomes, 2 * k + 1);
  }

  // ---------------------------------------------------------------- update: ACLs

  /** The ACL endpoints an update calls. */
  datatype AclAction =
    | UpdateAcl(userOrGroup: string, aclType: string, permission: string)
    | DeleteAcl(userOrGroup: string, aclType: string)
    | CreateAcl(acl: Acl)

  predicate SameEntry(a: Acl, b: Acl) {
    a.userOrGroup == b.userOrGroup && a.aclType == b.aclType
  }

  /** The first entry of `acls` for the same user or group and type. */
  function FirstMatch(a: Acl, acls: seq<Acl>): (r: Option<Acl>)
    ensures r.None? <==> forall i :: 0 <= i < |acls| ==> !SameEntry(a, acls[i])
    ensures r.Some? ==> r.value in acls && SameEntry(a, r.value)
    decreases |acls|
  {
    if |acls| == 0 then None
    else if SameEntry(a, acls[0]) then Some(acls[0])
    else
      assert forall i :: 1 <= i < |acls| ==> acls[i] == acls[1..][i - 1];
      FirstMatch(a, acls[1..])
  }

  /** The inner loop over plan entries for state entry `s`, as written: starting at index `i`. */
  function ScanPlan(s: Acl, plan: seq<Acl>, i: nat): (r: seq<AclAction>)
    requires i <= |plan|
    ensures |r| <= 1 && forall k :: 0 <= k < |r| ==> !r[k].CreateAcl?
    decreases |plan| - i
  {
    if i == |plan| then []
    else if SameEntry(s, plan[i]) then
      (if s.permission == plan[i].permission then [] else [UpdateAcl(plan[i].userOrGroup, plan[i].aclType, plan[i].permission)])
    else if i == |plan| - 1 then [DeleteAcl(s.userOrGroup, s.aclType)]
    else ScanPlan(s, plan, i + 1)
  }

  /** What the loop does for a state entry: update on a permission change, delete when unmatched in a non-empty plan. */
  function StateStep(s: Acl, plan: seq<Acl>): (r: seq<AclAction>)
    ensures |plan| == 0 ==> r == []
    ensures |r| <= 1
  {
    if |plan| == 0 then []
    else match FirstMatch(s, plan)
      case None => [DeleteAcl(s.userOrGroup, s.aclType)]
      case Some(p) => if p.permission == s.permission then [] else [UpdateAcl(p.userOrGroup, p.aclType, p.permission)]
  }

  lemma {:induction false} ScanPlanIsStateStep(s: Acl, plan: seq<Acl>, i: nat)
    requires i < |plan|
    ensures ScanPlan(s, plan, i) == StateStep(s, plan[i..])
    decreases |plan| - i
  {
    if !SameEntry(s, plan[i]) && i < |plan| - 1 {
      ScanPlanIsStateStep(s, plan, i + 1);
      assert plan[i..][1..] == plan[i + 1..];
    }
  }

  /** The inner loop over state entries for plan entry `p`, as written. */
  function ScanState(p: Acl, state: seq<Acl>, i: nat): (r: seq<AclAction>)
    requires i <= |state|
    ensures r == [] || r == [CreateAcl(p)]
    decreases |state| - i
  {
    if i == |state| then []
    else if SameEntry(state[i], p) then []
    else if i == |state| - 1 then [CreateAcl(p)]
    else ScanState(p, state, i + 1)
  }

  /** A plan entry is created when it has no counterpart in a non-empty state. */
  function PlanStep(p: Acl, state: seq<Acl>): (r: seq<AclAction>)
    ensures r == [CreateAcl(p)] <==> |state| > 0 && FirstMatch(p, state).None?
    ensures r == [] <==> |state| == 0 || FirstMatch(p, state).Some?
  {
    if |state| > 0 && FirstMatch(p, state).None? then [CreateAcl(p)] else []
  }

  lemma {:induction false} ScanStateIsPlanStep(p: Acl, state: seq<Acl>, i: nat)
    requires i < |state|
    ensures ScanState(p, state, i) == PlanStep(p, state[i..])
    decreases |state| - i
  {
    if !SameEntry(state[i], p) && i < |state| - 1 {
      ScanStateIsPlanStep(p, state, i + 1);
      assert state[i..][1..] == state[i + 1..];
    }
  }

  /** The loop over state entries: at most one update or delete per entry, never a create. */
  function StateLoop(state: seq<Acl>, plan: seq<Acl>): (r: seq<AclAction>)
    ensures |r| <= |state| && forall k :: 0 <= k < |r| ==> !r[k].CreateAcl?
    decreases |state|
  {
    if |state| == 0 then [] else ScanPlan(state[0], plan, 0) + StateLoop(state[1..], plan)
  }

  /** The loop over plan entries as written: at most one create per entry, of a planned entry. */
  function PlanLoop(plan: seq<Acl>, state: seq<Acl>): (r: seq<AclAction>)
    ensures |r| <= |plan| && forall k :: 0 <= k < |r| ==> r[k].CreateAcl? && r[k].acl in plan
    decreases |plan|
  {
    if |plan| == 0 then [] else ScanState(plan[0], state, 0) + PlanLoop(plan[1..], state)
  }

  /** The ACL calls of an update as written: updates and deletes first, then creates. */
  function AclActionsAsWritten(plan: seq<Acl>, state: seq<Acl>): (r: seq<AclAction>)
    ensures |r| <= |state| + |plan|
    ensures forall i, j :: 0 <= i < j < |r| && r[i].CreateAcl? ==> r[j].CreateAcl?
  {
    StateLoop(state, plan) + PlanLoop(plan, state)
  }

  /** With no ACL in state, no planned ACL is ever created. */
  lemma {:induction false} AsWrittenNeverCreatesIntoEmptyState(plan: seq<Acl>)
    ensures AclActionsAsWritten(plan, []) == []
    decreases |plan|
  {
    if |plan| > 0 {
      AsWrittenNeverCreatesIntoEmptyState(plan[1..]);
    }
  }

  /** A planned entry is created exactly when no state entry has its user and type, whether or not state is empty. */
  function PlanStepCorrected(p: Acl, state: seq<Acl>): (r: seq<AclAction>)
    ensures r == [CreateAcl(p)] <==> FirstMatch(p, state).None?
    ensures r == [] <==> FirstMatch(p, state).Some?
  {
    if FirstMatch(p, state).None? then [CreateAcl(p)] else []
  }

  /** The corrected loop over plan entries: at most one create per entry, of a planned entry. */
  function PlanLoopCorrected(plan: seq<Acl>, state: seq<Acl>): (r: seq<AclAction>)
    ensures |r| <= |plan| && forall k :: 0 <= k < |r| ==> r[k].CreateAcl? && r[k].acl in plan
    decreases |plan|
  {
    if |plan| == 0 then [] else PlanStepCorrected(plan[0], state) + PlanLoopCorrected(plan[1..], state)
  }

  /** The ACL calls of an update with creation into an empty state. */
  function AclActions(plan: seq<Acl>, state: seq<Acl>): (r: seq<AclAction>)
    ensures |r| <= |state| + |plan|
    ensures forall i, j :: 0 <= i < j < |r| && r[i].CreateAcl? ==> r[j].CreateAcl?
  {
    StateLoop(state, plan) + PlanLoopCorrected(plan, state)
  }

  /** Every planned entry without a counterpart in state is created, and nothing else is. */
  lemma {:induction false} CreatesExactlyUnmatched(plan: seq<Acl>, state: seq<Acl>, a: Acl)
    ensures CreateAcl(a) in PlanLoopCorrected(plan, state) <==> a in plan && FirstMatch(a, state).None?
    decreases |plan|
  {
    if |plan| > 0 {
      CreatesExactlyUnmatched(plan[1..], state, a);
      assert plan == [plan[0]] + plan[1..];
      if CreateAcl(a) in PlanStepCorrected(plan[0], state) {
        assert a == plan[0];
      }
    }
  }

  /** A state entry whose first counterpart in the plan has another permission gets one update to that permission. */
  lemma {:induction false} StateLoopUpdates(state: seq<Acl>, plan: seq<Acl>, i: nat)
    requires i < |state| && |plan| > 0
    requires FirstMatch(state[i], plan).Some? && FirstMatch(state[i], plan).value.permission != state[i].permission
    ensures UpdateAcl(state[i].userOrGroup, state[i].aclType, FirstMatch(state[i], plan).value.permission) in StateLoop(state, plan)
    decreases i
  {
    ScanPlanIsStateStep(state[0], plan, 0);
    assert plan[0..] == plan;
    if i > 0 {
      StateLoopUpdates(state[1..], plan, i - 1);
    }
  }

  /** A state entry without counterpart in a non-empty plan is deleted. */
  lemma {:induction false} StateLoopDeletes(state: seq<Acl>, plan: seq<Acl>, i: nat)
    requires i < |state| && |plan| > 0
    requires FirstMatch(state[i], plan).None?
    ensures DeleteAcl(state[i].userOrGroup, state[i].aclType) in StateLoop(state, plan)
    decreases i
  {
    ScanPlanIsStateStep(state[0], plan, 0);
    assert plan[0..] == plan;
    if i > 0 {
      StateLoopDeletes(state[1..], plan, i - 1);
    }
  }

  /** An empty plan deletes nothing: the delete branch sits inside the loop over plan entries. */
  lemma {:induction false} EmptyPlanDeletesNothing(state: seq<Acl>)
    ensures StateLoop(state, []) == []
    decreases |state|
  {
    if |state| > 0 {
      EmptyPlanDeletesNothing(state[1..]);
    }
  }

  /** In a list whose entries differ in user or type, an entry's first counterpart is itself. */
  lemma {:induction false} FirstMatchSelf(acls: seq<Acl>, i: nat)
    requires i < |acls|
    requires forall j, k :: 0 <= j < k < |acls| ==> !SameEntry(acls[j], acls[k])
    ensures FirstMatch(acls[i], acls) == Some(acls[i])
    decreases i
  {
    if i > 0 {
      assert !SameEntry(acls[0], acls[i]);
      assert acls[1..][i - 1] == acls[i];
      FirstMatchSelf(acls[1..], i - 1);
    }
  }

  /** State entries whose counterpart has the same permission cause no update or delete. */
  lemma {:induction false} StateLoopQuiet(state: seq<Acl>, plan: seq<Acl>)
    requires |plan| > 0
    requires forall i :: 0 <= i < |state| ==>
      (FirstMatch(state[i], plan).Some? && FirstMatch(state[i], plan).value.permission == state[i].permission)
    ensures StateLoop(state, plan) == []
    decreases |state|
  {
    if |state| > 0 {
      ScanPlanIsStateStep(state[0], plan, 0);
      assert plan[0..] == plan;
      assert forall i :: 0 <= i < |state| - 1 ==> state[1..][i] == state[i + 1];
      StateLoopQuiet(state[1..], plan);
    }
  }

  /** Plan entries that all have a counterpart in state cause no create. */
  lemma {:induction false} PlanLoopQuiet(plan: seq<Acl>, state: seq<Acl>)
    requires forall i :: 0 <= i < |plan| ==> FirstMatch(plan[i], state).Some?
    ensures PlanLoop(plan, state) == []
    decreases |plan|
  {
    if |plan| > 0 {
      if |state| > 0 {
        ScanStateIsPlanStep(plan[0], state, 0);
        assert state[0..] == state;
      }
      assert forall i :: 0 <= i < |plan| - 1 ==> plan[1..][i] == plan[i + 1];
      PlanLoopQuiet(plan[1..], state);
    }
  }

  /** Reconciling a list with itself issues no ACL call. */
  lemma UnchangedNoAcls(acls: seq<Acl>)
    requires forall i, j :: 0 <= i < j < |acls| ==> !SameEntry(acls[i], acls[j])
    ensures AclActionsAsWritten(acls, acls) == []
  {
    forall i | 0 <= i < |acls| ensures FirstMatch(acls[i], acls) == Some(acls[i]) {
      FirstMatchSelf(acls, i);
    }
    if |acls| > 0 {
      StateLoopQuiet(acls, acls);
    }
    PlanLoopQuiet(acls, acls);
  }

  // ---------------------------------------------------------------- update: share attributes

  /** The share PATCH body: each attribute known in the plan and different from state. */
  function UpdateBody(plan: Share, state: Share): (b: Body)
    ensures SendsChanged(b, UpdateAttrs(plan), Values(UpdateAttrs(state)))
    ensures forall k :: k in b ==> IsKey(UpdateAttrs(plan), k)
  {
    PutChanged(map[], UpdateAttrs(plan), Values(UpdateAttrs(state)))
  }

  /** Updating to the current attributes sends an empty body. */
  lemma UpdateBodyUnchanged(s: Share)
    ensures UpdateBody(s, s) == map[]
  {
    ChangedNothing(map[], UpdateAttrs(s));
  }

  /** An attribute changed from state to a known value is sent with that value. */
  lemma UpdateSendsComment(plan: Share, state: Share, c: string)
    requires plan.comment == Known(c) && state.comment != Known(c)
    ensures "comment" in UpdateBody(plan, state) && UpdateBody(plan, state)["comment"] == JStr(c)
  {
    assert UpdateAttrs(plan)[1].key == "comment" && UpdateAttrs(plan)[1].value == Known(JStr(c));
    assert Values(UpdateAttrs(state))[1] == LiftStr(state.comment);
  }

  /** The calls of an update: the SVM lookup, the ACL calls, the share PATCH. */
  datatype Step = LookupSvm | Acls(action: AclAction) | PatchShare(body: Body)

  function MapAcls(as_: seq<AclAction>): (r: seq<Step>)
    ensures |r| == |as_| && forall i :: 0 <= i < |as_| ==> r[i] == Acls(as_[i])
  {
    if |as_| == 0 then [] else [Acls(as_[0])] + MapAcls(as_[1..])
  }

  /**
   * The ACL calls and the share PATCH of an update, as written: when the
   * plan's ACLs are known (a null list reads as empty) the reconciliation
   * runs, then the PATCH is sent.
   */
  function UpdateSteps(planAcls: Value<seq<Acl>>, stateAcls: seq<Acl>, plan: Share, state: Share): (r: seq<Step>)
    ensures |r| >= 1 && r[|r| - 1] == PatchShare(UpdateBody(plan, state))
    ensures forall i :: 0 <= i < |r| - 1 ==> r[i].Acls?
    ensures planAcls.Unknown? ==> r == [PatchShare(UpdateBody(plan, state))]
    ensures !planAcls.Unknown? ==> r[..|r| - 1] == MapAcls(AclActionsAsWritten(ValueOr(planAcls, []), stateAcls))
  {
    (if planAcls.Unknown? then [] else MapAcls(AclActionsAsWritten(ValueOr(planAcls, []), stateAcls))) +
      [PatchShare(UpdateBody(plan, state))]
  }

  /** The same steps with the corrected reconciliation, which also creates into an empty state. */
  function UpdateStepsCorrected(planAcls: Value<seq<Acl>>, stateAcls: seq<Acl>, plan: Share, state: Share): (r: seq<Step>)
    ensures |r| >= 1 && r[|r| - 1] == PatchShare(UpdateBody(plan, state))
    ensures planAcls.Unknown? ==> r == [PatchShare(UpdateBody(plan, state))]
    ensures !planAcls.Unknown? ==> r[..|r| - 1] == MapAcls(AclActions(ValueOr(planAcls, []), stateAcls))
  {
    (if planAcls.Unknown? then [] else MapAcls(AclActions(ValueOr(planAcls, []), stateAcls))) +
      [PatchShare(UpdateBody(plan, state))]
  }

  /**
   * `Update`: the SVM lookup, then the steps, each returning on error; the
   * plan is saved only when every call succeeded.
   */
  function Update(planAcls: Value<seq<Acl>>, stateAcls: seq<Acl>, plan: Share, state: Share, outcomes: seq<bool>): (r: Ran<Share>)
    ensures r.saved.Some? <==>
      forall i :: 0 <= i < |UpdateSteps(planAcls, stateAcls, plan, state)| + 1 ==> !Fails(outcomes, i)
    ensures r.saved.Some? ==>
      r.saved.value == plan && r.issued == [LookupSvm] + UpdateSteps(planAcls, stateAcls, plan, state)
    ensures r.saved.None? ==>
      1 <= |r.issued| <= |UpdateSteps(planAcls, stateAcls, plan, state)| + 1 &&
      r.issued == ([LookupSvm] + UpdateSteps(planAcls, stateAcls, plan, state))[..|r.issued|] &&
      Fails(outcomes, |r.issued| - 1)
  {
    var run := Execute([LookupSvm] + UpdateSteps(planAcls, stateAcls, plan, state), outcomes);
    Ran(run.issued, if run.failed then None else Some(plan))
  }

  /** When the lookup or an ACL call fails, the share PATCH is never sent and nothing is saved. */
  lemma FailedAclCallSkipsPatch(planAcls: Value<seq<Acl>>, stateAcls: seq<Acl>, plan: Share, state: Share,
                                outcomes: seq<bool>, k: nat)
    requires k < |UpdateSteps(planAcls, stateAcls, plan, state)| && Fails(outcomes, k)
    ensures Update(planAcls, stateAcls, plan, state, outcomes).saved.None?
    ensures PatchShare(UpdateBody(plan, state)) !in Update(planAcls, stateAcls, plan, state, outcomes).issued
  {
    var steps := UpdateSteps(planAcls, stateAcls, plan, state);
    var calls := [LookupSvm] + steps;
    var r := Update(planAcls, stateAcls, plan, state, outcomes);
    assert r.saved.None?;
    assert |r.issued| <= k + 1;
    forall i | 0 <= i < |r.issued| ensures r.issued[i] != PatchShare(UpdateBody(plan, state)) {
      assert r.issued[i] == calls[i];
      if i > 0 { assert calls[i] == steps[i - 1]; }
    }
  }

  /** With the ACLs and attributes unchanged and no two ACL entries for the same user or group and type, update issues one PATCH of an empty body and no ACL call. */
  lemma UpdateUnchanged(acls: seq<Acl>, s: Share)
    requires forall i, j :: 0 <= i < j < |acls| ==> !SameEntry(acls[i], acls[j])
    ensures UpdateSteps(Known(acls), acls, s, s) == [PatchShare(map[])]
  {
    UpdateBodyUnchanged(s);
    UnchangedNoAcls(acls);
  }

  // ---------------------------------------------------------------- import

  // `ImportState` takes `name,svm_name,cx_profile_name`: `ImportId.ImportSvmScoped`.
}
