/**
 * Security roles (`interfaces/security_role.go`,
 * `provider/security/security_role_resource.go`): the set difference helper,
 * privilege request shaping, and the privilege reconciliation of create and
 * update. A role's privileges are kept in the order Terraform enumerates the set.
 */
module SecurityRole {
  import opened Wrappers
  import opened Tf
  import opened GoStrings
  import opened ImportId
  import opened Calls

  /** `SecurityRolePrivileges`: the server's, and the request's, form of a privilege; an absent query is "". */
  datatype Privilege = Privilege(access: string, path: string, query: string)

  /** A privilege as kept in Terraform state: an empty query is null. */
  datatype StatePrivilege = StatePrivilege(access: string, path: string, query: Value<string>)

  /** The `{DEFAULT, none, ""}` privilege ONTAP adds to every new role. */
  predicate IsDefault(p: Privilege) {
    p.path == "DEFAULT" && p.access == "none" && p.query == ""
  }

  // ---------------------------------------------------------------- Difference

  /** `Difference(a, b)`: the elements of b, in order and with repeats, that are not in a. */
  function Difference(a: seq<Privilege>, b: seq<Privilege>): (d: seq<Privilege>)
    ensures forall x :: x in d ==> x in b && x !in a
    ensures forall x :: x in b && x !in a ==> x in d
    ensures |d| <= |b|
    decreases |b|
  {
    if |b| == 0 then []
    else (if b[0] in a then [] else [b[0]]) + Difference(a, b[1..])
  }

  /** Repeats survive: an element missing from a occurs in the difference as often as in b. */
  lemma {:induction false} DifferenceMultiplicity(a: seq<Privilege>, b: seq<Privilege>, x: Privilege)
    requires x !in a
    ensures multiset(Difference(a, b))[x] == multiset(b)[x]
    decreases |b|
  {
    if |b| > 0 {
      DifferenceMultiplicity(a, b[1..], x);
      assert b == [b[0]] + b[1..];
    }
  }

  lemma DifferenceSelf(a: seq<Privilege>)
    ensures Difference(a, a) == []
  {
    if Difference(a, a) != [] {
      assert Difference(a, a)[0] in Difference(a, a);
    }
  }

  lemma {:induction false} DifferenceOfEmpty(b: seq<Privilege>)
    ensures Difference([], b) == b
    decreases |b|
  {
    if |b| > 0 {
      DifferenceOfEmpty(b[1..]);
    }
  }

  /** The hash-set loop of the source computes the same difference. */
  method DifferenceLoop(a: seq<Privilege>, b: seq<Privilege>) returns (diff: seq<Privilege>)
    ensures diff == Difference(a, b)
  {
    var m: set<Privilege> := {};
    for i := 0 to |a|
      invariant m == set j | 0 <= j < i :: a[j]
    {
      m := m + {a[i]};
    }
    assert forall x :: x in m <==> x in a;
    diff := [];
    var k := |b|;
    // Difference is defined from the front; walk b from the back so each step prepends.
    while k > 0
      invariant 0 <= k <= |b|
      invariant diff == Difference(a, b[k..])
    {
      k := k - 1;
      assert b[k..][1..] == b[k + 1..];
      if b[k] !in m {
        diff := [b[k]] + diff;
      }
    }
    assert b[0..] == b;
  }

  // ---------------------------------------------------------------- request shaping

  /** The owning SVM's uuid and the role name, which together address a role. */
  datatype RoleRef = RoleRef(svmUuid: string, name: string)

  datatype Verb = Get | Post | Patch | Delete

  datatype Request = Request(verb: Verb, api: string, body: Body)

  function RoleApi(r: RoleRef): string {
    "security/roles/" + r.svmUuid + "/" + r.name
  }

  /** The encoded privilege: each field present only when non-empty (`omitempty`). */
  function PrivilegeBody(p: Privilege): (b: Body)
    ensures "access" in b <==> p.access != ""
    ensures "path" in b <==> p.path != ""
    ensures "query" in b <==> p.query != ""
    ensures forall k :: k in b ==> k in {"access", "path", "query"}
    ensures "access" in b ==> b["access"] == JStr(p.access)
    ensures "path" in b ==> b["path"] == JStr(p.path)
    ensures "query" in b ==> b["query"] == JStr(p.query)
  {
    PutIf(PutIf(PutIf(map[], p.access != "", "access", JStr(p.access)), p.path != "", "path", JStr(p.path)),
          p.query != "", "query", JStr(p.query))
  }

  /** `CreateSecurityRolePrivileges`: POST the privilege to the role's privilege collection. */
  function CreatePrivilegeRequest(r: RoleRef, p: Privilege): (q: Request)
    ensures q.verb == Post && q.api == RoleApi(r) + "/privileges" && q.body == PrivilegeBody(p)
  {
    Request(Post, RoleApi(r) + "/privileges", PrivilegeBody(p))
  }

  /** `UpdateSecurityRolePrivileges`: PATCH addressed by path; the path itself is not in the body. */
  function UpdatePrivilegeRequest(r: RoleRef, p: Privilege): (q: Request)
    ensures q.verb == Patch && q.api == RoleApi(r) + "/privileges/" + p.path
    ensures "path" !in q.body
    ensures forall k :: k in q.body ==> k in PrivilegeBody(p) && q.body[k] == PrivilegeBody(p)[k]
    ensures forall k :: k in PrivilegeBody(p) && k != "path" ==> k in q.body
  {
    Request(Patch, RoleApi(r) + "/privileges/" + p.path, PrivilegeBody(p) - {"path"})
  }

  /** `DeleteSecurityRolePrivileges`. */
  function DeletePrivilegeRequest(r: RoleRef, path: string): (q: Request)
    ensures q.verb == Delete && q.api == "security/roles/" + r.svmUuid + "/" + r.name + "/privileges/" + path
    ensures q.body == map[]
  {
    Request(Delete, RoleApi(r) + "/privileges/" + path, map[])
  }

  /** The PATCH target ends in the privilege's path, whatever that path is. */
  lemma UpdateTargetsPath(r: RoleRef, p: Privilege)
    ensures HasSuffix(UpdatePrivilegeRequest(r, p).api, "/privileges/" + p.path)
  {
    var api := UpdatePrivilegeRequest(r, p).api;
    assert api == RoleApi(r) + ("/privileges/" + p.path);
  }

  // ---------------------------------------------------------------- read

  /** The fields of a role record the resource uses. */
  datatype Role = Role(name: string, ownerUuid: string, privileges: seq<Privilege>, scope: string, builtin: bool)

  /** The privilege as stored in state: an empty query becomes null. */
  function ToState(p: Privilege): (s: StatePrivilege)
    ensures s.access == p.access && s.path == p.path
    ensures p.query == "" ==> s.query.Null?
    ensures p.query != "" ==> s.query == Known(p.query)
  {
    StatePrivilege(p.access, p.path, if p.query == "" then Null else Known(p.query))
  }

  /** The privilege a state entry sends: `ValueString()` of each attribute. */
  function FromState(s: StatePrivilege): Privilege {
    Privilege(s.access, s.path, Str(s.query))
  }

  /** Storing a server privilege and sending it back loses nothing. */
  lemma FromStateToState(p: Privilege)
    ensures FromState(ToState(p)) == p
  {
  }

  /** A state privilege survives the round trip unless it holds an unknown or an explicit empty query. */
  lemma ToStateFromState(s: StatePrivilege)
    ensures ToState(FromState(s)) == s <==> s.query.Null? || (s.query.Known? && s.query.value != "")
  {
  }

  /** The first role of the GET reply whose name is the configured name. */
  function FindRole(roles: seq<Role>, name: string): (r: Option<Role>)
    ensures r.Some? <==> exists i :: 0 <= i < |roles| && roles[i].name == name
    ensures r.Some? ==> r.value in roles && r.value.name == name
    ensures r.Some? ==> exists i :: 0 <= i < |roles| && roles[i] == r.value && forall j :: 0 <= j < i ==> roles[j].name != name
  {
    if |roles| == 0 then None
    else if roles[0].name == name then Some(roles[0])
    else
      var r := FindRole(roles[1..], name);
      if r.Some? then
        assert exists i :: 0 <= i < |roles[1..]| && roles[1..][i] == r.value && forall j :: 0 <= j < i ==> roles[1..][j].name != name;
        var i :| 0 <= i < |roles[1..]| && roles[1..][i] == r.value && forall j :: 0 <= j < i ==> roles[1..][j].name != name;
        assert roles[i + 1] == r.value;
        r
      else
        assert forall i :: 1 <= i < |roles| ==> roles[i] == roles[1..][i - 1];
        r
  }

  function MapToState(ps: seq<Privilege>): (r: seq<StatePrivilege>)
    ensures |r| == |ps|
    ensures forall i :: 0 <= i < |ps| ==> r[i] == ToState(ps[i])
  {
    if |ps| == 0 then [] else [ToState(ps[0])] + MapToState(ps[1..])
  }

  /** The state written by Read. */
  datatype RoleState = RoleState(id: string, name: string, builtin: bool, scope: string, privileges: seq<StatePrivilege>)

  /** The role ID: the owner's uuid, a slash, the role name. */
  function RoleId(r: Role): (id: string)
    ensures |id| == |r.ownerUuid| + 1 + |r.name|
    ensures id[..|r.ownerUuid|] == r.ownerUuid && id[|r.ownerUuid|] == '/' && id[|r.ownerUuid| + 1..] == r.name
  {
    r.ownerUuid + "/" + r.name
  }

  /** Read: a missing role is an error; otherwise the state mirrors the record. */
  function Read(roles: seq<Role>, name: string): (r: Result<RoleState, string>)
    ensures r.Failure? <==> forall i :: 0 <= i < |roles| ==> roles[i].name != name
    ensures r.Success? ==> r.value.name == name && |r.value.privileges| == |FindRole(roles, name).value.privileges|
    ensures r.Success? ==> r.value.id == RoleId(FindRole(roles, name).value)
    ensures r.Success? ==> r.value.privileges == MapToState(FindRole(roles, name).value.privileges)
    ensures r.Success? ==> r.value.builtin == FindRole(roles, name).value.builtin && r.value.scope == FindRole(roles, name).value.scope
  {
    match FindRole(roles, name)
    case None => Failure("SecurityRole not found")
    case Some(role) =>
      Success(RoleState(RoleId(role), role.name, role.builtin, role.scope, MapToState(role.privileges)))
  }

  /** Splitting a role ID at '/' recovers owner and name when neither holds a slash. */
  lemma RoleIdSplits(r: Role)
    requires '/' !in r.ownerUuid && '/' !in r.name
    ensures Split(RoleId(r), '/') == [r.ownerUuid, r.name]
  {
    assert RoleId(r) == Join([r.ownerUuid, r.name], '/');
    SplitJoin([r.ownerUuid, r.name], '/');
  }

  // ---------------------------------------------------------------- create

  /**
   * The flag computed for each `{DEFAULT, none, ""}` record after create:
   * the planned list is scanned, each non-default entry setting the flag and
   * the first default entry clearing it and stopping the scan.
   */
  function DeleteDefaultFlag(planned: seq<Privilege>, flag: bool): bool
    decreases |planned|
  {
    if |planned| == 0 then flag
    else if IsDefault(planned[0]) then false
    else DeleteDefaultFlag(planned[1..], true)
  }

  /** The scan deletes DEFAULT exactly when the plan is non-empty and has no default entry. */
  lemma {:induction false} DeleteDefaultFlagIff(planned: seq<Privilege>, flag: bool)
    ensures DeleteDefaultFlag(planned, flag) <==>
      (flag || |planned| > 0) && forall i :: 0 <= i < |planned| ==> !IsDefault(planned[i])
    decreases |planned|
  {
    if |planned| > 0 && !IsDefault(planned[0]) {
      DeleteDefaultFlagIff(planned[1..], true);
      assert forall i :: 1 <= i < |planned| ==> planned[i] == planned[1..][i - 1];
    }
  }

  /** What create does with the privileges of the new role: delete some, store the rest. */
  datatype Pruned = Pruned(deletes: seq<string>, kept: seq<StatePrivilege>)

  function PruneDefault(server: seq<Privilege>, planned: seq<Privilege>): (r: Pruned)
    ensures |r.deletes| + |r.kept| == |server|
    ensures forall i :: 0 <= i < |r.deletes| ==> r.deletes[i] == "DEFAULT"
    ensures !DeleteDefaultFlag(planned, false) ==> r == Pruned([], MapToState(server))
    ensures forall i :: 0 <= i < |r.kept| ==> r.kept[i] in MapToState(server)
    decreases |server|
  {
    if |server| == 0 then Pruned([], [])
    else
      var rest := PruneDefault(server[1..], planned);
      assert forall x :: x in MapToState(server[1..]) ==> x in MapToState(server) by {
        assert MapToState(server) == [ToState(server[0])] + MapToState(server[1..]);
      }
      if IsDefault(server[0]) && DeleteDefaultFlag(planned, false) then Pruned(["DEFAULT"] + rest.deletes, rest.kept)
      else Pruned(rest.deletes, [ToState(server[0])] + rest.kept)
  }

  /** With a non-empty, default-free plan, every default record is deleted and none is stored. */
  lemma {:induction false} PruneRemovesDefaults(server: seq<Privilege>, planned: seq<Privilege>)
    requires |planned| > 0 && forall i :: 0 <= i < |planned| ==> !IsDefault(planned[i])
    ensures forall i :: 0 <= i < |PruneDefault(server, planned).kept| ==> !IsDefault(FromState(PruneDefault(server, planned).kept[i]))
    ensures |PruneDefault(server, planned).deletes| + |PruneDefault(server, planned).kept| == |server|
    decreases |server|
  {
    DeleteDefaultFlagIff(planned, false);
    if |server| > 0 {
      PruneRemovesDefaults(server[1..], planned);
    }
  }

  /**
   * Create's privilege step with its calls: each DEFAULT deletion is one
   * DELETE, and the first that fails is reported and ends create before
   * state is saved.
   */
  function CreatePrune(server: seq<Privilege>, planned: seq<Privilege>, outcomes: seq<bool>): (r: Result<seq<StatePrivilege>, string>)
    ensures r.Success? <==> forall i :: 0 <= i < |PruneDefault(server, planned).deletes| ==> !Fails(outcomes, i)
    ensures r.Success? ==> r.value == PruneDefault(server, planned).kept
    ensures r.Failure? ==> r.error == "error deleting default security_role privileges"
  {
    if Execute(PruneDefault(server, planned).deletes, outcomes).failed then
      Failure("error deleting default security_role privileges")
    else Success(PruneDefault(server, planned).kept)
  }

  /** An empty plan, or one with its own default entry, deletes nothing, so create stores every server record. */
  lemma PruneKeepsAllWhenPlanned(server: seq<Privilege>, planned: seq<Privilege>, outcomes: seq<bool>)
    requires |planned| == 0 || exists i :: 0 <= i < |planned| && IsDefault(planned[i])
    ensures CreatePrune(server, planned, outcomes) == Success(MapToState(server))
  {
    DeleteDefaultFlagIff(planned, false);
  }

  /**
   * The create request: name, owner and the privilege list. A null plan
   * leaves the list nil, which has no omitempty and is sent as null.
   */
  function CreateBody(name: string, svmName: string, planned: Option<seq<Privilege>>): (b: Body)
    ensures b.Keys == {"name", "owner", "privileges"}
    ensures b["name"] == JStr(name) && b["owner"] == JObj(map["name" := JStr(svmName)])
    ensures planned.Some? ==> b["privileges"] == JList(PrivilegeList(planned.value))
    ensures planned.None? ==> b["privileges"] == JNull
  {
    map["name" := JStr(name), "owner" := JObj(map["name" := JStr(svmName)]),
        "privileges" := if planned.Some? then JList(PrivilegeList(planned.value)) else JNull]
  }

  function PrivilegeList(ps: seq<Privilege>): (r: seq<Json>)
    ensures |r| == |ps|
    ensures forall i :: 0 <= i < |ps| ==> r[i] == JObj(PrivilegeBody(ps[i]))
  {
    if |ps| == 0 then [] else [JObj(PrivilegeBody(ps[0]))] + PrivilegeList(ps[1..])
  }

  // ---------------------------------------------------------------- update

  /** One intended step of an update. */
  datatype Action =
    | PatchPrivilege(privilege: Privilege)
    | PostPrivilege(privilege: Privilege)   // always followed by an error diagnostic
    | DeletePath(path: string)

  predicate PathIn(path: string, ps: seq<Privilege>) {
    exists i :: 0 <= i < |ps| && ps[i].path == path
  }

  /** One PATCH carrying plan privilege `p` for each state privilege with its path but other access or query. */
  function PatchesFor(p: Privilege, state: seq<Privilege>): (r: seq<Action>)
    ensures forall i :: 0 <= i < |r| ==> r[i] == PatchPrivilege(p)
    ensures r == [] <==> forall i :: 0 <= i < |state| && state[i].path == p.path ==> state[i] == p
    ensures |r| <= |state|
    decreases |state|
  {
    if |state| == 0 then []
    else
      var c := state[0];
      var rest := PatchesFor(p, state[1..]);
      assert forall i :: 1 <= i < |state| ==> state[i] == state[1..][i - 1];
      (if c.path == p.path && (c.access != p.access || c.query != p.query) then [PatchPrivilege(p)] else []) + rest
  }

  /** The steps for one plan privilege, given whether a default entry has been met so far. */
  function StepsFor(p: Privilege, state: seq<Privilege>, seenDefault: bool): (r: seq<Action>)
    ensures PostPrivilege(p) in r <==> !PathIn(p.path, state)
    ensures DeletePath("DEFAULT") in r <==> !PathIn(p.path, state) && !seenDefault
    ensures forall a :: a in r ==> a == PatchPrivilege(p) || a == PostPrivilege(p) || a == DeletePath("DEFAULT")
  {
    PatchesFor(p, state) +
      (if PathIn(p.path, state) then []
       else [PostPrivilege(p)] + (if seenDefault then [] else [DeletePath("DEFAULT")]))
  }

  /** The first loop of Update, carrying `hasDefaultPathInPlan` from one plan entry to the next. */
  function PlanPhase(plan: seq<Privilege>, state: seq<Privilege>, hasDefault: bool): seq<Action>
    decreases |plan|
  {
    if |plan| == 0 then []
    else
      var seen := hasDefault || IsDefault(plan[0]);
      StepsFor(plan[0], state, seen) + PlanPhase(plan[1..], state, seen)
  }

  predicate HasDefault(ps: seq<Privilege>) {
    exists i :: 0 <= i < |ps| && IsDefault(ps[i])
  }

  /** The same loop stated position by position: entry i sees a default iff one occurs at or before i. */
  function PlanPhaseAt(plan: seq<Privilege>, state: seq<Privilege>, i: nat): seq<Action>
    requires i <= |plan|
    decreases |plan| - i
  {
    if i == |plan| then []
    else StepsFor(plan[i], state, HasDefault(plan[..i + 1])) + PlanPhaseAt(plan, state, i + 1)
  }

  /** The carried flag is exactly "a default entry occurs at or before this position": the order matters. */
  lemma {:induction false} PlanPhaseByPosition(plan: seq<Privilege>, state: seq<Privilege>, i: nat)
    requires i <= |plan|
    ensures PlanPhase(plan[i..], state, HasDefault(plan[..i])) == PlanPhaseAt(plan, state, i)
    decreases |plan| - i
  {
    if i < |plan| {
      assert plan[..i + 1] == plan[..i] + [plan[i]];
      assert HasDefault(plan[..i + 1]) == (HasDefault(plan[..i]) || IsDefault(plan[i])) by {
        if IsDefault(plan[i]) { assert plan[..i + 1][i] == plan[i]; }
        if HasDefault(plan[..i]) {
          var j :| 0 <= j < i && IsDefault(plan[..i][j]);
          assert plan[..i + 1][j] == plan[..i][j];
        }
        if HasDefault(plan[..i + 1]) {
          var j :| 0 <= j < i + 1 && IsDefault(plan[..i + 1][j]);
          if j < i { assert plan[..i][j] == plan[..i + 1][j]; }
        }
      }
      assert plan[i..][1..] == plan[i + 1..];
      PlanPhaseByPosition(plan, state, i + 1);
    }
  }

  /** The second loop: each state privilege whose path the plan lacks is deleted. */
  function DeletePhase(state: seq<Privilege>, plan: seq<Privilege>): (r: seq<Action>)
    ensures forall a :: a in r ==> a.DeletePath? && !PathIn(a.path, plan) && PathIn(a.path, state)
    ensures forall i :: 0 <= i < |state| && !PathIn(state[i].path, plan) ==> DeletePath(state[i].path) in r
    ensures (forall i :: 0 <= i < |state| ==> PathIn(state[i].path, plan)) ==> r == []
    decreases |state|
  {
    if |state| == 0 then []
    else
      var rest := DeletePhase(state[1..], plan);
      assert forall i :: 1 <= i < |state| ==> state[i] == state[1..][i - 1];
      assert forall a :: a in rest ==> PathIn(a.path, state) by {
        forall a | a in rest ensures PathIn(a.path, state) {
          var k :| 0 <= k < |state[1..]| && state[1..][k].path == a.path;
          assert state[k + 1].path == a.path;
        }
      }
      (if PathIn(state[0].path, plan) then [] else [DeletePath(state[0].path)]) + rest
  }

  /**
   * Update's steps: the plan loop, then the state loop. A privilege is POSTed
   * exactly when planned with a path state lacks; a path other than DEFAULT
   * is deleted only when state has it and the plan does not, and every such
   * path is.
   */
  function UpdateActions(plan: seq<Privilege>, state: seq<Privilege>): (r: seq<Action>)
    ensures forall p :: PostPrivilege(p) in r <==> p in plan && !PathIn(p.path, state)
    ensures forall a :: a in r && a.DeletePath? && a.path != "DEFAULT" ==> !PathIn(a.path, plan) && PathIn(a.path, state)
    ensures forall i :: 0 <= i < |state| && !PathIn(state[i].path, plan) ==> DeletePath(state[i].path) in r
    ensures forall a :: a in r && a.PatchPrivilege? ==> a.privilege in plan
  {
    PostedIffAll(plan, state, false);
    PlanPhaseShape(plan, state, false);
    PlanPhase(plan, state, false) + DeletePhase(state, plan)
  }

  /** The plan loop PATCHes and POSTs plan privileges and deletes no path but DEFAULT. */
  lemma {:induction false} PlanPhaseShape(plan: seq<Privilege>, state: seq<Privilege>, seen: bool)
    ensures forall a :: a in PlanPhase(plan, state, seen) ==>
      (a.PatchPrivilege? && a.privilege in plan) || (a.PostPrivilege? && a.privilege in plan) || a == DeletePath("DEFAULT")
    decreases |plan|
  {
    if |plan| > 0 {
      var seen' := seen || IsDefault(plan[0]);
      PlanPhaseShape(plan[1..], state, seen');
      assert forall p :: p in plan[1..] ==> p in plan;
    }
  }

  /** `PostedIff` for every privilege at once. */
  lemma PostedIffAll(plan: seq<Privilege>, state: seq<Privilege>, seen: bool)
    ensures forall p :: PostPrivilege(p) in PlanPhase(plan, state, seen) <==> p in plan && !PathIn(p.path, state)
  {
    forall p {
      PostedIff(plan, state, seen, p);
    }
  }

  predicate DistinctPaths(ps: seq<Privilege>) {
    forall i, j :: 0 <= i < j < |ps| ==> ps[i].path != ps[j].path
  }

  /** An unchanged privilege set with one entry per path produces no call. */
  lemma UpdateUnchanged(ps: seq<Privilege>)
    requires DistinctPaths(ps)
    ensures UpdateActions(ps, ps) == []
  {
    PlanPhaseUnchanged(ps, ps, false);
    assert forall i :: 0 <= i < |ps| ==> PathIn(ps[i].path, ps);
  }

  lemma {:induction false} PlanPhaseUnchanged(plan: seq<Privilege>, state: seq<Privilege>, seen: bool)
    requires DistinctPaths(state)
    requires forall i :: 0 <= i < |plan| ==> plan[i] in state
    ensures PlanPhase(plan, state, seen) == []
    decreases |plan|
  {
    if |plan| > 0 {
      var p := plan[0];
      var k :| 0 <= k < |state| && state[k] == p;
      assert PathIn(p.path, state);
      assert PatchesFor(p, state) == [] by {
        forall i | 0 <= i < |state| && state[i].path == p.path ensures state[i] == p {
        }
      }
      PlanPhaseUnchanged(plan[1..], state, seen || IsDefault(p));
    }
  }

  /** The steps for one plan privilege POST that privilege and no other. */
  lemma PostedInSteps(q: Privilege, state: seq<Privilege>, seen: bool, p: Privilege)
    ensures PostPrivilege(p) in StepsFor(q, state, seen) <==> p == q && !PathIn(q.path, state)
  {
  }

  /** A plan privilege is POSTed exactly when its path is absent from state. */
  lemma {:induction false} PostedIff(plan: seq<Privilege>, state: seq<Privilege>, seen: bool, p: Privilege)
    ensures PostPrivilege(p) in PlanPhase(plan, state, seen) <==> p in plan && !PathIn(p.path, state)
    decreases |plan|
  {
    if |plan| > 0 {
      var seen' := seen || IsDefault(plan[0]);
      PostedIff(plan[1..], state, seen', p);
      PostedInSteps(plan[0], state, seen', p);
      PostedCons(plan, p);
    }
  }

  lemma PostedCons(plan: seq<Privilege>, p: Privilege)
    requires |plan| > 0
    ensures p in plan <==> p == plan[0] || p in plan[1..]
  {
    assert plan == [plan[0]] + plan[1..];
  }

  /** The request each step sends. */
  function ActionRequest(r: RoleRef, a: Action): Request {
    match a
    case PatchPrivilege(p) => UpdatePrivilegeRequest(r, p)
    case PostPrivilege(p) => CreatePrivilegeRequest(r, p)
    case DeletePath(path) => DeletePrivilegeRequest(r, path)
  }

  /** The result of an update: what was issued, how many error diagnostics, whether state was saved. */
  datatype UpdateResult = UpdateResult(issued: seq<Action>, errors: nat, saved: bool)

  function CountPosts(as_: seq<Action>): (n: nat)
    ensures n <= |as_|
    ensures n == 0 <==> forall i :: 0 <= i < |as_| ==> !as_[i].PostPrivilege?
  {
    if |as_| == 0 then 0 else (if as_[0].PostPrivilege? then 1 else 0) + CountPosts(as_[1..])
  }

  /**
   * Update as written: every issued POST adds an error diagnostic even when it
   * succeeds; a failed call adds its own and ends the update without saving.
   */
  function UpdateAsWritten(plan: seq<Privilege>, state: seq<Privilege>, outcomes: seq<bool>): (u: UpdateResult)
    ensures u.issued == Execute(UpdateActions(plan, state), outcomes).issued
    ensures u.saved <==> !Execute(UpdateActions(plan, state), outcomes).failed
    ensures u.errors >= CountPosts(u.issued)
  {
    var run := Execute(UpdateActions(plan, state), outcomes);
    UpdateResult(run.issued, CountPosts(run.issued) + (if run.failed then 1 else 0), !run.failed)
  }

  /** The evidently intended update: the diagnostic belongs to a failed POST only. */
  function Update(plan: seq<Privilege>, state: seq<Privilege>, outcomes: seq<bool>): (u: UpdateResult)
    ensures u.issued == Execute(UpdateActions(plan, state), outcomes).issued
    ensures u.saved <==> u.errors == 0
    ensures u.errors <= 1
  {
    var run := Execute(UpdateActions(plan, state), outcomes);
    UpdateResult(run.issued, if run.failed then 1 else 0, !run.failed)
  }

  /** Adding one privilege to a role with none: every call succeeds, yet the update reports an error. */
  lemma UpdateAsWrittenReportsOnSuccess()
    ensures UpdateAsWritten([Privilege("all", "volume", "")], [], []).errors == 1
    ensures UpdateAsWritten([Privilege("all", "volume", "")], [], []).saved
  {
    var p := Privilege("all", "volume", "");
    var acts := UpdateActions([p], []);
    assert !PathIn("volume", []);
    assert !IsDefault(p);
    assert StepsFor(p, [], false) == [PostPrivilege(p), DeletePath("DEFAULT")];
    assert [p][1..] == [];
    assert PlanPhase([p], [], false) == StepsFor(p, [], false) + PlanPhase([], [], false);
    assert DeletePhase([], [p]) == [];
    assert acts == [PostPrivilege(p), DeletePath("DEFAULT")];
    ExecuteAllSucceed(acts, []);
  }

  /** With every call succeeding, the corrected update reports nothing and saves. */
  lemma UpdateSucceeds(plan: seq<Privilege>, state: seq<Privilege>)
    ensures Update(plan, state, []) == UpdateResult(UpdateActions(plan, state), 0, true)
  {
    ExecuteAllSucceed(UpdateActions(plan, state), []);
  }

  // ---------------------------------------------------------------- import

  // `ImportState` takes `name,svm_name,cx_profile_name`: `ImportId.ImportSvmScoped`.
}
