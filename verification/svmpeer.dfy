/**
 * SVM peer relationships (`svm_peer` resource). A peer request is created on
 * the local cluster in state `initiated`; when a connection profile for the
 * peer cluster is configured, the provider accepts it from the peer side by
 * patching `state = "peered"`. The operations return the ordered list of
 * REST calls they issue.
 */
module SvmPeer {
  import opened Wrappers
  import opened Tf
  import opened GoStrings
  import opened ImportId

  datatype Peer = Peer(
    cxProfileName: Value<string>,
    applications: Option<seq<Value<string>>>,   // None: a null list (a nil slice)
    svmName: Value<string>,
    peerSvmName: Value<string>,
    peerClusterName: Value<string>,
    peerCxProfileName: Value<string>,
    id: Value<string>,
    state: Value<string>)

  /** `interfaces.SVMPeerResourceModel`, the create request. */
  datatype Request = Request(applications: seq<string>, svmName: string, peerSvmName: string, peerClusterName: string)

  /** A peer record as returned by the server. */
  datatype PeerRecord = PeerRecord(uuid: string, state: string, applications: seq<string>, peerClusterName: string)

  /** The REST calls, each with the connection profile it goes through. */
  datatype Call =
    | CreatePeer(profile: string, request: Request)
    | Patch(profile: string, uuid: string, body: Body)
    | GetPeer(profile: string, uuid: string)

  const Initiated := "initiated"
  const Peered := "peered"

  /** The acceptance body, `SVMPeerAcceptResourceModel{State: "peered"}`. */
  const AcceptBody: Body := map["state" := JStr(Peered)]

  /** `SVMPeerUpdateResourceModel` with only applications set: both fields are `omitempty`. */
  function ApplicationsBody(apps: seq<string>): (b: Body)
    ensures "state" !in b
    ensures "applications" in b <==> |apps| > 0
    ensures "applications" in b ==> b["applications"] == JList(JStrs(apps))
  {
    if |apps| > 0 then map["applications" := JList(JStrs(apps))] else map[]
  }

  function Applications(apps: Option<seq<Value<string>>>): (r: seq<string>)
    ensures apps.Some? ==> r == Strs(apps.value)
    ensures apps.None? ==> r == []
  {
    if apps.Some? then Strs(apps.value) else []
  }

  function CreateRequest(d: Peer): (r: Request)
    ensures r.applications == Applications(d.applications)
    ensures r.svmName == Str(d.svmName) && r.peerSvmName == Str(d.peerSvmName) && r.peerClusterName == Str(d.peerClusterName)
  {
    Request(Applications(d.applications), Str(d.svmName), Str(d.peerSvmName), Str(d.peerClusterName))
  }

  // ------------------------------------------------------------------ create

  /**
   * The calls `Create` makes once the peer request has been created with
   * UUID `uuid`: with a peer profile, the acceptance through that profile and
   * a re-read through the local one.
   */
  function CreateCalls(d: Peer, uuid: string): (calls: seq<Call>)
    ensures |calls| >= 1 && calls[0] == CreatePeer(Str(d.cxProfileName), CreateRequest(d))
    ensures d.peerCxProfileName.Null? ==> |calls| == 1
    ensures !d.peerCxProfileName.Null? ==>
      calls[1..] == [Patch(Str(d.peerCxProfileName), uuid, AcceptBody), GetPeer(Str(d.cxProfileName), uuid)]
  {
    [CreatePeer(Str(d.cxProfileName), CreateRequest(d))] +
    (if d.peerCxProfileName.Null? then []
     else [Patch(Str(d.peerCxProfileName), uuid, AcceptBody), GetPeer(Str(d.cxProfileName), uuid)])
  }

  /**
   * The state saved by `Create`: the ID from the create reply, and the state
   * of the re-read record when one was read and found, else the create reply's.
   */
  function AfterCreate(d: Peer, created: PeerRecord, reread: Option<PeerRecord>): (r: Peer)
    ensures r.id == Known(created.uuid)
    ensures !d.peerCxProfileName.Null? && reread.Some? ==> r.state == Known(reread.value.state)
    ensures d.peerCxProfileName.Null? || reread.None? ==> r.state == Known(created.state)
    ensures r.(id := d.id, state := d.state) == d
  {
    var rest := if d.peerCxProfileName.Null? then None else reread;
    d.(id := Known(created.uuid), state := Known(if rest.Some? then rest.value.state else created.state))
  }

  /** The call list of `Create` contains the acceptance exactly when a peer profile is configured. */
  lemma CreateAcceptsIff(d: Peer, uuid: string)
    ensures Patch(Str(d.peerCxProfileName), uuid, AcceptBody) in CreateCalls(d, uuid) <==> !d.peerCxProfileName.Null?
  {
    if !d.peerCxProfileName.Null? {
      assert CreateCalls(d, uuid)[1] == Patch(Str(d.peerCxProfileName), uuid, AcceptBody);
    }
  }

  // ------------------------------------------------------------------ update

  /** Acceptance is retried on update only for a peer profile and a request still `initiated`. */
  predicate Accepts(plan: Peer, state: Peer) {
    !plan.peerCxProfileName.Null? && Str(state.state) == Initiated
  }

  /** Applications are patched when the plan's list is non-null and differs from the state's (`reflect.DeepEqual`). */
  predicate PatchesApplications(plan: Peer, state: Peer) {
    plan.applications.Some? && plan.applications != state.applications
  }

  function UpdateCalls(plan: Peer, state: Peer): (calls: seq<Call>)
    ensures |calls| >= 1 && calls[|calls| - 1] == GetPeer(Str(state.cxProfileName), Str(plan.id))
    ensures Patch(Str(plan.peerCxProfileName), Str(state.id), AcceptBody) in calls[..|calls| - 1] <==> Accepts(plan, state)
    ensures PatchesApplications(plan, state) ==>
      Patch(Str(state.cxProfileName), Str(plan.id), ApplicationsBody(Applications(plan.applications))) in calls
    ensures |calls| == 1 + (if Accepts(plan, state) then 1 else 0) + (if PatchesApplications(plan, state) then 1 else 0)
  {
    var accept := if Accepts(plan, state) then [Patch(Str(plan.peerCxProfileName), Str(state.id), AcceptBody)] else [];
    var apps := if PatchesApplications(plan, state)
                then [Patch(Str(state.cxProfileName), Str(plan.id), ApplicationsBody(Applications(plan.applications)))]
                else [];
    var calls := accept + apps + [GetPeer(Str(state.cxProfileName), Str(plan.id))];
    assert calls[..|calls| - 1] == accept + apps;
    assert PatchesApplications(plan, state) ==> calls[|accept|] == apps[0];
    calls
  }

  /** `Update`'s saved state: the plan with the re-read record's state; no record is a nil dereference, an error here. */
  function AfterUpdate(plan: Peer, reread: Option<PeerRecord>): (r: Result<Peer, string>)
    ensures r.Failure? <==> reread.None?
    ensures r.Success? ==> r.value == plan.(state := Known(reread.value.state))
  {
    if reread.None? then Failure("nil record") else Success(plan.(state := Known(reread.value.state)))
  }

  /** Once peered, with unchanged applications, an update only re-reads the record. */
  lemma UpdateWhenPeeredOnlyReads(plan: Peer, state: Peer)
    requires state.state == Known(Peered) && plan.applications == state.applications
    ensures UpdateCalls(plan, state) == [GetPeer(Str(state.cxProfileName), Str(plan.id))]
  {
  }

  /** An update after an accepting create does not accept a second time, once the server reports `peered`. */
  lemma AcceptedOnce(d: Peer, created: PeerRecord, reread: PeerRecord, plan: Peer)
    requires !d.peerCxProfileName.Null? && reread.state == Peered
    requires plan.applications == d.applications
    ensures UpdateCalls(plan, AfterCreate(d, created, Some(reread))) ==
            [GetPeer(Str(d.cxProfileName), Str(plan.id))]
  {
  }

  // -------------------------------------------------------------------- read

  datatype ReadBy = ByUuid(uuid: string) | ByNames(svmName: string, peerSvmName: string)

  /** `Read` looks the record up by UUID when the ID is set, else by the two SVM names. */
  function ReadLookup(d: Peer): (r: ReadBy)
    ensures r.ByUuid? <==> Str(d.id) != ""
    ensures r.ByUuid? ==> r.uuid == Str(d.id)
    ensures r.ByNames? ==> r.svmName == Str(d.svmName) && r.peerSvmName == Str(d.peerSvmName)
  {
    if Str(d.id) != "" then ByUuid(Str(d.id)) else ByNames(Str(d.svmName), Str(d.peerSvmName))
  }

  /** The list attribute built from a record's applications: a nil slice, so null, when there are none. */
  function AppsState(apps: seq<string>): (r: Option<seq<Value<string>>>)
    ensures r.None? <==> |apps| == 0
    ensures r.Some? ==> r.value == Knowns(apps)
  {
    if |apps| == 0 then None else Some(Knowns(apps))
  }

  /**
   * `Read`: no record is an error; otherwise ID, state and applications come
   * from the record, and the peer cluster name too after a lookup by names.
   */
  function Read(d: Peer, rec: Option<PeerRecord>): (r: Result<Peer, string>)
    ensures r.Failure? <==> rec.None?
    ensures r.Success? ==> r.value.id == Known(rec.value.uuid) && r.value.state == Known(rec.value.state)
    ensures r.Success? ==> Applications(r.value.applications) == rec.value.applications
    ensures r.Success? && ReadLookup(d).ByNames? ==> r.value.peerClusterName == Known(rec.value.peerClusterName)
    ensures r.Success? && ReadLookup(d).ByUuid? ==> r.value.peerClusterName == d.peerClusterName
  {
    if rec.None? then Failure("No SVM Peer found")
    else
      var x := rec.value;
      KnownsStrs(x.applications);
      var cluster := if ReadLookup(d).ByNames? then Known(x.peerClusterName) else d.peerClusterName;
      Success(d.(id := Known(x.uuid), state := Known(x.state), applications := AppsState(x.applications),
                 peerClusterName := cluster))
  }

  /** A plan equal to what was read patches no applications. */
  lemma ReadThenUpdateKeepsApplications(d: Peer, rec: PeerRecord, plan: Peer)
    requires Read(d, Some(rec)).Success?
    requires plan.applications == Read(d, Some(rec)).value.applications
    ensures !PatchesApplications(plan, Read(d, Some(rec)).value)
  {
  }

  /** Reading twice from the same record gives the state of one read, once the record has a UUID. */
  lemma ReadIdempotent(d: Peer, rec: PeerRecord)
    requires rec.uuid != ""
    ensures Read(d, Some(rec)).Success?
    ensures Read(Read(d, Some(rec)).value, Some(rec)) == Read(d, Some(rec))
  {
    KnownsStrs(rec.applications);
  }

  /** When the record read after an update is read again, the saved state comes back. */
  lemma ReadAfterUpdate(plan: Peer, rec: PeerRecord)
    requires plan.id == Known(rec.uuid) && rec.uuid != "" && plan.applications == AppsState(rec.applications)
    ensures AfterUpdate(plan, Some(rec)).Success?
    ensures Read(AfterUpdate(plan, Some(rec)).value, Some(rec)) == AfterUpdate(plan, Some(rec))
  {
  }

  /** `Delete`: a null ID is an error, else the UUID's path is deleted. */
  function Delete(d: Peer): (r: Result<string, string>)
    ensures r.Failure? <==> d.id.Null?
    ensures r.Success? ==> r.value == "svm/peers/" + Str(d.id)
  {
    if d.id.Null? then Failure("UUID is null") else Success("svm/peers/" + Str(d.id))
  }

  /** Deleting the state create saved removes the peer relationship created, whatever the re-read. */
  lemma DeleteAfterCreate(d: Peer, created: PeerRecord, reread: Option<PeerRecord>)
    ensures Delete(AfterCreate(d, created, reread)) == Success("svm/peers/" + created.uuid)
    ensures created.uuid != "" ==> ReadLookup(AfterCreate(d, created, reread)) == ByUuid(created.uuid)
  {
  }

  // ------------------------------------------------------------------ import

  datatype ImportKey = ImportKey(svmName: string, peerSvmName: string, peerClusterName: string, cxProfileName: string)

  function KeyParts(k: ImportKey): seq<string> {
    [k.svmName, k.peerSvmName, k.peerClusterName, k.cxProfileName]
  }

  /** `svm_name,peer_svm_name,peer_cluster_name,cx_profile_name`, all four non-empty. */
  function Import(id: string): (r: Option<ImportKey>)
    ensures r.Some? <==> Parse(id, 4).Some?
    ensures r.Some? ==> KeyParts(r.value) == Parts(id)
  {
    var p := Parse(id, 4);
    if p.Some? then Some(ImportKey(p.value[0], p.value[1], p.value[2], p.value[3])) else None
  }

  lemma ImportRoundTrip(k: ImportKey)
    requires AllNonEmpty(KeyParts(k)) && SepFree(KeyParts(k), ',')
    ensures Import(Compose(KeyParts(k))) == Some(k)
  {
    ParseCompose(KeyParts(k));
  }
}
