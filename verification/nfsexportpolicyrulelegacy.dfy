/**
 * The older NFS export policy rule resource
 * (`provider/protocols_nfs_export_policy_rule_resource.go`). Its copy of the
 * index plan modifier is the same code as `NfsExportPolicyRule.PlanModifyInt64`,
 * and it shares the clients encoding with that module;
 * here the optional fields are kept only when set, on write and on read.
 * Its request type is not part of this model, so the request is stated before
 * encoding: a field is `None` when the resource leaves it unassigned.
 */
module NfsExportPolicyRuleLegacy {
  import opened Wrappers
  import opened Tf
  import NfsExportPolicyRule

  datatype Rule = Rule(
    exportPolicyId: Value<string>,
    vserver: Value<string>,
    roRule: seq<Value<string>>,
    rwRule: seq<Value<string>>,
    protocols: seq<Value<string>>,
    anonymousUser: Value<string>,
    superuser: seq<Value<string>>,
    allowDeviceCreation: Value<bool>,
    ntfsUnixSecurity: Value<string>,
    chownMode: Value<string>,
    allowSuid: Value<bool>,
    clientsMatch: seq<Value<string>>,
    index: Value<int>)

  /** The request as assigned: every list, and the optional scalars that are set. */
  datatype Request = Request(
    clients: seq<Json>,
    roRule: seq<string>,
    rwRule: seq<string>,
    protocols: seq<string>,
    superuser: seq<string>,
    anonymousUser: Option<string>,
    allowDeviceCreation: Option<bool>,
    allowSuid: Option<bool>,
    chownMode: Option<string>,
    ntfsUnixSecurity: Option<string>)

  function StrIfSet(v: Value<string>): (r: Option<string>)
    ensures r.Some? <==> !v.Null?
    ensures r.Some? ==> r.value == Str(v)
  {
    if v.Null? then None else Some(Str(v))
  }

  function BoolIfSet(v: Value<bool>): (r: Option<bool>)
    ensures r.Some? <==> !v.Null?
    ensures r.Some? ==> r.value == Bool(v)
  {
    if v.Null? then None else Some(Bool(v))
  }

  /** Create and update build the same request: the lists in order and the optional scalars when not null. */
  function BuildRequest(d: Rule): (r: Request)
    ensures r.clients == NfsExportPolicyRule.Matches(Strs(d.clientsMatch))
    ensures r.roRule == Strs(d.roRule) && r.rwRule == Strs(d.rwRule)
    ensures r.protocols == Strs(d.protocols) && r.superuser == Strs(d.superuser)
    ensures r.anonymousUser.Some? <==> !d.anonymousUser.Null?
    ensures r.allowSuid.Some? <==> !d.allowSuid.Null?
    ensures r.allowDeviceCreation.Some? <==> !d.allowDeviceCreation.Null?
    ensures r.chownMode.Some? <==> !d.chownMode.Null?
    ensures r.ntfsUnixSecurity.Some? <==> !d.ntfsUnixSecurity.Null?
  {
    Request(NfsExportPolicyRule.Matches(Strs(d.clientsMatch)), Strs(d.roRule), Strs(d.rwRule), Strs(d.protocols),
            Strs(d.superuser), StrIfSet(d.anonymousUser), BoolIfSet(d.allowDeviceCreation), BoolIfSet(d.allowSuid),
            StrIfSet(d.chownMode), StrIfSet(d.ntfsUnixSecurity))
  }

  /** The clients sent are recovered in order from their `match` objects. */
  lemma ClientsRoundTrip(d: Rule)
    ensures NfsExportPolicyRule.MatchNames(BuildRequest(d).clients) == Strs(d.clientsMatch)
  {
    NfsExportPolicyRule.MatchNamesRoundTrip(Strs(d.clientsMatch));
  }

  /** The rule as the server returns it. */
  datatype RuleRecord = RuleRecord(
    roRule: seq<string>, rwRule: seq<string>, protocols: seq<string>, superuser: seq<string>, clients: seq<string>,
    allowDeviceCreation: bool, allowSuid: bool, chownMode: string, ntfsUnixSecurity: string, anonymousUser: string)

  function Refresh<T>(prior: Value<T>, server: T): (r: Value<T>)
    ensures prior.Null? ==> r.Null?
    ensures !prior.Null? ==> r == Known(server)
  {
    if prior.Null? then prior else Known(server)
  }

  /** `Read`: the lists are always replaced; an optional scalar is refreshed only when the prior state set it. */
  function Read(d: Rule, rec: RuleRecord): (r: Rule)
    ensures Strs(r.roRule) == rec.roRule && Strs(r.rwRule) == rec.rwRule && Strs(r.clientsMatch) == rec.clients
    ensures Strs(r.protocols) == rec.protocols && Strs(r.superuser) == rec.superuser
    ensures d.allowDeviceCreation.Null? ==> r.allowDeviceCreation.Null?
    ensures !d.allowDeviceCreation.Null? ==> r.allowDeviceCreation == Known(rec.allowDeviceCreation)
    ensures d.allowSuid.Null? ==> r.allowSuid.Null?
    ensures !d.allowSuid.Null? ==> r.allowSuid == Known(rec.allowSuid)
    ensures d.chownMode.Null? ==> r.chownMode.Null?
    ensures !d.chownMode.Null? ==> r.chownMode == Known(rec.chownMode)
    ensures d.ntfsUnixSecurity.Null? ==> r.ntfsUnixSecurity.Null?
    ensures !d.ntfsUnixSecurity.Null? ==> r.ntfsUnixSecurity == Known(rec.ntfsUnixSecurity)
    ensures d.anonymousUser.Null? ==> r.anonymousUser.Null?
    ensures !d.anonymousUser.Null? ==> r.anonymousUser == Known(rec.anonymousUser)
    ensures r.index == d.index && r.exportPolicyId == d.exportPolicyId
  {
    KnownsStrs(rec.roRule);
    KnownsStrs(rec.rwRule);
    KnownsStrs(rec.clients);
    KnownsStrs(rec.protocols);
    KnownsStrs(rec.superuser);
    d.(roRule := Knowns(rec.roRule), rwRule := Knowns(rec.rwRule), protocols := Knowns(rec.protocols),
       superuser := Knowns(rec.superuser), clientsMatch := Knowns(rec.clients),
       allowDeviceCreation := Refresh(d.allowDeviceCreation, rec.allowDeviceCreation),
       allowSuid := Refresh(d.allowSuid, rec.allowSuid),
       chownMode := Refresh(d.chownMode, rec.chownMode),
       ntfsUnixSecurity := Refresh(d.ntfsUnixSecurity, rec.ntfsUnixSecurity),
       anonymousUser := Refresh(d.anonymousUser, rec.anonymousUser))
  }

  /** Reading twice from the same record gives the same state: the set of refreshed fields does not grow. */
  lemma ReadIdempotent(d: Rule, rec: RuleRecord)
    ensures Read(Read(d, rec), rec) == Read(d, rec)
  {
    KnownsStrs(rec.roRule);
  }
}
