/**
 * An NFS export policy rule (`provider/protocols/protocols_nfs_export_policy_rule_resource.go`):
 * the plan modifier that keeps the rule index, the request body, the read
 * back, the composite ID and import.
 */
module NfsExportPolicyRule {
  import opened Wrappers
  import opened Tf
  import opened GoStrings
  import opened ImportId

  datatype Rule = Rule(
    cxProfileName: Value<string>,
    exportPolicyId: Value<string>,
    svmName: Value<string>,
    roRule: seq<Value<string>>,
    rwRule: seq<Value<string>>,
    protocols: seq<Value<string>>,
    anonymousUser: Value<string>,
    superuser: seq<Value<string>>,
    allowDeviceCreation: Value<bool>,
    ntfsUnixSecurity: Value<string>,
    chownMode: Value<string>,
    allowSuid: Value<bool>,
    clientsMatch: seq<Value<string>>,
    index: Value<int>,
    exportPolicyName: Value<string>,
    id: Value<string>)

  // ---------------------------------------------------------------- plan modifier

  /**
   * `IntPlanModify.PlanModifyInt64`: an unknown plan takes the state's value,
   * unless there is no state or the configuration itself is unknown.
   */
  function PlanModifyInt64(state: Value<int>, plan: Value<int>, config: Value<int>): (r: Value<int>)
    ensures r == (if !state.Null? && plan.Unknown? && !config.Unknown? then state else plan)
  {
    if state.Null? then plan
    else if !plan.Unknown? then plan
    else if config.Unknown? then plan
    else state
  }

  /** Once the plan holds the state's value, the modifier leaves it there. */
  lemma PlanModifyIdempotent(state: Value<int>, plan: Value<int>, config: Value<int>)
    ensures PlanModifyInt64(state, PlanModifyInt64(state, plan, config), config) == PlanModifyInt64(state, plan, config)
  {
  }

  /** A known index in state survives every plan the framework leaves unknown. */
  lemma PlanModifyKeepsIndex(index: int, config: Value<int>)
    requires !config.Unknown?
    ensures PlanModifyInt64(Known(index), Unknown, config) == Known(index)
    ensures forall p: Value<int> :: p.Known? ==> PlanModifyInt64(Known(index), p, config) == p
  {
  }

  // ---------------------------------------------------------------- body

  /** `ExportpolicyRuleResourceBodyDataModelONTAP` before encoding. */
  datatype Request = Request(
    clients: seq<string>,
    roRule: seq<string>,
    rwRule: seq<string>,
    protocols: seq<string>,
    anonymousUser: string,
    superuser: seq<string>,
    allowDeviceCreation: bool,
    ntfsUnixSecurity: string,
    chownMode: string,
    allowSuid: bool)

  /** Each client becomes a `{"match": client}` object, in order. */
  function Matches(clients: seq<string>): (r: seq<Json>)
    ensures |r| == |clients|
    ensures forall i :: 0 <= i < |clients| ==> r[i] == JObj(map["match" := JStr(clients[i])])
  {
    if |clients| == 0 then [] else [JObj(map["match" := JStr(clients[0])])] + Matches(clients[1..])
  }

  /** The `match` of each client object: what `Read` stores back. */
  function MatchNames(objs: seq<Json>): (r: seq<string>)
    ensures |r| == |objs|
  {
    if |objs| == 0 then []
    else
      var m := if objs[0].JObj? && "match" in objs[0].fields && objs[0].fields["match"].JStr? then objs[0].fields["match"].s else "";
      [m] + MatchNames(objs[1..])
  }

  /** The clients read back are the clients sent, in the same order. */
  lemma {:induction false} MatchNamesRoundTrip(clients: seq<string>)
    ensures MatchNames(Matches(clients)) == clients
  {
    if |clients| > 0 {
      assert Matches(clients)[1..] == Matches(clients[1..]);
      MatchNamesRoundTrip(clients[1..]);
    }
  }

  /** A string list without `omitempty`: a nil slice is encoded as null. */
  function ListOrNull(xs: seq<string>): Json {
    if |xs| == 0 then JNull else JList(JStrs(xs))
  }

  /** The list fields of the encoding. */
  function EncodeLists(r: Request): (b: Body)
    ensures b.Keys <= ListKeys
    ensures ("clients" in b <==> |r.clients| > 0) && ("clients" in b ==> b["clients"] == JList(Matches(r.clients)))
    ensures "ro_rule" in b && b["ro_rule"] == ListOrNull(r.roRule)
    ensures "rw_rule" in b && b["rw_rule"] == ListOrNull(r.rwRule)
    ensures ("protocols" in b <==> |r.protocols| > 0) && ("protocols" in b ==> b["protocols"] == JList(JStrs(r.protocols)))
    ensures ("superuser" in b <==> |r.superuser| > 0) && ("superuser" in b ==> b["superuser"] == JList(JStrs(r.superuser)))
  {
    var b1: Body := map["ro_rule" := ListOrNull(r.roRule), "rw_rule" := ListOrNull(r.rwRule)];
    var b2 := if |r.clients| > 0 then b1["clients" := JList(Matches(r.clients))] else b1;
    var b3 := if |r.protocols| > 0 then b2["protocols" := JList(JStrs(r.protocols))] else b2;
    if |r.superuser| > 0 then b3["superuser" := JList(JStrs(r.superuser))] else b3
  }

  /** The scalar fields: all `omitempty`, so "" and `false` are not sent. */
  function EncodeScalars(r: Request): (b: Body)
    ensures b.Keys <= ScalarKeys
    ensures ("anonymous_user" in b <==> r.anonymousUser != "") && ("anonymous_user" in b ==> b["anonymous_user"] == JStr(r.anonymousUser))
    ensures ("allow_device_creation" in b <==> r.allowDeviceCreation) && ("allow_device_creation" in b ==> b["allow_device_creation"] == JBool(true))
    ensures ("ntfs_unix_security" in b <==> r.ntfsUnixSecurity != "") && ("ntfs_unix_security" in b ==> b["ntfs_unix_security"] == JStr(r.ntfsUnixSecurity))
    ensures ("chown_mode" in b <==> r.chownMode != "") && ("chown_mode" in b ==> b["chown_mode"] == JStr(r.chownMode))
    ensures ("allow_suid" in b <==> r.allowSuid) && ("allow_suid" in b ==> b["allow_suid"] == JBool(true))
  {
    var b1: Body := if r.anonymousUser != "" then map["anonymous_user" := JStr(r.anonymousUser)] else map[];
    var b2 := if r.allowDeviceCreation then b1["allow_device_creation" := JBool(true)] else b1;
    var b3 := if r.ntfsUnixSecurity != "" then b2["ntfs_unix_security" := JStr(r.ntfsUnixSecurity)] else b2;
    var b4 := if r.chownMode != "" then b3["chown_mode" := JStr(r.chownMode)] else b3;
    if r.allowSuid then b4["allow_suid" := JBool(true)] else b4
  }

  /** The list part of the encoding holds no scalar key. */
  lemma ListsOmitScalars(r: Request)
    ensures "anonymous_user" !in EncodeLists(r) && "allow_device_creation" !in EncodeLists(r)
    ensures "ntfs_unix_security" !in EncodeLists(r) && "chown_mode" !in EncodeLists(r) && "allow_suid" !in EncodeLists(r)
  {
  }

  /** The scalar part of the encoding holds no list key. */
  lemma ScalarsOmitLists(r: Request)
    ensures "clients" !in EncodeScalars(r) && "ro_rule" !in EncodeScalars(r) && "rw_rule" !in EncodeScalars(r)
    ensures "protocols" !in EncodeScalars(r) && "superuser" !in EncodeScalars(r)
  {
  }

  /** The body keys of the request struct; `index` is never set on create or update. */
  const ListKeys: set<string> := {"clients", "ro_rule", "rw_rule", "protocols", "superuser"}
  const ScalarKeys: set<string> := {"anonymous_user", "allow_device_creation", "ntfs_unix_security", "chown_mode", "allow_suid"}
  const BodyKeys: set<string> := ListKeys + ScalarKeys

  /** The list and scalar keys are apart, and neither is `index`. */
  lemma KeysApart()
    ensures ListKeys !! ScalarKeys && "index" !in BodyKeys
  {
  }

  /** The encoded body: the rule lists always, the rest when non-empty or true, and only keys of the struct. */
  function Encode(r: Request): (b: Body)
    ensures "ro_rule" in b && "rw_rule" in b && "index" !in b
    ensures forall k :: k in b ==> k in BodyKeys
    ensures forall k :: k in EncodeLists(r) ==> k in b && b[k] == EncodeLists(r)[k]
    ensures forall k :: k in EncodeScalars(r) ==> k in b && b[k] == EncodeScalars(r)[k]
  {
    var lists, scalars := EncodeLists(r), EncodeScalars(r);
    KeysApart();
    MergeDisjoint(lists, scalars);
    lists + scalars
  }

  /** Optional scalars are copied when not null; a null one stays at Go's zero value. */
  function StrIfSet(v: Value<string>): string { if v.Null? then "" else Str(v) }
  function BoolIfSet(v: Value<bool>): bool { if v.Null? then false else Bool(v) }

  /**
   * Create: the lists are copied in order (`protocols` and `superuser` only
   * when non-empty, which leaves an empty one nil); each optional scalar takes
   * the configured value when not null and Go's zero value otherwise.
   */
  function CreateRequest(d: Rule): (r: Request)
    ensures r.clients == Strs(d.clientsMatch) && r.roRule == Strs(d.roRule) && r.rwRule == Strs(d.rwRule)
    ensures r.protocols == Strs(d.protocols) && r.superuser == Strs(d.superuser)
    ensures r.anonymousUser == (if d.anonymousUser.Null? then "" else Str(d.anonymousUser))
    ensures r.allowSuid <==> d.allowSuid == Known(true)
    ensures r.allowDeviceCreation <==> d.allowDeviceCreation == Known(true)
    ensures d.chownMode.Known? ==> r.chownMode == d.chownMode.value
    ensures d.ntfsUnixSecurity.Known? ==> r.ntfsUnixSecurity == d.ntfsUnixSecurity.value
  {
    var protocols := Strs(d.protocols);
    var superuser := Strs(d.superuser);
    Request(Strs(d.clientsMatch), Strs(d.roRule), Strs(d.rwRule), if |protocols| > 0 then protocols else [],
            StrIfSet(d.anonymousUser), if |superuser| > 0 then superuser else [],
            BoolIfSet(d.allowDeviceCreation), StrIfSet(d.ntfsUnixSecurity), StrIfSet(d.chownMode), BoolIfSet(d.allowSuid))
  }

  /** Update: every list is assigned unconditionally, the optional scalars as on create. */
  function UpdateRequest(d: Rule): (r: Request)
    ensures r.clients == Strs(d.clientsMatch) && r.roRule == Strs(d.roRule) && r.rwRule == Strs(d.rwRule)
    ensures r.protocols == Strs(d.protocols) && r.superuser == Strs(d.superuser)
    ensures r.allowSuid <==> d.allowSuid == Known(true)
    ensures d.anonymousUser.Known? ==> r.anonymousUser == d.anonymousUser.value
  {
    Request(Strs(d.clientsMatch), Strs(d.roRule), Strs(d.rwRule), Strs(d.protocols), StrIfSet(d.anonymousUser),
            Strs(d.superuser), BoolIfSet(d.allowDeviceCreation), StrIfSet(d.ntfsUnixSecurity), StrIfSet(d.chownMode),
            BoolIfSet(d.allowSuid))
  }

  /** Assigning an empty list and leaving it nil encode alike: create and update send the same body. */
  lemma CreateUpdateSameBody(d: Rule)
    ensures Encode(CreateRequest(d)) == Encode(UpdateRequest(d))
  {
  }

  /** The configured rule lists and clients are sent in order; optional scalars only when set and non-empty. */
  lemma CreateBody(d: Rule)
    requires |d.clientsMatch| > 0 && |d.protocols| > 0
    ensures var b := Encode(CreateRequest(d));
      && b["clients"] == JList(Matches(Strs(d.clientsMatch)))
      && b["ro_rule"] == ListOrNull(Strs(d.roRule))
      && b["protocols"] == JList(JStrs(Strs(d.protocols)))
      && (d.anonymousUser.Null? ==> "anonymous_user" !in b)
      && (d.chownMode.Known? && d.chownMode.value != "" ==> b["chown_mode"] == JStr(d.chownMode.value))
  {
    var r := CreateRequest(d);
    assert "clients" in EncodeLists(r) && "protocols" in EncodeLists(r);
    ListsOmitScalars(r);
    ScalarsOmitLists(r);
  }

  /** A rule configured with `allow_suid = false` sends no `allow_suid`, leaving the server's default. */
  lemma AllowSuidFalseDropped(d: Rule)
    requires d.allowSuid == Known(false)
    ensures "allow_suid" !in Encode(CreateRequest(d))
    ensures "allow_suid" !in Encode(UpdateRequest(d))
  {
    ListsOmitScalars(CreateRequest(d));
    ListsOmitScalars(UpdateRequest(d));
  }

  /** The body with both flags sent whenever they are configured, `false` included. */
  function CorrectedBody(r: Request, d: Rule): (b: Body)
    ensures ("allow_suid" in b <==> !d.allowSuid.Null?) && ("allow_suid" in b ==> b["allow_suid"] == JBool(Bool(d.allowSuid)))
    ensures ("allow_device_creation" in b <==> !d.allowDeviceCreation.Null?)
    ensures "allow_device_creation" in b ==> b["allow_device_creation"] == JBool(Bool(d.allowDeviceCreation))
    ensures forall k :: k != "allow_suid" && k != "allow_device_creation" ==> (k in b <==> k in Encode(r)) && (k in b ==> b[k] == Encode(r)[k])
  {
    var e := Encode(r) - {"allow_suid", "allow_device_creation"};
    var e1 := if d.allowSuid.Null? then e else e["allow_suid" := JBool(Bool(d.allowSuid))];
    if d.allowDeviceCreation.Null? then e1 else e1["allow_device_creation" := JBool(Bool(d.allowDeviceCreation))]
  }

  /** With the correction, `allow_suid = false` reaches the server. */
  lemma CorrectedSendsFalse(d: Rule)
    requires d.allowSuid == Known(false)
    ensures var b := CorrectedBody(CreateRequest(d), d); "allow_suid" in b && b["allow_suid"] == JBool(false)
  {
  }

  // ---------------------------------------------------------------- read

  /** The rule as the server returns it. */
  datatype RuleRecord = RuleRecord(
    roRule: seq<string>, rwRule: seq<string>, protocols: seq<string>, superuser: seq<string>, clients: seq<string>,
    allowDeviceCreation: bool, allowSuid: bool, chownMode: string, ntfsUnixSecurity: string, anonymousUser: string)

  /**
   * The export policy ID that Read, Update and Delete address the rule under:
   * the stored one, or after an import (null ID) `strconv.Itoa` of the ID
   * returned by the lookup by policy and SVM name. `lookup` is that lookup:
   * none when the call failed, and 0 when no policy matched, since decoding
   * the absent record leaves the ID at its zero value.
   */
  function ResolvePolicyId(d: Rule, lookup: Option<int>): (r: Option<string>)
    ensures !d.exportPolicyId.Null? ==> r == Some(Str(d.exportPolicyId))
    ensures d.exportPolicyId.Null? ==> (r.Some? <==> lookup.Some?)
    ensures d.exportPolicyId.Null? && r.Some? ==> r.value == Itoa(lookup.value)
  {
    if !d.exportPolicyId.Null? then Some(Str(d.exportPolicyId))
    else if lookup.None? then None
    else Some(Itoa(lookup.value))
  }

  /** The state create stores: the returned index, the looked-up policy's ID, and the ID built from them. */
  function AfterCreate(d: Rule, policyId: int, index: int): (r: Rule)
    ensures r.index == Known(index) && r.exportPolicyId == Known(Itoa(policyId))
    ensures r.id == Known(Id(Str(d.cxProfileName), Str(d.svmName), Str(d.exportPolicyName), index))
    ensures r.(index := d.index, exportPolicyId := d.exportPolicyId, id := d.id) == d
  {
    d.(index := Known(index), exportPolicyId := Known(Itoa(policyId)),
       id := Known(Id(Str(d.cxProfileName), Str(d.svmName), Str(d.exportPolicyName), index)))
  }

  /**
   * `Read`: a failed policy lookup or a missing rule ends it without state;
   * otherwise a null export_policy_id is filled with the resolved one, the
   * lists and optional scalars are all replaced by the server's, and the ID
   * is recomputed.
   */
  function Read(d: Rule, lookup: Option<int>, rec: Option<RuleRecord>): (r: Option<Rule>)
    ensures r.Some? <==> ResolvePolicyId(d, lookup).Some? && rec.Some?
    ensures r.Some? && d.exportPolicyId.Null? ==> r.value.exportPolicyId == Known(Itoa(lookup.value))
    ensures r.Some? && !d.exportPolicyId.Null? ==> r.value.exportPolicyId == d.exportPolicyId
    ensures r.Some? ==> Strs(r.value.roRule) == rec.value.roRule && Strs(r.value.rwRule) == rec.value.rwRule
    ensures r.Some? ==> Strs(r.value.clientsMatch) == rec.value.clients && Strs(r.value.protocols) == rec.value.protocols
    ensures r.Some? ==> Strs(r.value.superuser) == rec.value.superuser
    ensures r.Some? ==> r.value.allowSuid == Known(rec.value.allowSuid) && r.value.anonymousUser == Known(rec.value.anonymousUser)
    ensures r.Some? ==> r.value.allowDeviceCreation == Known(rec.value.allowDeviceCreation) && r.value.chownMode == Known(rec.value.chownMode)
    ensures r.Some? ==> r.value.ntfsUnixSecurity == Known(rec.value.ntfsUnixSecurity)
    ensures r.Some? ==> r.value.id == Known(Id(Str(d.cxProfileName), Str(d.svmName), Str(d.exportPolicyName), Int(d.index)))
    ensures r.Some? ==> r.value.index == d.index && r.value.exportPolicyName == d.exportPolicyName
    ensures r.Some? ==> r.value.svmName == d.svmName && r.value.cxProfileName == d.cxProfileName
  {
    var policy := ResolvePolicyId(d, lookup);
    if policy.None? || rec.None? then None
    else
      var x := rec.value;
      KnownsStrs(x.roRule);
      KnownsStrs(x.rwRule);
      KnownsStrs(x.clients);
      KnownsStrs(x.protocols);
      KnownsStrs(x.superuser);
      Some(d.(exportPolicyId := if d.exportPolicyId.Null? then Known(policy.value) else d.exportPolicyId,
              roRule := Knowns(x.roRule), rwRule := Knowns(x.rwRule), protocols := Knowns(x.protocols),
              superuser := Knowns(x.superuser), clientsMatch := Knowns(x.clients),
              allowDeviceCreation := Known(x.allowDeviceCreation), allowSuid := Known(x.allowSuid),
              chownMode := Known(x.chownMode), ntfsUnixSecurity := Known(x.ntfsUnixSecurity),
              anonymousUser := Known(x.anonymousUser),
              id := Known(Id(Str(d.cxProfileName), Str(d.svmName), Str(d.exportPolicyName), Int(d.index)))))
  }

  /** A rule read back from what was sent has the same lists. */
  lemma ReadAfterCreate(d: Rule, policyId: int, index: int, lookup: Option<int>, rec: RuleRecord)
    requires rec.roRule == CreateRequest(d).roRule && rec.clients == CreateRequest(d).clients
    ensures var r := Read(AfterCreate(d, policyId, index), lookup, Some(rec));
      r.Some? && Strs(r.value.roRule) == Strs(d.roRule) && Strs(r.value.clientsMatch) == Strs(d.clientsMatch)
  {
  }

  /**
   * After create no lookup is needed: Read addresses the rule under the
   * policy create used and keeps the ID create stored.
   */
  lemma ReadAfterCreateKeepsPolicy(d: Rule, policyId: int, index: int, lookup: Option<int>, rec: RuleRecord)
    ensures var c := AfterCreate(d, policyId, index);
      && ResolvePolicyId(c, lookup) == Some(Itoa(policyId))
      && Read(c, lookup, Some(rec)).Some?
      && Read(c, lookup, Some(rec)).value.exportPolicyId == Known(Itoa(policyId))
      && Read(c, lookup, Some(rec)).value.id == c.id
  {
  }

  /**
   * After an import, which leaves export_policy_id null, the first Read
   * stores the looked-up policy's ID; every later Read resolves to that same
   * ID without a lookup, and to the one create would have stored.
   */
  lemma ReadAfterImportFillsPolicy(d: Rule, policyId: int, rec: RuleRecord, later: Option<int>, rec2: RuleRecord)
    requires d.exportPolicyId.Null?
    ensures var r := Read(d, Some(policyId), Some(rec));
      && r.Some? && r.value.exportPolicyId == Known(Itoa(policyId))
      && r.value.exportPolicyId == AfterCreate(d, policyId, Int(d.index)).exportPolicyId
      && ResolvePolicyId(r.value, later) == Some(Itoa(policyId))
      && Read(r.value, later, Some(rec2)).Some?
      && Read(r.value, later, Some(rec2)).value.exportPolicyId == Known(Itoa(policyId))
  {
  }

  /** A failed lookup after an import ends Read without state. */
  lemma ReadAfterImportLookupFails(d: Rule, rec: Option<RuleRecord>)
    requires d.exportPolicyId.Null?
    ensures Read(d, None, rec).None?
  {
  }

  // ---------------------------------------------------------------- ID and import

  /** The resource ID: `cx_svm_policy_index`, opening with the profile and closing with the index. */
  function Id(cx: string, svm: string, policy: string, index: int): (r: string)
    ensures |r| == |cx| + |svm| + |policy| + |Itoa(index)| + 3
    ensures r[..|cx|] == cx && r[|cx|] == '_'
    ensures r[|r| - |Itoa(index)|..] == Itoa(index)
  {
    cx + "_" + svm + "_" + policy + "_" + Itoa(index)
  }

  /** Splitting the ID at `_` recovers its four parts when the names hold no `_`, and the index parses back. */
  lemma IdParts(cx: string, svm: string, policy: string, index: int)
    requires SepFree([cx, svm, policy], '_')
    requires MinInt64 <= index <= MaxInt64
    ensures Split(Id(cx, svm, policy, index), '_') == [cx, svm, policy, Itoa(index)]
    ensures Atoi(Split(Id(cx, svm, policy, index), '_')[3]) == Parsed(index, true)
  {
    var fields := [cx, svm, policy, Itoa(index)];
    ItoaNoChar(index, '_');
    assert SepFree(fields, '_');
    assert Join(fields[3..], '_') == Itoa(index);
    assert Join(fields[2..], '_') == policy + "_" + Itoa(index);
    assert Join(fields[1..], '_') == svm + "_" + policy + "_" + Itoa(index);
    assert Join(fields, '_') == Id(cx, svm, policy, index);
    SplitJoin(fields, '_');
    AtoiItoa(index);
  }

  /** The attributes `ImportState` sets. */
  datatype ImportKey = ImportKey(index: int, exportPolicyName: string, svmName: string, cxProfileName: string)

  /**
   * `ImportState`: `index,export_policy_name,svm_name,cx_profile_name`, each
   * non-empty; the index is `strconv.Atoi` of the first part with its error
   * ignored: text that is not a number imports index 0, and a digit run too
   * long for 64 bits imports the nearest bound.
   */
  function Import(id: string): (r: Option<ImportKey>)
    ensures r.Some? <==> Parse(id, 4).Some?
    ensures r.Some? ==> r.value.index == Atoi(Parts(id)[0]).value
    ensures r.Some? ==> [r.value.exportPolicyName, r.value.svmName, r.value.cxProfileName] == Parts(id)[1..]
  {
    var p := Parse(id, 4);
    if p.Some? then Some(ImportKey(Atoi(p.value[0]).value, p.value[1], p.value[2], p.value[3])) else None
  }

  /** A first part that is not a number silently becomes index 0. */
  lemma ImportMalformedIndex(id: string)
    requires Parse(id, 4).Some? && !Atoi(Parts(id)[0]).ok
    requires Atoi(Parts(id)[0]).value != MinInt64 && Atoi(Parts(id)[0]).value != MaxInt64
    ensures Import(id).Some? && Import(id).value.index == 0
  {
  }

  /** A first part opening with digits worth more than 64 unsigned bits imports the largest index, whatever follows them. */
  lemma ImportOverflowingIndex(id: string, d: string, rest: string)
    requires Parse(id, 4).Some? && Parts(id)[0] == d + rest
    requires AllDigits(d) && DigitsValue(d) > MaxUint64
    ensures Import(id).Some? && Import(id).value.index == MaxInt64
  {
    AtoiOverflowingPrefix(d, rest);
  }

  /** The identifier composed from a rule's index and names imports that rule. */
  lemma ImportRoundTrip(k: ImportKey)
    requires MinInt64 <= k.index <= MaxInt64
    requires AllNonEmpty([k.exportPolicyName, k.svmName, k.cxProfileName])
    requires SepFree([k.exportPolicyName, k.svmName, k.cxProfileName], ',')
    ensures Import(Compose([Itoa(k.index), k.exportPolicyName, k.svmName, k.cxProfileName])) == Some(k)
  {
    var fields := [Itoa(k.index), k.exportPolicyName, k.svmName, k.cxProfileName];
    ItoaNoChar(k.index, ',');
    assert |Itoa(k.index)| >= 1;
    assert fields[0] == Itoa(k.index) && fields[1..] == [k.exportPolicyName, k.svmName, k.cxProfileName];
    assert AllNonEmpty(fields) && SepFree(fields, ',');
    ParseCompose(fields);
    AtoiItoa(k.index);
  }
}
