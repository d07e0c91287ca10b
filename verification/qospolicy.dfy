/**
 * QoS policies (`storage_qos_policy` resource): a policy carries a fixed or
 * an adaptive throughput block. Requests are stated as the Go request struct
 * after assignment. A throughput field is copied under a null guard on
 * create and an unknown guard on update; since `ValueInt64()` of a null or
 * unknown value is 0, both give the field's `Int`.
 */
module QosPolicy {
  import opened Wrappers
  import opened Tf
  import opened GoStrings
  import opened ImportId
  import opened RestResponse
  import opened RestClient

  datatype Fixed = Fixed(
    maxThroughputIops: Value<int>, capacityShared: Value<bool>, maxThroughputMbps: Value<int>,
    minThroughputIops: Value<int>, minThroughputMbps: Value<int>)

  datatype Adaptive = Adaptive(
    expectedIopsAllocation: Value<string>, expectedIops: Value<int>, peakIopsAllocation: Value<string>,
    blockSize: Value<string>, peakIops: Value<int>, absoluteMinIops: Value<int>)

  datatype Policy = Policy(
    id: Value<string>, name: Value<string>, svmName: Value<string>, scope: Value<string>,
    fixed: Value<Fixed>, adaptive: Value<Adaptive>, cxProfileName: Value<string>)

  /** The `Fixed` struct shared by request bodies and replies. */
  datatype FixedBody = FixedBody(maxIops: int, minIops: int, maxMbps: int, minMbps: int, capacityShared: bool)

  /** The `Adaptive` struct shared by request bodies and replies. */
  datatype AdaptiveBody = AdaptiveBody(
    expectedIopsAllocation: string, expectedIops: int, peakIopsAllocation: string, blockSize: string,
    peakIops: int, absoluteMinIops: int)

  const NoFixed := FixedBody(0, 0, 0, 0, false)
  const NoAdaptive := AdaptiveBody("", 0, "", "", 0, 0)

  function FixedOf(f: Fixed): (b: FixedBody)
    ensures b.maxIops == Int(f.maxThroughputIops) && b.minIops == Int(f.minThroughputIops)
    ensures b.maxMbps == Int(f.maxThroughputMbps) && b.minMbps == Int(f.minThroughputMbps)
    ensures b.capacityShared == Bool(f.capacityShared)
  {
    FixedBody(Int(f.maxThroughputIops), Int(f.minThroughputIops), Int(f.maxThroughputMbps), Int(f.minThroughputMbps),
              Bool(f.capacityShared))
  }

  function AdaptiveOf(a: Adaptive): (b: AdaptiveBody)
    ensures b.expectedIopsAllocation == Str(a.expectedIopsAllocation) && b.peakIopsAllocation == Str(a.peakIopsAllocation)
    ensures b.expectedIops == Int(a.expectedIops) && b.blockSize == Str(a.blockSize)
    ensures b.peakIops == Int(a.peakIops) && b.absoluteMinIops == Int(a.absoluteMinIops)
  {
    AdaptiveBody(Str(a.expectedIopsAllocation), Int(a.expectedIops), Str(a.peakIopsAllocation), Str(a.blockSize),
                 Int(a.peakIops), Int(a.absoluteMinIops))
  }

  /** Why create or update stops before calling the server. */
  datatype PolicyError =
    | NullBlock        // `Object.As` of a null block into a struct fails
    | BothUnknown      // "one of Fixed or Adaptive QoS policies are required"

  datatype CreateBody = CreateBody(name: string, svmName: string, scope: string, fixed: FixedBody, adaptive: AdaptiveBody)

  /**
   * `Create`: a block that is not unknown is copied, a null one fails to
   * convert; with both blocks unknown nothing is created.
   */
  function Create(d: Policy): (r: Result<CreateBody, PolicyError>)
    ensures r == Failure(BothUnknown) <==> d.fixed.Unknown? && d.adaptive.Unknown?
    ensures r == Failure(NullBlock) <==> d.fixed.Null? || d.adaptive.Null?
    ensures r.Success? ==> r.value.name == Str(d.name) && r.value.svmName == Str(d.svmName)
    ensures r.Success? && d.fixed.Known? ==> r.value.fixed == FixedOf(d.fixed.value)
    ensures r.Success? && d.fixed.Unknown? ==> r.value.fixed == NoFixed
    ensures r.Success? && d.adaptive.Known? ==> r.value.adaptive == AdaptiveOf(d.adaptive.value)
    ensures r.Success? && d.adaptive.Unknown? ==> r.value.adaptive == NoAdaptive
  {
    if d.fixed.Null? || d.adaptive.Null? then Failure(NullBlock)
    else if d.fixed.Unknown? && d.adaptive.Unknown? then Failure(BothUnknown)
    else
      var fixed := if d.fixed.Known? then FixedOf(d.fixed.value) else NoFixed;
      var adaptive := if d.adaptive.Known? then AdaptiveOf(d.adaptive.value) else NoAdaptive;
      Success(CreateBody(Str(d.name), Str(d.svmName), IfKnownStr(d.scope), fixed, adaptive))
  }

  function IfKnownStr(v: Value<string>): (r: string)
    ensures v.Known? ==> r == v.value
    ensures !v.Known? ==> r == ""
  {
    if v.Unknown? then "" else Str(v)
  }

  /** The update request struct; an empty name is omitted. */
  datatype UpdateBody = UpdateBody(name: string, fixed: FixedBody, adaptive: AdaptiveBody)

  /**
   * `Update`: a block is sent when it is not unknown and differs from the
   * state, the name when it differs. The PATCH is issued even when nothing
   * changed.
   */
  function Update(plan: Policy, state: Policy): (r: Result<UpdateBody, PolicyError>)
    ensures r.Failure? <==>
      (plan.fixed.Null? && state.fixed != plan.fixed) || (plan.adaptive.Null? && state.adaptive != plan.adaptive)
    ensures r.Failure? ==> r.error == NullBlock
    ensures r.Success? && plan.fixed.Known? && plan.fixed != state.fixed ==> r.value.fixed == FixedOf(plan.fixed.value)
    ensures r.Success? && (plan.fixed.Unknown? || plan.fixed == state.fixed) ==> r.value.fixed == NoFixed
    ensures r.Success? && plan.adaptive.Known? && plan.adaptive != state.adaptive ==>
      r.value.adaptive == AdaptiveOf(plan.adaptive.value)
    ensures r.Success? && (plan.adaptive.Unknown? || plan.adaptive == state.adaptive) ==> r.value.adaptive == NoAdaptive
    ensures r.Success? ==> (plan.name != state.name ==> r.value.name == Str(plan.name))
    ensures r.Success? ==> (plan.name == state.name ==> r.value.name == "")
  {
    var sendFixed := !plan.fixed.Unknown? && plan.fixed != state.fixed;
    var sendAdaptive := !plan.adaptive.Unknown? && plan.adaptive != state.adaptive;
    if (sendFixed && plan.fixed.Null?) || (sendAdaptive && plan.adaptive.Null?) then Failure(NullBlock)
    else
      var fixed := if sendFixed then FixedOf(plan.fixed.value) else NoFixed;
      var adaptive := if sendAdaptive then AdaptiveOf(plan.adaptive.value) else NoAdaptive;
      Success(UpdateBody(if plan.name != state.name then Str(plan.name) else "", fixed, adaptive))
  }

  /** An unchanged plan still issues a PATCH: no name, and zero-valued fixed and adaptive blocks. */
  lemma UpdateUnchanged(d: Policy)
    ensures Update(d, d) == Success(UpdateBody("", NoFixed, NoAdaptive))
  {
  }

  // ---------------------------------------------------------------- read

  /** A policy as the server returns it. */
  datatype PolicyRecord = PolicyRecord(
    name: string, svmName: string, scope: string, uuid: string, fixed: FixedBody, adaptive: AdaptiveBody)

  function FixedState(b: FixedBody): (f: Fixed)
    ensures FixedOf(f) == b
  {
    Fixed(Known(b.maxIops), Known(b.capacityShared), Known(b.maxMbps), Known(b.minIops), Known(b.minMbps))
  }

  function AdaptiveState(b: AdaptiveBody): (a: Adaptive)
    ensures AdaptiveOf(a) == b
  {
    Adaptive(Known(b.expectedIopsAllocation), Known(b.expectedIops), Known(b.peakIopsAllocation), Known(b.blockSize),
             Known(b.peakIops), Known(b.absoluteMinIops))
  }

  /** The state after create or read: every attribute from the record, both blocks known. */
  function Stored(d: Policy, rec: PolicyRecord): (r: Policy)
    ensures r.id == Known(rec.uuid) && r.name == Known(rec.name) && r.svmName == Known(rec.svmName)
    ensures r.fixed.Known? && FixedOf(r.fixed.value) == rec.fixed
    ensures r.adaptive.Known? && AdaptiveOf(r.adaptive.value) == rec.adaptive
    ensures r.cxProfileName == d.cxProfileName
  {
    d.(name := Known(rec.name), svmName := Known(rec.svmName), scope := Known(rec.scope), id := Known(rec.uuid),
       fixed := Known(FixedState(rec.fixed)), adaptive := Known(AdaptiveState(rec.adaptive)))
  }

  /** A policy stored as created reads back with the throughput values that were sent. */
  lemma CreateReadRoundTrip(d: Policy, uuid: string)
    requires Create(d).Success?
    ensures var b := Create(d).value;
      var s := Stored(d, PolicyRecord(b.name, b.svmName, b.scope, uuid, b.fixed, b.adaptive));
      FixedOf(s.fixed.value) == b.fixed && AdaptiveOf(s.adaptive.value) == b.adaptive &&
      (d.fixed.Known? ==> FixedOf(s.fixed.value) == FixedOf(d.fixed.value))
  {
  }

  /** A second update after storing what was read sends nothing for either block. */
  lemma ReadThenUpdateUnchanged(d: Policy, rec: PolicyRecord)
    ensures var s := Stored(d, rec); Update(s, s) == Success(UpdateBody("", NoFixed, NoAdaptive))
  {
  }

  const LookupFields: seq<string> := ["name", "svm.name", "scope", "fixed", "adaptive", "uuid"]

  /** `GetQOSPoliciesByName` as written: the SVM name is accepted and not used. */
  function ByNameQueryAsWritten(name: string, svmName: string): (q: Query)
    ensures "name" in q && q["name"] == name && "svm.name" !in q
  {
    RestClient.Fields(map["name" := name], LookupFields)
  }

  /** Two SVMs with a policy of the same name get the same query, so the lookup finds both and fails. */
  lemma ByNameIgnoresSvm(name: string, svm1: string, svm2: string, o: Outcome)
    requires o.err.None? && o.response.numRecords == 2
    ensures ByNameQueryAsWritten(name, svm1) == ByNameQueryAsWritten(name, svm2)
    ensures GetNilOrOneRecord(o).err == Some(TooManyRecords(o.status))
  {
  }

  /** The lookup filtering on the SVM as well. */
  function ByNameQuery(name: string, svmName: string): (q: Query)
    ensures "name" in q && q["name"] == name
    ensures "svm.name" in q && q["svm.name"] == svmName
    ensures q - {"svm.name"} == ByNameQueryAsWritten(name, svmName)
  {
    RestClient.Fields(map["name" := name, "svm.name" := svmName], LookupFields)
  }

  /** `Read`: by UUID when an ID is stored, else by name (and SVM). */
  datatype ReadBy = ByUuid(path: string) | ByName(query: Query)

  /** As written: by UUID when an ID is stored, else by name through `GetQOSPoliciesByName`, which drops the SVM. */
  function ReadLookup(d: Policy): (r: ReadBy)
    ensures r.ByUuid? <==> Str(d.id) != ""
    ensures r.ByUuid? ==> r.path == "storage/qos/policies/" + Str(d.id)
    ensures r.ByName? ==> r.query == ByNameQueryAsWritten(Str(d.name), Str(d.svmName)) && "svm.name" !in r.query
  {
    if Str(d.id) != "" then ByUuid("storage/qos/policies/" + Str(d.id)) else ByName(ByNameQueryAsWritten(Str(d.name), Str(d.svmName)))
  }

  /** The corrected lookup: the by-name branch filters on the SVM as well. */
  function ReadLookupCorrected(d: Policy): (r: ReadBy)
    ensures r.ByUuid? <==> Str(d.id) != ""
    ensures r.ByUuid? ==> r == ReadLookup(d)
    ensures r.ByName? ==> r.query == ByNameQuery(Str(d.name), Str(d.svmName)) && r.query["svm.name"] == Str(d.svmName)
  {
    if Str(d.id) != "" then ByUuid("storage/qos/policies/" + Str(d.id)) else ByName(ByNameQuery(Str(d.name), Str(d.svmName)))
  }

  /** `Delete`: a null ID is an error. */
  function Delete(d: Policy): (r: Result<string, string>)
    ensures r.Failure? <==> d.id.Null?
    ensures r.Success? ==> r.value == Str(d.id)
  {
    if d.id.Null? then Failure("UUID is null") else Success(Str(d.id))
  }

  /** The state stored after create or read is deleted by the record's UUID, and read back by it when the UUID is non-empty. */
  lemma DeleteAfterStored(d: Policy, rec: PolicyRecord)
    ensures Delete(Stored(d, rec)) == Success(rec.uuid)
    ensures rec.uuid != "" ==> ReadLookup(Stored(d, rec)) == ByUuid("storage/qos/policies/" + rec.uuid)
  {
  }

  // ---------------------------------------------------------------- import

  // `ImportState` takes `name,svm_name,cx_profile_name`: `ImportId.ImportSvmScoped`.
}
