/**
 * FlexCache volumes (`storage_flexcache` resource and
 * `interfaces/storage_flexcache.go`): the create request, its encoding with
 * the struct's `omitempty` tags, and the removal of `use_tiered_aggregate`
 * when aggregates are named. A FlexCache cannot be updated.
 */
module StorageFlexcache {
  import opened Wrappers
  import opened Tf
  import opened RestResponse
  import opened RestClient
  import opened Units

  /** A `{name, id}` reference to a volume, SVM or aggregate. */
  datatype Ref = Ref(name: Value<string>, id: Value<string>)

  datatype Origin = Origin(volume: Value<Ref>, svm: Value<Ref>)

  datatype Flexcache = Flexcache(
    id: Value<string>,
    name: Value<string>,
    svmName: Value<string>,
    size: Value<int>,
    sizeUnit: Value<string>,
    junctionPath: Value<string>,
    constituentsPerAggregate: Value<int>,
    drCache: Value<bool>,
    globalFileLockingEnabled: Value<bool>,
    useTieredAggregate: Value<bool>,
    guaranteeType: Value<Value<string>>,
    origins: Value<seq<Origin>>,
    aggregates: Value<seq<Ref>>)

  /** `{name, uuid}` as sent. */
  datatype RefBody = RefBody(name: string, uuid: string)

  datatype OriginBody = OriginBody(volume: RefBody, svm: RefBody)

  /** `interfaces.StorageFlexcacheResourceModel`, the create request. */
  datatype Request = Request(
    name: string, svmName: string, origins: seq<OriginBody>, junctionPath: string, size: int, guaranteeType: string,
    drCache: bool, globalFileLockingEnabled: bool, useTieredAggregate: bool, constituentsPerAggregate: int,
    aggregates: seq<RefBody>)

  /** Why create stops before calling the server. */
  datatype CreateError =
    | BadUnit(unit: string)   // not a key of the multiplier table
    | NullObject              // `Object.As` of a null block into a struct fails

  function RefOf(r: Ref): (b: RefBody)
    ensures b.name == Str(r.name) && b.uuid == Str(r.id)
  {
    RefBody(if r.name.Unknown? then "" else Str(r.name), if r.id.Unknown? then "" else Str(r.id))
  }

  /** A reference block: unknown is skipped, null fails to convert. */
  function RefBlock(v: Value<Ref>): (r: Result<RefBody, CreateError>)
    ensures r.Failure? <==> v.Null?
    ensures v.Known? ==> r == Success(RefOf(v.value))
    ensures v.Unknown? ==> r == Success(RefBody("", ""))
  {
    match v
    case Null => Failure(NullObject)
    case Unknown => Success(RefBody("", ""))
    case Known(x) => Success(RefOf(x))
  }

  function OriginsOf(os: seq<Origin>): (r: Result<seq<OriginBody>, CreateError>)
    ensures r.Failure? <==> exists i :: 0 <= i < |os| && (os[i].volume.Null? || os[i].svm.Null?)
    ensures r.Success? ==> |r.value| == |os|
    ensures r.Success? ==>
      forall i :: 0 <= i < |os| ==> r.value[i] == OriginBody(RefBlock(os[i].volume).value, RefBlock(os[i].svm).value)
  {
    if |os| == 0 then Success([])
    else
      var rest := OriginsOf(os[1..]);
      var v := RefBlock(os[0].volume);
      var s := RefBlock(os[0].svm);
      assert forall i :: 1 <= i < |os| ==> os[i] == os[1..][i - 1];
      if v.Failure? || s.Failure? then Failure(NullObject)
      else if rest.Failure? then Failure(NullObject)
      else Success([OriginBody(v.value, s.value)] + rest.value)
  }

  function RefsOf(rs: seq<Ref>): (r: seq<RefBody>)
    ensures |r| == |rs| && forall i :: 0 <= i < |rs| ==> r[i] == RefOf(rs[i])
  {
    if |rs| == 0 then [] else [RefOf(rs[0])] + RefsOf(rs[1..])
  }

  /**
   * `Create`'s request. An unknown block or list is skipped; a null list
   * contributes no element. The size is the plan's size times the unit's
   * multiplier.
   */
  function CreateRequest(d: Flexcache, units: UnitTable): (r: Result<Request, CreateError>)
    ensures r == Failure(BadUnit(Str(d.sizeUnit))) <==> Str(d.sizeUnit) !in units
    ensures r.Success? ==> r.value.size == Int(d.size) * units[Str(d.sizeUnit)]
    ensures r.Success? ==> r.value.name == Str(d.name) && r.value.svmName == Str(d.svmName)
    ensures r.Success? && d.aggregates.Known? ==> r.value.aggregates == RefsOf(d.aggregates.value)
    ensures r.Success? && !d.aggregates.Known? ==> r.value.aggregates == []
    ensures r.Success? ==> r.value.junctionPath == Str(d.junctionPath)
    ensures r.Success? ==> r.value.useTieredAggregate == Bool(d.useTieredAggregate)
    ensures r.Success? ==> r.value.drCache == Bool(d.drCache) && r.value.globalFileLockingEnabled == Bool(d.globalFileLockingEnabled)
    ensures r.Success? ==> r.value.constituentsPerAggregate == Int(d.constituentsPerAggregate)
    ensures r.Success? && d.guaranteeType.Known? ==> r.value.guaranteeType == Str(d.guaranteeType.value)
    ensures r.Success? && !d.guaranteeType.Known? ==> r.value.guaranteeType == ""
    ensures r.Success? && d.origins.Known? ==> OriginsOf(d.origins.value) == Success(r.value.origins)
    ensures r.Success? && !d.origins.Known? ==> r.value.origins == []
    ensures d.guaranteeType.Null? && Str(d.sizeUnit) in units ==> r == Failure(NullObject)
    ensures r.Success? <==>
      Str(d.sizeUnit) in units && !d.guaranteeType.Null? && (d.origins.Known? ==> OriginsOf(d.origins.value).Success?)
    ensures r.Failure? && r.error != BadUnit(Str(d.sizeUnit)) ==> r.error == NullObject
  {
    if Str(d.sizeUnit) !in units then Failure(BadUnit(Str(d.sizeUnit)))
    else if d.guaranteeType.Null? then Failure(NullObject)
    else
      var origins :- if d.origins.Known? then OriginsOf(d.origins.value) else Success([]);
      var guarantee := if d.guaranteeType.Known? then Str(d.guaranteeType.value) else "";
      var aggregates := if d.aggregates.Known? then RefsOf(d.aggregates.value) else [];
      Success(Request(Str(d.name), Str(d.svmName), origins, Str(d.junctionPath), Int(d.size) * units[Str(d.sizeUnit)],
                      guarantee, Bool(d.drCache), Bool(d.globalFileLockingEnabled), Bool(d.useTieredAggregate),
                      Int(d.constituentsPerAggregate), aggregates))
  }

  /** With a valid unit, the size sent converts back to the plan's size. */
  lemma CreateSizeRoundTrip(d: Flexcache, units: UnitTable)
    requires ValidUnits(units) && CreateRequest(d, units).Success?
    ensures FromBytes(CreateRequest(d, units).value.size, Str(d.sizeUnit), units) == Int(d.size)
  {
    RoundTrip(Int(d.size), Str(d.sizeUnit), units);
  }

  // ---------------------------------------------------------------- encoding

  function RefJson(b: RefBody): (j: Json)
    ensures j.JObj? && ("name" in j.fields <==> b.name != "") && ("uuid" in j.fields <==> b.uuid != "")
  {
    var m: Body := if b.name != "" then map["name" := JStr(b.name)] else map[];
    JObj(if b.uuid != "" then m["uuid" := JStr(b.uuid)] else m)
  }

  function OriginsJson(os: seq<OriginBody>): (r: seq<Json>)
    ensures |r| == |os| && forall i :: 0 <= i < |os| ==>
      r[i] == JObj(map["volume" := RefJson(os[i].volume), "svm" := RefJson(os[i].svm)])
  {
    if |os| == 0 then []
    else [JObj(map["volume" := RefJson(os[0].volume), "svm" := RefJson(os[0].svm)])] + OriginsJson(os[1..])
  }

  function RefsJson(rs: seq<RefBody>): (r: seq<Json>)
    ensures |r| == |rs| && forall i :: 0 <= i < |rs| ==> r[i] == RefJson(rs[i])
  {
    if |rs| == 0 then [] else [RefJson(rs[0])] + RefsJson(rs[1..])
  }

  /**
   * The encoded request: the three flags and the two blocks always, every
   * other field only when non-zero or non-empty.
   */
  function Encode(r: Request): (b: Body)
    ensures "use_tiered_aggregate" in b && b["use_tiered_aggregate"] == JBool(r.useTieredAggregate)
    ensures "aggregates" in b <==> |r.aggregates| > 0
  {
    var b0 := Flags(r);
    var b1 := if r.name != "" then b0["name" := JStr(r.name)] else b0;
    var b2 := if |r.origins| > 0 then b1["origins" := JList(OriginsJson(r.origins))] else b1;
    var b3 := if r.junctionPath != "" then b2["junction_path" := JStr(r.junctionPath)] else b2;
    var b4 := if r.size != 0 then b3["size" := JInt(r.size)] else b3;
    var b5 := if r.constituentsPerAggregate != 0 then b4["constituents_per_aggregate" := JInt(r.constituentsPerAggregate)] else b4;
    if |r.aggregates| > 0 then b5["aggregates" := JList(RefsJson(r.aggregates))] else b5
  }

  /** The fields sent whatever their value: the SVM, the guarantee block and the three flags. */
  function Flags(r: Request): (b: Body)
    ensures "use_tiered_aggregate" in b && b["use_tiered_aggregate"] == JBool(r.useTieredAggregate)
    ensures "dr_cache" in b && b["dr_cache"] == JBool(r.drCache)
    ensures "global_file_locking_enabled" in b && b["global_file_locking_enabled"] == JBool(r.globalFileLockingEnabled)
    ensures "aggregates" !in b && "size" !in b && "name" !in b && "origins" !in b && "path" !in b
  {
    map["svm" := JObj(map["name" := JStr(r.svmName)]),
        "guarantee" := JObj(if r.guaranteeType != "" then map["type" := JStr(r.guaranteeType)] else map[]),
        "dr_cache" := JBool(r.drCache),
        "global_file_locking_enabled" := JBool(r.globalFileLockingEnabled),
        "use_tiered_aggregate" := JBool(r.useTieredAggregate)]
  }

  /** The other fields are omitted when zero or empty. */
  lemma EncodeOmitsEmpty(r: Request)
    ensures "size" in Encode(r) <==> r.size != 0
    ensures "origins" in Encode(r) <==> |r.origins| > 0
    ensures "name" in Encode(r) <==> r.name != ""
  {
    var b0 := Flags(r);
    assert "size" !in b0 && "origins" !in b0 && "name" !in b0;
  }

  /** `path` is never assigned; the two other flags are always sent. */
  lemma EncodeFixedKeys(r: Request)
    ensures "path" !in Encode(r)
    ensures "dr_cache" in Encode(r) && "global_file_locking_enabled" in Encode(r)
  {
    var b0 := Flags(r);
    assert "path" !in b0 && "dr_cache" in b0 && "global_file_locking_enabled" in b0;
  }

  /** Values of the optional fields, when sent. */
  lemma EncodeValues(r: Request)
    ensures r.size != 0 ==> Encode(r)["size"] == JInt(r.size)
    ensures |r.aggregates| > 0 ==> Encode(r)["aggregates"] == JList(RefsJson(r.aggregates))
  {
  }

  /** `CreateStorageFlexcache`: the tiered-aggregate option goes only with auto-provisioning, without aggregates. */
  function PruneTiered(b: Body): (r: Body)
    ensures "aggregates" in b ==> r == b - {"use_tiered_aggregate"}
    ensures "aggregates" !in b ==> r == b
  {
    if "aggregates" in b then b - {"use_tiered_aggregate"} else b
  }

  /** Pruning removes nothing but the one key. */
  lemma PruneTieredKeeps(b: Body)
    ensures forall k :: k in b && k != "use_tiered_aggregate" ==> k in PruneTiered(b) && PruneTiered(b)[k] == b[k]
    ensures forall k :: k in PruneTiered(b) ==> k in b
    ensures PruneTiered(PruneTiered(b)) == PruneTiered(b)
  {
  }

  /** The body posted: `use_tiered_aggregate` is sent exactly when no aggregate is named. */
  lemma CreateBodySendsTieredIff(r: Request)
    ensures "use_tiered_aggregate" in PruneTiered(Encode(r)) <==> |r.aggregates| == 0
    ensures "aggregates" in PruneTiered(Encode(r)) <==> |r.aggregates| > 0
  {
  }

  /** The create call's query: the server is asked not to return the record. */
  const CreateQuery: Query := map["return_records" := "false"]

  /** `GetStorageFlexcacheByName`: filters on the name and the SVM name. */
  function ByNameQuery(name: string, svmName: string): (q: Query)
    ensures "name" in q && q["name"] == name && "svm.name" in q && q["svm.name"] == svmName && "fields" in q
  {
    RestClient.Fields(map["name" := name, "svm.name" := svmName],
                      ["size", "path", "origins", "guarantee.type", "constituents_per_aggregate", "dr_cache",
                       "global_file_locking_enabled", "use_tiered_aggregate", "aggregates"])
  }

  /** `Update` always fails. */
  function Update(plan: Flexcache, state: Flexcache): (r: Result<Flexcache, string>)
    ensures r.Failure? && r.error == "Update not available"
  {
    Failure("Update not available")
  }

  /** `Delete`: an unknown ID is an error; otherwise the UUID's path is deleted. */
  function Delete(d: Flexcache): (r: Result<string, string>)
    ensures r.Failure? <==> d.id.Unknown?
    ensures r.Success? ==> r.value == "storage/flexcache/flexcaches/" + Str(d.id)
  {
    if d.id.Unknown? then Failure("UUID is null") else Success("storage/flexcache/flexcaches/" + Str(d.id))
  }

  /** The fields of the record `Create` looks up by name after the POST. */
  datatype FlexcacheRecord = FlexcacheRecord(
    uuid: string, junctionPath: string, constituentsPerAggregate: int,
    drCache: bool, globalFileLockingEnabled: bool, useTieredAggregate: bool)

  /** The state `Create` saves: no record found is an error; otherwise the ID and flags come from the record. */
  function AfterCreate(d: Flexcache, found: Option<FlexcacheRecord>): (r: Result<Flexcache, string>)
    ensures r.Failure? <==> found.None?
    ensures r.Failure? ==> r.error == "No flexcache found"
    ensures r.Success? ==> r.value.id == Known(found.value.uuid) && r.value.junctionPath == Known(found.value.junctionPath)
    ensures r.Success? ==> r.value.constituentsPerAggregate == Known(found.value.constituentsPerAggregate)
    ensures r.Success? ==> r.value.drCache == Known(found.value.drCache) && r.value.useTieredAggregate == Known(found.value.useTieredAggregate)
    ensures r.Success? ==> r.value.globalFileLockingEnabled == Known(found.value.globalFileLockingEnabled)
    ensures r.Success? ==> r.value.name == d.name && r.value.svmName == d.svmName
  {
    match found
    case None => Failure("No flexcache found")
    case Some(f) =>
      Success(d.(id := Known(f.uuid), junctionPath := Known(f.junctionPath),
                 constituentsPerAggregate := Known(f.constituentsPerAggregate), drCache := Known(f.drCache),
                 globalFileLockingEnabled := Known(f.globalFileLockingEnabled),
                 useTieredAggregate := Known(f.useTieredAggregate)))
  }

  /** Deleting the state create saved removes the flexcache found after the POST. */
  lemma DeleteAfterCreate(d: Flexcache, f: FlexcacheRecord)
    ensures AfterCreate(d, Some(f)).Success?
    ensures Delete(AfterCreate(d, Some(f)).value) == Success("storage/flexcache/flexcaches/" + f.uuid)
  {
  }
}
