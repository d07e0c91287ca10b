/**
 * A FlexVol volume (`provider/storage/storage_volume_resource.go`): the plan
 * check that refuses offline volumes, the create body, the changed-field
 * update body, the size conversion to bytes and back, and import.
 *
 * A Go request struct nested only to hold one field is written as a dotted key
 * (`svm.name`, `qos.policy.name`); the `nas`, `space`, `efficiency`,
 * `tiering_policy`, `snaplock` and `analytics` parts are nested objects,
 * present when that block of the plan was processed. Keys follow the Go field
 * names; a block that is null in the plan fails the framework's `Object.As`.
 */
module StorageVolume {
  import opened Wrappers
  import opened Tf
  import opened GoStrings
  import opened ImportId
  import opened Units

  datatype Nas = Nas(
    exportPolicy: Value<string>,
    junctionPath: Value<string>,
    securityStyle: Value<string>,
    unixPermissions: Value<int>,
    groupId: Value<int>,
    userId: Value<int>)

  datatype LogicalSpace = LogicalSpace(enforcement: Value<bool>, reporting: Value<bool>)

  datatype Space = Space(size: Value<int>, sizeUnit: Value<string>, percentSnapshotSpace: Value<int>, logicalSpace: Value<LogicalSpace>)

  datatype Efficiency = Efficiency(policy: Value<string>, compression: Value<string>)

  datatype Tiering = Tiering(policy: Value<string>, minimumCoolingDays: Value<int>)

  datatype SnapLock = SnapLock(snaplockType: Value<string>)

  datatype Analytics = Analytics(state: Value<string>)

  /** The resource model. */
  datatype Volume = Volume(
    name: Value<string>,
    svmName: Value<string>,
    aggregates: seq<Value<string>>,
    state: Value<string>,
    volumeType: Value<string>,
    spaceGuarantee: Value<string>,
    encrypt: Value<bool>,
    snapshotPolicy: Value<string>,
    language: Value<string>,
    qosPolicyGroup: Value<string>,
    comment: Value<string>,
    nas: Value<Nas>,
    space: Value<Space>,
    efficiency: Value<Efficiency>,
    tiering: Value<Tiering>,
    snaplock: Value<SnapLock>,
    analytics: Value<Analytics>)

  // ---------------------------------------------------------------- plan check

  predicate Offline(m: Option<Value<string>>) {
    m.Some? && m.value == Known("offline")
  }

  /**
   * `ModifyPlan`: the `state` of the prior state and of the plan, each absent
   * when there is none (create, destroy). Refused when either is offline.
   */
  function ModifyPlan(state: Option<Value<string>>, plan: Option<Value<string>>): (r: Option<string>)
    ensures r.Some? <==> Offline(state) || Offline(plan)
  {
    if state.Some? && !state.value.Unknown? && Str(state.value) == "offline" then Some("Volume is offline")
    else if plan.Some? && !plan.value.Unknown? && Str(plan.value) == "offline" then Some("Volume is offline")
    else None
  }

  // ---------------------------------------------------------------- nested parts

  function NasAttrs(n: Nas): (r: seq<Attr>)
    ensures |r| == 6 && DistinctKeys(r)
  {
    [S("export_policy.name", n.exportPolicy), S("junction_path", n.junctionPath), S("security_style", n.securityStyle),
     I("unix_permissions", n.unixPermissions), I("group_id", n.groupId), I("user_id", n.userId)]
  }

  /** The nas part: every field not unknown. */
  function NasBody(n: Nas): (b: Body)
    ensures SendsUnlessUnknown(b, NasAttrs(n))
  {
    PutUnlessUnknown(map[], NasAttrs(n))
  }

  function EfficiencyAttrs(e: Efficiency): (r: seq<Attr>)
    ensures |r| == 2 && DistinctKeys(r)
  {
    [S("policy.name", e.policy), S("compression", e.compression)]
  }

  function EfficiencyBody(e: Efficiency): (b: Body)
    ensures SendsUnlessUnknown(b, EfficiencyAttrs(e))
  {
    PutUnlessUnknown(map[], EfficiencyAttrs(e))
  }

  function TieringAttrs(t: Tiering): (r: seq<Attr>)
    ensures |r| == 2 && DistinctKeys(r)
  {
    [S("policy", t.policy), I("min_cooling_days", t.minimumCoolingDays)]
  }

  function TieringBody(t: Tiering): (b: Body)
    ensures SendsUnlessUnknown(b, TieringAttrs(t))
  {
    PutUnlessUnknown(map[], TieringAttrs(t))
  }

  /** A logical-space block whose conversion was ignored: every field null. */
  const NoLogical := LogicalSpace(Null, Null)

  /** The space fields, with the size already in bytes. */
  function SpaceAttrs(sp: Space, bytes: int): (r: seq<Attr>)
    ensures |r| == 4 && DistinctKeys(r) && r[0] == Always("size", JInt(bytes))
  {
    var l := ValueOr(sp.logicalSpace, NoLogical);
    [Always("size", JInt(bytes)), I("snapshot.reserve_percent", sp.percentSnapshotSpace),
     B("logical_space.enforcement", l.enforcement), B("logical_space.reporting", l.reporting)]
  }

  /** The size always; the others when not unknown, the logical space ones only when that block is not unknown. */
  function SpaceFlags(sp: Space): (r: seq<bool>)
    ensures |r| == 4 && r[0] && (r[1] <==> !sp.percentSnapshotSpace.Unknown?)
    ensures sp.logicalSpace.Unknown? ==> !r[2] && !r[3]
    ensures sp.logicalSpace.Null? ==> r[2] && r[3]
  {
    var l := ValueOr(sp.logicalSpace, NoLogical);
    [true, !sp.percentSnapshotSpace.Unknown?,
     !sp.logicalSpace.Unknown? && !l.enforcement.Unknown?, !sp.logicalSpace.Unknown? && !l.reporting.Unknown?]
  }

  function SpaceBody(sp: Space, bytes: int): (b: Body)
    ensures SendsWhere(b, SpaceAttrs(sp, bytes), SpaceFlags(sp))
    ensures "size" in b && b["size"] == JInt(bytes)
  {
    var b := Put(map[], SpaceAttrs(sp, bytes), SpaceFlags(sp));
    SendsWhereAt(b, SpaceAttrs(sp, bytes), SpaceFlags(sp), 0);
    b
  }

  function SizeUnit(sp: Space): string {
    Str(sp.sizeUnit)
  }

  /** The space part once the unit is known to be in the table: `size * POW2BYTEMAP[size_unit]` bytes. */
  function SpacePart(v: Volume, units: UnitTable): (b: Body)
    ensures v.space.Known? && SizeUnit(v.space.value) in units ==>
      "size" in b && b["size"] == JInt(Int(v.space.value.size) * units[SizeUnit(v.space.value)])
  {
    if v.space.Known? && SizeUnit(v.space.value) in units then
      SpaceBody(v.space.value, Int(v.space.value.size) * units[SizeUnit(v.space.value)])
    else map[]
  }

  function NasPart(v: Volume): Body {
    if v.nas.Known? then NasBody(v.nas.value) else map[]
  }

  function EfficiencyPart(v: Volume): Body {
    if v.efficiency.Known? then EfficiencyBody(v.efficiency.value) else map[]
  }

  function TieringPart(v: Volume): Body {
    if v.tiering.Known? then TieringBody(v.tiering.value) else map[]
  }

  function SnapLockPart(v: Volume): Body {
    if v.snaplock.Known? then map["type" := JStr(Str(v.snaplock.value.snaplockType))] else map[]
  }

  function AnalyticsPart(v: Volume): Body {
    if v.analytics.Known? then map["state" := JStr(Str(v.analytics.value.state))] else map[]
  }

  /** The body keys of create, top-level fields first, then the nested blocks. */
  const CreateKeys: seq<string> := ["name", "svm.name", "aggregates", "state", "type", "space_guarantee.type",
    "encryption.enabled", "snapshot_policy.name", "language", "qos.policy.name", "comment",
    "nas", "space", "efficiency", "tiering_policy", "snaplock", "analytics"]

  lemma CreateKeysDistinct()
    ensures Distinct(CreateKeys)
  {
    var k := CreateKeys;
    assert |k[0]| == 4 && |k[1]| == 8 && |k[2]| == 10 && |k[3]| == 5 && |k[4]| == 4 && |k[5]| == 20 && |k[6]| == 18 && |k[7]| == 20;
    assert |k[8]| == 8 && |k[9]| == 15 && |k[10]| == 7 && |k[11]| == 3 && |k[12]| == 5 && |k[13]| == 10 && |k[14]| == 14;
    assert |k[15]| == 8 && |k[16]| == 9;
    assert k[0][0] != k[4][0] && k[1][0] != k[8][0] && k[8][0] != k[15][0] && k[1][1] != k[15][1];
    assert k[2][0] != k[13][0] && k[3][1] != k[12][1] && k[5][1] != k[7][1];
  }

  /** The nested parts of a request, in field order. */
  function BlockAttrs(v: Volume, units: UnitTable): (r: seq<Attr>)
    ensures |r| == 6 && forall i :: 0 <= i < 6 ==> r[i].key == CreateKeys[11 + i]
    ensures DistinctKeys(r)
    ensures r[1] == Obj("space", SpacePart(v, units))
  {
    CreateKeysDistinct();
    var r := [Obj("nas", NasPart(v)), Obj("space", SpacePart(v, units)), Obj("efficiency", EfficiencyPart(v)),
              Obj("tiering_policy", TieringPart(v)), Obj("snaplock", SnapLockPart(v)), Obj("analytics", AnalyticsPart(v))];
    KeysFrom(r, CreateKeys, 11);
    r
  }

  // ---------------------------------------------------------------- create

  /** Each planned aggregate as `{"name": ...}`. */
  function Aggregates(names: seq<Value<string>>): (r: seq<Json>)
    ensures |r| == |names| && forall i :: 0 <= i < |names| ==> r[i] == JObj(map["name" := JStr(Str(names[i]))])
  {
    if |names| == 0 then [] else [JObj(map["name" := JStr(Str(names[0]))])] + Aggregates(names[1..])
  }

  /** The `state` field of create: guarded by the plan's state, carrying the value of `source`. */
  function StateAttr(guard: Value<string>, source: Value<string>): Attr {
    Attr("state", if guard.Unknown? then Unknown else Known(JStr(Str(source))), JStr(""))
  }

  /** The top-level create fields; all but name, svm and aggregates are guarded by `!IsUnknown()`. */
  function TopCreateAttrs(v: Volume, stateSource: Value<string>): (r: seq<Attr>)
    ensures |r| == 11 && forall i :: 0 <= i < 11 ==> r[i].key == CreateKeys[i]
    ensures DistinctKeys(r)
    ensures r[3] == StateAttr(v.state, stateSource)
    ensures forall i :: 0 <= i < 3 ==> r[i].value.Known?
  {
    CreateKeysDistinct();
    var r := [Always("name", JStr(Str(v.name))), Always("svm.name", JStr(Str(v.svmName))), Always("aggregates", JList(Aggregates(v.aggregates))),
     StateAttr(v.state, stateSource), S("type", v.volumeType), S("space_guarantee.type", v.spaceGuarantee),
     B("encryption.enabled", v.encrypt), S("snapshot_policy.name", v.snapshotPolicy), S("language", v.language),
     S("qos.policy.name", v.qosPolicyGroup), S("comment", v.comment)];
    KeysFrom(r, CreateKeys, 0);
    r
  }

  function CreateAttrs(v: Volume, stateSource: Value<string>, units: UnitTable): (r: seq<Attr>)
    ensures |r| == 17 && DistinctKeys(r)
    ensures r[..11] == TopCreateAttrs(v, stateSource) && r[11..] == BlockAttrs(v, units)
  {
    var r := TopCreateAttrs(v, stateSource) + BlockAttrs(v, units);
    CreateKeysDistinct();
    KeysFrom(r, CreateKeys, 0);
    r
  }

  /** Top-level fields when not unknown; a block when not unknown; space always. */
  function CreateFlags(v: Volume, stateSource: Value<string>): (r: seq<bool>)
    ensures |r| == 17 && r[..11] == NotUnknown(TopCreateAttrs(v, stateSource))
    ensures r[11] == v.nas.Known? && r[12] && r[13] == v.efficiency.Known? && r[14] == v.tiering.Known?
    ensures r[15] == v.snaplock.Known? && r[16] == v.analytics.Known?
  {
    var top := NotUnknown(TopCreateAttrs(v, stateSource));
    var blocks := [v.nas.Known?, true, v.efficiency.Known?, v.tiering.Known?, v.snaplock.Known?, v.analytics.Known?];
    assert |top| == 11 && (top + blocks)[..11] == top;
    top + blocks
  }

  /** The create body holds exactly the flagged fields. */
  function CreateBody(v: Volume, stateSource: Value<string>, units: UnitTable): (b: Body)
    ensures SendsWhere(b, CreateAttrs(v, stateSource, units), CreateFlags(v, stateSource))
  {
    Put(map[], CreateAttrs(v, stateSource, units), CreateFlags(v, stateSource))
  }

  datatype Outcome = ConversionFailed | InvalidUnit(unit: string) | Submit(body: Body)

  /** Every block create converts is not null: nas, space (which must be known), logical space and the rest. */
  predicate CreateConverts(v: Volume) {
    && !v.nas.Null? && v.space.Known? && !v.space.value.logicalSpace.Null?
    && !v.efficiency.Null? && !v.tiering.Null? && !v.snaplock.Null? && !v.analytics.Null?
  }

  /** Create with `state` carrying the value of `stateSource`. */
  function CreateWith(v: Volume, units: UnitTable, stateSource: Value<string>): (r: Outcome)
    ensures r.InvalidUnit? <==> !v.nas.Null? && v.space.Known? && SizeUnit(v.space.value) !in units
    ensures r.InvalidUnit? ==> r.unit == SizeUnit(v.space.value)
    ensures r.Submit? <==> CreateConverts(v) && SizeUnit(v.space.value) in units
    ensures r.Submit? ==> r.body == CreateBody(v, stateSource, units)
  {
    if v.nas.Null? || !v.space.Known? then ConversionFailed
    else if SizeUnit(v.space.value) !in units then InvalidUnit(SizeUnit(v.space.value))
    else if v.space.value.logicalSpace.Null? || v.efficiency.Null? || v.tiering.Null? || v.snaplock.Null? || v.analytics.Null? then ConversionFailed
    else Submit(CreateBody(v, stateSource, units))
  }

  /** Create as written: the request's state, sent unless the planned state is unknown, carries the planned type. */
  function Create(v: Volume, units: UnitTable): (r: Outcome)
    ensures r.Submit? <==> CreateConverts(v) && SizeUnit(v.space.value) in units
    ensures r.Submit? ==> ("state" in r.body <==> !v.state.Unknown?)
    ensures r.Submit? && "state" in r.body ==> r.body["state"] == JStr(Str(v.volumeType))
  {
    CreateStateField(v, units, v.volumeType);
    CreateWith(v, units, v.volumeType)
  }

  /** The corrected create: the request's state carries the planned state. */
  function CreateCorrected(v: Volume, units: UnitTable): (r: Outcome)
    ensures r.Submit? <==> CreateConverts(v) && SizeUnit(v.space.value) in units
    ensures r.Submit? ==> ("state" in r.body <==> !v.state.Unknown?)
    ensures r.Submit? && "state" in r.body ==> r.body["state"] == JStr(Str(v.state))
  {
    CreateStateField(v, units, v.state);
    CreateWith(v, units, v.state)
  }

  /** The state field of a create body: sent when the plan's state is not unknown, with the source's value. */
  lemma CreateStateField(v: Volume, units: UnitTable, stateSource: Value<string>)
    ensures var b := CreateBody(v, stateSource, units);
      ("state" in b <==> !v.state.Unknown?) && ("state" in b ==> b["state"] == JStr(Str(stateSource)))
  {
    var attrs := CreateAttrs(v, stateSource, units);
    var flags := CreateFlags(v, stateSource);
    assert attrs[3] == StateAttr(v.state, stateSource);
    assert flags[3] == NotUnknown(TopCreateAttrs(v, stateSource))[3];
    SendsWhereAt(CreateBody(v, stateSource, units), attrs, flags, 3);
  }

  /** With a planned state other than the type, create as written sends the type as the state. */
  lemma StateFromType(v: Volume, units: UnitTable, st: string, ty: string)
    requires CreateCorrected(v, units).Submit?
    requires v.state == Known(st) && v.volumeType == Known(ty) && st != ty
    ensures Create(v, units).Submit? && CreateCorrected(v, units).Submit?
    ensures "state" in Create(v, units).body && Create(v, units).body["state"] == JStr(ty)
    ensures "state" in CreateCorrected(v, units).body && CreateCorrected(v, units).body["state"] == JStr(st)
  {
    CreateStateField(v, units, v.volumeType);
    CreateStateField(v, units, v.state);
  }

  /** A submitted create asks for `size * POW2BYTEMAP[size_unit]` bytes. */
  lemma CreateSize(v: Volume, units: UnitTable)
    requires Create(v, units).Submit?
    ensures var b := Create(v, units).body; var sp := v.space.value;
      "space" in b && b["space"] == JObj(SpacePart(v, units))
      && "size" in SpacePart(v, units) && SpacePart(v, units)["size"] == JInt(Int(sp.size) * units[SizeUnit(sp)])
  {
    var attrs := CreateAttrs(v, v.volumeType, units);
    var flags := CreateFlags(v, v.volumeType);
    assert attrs[12] == BlockAttrs(v, units)[1];
    SendsWhereAt(CreateBody(v, v.volumeType, units), attrs, flags, 12);
  }

  // ---------------------------------------------------------------- space in state

  /** The space figures the server reports. */
  datatype SpaceRecord = SpaceRecord(size: int, reservePercent: int, enforcement: bool, reporting: bool)

  /**
   * The space block stored after create and read: the reported bytes divided by
   * the multiplier of the block's unit, or nothing when the block does not
   * convert or its unit is not in the table.
   */
  function StoredSpace(block: Value<Space>, rec: SpaceRecord, units: UnitTable): (r: Option<Space>)
    requires ValidUnits(units)
    ensures r.Some? <==> block.Known? && SizeUnit(block.value) in units
    ensures r.Some? ==> r.value.sizeUnit == Known(SizeUnit(block.value))
    ensures r.Some? ==> r.value.size == Known(FromBytes(rec.size, SizeUnit(block.value), units))
    ensures r.Some? ==> r.value.percentSnapshotSpace == Known(rec.reservePercent)
    ensures r.Some? ==> r.value.logicalSpace == Known(LogicalSpace(Known(rec.enforcement), Known(rec.reporting)))
  {
    if block.Known? && SizeUnit(block.value) in units then
      Some(Space(Known(FromBytes(rec.size, SizeUnit(block.value), units)), Known(SizeUnit(block.value)),
                 Known(rec.reservePercent), Known(LogicalSpace(Known(rec.enforcement), Known(rec.reporting)))))
    else None
  }

  /** When the server reports the bytes create asked for, the stored size is the planned one. */
  lemma SizeRoundTrip(v: Volume, units: UnitTable, rec: SpaceRecord)
    requires ValidUnits(units) && Create(v, units).Submit? && v.space.value.size.Known?
    requires JInt(rec.size) == SpacePart(v, units)["size"]
    ensures StoredSpace(v.space, rec, units).Some?
    ensures StoredSpace(v.space, rec, units).value.size == v.space.value.size
  {
    var sp := v.space.value;
    RoundTrip(Int(sp.size), SizeUnit(sp), units);
  }

  // ---------------------------------------------------------------- update

  /** The top-level update fields, guarded by `!IsUnknown()`. */
  function TopUpdateAttrs(p: Volume): (r: seq<Attr>)
    ensures |r| == 8 && DistinctKeys(r) && r[0] == S("state", p.state)
  {
    [S("state", p.state), S("type", p.volumeType), S("snapshot_policy.name", p.snapshotPolicy), S("language", p.language),
     S("qos.policy.name", p.qosPolicyGroup), S("comment", p.comment), S("space_guarantee.type", p.spaceGuarantee),
     B("encryption.enabled", p.encrypt)]
  }

  /** The state is sent when the type changed; every other field when it changed. */
  function TopUpdateFlags(p: Volume, s: Volume): (r: seq<bool>)
    ensures |r| == 8 && (r[0] <==> !p.state.Unknown? && p.volumeType != s.volumeType)
    ensures r[1..] == Changed(TopUpdateAttrs(p)[1..], Values(TopUpdateAttrs(s)[1..]))
  {
    [!p.state.Unknown? && p.volumeType != s.volumeType] + Changed(TopUpdateAttrs(p)[1..], Values(TopUpdateAttrs(s)[1..]))
  }

  /** A nested block is sent when known in the plan and different from state. */
  predicate BlockSent<T(==)>(plan: Value<T>, state: Value<T>) {
    plan.Known? && plan != state
  }

  /** A changed block that is null in the plan fails the conversion. */
  predicate ConversionFails<T(==)>(plan: Value<T>, state: Value<T>) {
    plan.Null? && plan != state
  }

  function UpdateAttrs(p: Volume, units: UnitTable): (r: seq<Attr>)
    ensures |r| == 14 && DistinctKeys(r)
    ensures r[..8] == TopUpdateAttrs(p) && r[8..] == BlockAttrs(p, units)
  {
    TopUpdateAttrs(p) + BlockAttrs(p, units)
  }

  function UpdateFlags(p: Volume, s: Volume): (r: seq<bool>)
    ensures |r| == 14 && r[..8] == TopUpdateFlags(p, s)
    ensures r[8] == BlockSent(p.nas, s.nas) && r[9] == BlockSent(p.space, s.space) && r[10] == BlockSent(p.efficiency, s.efficiency)
    ensures r[11] == BlockSent(p.tiering, s.tiering) && r[12] == BlockSent(p.snaplock, s.snaplock)
    ensures r[13] == BlockSent(p.analytics, s.analytics)
  {
    TopUpdateFlags(p, s) +
      [BlockSent(p.nas, s.nas), BlockSent(p.space, s.space), BlockSent(p.efficiency, s.efficiency),
       BlockSent(p.tiering, s.tiering), BlockSent(p.snaplock, s.snaplock), BlockSent(p.analytics, s.analytics)]
  }

  /** The update body holds exactly the flagged fields. */
  function UpdateBody(p: Volume, s: Volume, units: UnitTable): (b: Body)
    ensures SendsWhere(b, UpdateAttrs(p, units), UpdateFlags(p, s))
  {
    Put(map[], UpdateAttrs(p, units), UpdateFlags(p, s))
  }

  /**
   * Update: the conversions and the unit check in field order, then the
   * changed-field body. The unit is checked whenever space is not unknown,
   * changed or not; a null space fails its conversion even when unchanged.
   */
  function Update(p: Volume, s: Volume, units: UnitTable): (r: Outcome)
    ensures r.InvalidUnit? <==> !ConversionFails(p.nas, s.nas) && p.space.Known? && SizeUnit(p.space.value) !in units
    ensures r.InvalidUnit? ==> r.unit == SizeUnit(p.space.value)
    ensures r.Submit? <==> && !ConversionFails(p.nas, s.nas) && !p.space.Null?
                           && (p.space.Known? ==> SizeUnit(p.space.value) in units)
                           && !ConversionFails(p.efficiency, s.efficiency) && !ConversionFails(p.tiering, s.tiering)
                           && !ConversionFails(p.snaplock, s.snaplock) && !ConversionFails(p.analytics, s.analytics)
    ensures r.Submit? ==> r.body == UpdateBody(p, s, units)
  {
    if ConversionFails(p.nas, s.nas) || p.space.Null? then ConversionFailed
    else if p.space.Known? && SizeUnit(p.space.value) !in units then InvalidUnit(SizeUnit(p.space.value))
    else if ConversionFails(p.efficiency, s.efficiency) || ConversionFails(p.tiering, s.tiering)
         || ConversionFails(p.snaplock, s.snaplock) || ConversionFails(p.analytics, s.analytics) then ConversionFailed
    else Submit(UpdateBody(p, s, units))
  }

  /** The state field of an update: sent only when the plan's type differs from the state's, whatever the states. */
  lemma UpdateStateField(p: Volume, s: Volume, units: UnitTable)
    ensures var b := UpdateBody(p, s, units);
      ("state" in b <==> !p.state.Unknown? && p.volumeType != s.volumeType)
      && ("state" in b ==> b["state"] == JStr(Str(p.state)))
  {
    assert UpdateAttrs(p, units)[0] == S("state", p.state);
    assert UpdateFlags(p, s)[0] == TopUpdateFlags(p, s)[0];
    SendsWhereAt(UpdateBody(p, s, units), UpdateAttrs(p, units), UpdateFlags(p, s), 0);
  }

  /** The space part of an update is sent only when space changed; its size is then in bytes. */
  lemma UpdateSpaceField(p: Volume, s: Volume, units: UnitTable)
    requires Update(p, s, units).Submit?
    ensures var b := Update(p, s, units).body;
      ("space" in b <==> p.space.Known? && p.space != s.space)
      && ("space" in b ==> (b["space"] == JObj(SpacePart(p, units))
                            && SpacePart(p, units)["size"] == JInt(Int(p.space.value.size) * units[SizeUnit(p.space.value)])))
  {
    assert UpdateAttrs(p, units)[9] == BlockAttrs(p, units)[1];
    SendsWhereAt(UpdateBody(p, s, units), UpdateAttrs(p, units), UpdateFlags(p, s), 9);
  }

  /** A plan equal to the state sends an empty body, once space converts and its unit is valid. */
  lemma UpdateUnchanged(v: Volume, units: UnitTable)
    ensures Update(v, v, units) ==
      if v.space.Null? then ConversionFailed
      else if v.space.Known? && SizeUnit(v.space.value) !in units then InvalidUnit(SizeUnit(v.space.value))
      else Submit(map[])
  {
    assert !ConversionFails(v.nas, v.nas) && !ConversionFails(v.efficiency, v.efficiency) && !ConversionFails(v.tiering, v.tiering);
    assert !ConversionFails(v.snaplock, v.snaplock) && !ConversionFails(v.analytics, v.analytics);
    UnchangedBody(v, units);
  }

  /** No field of a plan equal to the state is flagged. */
  lemma UnchangedFlags(v: Volume)
    ensures forall i :: 0 <= i < 14 ==> !UpdateFlags(v, v)[i]
  {
    var flags := UpdateFlags(v, v);
    var top := TopUpdateAttrs(v);
    assert flags[..8] == TopUpdateFlags(v, v);
    forall i | 1 <= i < 8 ensures !flags[i] {
      assert flags[i] == Changed(top[1..], Values(top[1..]))[i - 1];
    }
  }

  /** Planning the state itself sends an empty update body. */
  lemma UnchangedBody(v: Volume, units: UnitTable)
    ensures UpdateBody(v, v, units) == map[]
  {
    UnchangedFlags(v);
    PutWhereNothing(map[], UpdateAttrs(v, units), UpdateFlags(v, v));
  }

  // ---------------------------------------------------------------- import

  // `ImportState` takes `name,svm_name,cx_profile_name`: `ImportId.ImportSvmScoped`.
}
