/**
 * A storage aggregate (`provider/storage_aggregate_resource.go`,
 * `interfaces/storage_aggregate.go`): the create and update requests with the
 * `disk_size` query parameter, the checks made before either is sent, and the
 * wait for a new aggregate to leave the `onlining` state.
 *
 * The request struct is encoded with `omitempty` tags, so a field with Go's
 * zero value (an empty string, 0, a nil map) is absent from the body; this
 * module models that encoding explicitly.
 */
module StorageAggregate {
  import opened Wrappers
  import opened Tf
  import opened GoStrings
  import opened Units

  /** The resource model. */
  datatype Aggregate = Aggregate(
    name: Value<string>,
    state: Value<string>,
    node: Value<string>,
    diskClass: Value<string>,
    diskCount: Value<int>,
    diskSize: Value<int>,
    diskSizeUnit: Value<string>,
    raidSize: Value<int>,
    raidType: Value<string>,
    isMirrored: Value<bool>,
    snaplockType: Value<string>,
    encryption: Value<bool>)

  // ---------------------------------------------------------------- encoding

  /** `AggregateBlockStoragePrimary`: every field `omitempty`. */
  datatype Primary = Primary(diskClass: string, diskCount: int, raidSize: int, raidType: string)

  const NoPrimary := Primary("", 0, 0, "")

  /** The encoded primary block: exactly its non-zero fields. */
  function PrimaryBody(p: Primary): (b: Body)
    ensures ("disk_class" in b <==> p.diskClass != "") && ("disk_class" in b ==> b["disk_class"] == JStr(p.diskClass))
    ensures ("disk_count" in b <==> p.diskCount != 0) && ("disk_count" in b ==> b["disk_count"] == JInt(p.diskCount))
    ensures ("raid_size" in b <==> p.raidSize != 0) && ("raid_size" in b ==> b["raid_size"] == JInt(p.raidSize))
    ensures ("raid_type" in b <==> p.raidType != "") && ("raid_type" in b ==> b["raid_type"] == JStr(p.raidType))
    ensures b.Keys <= {"disk_class", "disk_count", "raid_size", "raid_type"}
  {
    Field("disk_class", p.diskClass != "", JStr(p.diskClass)) + Field("disk_count", p.diskCount != 0, JInt(p.diskCount))
    + Field("raid_size", p.raidSize != 0, JInt(p.raidSize)) + Field("raid_type", p.raidType != "", JStr(p.raidType))
  }

  /** `request.BlockStorage`: `primary` when that struct is not all zero, `mirror` when requested. */
  function BlockStorage(primary: Primary, mirror: Option<bool>): (b: Body)
    ensures ("primary" in b <==> primary != NoPrimary) && ("primary" in b ==> b["primary"] == JObj(PrimaryBody(primary)))
    ensures ("mirror" in b <==> mirror.Some?) && ("mirror" in b ==> b["mirror"] == JObj(map["enabled" := JBool(mirror.value)]))
    ensures forall k :: k in b ==> k == "primary" || k == "mirror"
  {
    Field("primary", primary != NoPrimary, JObj(PrimaryBody(primary)))
    + Field("mirror", mirror.Some?, JObj(map["enabled" := JBool(if mirror.Some? then mirror.value else false)]))
  }

  /** `StorageAggregateResourceModel` before encoding; an empty map stands for a nil one. */
  datatype Request = Request(
    name: string,
    state: string,
    node: Option<string>,
    blockStorage: Body,
    snaplockType: string,
    encryption: Option<bool>)

  /** The `mapstructure` encoding with `omitempty`: a field is sent iff it is not Go's zero value. */
  function Encode(r: Request): (b: Body)
    ensures ("name" in b <==> r.name != "") && ("name" in b ==> b["name"] == JStr(r.name))
    ensures ("state" in b <==> r.state != "") && ("state" in b ==> b["state"] == JStr(r.state))
    ensures ("snaplock_type" in b <==> r.snaplockType != "") && ("snaplock_type" in b ==> b["snaplock_type"] == JStr(r.snaplockType))
    ensures r == Request("", "", None, map[], "", None) ==> b == map[]
  {
    var b0: Body := if r.name != "" then map["name" := JStr(r.name)] else map[];
    var b1 := if r.state != "" then b0["state" := JStr(r.state)] else b0;
    var b2 := if r.node.Some? then b1["node" := JObj(map["name" := JStr(r.node.value)])] else b1;
    var b3 := if r.blockStorage != map[] then b2["block_storage" := JObj(r.blockStorage)] else b2;
    var b4 := if r.snaplockType != "" then b3["snaplock_type" := JStr(r.snaplockType)] else b3;
    if r.encryption.Some? then b4["data_encryption" := JObj(map["software_encryption_enabled" := JBool(r.encryption.value)])] else b4
  }

  /** The nested blocks of the encoding: each sent iff set. */
  lemma EncodeBlocks(r: Request)
    ensures var b := Encode(r);
      && ("node" in b <==> r.node.Some?) && ("node" in b ==> b["node"] == JObj(map["name" := JStr(r.node.value)]))
      && ("block_storage" in b <==> r.blockStorage != map[]) && ("block_storage" in b ==> b["block_storage"] == JObj(r.blockStorage))
      && ("data_encryption" in b <==> r.encryption.Some?)
      && ("data_encryption" in b ==> b["data_encryption"] == JObj(map["software_encryption_enabled" := JBool(r.encryption.value)]))
  {
  }

  /** The `disk_size` query parameter: sent only for a positive size. */
  function DiskSizeQuery(diskSize: int): (q: Option<string>)
    ensures q.Some? <==> diskSize > 0
  {
    if diskSize > 0 then Some(Itoa(diskSize)) else None
  }

  /** A positive disk size is sent as its decimal text, which parses back to it. */
  lemma DiskSizeQueryRoundTrip(diskSize: int)
    requires 0 < diskSize <= MaxInt64
    ensures DiskSizeQuery(diskSize).Some? && Atoi(DiskSizeQuery(diskSize).value) == Parsed(diskSize, true)
  {
    AtoiItoa(diskSize);
  }

  /** A request as sent: the body and the `disk_size` handed to the interface. */
  datatype Call = Call(body: Body, diskSize: int)

  // ---------------------------------------------------------------- create

  /** `POW2BYTEMAP[unit]`: indexing a Go map with a missing key yields 0. */
  function Multiplier(units: UnitTable, unit: string): int {
    if unit in units then units[unit] else 0
  }

  /** The disk size in bytes: only when both size and unit are set; an unknown unit counts as 0. */
  function DiskSize(a: Aggregate, units: UnitTable): (r: int)
    ensures a.diskSize.Null? || a.diskSizeUnit.Null? ==> r == 0
    ensures !a.diskSize.Null? && !a.diskSizeUnit.Null? && Str(a.diskSizeUnit) in units ==>
      r == Int(a.diskSize) * units[Str(a.diskSizeUnit)]
    ensures Str(a.diskSizeUnit) !in units ==> r == 0
  {
    if !a.diskSizeUnit.Null? && !a.diskSize.Null? then Int(a.diskSize) * Multiplier(units, Str(a.diskSizeUnit)) else 0
  }

  /**
   * The primary block of create. Each field is copied when not null; a null
   * or unknown field reads as Go's zero value anyway.
   */
  function CreatePrimary(a: Aggregate): Primary {
    Primary(Str(a.diskClass), Int(a.diskCount), Int(a.raidSize), Str(a.raidType))
  }

  /**
   * The create request: the name always and never a state; node, snaplock
   * type, encryption and the mirror flag when not null; the primary block
   * when one of its fields is set.
   */
  function CreateRequest(a: Aggregate): (r: Request)
    ensures r.name == Str(a.name) && r.state == ""
    ensures (r.node.Some? <==> !a.node.Null?) && (r.node.Some? ==> r.node.value == Str(a.node))
    ensures (r.encryption.Some? <==> !a.encryption.Null?) && (r.encryption.Some? ==> r.encryption.value == Bool(a.encryption))
    ensures a.snaplockType.Null? ==> r.snaplockType == ""
    ensures a.snaplockType.Known? ==> r.snaplockType == a.snaplockType.value
    ensures ("mirror" in r.blockStorage <==> !a.isMirrored.Null?)
    ensures "mirror" in r.blockStorage ==> r.blockStorage["mirror"] == JObj(map["enabled" := JBool(Bool(a.isMirrored))])
    ensures ("primary" in r.blockStorage <==> CreatePrimary(a) != NoPrimary)
  {
    Request(Str(a.name), "", if a.node.Null? then None else Some(Str(a.node)),
            BlockStorage(CreatePrimary(a), if a.isMirrored.Null? then None else Some(Bool(a.isMirrored))),
            if a.snaplockType.Null? then "" else Str(a.snaplockType),
            if a.encryption.Null? then None else Some(Bool(a.encryption)))
  }

  /** Create: refused before any call when a state is configured; otherwise the body and disk size. */
  function Create(a: Aggregate, units: UnitTable): (r: Result<Call, string>)
    ensures r.Failure? <==> Str(a.state) != ""
    ensures r.Success? ==> r.value == Call(Encode(CreateRequest(a)), DiskSize(a, units))
  {
    if Str(a.state) != "" then Failure("set state is not allowed on creation")
    else Success(Call(Encode(CreateRequest(a)), DiskSize(a, units)))
  }

  /** A disk size in a unit missing from the table is dropped: create goes ahead without `disk_size`. */
  lemma UnknownUnitDropsSize(a: Aggregate, units: UnitTable)
    requires Str(a.state) == "" && !a.diskSize.Null? && !a.diskSizeUnit.Null? && Str(a.diskSizeUnit) !in units
    ensures Create(a, units).Success? && DiskSizeQuery(Create(a, units).value.diskSize).None?
  {
  }

  /** Create that refuses a unit missing from the table, as volume and FlexCache creation do. */
  function CreateChecked(a: Aggregate, units: UnitTable): (r: Result<Call, string>)
    ensures r.Failure? <==> Str(a.state) != "" || (!a.diskSize.Null? && !a.diskSizeUnit.Null? && Str(a.diskSizeUnit) !in units)
    ensures r.Success? ==> r.value.body == Encode(CreateRequest(a))
  {
    if !a.diskSize.Null? && !a.diskSizeUnit.Null? && Str(a.diskSizeUnit) !in units then Failure("invalid input for disk_size_unit")
    else Create(a, units)
  }

  /** With the check, a configured positive size always reaches the `disk_size` query, in bytes. */
  lemma CreateCheckedSendsSize(a: Aggregate, units: UnitTable)
    requires ValidUnits(units) && CreateChecked(a, units).Success?
    requires !a.diskSize.Null? && !a.diskSizeUnit.Null? && Int(a.diskSize) > 0
    ensures var q := DiskSizeQuery(CreateChecked(a, units).value.diskSize);
      q.Some? && CreateChecked(a, units).value.diskSize == Int(a.diskSize) * units[Str(a.diskSizeUnit)]
  {
    MulMonotone(units[Str(a.diskSizeUnit)], Int(a.diskSize));
  }

  /** Create never sends a state. */
  lemma CreateSendsNoState(a: Aggregate, units: UnitTable)
    requires Create(a, units).Success?
    ensures "state" !in Create(a, units).value.body
  {
  }

  /** The primary block is sent exactly when some primary field is non-zero, and then holds exactly those fields. */
  lemma CreatePrimaryBlock(a: Aggregate, units: UnitTable)
    requires Create(a, units).Success?
    ensures var b := Create(a, units).value.body;
      var some := Str(a.diskClass) != "" || Int(a.diskCount) != 0 || Int(a.raidSize) != 0 || Str(a.raidType) != "";
      (some ==> "block_storage" in b && "primary" in b["block_storage"].fields)
      && (!some ==> "block_storage" !in b || "primary" !in b["block_storage"].fields)
  {
    var req := CreateRequest(a);
    assert req.blockStorage == BlockStorage(CreatePrimary(a), if a.isMirrored.Null? then None else Some(Bool(a.isMirrored)));
    EncodeBlocks(req);
  }

  /** The mirror block is sent exactly when `is_mirrored` is set. */
  lemma CreateMirrorBlock(a: Aggregate, units: UnitTable)
    requires Create(a, units).Success?
    ensures var b := Create(a, units).value.body;
      (!a.isMirrored.Null? ==> ("block_storage" in b && "mirror" in b["block_storage"].fields
                                && b["block_storage"].fields["mirror"] == JObj(map["enabled" := JBool(Bool(a.isMirrored))])))
      && (a.isMirrored.Null? ==> "block_storage" !in b || "mirror" !in b["block_storage"].fields)
  {
    var req := CreateRequest(a);
    assert req.blockStorage == BlockStorage(CreatePrimary(a), if a.isMirrored.Null? then None else Some(Bool(a.isMirrored)));
    EncodeBlocks(req);
  }

  // ---------------------------------------------------------------- waiting for the new aggregate

  /** The fields of a returned aggregate record the wait looks at. */
  datatype Record = Record(uuid: string, state: string)

  datatype Wait = Online(rec: Record) | PollFailed | OutOfPolls

  /**
   * The loop after create: while the record says `onlining`, fetch it again.
   * The fetches are the successive replies (`None` for a failed one); a finite
   * list of them stands for the unbounded loop.
   */
  function AwaitOnline(rec: Record, polls: seq<Option<Record>>): (r: Wait)
    ensures r.Online? ==> r.rec.state != "onlining"
    ensures rec.state != "onlining" ==> r == Online(rec)
    decreases |polls|
  {
    if rec.state != "onlining" then Online(rec)
    else if |polls| == 0 then OutOfPolls
    else if polls[0].None? then PollFailed
    else AwaitOnline(polls[0].value, polls[1..])
  }

  /** Record `k` of the trace is the first one not `onlining`, every earlier fetch having succeeded. */
  predicate FirstSettled(trace: seq<Option<Record>>, k: nat) {
    && k < |trace| && trace[k].Some? && trace[k].value.state != "onlining"
    && forall j :: 0 <= j < k ==> trace[j].Some? && trace[j].value.state == "onlining"
  }

  /** The wait ends online with the first settled record of the create reply followed by the fetches. */
  lemma {:induction false} AwaitOnlineFirstSettled(rec: Record, polls: seq<Option<Record>>, k: nat)
    requires FirstSettled([Some(rec)] + polls, k)
    ensures AwaitOnline(rec, polls) == Online(([Some(rec)] + polls)[k].value)
    decreases |polls|
  {
    var t := [Some(rec)] + polls;
    if k > 0 {
      assert t[0] == Some(rec);
      assert polls[0] == t[1];
      var t' := [Some(polls[0].value)] + polls[1..];
      forall j | 0 <= j < k ensures t'[j] == t[j + 1] {
      }
      assert t'[k - 1] == t[k];
      AwaitOnlineFirstSettled(polls[0].value, polls[1..], k - 1);
    }
  }

  /** A wait that ends online ended on the first settled record. */
  lemma {:induction false} AwaitOnlineSettles(rec: Record, polls: seq<Option<Record>>)
    requires AwaitOnline(rec, polls).Online?
    ensures exists k: nat :: FirstSettled([Some(rec)] + polls, k) && ([Some(rec)] + polls)[k].value == AwaitOnline(rec, polls).rec
    decreases |polls|
  {
    var t := [Some(rec)] + polls;
    if rec.state != "onlining" {
      assert FirstSettled(t, 0);
    } else {
      AwaitOnlineSettles(polls[0].value, polls[1..]);
      var t' := [Some(polls[0].value)] + polls[1..];
      var k: nat :| FirstSettled(t', k) && t'[k].value == AwaitOnline(polls[0].value, polls[1..]).rec;
      forall j | 0 <= j < |t'| ensures t'[j] == t[j + 1] {
      }
      assert t[0] == Some(rec);
      forall j | 0 <= j < k + 1 ensures t[j].Some? && t[j].value.state == "onlining" {
        if j > 0 { assert t[j] == t'[j - 1]; }
      }
      assert FirstSettled(t, k + 1);
    }
  }

  // ---------------------------------------------------------------- update

  /** The primary block of update: changed raid type, disk count and raid size. */
  function UpdatePrimary(p: Aggregate, s: Aggregate): Primary {
    Primary("", if p.diskCount != s.diskCount then Int(p.diskCount) else 0,
            if p.raidSize != s.raidSize then Int(p.raidSize) else 0,
            if p.raidType != s.raidType then Str(p.raidType) else "")
  }

  /**
   * The update request: name, state and encryption carry the plan's value
   * when they changed; node, snaplock type and the mirror flag are never sent;
   * the primary block only when raid type, disk count or raid size changed.
   */
  function UpdateRequest(p: Aggregate, s: Aggregate): (r: Request)
    ensures r.node.None? && r.snaplockType == "" && "mirror" !in r.blockStorage
    ensures p.name == s.name ==> r.name == ""
    ensures p.name != s.name ==> r.name == Str(p.name)
    ensures p.state == s.state ==> r.state == ""
    ensures p.state != s.state ==> r.state == Str(p.state)
    ensures (r.encryption.Some? <==> p.encryption != s.encryption) && (r.encryption.Some? ==> r.encryption.value == Bool(p.encryption))
    ensures p.diskCount == s.diskCount && p.raidSize == s.raidSize && p.raidType == s.raidType ==> "primary" !in r.blockStorage
  {
    Request(if p.name != s.name then Str(p.name) else "",
            if p.state != s.state then Str(p.state) else "",
            None,
            BlockStorage(UpdatePrimary(p, s), None),
            "",
            if p.encryption != s.encryption then Some(Bool(p.encryption)) else None)
  }

  /** Disk size or unit changed while the disk count did not. */
  predicate DiskSizeWithoutCount(p: Aggregate, s: Aggregate) {
    (p.diskSize != s.diskSize || p.diskSizeUnit != s.diskSizeUnit) && p.diskCount == s.diskCount
  }

  /** Update: refused when the disk size changes alone; otherwise the changed fields, and a disk size of 0. */
  function Update(p: Aggregate, s: Aggregate): (r: Result<Call, string>)
    ensures r.Failure? <==> DiskSizeWithoutCount(p, s)
    ensures r.Success? ==> r.value.diskSize == 0 && DiskSizeQuery(r.value.diskSize).None?
    ensures r.Success? ==> r.value.body == Encode(UpdateRequest(p, s))
  {
    if DiskSizeWithoutCount(p, s) then Failure("disk_size and disk_unit can only be specified in a PATCH operation when disk_count is being modified.")
    else Success(Call(Encode(UpdateRequest(p, s)), 0))
  }

  /** Only changed fields are sent: name, state and encryption when they differ, with the plan's value. */
  lemma UpdateOnlyChanged(p: Aggregate, s: Aggregate)
    requires Update(p, s).Success?
    ensures var b := Update(p, s).value.body;
      && ("name" in b ==> p.name != s.name && b["name"] == JStr(Str(p.name)))
      && ("state" in b ==> p.state != s.state && b["state"] == JStr(Str(p.state)))
      && ("data_encryption" in b <==> p.encryption != s.encryption)
      && "node" !in b && "snaplock_type" !in b
      && ("block_storage" in b ==> p.diskCount != s.diskCount || p.raidSize != s.raidSize || p.raidType != s.raidType)
  {
    var req := UpdateRequest(p, s);
    assert req.blockStorage == BlockStorage(UpdatePrimary(p, s), None);
  }

  /** A plan equal to the state sends an empty body. */
  lemma UpdateUnchanged(a: Aggregate)
    ensures Update(a, a) == Success(Call(map[], 0))
  {
    var req := UpdateRequest(a, a);
    assert UpdatePrimary(a, a) == NoPrimary;
    assert req.blockStorage == map[];
    assert req == Request("", "", None, map[], "", None);
  }
}
