/**
 * LUN maps (`protocols_san_lun-maps` resource): a map of one LUN to one
 * initiator group, identified by the two UUIDs joined with a comma.
 */
module LunMaps {
  import opened Wrappers
  import opened Tf
  import opened GoStrings
  import opened ImportId

  datatype LunMap = LunMap(
    id: Value<string>, svmName: Value<string>, igroupName: Value<string>, lunName: Value<string>,
    logicalUnitNumber: Value<int>, cxProfileName: Value<string>)

  /** The resource ID: igroup UUID, a comma, LUN UUID. */
  function Id(igroupUuid: string, lunUuid: string): (r: string)
    ensures |r| == |igroupUuid| + 1 + |lunUuid| && r[|igroupUuid|] == ','
    ensures r[..|igroupUuid|] == igroupUuid && r[|igroupUuid| + 1..] == lunUuid
  {
    igroupUuid + "," + lunUuid
  }

  /** The create request struct. */
  datatype Request = Request(svmName: string, igroupName: string, lunName: string, logicalUnitNumber: int)

  /** `Create`'s request: the three names, and the LUN number when it is known. */
  function CreateRequest(d: LunMap): (r: Request)
    ensures r.svmName == Str(d.svmName) && r.igroupName == Str(d.igroupName) && r.lunName == Str(d.lunName)
    ensures d.logicalUnitNumber.Unknown? ==> r.logicalUnitNumber == 0
    ensures d.logicalUnitNumber.Known? ==> r.logicalUnitNumber == d.logicalUnitNumber.value
  {
    Request(Str(d.svmName), Str(d.igroupName), Str(d.lunName),
            if d.logicalUnitNumber.Unknown? then 0 else Int(d.logicalUnitNumber))
  }

  /** A name block: `name` is omitted when empty. */
  function NameBlock(name: string): (r: Json)
    ensures r.JObj? && ("name" in r.fields <==> name != "")
    ensures "name" in r.fields ==> r.fields["name"] == JStr(name)
  {
    JObj(if name != "" then map["name" := JStr(name)] else map[])
  }

  /** The encoded body: `logical_unit_number` is omitted when zero, so the server picks the number. */
  function Encode(r: Request): (b: Body)
    ensures "svm" in b && "igroup" in b && "lun" in b
    ensures b["igroup"] == NameBlock(r.igroupName) && b["lun"] == NameBlock(r.lunName)
    ensures "logical_unit_number" in b <==> r.logicalUnitNumber != 0
    ensures "logical_unit_number" in b ==> b["logical_unit_number"] == JInt(r.logicalUnitNumber)
  {
    var b: Body := map["svm" := JObj(map["name" := JStr(r.svmName)]), "igroup" := NameBlock(r.igroupName),
                       "lun" := NameBlock(r.lunName)];
    if r.logicalUnitNumber != 0 then b["logical_unit_number" := JInt(r.logicalUnitNumber)] else b
  }

  /** A known, non-zero LUN number reaches the server; an unknown one never does. */
  lemma CreateSendsKnownNumber(d: LunMap)
    ensures d.logicalUnitNumber.Unknown? ==> "logical_unit_number" !in Encode(CreateRequest(d))
    ensures d.logicalUnitNumber.Known? && d.logicalUnitNumber.value != 0 ==>
      Encode(CreateRequest(d))["logical_unit_number"] == JInt(d.logicalUnitNumber.value)
  {
  }

  /** The map as the server returns it. */
  datatype MapRecord = MapRecord(igroupUuid: string, lunUuid: string, logicalUnitNumber: int)

  /** State after create or read: the composed ID and the server's LUN number. */
  function Stored(d: LunMap, rec: MapRecord): (r: LunMap)
    ensures r.id == Known(Id(rec.igroupUuid, rec.lunUuid))
    ensures r.logicalUnitNumber == Known(rec.logicalUnitNumber)
    ensures r.svmName == d.svmName && r.igroupName == d.igroupName && r.lunName == d.lunName
  {
    d.(id := Known(Id(rec.igroupUuid, rec.lunUuid)), logicalUnitNumber := Known(rec.logicalUnitNumber))
  }

  /** `Update` makes no call: the plan becomes the state. */
  function Update(plan: LunMap, state: LunMap): (r: LunMap)
    ensures r == plan
  {
    plan
  }

  /** An update keeps the stored ID, so a later delete still removes the map create or read stored. */
  lemma UpdateKeepsDeleteTarget(plan: LunMap, state: LunMap, rec: MapRecord)
    requires ',' !in rec.igroupUuid && ',' !in rec.lunUuid
    requires plan.id == Stored(state, rec).id
    ensures DeleteTarget(Update(plan, Stored(state, rec)).id) == Success((rec.igroupUuid, rec.lunUuid))
  {
    IdRoundTrip(rec.igroupUuid, rec.lunUuid);
  }

  /** Why a delete does not reach the server. */
  datatype DeleteError = NullId | MissingPart

  /**
   * `Delete`: the ID is split at commas and the first two parts are the
   * igroup and LUN UUIDs; an ID without a comma indexes past the parts.
   */
  function DeleteTarget(id: Value<string>): (r: Result<(string, string), DeleteError>)
    ensures r == Failure(NullId) <==> id.Null?
    ensures !id.Null? ==> (r == Failure(MissingPart) <==> ',' !in Str(id))
    ensures r.Success? ==> r.value == (Split(Str(id), ',')[0], Split(Str(id), ',')[1])
  {
    if id.Null? then Failure(NullId)
    else
      var parts := Split(Str(id), ',');
      SplitLength(Str(id), ',');
      CountZero(Str(id), ',');
      if |parts| < 2 then Failure(MissingPart) else Success((parts[0], parts[1]))
  }

  lemma {:induction false} CountZero(s: string, c: char)
    ensures Count(s, c) == 0 <==> c !in s
  {
    if c !in s {
      CountAbsent(s, c);
    } else {
      var i := IndexOf(s, c);
      assert s == s[..i] + s[i..];
      CountAppend(s[..i], s[i..], c);
      assert s[i..] == [c] + s[i + 1..];
      CountAppend([c], s[i + 1..], c);
    }
  }

  /** `DELETE /protocols/san/lun-maps/<lun>/<igroup>`. */
  function DeletePath(igroupUuid: string, lunUuid: string): (p: string)
    ensures p == "/protocols/san/lun-maps/" + lunUuid + "/" + igroupUuid
  {
    "/protocols/san/lun-maps/" + lunUuid + "/" + igroupUuid
  }

  /** The UUIDs a stored ID was built from are recovered on delete, when neither contains a comma. */
  lemma IdRoundTrip(igroupUuid: string, lunUuid: string)
    requires ',' !in igroupUuid && ',' !in lunUuid
    ensures DeleteTarget(Known(Id(igroupUuid, lunUuid))) == Success((igroupUuid, lunUuid))
  {
    SplitAt(igroupUuid, lunUuid, ',');
    assert Id(igroupUuid, lunUuid) == igroupUuid + [','] + lunUuid;
    SplitJoin([lunUuid], ',');
    assert Join([lunUuid], ',') == lunUuid;
  }

  /**
   * A comma inside the igroup UUID makes delete address the wrong objects:
   * the text after the comma is taken for the LUN UUID.
   */
  lemma CommaInUuidMisroutes(a: string, b: string, lunUuid: string)
    requires ',' !in a && ',' !in b
    ensures DeleteTarget(Known(Id(a + [','] + b, lunUuid))) == Success((a, b))
  {
    var rest := b + [','] + lunUuid;
    var id := Id(a + [','] + b, lunUuid);
    assert id == a + [','] + rest;
    SplitAt(a, rest, ',');
    SplitAt(b, lunUuid, ',');
    var parts := Split(id, ',');
    assert parts == [a] + Split(rest, ',') && Split(rest, ',') == [b] + Split(lunUuid, ',');
    assert |parts| >= 2 && parts[0] == a && parts[1] == b;
  }

  // ---------------------------------------------------------------- import

  datatype ImportKey = ImportKey(svmName: string, igroupName: string, lunName: string, cxProfileName: string)

  function KeyParts(k: ImportKey): seq<string> {
    [k.svmName, k.igroupName, k.lunName, k.cxProfileName]
  }

  /** `ImportState`: `svm_name,igroup_name,lun_name,cx_profile_name`, each part non-empty. */
  function Import(id: string): (r: Option<ImportKey>)
    ensures r.Some? <==> Parse(id, 4).Some?
    ensures r.Some? ==> KeyParts(r.value) == Parts(id)
  {
    var p := Parse(id, 4);
    if p.Some? then Some(ImportKey(p.value[0], p.value[1], p.value[2], p.value[3])) else None
  }

  lemma ImportRoundTrip(k: ImportKey)
    requires AllNonEmpty(KeyParts(k)) && SepFree(KeyParts(k), ',')
    ensures Import(Compose(KeyParts(k))) == Some(k)
  {
    ParseCompose(KeyParts(k));
  }
}
