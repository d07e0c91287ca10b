/**
 * Security certificates (`interfaces/security_certificate.go` and the
 * `security_certificate` resource): how a certificate is looked up, which
 * fields are requested on which cluster, and the sign / create / install
 * branches of create. Requests are stated as the Go request structs after
 * assignment; an attribute left unassigned holds its zero value.
 */
module SecurityCertificate {
  import opened Wrappers
  import opened Tf
  import opened GoStrings
  import opened ImportId
  import opened Versions
  import opened RestResponse
  import opened RestClient

  // ---------------------------------------------------------------- lookups

  /** Certificate names exist from ONTAP 9.8 on. */
  predicate NameField(v: Version) {
    v.generation == 9 && v.major >= 8
  }

  const BaseFields: seq<string> :=
    ["uuid", "common_name", "svm.name", "scope", "type", "serial_number", "ca", "hash_function", "key_size",
     "expiry_time", "public_certificate"]

  /** The fields requested on a lookup: `name` is appended on 9.8 and later. */
  function RequestedFields(v: Version): (r: seq<string>)
    ensures "name" in r <==> NameField(v)
    ensures |r| >= |BaseFields| && r[..|BaseFields|] == BaseFields
  {
    assert "name" !in BaseFields;
    if NameField(v) then BaseFields + ["name"] else BaseFields
  }

  /** `GetSecurityCertificate`'s query: by name when one is given, else by common name and type. */
  function LookupQuery(v: Version, name: string, commonName: string, certType: string): (q: Query)
    ensures name != "" ==> "name" in q && q["name"] == name && "common_name" !in q && "type" !in q
    ensures name == "" ==> "name" !in q && "common_name" in q && "type" in q
    ensures name == "" ==> q["common_name"] == commonName && q["type"] == certType
    ensures "fields" in q && q["fields"] == Join(RequestedFields(v), ',')
  {
    var q: Query := if name != "" then map["name" := name] else map["common_name" := commonName, "type" := certType];
    RestClient.Fields(q, RequestedFields(v))
  }

  /** The query holds the filters of its case and the field list, nothing else. */
  lemma LookupQueryKeys(v: Version, name: string, commonName: string, certType: string)
    ensures LookupQuery(v, name, commonName, certType).Keys ==
      (if name != "" then {"name", "fields"} else {"common_name", "type", "fields"})
  {
    var fields := Join(RequestedFields(v), ',');
    if name != "" {
      assert LookupQuery(v, name, commonName, certType) == map["name" := name, "fields" := fields];
    } else {
      assert LookupQuery(v, name, commonName, certType) == map["common_name" := commonName, "type" := certType, "fields" := fields];
    }
  }

  /** The server recovers the requested field names by splitting the list at the commas. */
  lemma LookupQueryFields(v: Version, name: string, commonName: string, certType: string)
    ensures Split(LookupQuery(v, name, commonName, certType)["fields"], ',') == RequestedFields(v)
  {
    var f := RequestedFields(v);
    BaseFieldsSepFree();
    assert SepFree(f, ',') by {
      forall i | 0 <= i < |f| ensures ',' !in f[i] {
        if i >= |BaseFields| { assert f[i] == "name"; } else { assert f[i] == BaseFields[i]; }
      }
    }
    SplitJoin(f, ',');
  }

  lemma BaseFieldsSepFree()
    ensures SepFree(BaseFields, ',')
  {
    forall i | 0 <= i < |BaseFields| ensures ',' !in BaseFields[i] {
    }
  }

  const DuplicateMessage := "Duplicate records found with the same common_name."

  /** Why a lookup failed. */
  datatype LookupError =
    | Duplicate
    | CallFailed(failure: Failure)
    | NoResponse
    | NameUnsupported

  function Message(e: LookupError): string {
    match e
    case Duplicate => DuplicateMessage
    case NameUnsupported => "Attribute 'name' requires ONTAP 9.8 or later."
    case _ => "error reading security_certificate info"
  }

  /**
   * The reply handling of `GetSecurityCertificate`: several matches are
   * reported as duplicates of one common name, no record is an error.
   */
  function Lookup(o: Outcome): (r: Result<Body, LookupError>)
    ensures r.Success? <==> o.err.None? && o.response.numRecords == 1 && |o.response.records| > 0
    ensures r.Success? ==> r.value == o.response.records[0]
    ensures o.err.None? && o.response.numRecords > 1 ==> r == Failure(Duplicate)
    ensures o.err.None? && o.response.numRecords < 1 ==> r == Failure(NoResponse)
    ensures o.err.Some? ==> r == Failure(CallFailed(o.err.value))
  {
    var f := GetNilOrOneRecord(o);
    if f.err.Some? then
      (if f.err.value.TooManyRecords? && o.err.None? then Failure(Duplicate) else Failure(CallFailed(f.err.value)))
    else if f.record.None? then Failure(NoResponse)
    else Success(f.record.value)
  }

  /** `GetSecurityCertificateByName`: refused on any cluster that is not 9.8 or later, generation 10 included. */
  function ByNameQuery(v: Version, name: string): (r: Result<Query, LookupError>)
    ensures r.Failure? <==> !NameField(v)
    ensures r.Failure? ==> r.error == NameUnsupported
    ensures r.Success? ==> "name" in r.value && r.value["name"] == name
    ensures r.Success? ==> "fields" in r.value && r.value["fields"] == Join(ByNameFields, ',')
  {
    if NameField(v) then Success(RestClient.Fields(map["name" := name], ByNameFields)) else Failure(NameUnsupported)
  }

  const ByNameFields: seq<string> :=
    ["uuid", "name", "common_name", "svm.name", "scope", "type", "serial_number", "ca", "hash_function", "key_size",
     "expiry_time", "public_certificate"]

  /** A lookup by name always asks for the name, and for every field of a lookup on 9.8 or later. */
  lemma ByNameFieldsCover(v: Version)
    requires NameField(v)
    ensures forall f :: f in RequestedFields(v) ==> f in ByNameFields
    ensures "name" in ByNameFields
  {
  }

  lemma ByNameRefusedOnTen(name: string)
    ensures ByNameQuery(Version(10, 0), name) == Failure(NameUnsupported)
    ensures Message(NameUnsupported) != Message(Duplicate)
  {
  }

  // ---------------------------------------------------------------- resource

  datatype Certificate = Certificate(
    id: Value<string>,
    name: Value<string>,
    commonName: Value<string>,
    certType: Value<string>,
    svmName: Value<string>,
    scope: Value<string>,
    publicCertificate: Value<string>,
    privateKey: Value<string>,
    signingRequest: Value<string>,
    signedCertificate: Value<string>,
    serialNumber: Value<string>,
    ca: Value<string>,
    hashFunction: Value<string>,
    keySize: Value<int>,
    expiryTime: Value<string>)

  /** A certificate as the server returns it. */
  datatype CertRecord = CertRecord(
    name: string, uuid: string, commonName: string, svmName: string, scope: string, certType: string,
    serialNumber: string, ca: string, hashFunction: string, keySize: int, expiryTime: string, publicCertificate: string)

  /** A name given in the plan: non-null and non-empty. */
  predicate HasName(d: Certificate) {
    !d.name.Null? && Str(d.name) != ""
  }

  /** A name is refused on 9.7 and earlier; other generations are not refused. */
  predicate NameRefused(d: Certificate, v: Version) {
    HasName(d) && v.generation == 9 && v.major < 8
  }

  /** The create/install request struct. */
  datatype CreateBody = CreateBody(
    name: string, commonName: string, certType: string, svmName: string, publicCertificate: string,
    privateKey: string, hashFunction: string, keySize: int, expiryTime: string)

  /** The sign request struct. */
  datatype SignBody = SignBody(signingRequest: string, hashFunction: string, expiryTime: string)

  function IfKnown<T>(v: Value<T>, zero: T): (r: T)
    ensures v.Unknown? ==> r == zero
    ensures v.Known? ==> r == v.value
  {
    if v.Unknown? then zero else ValueOr(v, zero)
  }

  /** The create/install body: the name when set and supported, the rest when not unknown. */
  function BuildCreateBody(d: Certificate, v: Version): (r: CreateBody)
    requires !NameRefused(d, v)
    ensures HasName(d) ==> r.name == Str(d.name)
    ensures !HasName(d) ==> r.name == ""
    ensures r.commonName == Str(d.commonName) && r.certType == Str(d.certType)
    ensures d.publicCertificate.Unknown? ==> r.publicCertificate == ""
    ensures d.keySize.Known? ==> r.keySize == d.keySize.value
  {
    CreateBody(if HasName(d) then Str(d.name) else "", Str(d.commonName), Str(d.certType), IfKnown(d.svmName, ""),
               IfKnown(d.publicCertificate, ""), IfKnown(d.privateKey, ""), IfKnown(d.hashFunction, ""),
               IfKnown(d.keySize, 0), IfKnown(d.expiryTime, ""))
  }

  /** The operation named in messages: installing when a certificate or a key is supplied. */
  function Operation(d: Certificate): (r: string)
    ensures r == "installing" <==> !d.publicCertificate.Unknown? || !d.privateKey.Null?
    ensures r == "creating" || r == "installing"
  {
    if !d.publicCertificate.Unknown? || !d.privateKey.Null? then "installing" else "creating"
  }

  /** The calls create makes, in order. */
  datatype Plan =
    | Refused
    | Sign(lookup: Query, signBody: SignBody)
    | CreateOrInstall(createBody: CreateBody, operation: string)

  /**
   * `Create`, up to its first call: a name on 9.7 or earlier is refused; a
   * signing request looks the certificate up and signs it; otherwise the
   * certificate is created or installed. `found` is the lookup's record on
   * the sign branch: the plan's hash function has been overwritten by it
   * before the sign body is assembled.
   */
  function Create(d: Certificate, v: Version, found: CertRecord): (r: Plan)
    ensures r.Refused? <==> NameRefused(d, v)
    ensures r.Sign? <==> !NameRefused(d, v) && !d.signingRequest.Null?
    ensures r.Sign? ==> r.lookup == LookupQuery(v, Str(d.name), Str(d.commonName), Str(d.certType))
    ensures r.Sign? ==> r.signBody.signingRequest == Str(d.signingRequest) && r.signBody.hashFunction == found.hashFunction
    ensures r.Sign? && d.expiryTime.Known? ==> r.signBody.expiryTime == d.expiryTime.value
    ensures r.Sign? && d.expiryTime.Unknown? ==> r.signBody.expiryTime == ""
    ensures r.CreateOrInstall? ==> r.createBody == BuildCreateBody(d, v) && r.operation == Operation(d)
  {
    if NameRefused(d, v) then Refused
    else if !d.signingRequest.Null? then
      Sign(LookupQuery(v, Str(d.name), Str(d.commonName), Str(d.certType)),
           SignBody(Str(d.signingRequest), found.hashFunction, IfKnown(d.expiryTime, "")))
    else CreateOrInstall(BuildCreateBody(d, v), Operation(d))
  }

  /** A name that is given is sent on every cluster that does not refuse it. */
  lemma CreateSendsName(d: Certificate, v: Version, found: CertRecord)
    requires HasName(d) && d.signingRequest.Null? && !(v.generation == 9 && v.major < 8)
    ensures Create(d, v, found).CreateOrInstall? && Create(d, v, found).createBody.name == Str(d.name)
  {
  }

  /** The state after creating or installing: the record read back, an unknown expiry filled, no signed certificate. */
  function AfterCreate(d: Certificate, uuid: string, rec: CertRecord): (r: Certificate)
    ensures r.id == Known(uuid) && r.signedCertificate == Known("NA")
    ensures r.name == Known(rec.name) && r.svmName == Known(rec.svmName)
    ensures d.expiryTime.Unknown? ==> r.expiryTime == Known(rec.expiryTime)
    ensures !d.expiryTime.Unknown? ==> r.expiryTime == d.expiryTime
    ensures r.privateKey == d.privateKey && r.signingRequest == d.signingRequest
  {
    d.(id := Known(uuid), name := Known(rec.name), commonName := Known(rec.commonName), certType := Known(rec.certType),
       svmName := Known(rec.svmName), scope := Known(rec.scope), publicCertificate := Known(rec.publicCertificate),
       serialNumber := Known(rec.serialNumber), ca := Known(rec.ca), hashFunction := Known(rec.hashFunction),
       keySize := Known(rec.keySize),
       expiryTime := if d.expiryTime.Unknown? then Known(rec.expiryTime) else d.expiryTime,
       signedCertificate := Known("NA"))
  }

  /** `Read`: by UUID when an ID is stored, else by name or common name and type. */
  datatype ReadBy = ByUuid(path: string) | ByQuery(query: Query)

  function ReadLookup(d: Certificate, v: Version): (r: ReadBy)
    ensures Str(d.id) != "" <==> r.ByUuid?
    ensures r.ByUuid? ==> r.path == "security/certificates/" + Str(d.id)
    ensures r.ByQuery? ==> r.query == LookupQuery(v, Str(d.name), Str(d.commonName), Str(d.certType))
  {
    if Str(d.id) != "" then ByUuid("security/certificates/" + Str(d.id))
    else ByQuery(LookupQuery(v, Str(d.name), Str(d.commonName), Str(d.certType)))
  }

  /** The refresh: every field from the record, except a set expiry and a known SVM name. */
  function Read(d: Certificate, rec: CertRecord): (r: Certificate)
    ensures r.id == Known(rec.uuid) && r.name == Known(rec.name) && r.keySize == Known(rec.keySize)
    ensures d.expiryTime.Null? ==> r.expiryTime == Known(rec.expiryTime)
    ensures !d.expiryTime.Null? ==> r.expiryTime == d.expiryTime
    ensures d.svmName.Unknown? ==> r.svmName == Known(rec.svmName)
    ensures !d.svmName.Unknown? ==> r.svmName == d.svmName
    ensures r.signedCertificate == d.signedCertificate && r.privateKey == d.privateKey
  {
    d.(id := Known(rec.uuid), name := Known(rec.name), commonName := Known(rec.commonName), scope := Known(rec.scope),
       certType := Known(rec.certType), serialNumber := Known(rec.serialNumber), ca := Known(rec.ca),
       hashFunction := Known(rec.hashFunction), keySize := Known(rec.keySize),
       publicCertificate := Known(rec.publicCertificate),
       expiryTime := if d.expiryTime.Null? then Known(rec.expiryTime) else d.expiryTime,
       svmName := if d.svmName.Unknown? then Known(rec.svmName) else d.svmName)
  }

  /** After a create, reading the same record back finds it by UUID and keeps the state. */
  lemma ReadAfterCreate(d: Certificate, v: Version, rec: CertRecord)
    requires rec.uuid != "" && !d.expiryTime.Null?
    ensures var s := AfterCreate(d, rec.uuid, rec);
      ReadLookup(s, v) == ByUuid("security/certificates/" + rec.uuid) && Read(s, rec) == s
  {
  }

  /** Deleting the state create saved removes the certificate created. */
  lemma DeleteAfterCreate(d: Certificate, uuid: string, rec: CertRecord)
    ensures Delete(AfterCreate(d, uuid, rec)) == Success(uuid)
  {
  }

  /** `Update` never changes a certificate. */
  function Update(plan: Certificate): (r: Result<Certificate, string>)
    ensures r.Failure? && r.error == "Update Not Supported"
  {
    Failure("Update Not Supported")
  }

  /** `Delete`: an unknown ID is an error; otherwise the UUID is deleted. */
  function Delete(d: Certificate): (r: Result<string, string>)
    ensures r.Failure? <==> d.id.Unknown?
    ensures r.Success? ==> r.value == Str(d.id)
  {
    if d.id.Unknown? then Failure("UUID is null") else Success(Str(d.id))
  }

  // ---------------------------------------------------------------- import

  /** The attributes `ImportState` sets; the name is absent in the three-part form. */
  datatype ImportKey = ImportKey(name: Option<string>, commonName: string, certType: string, cxProfileName: string)

  function KeyParts(k: ImportKey): seq<string> {
    (if k.name.Some? then [k.name.value] else []) + [k.commonName, k.certType, k.cxProfileName]
  }

  /** `ImportState`: `name,common_name,type,cx_profile_name` or `common_name,type,cx_profile_name`; empty parts are accepted. */
  function Import(id: string): (r: Option<ImportKey>)
    ensures r.Some? <==> |Parts(id)| == 4 || |Parts(id)| == 3
    ensures r.Some? ==> KeyParts(r.value) == Parts(id)
    ensures r.Some? ==> (r.value.name.Some? <==> |Parts(id)| == 4)
  {
    var p := Parts(id);
    if |p| == 4 then Some(ImportKey(Some(p[0]), p[1], p[2], p[3]))
    else if |p| == 3 then Some(ImportKey(None, p[0], p[1], p[2]))
    else None
  }

  lemma ImportRoundTrip(k: ImportKey)
    requires SepFree(KeyParts(k), ',')
    ensures Import(Compose(KeyParts(k))) == Some(k)
  {
    SplitJoin(KeyParts(k), ',');
  }
}
