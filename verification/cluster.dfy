/**
 * The cluster itself (`cluster` resource): creating a cluster from its
 * nodes, updating its identity and name services, and refreshing the state
 * from the `cluster` record. A cluster cannot be deleted.
 */
module ClusterResource {
  import opened Wrappers
  import opened Tf
  import opened GoStrings
  import opened ImportId

  datatype ManagementInterface = ManagementInterface(address: Value<string>, gateway: Value<string>, netmask: Value<string>)

  /** One entry of `management_interfaces`, as read. */
  datatype InterfaceRecord = InterfaceRecord(name: string, id: string, address: string)

  /**
   * The resource's attributes. Objects with one attribute are written
   * `Value<Value<T>>`: the object, then its attribute.
   */
  datatype Cluster = Cluster(
    cxProfileName: Value<string>,
    name: Value<string>,
    versionFull: Value<Value<string>>,
    contact: Value<string>,
    location: Value<string>,
    licenseKeys: Value<Value<seq<string>>>,
    password: Value<string>,
    dnsDomains: Value<seq<string>>,
    nameServers: Value<seq<string>>,
    timezone: Value<Value<string>>,
    certificateId: Value<Value<string>>,
    ntpServers: Value<seq<string>>,
    managementInterface: Value<ManagementInterface>,
    managementInterfaces: Value<seq<InterfaceRecord>>,
    id: Value<string>)

  /** `interfaces.ClusterResourceBodyDataModelONTAP` after assignment. */
  datatype Request = Request(
    name: string, password: string, contact: string, location: string, licenseKeys: seq<string>,
    dnsDomains: seq<string>, nameServers: seq<string>, timezone: string, certificateId: string,
    ntpServers: seq<string>, address: string, gateway: string, netmask: string)

  const EmptyRequest := Request("", "", "", "", [], [], [], "", "", [], "", "", "")

  datatype CreateError =
    | PasswordRequired   // an unknown password, reported before any call
    | NotConvertible     // `As` or `ElementsAs` of a null object or an unknown list

  /** `ElementsAs` of a set into a slice: unknown is skipped by the callers, null gives a nil slice. */
  function Elements(v: Value<seq<string>>): (r: seq<string>)
    ensures v.Known? ==> r == v.value
    ensures !v.Known? ==> r == []
  {
    if v.Known? then v.value else []
  }

  /** The attribute of a one-attribute object that is not unknown: a null object cannot be converted. */
  function Inner<T>(v: Value<Value<T>>, zero: T): (r: Result<T, CreateError>)
    ensures r.Failure? <==> v.Null?
    ensures v.Known? ==> r == Success(ValueOr(v.value, zero))
    ensures v.Unknown? ==> r == Success(zero)
  {
    match v
    case Null => Failure(NotConvertible)
    case Unknown => Success(zero)
    case Known(x) => Success(ValueOr(x, zero))
  }

  /** The license keys: a known object whose key set is unknown cannot be converted either. */
  function LicenseKeys(v: Value<Value<seq<string>>>): (r: Result<seq<string>, CreateError>)
    ensures r.Failure? <==> v.Null? || v == Known(Unknown)
    ensures v.Known? && v.value.Known? ==> r == Success(v.value.value)
  {
    match v
    case Null => Failure(NotConvertible)
    case Unknown => Success([])
    case Known(Unknown) => Failure(NotConvertible)
    case Known(keys) => Success(ValueOr(keys, []))
  }

  // ------------------------------------------------------------------ create

  /**
   * `Create`'s body. An unknown password is refused first; the other
   * attributes are copied unless unknown.
   */
  function CreateRequest(d: Cluster): (r: Result<Request, CreateError>)
    ensures r == Failure(PasswordRequired) <==> d.password.Unknown?
    ensures r.Success? ==> r.value.name == Str(d.name) && r.value.password == Str(d.password)
    ensures r.Success? ==> (d.contact.Known? ==> r.value.contact == d.contact.value) && (d.contact.Unknown? ==> r.value.contact == "")
    ensures r.Success? ==> (d.location.Known? ==> r.value.location == d.location.value) && (d.location.Unknown? ==> r.value.location == "")
    ensures r.Success? ==> r.value.dnsDomains == Elements(d.dnsDomains) && r.value.ntpServers == Elements(d.ntpServers)
    ensures !d.password.Unknown? && (d.timezone.Null? || d.certificateId.Null?) ==> r.Failure?
  {
    if d.password.Unknown? then Failure(PasswordRequired)
    else
      var keys :- LicenseKeys(d.licenseKeys);
      var timezone :- Inner(d.timezone, "");
      var certificate :- Inner(d.certificateId, "");
      var mgmt :- match d.managementInterface
        case Null => Failure(NotConvertible)
        case Unknown => Success(ManagementInterface(Null, Null, Null))
        case Known(m) => Success(m);
      Success(Request(Str(d.name), Str(d.password), Str(d.contact), Str(d.location), keys,
                      Elements(d.dnsDomains), Elements(d.nameServers), timezone, certificate,
                      Elements(d.ntpServers), Str(mgmt.address), Str(mgmt.gateway), Str(mgmt.netmask)))
  }

  // ------------------------------------------------------------------ update

  /**
   * `Update`'s body: contact, location, the name services, the timezone and
   * the certificate, each unless unknown. Name, password, licenses and the
   * management interface are never updated.
   */
  function UpdateRequest(plan: Cluster): (r: Result<Request, CreateError>)
    ensures r.Failure? <==> plan.timezone.Null? || plan.certificateId.Null?
    ensures r.Success? ==> r.value.name == "" && r.value.password == "" && r.value.licenseKeys == []
    ensures r.Success? ==> r.value.address == "" && r.value.gateway == "" && r.value.netmask == ""
    ensures r.Success? ==> r.value.contact == Str(plan.contact) && r.value.location == Str(plan.location)
    ensures r.Success? ==> r.value.dnsDomains == Elements(plan.dnsDomains) && r.value.nameServers == Elements(plan.nameServers)
    ensures r.Success? && plan.timezone.Known? ==> r.value.timezone == Str(plan.timezone.value)
  {
    var timezone :- Inner(plan.timezone, "");
    var certificate :- Inner(plan.certificateId, "");
    Success(EmptyRequest.(contact := Str(plan.contact), location := Str(plan.location),
                          dnsDomains := Elements(plan.dnsDomains), nameServers := Elements(plan.nameServers),
                          timezone := timezone, certificateId := certificate, ntpServers := Elements(plan.ntpServers)))
  }

  // ----------------------------------------------------------------- refresh

  /** The `cluster` record. */
  datatype ClusterRecord = ClusterRecord(
    id: string, name: string, contact: string, location: string, versionFull: string, timezone: string,
    dnsDomains: seq<string>, nameServers: seq<string>, certificateId: string, ntpServers: seq<string>,
    interfaces: seq<InterfaceRecord>)

  /** State refreshed from the record, with `version.full` taken from the record's version. */
  function Refresh(d: Cluster, rec: ClusterRecord): (r: Cluster)
    ensures r.versionFull == Known(Known(rec.versionFull))
    ensures r.name == Known(rec.name) && r.contact == Known(rec.contact) && r.location == Known(rec.location)
    ensures r.timezone == Known(Known(rec.timezone)) && r.certificateId == Known(Known(rec.certificateId))
    ensures r.dnsDomains == Known(rec.dnsDomains) && r.nameServers == Known(rec.nameServers) && r.ntpServers == Known(rec.ntpServers)
    ensures r.managementInterfaces == Known(rec.interfaces)
    ensures r.id == d.id && r.password == d.password && r.licenseKeys == d.licenseKeys && r.managementInterface == d.managementInterface
  {
    d.(name := Known(rec.name), contact := Known(rec.contact), location := Known(rec.location),
       versionFull := Known(Known(rec.versionFull)), dnsDomains := Known(rec.dnsDomains), nameServers := Known(rec.nameServers),
       timezone := Known(Known(rec.timezone)), certificateId := Known(Known(rec.certificateId)),
       ntpServers := Known(rec.ntpServers), managementInterfaces := Known(rec.interfaces))
  }

  /** As written: `Read`, `Create` and `Update` fill `version.full` with the timezone's name. */
  function RefreshAsWritten(d: Cluster, rec: ClusterRecord): (r: Cluster)
    ensures r.versionFull == Known(Known(rec.timezone))
    ensures r.(versionFull := Known(Known(rec.versionFull))) == Refresh(d, rec)
  {
    Refresh(d, rec).(versionFull := Known(Known(rec.timezone)))
  }

  /** A 9.14.1 cluster in UTC is stored with version "Etc/UTC". */
  lemma VersionShowsTimezone(d: Cluster)
    ensures var rec := ClusterRecord("c1", "cl1", "", "", "NetApp Release 9.14.1", "Etc/UTC", [], [], "", [], []);
            RefreshAsWritten(d, rec).versionFull == Known(Known("Etc/UTC")) &&
            Refresh(d, rec).versionFull == Known(Known("NetApp Release 9.14.1"))
  {
  }

  /** The corrected refresh stores the version the record reports, whatever the timezone. */
  lemma RefreshKeepsVersion(d: Cluster, rec: ClusterRecord, timezone: string)
    ensures Refresh(d, rec.(timezone := timezone)).versionFull == Refresh(d, rec).versionFull
  {
  }

  /**
   * `Read` and the state after `Create`, as written: no record is an error;
   * otherwise the record's values and its UUID, with `version.full` holding
   * the timezone's name.
   */
  function Read(d: Cluster, rec: Option<ClusterRecord>): (r: Result<Cluster, string>)
    ensures r.Failure? <==> rec.None?
    ensures r.Success? ==> r.value == RefreshAsWritten(d, rec.value).(id := Known(rec.value.id))
    ensures r.Success? ==> r.value.versionFull == Known(Known(rec.value.timezone))
  {
    if rec.None? then Failure("Cluster Not found") else Success(RefreshAsWritten(d, rec.value).(id := Known(rec.value.id)))
  }

  /** The corrected read: as `Read`, with the record's version in `version.full`. */
  function ReadCorrected(d: Cluster, rec: Option<ClusterRecord>): (r: Result<Cluster, string>)
    ensures r.Failure? <==> rec.None?
    ensures r.Success? ==> r.value == Refresh(d, rec.value).(id := Known(rec.value.id))
    ensures r.Success? ==> r.value.versionFull == Known(Known(rec.value.versionFull))
  {
    if rec.None? then Failure("Cluster Not found") else Success(Refresh(d, rec.value).(id := Known(rec.value.id)))
  }

  /** The state after `Update`, as written: the plan refreshed from the record; the ID is not re-read. */
  function AfterUpdate(plan: Cluster, rec: Option<ClusterRecord>): (r: Result<Cluster, string>)
    ensures r.Failure? <==> rec.None?
    ensures r.Success? ==> r.value.id == plan.id && r.value == RefreshAsWritten(plan, rec.value)
  {
    if rec.None? then Failure("Cluster Not found") else Success(RefreshAsWritten(plan, rec.value))
  }

  /** The corrected state after `Update`. */
  function AfterUpdateCorrected(plan: Cluster, rec: Option<ClusterRecord>): (r: Result<Cluster, string>)
    ensures r.Failure? <==> rec.None?
    ensures r.Success? ==> r.value.id == plan.id && r.value == Refresh(plan, rec.value)
  {
    if rec.None? then Failure("Cluster Not found") else Success(Refresh(plan, rec.value))
  }

  /** Reading the same record again changes nothing, as written and corrected. */
  lemma ReadIdempotent(d: Cluster, rec: ClusterRecord)
    ensures Read(Read(d, Some(rec)).value, Some(rec)) == Read(d, Some(rec))
    ensures ReadCorrected(ReadCorrected(d, Some(rec)).value, Some(rec)) == ReadCorrected(d, Some(rec))
  {
  }

  /** A read after an update of the same record agrees with it on every field but the ID, which only the read sets. */
  lemma ReadAfterUpdate(plan: Cluster, rec: ClusterRecord)
    ensures Read(AfterUpdate(plan, Some(rec)).value, Some(rec)).value == AfterUpdate(plan, Some(rec)).value.(id := Known(rec.id))
    ensures ReadCorrected(AfterUpdateCorrected(plan, Some(rec)).value, Some(rec)).value ==
            AfterUpdateCorrected(plan, Some(rec)).value.(id := Known(rec.id))
  {
  }

  /** Updating with what was read writes back the record's own values. */
  lemma ReadThenUpdateWritesBack(d: Cluster, rec: ClusterRecord)
    ensures UpdateRequest(Read(d, Some(rec)).value) ==
            Success(EmptyRequest.(contact := rec.contact, location := rec.location, dnsDomains := rec.dnsDomains,
                                  nameServers := rec.nameServers, timezone := rec.timezone,
                                  certificateId := rec.certificateId, ntpServers := rec.ntpServers))
  {
  }

  /** `Delete` always fails. */
  function Delete(d: Cluster): (r: Result<(), string>)
    ensures r.Failure? && r.error == "Update not available"
  {
    Failure("Update not available")
  }

  // ---------------------------------------------------------------- import

  // `ImportState` takes `name,cx_profile_name`: `ImportId.ImportNamed`.
}
