/**
 * The LDAP client configuration of an SVM (`name_services_ldap` resource).
 * Five attributes need ONTAP 9.9 or later; create reports the set ones an
 * older cluster cannot take and stops. Requests are stated as the Go request
 * struct after assignment: an attribute left unassigned holds its zero value.
 */
module NameServicesLdap {
  import opened Wrappers
  import opened Tf
  import opened ImportId
  import opened Versions
  import opened GoStrings

  datatype Ldap = Ldap(
    id: Value<string>,
    svmName: Value<string>,
    servers: seq<Value<string>>,
    schema: Value<string>,
    adDomain: Value<string>,
    baseDn: Value<string>,
    baseScope: Value<string>,
    bindDn: Value<string>,
    bindAsCifsServer: Value<bool>,
    bindPassword: Value<string>,
    preferredAdServers: seq<Value<string>>,
    port: Value<int>,
    queryTimeout: Value<int>,
    minBindLevel: Value<string>,
    useStartTls: Value<bool>,
    referralEnabled: Value<bool>,
    sessionSecurity: Value<string>,
    ldapsEnabled: Value<bool>,
    skipConfigValidation: Value<bool>)

  /** The request struct; the server lists are appended element by element. */
  datatype Request = Request(
    svmName: string,
    servers: seq<string>,
    schema: string,
    adDomain: string,
    baseDn: string,
    baseScope: string,
    bindDn: string,
    bindAsCifsServer: bool,
    bindPassword: string,
    preferredAdServers: seq<string>,
    port: int,
    queryTimeout: int,
    minBindLevel: string,
    useStartTls: bool,
    referralEnabled: bool,
    sessionSecurity: string,
    ldapsEnabled: bool,
    skipConfigValidation: bool)

  /** The five attributes are accepted on generation 9, major 9 or later. */
  predicate Supported(v: Version) {
    v.generation == 9 && v.major >= 9
  }

  function NameIf(cond: bool, name: string): (r: seq<string>)
    ensures cond ==> r == [name]
    ensures !cond ==> r == []
  {
    if cond then [name] else []
  }

  /** The version-gated attributes that are set, in the order create checks them. */
  function SetGated(d: Ldap): (r: seq<string>)
    ensures "bind_as_cifs_server" in r <==> !d.bindAsCifsServer.Null?
    ensures "query_timeout" in r <==> !d.queryTimeout.Null?
    ensures "referral_enabled" in r <==> !d.referralEnabled.Null?
    ensures "ldaps_enabled" in r <==> !d.ldapsEnabled.Null?
    ensures "skip_config_validation" in r <==> !d.skipConfigValidation.Null?
    ensures r == [] <==> d.bindAsCifsServer.Null? && d.queryTimeout.Null? && d.referralEnabled.Null? &&
                         d.ldapsEnabled.Null? && d.skipConfigValidation.Null?
  {
    NameIf(!d.bindAsCifsServer.Null?, "bind_as_cifs_server") + NameIf(!d.queryTimeout.Null?, "query_timeout") +
    NameIf(!d.referralEnabled.Null?, "referral_enabled") + NameIf(!d.ldapsEnabled.Null?, "ldaps_enabled") +
    NameIf(!d.skipConfigValidation.Null?, "skip_config_validation")
  }

  /**
   * The request both create and a correct update assemble from the plan:
   * every attribute takes its plan value, a null one Go's zero value, and
   * the server lists keep their order.
   */
  function PlanRequest(d: Ldap): (r: Request)
    ensures r.svmName == Str(d.svmName) && r.servers == Strs(d.servers) && r.preferredAdServers == Strs(d.preferredAdServers)
    ensures d.queryTimeout.Known? ==> r.queryTimeout == d.queryTimeout.value
    ensures d.queryTimeout.Null? ==> r.queryTimeout == 0
    ensures d.port.Known? ==> r.port == d.port.value
    ensures r.bindAsCifsServer <==> d.bindAsCifsServer == Known(true)
    ensures r.referralEnabled <==> d.referralEnabled == Known(true)
    ensures r.ldapsEnabled <==> d.ldapsEnabled == Known(true)
    ensures r.skipConfigValidation <==> d.skipConfigValidation == Known(true)
    ensures d.adDomain.Known? ==> r.adDomain == d.adDomain.value
    ensures d.bindDn.Known? ==> r.bindDn == d.bindDn.value
  {
    Request(Str(d.svmName), Strs(d.servers), Str(d.schema), Str(d.adDomain), Str(d.baseDn), Str(d.baseScope),
            Str(d.bindDn), Bool(d.bindAsCifsServer), Str(d.bindPassword), Strs(d.preferredAdServers),
            Int(d.port), Int(d.queryTimeout), Str(d.minBindLevel), Bool(d.useStartTls), Bool(d.referralEnabled),
            Str(d.sessionSecurity), Bool(d.ldapsEnabled), Bool(d.skipConfigValidation))
  }

  /**
   * `Create`: on an older cluster the names of the set gated attributes are
   * collected and nothing is created; otherwise every plan value is sent.
   */
  function Create(d: Ldap, v: Version): (r: Result<Request, seq<string>>)
    ensures r.Failure? <==> !Supported(v) && SetGated(d) != []
    ensures r.Failure? ==> r.error == SetGated(d)
    ensures r.Success? ==> r.value.queryTimeout == Int(d.queryTimeout) && r.value.ldapsEnabled == Bool(d.ldapsEnabled)
    ensures r.Success? ==> r.value.servers == Strs(d.servers) && r.value.svmName == Str(d.svmName)
    ensures r.Success? ==> r.value.referralEnabled == Bool(d.referralEnabled) && r.value.bindDn == Str(d.bindDn)
  {
    if !Supported(v) && SetGated(d) != [] then Failure(SetGated(d)) else Success(PlanRequest(d))
  }

  /** On 9.9 and later nothing is ever rejected, and an older cluster rejects exactly the set gated attributes. */
  lemma CreateGate(d: Ldap, v: Version)
    ensures Supported(v) ==> Create(d, v).Success?
    ensures !Supported(v) && !d.queryTimeout.Null? ==> Create(d, v).Failure? && "query_timeout" in Create(d, v).error
    ensures !Supported(v) ==> (Create(d, v).Success? <==> SetGated(d) == [])
  {
  }

  /** The three attributes update gates, in order: null ones, as the code is written. */
  function UnsetGated(d: Ldap): (r: seq<string>)
    ensures "query_timeout" in r <==> d.queryTimeout.Null?
    ensures "referral_enabled" in r <==> d.referralEnabled.Null?
    ensures "ldaps_enabled" in r <==> d.ldapsEnabled.Null?
  {
    NameIf(d.queryTimeout.Null?, "query_timeout") + NameIf(d.referralEnabled.Null?, "referral_enabled") +
    NameIf(d.ldapsEnabled.Null?, "ldaps_enabled")
  }

  /**
   * `Update` as written: a fresh request in which the SVM name is never
   * assigned, so it stays "". The three gated attributes are copied, and
   * reported on an older cluster, when they are null; a set value is never
   * copied.
   */
  function UpdateAsWritten(d: Ldap, v: Version): (r: Result<Request, seq<string>>)
    ensures r.Failure? <==> !Supported(v) && (UnsetGated(d) != [] || !d.skipConfigValidation.Null?)
    ensures r.Success? ==> r.value.svmName == ""
    ensures r.Success? ==> r.value.queryTimeout == 0 && !r.value.referralEnabled && !r.value.ldapsEnabled
    ensures r.Success? ==> r.value.port == Int(d.port) && r.value.schema == Str(d.schema)
    ensures r.Success? ==> r.value.servers == Strs(d.servers) && r.value.bindDn == Str(d.bindDn)
  {
    var errors := UnsetGated(d) + NameIf(!d.skipConfigValidation.Null?, "skip_config_validation");
    if !Supported(v) && errors != [] then Failure(errors)
    else
      var p := PlanRequest(d);
      Success(p.(svmName := "", queryTimeout := if d.queryTimeout.Null? then Int(d.queryTimeout) else 0,
                 referralEnabled := if d.referralEnabled.Null? then Bool(d.referralEnabled) else false,
                 ldapsEnabled := if d.ldapsEnabled.Null? then Bool(d.ldapsEnabled) else false,
                 skipConfigValidation := if d.skipConfigValidation.Null? then false else Bool(d.skipConfigValidation)))
  }

  /** A configured query timeout is lost on update, and an older cluster refuses an update that leaves it unset. */
  lemma UpdateDropsQueryTimeout()
    ensures var d := Ldap(Null, Known("vs1"), [], Null, Null, Null, Null, Null, Null, Null, [], Null, Known(30),
                          Null, Null, Null, Null, Null, Null);
      Create(d, Version(9, 9)) == Success(PlanRequest(d)) && PlanRequest(d).queryTimeout == 30 &&
      UpdateAsWritten(d, Version(9, 9)).Success? && UpdateAsWritten(d, Version(9, 9)).value.queryTimeout == 0
    ensures var d := Ldap(Null, Known("vs1"), [], Null, Null, Null, Null, Null, Null, Null, [], Null, Null,
                          Null, Null, Null, Null, Null, Null);
      Create(d, Version(9, 8)).Success? && UpdateAsWritten(d, Version(9, 8)).Failure?
  {
  }

  /**
   * `Update` with the gate guarded by `!IsNull()`, as on create. Only the
   * gate is corrected: the SVM name is still left unassigned.
   */
  function Update(d: Ldap, v: Version): (r: Result<Request, seq<string>>)
    ensures r.Failure? <==>
      !Supported(v) && !(d.queryTimeout.Null? && d.referralEnabled.Null? && d.ldapsEnabled.Null? && d.skipConfigValidation.Null?)
    ensures r.Success? ==> r.value.svmName == "" && r.value.(svmName := Str(d.svmName)) == PlanRequest(d)
  {
    var errors := NameIf(!d.queryTimeout.Null?, "query_timeout") + NameIf(!d.referralEnabled.Null?, "referral_enabled") +
                  NameIf(!d.ldapsEnabled.Null?, "ldaps_enabled") + NameIf(!d.skipConfigValidation.Null?, "skip_config_validation");
    if !Supported(v) && errors != [] then Failure(errors) else Success(PlanRequest(d).(svmName := ""))
  }

  /** A corrected update sends what create sends apart from the SVM name: every plan value, the gated ones included. */
  lemma UpdateAgreesWithCreate(d: Ldap, v: Version)
    requires Update(d, v).Success? && Create(d, v).Success?
    ensures Update(d, v).value == Create(d, v).value.(svmName := "")
    ensures Update(d, v).value.queryTimeout == Int(d.queryTimeout)
  {
  }

  /** On 9.9 and later both succeed and agree apart from the SVM name. */
  lemma UpdateSupported(d: Ldap, v: Version)
    requires Supported(v)
    ensures Update(d, v).Success? && Create(d, v).Success?
    ensures Update(d, v).value == Create(d, v).value.(svmName := "")
  {
  }

  // ---------------------------------------------------------------- read

  /** The LDAP record as the server returns it; a list absent from the reply is `None`. */
  datatype LdapRecord = LdapRecord(
    servers: Option<seq<string>>,
    schema: string,
    adDomain: string,
    baseDn: string,
    baseScope: string,
    bindDn: string,
    bindAsCifsServer: bool,
    preferredAdServers: Option<seq<string>>,
    port: int,
    queryTimeout: int,
    minBindLevel: string,
    useStartTls: bool,
    referralEnabled: bool,
    sessionSecurity: string,
    ldapsEnabled: bool)

  /**
   * The SVM the configuration is read for: the state's ID, or after an import
   * (null ID) the UUID of the SVM named in state; `svmUuid` is that lookup.
   */
  function ReadId(d: Ldap, svmUuid: Option<string>): (r: Option<string>)
    ensures !d.id.Null? ==> r == Some(Str(d.id))
    ensures d.id.Null? ==> r == svmUuid
  {
    if d.id.Null? then svmUuid else Some(Str(d.id))
  }

  /**
   * The refresh shared by both list policies; `ad` is the preferred AD server
   * list to store. The servers are replaced when the reply has them; a null
   * ad_domain stays null; an empty bind DN keeps the state's; the other
   * fields of the reply are stored; the SVM name, the bind password and
   * skip_config_validation are kept.
   */
  function Refresh(d: Ldap, id: string, rec: LdapRecord, ad: seq<Value<string>>): (r: Ldap)
    ensures r.id == Known(id) && r.preferredAdServers == ad
    ensures rec.servers.Some? ==> Strs(r.servers) == rec.servers.value
    ensures rec.servers.None? ==> r.servers == d.servers
    ensures d.adDomain.Null? ==> r.adDomain.Null?
    ensures !d.adDomain.Null? ==> r.adDomain == Known(rec.adDomain)
    ensures rec.bindDn != "" ==> r.bindDn == Known(rec.bindDn)
    ensures rec.bindDn == "" ==> r.bindDn == d.bindDn
    ensures r.queryTimeout == Known(rec.queryTimeout) && r.port == Known(rec.port) && r.schema == Known(rec.schema)
    ensures r.referralEnabled == Known(rec.referralEnabled) && r.ldapsEnabled == Known(rec.ldapsEnabled)
    ensures r.svmName == d.svmName && r.bindPassword == d.bindPassword && r.skipConfigValidation == d.skipConfigValidation
  {
    var servers := if rec.servers.Some? then Knowns(rec.servers.value) else d.servers;
    assert rec.servers.Some? ==> Strs(servers) == rec.servers.value by {
      if rec.servers.Some? { KnownsStrs(rec.servers.value); }
    }
    Ldap(Known(id), d.svmName, servers, Known(rec.schema),
         if d.adDomain.Null? then d.adDomain else Known(rec.adDomain),
         Known(rec.baseDn), Known(rec.baseScope),
         if rec.bindDn != "" then Known(rec.bindDn) else d.bindDn,
         Known(rec.bindAsCifsServer), d.bindPassword, ad, Known(rec.port), Known(rec.queryTimeout),
         Known(rec.minBindLevel), Known(rec.useStartTls), Known(rec.referralEnabled), Known(rec.sessionSecurity),
         Known(rec.ldapsEnabled), d.skipConfigValidation)
  }

  /** `Read` as written: the preferred AD servers of the reply are appended to the ones in state. */
  function ReadAsWritten(d: Ldap, svmUuid: Option<string>, rec: Option<LdapRecord>): (r: Option<Ldap>)
    ensures r.Some? <==> ReadId(d, svmUuid).Some? && rec.Some?
    ensures r.Some? ==> r.value.id == Known(ReadId(d, svmUuid).value)
    ensures r.Some? && rec.value.preferredAdServers.Some? ==>
      r.value.preferredAdServers == d.preferredAdServers + Knowns(rec.value.preferredAdServers.value)
  {
    var id := ReadId(d, svmUuid);
    if id.None? || rec.None? then None
    else
      var ad := if rec.value.preferredAdServers.Some? then d.preferredAdServers + Knowns(rec.value.preferredAdServers.value)
                else d.preferredAdServers;
      Some(Refresh(d, id.value, rec.value, ad))
  }

  /** Refreshing twice from a reply with one preferred AD server lists that server twice. */
  lemma ReadAppendsAgain(d: Ldap, rec: LdapRecord)
    requires !d.id.Null? && d.preferredAdServers == [] && rec.preferredAdServers == Some(["dc1"])
    ensures var once := ReadAsWritten(d, None, Some(rec));
      once.Some? && once.value.preferredAdServers == [Known("dc1")] &&
      ReadAsWritten(once.value, None, Some(rec)).value.preferredAdServers == [Known("dc1"), Known("dc1")]
  {
  }

  /** `Read` replacing the preferred AD servers as it replaces the servers. */
  function Read(d: Ldap, svmUuid: Option<string>, rec: Option<LdapRecord>): (r: Option<Ldap>)
    ensures r.Some? <==> ReadId(d, svmUuid).Some? && rec.Some?
    ensures r.Some? ==> r.value.id == Known(ReadId(d, svmUuid).value)
    ensures r.Some? && rec.value.servers.Some? ==> Strs(r.value.servers) == rec.value.servers.value
    ensures r.Some? && rec.value.preferredAdServers.Some? ==>
      Strs(r.value.preferredAdServers) == rec.value.preferredAdServers.value
    ensures r.Some? && rec.value.servers.None? ==> r.value.servers == d.servers
    ensures r.Some? ==> (d.adDomain.Null? <==> r.value.adDomain.Null?)
    ensures r.Some? && rec.value.bindDn == "" ==> r.value.bindDn == d.bindDn
    ensures r.Some? ==> r.value.queryTimeout == Known(rec.value.queryTimeout) && r.value.port == Known(rec.value.port)
  {
    var id := ReadId(d, svmUuid);
    if id.None? || rec.None? then None
    else
      var ad := if rec.value.preferredAdServers.Some? then Knowns(rec.value.preferredAdServers.value) else d.preferredAdServers;
      KnownsStrs(rec.value.servers.GetOr([]));
      KnownsStrs(rec.value.preferredAdServers.GetOr([]));
      Some(Refresh(d, id.value, rec.value, ad))
  }

  /** The corrected read is a refresh: a second read from the same reply changes nothing. */
  lemma ReadIdempotent(d: Ldap, svmUuid: Option<string>, rec: LdapRecord)
    requires ReadId(d, svmUuid).Some?
    ensures var once := Read(d, svmUuid, Some(rec));
      once.Some? && Read(once.value, svmUuid, Some(rec)) == once
  {
  }

  // ---------------------------------------------------------------- import

  datatype ImportKey = ImportKey(svmName: string, cxProfileName: string)

  function KeyParts(k: ImportKey): seq<string> {
    [k.svmName, k.cxProfileName]
  }

  /** `ImportState`: `svm_name,cx_profile_name`, each part non-empty; the ID stays null until `Read`. */
  function Import(id: string): (r: Option<ImportKey>)
    ensures r.Some? <==> Parse(id, 2).Some?
    ensures r.Some? ==> KeyParts(r.value) == Parts(id)
  {
    var p := Parse(id, 2);
    if p.Some? then Some(ImportKey(p.value[0], p.value[1])) else None
  }

  lemma ImportRoundTrip(k: ImportKey)
    requires AllNonEmpty(KeyParts(k)) && SepFree(KeyParts(k), ',')
    ensures Import(Compose(KeyParts(k))) == Some(k)
  {
    ParseCompose(KeyParts(k));
  }
}
