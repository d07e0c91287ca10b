/**
 * The CIFS server of an SVM (`provider/protocols_cifs_service_resource.go`):
 * the create body with its per-field version gates and error list, the
 * changed-field update body with its own gates, the state kept after create
 * and read, the ID, and import.
 *
 * The `ad_domain`, `netbios` and `security` parts of a body are nested
 * objects, present when that part of the plan was processed. A nested block
 * that is null in the plan fails the framework's `Object.As` conversion.
 */
module CifsService {
  import opened Wrappers
  import opened Tf
  import opened GoStrings
  import opened Versions
  import opened ImportId
  import opened CifsGates

  datatype AdDomain = AdDomain(fqdn: Value<string>, user: Value<string>, password: Value<string>, organizationalUnit: Value<string>)

  datatype Netbios = Netbios(enabled: Value<bool>, aliases: Value<seq<string>>, winsServers: Value<seq<string>>)

  datatype Security = Security(
    restrictAnonymous: Value<string>,
    smbSigning: Value<bool>,
    smbEncryption: Value<bool>,
    kdcEncryption: Value<bool>,
    lmCompatibilityLevel: Value<string>,
    aesNetlogonEnabled: Value<bool>,
    tryLdapChannelBinding: Value<bool>,
    ldapReferralEnabled: Value<bool>,
    encryptDcConnection: Value<bool>,
    useStartTls: Value<bool>,
    sessionSecurity: Value<string>,
    useLdaps: Value<bool>,
    advertisedKdcEncryptions: Value<seq<string>>)

  /** The resource model. */
  datatype Service = Service(
    name: Value<string>,
    svmName: Value<string>,
    cxProfileName: Value<string>,
    adDomain: AdDomain,
    enabled: Value<bool>,
    defaultUnixUser: Value<string>,
    comment: Value<string>,
    netbios: Value<Netbios>,
    security: Value<Security>)


  function LiftStrs(v: Value<seq<string>>): (r: Value<Json>)
    ensures (r.Null? <==> v.Null?) && (r.Unknown? <==> v.Unknown?)
    ensures v.Known? ==> r == Known(JList(JStrs(v.value)))
  {
    match v case Null => Null case Unknown => Unknown case Known(xs) => Known(JList(JStrs(xs)))
  }

  function L(key: string, v: Value<seq<string>>): Attr { Attr(key, LiftStrs(v), JNull) }

  /** `strconv.Quote` of each element, as the framework's `String()` renders a string element. */
  function QuoteAll(xs: seq<string>): (r: seq<string>)
    ensures |r| == |xs| && forall i :: 0 <= i < |xs| ==> r[i] == Quote(xs[i])
  {
    if |xs| == 0 then [] else [Quote(xs[0])] + QuoteAll(xs[1..])
  }

  /**
   * The elements of a list attribute as create copies them: quoted when
   * `quoted` holds (`e.String()`), raw otherwise (`ValueString()`).
   */
  function Elements(v: Value<seq<string>>, quoted: bool): (r: Value<seq<string>>)
    ensures (r.Null? <==> v.Null?) && (r.Unknown? <==> v.Unknown?)
    ensures v.Known? ==> r == Known(if quoted then QuoteAll(v.value) else v.value)
  {
    match v case Null => Null case Unknown => Unknown case Known(xs) => Known(if quoted then QuoteAll(xs) else xs)
  }

  // ---------------------------------------------------------------- version gates

  /**
   * The security fields with a version gate, in the order create reports
   * them; `quoted` says whether advertised_kdc_encryptions is copied with
   * `String()`.
   */
  function GatedSecurity(s: Security, quoted: bool): (r: seq<Attr>)
    ensures |r| == 10 && DistinctKeys(r)
  {
    [B("kdc_encryption", s.kdcEncryption),
     S("lm_compatibility_level", s.lmCompatibilityLevel),
     B("aes_netlogon_enabled", s.aesNetlogonEnabled),
     B("try_ldap_channel_binding", s.tryLdapChannelBinding),
     B("ldap_referral_enabled", s.ldapReferralEnabled),
     B("encrypt_dc_connection", s.encryptDcConnection),
     B("use_start_tls", s.useStartTls),
     S("session_security", s.sessionSecurity),
     B("use_ldaps", s.useLdaps),
     L("advertised_kdc_encryptions", Elements(s.advertisedKdcEncryptions, quoted))]
  }

  /** The security fields sent without a gate. */
  function PlainSecurity(s: Security): (r: seq<Attr>)
    ensures |r| == 3 && DistinctKeys(r)
  {
    [S("restrict_anonymous", s.restrictAnonymous), B("smb_signing", s.smbSigning), B("smb_encryption", s.smbEncryption)]
  }

  // ---------------------------------------------------------------- create

  /** The create body together with the names of unsupported set fields. */
  datatype Request = Request(body: Body, unsupported: seq<string>)


  function AdDomainCreateAttrs(a: AdDomain): (r: seq<Attr>)
    ensures |r| == 4 && DistinctKeys(r)
  {
    [Always("fqdn", JStr(Str(a.fqdn))), Always("user", JStr(Str(a.user))), Always("password", JStr(Str(a.password))),
     S("organizational_unit", a.organizationalUnit)]
  }

  /** The ad_domain part of create: fqdn, user and password always, the unit unless null. */
  function AdDomainCreate(a: AdDomain): (b: Body)
    ensures SendsUnlessNull(b, AdDomainCreateAttrs(a))
  {
    PutUnlessNull(map[], AdDomainCreateAttrs(a))
  }

  /** The netbios fields of create; `quoted` says whether wins_servers is copied with `String()`. */
  function NetbiosCreateAttrs(n: Netbios, quoted: bool): (r: seq<Attr>)
    ensures |r| == 3 && DistinctKeys(r)
  {
    [Always("enabled", JBool(Bool(n.enabled))), L("aliases", n.aliases), L("wins_servers", Elements(n.winsServers, quoted))]
  }

  /** The netbios part of create: enabled always, the lists unless null. */
  function NetbiosCreate(n: Netbios, quoted: bool): (b: Body)
    ensures SendsUnlessNull(b, NetbiosCreateAttrs(n, quoted))
  {
    PutUnlessNull(map[], NetbiosCreateAttrs(n, quoted))
  }

  /** The security fields of create: the three ungated ones are always assigned. */
  function SecurityCreateAttrs(s: Security, quoted: bool): (r: seq<Attr>)
    ensures |r| == 13 && DistinctKeys(r) && r[3..] == GatedSecurity(s, quoted)
    ensures forall i :: 0 <= i < 3 ==> r[i].value.Known?
  {
    [Always("restrict_anonymous", JStr(Str(s.restrictAnonymous))), Always("smb_signing", JBool(Bool(s.smbSigning))),
     Always("smb_encryption", JBool(Bool(s.smbEncryption)))] + GatedSecurity(s, quoted)
  }

  /** The ungated fields pass every gate. */
  function WithPlain(supported: seq<bool>): (r: seq<bool>)
    ensures |r| == |supported| + 3 && r[..3] == [true, true, true] && r[3..] == supported
  {
    [true, true, true] + supported
  }

  /** The security part of create: the ungated fields always, the gated ones by `supported`. */
  function SecurityCreate(s: Security, supported: seq<bool>, quoted: bool): (r: Request)
    requires |supported| == 10
    ensures SendsGated(r.body, SecurityCreateAttrs(s, quoted), WithPlain(supported))
    ensures r.unsupported == Unsupported(SecurityCreateAttrs(s, quoted), WithPlain(supported))
  {
    var attrs := SecurityCreateAttrs(s, quoted);
    Request(PutGated(map[], attrs, WithPlain(supported)), Unsupported(attrs, WithPlain(supported)))
  }

  /** A nested block handled by create or update: sent as an object when known. */
  function Nested(key: string, known: bool, fields: Body): Attr {
    Attr(key, if known then Known(JObj(fields)) else Null, JNull)
  }

  /** The top-level create fields, given the nested parts already built. */
  function CreateAttrs(s: Service, ad: Body, netbios: Body, sec: Body): (r: seq<Attr>)
    ensures |r| == 8 && DistinctKeys(r)
  {
    [Always("name", JStr(Str(s.name))),
     Always("svm", JObj(map["name" := JStr(Str(s.svmName))])),
     Always("ad_domain", JObj(ad)),
     Always("enabled", JBool(Bool(s.enabled))),
     S("default_unix_user", s.defaultUnixUser),
     S("comment", s.comment),
     Nested("netbios", s.netbios.Known?, netbios),
     Nested("security", s.security.Known?, sec)]
  }

  function NetbiosPart(s: Service, quoted: bool): Body {
    if s.netbios.Known? then NetbiosCreate(s.netbios.value, quoted) else map[]
  }

  datatype Outcome =
    | NoCluster
    /** A null nested block: the conversion reports an error. */
    | ConversionFailed
    /** Unsupported fields are only logged: no error diagnostic, no call, no state. */
    | NotSent(fields: seq<string>)
    | Submit(body: Body, id: string)

  /** The ID: `<cx_profile_name>_<svm_name>_<name>`. */
  function Id(cx: string, svm: string, name: string): string {
    cx + "_" + svm + "_" + name
  }

  /** The security part create builds for a cluster at `v`; empty when security is not known. */
  function SecurityPart(s: Service, v: Version, quoted: bool): Request {
    if s.security.Known? then SecurityCreate(s.security.value, CreateSupported(v), quoted) else Request(map[], [])
  }

  /**
   * Create as written: the cluster lookup, then the body; a null netbios or
   * security block fails, set fields the cluster does not support are
   * reported and nothing is created. wins_servers and
   * advertised_kdc_encryptions are copied quoted.
   */
  function Create(s: Service, cluster: Option<Version>): (r: Outcome)
    ensures cluster.None? ==> r == NoCluster
    ensures cluster.Some? && (s.netbios.Null? || s.security.Null?) ==> r == ConversionFailed
    ensures cluster.Some? && !s.netbios.Null? && !s.security.Null? ==>
      (r.NotSent? <==> SecurityPart(s, cluster.value, true).unsupported != []) &&
      (r.NotSent? ==> r.fields == SecurityPart(s, cluster.value, true).unsupported) &&
      (r.Submit? <==> SecurityPart(s, cluster.value, true).unsupported == [])
    ensures r.Submit? ==> cluster.Some? && r.id == Id(Str(s.cxProfileName), Str(s.svmName), Str(s.name))
    ensures r.Submit? ==> r.body == CreateBody(s, cluster.value, true)
  {
    if cluster.None? then NoCluster
    else if s.netbios.Null? || s.security.Null? then ConversionFailed
    else
      var sec := SecurityPart(s, cluster.value, true);
      if |sec.unsupported| > 0 then NotSent(sec.unsupported)
      else Submit(CreateBody(s, cluster.value, true), Id(Str(s.cxProfileName), Str(s.svmName), Str(s.name)))
  }

  /** The corrected create: the same checks, with both lists copied as their raw strings, as update does. */
  function CreateCorrected(s: Service, cluster: Option<Version>): (r: Outcome)
    ensures cluster.None? ==> r == NoCluster
    ensures cluster.Some? && (s.netbios.Null? || s.security.Null?) ==> r == ConversionFailed
    ensures cluster.Some? && !s.netbios.Null? && !s.security.Null? ==>
      (r.NotSent? <==> SecurityPart(s, cluster.value, false).unsupported != []) &&
      (r.NotSent? ==> r.fields == SecurityPart(s, cluster.value, false).unsupported) &&
      (r.Submit? <==> SecurityPart(s, cluster.value, false).unsupported == [])
    ensures r.Submit? ==> cluster.Some? && r.id == Id(Str(s.cxProfileName), Str(s.svmName), Str(s.name))
    ensures r.Submit? ==> r.body == CreateBody(s, cluster.value, false)
  {
    if cluster.None? then NoCluster
    else if s.netbios.Null? || s.security.Null? then ConversionFailed
    else
      var sec := SecurityPart(s, cluster.value, false);
      if |sec.unsupported| > 0 then NotSent(sec.unsupported)
      else Submit(CreateBody(s, cluster.value, false), Id(Str(s.cxProfileName), Str(s.svmName), Str(s.name)))
  }

  /** The create body: every top-level field unless null, the nested blocks that are known. */
  function CreateBody(s: Service, v: Version, quoted: bool): (b: Body)
    ensures SendsUnlessNull(b, CreateAttrs(s, AdDomainCreate(s.adDomain), NetbiosPart(s, quoted), SecurityPart(s, v, quoted).body))
    ensures forall k :: k in b ==> IsKey(CreateAttrs(s, AdDomainCreate(s.adDomain), NetbiosPart(s, quoted), SecurityPart(s, v, quoted).body), k)
  {
    PutUnlessNull(map[], CreateAttrs(s, AdDomainCreate(s.adDomain), NetbiosPart(s, quoted), SecurityPart(s, v, quoted).body))
  }

  /** A created request never carries a gated field the cluster does not support. */
  lemma CreateSendsOnlySupported(s: Service, v: Version, i: nat, quoted: bool)
    requires s.security.Known? && i < 10 && !CreateSupported(v)[i]
    ensures GatedSecurity(s.security.value, quoted)[i].key !in SecurityPart(s, v, quoted).body
  {
    var attrs := SecurityCreateAttrs(s.security.value, quoted);
    assert attrs[3 + i] == GatedSecurity(s.security.value, quoted)[i];
    assert !WithPlain(CreateSupported(v))[3 + i];
  }

  /** The ungated fields are never reported: only a set gated field the cluster lacks is. */
  lemma PlainNeverUnsupported(attrs: seq<Attr>, gated: seq<Attr>, sup: seq<bool>)
    requires |attrs| == 13 && |gated| == 10 && |sup| == 10 && attrs[3..] == gated
    requires forall i :: 0 <= i < 3 ==> attrs[i].value.Known?
    ensures Unsupported(attrs, WithPlain(sup)) != [] <==> exists i :: 0 <= i < 10 && !gated[i].value.Null? && !sup[i]
  {
    var all := WithPlain(sup);
    UnsupportedEmpty(attrs, all);
    assert forall i :: 0 <= i < 10 ==> attrs[3 + i] == gated[i] && all[3 + i] == sup[i];
    if exists i :: 0 <= i < 10 && !gated[i].value.Null? && !sup[i] {
      var i :| 0 <= i < 10 && !gated[i].value.Null? && !sup[i];
      assert !attrs[3 + i].value.Null? && !all[3 + i];
    }
  }

  /** Create, as written or corrected, is refused exactly when some set gated field is unsupported. */
  lemma CreateRefusedIff(s: Service, v: Version)
    requires !s.netbios.Null? && s.security.Known?
    ensures Create(s, Some(v)).NotSent? <==>
      exists i :: 0 <= i < 10 && !GatedSecurity(s.security.value, false)[i].value.Null? && !CreateSupported(v)[i]
    ensures CreateCorrected(s, Some(v)).NotSent? <==> Create(s, Some(v)).NotSent?
  {
    var sec := s.security.value;
    assert SecurityPart(s, v, true).unsupported == Unsupported(SecurityCreateAttrs(sec, true), WithPlain(CreateSupported(v)));
    assert SecurityPart(s, v, false).unsupported == Unsupported(SecurityCreateAttrs(sec, false), WithPlain(CreateSupported(v)));
    RefusedIffGated(sec, v, true);
    RefusedIffGated(sec, v, false);
  }

  /** Quoted or not, the security fields are refused exactly when a set gated field is unsupported. */
  lemma RefusedIffGated(sec: Security, v: Version, quoted: bool)
    ensures Unsupported(SecurityCreateAttrs(sec, quoted), WithPlain(CreateSupported(v))) != [] <==>
      exists i :: 0 <= i < 10 && !GatedSecurity(sec, false)[i].value.Null? && !CreateSupported(v)[i]
  {
    PlainNeverUnsupported(SecurityCreateAttrs(sec, quoted), GatedSecurity(sec, quoted), CreateSupported(v));
    GatedNullAgree(sec);
  }

  /** Quoting changes the values of the gated fields but not which of them are set. */
  lemma GatedNullAgree(sec: Security)
    ensures forall i :: 0 <= i < 10 ==> (GatedSecurity(sec, true)[i].value.Null? <==> GatedSecurity(sec, false)[i].value.Null?)
  {
    var t, f := GatedSecurity(sec, true), GatedSecurity(sec, false);
    assert t[..9] == f[..9];
    assert t[9].value.Null? <==> f[9].value.Null?;
  }

  // ---------------------------------------------------------------- state after create and read

  /** The fqdn kept after create: the planned one when the server's matches it ignoring case, else null. */
  function FqdnAfterCreate(planned: Value<string>, server: string): (r: Value<string>)
    ensures r.Known? <==> EqualFold(Str(planned), server)
    ensures r.Known? ==> r.value == Str(planned)
    ensures !r.Known? ==> r.Null?
  {
    if EqualFold(Str(planned), server) then Known(Str(planned)) else Null
  }

  /**
   * `stringSliceToSet`: the elements, lowered when `toLower` holds. The
   * source lowers the caller's slice in place; no caller looks at it again.
   */
  function StringSliceToSet(words: seq<string>, toLower: bool): (r: seq<string>)
    ensures |r| == |words|
    ensures forall i :: 0 <= i < |words| ==> r[i] == (if toLower then ToLower(words[i]) else words[i])
  {
    if |words| == 0 then [] else [if toLower then ToLower(words[0]) else words[0]] + StringSliceToSet(words[1..], toLower)
  }

  /** Lowering the aliases twice is lowering them once; without lowering they are untouched. */
  lemma StringSliceToSetStable(words: seq<string>)
    ensures StringSliceToSet(StringSliceToSet(words, true), true) == StringSliceToSet(words, true)
    ensures StringSliceToSet(words, false) == words
  {
    var once := StringSliceToSet(words, true);
    forall i | 0 <= i < |words| ensures StringSliceToSet(once, true)[i] == once[i] {
      ToLowerIdempotent(words[i]);
    }
  }

  /** The CIFS server record as read. */
  datatype Record = Record(name: string, svmName: string, comment: string, fqdn: string, organizationalUnit: string)

  /** The state fields `Read` maps; the credentials cannot be read and are carried over. */
  datatype ReadState = ReadState(
    name: Value<string>, svmName: Value<string>, comment: Value<string>,
    fqdn: Value<string>, organizationalUnit: Value<string>, user: Value<string>, password: Value<string>,
    id: Value<string>)

  /**
   * `Read`: name and fqdn lowered; the comment only when non-empty; user and
   * password from prior state, a null one becoming the empty string.
   */
  function Read(prior: ReadState, cx: string, rec: Record): (r: ReadState)
    ensures r.name == Known(ToLower(rec.name)) && r.svmName == Known(rec.svmName)
    ensures r.comment == (if |rec.comment| != 0 then Known(rec.comment) else prior.comment)
    ensures r.fqdn == Known(ToLower(rec.fqdn)) && r.organizationalUnit == Known(rec.organizationalUnit)
    ensures r.user == Known(Str(prior.user)) && r.password == Known(Str(prior.password))
    ensures r.id == Known(Id(cx, rec.svmName, ToLower(rec.name)))
  {
    ReadState(Known(ToLower(rec.name)), Known(rec.svmName),
              if |rec.comment| != 0 then Known(rec.comment) else prior.comment,
              Known(ToLower(rec.fqdn)), Known(rec.organizationalUnit),
              Known(Str(prior.user)), Known(Str(prior.password)),
              Known(Id(cx, rec.svmName, ToLower(rec.name))))
  }

  /** Reading the same record again changes nothing. */
  lemma ReadIdempotent(prior: ReadState, cx: string, rec: Record)
    ensures Read(Read(prior, cx, rec), cx, rec) == Read(prior, cx, rec)
  {
  }

  /** The ID saved by create survives a read exactly when the planned name is already lower case. */
  lemma IdAfterRead(cx: string, svm: string, name: string)
    ensures Id(cx, svm, ToLower(name)) == Id(cx, svm, name) <==> ToLower(name) == name
  {
    var p := cx + "_" + svm + "_";
    if Id(cx, svm, ToLower(name)) == Id(cx, svm, name) {
      assert ToLower(name) == (p + ToLower(name))[|p|..];
      assert name == (p + name)[|p|..];
    }
  }

  // ---------------------------------------------------------------- update

  /** The top-level fields update compares with state. */
  function TopDiffering(s: Service): (r: seq<Attr>)
    ensures |r| == 3 && DistinctKeys(r)
  {
    [S("name", s.name), S("comment", s.comment), S("default_unix_user", s.defaultUnixUser)]
  }

  function AdDomainAttrs(a: AdDomain): (r: seq<Attr>)
    ensures |r| == 4 && DistinctKeys(r)
  {
    [S("fqdn", a.fqdn), S("user", a.user), S("password", a.password), S("organizational_unit", a.organizationalUnit)]
  }

  function NetbiosAttrs(n: Netbios): (r: seq<Attr>)
    ensures |r| == 3 && DistinctKeys(r)
  {
    [B("enabled", n.enabled), L("aliases", n.aliases), L("wins_servers", n.winsServers)]
  }

  /** The plan attribute differs from the state one: `!plan.X.Equal(state.X)`, unknown included. */
  function Differs(plan: seq<Attr>, state: seq<Attr>): (r: seq<bool>)
    requires |plan| == |state|
    ensures |r| == |plan| && forall i :: 0 <= i < |plan| ==> (r[i] <==> plan[i].value != state[i].value)
  {
    if |plan| == 0 then [] else [plan[0].value != state[0].value] + Differs(plan[1..], state[1..])
  }

  /** The ad_domain part of update: the fields that differ from state. */
  function AdDomainUpdate(plan: AdDomain, state: AdDomain): (b: Body)
    ensures SendsWhere(b, AdDomainAttrs(plan), Differs(AdDomainAttrs(plan), AdDomainAttrs(state)))
  {
    Put(map[], AdDomainAttrs(plan), Differs(AdDomainAttrs(plan), AdDomainAttrs(state)))
  }

  /** The netbios part of update: every field not unknown. */
  function NetbiosUpdate(n: Netbios): (b: Body)
    ensures SendsUnlessUnknown(b, NetbiosAttrs(n))
  {
    PutUnlessUnknown(map[], NetbiosAttrs(n))
  }

  /** The security fields of update: all guarded by `!IsUnknown()`. */
  function SecurityAttrs(s: Security): (r: seq<Attr>)
    ensures |r| == 13 && DistinctKeys(r) && r[3..] == GatedSecurity(s, false) && r[..3] == PlainSecurity(s)
  {
    PlainSecurity(s) + GatedSecurity(s, false)
  }

  /** The security part of update: every field not unknown whose gate passes. */
  function SecurityUpdate(s: Security, supported: seq<bool>): (b: Body)
    requires |supported| == 10
    ensures SendsWhere(b, SecurityAttrs(s), And(NotUnknown(SecurityAttrs(s)), WithPlain(supported)))
  {
    Put(map[], SecurityAttrs(s), And(NotUnknown(SecurityAttrs(s)), WithPlain(supported)))
  }

  /** The top-level update fields, given the nested parts already built. */
  function UpdateAttrs(plan: Service, ad: Body, netbios: Body, sec: Body): (r: seq<Attr>)
    ensures |r| == 7 && DistinctKeys(r) && r[..3] == TopDiffering(plan)
    ensures r[0].key == "name" && r[1].key == "comment" && r[2].key == "default_unix_user" && r[3].key == "enabled"
    ensures r[4] == Obj("ad_domain", ad) && r[5].key == "netbios" && r[6].key == "security"
  {
    TopDiffering(plan) + [Always("enabled", JBool(Bool(plan.enabled))), Obj("ad_domain", ad), Obj("netbios", netbios), Obj("security", sec)]
  }

  /** A nested block is sent when known in the plan and different from state. */
  predicate BlockSent<T(==)>(plan: Value<T>, state: Value<T>) {
    plan.Known? && plan != state
  }

  /** Which top-level fields update sends: changed ones, `enabled` and `ad_domain` always, changed known blocks. */
  function UpdateFlags(plan: Service, state: Service): (r: seq<bool>)
    ensures |r| == 7 && r[..3] == Differs(TopDiffering(plan), TopDiffering(state))
    ensures r[3] && r[4] && (r[5] <==> BlockSent(plan.netbios, state.netbios)) && (r[6] <==> BlockSent(plan.security, state.security))
  {
    Differs(TopDiffering(plan), TopDiffering(state)) + [true, true, BlockSent(plan.netbios, state.netbios), BlockSent(plan.security, state.security)]
  }

  function NetbiosUpdatePart(plan: Service): Body {
    if plan.netbios.Known? then NetbiosUpdate(plan.netbios.value) else map[]
  }

  function SecurityUpdatePart(plan: Service, supported: seq<bool>): Body
    requires |supported| == 10
  {
    if plan.security.Known? then SecurityUpdate(plan.security.value, supported) else map[]
  }

  /** The top-level update fields of `plan` against `state`. */
  function UpdateFields(plan: Service, state: Service, supported: seq<bool>): (r: seq<Attr>)
    requires |supported| == 10
    ensures |r| == 7
  {
    UpdateAttrs(plan, AdDomainUpdate(plan.adDomain, state.adDomain), NetbiosUpdatePart(plan), SecurityUpdatePart(plan, supported))
  }

  /** The update body: exactly the flagged top-level fields, each encoded from the plan, and no other key. */
  function UpdateBody(plan: Service, state: Service, supported: seq<bool>): (b: Body)
    requires |supported| == 10
    ensures SendsWhere(b, UpdateFields(plan, state, supported), UpdateFlags(plan, state))
    ensures Extends(b, map[], UpdateFields(plan, state, supported))
  {
    Put(map[], UpdateFields(plan, state, supported), UpdateFlags(plan, state))
  }

  /** The update body sends exactly the flagged top-level fields. */
  lemma UpdateSends(plan: Service, state: Service, supported: seq<bool>)
    requires |supported| == 10
    ensures SendsWhere(UpdateBody(plan, state, supported), UpdateFields(plan, state, supported), UpdateFlags(plan, state))
  {
  }

  /** A changed block that is null in the plan fails the conversion. */
  predicate ConversionFails<T(==)>(plan: Value<T>, state: Value<T>) {
    plan.Null? && plan != state
  }

  /** Update with the given gates: the conversion failure, or the body sent. */
  function UpdateWith(plan: Service, state: Service, supported: seq<bool>): (r: Result<Body, string>)
    requires |supported| == 10
    ensures r.Failure? <==> ConversionFails(plan.netbios, state.netbios) || ConversionFails(plan.security, state.security)
    ensures r.Success? ==> r.value == UpdateBody(plan, state, supported)
  {
    if ConversionFails(plan.netbios, state.netbios) || ConversionFails(plan.security, state.security) then Failure("conversion")
    else Success(UpdateBody(plan, state, supported))
  }

  /** The security block is in the update body exactly when it is sent, and it holds the gated security part. */
  lemma SecurityInUpdate(plan: Service, state: Service, supported: seq<bool>)
    requires |supported| == 10
    ensures "security" in UpdateBody(plan, state, supported) <==> BlockSent(plan.security, state.security)
    ensures "security" in UpdateBody(plan, state, supported) ==>
      UpdateBody(plan, state, supported)["security"] == JObj(SecurityUpdate(plan.security.value, supported))
    ensures "security" in UpdateBody(plan, state, supported) ==>
      ("kdc_encryption" in SecurityUpdate(plan.security.value, supported) <==> !plan.security.value.kdcEncryption.Unknown? && supported[0])
  {
    var attrs := UpdateFields(plan, state, supported);
    SendsWhereAt(UpdateBody(plan, state, supported), attrs, UpdateFlags(plan, state), 6);
    if plan.security.Known? {
      KdcInUpdate(plan.security.value, supported);
    }
  }

  /**
   * Update as written: it fails exactly on a null changed block; a sent
   * security block carries kdc_encryption only below 9.12.
   */
  function Update(plan: Service, state: Service, v: Version): (r: Result<Body, string>)
    ensures r.Failure? <==> ConversionFails(plan.netbios, state.netbios) || ConversionFails(plan.security, state.security)
    ensures r.Success? ==> ("security" in r.value <==> BlockSent(plan.security, state.security))
    ensures r.Success? && "security" in r.value ==> r.value["security"].JObj?
    ensures r.Success? && "security" in r.value ==>
      ("kdc_encryption" in r.value["security"].fields <==> !plan.security.value.kdcEncryption.Unknown? && Cmp(v, Version(9, 12)) < 0)
  {
    SecurityInUpdate(plan, state, UpdateSupportedAsWritten(v));
    UpdateWith(plan, state, UpdateSupportedAsWritten(v))
  }

  /** The corrected update: as `Update`, with create's gates, so kdc_encryption up to and including 9.12. */
  function UpdateCorrected(plan: Service, state: Service, v: Version): (r: Result<Body, string>)
    ensures r.Failure? <==> ConversionFails(plan.netbios, state.netbios) || ConversionFails(plan.security, state.security)
    ensures r.Success? ==> ("security" in r.value <==> BlockSent(plan.security, state.security))
    ensures r.Success? && "security" in r.value ==> r.value["security"].JObj?
    ensures r.Success? && "security" in r.value ==>
      ("kdc_encryption" in r.value["security"].fields <==> !plan.security.value.kdcEncryption.Unknown? && Cmp(v, Version(9, 12)) <= 0)
  {
    SecurityInUpdate(plan, state, CreateSupported(v));
    UpdateWith(plan, state, CreateSupported(v))
  }

  /** Whether the security part of an update carries kdc_encryption. */
  lemma KdcInUpdate(s: Security, supported: seq<bool>)
    requires |supported| == 10
    ensures "kdc_encryption" in SecurityUpdate(s, supported) <==> !s.kdcEncryption.Unknown? && supported[0]
  {
    var attrs := SecurityAttrs(s);
    assert attrs[3] == GatedSecurity(s, false)[0];
    assert attrs[3].key == "kdc_encryption";
    assert WithPlain(supported)[3] == supported[0];
  }

  /** With kdc_encryption set on a 9.12 cluster, the update as written drops it; create's gate keeps it. */
  lemma KdcDroppedOn912(s: Security)
    requires s.kdcEncryption.Known?
    ensures "kdc_encryption" !in SecurityUpdate(s, UpdateSupportedAsWritten(Version(9, 12)))
    ensures "kdc_encryption" in SecurityUpdate(s, CreateSupported(Version(9, 12)))
  {
    KdcGateDiffersAt912();
    KdcInUpdate(s, UpdateSupportedAsWritten(Version(9, 12)));
    KdcInUpdate(s, CreateSupported(Version(9, 12)));
  }

  /** `enabled` and an empty `ad_domain` are sent, no other top-level field. */
  predicate OnlyEnabledAndAdDomain(b: Body) {
    && "enabled" in b && "ad_domain" in b && b["ad_domain"] == JObj(map[])
    && "name" !in b && "comment" !in b && "default_unix_user" !in b && "netbios" !in b && "security" !in b
  }

  /** The top-level update fields in order, with an empty ad_domain block. */
  predicate UnchangedFields(attrs: seq<Attr>) {
    |attrs| == 7 &&
    attrs[0].key == "name" && attrs[1].key == "comment" && attrs[2].key == "default_unix_user" && attrs[3].key == "enabled" &&
    attrs[4] == Obj("ad_domain", map[]) && attrs[5].key == "netbios" && attrs[6].key == "security"
  }

  lemma SendsOnlyEnabledAndAdDomain(attrs: seq<Attr>)
    requires UnchangedFields(attrs)
    ensures OnlyEnabledAndAdDomain(Put(map[], attrs, [false, false, false, true, true, false, false]))
  {
    var flags := [false, false, false, true, true, false, false];
    var b := Put(map[], attrs, flags);
    SendsWhereAt(b, attrs, flags, 0);
    SendsWhereAt(b, attrs, flags, 1);
    SendsWhereAt(b, attrs, flags, 2);
    SendsWhereAt(b, attrs, flags, 3);
    SendsWhereAt(b, attrs, flags, 4);
    SendsWhereAt(b, attrs, flags, 5);
    SendsWhereAt(b, attrs, flags, 6);
  }

  /** Update flags of a plan equal to the state. */
  lemma FlagsUnchanged(s: Service)
    ensures UpdateFlags(s, s) == [false, false, false, true, true, false, false]
  {
    var f := UpdateFlags(s, s);
    assert f[..3] == Differs(TopDiffering(s), TopDiffering(s));
    assert !f[0] && !f[1] && !f[2];
  }

  /** An ad_domain block equal to state sends no field. */
  lemma AdDomainUnchanged(a: AdDomain)
    ensures AdDomainUpdate(a, a) == map[]
  {
    PutWhereNothing(map[], AdDomainAttrs(a), Differs(AdDomainAttrs(a), AdDomainAttrs(a)));
  }

  /** Planning the state itself sends only `enabled` and an empty `ad_domain`, whatever the gates. */
  lemma UpdateUnchanged(s: Service, supported: seq<bool>)
    requires |supported| == 10
    ensures UpdateWith(s, s, supported).Success? && OnlyEnabledAndAdDomain(UpdateWith(s, s, supported).value)
  {
    assert !ConversionFails(s.netbios, s.netbios) && !ConversionFails(s.security, s.security);
    assert UpdateWith(s, s, supported) == Success(UpdateBody(s, s, supported));
    UnchangedBody(s, supported);
  }

  lemma UnchangedBody(s: Service, supported: seq<bool>)
    requires |supported| == 10
    ensures OnlyEnabledAndAdDomain(UpdateBody(s, s, supported))
  {
    UnchangedShape(s, supported);
    FlagsUnchanged(s);
    SendsOnlyEnabledAndAdDomain(UpdateFields(s, s, supported));
  }

  /** The top-level fields of an update against itself, with the empty ad_domain block. */
  lemma UnchangedShape(s: Service, supported: seq<bool>)
    requires |supported| == 10
    ensures UnchangedFields(UpdateFields(s, s, supported))
  {
    AdDomainUnchanged(s.adDomain);
  }

  // ---------------------------------------------------------------- list elements, create against update

  /** As written, create sends each WINS server quoted, so a non-empty list differs from the one update sends. */
  lemma WinsServersQuotedOnCreate(n: Netbios)
    requires n.winsServers.Known? && |n.winsServers.value| > 0
    ensures "wins_servers" in NetbiosCreate(n, true) && "wins_servers" in NetbiosUpdate(n)
    ensures NetbiosCreate(n, true)["wins_servers"] == JList(JStrs(QuoteAll(n.winsServers.value)))
    ensures NetbiosCreate(n, true)["wins_servers"] != NetbiosUpdate(n)["wins_servers"]
  {
    var xs := n.winsServers.value;
    SendsAt(NetbiosCreate(n, true), NetbiosCreateAttrs(n, true), 2);
    assert NetbiosAttrs(n)[2].key == "wins_servers" && !NetbiosAttrs(n)[2].value.Unknown?;
    assert JStrs(QuoteAll(xs))[0] == JStr(Quote(xs[0])) && JStrs(xs)[0] == JStr(xs[0]);
    QuoteDiffers(xs[0]);
  }

  /** The corrected create sends the WINS servers exactly as update does: the configured strings. */
  lemma WinsServersCorrected(n: Netbios)
    requires n.winsServers.Known?
    ensures "wins_servers" in NetbiosCreate(n, false) && "wins_servers" in NetbiosUpdate(n)
    ensures NetbiosCreate(n, false)["wins_servers"] == NetbiosUpdate(n)["wins_servers"] == JList(JStrs(n.winsServers.value))
  {
    SendsAt(NetbiosCreate(n, false), NetbiosCreateAttrs(n, false), 2);
    assert NetbiosAttrs(n)[2].key == "wins_servers" && !NetbiosAttrs(n)[2].value.Unknown?;
  }

  /**
   * As written, on a release that admits advertised_kdc_encryptions, create
   * sends each value quoted and update sends it raw.
   */
  lemma KdcEncryptionsQuotedOnCreate(s: Security, supported: seq<bool>)
    requires |supported| == 10 && supported[9]
    requires s.advertisedKdcEncryptions.Known? && |s.advertisedKdcEncryptions.value| > 0
    ensures "advertised_kdc_encryptions" in SecurityCreate(s, supported, true).body
    ensures "advertised_kdc_encryptions" in SecurityUpdate(s, supported)
    ensures SecurityCreate(s, supported, true).body["advertised_kdc_encryptions"] == JList(JStrs(QuoteAll(s.advertisedKdcEncryptions.value)))
    ensures SecurityCreate(s, supported, true).body["advertised_kdc_encryptions"] != SecurityUpdate(s, supported)["advertised_kdc_encryptions"]
  {
    var xs := s.advertisedKdcEncryptions.value;
    KdcEncryptionsInCreate(s, supported, true);
    KdcEncryptionsInUpdate(s, supported);
    assert JStrs(QuoteAll(xs))[0] == JStr(Quote(xs[0])) && JStrs(xs)[0] == JStr(xs[0]);
    QuoteDiffers(xs[0]);
  }

  /** The corrected create sends advertised_kdc_encryptions exactly as update does. */
  lemma KdcEncryptionsCorrected(s: Security, supported: seq<bool>)
    requires |supported| == 10 && supported[9] && s.advertisedKdcEncryptions.Known?
    ensures "advertised_kdc_encryptions" in SecurityCreate(s, supported, false).body
    ensures "advertised_kdc_encryptions" in SecurityUpdate(s, supported)
    ensures SecurityCreate(s, supported, false).body["advertised_kdc_encryptions"] == SecurityUpdate(s, supported)["advertised_kdc_encryptions"]
    ensures SecurityUpdate(s, supported)["advertised_kdc_encryptions"] == JList(JStrs(s.advertisedKdcEncryptions.value))
  {
    KdcEncryptionsInCreate(s, supported, false);
    KdcEncryptionsInUpdate(s, supported);
  }

  /** Where advertised_kdc_encryptions lands in the create security part. */
  lemma KdcEncryptionsInCreate(s: Security, supported: seq<bool>, quoted: bool)
    requires |supported| == 10 && supported[9] && s.advertisedKdcEncryptions.Known?
    ensures "advertised_kdc_encryptions" in SecurityCreate(s, supported, quoted).body
    ensures SecurityCreate(s, supported, quoted).body["advertised_kdc_encryptions"] ==
      JList(JStrs(if quoted then QuoteAll(s.advertisedKdcEncryptions.value) else s.advertisedKdcEncryptions.value))
  {
    var ca := SecurityCreateAttrs(s, quoted);
    var a := L("advertised_kdc_encryptions", Elements(s.advertisedKdcEncryptions, quoted));
    assert ca[12] == GatedSecurity(s, quoted)[9] == a;
    assert WithPlain(supported)[12];
    assert !a.value.Null? && Encoded(a) == JList(JStrs(if quoted then QuoteAll(s.advertisedKdcEncryptions.value) else s.advertisedKdcEncryptions.value));
  }

  /** Where advertised_kdc_encryptions lands in the update security part. */
  lemma KdcEncryptionsInUpdate(s: Security, supported: seq<bool>)
    requires |supported| == 10 && supported[9] && s.advertisedKdcEncryptions.Known?
    ensures "advertised_kdc_encryptions" in SecurityUpdate(s, supported)
    ensures SecurityUpdate(s, supported)["advertised_kdc_encryptions"] == JList(JStrs(s.advertisedKdcEncryptions.value))
  {
    var ua := SecurityAttrs(s);
    var a := L("advertised_kdc_encryptions", Elements(s.advertisedKdcEncryptions, false));
    var send := And(NotUnknown(ua), WithPlain(supported));
    assert ua[12] == GatedSecurity(s, false)[9] == a;
    assert WithPlain(supported)[12] && !a.value.Unknown?;
    assert send[12];
    assert Encoded(a) == JList(JStrs(s.advertisedKdcEncryptions.value));
    SendsWhereAt(SecurityUpdate(s, supported), ua, send, 12);
  }

  // ---------------------------------------------------------------- import

  /** `ImportState`: `name,svm_name,cx_profile_name,ad_domain.user,ad_domain.password`. */
  datatype ImportKey = ImportKey(name: string, svmName: string, cxProfileName: string, user: string, password: string)

  function KeyParts(k: ImportKey): seq<string> {
    [k.name, k.svmName, k.cxProfileName, k.user, k.password]
  }

  function Import(id: string): (r: Option<ImportKey>)
    ensures r.Some? <==> Parse(id, 5).Some?
    ensures r.Some? ==> KeyParts(r.value) == Parts(id)
  {
    var p := Parse(id, 5);
    if p.Some? then Some(ImportKey(p.value[0], p.value[1], p.value[2], p.value[3], p.value[4])) else None
  }

  lemma ImportRoundTrip(k: ImportKey)
    requires AllNonEmpty(KeyParts(k)) && SepFree(KeyParts(k), ',')
    ensures Import(Compose(KeyParts(k))) == Some(k)
  {
    ParseCompose(KeyParts(k));
  }
}
