/**
 * The NFS service of an SVM (`provider/protocols_nfs_service_resource.go`):
 * the request body of create and update, with the attributes that need a
 * newer ONTAP release gated on the cluster version, and the resource ID.
 *
 * Nested request structs are flattened: the body key of a field is its
 * dotted path (`protocol.v40_features.acl_enabled`), which is also the name
 * the provider reports for an unsupported field. A missing nested block
 * behaves as a block whose fields are all null.
 */
module NfsService {
  import opened Wrappers
  import opened Tf
  import opened GoStrings
  import opened Versions

  datatype V40Features = V40Features(aclEnabled: Value<bool>, readDelegation: Value<bool>, writeDelegation: Value<bool>)

  datatype V41Features = V41Features(
    aclEnabled: Value<bool>, pnfsEnabled: Value<bool>, readDelegation: Value<bool>, writeDelegation: Value<bool>)

  datatype Protocol = Protocol(
    v3Enabled: Value<bool>,
    v4IdDomain: Value<string>,
    v40Enabled: Value<bool>,
    v40Features: Option<V40Features>,
    v41Enabled: Value<bool>,
    v41Features: Option<V41Features>)

  datatype Root = Root(ignoreNtAcl: Value<bool>, skipWritePermissionCheck: Value<bool>)

  datatype Security = Security(
    chownMode: Value<string>,
    ntAclDisplayPermission: Value<bool>,
    ntfsUnixSecurity: Value<string>,
    rpcsecContextIdle: Value<int>)

  datatype Transport = Transport(tcpEnabled: Value<bool>, tcpMaxTransferSize: Value<int>, udpEnabled: Value<bool>)

  datatype Windows = Windows(defaultUser: Value<string>, mapUnknownUidToDefaultUser: Value<bool>, v3MsDosClientEnabled: Value<bool>)

  /** The resource model as planned. */
  datatype Service = Service(
    svmName: Value<string>,
    enabled: Value<bool>,
    protocol: Option<Protocol>,
    root: Option<Root>,
    security: Option<Security>,
    showmountEnabled: Value<bool>,
    transport: Option<Transport>,
    vstorageEnabled: Value<bool>,
    windows: Option<Windows>)

  const NoV40 := V40Features(Null, Null, Null)
  const NoV41 := V41Features(Null, Null, Null, Null)
  const NoProtocol := Protocol(Null, Null, Null, None, Null, None)
  const NoRoot := Root(Null, Null)
  const NoSecurity := Security(Null, Null, Null, Null)
  const NoTransport := Transport(Null, Null, Null)
  const NoWindows := Windows(Null, Null, Null)


  /** The body keys of the ungated fields, in the order of `UngatedWith`. */
  const UngatedKeys: seq<string> := ["enabled", "protocol.v3_enabled", "protocol.v4_id_domain", "protocol.v40_enabled",
    "protocol.v40_features.acl_enabled", "protocol.v40_features.read_delegation_enabled",
    "protocol.v40_features.write_delegation_enabled", "protocol.v41_enabled", "protocol.v41_features.acl_enabled",
    "protocol.v41_features.pnfs_enabled", "protocol.v41_features.read_delegation_enabled",
    "protocol.v41_features.write_delegation_enabled", "showmount_enabled", "transport.tcp_enabled",
    "transport.udp_enabled", "vstorage_enabled"]

  /** The body keys of the gated fields, which are also the names reported for them. */
  const GatedKeys: seq<string> := ["root.ignore_nt_acl", "root.skip_write_permission_check", "security.chown_mode",
    "security.nt_acl_display_permission", "security.ntfs_unix_security", "security.rpcsec_context_idle",
    "transport.tcp_max_transfer_size", "windows.default_user", "windows.map_unknown_uid_to_default_user",
    "windows.v3_ms_dos_client_enabled"]

  lemma UngatedKeysDistinct()
    ensures Distinct(UngatedKeys)
  {
    var k := UngatedKeys;
    assert |k[0]| == 7 && |k[1]| == 19 && |k[2]| == 21 && |k[3]| == 20 && |k[4]| == 33 && |k[5]| == 45 && |k[6]| == 46 && |k[7]| == 20;
    assert |k[8]| == 33 && |k[9]| == 34 && |k[10]| == 45 && |k[11]| == 46 && |k[12]| == 17 && |k[13]| == 21 && |k[14]| == 21 && |k[15]| == 16;
    assert k[3][11] != k[7][11] && k[4][11] != k[8][11] && k[5][11] != k[10][11] && k[6][11] != k[11][11];
    assert k[2][0] != k[13][0] && k[2][0] != k[14][0] && k[13][10] != k[14][10];
  }

  lemma GatedKeysDistinct()
    ensures Distinct(GatedKeys)
  {
  }

  /** No ungated key is a gated one, and neither list holds `svm.name`. */
  lemma KeyListsApart()
    ensures forall i, j :: 0 <= i < |UngatedKeys| && 0 <= j < |GatedKeys| ==> UngatedKeys[i] != GatedKeys[j]
    ensures "svm.name" !in UngatedKeys && "svm.name" !in GatedKeys
  {
  }

  /**
   * The fields copied whenever set, whatever the version. `v40Write` is the
   * value sent as the v4.0 write-delegation flag; it is sent when the
   * write-delegation attribute itself is set.
   */
  function UngatedWith(s: Service, v40Write: Value<bool>): (r: seq<Attr>)
    ensures |r| == 16 && forall i :: 0 <= i < 16 ==> r[i].key == UngatedKeys[i]
    ensures DistinctKeys(r)
  {
    UngatedKeysDistinct();
    var p := s.protocol.GetOr(NoProtocol);
    var f0 := p.v40Features.GetOr(NoV40);
    var f1 := p.v41Features.GetOr(NoV41);
    var t := s.transport.GetOr(NoTransport);
    var r := [B("enabled", s.enabled),
     B("protocol.v3_enabled", p.v3Enabled),
     S("protocol.v4_id_domain", p.v4IdDomain),
     B("protocol.v40_enabled", p.v40Enabled),
     B("protocol.v40_features.acl_enabled", f0.aclEnabled),
     B("protocol.v40_features.read_delegation_enabled", f0.readDelegation),
     Attr("protocol.v40_features.write_delegation_enabled",
          if f0.writeDelegation.Null? then Null else LiftBool(Known(Bool(v40Write))), JBool(false)),
     B("protocol.v41_enabled", p.v41Enabled),
     B("protocol.v41_features.acl_enabled", f1.aclEnabled),
     B("protocol.v41_features.pnfs_enabled", f1.pnfsEnabled),
     B("protocol.v41_features.read_delegation_enabled", f1.readDelegation),
     B("protocol.v41_features.write_delegation_enabled", f1.writeDelegation),
     B("showmount_enabled", s.showmountEnabled),
     B("transport.tcp_enabled", t.tcpEnabled),
     B("transport.udp_enabled", t.udpEnabled),
     B("vstorage_enabled", s.vstorageEnabled)];
    KeysFrom(r, UngatedKeys, 0);
    r
  }

  function V40(s: Service): V40Features {
    s.protocol.GetOr(NoProtocol).v40Features.GetOr(NoV40)
  }

  /** The ungated fields, each sending its own value. */
  function Ungated(s: Service): seq<Attr> {
    UngatedWith(s, V40(s).writeDelegation)
  }

  /** As written: the v4.0 write-delegation flag is sent with the read-delegation value. */
  function UngatedAsWritten(s: Service): seq<Attr> {
    UngatedWith(s, V40(s).readDelegation)
  }

  /** The fields that need ONTAP 9.11 or later, in the order their names are reported. */
  function GatedAttrs(s: Service): (r: seq<Attr>)
    ensures |r| == 10 && forall j :: 0 <= j < 10 ==> r[j].key == GatedKeys[j]
    ensures DistinctKeys(r)
  {
    GatedKeysDistinct();
    var ro := s.root.GetOr(NoRoot);
    var se := s.security.GetOr(NoSecurity);
    var t := s.transport.GetOr(NoTransport);
    var w := s.windows.GetOr(NoWindows);
    var r := [B("root.ignore_nt_acl", ro.ignoreNtAcl),
     B("root.skip_write_permission_check", ro.skipWritePermissionCheck),
     S("security.chown_mode", se.chownMode),
     B("security.nt_acl_display_permission", se.ntAclDisplayPermission),
     S("security.ntfs_unix_security", se.ntfsUnixSecurity),
     I("security.rpcsec_context_idle", se.rpcsecContextIdle),
     I("transport.tcp_max_transfer_size", t.tcpMaxTransferSize),
     S("windows.default_user", w.defaultUser),
     B("windows.map_unknown_uid_to_default_user", w.mapUnknownUidToDefaultUser),
     B("windows.v3_ms_dos_client_enabled", w.v3MsDosClientEnabled)];
    KeysFrom(r, GatedKeys, 0);
    r
  }

  // ---------------------------------------------------------------- the version gate

  /** As written: `clusterVersion > "9.10"` on strings, so `clusterVersion <= "9.10"` otherwise. */
  predicate GateAsWritten(clusterVersion: string) {
    LexLess("9.10", clusterVersion)
  }

  /** The intended gate: the release is 9.11 or later. */
  predicate Supported(v: Version) {
    CompareNum(v, Version(9, 10)) > 0
  }

  /** The intended gate agrees with the provider's `CompareVersions` on the formatted version. */
  lemma SupportedIsCompareVersions(v: Version)
    requires InRange(v)
    ensures Supported(v) <==> CompareVersions(Format(v), "9.10") > 0
    ensures Supported(v) <==> v.generation > 9 || (v.generation == 9 && v.major >= 11)
  {
    Literals();
    CompareVersionsNumeric(v, Version(9, 10));
  }

  /** The string gate admits 9.8 and refuses 9.10 and 10.0: it is not the release order. */
  lemma GateAsWrittenMisorders()
    ensures GateAsWritten(Format(Version(9, 8))) && !Supported(Version(9, 8))
    ensures !GateAsWritten(Format(Version(9, 10))) && !Supported(Version(9, 10))
    ensures !GateAsWritten(Format(Version(10, 0))) && Supported(Version(10, 0))
    ensures GateAsWritten(Format(Version(9, 11))) && Supported(Version(9, 11))
  {
    Literals();
    assert Format(Version(10, 0)) == "10.0" by { assert Digits(10) == "10"; }
    assert Format(Version(9, 11)) == "9.11" by { assert Digits(11) == "11"; }
    assert LexLess("9.10", "9.8") by { assert LexLess(".10", ".8"); }
    assert !LexLess("9.10", "10.0");
    assert LexLess("9.10", "9.11") by { assert LexLess("10", "11") by { assert LexLess("0", "1"); } }
  }

  // ---------------------------------------------------------------- request body

  /** The request body and the names of the set fields the cluster does not support. */
  datatype Request = Request(body: Body, unsupported: seq<string>)

  /** No ungated field shares a key with a gated one or with `svm.name`. */
  lemma KeysDisjoint(s: Service, w: Value<bool>)
    ensures forall i, j :: 0 <= i < 16 && 0 <= j < 10 ==> UngatedWith(s, w)[i].key != GatedAttrs(s)[j].key
    ensures forall i :: 0 <= i < 16 ==> UngatedWith(s, w)[i].key != "svm.name"
    ensures forall j :: 0 <= j < 10 ==> GatedAttrs(s)[j].key != "svm.name"
  {
    KeyListsApart();
    var u, g := UngatedWith(s, w), GatedAttrs(s);
    assert forall i :: 0 <= i < 16 ==> u[i].key == UngatedKeys[i];
    assert forall j :: 0 <= j < 10 ==> g[j].key == GatedKeys[j];
  }

  /** Ungated attributes when set, gated ones when set and supported, then one fixed key. */
  function PutBoth(ungated: seq<Attr>, gated: seq<Attr>, supported: seq<bool>, key: string, v: Json): (b: Body)
    requires |supported| == |gated| && DistinctKeys(ungated) && DistinctKeys(gated)
    requires forall i, j :: 0 <= i < |ungated| && 0 <= j < |gated| ==> ungated[i].key != gated[j].key
    requires forall i :: 0 <= i < |ungated| ==> ungated[i].key != key
    requires forall j :: 0 <= j < |gated| ==> gated[j].key != key
    ensures SendsUnlessNull(b, ungated) && SendsGated(b, gated, supported)
    ensures key in b && b[key] == v
    ensures forall k :: k in b ==> k == key || IsKey(ungated, k) || IsKey(gated, k)
  {
    var b1 := PutUnlessNull(map[], ungated);
    var b2 := PutGated(b1, gated, supported);
    SendsFrame(b2, b1, ungated);
    var b3 := b2[key := v];
    SendsFrame(b3, b2, ungated);
    SendsFrame(b3, b2, gated);
    b3
  }

  /**
   * The body both create and update send: every set ungated field, every set
   * gated field when `supported`, and `svm.name`; the set gated fields are
   * reported instead when not.
   */
  function Build(s: Service, ungated: seq<Attr>, supported: bool): (r: Request)
    requires ungated == UngatedWith(s, V40(s).writeDelegation) || ungated == UngatedWith(s, V40(s).readDelegation)
    ensures SendsUnlessNull(r.body, ungated)
    ensures SendsGated(r.body, GatedAttrs(s), Repeat(supported, 10))
    ensures "svm.name" in r.body && r.body["svm.name"] == JStr(Str(s.svmName))
    ensures forall k :: k in r.body ==> k == "svm.name" || IsKey(ungated, k) || IsKey(GatedAttrs(s), k)
    ensures r.unsupported == Unsupported(GatedAttrs(s), Repeat(supported, 10))
  {
    KeysDisjoint(s, if ungated == UngatedWith(s, V40(s).writeDelegation) then V40(s).writeDelegation else V40(s).readDelegation);
    Request(PutBoth(ungated, GatedAttrs(s), Repeat(supported, 10), "svm.name", JStr(Str(s.svmName))),
            Unsupported(GatedAttrs(s), Repeat(supported, 10)))
  }

  /**
   * The request of create and update for a cluster at version `v`: every set
   * field is sent, a gated one only from 9.11 on, and nothing is reported
   * exactly when the release is supported or no gated field is set.
   */
  function RequestFor(s: Service, v: Version): (r: Request)
    ensures SendsUnlessNull(r.body, Ungated(s))
    ensures SendsGated(r.body, GatedAttrs(s), Repeat(Supported(v), 10))
    ensures "svm.name" in r.body && r.body["svm.name"] == JStr(Str(s.svmName))
    ensures r.unsupported == [] <==> Supported(v) || forall j :: 0 <= j < 10 ==> GatedAttrs(s)[j].value.Null?
  {
    UnsupportedEmpty(GatedAttrs(s), Repeat(Supported(v), 10));
    Build(s, Ungated(s), Supported(v))
  }

  /**
   * As written: the gated fields pass the text comparison with "9.10", and
   * the write-delegation flag carries the read-delegation value.
   */
  function RequestAsWritten(s: Service, v: Version): (r: Request)
    ensures SendsUnlessNull(r.body, UngatedAsWritten(s))
    ensures SendsGated(r.body, GatedAttrs(s), Repeat(GateAsWritten(Format(v)), 10))
    ensures "svm.name" in r.body && r.body["svm.name"] == JStr(Str(s.svmName))
    ensures r.unsupported == [] <==> GateAsWritten(Format(v)) || forall j :: 0 <= j < 10 ==> GatedAttrs(s)[j].value.Null?
  {
    UnsupportedEmpty(GatedAttrs(s), Repeat(GateAsWritten(Format(v)), 10));
    Build(s, UngatedAsWritten(s), GateAsWritten(Format(v)))
  }

  /** Nothing is reported exactly when the version is supported or no gated field is set. */
  lemma NothingReportedIff(s: Service, v: Version)
    ensures RequestFor(s, v).unsupported == [] <==>
      Supported(v) || forall j :: 0 <= j < 10 ==> GatedAttrs(s)[j].value.Null?
  {
    UnsupportedEmpty(GatedAttrs(s), Repeat(Supported(v), 10));
  }

  /** On a supported cluster the gated fields are sent like the others: whenever set. */
  lemma SupportedSendsAllSet(s: Service, v: Version)
    requires Supported(v)
    ensures SendsUnlessNull(RequestFor(s, v).body, GatedAttrs(s))
  {
    GatedAllSupported(map[], GatedAttrs(s), Repeat(true, 10));
  }

  /** On an older cluster with every gated field set, all ten names are reported in field order. */
  lemma AllGatedReported(s: Service, v: Version)
    requires !Supported(v)
    requires forall j :: 0 <= j < 10 ==> !GatedAttrs(s)[j].value.Null?
    ensures RequestFor(s, v).unsupported == GatedKeys
  {
    UnsupportedAll(GatedAttrs(s), Repeat(false, 10));
    KeysDisjoint(s, V40(s).writeDelegation);
  }

  /** With write delegation set, the v4.0 write-delegation flag is sent with the value `w` given for it. */
  lemma WriteFlagSentWith(s: Service, w: Value<bool>, supported: bool)
    requires V40(s).writeDelegation.Known?
    requires w == V40(s).writeDelegation || w == V40(s).readDelegation
    ensures UngatedKeys[6] in Build(s, UngatedWith(s, w), supported).body
    ensures Build(s, UngatedWith(s, w), supported).body[UngatedKeys[6]] == JBool(Bool(w))
  {
    var a := UngatedWith(s, w);
    assert !a[6].value.Null? && Encoded(a[6]) == JBool(Bool(w));
    SendsAt(Build(s, a, supported).body, a, 6);
  }

  /** The v4.0 write-delegation flag carries its own value; as written it carries the read value. */
  lemma WriteDelegationSent(s: Service, v: Version)
    requires V40(s).writeDelegation.Known?
    ensures "protocol.v40_features.write_delegation_enabled" in RequestFor(s, v).body
    ensures RequestFor(s, v).body["protocol.v40_features.write_delegation_enabled"] == JBool(V40(s).writeDelegation.value)
    ensures "protocol.v40_features.write_delegation_enabled" in RequestAsWritten(s, v).body
    ensures RequestAsWritten(s, v).body["protocol.v40_features.write_delegation_enabled"] == JBool(Bool(V40(s).readDelegation))
  {
    var key := "protocol.v40_features.write_delegation_enabled";
    assert UngatedKeys[6] == key;
    assert RequestFor(s, v) == Build(s, UngatedWith(s, V40(s).writeDelegation), Supported(v));
    assert RequestAsWritten(s, v) == Build(s, UngatedWith(s, V40(s).readDelegation), GateAsWritten(Format(v)));
    WriteFlagSentWith(s, V40(s).writeDelegation, Supported(v));
    WriteFlagSentWith(s, V40(s).readDelegation, GateAsWritten(Format(v)));
  }

  /** Read delegation on and write delegation off: the request as written turns write delegation on. */
  lemma WriteDelegationCounterexample(s: Service, v: Version)
    requires V40(s).readDelegation == Known(true) && V40(s).writeDelegation == Known(false)
    ensures "protocol.v40_features.write_delegation_enabled" in RequestAsWritten(s, v).body
    ensures RequestAsWritten(s, v).body["protocol.v40_features.write_delegation_enabled"] == JBool(true)
    ensures "protocol.v40_features.write_delegation_enabled" in RequestFor(s, v).body
    ensures RequestFor(s, v).body["protocol.v40_features.write_delegation_enabled"] == JBool(false)
  {
    WriteDelegationSent(s, v);
  }

  // ---------------------------------------------------------------- create and update

  /** What create or update does. */
  datatype Outcome =
    | NoCluster
    | NoSvm
    /** Unsupported fields are only logged: no error diagnostic, no call, no state. */
    | NotSent(fields: seq<string>)
    /** The create or update call with its body; on success the plan is saved with this ID. */
    | Submit(body: Body, id: Value<string>)

  function Decide(s: Service, req: Request, svmFound: bool): Outcome {
    if |req.unsupported| > 0 then NotSent(req.unsupported)
    else if !svmFound then NoSvm
    else Submit(req.body, s.svmName)
  }

  /** Create as written: cluster first, then the string-gated body, then the SVM lookup. */
  function Create(s: Service, cluster: Option<Version>, svmFound: bool): (r: Outcome)
    ensures cluster.None? ==> r == NoCluster
    ensures cluster.Some? && RequestAsWritten(s, cluster.value).unsupported != [] ==>
      r == NotSent(RequestAsWritten(s, cluster.value).unsupported)
    ensures cluster.Some? && RequestAsWritten(s, cluster.value).unsupported == [] ==>
      r == (if svmFound then Submit(RequestAsWritten(s, cluster.value).body, s.svmName) else NoSvm)
  {
    if cluster.None? then NoCluster else Decide(s, RequestAsWritten(s, cluster.value), svmFound)
  }

  /** Update as written: the SVM lookup first, then the cluster, then the string-gated body. */
  function Update(s: Service, svmFound: bool, cluster: Option<Version>): (r: Outcome)
    ensures !svmFound ==> r == NoSvm
    ensures svmFound && cluster.None? ==> r == NoCluster
    ensures svmFound && cluster.Some? ==>
      r == (if RequestAsWritten(s, cluster.value).unsupported != [] then NotSent(RequestAsWritten(s, cluster.value).unsupported)
            else Submit(RequestAsWritten(s, cluster.value).body, s.svmName))
  {
    if !svmFound then NoSvm else if cluster.None? then NoCluster else Decide(s, RequestAsWritten(s, cluster.value), true)
  }

  /** The corrected create: the numeric gate and the configured write-delegation value. */
  function CreateCorrected(s: Service, cluster: Option<Version>, svmFound: bool): (r: Outcome)
    ensures cluster.None? ==> r == NoCluster
    ensures cluster.Some? && RequestFor(s, cluster.value).unsupported != [] ==>
      r == NotSent(RequestFor(s, cluster.value).unsupported)
    ensures cluster.Some? && RequestFor(s, cluster.value).unsupported == [] ==>
      r == (if svmFound then Submit(RequestFor(s, cluster.value).body, s.svmName) else NoSvm)
  {
    if cluster.None? then NoCluster else Decide(s, RequestFor(s, cluster.value), svmFound)
  }

  /** The corrected update, with the same order of checks as update as written. */
  function UpdateCorrected(s: Service, svmFound: bool, cluster: Option<Version>): (r: Outcome)
    ensures !svmFound ==> r == NoSvm
    ensures svmFound && cluster.None? ==> r == NoCluster
    ensures svmFound && cluster.Some? ==>
      r == (if RequestFor(s, cluster.value).unsupported != [] then NotSent(RequestFor(s, cluster.value).unsupported)
            else Submit(RequestFor(s, cluster.value).body, s.svmName))
  {
    if !svmFound then NoSvm else if cluster.None? then NoCluster else Decide(s, RequestFor(s, cluster.value), true)
  }

  /** Create and update send the same body and keep the same ID when both get that far, as written and corrected. */
  lemma CreateUpdateAgree(s: Service, v: Version)
    ensures Create(s, Some(v), true) == Update(s, true, Some(v))
    ensures CreateCorrected(s, Some(v), true) == UpdateCorrected(s, true, Some(v))
  {
  }

  /** A submitted request carries no gated field when its gate fails: the string gate as written, the release gate corrected. */
  lemma SubmitHasNoUnsupportedField(s: Service, v: Version, k: string)
    requires IsKey(GatedAttrs(s), k)
    ensures Create(s, Some(v), true).Submit? && !GateAsWritten(Format(v)) ==> k !in Create(s, Some(v), true).body
    ensures CreateCorrected(s, Some(v), true).Submit? && !Supported(v) ==> k !in CreateCorrected(s, Some(v), true).body
  {
  }

  /** A set gated field on a release the string gate refuses stops create as written, which reports it. */
  lemma AsWrittenReportsGated(s: Service, v: Version, j: nat)
    requires !GateAsWritten(Format(v))
    requires j < 10 && !GatedAttrs(s)[j].value.Null?
    ensures Create(s, Some(v), true).NotSent? && GatedKeys[j] in Create(s, Some(v), true).fields
  {
    var g := GatedAttrs(s);
    assert g[j].key == GatedKeys[j] && !Repeat(false, 10)[j];
    assert GatedKeys[j] in RequestAsWritten(s, v).unsupported;
  }

  /** A set gated field on a release the numeric gate admits is submitted by the corrected create. */
  lemma CorrectedSendsGated(s: Service, v: Version, j: nat)
    requires Supported(v)
    requires j < 10 && !GatedAttrs(s)[j].value.Null?
    ensures CreateCorrected(s, Some(v), true).Submit? && GatedKeys[j] in CreateCorrected(s, Some(v), true).body
  {
    var g := GatedAttrs(s);
    assert RequestFor(s, v).unsupported == [] by { UnsupportedEmpty(g, Repeat(true, 10)); }
    assert g[j].key == GatedKeys[j] && Repeat(true, 10)[j];
  }

  /**
   * Where the string gate refuses a release the numeric gate admits, a set
   * gated field stops create as written and is submitted by the corrected create.
   */
  lemma CreateDivergesWhereGatesDiffer(s: Service, v: Version, j: nat)
    requires !GateAsWritten(Format(v)) && Supported(v)
    requires j < 10 && !GatedAttrs(s)[j].value.Null?
    ensures Create(s, Some(v), true).NotSent? && GatedKeys[j] in Create(s, Some(v), true).fields
    ensures CreateCorrected(s, Some(v), true).Submit? && GatedKeys[j] in CreateCorrected(s, Some(v), true).body
  {
    AsWrittenReportsGated(s, v, j);
    CorrectedSendsGated(s, v, j);
  }

  /** On ONTAP 10.0 with a gated field set, create as written reports the field and sends nothing; the corrected create submits it. */
  lemma CreateRefusedOnTen(s: Service, j: nat)
    requires j < 10 && !GatedAttrs(s)[j].value.Null?
    ensures Create(s, Some(Version(10, 0)), true).NotSent?
    ensures GatedKeys[j] in Create(s, Some(Version(10, 0)), true).fields
    ensures CreateCorrected(s, Some(Version(10, 0)), true).Submit?
    ensures GatedKeys[j] in CreateCorrected(s, Some(Version(10, 0)), true).body
  {
    GateAsWrittenMisorders();
    CreateDivergesWhereGatesDiffer(s, Version(10, 0), j);
  }

  /** The ID read back is the SVM name of the record. */
  function ReadId(recordSvmName: string): (id: Value<string>)
    ensures id.Known? && id.value == recordSvmName
  {
    Known(recordSvmName)
  }

  /** The ID saved by create is the one a later read derives. */
  lemma IdStable(s: Service, v: Version, name: string)
    requires s.svmName == Known(name)
    ensures Create(s, Some(v), true).Submit? ==> Create(s, Some(v), true).id == ReadId(name)
    ensures CreateCorrected(s, Some(v), true).Submit? ==> CreateCorrected(s, Some(v), true).id == ReadId(name)
  {
  }
}
