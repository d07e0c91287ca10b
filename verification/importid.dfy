/** Comma-separated `terraform import` identifiers. */
module ImportId {
  import opened GoStrings
  import opened Wrappers

  /** The parts of an import identifier: `strings.Split(req.ID, ",")`. */
  function Parts(id: string): seq<string> {
    Split(id, ',')
  }

  predicate AllNonEmpty(parts: seq<string>) {
    forall i :: 0 <= i < |parts| ==> parts[i] != ""
  }

  /** The usual guard: exactly `n` parts, none of them empty. */
  function Parse(id: string, n: nat): (r: Option<seq<string>>)
    ensures r.Some? <==> |Parts(id)| == n && AllNonEmpty(Parts(id))
    ensures r.Some? ==> r.value == Parts(id) && |r.value| == n
  {
    var parts := Parts(id);
    if |parts| == n && AllNonEmpty(parts) then Some(parts) else None
  }

  /** The identifier a user would type for the given attribute values. */
  function Compose(fields: seq<string>): string {
    Join(fields, ',')
  }

  /** Composing non-empty, comma-free values and importing them yields the same values. */
  lemma ParseCompose(fields: seq<string>)
    requires |fields| >= 1
    requires AllNonEmpty(fields) && SepFree(fields, ',')
    ensures Parse(Compose(fields), |fields|) == Some(fields)
  {
    SplitJoin(fields, ',');
  }

  /** An accepted identifier is exactly the composition of its parts. */
  lemma ComposeParse(id: string, n: nat)
    requires Parse(id, n).Some?
    ensures Compose(Parse(id, n).value) == id
  {
    JoinSplit(id, ',');
  }

  /** An identifier can only be accepted with one arity: its comma count plus one. */
  lemma ParseArity(id: string, n: nat)
    requires Parse(id, n).Some?
    ensures n == Count(id, ',') + 1
  {
    SplitLength(id, ',');
  }

  // ---------------------------------------------------------------- shared shapes

  /**
   * The attributes of the resources imported as `name,svm_name,cx_profile_name`:
   * the CIFS local user, the CIFS share, the volume efficiency policy, the QoS
   * policy, the security role and the volume.
   */
  datatype SvmScopedKey = SvmScopedKey(name: string, svmName: string, cxProfileName: string)

  /** `ImportState` of those resources: three non-empty parts, in that order. */
  function ImportSvmScoped(id: string): (r: Option<SvmScopedKey>)
    ensures r.Some? <==> Parse(id, 3).Some?
    ensures r.Some? ==> [r.value.name, r.value.svmName, r.value.cxProfileName] == Parts(id)
  {
    var p := Parse(id, 3);
    if p.Some? then Some(SvmScopedKey(p.value[0], p.value[1], p.value[2])) else None
  }

  /** The identifier composed from non-empty, comma-free attributes imports exactly those attributes. */
  lemma SvmScopedRoundTrip(k: SvmScopedKey)
    requires AllNonEmpty([k.name, k.svmName, k.cxProfileName]) && SepFree([k.name, k.svmName, k.cxProfileName], ',')
    ensures ImportSvmScoped(Compose([k.name, k.svmName, k.cxProfileName])) == Some(k)
  {
    ParseCompose([k.name, k.svmName, k.cxProfileName]);
  }

  /** The attributes of the resources imported as `name,cx_profile_name`: the cluster, the cluster schedule and the SVM. */
  datatype NamedKey = NamedKey(name: string, cxProfileName: string)

  /** `ImportState` of those resources: two non-empty parts, in that order. */
  function ImportNamed(id: string): (r: Option<NamedKey>)
    ensures r.Some? <==> Parse(id, 2).Some?
    ensures r.Some? ==> [r.value.name, r.value.cxProfileName] == Parts(id)
  {
    var p := Parse(id, 2);
    if p.Some? then Some(NamedKey(p.value[0], p.value[1])) else None
  }

  /** The identifier composed from a non-empty, comma-free name and profile imports exactly them. */
  lemma NamedRoundTrip(k: NamedKey)
    requires AllNonEmpty([k.name, k.cxProfileName]) && SepFree([k.name, k.cxProfileName], ',')
    ensures ImportNamed(Compose([k.name, k.cxProfileName])) == Some(k)
  {
    ParseCompose([k.name, k.cxProfileName]);
  }
}
