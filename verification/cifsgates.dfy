/**
 * The version gates of the CIFS server resource
 * (`provider/protocols_cifs_service_resource.go`): which gated security
 * fields create and update accept on a cluster release.
 */
module CifsGates {
  import opened Versions

  /**
   * `CompareVersions(clusterVersion, t)` against the literal `t`, written as
   * the formatted release it denotes (`Literals` shows "9.8", "9.10", "9.12").
   */
  function Cmp(v: Version, t: Version): int {
    CompareVersions(Format(v), Format(t))
  }

  /**
   * Which gated fields create accepts: kdc_encryption up to 9.12,
   * lm_compatibility_level and encrypt_dc_connection from 9.8,
   * advertised_kdc_encryptions from 9.12, the rest from 9.10.
   */
  function CreateSupported(v: Version): (r: seq<bool>)
    ensures |r| == 10
  {
    Gates(Cmp(v, Version(9, 8)), Cmp(v, Version(9, 10)), Cmp(v, Version(9, 12)))
  }

  /** The create gates given the comparisons with 9.8, 9.10 and 9.12. */
  function Gates(c8: int, c10: int, c12: int): (r: seq<bool>)
    ensures |r| == 10
  {
    [c12 <= 0, c8 >= 0, c10 >= 0, c10 >= 0, c10 >= 0, c8 >= 0, c10 >= 0, c10 >= 0, c10 >= 0, c12 >= 0]
  }

  /** As written, update sends kdc_encryption only below 9.12; the other gates are those of create. */
  function UpdateSupportedAsWritten(v: Version): (r: seq<bool>)
    ensures |r| == 10 && r[1..] == CreateSupported(v)[1..]
  {
    [Cmp(v, Version(9, 12)) < 0] + CreateSupported(v)[1..]
  }

  lemma CmpNumeric(v: Version, t: Version)
    requires InRange(v) && InRange(t)
    ensures Cmp(v, t) >= 0 <==> v.generation > t.generation || (v.generation == t.generation && v.major >= t.major)
    ensures Cmp(v, t) <= 0 <==> v.generation < t.generation || (v.generation == t.generation && v.major <= t.major)
  {
    CompareVersionsNumeric(v, t);
  }

  /** The create gates on the numbers of a release. */
  lemma CreateGatesNumeric(v: Version)
    requires InRange(v)
    ensures CreateSupported(v)[0] <==> v.generation < 9 || (v.generation == 9 && v.major <= 12)
    ensures CreateSupported(v)[1] <==> v.generation > 9 || (v.generation == 9 && v.major >= 8)
    ensures CreateSupported(v)[2] <==> v.generation > 9 || (v.generation == 9 && v.major >= 10)
    ensures CreateSupported(v)[9] <==> v.generation > 9 || (v.generation == 9 && v.major >= 12)
  {
    CmpNumeric(v, Version(9, 8));
    CmpNumeric(v, Version(9, 10));
    CmpNumeric(v, Version(9, 12));
    GatesNumeric(v, Cmp(v, Version(9, 8)), Cmp(v, Version(9, 10)), Cmp(v, Version(9, 12)));
  }

  /** `Gates` on the numbers of `v`, given comparisons that agree with them. */
  lemma GatesNumeric(v: Version, c8: int, c10: int, c12: int)
    requires c8 >= 0 <==> v.generation > 9 || (v.generation == 9 && v.major >= 8)
    requires c10 >= 0 <==> v.generation > 9 || (v.generation == 9 && v.major >= 10)
    requires c12 >= 0 <==> v.generation > 9 || (v.generation == 9 && v.major >= 12)
    requires c12 <= 0 <==> v.generation < 9 || (v.generation == 9 && v.major <= 12)
    ensures Gates(c8, c10, c12)[0] <==> v.generation < 9 || (v.generation == 9 && v.major <= 12)
    ensures Gates(c8, c10, c12)[1] <==> v.generation > 9 || (v.generation == 9 && v.major >= 8)
    ensures Gates(c8, c10, c12)[2] <==> v.generation > 9 || (v.generation == 9 && v.major >= 10)
    ensures Gates(c8, c10, c12)[9] <==> v.generation > 9 || (v.generation == 9 && v.major >= 12)
  {
  }

  /** As written, update's kdc_encryption gate is "below 9.12" on the numbers of a release. */
  lemma UpdateKdcGateNumeric(v: Version)
    requires InRange(v)
    ensures UpdateSupportedAsWritten(v)[0] <==> v.generation < 9 || (v.generation == 9 && v.major < 12)
  {
    CmpNumeric(v, Version(9, 12));
  }

  /** On a 9.12 cluster create accepts kdc_encryption but update, as written, drops it. */
  lemma KdcGateDiffersAt912()
    ensures CreateSupported(Version(9, 12))[0]
    ensures !UpdateSupportedAsWritten(Version(9, 12))[0]
  {
    CompareVersionsNumeric(Version(9, 12), Version(9, 12));
  }

  /** The update gates differ from create's only for kdc_encryption on exactly 9.12. */
  lemma UpdateGatesAsWritten(v: Version)
    requires InRange(v)
    ensures UpdateSupportedAsWritten(v) != CreateSupported(v) <==> v == Version(9, 12)
  {
    CompareVersionsNumeric(v, Version(9, 12));
    var a, c := UpdateSupportedAsWritten(v), CreateSupported(v);
    if v != Version(9, 12) {
      assert a == [a[0]] + a[1..] && c == [c[0]] + c[1..];
    } else {
      assert a[0] != c[0];
    }
  }
}
