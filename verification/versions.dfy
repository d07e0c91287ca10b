/**
 * ONTAP cluster versions. The provider formats `cluster.Version` as
 * "<generation>.<major>" and compares such strings with `CompareVersions`,
 * whose body is not part of this model: here it compares the dot-separated
 * components numerically, a missing component counting as 0.
 */
module Versions {
  import opened GoStrings

  /** `cluster.Version`: generation and major release number. */
  datatype Version = Version(generation: int, major: int)

  predicate InRange(v: Version) {
    MinInt64 <= v.generation <= MaxInt64 && MinInt64 <= v.major <= MaxInt64
  }

  /** `strconv.Itoa(Generation) + "." + strconv.Itoa(Major)`. */
  function Format(v: Version): string {
    Itoa(v.generation) + "." + Itoa(v.major)
  }

  /** Numeric order on versions: generation first, then major. */
  function CompareNum(a: Version, b: Version): (c: int)
    ensures c == 0 <==> a == b
    ensures c < 0 <==> a.generation < b.generation || (a.generation == b.generation && a.major < b.major)
    ensures -1 <= c <= 1
  {
    if a.generation != b.generation then (if a.generation < b.generation then -1 else 1)
    else if a.major != b.major then (if a.major < b.major then -1 else 1)
    else 0
  }

  function ParseAll(parts: seq<string>): (r: seq<int>)
    ensures |r| == |parts|
    ensures forall i :: 0 <= i < |parts| ==> r[i] == Atoi(parts[i]).value
  {
    if |parts| == 0 then [] else [Atoi(parts[0]).value] + ParseAll(parts[1..])
  }

  /** The numeric components of a dotted version string. */
  function Components(s: string): seq<int> {
    ParseAll(Split(s, '.'))
  }

  function At(xs: seq<int>, i: nat): int {
    if i < |xs| then xs[i] else 0
  }

  /** Component-wise comparison from index `i` on; missing components are 0. */
  function CompareFrom(a: seq<int>, b: seq<int>, i: nat): (c: int)
    ensures -1 <= c <= 1
    decreases (if |a| > |b| then |a| else |b|) - i
  {
    if i >= |a| && i >= |b| then 0
    else if At(a, i) < At(b, i) then -1
    else if At(a, i) > At(b, i) then 1
    else CompareFrom(a, b, i + 1)
  }

  /** `CompareVersions(a, b)`: negative, zero or positive as a is below, equal to or above b. */
  function CompareVersions(a: string, b: string): int {
    CompareFrom(Components(a), Components(b), 0)
  }

  lemma ItoaDotFree(i: int)
    ensures '.' !in Itoa(i)
  {
    ItoaNoChar(i, '.');
  }

  /** Parsing a formatted version gives back its two numbers. */
  lemma ComponentsOfFormat(v: Version)
    requires InRange(v)
    ensures Components(Format(v)) == [v.generation, v.major]
  {
    var parts := [Itoa(v.generation), Itoa(v.major)];
    ItoaDotFree(v.generation);
    ItoaDotFree(v.major);
    assert SepFree(parts, '.');
    assert Join(parts, '.') == Format(v);
    SplitJoin(parts, '.');
    AtoiItoa(v.generation);
    AtoiItoa(v.major);
  }

  /** On formatted versions, CompareVersions is the numeric order. */
  lemma ComparePairs(g1: int, m1: int, g2: int, m2: int)
    ensures CompareFrom([g1, m1], [g2, m2], 0) == CompareNum(Version(g1, m1), Version(g2, m2))
  {
    var ca, cb := [g1, m1], [g2, m2];
    assert CompareFrom(ca, cb, 2) == 0;
    assert At(ca, 1) == m1 && At(cb, 1) == m2;
    assert At(ca, 0) == g1 && At(cb, 0) == g2;
  }

  /** On formatted versions, CompareVersions is the numeric order. */
  lemma CompareVersionsNumeric(a: Version, b: Version)
    requires InRange(a) && InRange(b)
    ensures CompareVersions(Format(a), Format(b)) == CompareNum(a, b)
  {
    ComponentsOfFormat(a);
    ComponentsOfFormat(b);
    ComparePairs(a.generation, a.major, b.generation, b.major);
  }

  /** The version literals the provider compares against. */
  lemma Literals()
    ensures Format(Version(9, 8)) == "9.8"
    ensures Format(Version(9, 10)) == "9.10"
    ensures Format(Version(9, 12)) == "9.12"
  {
    assert Digits(10) == "10";
    assert Digits(12) == "12";
  }

  /** `CompareVersions(Format(v), Format(t)) >= 0` read as a numeric gate. */
  lemma AtLeast(v: Version, t: Version)
    requires InRange(v) && InRange(t)
    ensures CompareVersions(Format(v), Format(t)) >= 0 <==>
      v.generation > t.generation || (v.generation == t.generation && v.major >= t.major)
  {
    CompareVersionsNumeric(v, t);
  }
}
