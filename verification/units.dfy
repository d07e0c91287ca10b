/**
 * Sizes given as a number and a unit (`size`, `size_unit`), converted to bytes
 * with the `POW2BYTEMAP` multiplier table and back. The table's body is not
 * part of this model: it is a parameter, of which only "every multiplier is
 * positive" is assumed.
 */
module Units {
  import opened Wrappers

  /** Unit name to bytes per unit. */
  type UnitTable = map<string, int>

  predicate ValidUnits(units: UnitTable) {
    forall u :: u in units ==> units[u] > 0
  }

  /** `m * k` grows with `k`. */
  lemma {:induction false} MulMonotone(m: int, k: nat)
    requires m > 0
    ensures m * k >= 0 && (k >= 1 ==> m * k >= m)
  {
    if k > 0 {
      MulMonotone(m, k - 1);
      assert m * k == m * (k - 1) + m;
    }
  }

  /** Euclidean division of a non-negative number: quotient and remainder bounds. */
  lemma DivBounds(a: nat, b: int)
    requires b > 0
    ensures a / b >= 0 && (a / b) * b <= a < (a / b) * b + b
  {
    var q, r := a / b, a % b;
    assert a == b * q + r && 0 <= r < b;
  }

  /** Go's `/` on `int`: the quotient truncated toward zero. */
  function GoDiv(a: int, b: int): (q: int)
    requires b > 0
    ensures a >= 0 ==> 0 <= q && q * b <= a < q * b + b
    ensures a < 0 ==> q <= 0 && q * b - b < a <= q * b
  {
    DivBounds(if a >= 0 then a else -a, b);
    if a >= 0 then a / b else -((-a) / b)
  }

  /** `int(size) * POW2BYTEMAP[unit]`, or nothing when the unit is not in the table. */
  function ToBytes(size: int, unit: string, units: UnitTable): (r: Option<int>)
    ensures r.Some? <==> unit in units
    ensures r.Some? ==> r.value == size * units[unit]
  {
    if unit in units then Some(size * units[unit]) else None
  }

  /** The size stored back from a byte count: whole units, rounded toward zero. */
  function FromBytes(bytes: int, unit: string, units: UnitTable): (r: int)
    requires ValidUnits(units) && unit in units
    ensures bytes >= 0 ==> 0 <= r && r * units[unit] <= bytes < r * units[unit] + units[unit]
  {
    GoDiv(bytes, units[unit])
  }

  lemma MulDivCancel(s: int, m: int)
    requires m > 0
    ensures GoDiv(s * m, m) == s
  {
    var q := GoDiv(s * m, m);
    if q < s {
      assert s * m - q * m == m * (s - q);
      MulMonotone(m, s - q);
    } else if q > s {
      assert q * m - s * m == m * (q - s);
      MulMonotone(m, q - s);
    }
  }

  /** A size converted to bytes and back is the size itself, for every unit in the table. */
  lemma RoundTrip(size: int, unit: string, units: UnitTable)
    requires ValidUnits(units) && unit in units
    ensures ToBytes(size, unit, units).Some?
    ensures FromBytes(ToBytes(size, unit, units).value, unit, units) == size
  {
    MulDivCancel(size, units[unit]);
  }
}
