/** Terraform attribute values and the JSON-like request bodies built from them. */
module Tf {

  /** A Terraform attribute: null, unknown until apply, or known. */
  datatype Value<+T> = Null | Unknown | Known(value: T)

  /** Go's `ValueString()`, `ValueInt64()`, `ValueBool()`: the zero value unless known. */
  function ValueOr<T>(v: Value<T>, zero: T): T {
    if v.Known? then v.value else zero
  }

  function Str(v: Value<string>): string {
    ValueOr(v, "")
  }

  function Int(v: Value<int>): int {
    ValueOr(v, 0)
  }

  function Bool(v: Value<bool>): bool {
    ValueOr(v, false)
  }

  /** A JSON value as sent to or received from the ONTAP REST API. */
  datatype Json =
    | JNull
    | JStr(s: string)
    | JInt(i: int)
    | JBool(b: bool)
    | JList(items: seq<Json>)
    | JObj(fields: map<string, Json>)

  /** An encoded request body or response record; a key is present iff the field was assigned. */
  type Body = map<string, Json>

  /** Assigns `key` when `cond` holds and leaves the body alone otherwise. */
  function PutIf(b: Body, cond: bool, key: string, v: Json): (r: Body)
    ensures key in r <==> cond || key in b
    ensures cond ==> r[key] == v
    ensures forall k :: k in b && k != key ==> k in r && r[k] == b[k]
    ensures forall k :: k in r && k != key ==> k in b
    ensures !cond ==> r == b
  {
    if cond then b[key := v] else b
  }

  /** One `omitempty` field: present only when it is not the zero value. */
  function Field(key: string, nonZero: bool, v: Json): (b: Body)
    ensures key in b <==> nonZero
    ensures nonZero ==> b[key] == v
    ensures forall k :: k in b ==> k == key
  {
    if nonZero then map[key := v] else map[]
  }

  /** `ValueString()` of each element of a list attribute. */
  function Strs(vs: seq<Value<string>>): (r: seq<string>)
    ensures |r| == |vs|
    ensures forall i :: 0 <= i < |vs| ==> r[i] == Str(vs[i])
  {
    if |vs| == 0 then [] else [Str(vs[0])] + Strs(vs[1..])
  }

  /** `types.StringValue` of each element: a list attribute of known strings. */
  function Knowns(xs: seq<string>): (r: seq<Value<string>>)
    ensures |r| == |xs|
    ensures forall i :: 0 <= i < |xs| ==> r[i] == Known(xs[i])
  {
    if |xs| == 0 then [] else [Known(xs[0])] + Knowns(xs[1..])
  }

  /** Reading back the strings of a list of known strings gives the strings. */
  lemma KnownsStrs(xs: seq<string>)
    ensures Strs(Knowns(xs)) == xs
  {
  }

  function JStrs(xs: seq<string>): (r: seq<Json>)
    ensures |r| == |xs|
    ensures forall i :: 0 <= i < |xs| ==> r[i] == JStr(xs[i])
  {
    if |xs| == 0 then [] else [JStr(xs[0])] + JStrs(xs[1..])
  }

  function JInts(xs: seq<int>): (r: seq<Json>)
    ensures |r| == |xs|
    ensures forall i :: 0 <= i < |xs| ==> r[i] == JInt(xs[i])
  {
    if |xs| == 0 then [] else [JInt(xs[0])] + JInts(xs[1..])
  }

  // ---------------------------------------------------------------- attribute-driven bodies

  /** Terraform values lifted to JSON, keeping null and unknown. */
  function LiftStr(v: Value<string>): (r: Value<Json>)
    ensures (r.Null? <==> v.Null?) && (r.Unknown? <==> v.Unknown?)
    ensures v.Known? ==> r == Known(JStr(v.value))
  {
    match v case Null => Null case Unknown => Unknown case Known(x) => Known(JStr(x))
  }

  function LiftBool(v: Value<bool>): (r: Value<Json>)
    ensures (r.Null? <==> v.Null?) && (r.Unknown? <==> v.Unknown?)
    ensures v.Known? ==> r == Known(JBool(v.value))
  {
    match v case Null => Null case Unknown => Unknown case Known(x) => Known(JBool(x))
  }

  function LiftInt(v: Value<int>): (r: Value<Json>)
    ensures (r.Null? <==> v.Null?) && (r.Unknown? <==> v.Unknown?)
    ensures v.Known? ==> r == Known(JInt(v.value))
  {
    match v case Null => Null case Unknown => Unknown case Known(x) => Known(JInt(x))
  }

  /** Lifting loses nothing: two attributes differ exactly when their lifts do. */
  lemma LiftInjective()
    ensures forall a: Value<string>, b: Value<string> :: LiftStr(a) == LiftStr(b) <==> a == b
    ensures forall a: Value<bool>, b: Value<bool> :: LiftBool(a) == LiftBool(b) <==> a == b
    ensures forall a: Value<int>, b: Value<int> :: LiftInt(a) == LiftInt(b) <==> a == b
  {
  }

  /**
   * One body field, drawn from an attribute of the model: its JSON key, the attribute,
   * and the zero value `ValueString()`/`ValueBool()`/`ValueInt64()` yields
   * when the attribute is not known.
   */
  datatype Attr = Attr(key: string, value: Value<Json>, zero: Json)

  /** What is sent for an attribute: its value, or the zero value. */
  function Encoded(a: Attr): Json {
    ValueOr(a.value, a.zero)
  }

  /** Attributes of each plain type, with Go's zero value. */
  function B(key: string, v: Value<bool>): Attr { Attr(key, LiftBool(v), JBool(false)) }
  function S(key: string, v: Value<string>): Attr { Attr(key, LiftStr(v), JStr("")) }
  function I(key: string, v: Value<int>): Attr { Attr(key, LiftInt(v), JInt(0)) }

  /** An attribute that is assigned unconditionally. */
  function Always(key: string, v: Json): Attr { Attr(key, Known(v), v) }

  /** A nested object, always encoded when sent. */
  function Obj(key: string, fields: Body): Attr { Always(key, JObj(fields)) }

  /** Each flag of `a` and of `b`. */
  function And(a: seq<bool>, b: seq<bool>): (r: seq<bool>)
    requires |a| == |b|
    ensures |r| == |a| && forall i :: 0 <= i < |a| ==> (r[i] <==> a[i] && b[i])
  {
    if |a| == 0 then [] else [a[0] && b[0]] + And(a[1..], b[1..])
  }

  predicate DistinctKeys(attrs: seq<Attr>) {
    forall i, j :: 0 <= i < j < |attrs| ==> attrs[i].key != attrs[j].key
  }

  predicate Distinct(ks: seq<string>) {
    forall i, j :: 0 <= i < j < |ks| ==> ks[i] != ks[j]
  }

  /** Attributes whose keys are, position by position, those of a list of distinct keys, starting at `from`. */
  lemma KeysFrom(attrs: seq<Attr>, keys: seq<string>, from: nat)
    requires from + |attrs| <= |keys| && Distinct(keys)
    requires forall i :: 0 <= i < |attrs| ==> attrs[i].key == keys[from + i]
    ensures DistinctKeys(attrs)
  {
    forall i, j | 0 <= i < j < |attrs| ensures attrs[i].key != attrs[j].key {
      assert keys[from + i] != keys[from + j];
    }
  }

  /** Assigns, in order, each attribute for which `send` holds. */
  function PutWhere(b: Body, attrs: seq<Attr>, send: seq<bool>): (r: Body)
    requires |send| == |attrs| && DistinctKeys(attrs)
    ensures forall i :: 0 <= i < |attrs| ==> (attrs[i].key in r <==> attrs[i].key in b || send[i])
    ensures forall i :: 0 <= i < |attrs| && send[i] ==> r[attrs[i].key] == Encoded(attrs[i])
    ensures forall i :: 0 <= i < |attrs| && !send[i] && attrs[i].key in b ==> r[attrs[i].key] == b[attrs[i].key]
    ensures forall k :: k in b && (forall i :: 0 <= i < |attrs| ==> attrs[i].key != k) ==> k in r && r[k] == b[k]
    ensures forall k :: k in r ==> k in b || exists i :: 0 <= i < |attrs| && attrs[i].key == k
    decreases |attrs|
  {
    if |attrs| == 0 then b
    else
      assert forall i :: 1 <= i < |attrs| ==> attrs[i] == attrs[1..][i - 1];
      assert forall i :: 1 <= i < |attrs| ==> send[i] == send[1..][i - 1];
      PutWhere(PutIf(b, send[0], attrs[0].key, Encoded(attrs[0])), attrs[1..], send[1..])
  }

  /** Assigning attributes whose keys are new leaves the rest of the body alone. */
  lemma PutWhereExtends(b: Body, attrs: seq<Attr>, send: seq<bool>)
    requires |send| == |attrs| && DistinctKeys(attrs)
    requires forall i :: 0 <= i < |attrs| ==> attrs[i].key !in b
    ensures Extends(PutWhere(b, attrs, send), b, attrs)
  {
    var r := PutWhere(b, attrs, send);
    forall k | k in b ensures k in r && r[k] == b[k] {
      assert forall i :: 0 <= i < |attrs| ==> attrs[i].key != k;
    }
  }

  /** Assigns exactly the attributes flagged in `send` to a body that has none of their keys. */
  function Put(b: Body, attrs: seq<Attr>, send: seq<bool>): (r: Body)
    requires |send| == |attrs| && DistinctKeys(attrs)
    requires forall i :: 0 <= i < |attrs| ==> attrs[i].key !in b
    ensures SendsWhere(r, attrs, send) && Extends(r, b, attrs)
  {
    PutWhereExtends(b, attrs, send);
    PutWhere(b, attrs, send)
  }

  /** The attribute is not unknown: the `if !x.IsUnknown()` guard. */
  function NotUnknown(attrs: seq<Attr>): (r: seq<bool>)
    ensures |r| == |attrs|
    ensures forall i :: 0 <= i < |attrs| ==> (r[i] <==> !attrs[i].value.Unknown?)
  {
    if |attrs| == 0 then [] else [!attrs[0].value.Unknown?] + NotUnknown(attrs[1..])
  }

  /** The attribute is not null: the `if !x.IsNull()` guard. */
  function NotNull(attrs: seq<Attr>): (r: seq<bool>)
    ensures |r| == |attrs|
    ensures forall i :: 0 <= i < |attrs| ==> (r[i] <==> !attrs[i].value.Null?)
  {
    if |attrs| == 0 then [] else [!attrs[0].value.Null?] + NotNull(attrs[1..])
  }

  /** The plan attribute is not unknown and differs from the state one: the changed-field guard. */
  function Changed(plan: seq<Attr>, state: seq<Value<Json>>): (r: seq<bool>)
    requires |state| == |plan|
    ensures |r| == |plan|
    ensures forall i :: 0 <= i < |plan| ==> (r[i] <==> !plan[i].value.Unknown? && plan[i].value != state[i])
  {
    if |plan| == 0 then [] else [!plan[0].value.Unknown? && plan[0].value != state[0]] + Changed(plan[1..], state[1..])
  }

  function Values(attrs: seq<Attr>): (r: seq<Value<Json>>)
    ensures |r| == |attrs|
    ensures forall i :: 0 <= i < |attrs| ==> r[i] == attrs[i].value
  {
    if |attrs| == 0 then [] else [attrs[0].value] + Values(attrs[1..])
  }

  predicate IsKey(attrs: seq<Attr>, k: string) {
    exists i :: 0 <= i < |attrs| && attrs[i].key == k
  }

  /** Every attribute not unknown is sent with its encoded value, and only those. */
  predicate SendsUnlessUnknown(b: Body, attrs: seq<Attr>) {
    forall i :: 0 <= i < |attrs| ==>
      (attrs[i].key in b <==> !attrs[i].value.Unknown?) &&
      (attrs[i].key in b ==> b[attrs[i].key] == Encoded(attrs[i]))
  }

  /** Every attribute not null is sent with its encoded value, and only those. */
  predicate SendsUnlessNull(b: Body, attrs: seq<Attr>) {
    forall i :: 0 <= i < |attrs| ==>
      (attrs[i].key in b <==> !attrs[i].value.Null?) &&
      (attrs[i].key in b ==> b[attrs[i].key] == Encoded(attrs[i]))
  }

  /** Every plan attribute that is not unknown and differs from its state value is sent, and only those. */
  predicate SendsChanged(b: Body, plan: seq<Attr>, state: seq<Value<Json>>)
    requires |state| == |plan|
  {
    forall i :: 0 <= i < |plan| ==>
      (plan[i].key in b <==> !plan[i].value.Unknown? && plan[i].value != state[i]) &&
      (plan[i].key in b ==> b[plan[i].key] == Encoded(plan[i]))
  }

  /** Exactly the attributes flagged in `send` are sent, each with its encoded value. */
  predicate SendsWhere(b: Body, attrs: seq<Attr>, send: seq<bool>)
    requires |send| == |attrs|
  {
    forall i :: 0 <= i < |attrs| ==>
      (attrs[i].key in b <==> send[i]) && (attrs[i].key in b ==> b[attrs[i].key] == Encoded(attrs[i]))
  }

  /** Two bodies with no key in common merge without either losing an entry. */
  lemma MergeDisjoint(a: Body, b: Body)
    requires a.Keys !! b.Keys
    ensures forall k :: k in a ==> k in a + b && (a + b)[k] == a[k]
    ensures forall k :: k in b ==> k in a + b && (a + b)[k] == b[k]
    ensures (a + b).Keys == a.Keys + b.Keys
  {
  }

  /** `r` holds every entry of `b`; keys outside `attrs` are those of `b`, unchanged. */
  predicate Extends(r: Body, b: Body, attrs: seq<Attr>) {
    (forall k :: k in b ==> k in r && r[k] == b[k]) &&
    (forall k :: k in r ==> k in b || IsKey(attrs, k))
  }

  /** Bodies that agree on the attribute keys send the same attributes. */
  predicate AgreeOn(r: Body, b: Body, attrs: seq<Attr>) {
    forall i :: 0 <= i < |attrs| ==>
      (attrs[i].key in r <==> attrs[i].key in b) &&
      (attrs[i].key in b ==> r[attrs[i].key] == b[attrs[i].key])
  }

  /** One attribute of a body built with the non-null guard. */
  lemma SendsAt(b: Body, attrs: seq<Attr>, i: nat)
    requires SendsUnlessNull(b, attrs) && i < |attrs| && !attrs[i].value.Null?
    ensures attrs[i].key in b && b[attrs[i].key] == Encoded(attrs[i])
  {
  }

  /** One attribute of a body built with explicit flags. */
  lemma SendsWhereAt(b: Body, attrs: seq<Attr>, send: seq<bool>, i: nat)
    requires |send| == |attrs| && SendsWhere(b, attrs, send) && i < |attrs|
    ensures attrs[i].key in b <==> send[i]
    ensures attrs[i].key in b ==> b[attrs[i].key] == Encoded(attrs[i])
  {
  }

  lemma SendsFrame(r: Body, b: Body, attrs: seq<Attr>)
    requires AgreeOn(r, b, attrs)
    ensures SendsUnlessUnknown(b, attrs) ==> SendsUnlessUnknown(r, attrs)
    ensures SendsUnlessNull(b, attrs) ==> SendsUnlessNull(r, attrs)
    ensures forall send: seq<bool> :: |send| == |attrs| && SendsWhere(b, attrs, send) ==> SendsWhere(r, attrs, send)
    ensures forall sup: seq<bool> :: |sup| == |attrs| && SendsGated(b, attrs, sup) ==> SendsGated(r, attrs, sup)
  {
  }

  /** The `if !x.IsUnknown() { body.X = x.ValueX() }` pattern over a list of attributes. */
  function PutUnlessUnknown(b: Body, attrs: seq<Attr>): (r: Body)
    requires DistinctKeys(attrs) && forall i :: 0 <= i < |attrs| ==> attrs[i].key !in b
    ensures SendsUnlessUnknown(r, attrs) && Extends(r, b, attrs)
  {
    var r := Put(b, attrs, NotUnknown(attrs));
    WhereNotUnknown(r, attrs);
    r
  }

  lemma WhereNotUnknown(r: Body, attrs: seq<Attr>)
    requires SendsWhere(r, attrs, NotUnknown(attrs))
    ensures SendsUnlessUnknown(r, attrs)
  {
    var send := NotUnknown(attrs);
    forall i | 0 <= i < |attrs|
      ensures (attrs[i].key in r <==> !attrs[i].value.Unknown?) && (attrs[i].key in r ==> r[attrs[i].key] == Encoded(attrs[i]))
    {
      assert send[i] <==> !attrs[i].value.Unknown?;
    }
  }

  /** The `if !x.IsNull() { body.X = x.ValueX() }` pattern over a list of attributes. */
  function PutUnlessNull(b: Body, attrs: seq<Attr>): (r: Body)
    requires DistinctKeys(attrs) && forall i :: 0 <= i < |attrs| ==> attrs[i].key !in b
    ensures SendsUnlessNull(r, attrs) && Extends(r, b, attrs)
  {
    var r := Put(b, attrs, NotNull(attrs));
    WhereNotNull(r, attrs);
    r
  }

  lemma WhereNotNull(r: Body, attrs: seq<Attr>)
    requires SendsWhere(r, attrs, NotNull(attrs))
    ensures SendsUnlessNull(r, attrs)
  {
    var send := NotNull(attrs);
    forall i | 0 <= i < |attrs|
      ensures (attrs[i].key in r <==> !attrs[i].value.Null?) && (attrs[i].key in r ==> r[attrs[i].key] == Encoded(attrs[i]))
    {
      assert send[i] <==> !attrs[i].value.Null?;
    }
  }

  /** The `if !plan.X.IsUnknown() && plan.X != state.X` pattern over a list of attributes. */
  function PutChanged(b: Body, plan: seq<Attr>, state: seq<Value<Json>>): (r: Body)
    requires |state| == |plan|
    requires DistinctKeys(plan) && forall i :: 0 <= i < |plan| ==> plan[i].key !in b
    ensures SendsChanged(r, plan, state) && Extends(r, b, plan)
  {
    var r := Put(b, plan, Changed(plan, state));
    PutChangedSends(r, plan, state);
    r
  }

  lemma PutChangedSends(r: Body, plan: seq<Attr>, state: seq<Value<Json>>)
    requires |state| == |plan|
    requires SendsWhere(r, plan, Changed(plan, state))
    ensures SendsChanged(r, plan, state)
  {
    var send := Changed(plan, state);
    forall i | 0 <= i < |plan|
      ensures (plan[i].key in r <==> !plan[i].value.Unknown? && plan[i].value != state[i])
      ensures plan[i].key in r ==> r[plan[i].key] == Encoded(plan[i])
    {
      assert send[i] <==> !plan[i].value.Unknown? && plan[i].value != state[i];
    }
  }

  lemma {:induction false} PutWhereNothing(b: Body, attrs: seq<Attr>, send: seq<bool>)
    requires |send| == |attrs| && DistinctKeys(attrs)
    requires forall i :: 0 <= i < |send| ==> !send[i]
    ensures PutWhere(b, attrs, send) == b
    decreases |attrs|
  {
    if |attrs| > 0 {
      assert forall i :: 1 <= i < |attrs| ==> attrs[i] == attrs[1..][i - 1];
      assert forall i :: 1 <= i < |send| ==> send[i] == send[1..][i - 1];
      PutWhereNothing(b, attrs[1..], send[1..]);
    }
  }

  /** A changed-field body built from a plan equal to the state adds nothing. */
  lemma ChangedNothing(b: Body, attrs: seq<Attr>)
    requires DistinctKeys(attrs) && forall i :: 0 <= i < |attrs| ==> attrs[i].key !in b
    ensures PutChanged(b, attrs, Values(attrs)) == b
  {
    var vs := Values(attrs);
    var send := Changed(attrs, vs);
    forall i | 0 <= i < |send| ensures !send[i] {
      assert vs[i] == attrs[i].value;
    }
    PutWhereNothing(b, attrs, send);
    assert PutChanged(b, attrs, vs) == PutWhere(b, attrs, send);
  }

  /** A string field of a typed update request: the plan's value when it changed, else Go's empty string. */
  function IfChanged(p: Value<string>, s: Value<string>): (r: string)
    ensures p == s ==> r == ""
    ensures p != s ==> r == Str(p)
  {
    if p != s then Str(p) else ""
  }

  // ---------------------------------------------------------------- version-gated attributes

  /** A set attribute is sent when the cluster supports it: the version-gate guard. */
  function Gated(attrs: seq<Attr>, supported: seq<bool>): (r: seq<bool>)
    requires |supported| == |attrs|
    ensures |r| == |attrs|
    ensures forall i :: 0 <= i < |attrs| ==> (r[i] <==> !attrs[i].value.Null? && supported[i])
  {
    if |attrs| == 0 then [] else [!attrs[0].value.Null? && supported[0]] + Gated(attrs[1..], supported[1..])
  }

  /** The names reported for set attributes the cluster does not support, in attribute order. */
  function Unsupported(attrs: seq<Attr>, supported: seq<bool>): (r: seq<string>)
    requires |supported| == |attrs|
    ensures forall k :: k in r <==>
      exists i :: 0 <= i < |attrs| && attrs[i].key == k && !attrs[i].value.Null? && !supported[i]
    ensures |r| <= |attrs|
  {
    if |attrs| == 0 then []
    else
      var rest := Unsupported(attrs[1..], supported[1..]);
      assert forall i :: 1 <= i < |attrs| ==> attrs[i] == attrs[1..][i - 1] && supported[i] == supported[1..][i - 1];
      (if !attrs[0].value.Null? && !supported[0] then [attrs[0].key] else []) + rest
  }

  /** Every set and supported attribute is sent with its encoded value, and only those. */
  predicate SendsGated(b: Body, attrs: seq<Attr>, supported: seq<bool>)
    requires |supported| == |attrs|
  {
    forall i :: 0 <= i < |attrs| ==>
      (attrs[i].key in b <==> !attrs[i].value.Null? && supported[i]) &&
      (attrs[i].key in b ==> b[attrs[i].key] == Encoded(attrs[i]))
  }

  /** `if !x.IsNull() && supported { body.X = x.ValueX() } else if !x.IsNull() { errors = append(errors, name) }`. */
  function PutGated(b: Body, attrs: seq<Attr>, supported: seq<bool>): (r: Body)
    requires |supported| == |attrs|
    requires DistinctKeys(attrs) && forall i :: 0 <= i < |attrs| ==> attrs[i].key !in b
    ensures SendsGated(r, attrs, supported) && Extends(r, b, attrs)
  {
    PutGatedSends(b, attrs, supported);
    PutWhere(b, attrs, Gated(attrs, supported))
  }

  lemma PutGatedSends(b: Body, attrs: seq<Attr>, supported: seq<bool>)
    requires |supported| == |attrs|
    requires DistinctKeys(attrs) && forall i :: 0 <= i < |attrs| ==> attrs[i].key !in b
    ensures SendsGated(PutWhere(b, attrs, Gated(attrs, supported)), attrs, supported)
    ensures Extends(PutWhere(b, attrs, Gated(attrs, supported)), b, attrs)
  {
    PutWhereExtends(b, attrs, Gated(attrs, supported));
    var send := Gated(attrs, supported);
    var r := PutWhere(b, attrs, send);
    forall i | 0 <= i < |attrs|
      ensures (attrs[i].key in r <==> !attrs[i].value.Null? && supported[i])
      ensures attrs[i].key in r ==> r[attrs[i].key] == Encoded(attrs[i])
    {
      assert send[i] <==> !attrs[i].value.Null? && supported[i];
    }
  }

  /** Nothing is reported exactly when every set attribute is supported. */
  lemma {:induction false} UnsupportedEmpty(attrs: seq<Attr>, supported: seq<bool>)
    requires |supported| == |attrs|
    ensures Unsupported(attrs, supported) == [] <==> forall i :: 0 <= i < |attrs| ==> attrs[i].value.Null? || supported[i]
    decreases |attrs|
  {
    if |attrs| > 0 {
      UnsupportedEmpty(attrs[1..], supported[1..]);
      assert forall i :: 1 <= i < |attrs| ==> attrs[i] == attrs[1..][i - 1] && supported[i] == supported[1..][i - 1];
    }
  }

  /** When every attribute is supported, gating is the plain non-null guard. */
  lemma GatedAllSupported(b: Body, attrs: seq<Attr>, supported: seq<bool>)
    requires |supported| == |attrs| && forall i :: 0 <= i < |attrs| ==> supported[i]
    ensures forall r: Body :: SendsGated(r, attrs, supported) <==> SendsUnlessNull(r, attrs)
  {
  }

  /** `n` copies of one verdict: the same version gate for every attribute. */
  function Repeat(x: bool, n: nat): (r: seq<bool>)
    ensures |r| == n && forall i :: 0 <= i < n ==> r[i] == x
  {
    if n == 0 then [] else [x] + Repeat(x, n - 1)
  }

  function Keys(attrs: seq<Attr>): (r: seq<string>)
    ensures |r| == |attrs| && forall i :: 0 <= i < |attrs| ==> r[i] == attrs[i].key
  {
    if |attrs| == 0 then [] else [attrs[0].key] + Keys(attrs[1..])
  }

  /** With every attribute set and none supported, every key is reported, in order. */
  lemma {:induction false} UnsupportedAll(attrs: seq<Attr>, supported: seq<bool>)
    requires |supported| == |attrs|
    requires forall i :: 0 <= i < |attrs| ==> !attrs[i].value.Null? && !supported[i]
    ensures Unsupported(attrs, supported) == Keys(attrs)
    decreases |attrs|
  {
    if |attrs| > 0 {
      assert forall i :: 1 <= i < |attrs| ==> attrs[i] == attrs[1..][i - 1] && supported[i] == supported[1..][i - 1];
      UnsupportedAll(attrs[1..], supported[1..]);
      assert Keys(attrs) == [attrs[0].key] + Keys(attrs[1..]);
    }
  }
}
