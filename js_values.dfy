/**
 * The slice of JavaScript's value semantics that the gateway relies on: JSON-like values,
 * truthiness (`!x`, `x || y`), property access (`v.key`, `v?.[key]`) and `Object.entries`.
 * Only own properties are modelled; every key the gateway reads (`email`, `rates`, an
 * upper-cased currency code, ...) differs from the names of the built-in prototype members.
 */
module JsValues {
  import opened Options

  /** A JavaScript number, kept abstract: a finite value, NaN, or a signed infinity. */
  datatype Number = Finite(value: real) | NaN | Infinity(negative: bool)

  predicate IsFinite(n: Number) {
    n.Finite?
  }

  /** A JavaScript value as it appears in JSON payloads; an object lists its members in enumeration order. */
  datatype Value =
    | Undefined
    | Null
    | Bool(b: bool)
    | Num(n: Number)
    | Str(s: string)
    | Arr(items: seq<Value>)
    | Obj(members: seq<(string, Value)>)

  /** The values for which `!v` is true; every array and object is truthy, even an empty one. */
  predicate Falsy(v: Value)
    ensures Falsy(v) <==> v in {Undefined, Null, Bool(false), Num(Finite(0.0)), Num(NaN), Str("")}
  {
    match v
    case Undefined => true
    case Null => true
    case Bool(b) => !b
    case Num(n) => n == Finite(0.0) || n == NaN
    case Str(s) => s == ""
    case Arr(_) => false
    case Obj(_) => false
  }

  /** The values on which plain property access throws a TypeError. */
  predicate Nullish(v: Value) {
    v.Undefined? || v.Null?
  }

  /** JavaScript's `a || b`: the first operand unless it is falsy. */
  function Or(a: Value, b: Value): (r: Value)
    ensures Falsy(a) ==> r == b
    ensures !Falsy(a) ==> r == a
    ensures !Falsy(r) <==> !Falsy(a) || !Falsy(b)
  {
    if Falsy(a) then b else a
  }

  function Digit(d: nat): (c: char)
    requires d < 10
    ensures '0' <= c <= '9'
  {
    "0123456789"[d]
  }

  /** An optional header or query string as JavaScript reads it: undefined when absent. */
  function StringOrUndefined(o: Option<string>): Value {
    match o
    case None => Undefined
    case Some(t) => Str(t)
  }

  /** The canonical decimal spelling of an index, the property key of an array slot. */
  function DecimalString(n: nat): (s: string)
    ensures s != []
    ensures forall i :: 0 <= i < |s| ==> '0' <= s[i] <= '9'
    decreases n
  {
    if n < 10 then [Digit(n)] else DecimalString(n / 10) + [Digit(n % 10)]
  }

  /** The first index in `from .. len` whose key is `key`, if any. */
  function FindIndexFrom(key: string, from: nat, len: nat): (r: Option<nat>)
    requires from <= len
    ensures r.Some? ==> from <= r.value < len && DecimalString(r.value) == key
    ensures r.None? ==> forall i :: from <= i < len ==> DecimalString(i) != key
    decreases len - from
  {
    if from == len then None
    else if DecimalString(from) == key then Some(from)
    else FindIndexFrom(key, from + 1, len)
  }

  /** The slot of an array or string of length `len` that property key `key` names, if any. */
  function IndexKey(key: string, len: nat): (r: Option<nat>)
    ensures r.Some? ==> r.value < len && DecimalString(r.value) == key
    ensures r.None? ==> forall i :: 0 <= i < len ==> DecimalString(i) != key
    ensures forall i :: 0 <= i < len && DecimalString(i) == key ==> r == Some(i)
  {
    FindIndexExact(key, 0, len);
    FindIndexFrom(key, 0, len)
  }

  /** A key spelled like an index in range finds exactly that index, since spellings are distinct. */
  lemma FindIndexExact(key: string, from: nat, len: nat)
    requires from <= len
    ensures forall i :: from <= i < len && DecimalString(i) == key ==> FindIndexFrom(key, from, len) == Some(i)
  {
    forall i | from <= i < len && DecimalString(i) == key
      ensures FindIndexFrom(key, from, len) == Some(i)
    {
      var r := FindIndexFrom(key, from, len);
      if r.value != i {
        DecimalStringDistinct(r.value, i);
      }
    }
  }

  /** The value of the first member named `key`, or undefined when there is none. */
  function Lookup(members: seq<(string, Value)>, key: string): (r: Value)
    ensures (forall i :: 0 <= i < |members| ==> members[i].0 != key) ==> r == Undefined
    ensures forall i :: (0 <= i < |members| && members[i].0 == key &&
                         forall j :: 0 <= j < i ==> members[j].0 != key) ==> r == members[i].1
  {
    if members == [] then Undefined
    else if members[0].0 == key then members[0].1
    else Lookup(members[1..], key)
  }

  /** The value under a key that no earlier member carries. */
  lemma LookupAt(members: seq<(string, Value)>, i: nat, key: string)
    requires i < |members| && members[i].0 == key
    requires forall j :: 0 <= j < i ==> members[j].0 != key
    ensures Lookup(members, key) == members[i].1
  {
  }

  /** `v[key]` on a value that is neither undefined nor null (own properties only). */
  function Get(v: Value, key: string): (r: Value)
    requires !Nullish(v)
    ensures v.Obj? ==> r == Lookup(v.members, key)
    ensures v.Arr? && key == "length" ==> r == Num(Finite(|v.items| as real))
    ensures v.Str? && key == "length" ==> r == Num(Finite(|v.s| as real))
    ensures v.Arr? ==> forall i :: 0 <= i < |v.items| && key == DecimalString(i) ==> r == v.items[i]
    ensures v.Str? ==> forall i :: 0 <= i < |v.s| && key == DecimalString(i) ==> r == Str([v.s[i]])
    ensures v.Arr? && key != "length" && (forall i :: 0 <= i < |v.items| ==> DecimalString(i) != key) ==>
              r == Undefined
    ensures v.Str? && key != "length" && (forall i :: 0 <= i < |v.s| ==> DecimalString(i) != key) ==>
              r == Undefined
    ensures v.Bool? || v.Num? ==> r == Undefined
  {
    NotAnIndex("length");
    match v
    case Obj(ms) => Lookup(ms, key)
    case Arr(items) =>
      if key == "length" then Num(Finite(|items| as real))
      else (match IndexKey(key, |items|)
            case Some(i) => items[i]
            case None => Undefined)
    case Str(s) =>
      if key == "length" then Num(Finite(|s| as real))
      else (match IndexKey(key, |s|)
            case Some(i) => Str([s[i]])
            case None => Undefined)
    case _ => Undefined
  }

  /** Optional chaining `v?.[key]`: undefined instead of a TypeError on undefined or null. */
  function OptionalGet(v: Value, key: string): (r: Value)
    ensures Nullish(v) ==> r == Undefined
    ensures v.Obj? ==> r == Lookup(v.members, key)
    ensures v.Arr? ==> forall i :: 0 <= i < |v.items| && key == DecimalString(i) ==> r == v.items[i]
    ensures v.Str? ==> forall i :: 0 <= i < |v.s| && key == DecimalString(i) ==> r == Str([v.s[i]])
    ensures v.Arr? && key == "length" ==> r == Num(Finite(|v.items| as real))
    ensures v.Str? && key == "length" ==> r == Num(Finite(|v.s| as real))
    ensures v.Arr? && key != "length" && (forall i :: 0 <= i < |v.items| ==> DecimalString(i) != key) ==>
              r == Undefined
    ensures v.Str? && key != "length" && (forall i :: 0 <= i < |v.s| ==> DecimalString(i) != key) ==>
              r == Undefined
    ensures v.Bool? || v.Num? ==> r == Undefined
  {
    if Nullish(v) then Undefined else Get(v, key)
  }

  /** `Object.entries(v)`; None stands for the TypeError it throws on undefined and null. */
  function Entries(v: Value): (r: Option<seq<(string, Value)>>)
    ensures r.None? <==> Nullish(v)
    ensures v.Obj? ==> r == Some(v.members)
    ensures v.Arr? ==> r.Some? && |r.value| == |v.items| &&
                       forall i :: 0 <= i < |v.items| ==> r.value[i] == (DecimalString(i), v.items[i])
    ensures v.Str? ==> r.Some? && |r.value| == |v.s| &&
                       forall i :: 0 <= i < |v.s| ==> r.value[i] == (DecimalString(i), Str([v.s[i]]))
    ensures v.Bool? || v.Num? ==> r == Some([])
  {
    match v
    case Undefined => None
    case Null => None
    case Obj(ms) => Some(ms)
    case Arr(items) => Some(seq(|items|, i requires 0 <= i < |items| => (DecimalString(i), items[i])))
    case Str(s) => Some(seq(|s|, i requires 0 <= i < |s| => (DecimalString(i), Str([s[i]]))))
    case _ => Some([])
  }

  /** Every enumerated member can be read back through property access under its own key (arrays, strings). */
  lemma EntriesReadBack(v: Value, i: nat)
    requires v.Arr? || v.Str?
    requires Entries(v).Some? && i < |Entries(v).value|
    ensures Get(v, Entries(v).value[i].0) == Entries(v).value[i].1
  {
  }

  lemma {:induction false} DecimalStringDistinct(m: nat, n: nat)
    requires m != n
    ensures DecimalString(m) != DecimalString(n)
    decreases m + n
  {
    var a, b := DecimalString(m), DecimalString(n);
    if m < 10 && n < 10 {
      assert a[0] != b[0] by { DigitDistinct(m, n); }
    } else if m < 10 || n < 10 {
      assert |a| != |b| by { DecimalStringLong(if m < 10 then n else m); }
    } else if m % 10 != n % 10 {
      assert a[|a| - 1] != b[|b| - 1] by { DigitDistinct(m % 10, n % 10); }
    } else {
      assert m / 10 != n / 10;
      DecimalStringDistinct(m / 10, n / 10);
      assert a[..|a| - 1] == DecimalString(m / 10);
      assert b[..|b| - 1] == DecimalString(n / 10);
    }
  }

  /** A key that does not start with a digit, such as "length" or "rates", names no slot. */
  lemma NotAnIndex(key: string)
    requires key != [] && !('0' <= key[0] <= '9')
    ensures forall i: nat :: DecimalString(i) != key
  {
    forall i: nat ensures DecimalString(i) != key {
      assert '0' <= DecimalString(i)[0] <= '9';
    }
  }

  lemma DigitDistinct(m: nat, n: nat)
    requires m < 10 && n < 10 && m != n
    ensures Digit(m) != Digit(n)
  {
  }

  lemma DecimalStringLong(n: nat)
    requires n >= 10
    ensures |DecimalString(n)| >= 2
  {
  }
}
