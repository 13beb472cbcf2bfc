/** JSON values as the gateway adapter sees them, with the handful of
    JavaScript semantics the adapter relies on: truthiness, property lookup,
    `a || b` chains, object spread, and the `String()` and `Number()`
    coercions. Numbers are integers (amounts are in minor units). */
module JsValue {
  import opened Wrappers

  datatype Json =
    | Null
    | Bool(b: bool)
    | Num(n: int)
    | Str(s: string)
    | Arr(elems: seq<Json>)
    | Obj(fields: map<string, Json>)

  /** JavaScript truthiness of a value that may be `undefined` (None):
      `undefined`, `null`, `false`, `0` and `""` are falsy, everything else
      (including every array and every object) is truthy. */
  predicate Truthy(v: Option<Json>)
  {
    match v
    case None => false
    case Some(Null) => false
    case Some(Bool(b)) => b
    case Some(Num(n)) => n != 0
    case Some(Str(s)) => s != ""
    case Some(Arr(_)) => true
    case Some(Obj(_)) => true
  }

  /** Property read `v.key`. The adapter only reads fixed, non-numeric keys
      other than `length`, and for those every value that is not an object
      answers `undefined`. */
  function Get(v: Json, key: string): Option<Json>
  {
    match v
    case Obj(fields) => if key in fields then Some(fields[key]) else None
    case _ => None
  }

  /** Reading a present key of an object. */
  lemma GetField(v: Json, key: string)
    requires v.Obj? && key in v.fields
    ensures Get(v, key) == Some(v.fields[key])
  {
  }

  /** `a || b`: `a` when it is truthy, else `b`. */
  function Or(a: Option<Json>, b: Json): Json
  {
    if Truthy(a) then a.value else b
  }

  /** `c0 || c1 || ... || fallback`: the first truthy candidate, else the
      fallback. */
  function FirstTruthy(cands: seq<Option<Json>>, fallback: Json): (r: Json)
    ensures (forall i | 0 <= i < |cands| :: !Truthy(cands[i])) ==> r == fallback
    ensures forall i | 0 <= i < |cands| && Truthy(cands[i]) ::
              (forall j | 0 <= j < i :: !Truthy(cands[j])) ==> r == cands[i].value
    ensures (exists i | 0 <= i < |cands| :: Truthy(cands[i])) ==> Truthy(Some(r))
  {
    if cands == [] then fallback else Or(cands[0], FirstTruthy(cands[1..], fallback))
  }

  /** One step of the chain from candidate `i` on. */
  lemma FirstTruthyFrom(cands: seq<Option<Json>>, i: nat, fallback: Json)
    requires i < |cands|
    ensures FirstTruthy(cands[i..], fallback) == Or(cands[i], FirstTruthy(cands[i + 1..], fallback))
  {
    assert cands[i..][1..] == cands[i + 1..];
  }

  // Decimal digits

  predicate IsDigit(c: char)
  {
    '0' <= c <= '9'
  }

  predicate AllDigits(s: string)
  {
    forall i | 0 <= i < |s| :: IsDigit(s[i])
  }

  /** A key under which object spread stores an array or string element. */
  predicate IsIndexKey(k: string)
  {
    k != "" && AllDigits(k)
  }

  function DigitChar(d: nat): (c: char)
    requires d < 10
    ensures IsDigit(c)
  {
    ('0' as int + d) as char
  }

  function DigitValue(c: char): nat
    requires IsDigit(c)
  {
    c as int - '0' as int
  }

  /** The decimal numeral of `n`, as JavaScript prints a non-negative integer. */
  function Decimal(n: nat): (s: string)
    ensures IsIndexKey(s)
  {
    if n < 10 then [DigitChar(n)] else Decimal(n / 10) + [DigitChar(n % 10)]
  }

  /** The value of a numeral made of decimal digits (leading zeros allowed). */
  function ParseDecimal(s: string): nat
    requires AllDigits(s)
  {
    if s == [] then 0 else ParseDecimal(s[..|s| - 1]) * 10 + DigitValue(s[|s| - 1])
  }

  lemma {:induction false} ParseDecimalOfDecimal(n: nat)
    ensures ParseDecimal(Decimal(n)) == n
  {
    var s := Decimal(n);
    if n >= 10 {
      assert s[..|s| - 1] == Decimal(n / 10);
      ParseDecimalOfDecimal(n / 10);
    }
  }

  lemma DecimalInjective()
    ensures forall i: nat, j: nat :: Decimal(i) == Decimal(j) ==> i == j
  {
    forall i: nat, j: nat | Decimal(i) == Decimal(j) ensures i == j {
      ParseDecimalOfDecimal(i);
      ParseDecimalOfDecimal(j);
    }
  }

  // String() coercion

  /** `String(n)` for an integer-valued number. */
  function NumberToString(n: int): string
  {
    if n < 0 then "-" + Decimal(-n) else Decimal(n)
  }

  /** `String(v)`: arrays join their elements with commas, writing `null`
      elements as empty strings; an object prints the default
      "[object Object]" tag. An object whose own `toString` key shadows the
      default method (JavaScript then throws a TypeError) is not told apart:
      it prints the same tag here. */
  function ToJsString(v: Json): string
    decreases v
  {
    match v
    case Null => "null"
    case Bool(b) => if b then "true" else "false"
    case Num(n) => NumberToString(n)
    case Str(s) => s
    case Arr(xs) => JoinElements(xs)
    case Obj(_) => "[object Object]"
  }

  function JoinElements(xs: seq<Json>): string
    decreases xs
  {
    if xs == [] then ""
    else
      var head := if xs[0].Null? then "" else ToJsString(xs[0]);
      if |xs| == 1 then head else head + "," + JoinElements(xs[1..])
  }

  // Number() coercion; None stands for NaN

  /** `Number(s)` for the strings the model covers: the empty string is 0,
      a numeral of decimal digits is its value, anything else is NaN. */
  function StrToNumber(s: string): (r: Option<int>)
    ensures r.Some? ==> r.value >= 0
  {
    if s == "" then Some(0)
    else if AllDigits(s) then Some(ParseDecimal(s))
    else None
  }

  /** `Number(v)` for a value that may be `undefined`. Arrays and objects
      are first printed with `String()`, as JavaScript does. */
  function ToNumber(v: Option<Json>): Option<int>
  {
    match v
    case None => None
    case Some(Null) => Some(0)
    case Some(Bool(b)) => Some(if b then 1 else 0)
    case Some(Num(n)) => Some(n)
    case Some(Str(s)) => StrToNumber(s)
    case Some(j) => StrToNumber(ToJsString(j))
  }

  // Object spread

  /** The own enumerable properties that `{...v}` copies: an object's
      fields, an array's elements and a string's characters under their
      index keys, and nothing for `null`, booleans and numbers. */
  function Spread(v: Json): (m: map<string, Json>)
    ensures v.Obj? ==> m == v.fields
    ensures !v.Obj? ==> forall k | k in m :: IsIndexKey(k)
    ensures v.Arr? ==> forall i | 0 <= i < |v.elems| :: Decimal(i) in m && m[Decimal(i)] == v.elems[i]
    ensures v.Str? ==> forall i | 0 <= i < |v.s| :: Decimal(i) in m && m[Decimal(i)] == Str([v.s[i]])
    ensures v.Arr? ==> forall k | k in m :: exists i | 0 <= i < |v.elems| :: k == Decimal(i)
    ensures v.Str? ==> forall k | k in m :: exists i | 0 <= i < |v.s| :: k == Decimal(i)
    ensures !(v.Obj? || v.Arr? || v.Str?) ==> m == map[]
  {
    match v
    case Obj(fields) => fields
    case Arr(xs) =>
      DecimalInjective();
      map i | 0 <= i < |xs| :: Decimal(i) := xs[i]
    case Str(s) =>
      DecimalInjective();
      map i | 0 <= i < |s| :: Decimal(i) := Str([s[i]])
    case _ => map[]
  }

  /** Reading a non-index key through a spread copy reads the original. */
  lemma GetSpread(v: Json, k: string)
    requires !IsIndexKey(k)
    ensures Get(Obj(Spread(v)), k) == Get(v, k)
  {
  }
}
