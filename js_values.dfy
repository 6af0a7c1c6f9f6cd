// The slice of JavaScript's value model that the bridge observes: truthiness,
// `typeof x === 'object'`, property keys and `String(x)`.
module JsValues {

  datatype Option<+T> = None | Some(value: T)

  /**
   * A property key: a string; a registered symbol (`Symbol.for(description)`),
   * equal to every other with its description; or a unique symbol
   * (`Symbol(description)`), equal only to itself, told apart by an identity.
   */
  datatype Key = StrKey(name: string) | SymKey(description: string) | UniqueSym(identity: nat)

  /**
   * A structured-clonable JavaScript value. Numbers are integers (floating point,
   * NaN and -0 are not modelled); `Fun` is a function value carrying its source text.
   */
  datatype Value =
    | Undefined
    | Null
    | Bool(b: bool)
    | Num(n: int)
    | BigInt(big: int)
    | Str(s: string)
    | Arr(elems: seq<Value>)
    | Obj(props: map<Key, Value>)
    | Fun(source: string)

  /** `!!v` */
  predicate Truthy(v: Value) {
    match v
    case Undefined => false
    case Null => false
    case Bool(b) => b
    case Num(n) => n != 0
    case BigInt(n) => n != 0
    case Str(s) => s != ""
    case _ => true
  }

  /** `v === null || v === undefined`, the test behind `??` */
  predicate Nullish(v: Value) {
    v.Undefined? || v.Null?
  }

  /** `typeof v === 'object'` (null and arrays included) */
  predicate TypeofObject(v: Value) {
    v.Null? || v.Arr? || v.Obj?
  }

  /** `key in v` for an object-typed `v`: arrays own no symbol or named keys modelled here. */
  predicate HasKey(v: Value, key: Key) {
    match v
    case Obj(props) => key in props
    case _ => false
  }

  /**
   * `o[key]` for an object whose own properties are `props`: the property's value,
   * or undefined when it has none (no prototype chain is modelled).
   */
  function Get(props: map<Key, Value>, key: Key): (v: Value)
    ensures key in props ==> v == props[key]
    ensures key !in props ==> v == Undefined
  {
    if key in props then props[key] else Undefined
  }

  function Digit(d: nat): char
    requires d < 10
  {
    "0123456789"[d]
  }

  function NatToString(n: nat): (s: string)
    ensures |s| >= 1
    ensures forall k :: 0 <= k < |s| ==> '0' <= s[k] <= '9'
  {
    if n < 10 then [Digit(n)] else NatToString(n / 10) + [Digit(n % 10)]
  }

  /** A string of decimal digits. */
  predicate AllDigits(s: string) {
    forall k :: 0 <= k < |s| ==> '0' <= s[k] <= '9'
  }

  /** The value of a string of decimal digits, most significant first. */
  function DigitsValue(s: string): nat
    requires AllDigits(s)
  {
    if s == [] then 0 else DigitsValue(s[..|s| - 1]) * 10 + (s[|s| - 1] as int - '0' as int)
  }

  /** An integer numeral: digits, with a leading '-' for a negative value. */
  predicate IsNumeral(s: string) {
    if |s| >= 1 && s[0] == '-' then |s| >= 2 && AllDigits(s[1..]) else |s| >= 1 && AllDigits(s)
  }

  /** The integer a numeral denotes. */
  function NumeralValue(s: string): int
    requires IsNumeral(s)
  {
    if s[0] == '-' then -(DigitsValue(s[1..]) as int) else DigitsValue(s)
  }

  /** Reading back the digits `NatToString` writes gives the number. */
  lemma {:induction false} NatToStringRoundTrip(n: nat)
    ensures AllDigits(NatToString(n)) && DigitsValue(NatToString(n)) == n
  {
    var s := NatToString(n);
    if n >= 10 {
      NatToStringRoundTrip(n / 10);
      assert s[..|s| - 1] == NatToString(n / 10);
    }
    var d := if n < 10 then n else n % 10;
    assert s[|s| - 1] == Digit(d);
    assert Digit(d) as int - '0' as int == d by {
      assert d in {0, 1, 2, 3, 4, 5, 6, 7, 8, 9};
    }
  }

  /** `String(n)` for an integer `n`: its decimal numeral, which denotes `n`. */
  function Numeral(n: int): (s: string)
    ensures IsNumeral(s) && NumeralValue(s) == n
  {
    NatToStringRoundTrip(if n < 0 then -n else n);
    if n < 0 then
      var digits := NatToString(-n);
      assert ("-" + digits)[1..] == digits;
      "-" + digits
    else
      var digits := NatToString(n);
      assert digits[0] != '-';
      digits
  }

  /**
   * `String(v)` for a plain value: a string is itself, a number or BigInt its
   * decimal numeral (no `n` suffix), the other primitives their keyword, objects
   * `[object Object]`, and an array the join of its elements.
   */
  function JsString(v: Value): (s: string)
    ensures v.Str? ==> s == v.s
    ensures v.Num? ==> IsNumeral(s) && NumeralValue(s) == v.n
    ensures v.BigInt? ==> IsNumeral(s) && NumeralValue(s) == v.big
    ensures v.Undefined? || v.Null? || v.Bool? || v.Obj? ==> s != "" && !IsNumeral(s)
  {
    match v
    case Undefined => "undefined"
    case Null => "null"
    case Bool(b) => if b then "true" else "false"
    case Num(n) => Numeral(n)
    case BigInt(n) => Numeral(n)
    case Str(s) => s
    case Arr(elems) => JoinElements(elems)
    case Obj(_) => "[object Object]"
    case Fun(source) => source
  }

  /** `Array.prototype.join(',')`: null and undefined elements print as "". */
  function JoinElements(elems: seq<Value>): string
    decreases elems
  {
    if elems == [] then ""
    else
      var first := if Nullish(elems[0]) then "" else JsString(elems[0]);
      if |elems| == 1 then first else first + "," + JoinElements(elems[1..])
  }

  /** A native `Error` instance; an absent `cause` is `Undefined`, an absent stack `None`. */
  datatype ErrorObject = ErrorObject(name: string, message: string, cause: Value, stack: Option<string>)

  /** What a `throw` (or a rejected promise) carries: an `Error` instance or any other value. */
  datatype Thrown = ThrownError(error: ErrorObject) | ThrownValue(value: Value)

  /** How a call of a JavaScript function ends. */
  datatype Completion = Returned(result: Value) | Threw(thrown: Thrown)
}
