/**
 * The JavaScript values that list items and their keys are made of, with the
 * three pieces of JavaScript semantics the list relies on: truthiness,
 * string-to-number conversion and the loose equality operator `==`.
 *
 * Numbers are integers (measured pixel sizes, indices and numeric keys);
 * NaN, fractions and infinities are not modelled.
 */
module JsValues {
  import opened Wrappers

  datatype Value =
    | Undefined
    | Null
    | Bool(b: bool)
    | Num(n: int)
    | Str(s: string)
    | Obj(props: map<string, Value>)

  /** JavaScript truthiness (ToBoolean). */
  predicate Truthy(v: Value) {
    match v
    case Undefined => false
    case Null => false
    case Bool(b) => b
    case Num(n) => n != 0
    case Str(s) => s != ""
    case Obj(_) => true
  }

  predicate IsDigit(c: char) { '0' <= c <= '9' }

  predicate AllDigits(s: string) {
    forall i :: 0 <= i < |s| ==> IsDigit(s[i])
  }

  /** The decimal value of a string of digits, most significant first. */
  function DigitsValue(s: string): nat
    requires AllDigits(s)
  {
    if s == [] then 0
    else DigitsValue(s[..|s| - 1]) * 10 + (s[|s| - 1] - '0') as nat
  }

  /**
   * ToNumber on strings: the empty string is 0, an optional sign followed by
   * decimal digits is that integer, anything else is NaN (None). Surrounding
   * white space, fractions, exponents and hexadecimal are not modelled.
   */
  function ToNumber(s: string): (r: Option<int>)
    ensures s == "" ==> r == Some(0)
    ensures s != "" && AllDigits(s) ==> r == Some(DigitsValue(s))
  {
    if s == [] then Some(0)
    else if AllDigits(s) then Some(DigitsValue(s))
    else if s[0] == '-' && |s| > 1 && AllDigits(s[1..]) then Some(-(DigitsValue(s[1..]) as int))
    else if s[0] == '+' && |s| > 1 && AllDigits(s[1..]) then Some(DigitsValue(s[1..]))
    else None
  }

  /** The ToString of a plain object, used when an object meets a primitive under `==`. */
  const ObjectString: string := "[object Object]"

  /**
   * JavaScript's abstract (loose) equality `a == b`. Objects are compared
   * structurally (the model has no object identity).
   */
  function LooseEquals(a: Value, b: Value): bool
    decreases (if a.Bool? || a.Obj? then 1 else 0) + (if b.Bool? || b.Obj? then 1 else 0)
  {
    match (a, b)
    case (Undefined, Undefined) => true
    case (Undefined, Null) => true
    case (Null, Undefined) => true
    case (Null, Null) => true
    case (Undefined, _) => false
    case (Null, _) => false
    case (_, Undefined) => false
    case (_, Null) => false
    case (Bool(x), _) => LooseEquals(Num(if x then 1 else 0), b)
    case (_, Bool(y)) => LooseEquals(a, Num(if y then 1 else 0))
    case (Num(x), Num(y)) => x == y
    case (Str(x), Str(y)) => x == y
    case (Num(x), Str(y)) => ToNumber(y) == Some(x)
    case (Str(x), Num(y)) => ToNumber(x) == Some(y)
    case (Obj(_), Obj(_)) => a == b
    case (Obj(_), _) => LooseEquals(Str(ObjectString), b)
    case (_, Obj(_)) => LooseEquals(a, Str(ObjectString))
  }

  /** Loose equality does not depend on the order of its operands. */
  lemma LooseEqualsSymmetric(a: Value, b: Value)
    ensures LooseEquals(a, b) == LooseEquals(b, a)
    decreases (if a.Bool? || a.Obj? then 1 else 0) + (if b.Bool? || b.Obj? then 1 else 0)
  {
    match (a, b)
    case (Bool(x), _) =>
      LooseEqualsSymmetric(Num(if x then 1 else 0), b);
    case (_, Bool(y)) =>
      LooseEqualsSymmetric(a, Num(if y then 1 else 0));
    case (Obj(_), Obj(_)) =>
    case (Obj(_), _) =>
      LooseEqualsSymmetric(Str(ObjectString), b);
    case (_, Obj(_)) =>
      LooseEqualsSymmetric(a, Str(ObjectString));
    case _ =>
  }

  /** The decimal digits of a natural number, as `String(n)` writes them. */
  function NatToString(n: nat): (s: string)
    ensures AllDigits(s) && s != ""
    decreases n
  {
    if n < 10 then [('0' as int + n) as char]
    else NatToString(n / 10) + [('0' as int + n % 10) as char]
  }

  /** `String(n)` for an integer. */
  function IntToString(n: int): string {
    if n < 0 then "-" + NatToString(-n) else NatToString(n)
  }

  lemma {:induction false} DigitsOfNatToString(n: nat)
    ensures DigitsValue(NatToString(n)) == n
    decreases n
  {
    var s := NatToString(n);
    if n >= 10 {
      DigitsOfNatToString(n / 10);
      assert s[..|s| - 1] == NatToString(n / 10);
    }
  }

  /**
   * A numeric key and the string that a `data-key` attribute holds for it are
   * loosely equal: `n == String(n)`. This is why a key read back from the DOM
   * still finds its item.
   */
  lemma NumberKeyEqualsItsAttribute(n: int)
    ensures LooseEquals(Num(n), Str(IntToString(n)))
  {
    if n < 0 {
      DigitsOfNatToString(-n);
      var s := IntToString(n);
      assert s[1..] == NatToString(-n);
      assert !AllDigits(s) by { assert !IsDigit(s[0]); }
    } else {
      DigitsOfNatToString(n);
    }
  }

  /** `0 == ""` holds in JavaScript: an empty attribute loosely equals the key 0. */
  lemma ZeroEqualsEmptyString()
    ensures LooseEquals(Num(0), Str(""))
    ensures !LooseEquals(Num(0), Undefined)
  {
  }
}
