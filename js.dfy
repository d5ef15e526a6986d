/** JavaScript values as the store's code sees them after JSON parsing, with
    the truthiness, `||` and property-key coercion the code relies on. */
module JsValues {

  /** A scalar JSON value; a field missing from a record reads as `Undef`. */
  datatype RawValue = Undef | Null | Bool(b: bool) | Num(n: int) | Str(s: string)

  /** The only exception kind the modelled code raises by itself. */
  datatype JsError = TypeError

  datatype Result<+T, +E> = Ok(value: T) | Err(error: E)

  /** JavaScript truthiness: undefined, null, false, 0 and "" are falsy. */
  predicate Truthy(v: RawValue) {
    match v
    case Undef => false
    case Null => false
    case Bool(b) => b
    case Num(n) => n != 0
    case Str(s) => s != ""
  }

  /** `a || b` yields one of its operands, and is truthy when either is. */
  function Or(a: RawValue, b: RawValue): (r: RawValue)
    ensures Truthy(a) ==> r == a
    ensures !Truthy(a) ==> r == b
    ensures Truthy(r) <==> Truthy(a) || Truthy(b)
  {
    if Truthy(a) then a else b
  }

  /** undefined and null: reading any property of them throws a TypeError. */
  predicate Nullish(v: RawValue) {
    v == Undef || v == Null
  }

  function DigitChar(d: nat): (c: char)
    requires d < 10
    ensures '0' <= c <= '9'
  {
    ('0' as int + d) as char
  }

  /** Decimal notation of a natural number, most significant digit first. */
  function Digits(n: nat): (r: string)
    ensures r != []
    ensures forall i :: 0 <= i < |r| ==> '0' <= r[i] <= '9'
    decreases n
  {
    (if n < 10 then [] else Digits(n / 10)) + [DigitChar(n % 10)]
  }

  /** The key a value becomes when it indexes an object, i.e. `String(v)`. */
  function PropertyKey(v: RawValue): (k: string)
    ensures v.Str? ==> k == v.s
    ensures !v.Str? ==> k != ""
  {
    match v
    case Undef => "undefined"
    case Null => "null"
    case Bool(b) => if b then "true" else "false"
    case Num(n) => if n < 0 then "-" + Digits(-n) else Digits(n)
    case Str(s) => s
  }

  /** A single digit exactly for the numbers below ten. */
  lemma DigitsSingle(n: nat)
    ensures |Digits(n)| == 1 <==> n < 10
  {
    if n >= 10 {
      assert |Digits(n)| == |Digits(n / 10)| + 1;
    }
  }

  /** Different natural numbers have different decimal notations. */
  lemma {:induction false} DigitsInjective(m: nat, n: nat)
    requires Digits(m) == Digits(n)
    ensures m == n
    decreases m
  {
    var dm, dn := Digits(m), Digits(n);
    assert dm[|dm| - 1] == DigitChar(m % 10);
    assert dn[|dn| - 1] == DigitChar(n % 10);
    DigitsSingle(m);
    DigitsSingle(n);
    if m >= 10 {
      assert dm[..|dm| - 1] == Digits(m / 10);
      assert dn[..|dn| - 1] == Digits(n / 10);
      DigitsInjective(m / 10, n / 10);
    }
  }

  /** The key of a number starts with a minus sign exactly when it is negative. */
  lemma NumKeySign(n: int)
    ensures PropertyKey(Num(n))[0] == '-' <==> n < 0
  {
    if n >= 0 {
      assert '0' <= Digits(n)[0] <= '9';
    }
  }

  /** Different numbers index different properties: `String` is injective on
      the integers, so the sign and every digit are kept. */
  lemma NumKeysDistinct(m: int, n: int)
    requires PropertyKey(Num(m)) == PropertyKey(Num(n))
    ensures m == n
  {
    NumKeySign(m);
    NumKeySign(n);
    if m < 0 {
      var k := PropertyKey(Num(m));
      assert k[1..] == Digits(-m) && k[1..] == Digits(-n);
      DigitsInjective(-m, -n);
    } else {
      DigitsInjective(m, n);
    }
  }
}
