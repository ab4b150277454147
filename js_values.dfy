/**
  * JavaScript values as the two admin UIs see them: the optional and nullable
  * numeric fields of server records, the truthiness tests the code applies to
  * them, and the handful of string operations the code calls
  * (`toLowerCase`, `includes`, `parseInt`).
  */
module JsValues {

  datatype Option<+T> = None | Some(value: T)

  /** Truthiness of an optional number (an id, a position): absent and 0 are falsy. */
  predicate TruthyNum(o: Option<int>) {
    o.Some? && o.value != 0
  }

  /** Truthiness of an optional string: absent and "" are falsy. */
  predicate TruthyStr(o: Option<string>) {
    o.Some? && o.value != ""
  }

  /**
    * The value of a numeric record field. `NaN` stands for every non-finite
    * result as well (a division by zero gives `NaN` here, where JavaScript
    * may give an infinity).
    */
  datatype Val = Undefined | Null | Num(n: real) | NaN {

    /** `!!v`: only a non-zero number is truthy. */
    predicate Truthy() {
      Num? && n != 0.0
    }

    /** A value `Number(...)` could have produced. */
    predicate IsNumber() {
      Num? || NaN?
    }
  }

  /** `Number(v)`: undefined becomes NaN, null becomes 0. */
  function ToNumber(v: Val): (r: Val)
    ensures r.IsNumber()
    ensures v.IsNumber() ==> r == v
    ensures v.Null? ==> r == Num(0.0)
    ensures v.Undefined? ==> r.NaN?
  {
    match v
    case Undefined => NaN
    case Null => Num(0.0)
    case Num(_) => v
    case NaN => NaN
  }

  /** `Number(v ?? 0)`: a missing value counts as 0. */
  function ToNumberOrZero(v: Val): (r: Val)
    ensures r.IsNumber()
    ensures r.NaN? <==> v.NaN?
    ensures v.Num? ==> r == v
    ensures !v.IsNumber() ==> r == Num(0.0)
  {
    if v.Undefined? || v.Null? then Num(0.0) else v
  }

  /** `Number(v || d)` for a number literal `d`: a falsy value becomes `d`. */
  function OrDefault(v: Val, d: real): (r: real)
    ensures v.Truthy() ==> r == v.n
    ensures !v.Truthy() ==> r == d
  {
    if v.Truthy() then v.n else d
  }

  /** `a + b` on two numbers. */
  function Add(a: Val, b: Val): (r: Val)
    ensures r.IsNumber()
    ensures a.Num? && b.Num? ==> r == Num(a.n + b.n)
    ensures !(a.Num? && b.Num?) ==> r.NaN?
  {
    if a.Num? && b.Num? then Num(a.n + b.n) else NaN
  }

  /** `a - b` on two numbers. */
  function Sub(a: Val, b: Val): (r: Val)
    ensures r.IsNumber()
    ensures a.Num? && b.Num? ==> r == Num(a.n - b.n)
    ensures !(a.Num? && b.Num?) ==> r.NaN?
  {
    if a.Num? && b.Num? then Num(a.n - b.n) else NaN
  }

  /** `a * b` on two numbers. */
  function Mul(a: Val, b: Val): (r: Val)
    ensures r.IsNumber()
    ensures a.Num? && b.Num? ==> r == Num(a.n * b.n)
    ensures !(a.Num? && b.Num?) ==> r.NaN?
  {
    if a.Num? && b.Num? then Num(a.n * b.n) else NaN
  }

  /** `a / b` on two numbers; a zero divisor gives a non-finite result. */
  function Div(a: Val, b: Val): (r: Val)
    ensures r.IsNumber()
    ensures a.Num? && b.Num? && b.n != 0.0 ==> r == Num(a.n / b.n)
    ensures !(a.Num? && b.Num? && b.n != 0.0) ==> r.NaN?
  {
    if a.Num? && b.Num? && b.n != 0.0 then Num(a.n / b.n) else NaN
  }

  /** `a === b`: numbers compare by value (`NaN` equals nothing), `null` and `undefined` only themselves. */
  predicate StrictEquals(a: Val, b: Val) {
    (a.Num? && b.Num? && a.n == b.n) || (a.Null? && b.Null?) || (a.Undefined? && b.Undefined?)
  }

  // ---------------------------------------------------------------------
  // Strings
  // ---------------------------------------------------------------------

  predicate IsUpperAscii(c: char) {
    'A' <= c <= 'Z'
  }

  /** `toLowerCase` on one character (ASCII letters only). */
  function LowerChar(c: char): (r: char)
    ensures !IsUpperAscii(r)
    ensures !IsUpperAscii(c) ==> r == c
  {
    if IsUpperAscii(c) then (c as int + 32) as char else c
  }

  /** `s.toLowerCase()` (ASCII letters only). */
  function Lower(s: string): (r: string)
    ensures |r| == |s|
    ensures forall i :: 0 <= i < |s| ==> r[i] == LowerChar(s[i])
  {
    if s == [] then [] else [LowerChar(s[0])] + Lower(s[1..])
  }

  /** `toUpperCase` on one character (ASCII letters only). */
  function UpperChar(c: char): (r: char)
    ensures !('a' <= r <= 'z')
    ensures !('a' <= c <= 'z') ==> r == c
  {
    if 'a' <= c <= 'z' then (c as int - 32) as char else c
  }

  /** `s.toUpperCase()` (ASCII letters only). */
  function Upper(s: string): (r: string)
    ensures |r| == |s|
    ensures forall i :: 0 <= i < |s| ==> r[i] == UpperChar(s[i])
  {
    if s == [] then [] else [UpperChar(s[0])] + Upper(s[1..])
  }

  /** `s.includes(t)`: `t` occurs in `s` as a contiguous substring. */
  predicate Contains(s: string, t: string)
    decreases |s|
  {
    t <= s || (s != [] && Contains(s[1..], t))
  }

  /** Every character of a string found in `u` is a character of `u`; here: none is a capital. */
  lemma {:induction false} ContainedHasNoUpper(u: string, t: string)
    requires forall j :: 0 <= j < |u| ==> !IsUpperAscii(u[j])
    requires Contains(u, t)
    ensures forall k :: 0 <= k < |t| ==> !IsUpperAscii(t[k])
  {
    if t <= u {
      assert forall k :: 0 <= k < |t| ==> t[k] == u[k];
    } else {
      ContainedHasNoUpper(u[1..], t);
    }
  }

  /** A lower-cased string never contains an ASCII capital, so no string holding one occurs in it. */
  lemma LowerContainsNoUpper(s: string, t: string)
    requires exists k :: 0 <= k < |t| && IsUpperAscii(t[k])
    ensures !Contains(Lower(s), t)
  {
    if Contains(Lower(s), t) {
      ContainedHasNoUpper(Lower(s), t);
    }
  }

  predicate IsDigit(c: char) {
    '0' <= c <= '9'
  }

  /** The run of decimal digits `parseInt(s, 10)` reads from the start of `s`. */
  function LeadingDigits(s: string): (r: string)
    ensures r <= s
    ensures forall i :: 0 <= i < |r| ==> IsDigit(r[i])
    ensures |r| < |s| ==> !IsDigit(s[|r|])
  {
    if s != [] && IsDigit(s[0]) then [s[0]] + LeadingDigits(s[1..]) else []
  }

  function DigitValue(c: char): (r: nat)
    requires IsDigit(c)
  {
    c as int - '0' as int
  }

  function DigitsValue(d: string): (r: nat)
    requires forall i :: 0 <= i < |d| ==> IsDigit(d[i])
  {
    if d == [] then 0 else DigitsValue(d[..|d| - 1]) * 10 + DigitValue(d[|d| - 1])
  }

  /** `parseInt(s, 10)` for a string that starts with a digit. */
  function ParseInt(s: string): (r: nat)
    requires s != [] && IsDigit(s[0])
  {
    DigitsValue(LeadingDigits(s))
  }
}
