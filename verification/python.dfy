/**
 * The Python built-ins the shape reader applies to RDF terms: `int()` of a
 * term's string form, `str.lower()` as used to read a boolean flag, and the
 * two exceptions that escape the reader when a value does not fit.
 */
module Python {
  import opened Rdf

  /** An exception the reader does not catch. */
  datatype Failure =
    | NotAnInteger(value: Term)   // `int(value)` raises ValueError
    | NoLanguage(value: Term)     // reading the language tag of `value` raises AttributeError

  /** A computation that either produces a value or raises. */
  datatype Result<T> = Success(value: T) | Failure(error: Failure)
  {
    predicate IsFailure() {
      Failure?
    }

    function PropagateFailure<U>(): Result<U>
      requires Failure?
    {
      Failure(error)
    }

    function Extract(): T
      requires Success?
    {
      value
    }
  }

  predicate IsDigit(c: char) {
    '0' <= c <= '9'
  }

  predicate AllDigits(s: string) {
    forall i :: 0 <= i < |s| ==> IsDigit(s[i])
  }

  /** The value of a string of decimal digits, most significant first. */
  function DigitsValue(s: string): nat
    requires AllDigits(s)
  {
    if s == [] then 0 else DigitsValue(s[..|s| - 1]) * 10 + (s[|s| - 1] as int - '0' as int)
  }

  /** `int(s)`: an optional sign followed by at least one decimal digit. */
  function PyInt(s: string): Option<int> {
    if |s| > 1 && (s[0] == '-' || s[0] == '+') && AllDigits(s[1..]) then
      var m: int := DigitsValue(s[1..]);
      Some(if s[0] == '-' then -m else m)
    else if |s| > 0 && AllDigits(s) then Some(DigitsValue(s))
    else None
  }

  /** `int(t)` of a term: its string form converted, or a `ValueError`. */
  function IntOf(t: Term): Result<int> {
    match PyInt(Str(t))
    case Some(i) => Success(i)
    case None => Failure(NotAnInteger(t))
  }

  /** The decimal digits of `n`, most significant first, as `str(n)` writes them. */
  function Digits(n: nat): (r: string)
    ensures AllDigits(r) && |r| > 0
  {
    if n < 10 then [('0' as int + n) as char] else Digits(n / 10) + [('0' as int + n % 10) as char]
  }

  /** `str(i)` of an integer. */
  function Decimal(i: int): string {
    if i < 0 then "-" + Digits(-i) else Digits(i)
  }

  /** Reading the digits back gives the number. */
  lemma {:induction false} DigitsRoundTrip(n: nat)
    ensures DigitsValue(Digits(n)) == n
  {
    if n >= 10 {
      var d := Digits(n);
      assert d[..|d| - 1] == Digits(n / 10);
      DigitsRoundTrip(n / 10);
    }
  }

  /** `int(str(i)) == i`: the conversion reads back every integer `str` writes. */
  lemma IntRoundTrip(i: int)
    ensures PyInt(Decimal(i)) == Some(i)
  {
    if i < 0 {
      DigitsRoundTrip(-i);
      assert Decimal(i)[1..] == Digits(-i);
    } else {
      DigitsRoundTrip(i);
    }
  }

  /** `str.lower()` on one character; only ASCII letters are folded here. */
  function LowerChar(c: char): char {
    if 'A' <= c <= 'Z' then (c as int - 'A' as int + 'a' as int) as char else c
  }

  function Lower(s: string): (r: string)
    ensures |r| == |s|
  {
    if s == [] then [] else Lower(s[..|s| - 1]) + [LowerChar(s[|s| - 1])]
  }

  /** `str(t).lower() == "true"`: how the reader decides a boolean flag. */
  predicate IsTrue(t: Term) {
    Lower(Str(t)) == "true"
  }

  /** Lower-casing each position on its own: the result is the string of folded characters. */
  lemma {:induction false} LowerPointwise(s: string)
    ensures forall i :: 0 <= i < |s| ==> Lower(s)[i] == LowerChar(s[i])
  {
    if s != [] {
      LowerPointwise(s[..|s| - 1]);
    }
  }

  /** A flag reads true exactly when its text is "true" in any mix of cases. */
  lemma IsTrueCases(t: Term)
    ensures IsTrue(t) <==> |Str(t)| == 4 && Str(t)[0] in "tT" && Str(t)[1] in "rR" && Str(t)[2] in "uU" && Str(t)[3] in "eE"
  {
    LowerPointwise(Str(t));
    if |Str(t)| == 4 && Str(t)[0] in "tT" && Str(t)[1] in "rR" && Str(t)[2] in "uU" && Str(t)[3] in "eE" {
      assert Lower(Str(t)) == "true";
    }
  }
}
