/** The pieces of Go's language and standard library the handlers depend on:
    `strconv.Atoi` (by a specification, not its implementation), the integer to
    string conversion `T(n)` for a string type `T`, and `url.Values.Get`. */
module GoStd {
  import opened Wrappers
  import opened Model

  predicate IsDigit(c: char)
  {
    '0' <= c <= '9'
  }

  predicate AllDigits(s: string)
  {
    forall i :: 0 <= i < |s| ==> IsDigit(s[i])
  }

  function DigitChar(d: nat): (c: char)
    requires d < 10
    ensures IsDigit(c)
  {
    ('0' as int + d) as char
  }

  /** The number an ASCII decimal digit string denotes. */
  function DigitsValue(s: string): nat
    requires AllDigits(s)
    decreases |s|
  {
    if s == [] then 0 else DigitsValue(s[..|s| - 1]) * 10 + ((s[|s| - 1] as int) - ('0' as int))
  }

  /** `strconv.Atoi` on a 64-bit platform: an optional `+` or `-`, then one or
      more ASCII digits, denoting a value in the `int` (64-bit) range; anything
      else (the empty string, spaces, underscores, an overflow) is an error. */
  function Atoi(s: string): (r: Option<int>)
    ensures r.Some? ==> MinInt64 <= r.value <= MaxInt64
    ensures r.Some? ==> exists i :: 0 <= i < |s| && IsDigit(s[i])
  {
    var signed := |s| > 0 && (s[0] == '+' || s[0] == '-');
    var digits := if signed then s[1..] else s;
    if digits == [] || !AllDigits(digits) then None
    else
      assert IsDigit(s[if signed then 1 else 0]);
      var magnitude: int := DigitsValue(digits);
      var v: int := if signed && s[0] == '-' then -magnitude else magnitude;
      if MinInt64 <= v <= MaxInt64 then Some(v) else None
  }

  /** Decimal digits of a natural number, most significant first. */
  function Digits(n: nat): (s: string)
    ensures |s| >= 1 && AllDigits(s)
    decreases n
  {
    if n < 10 then [DigitChar(n)] else Digits(n / 10) + [DigitChar(n % 10)]
  }

  /** `strconv.Itoa`, the inverse of `Atoi` on the `int` range. */
  function Itoa(n: int): string
  {
    if n < 0 then "-" + Digits(-n) else Digits(n)
  }

  lemma {:induction false} DigitsValueOfDigits(n: nat)
    ensures DigitsValue(Digits(n)) == n
    decreases n
  {
    if n >= 10 {
      DigitsValueOfDigits(n / 10);
      var s := Digits(n);
      assert s[..|s| - 1] == Digits(n / 10);
    }
  }

  /** Parsing the decimal form of any 64-bit integer gives that integer back;
      the decimal form of any integer outside that range is refused. */
  lemma AtoiItoa(n: int)
    ensures Atoi(Itoa(n)) == if MinInt64 <= n <= MaxInt64 then Some(n) else None
  {
    var s := Itoa(n);
    if n < 0 {
      var d := Digits(-n);
      DigitsValueOfDigits(-n);
      assert s[0] == '-' && s[1..] == d;
    } else {
      DigitsValueOfDigits(n);
      assert IsDigit(s[0]);
    }
  }

  /** Inputs `Atoi` rejects, and two it accepts that are not in `Itoa` form. */
  lemma AtoiExamples()
    ensures Atoi("") == None && Atoi("abc") == None && Atoi("+") == None
    ensures Atoi(" 1") == None && Atoi("1_000") == None
    ensures Atoi("-12") == Some(-12) && Atoi("+007") == Some(7)
  {
    assert !IsDigit("abc"[0]);
    assert !IsDigit(" 1"[0]);
    assert !IsDigit("1_000"[1]);
    assert "-12"[1..] == "12" && "12"[..1] == "1";
    assert "+007"[1..] == "007" && "007"[..2] == "00" && "00"[..1] == "0";
  }

  /** The replacement character U+FFFD. */
  const ReplacementChar: char := '\U{FFFD}'

  /** A Unicode scalar value: a code point that is not a surrogate. */
  predicate IsScalarValue(n: int)
  {
    0 <= n < 0xD800 || 0xE000 <= n <= 0x10FFFF
  }

  /** Go's conversion of an integer to a string type: a string holding exactly
      one rune, the integer itself when it is a valid code point and U+FFFD
      otherwise. It is not a lookup of the n-th enumeration constant. */
  function RuneString(n: int): (s: string)
    ensures |s| == 1
    ensures IsScalarValue(n) ==> s[0] as int == n
    ensures !IsScalarValue(n) ==> s[0] == ReplacementChar
  {
    if IsScalarValue(n) then [n as char] else [ReplacementChar]
  }

  /** Because every enumeration constant has more than one character, the
      converted string of ANY integer is none of them. */
  lemma RuneStringIsNoConstant(n: int)
    ensures RuneString(n) !in AllHealths
    ensures RuneString(n) !in AllTypes
  {
    ConstantsLongerThanOneRune();
  }

  /** `url.Values.Get`: the first value stored for `key`, or "" when there is none. */
  function QueryGet(query: map<string, seq<string>>, key: string): (v: string)
    ensures key !in query || query[key] == [] ==> v == ""
    ensures key in query && query[key] != [] ==> v == query[key][0]
  {
    if key in query && |query[key]| > 0 then query[key][0] else ""
  }
}
