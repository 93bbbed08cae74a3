/**
 * The pieces of Go's standard library the core relies on for text:
 * the `%d` verb and `strconv.Itoa`, `strconv.Atoi` and `strconv.ParseBool`
 * (whose errors the configuration loader discards), `strings.Contains`,
 * and the `[]byte(s)` conversion, which is UTF-8 encoding.
 */
module GoStrings {

  import opened Wrappers

  type Byte = b: int | 0 <= b < 256

  const MinInt64: int := -0x8000_0000_0000_0000
  const MaxInt64: int := 0x7FFF_FFFF_FFFF_FFFF
  const MaxUint64: int := 0xFFFF_FFFF_FFFF_FFFF

  predicate IsDigit(c: char) {
    '0' <= c <= '9'
  }

  predicate AllDigits(s: string) {
    forall i :: 0 <= i < |s| ==> IsDigit(s[i])
  }

  function DigitChar(d: nat): (c: char)
    requires d < 10
    ensures IsDigit(c) && DigitValue(c) == d
  {
    ((48 + d) as char)
  }

  function DigitValue(c: char): (d: nat)
    requires IsDigit(c)
    ensures d < 10
  {
    c as int - 48
  }

  /** Decimal digits of a non-negative number, most significant first, no leading zeros. */
  function Digits(n: nat): (s: string)
    ensures 1 <= |s| && AllDigits(s)
    ensures n == 0 <==> s == "0"
    ensures n > 0 ==> s[0] != '0'
  {
    if n < 10 then [DigitChar(n)] else Digits(n / 10) + [DigitChar(n % 10)]
  }

  /** `strconv.Itoa(n)`, the text the `%d` verb prints. */
  function Itoa(n: int): string {
    if n < 0 then "-" + Digits(-n) else Digits(n)
  }

  /** The number a string of decimal digits denotes. */
  function DigitsValue(s: string): nat
    requires AllDigits(s)
  {
    if s == [] then 0 else DigitsValue(s[..|s| - 1]) * 10 + DigitValue(s[|s| - 1])
  }

  lemma {:induction false} DigitsRoundTrip(n: nat)
    ensures DigitsValue(Digits(n)) == n
  {
    if n >= 10 {
      var s := Digits(n);
      assert s[..|s| - 1] == Digits(n / 10);
      DigitsRoundTrip(n / 10);
    }
  }

  /** Length of the run of decimal digits at the start of `s`. */
  function DigitSpan(s: string): (k: nat)
    ensures k <= |s| && AllDigits(s[..k])
    ensures k < |s| ==> !IsDigit(s[k])
  {
    if s == [] || !IsDigit(s[0]) then 0
    else
      var k := 1 + DigitSpan(s[1..]);
      assert s[..k] == [s[0]] + s[1..][..k - 1];
      k
  }

  /**
   * Reads an integer written as `Itoa` writes it (an optional minus sign and a
   * run of digits) from the front of `s`, returning it and the rest of `s`.
   */
  function ReadInt(s: string): (r: Option<(int, string)>) {
    var negative := |s| > 0 && s[0] == '-';
    var t := if negative then s[1..] else s;
    var k := DigitSpan(t);
    if k == 0 then None
    else
      var m: int := DigitsValue(t[..k]);
      Some((if negative then -m else m, t[k..]))
  }

  lemma {:induction false} DigitSpanOfDigits(d: string, rest: string)
    requires AllDigits(d)
    requires rest == [] || !IsDigit(rest[0])
    ensures DigitSpan(d + rest) == |d|
  {
    if d != [] {
      assert (d + rest)[1..] == d[1..] + rest;
      DigitSpanOfDigits(d[1..], rest);
    }
  }

  /** `ReadInt` recovers any number printed by `Itoa` when what follows is not a digit. */
  lemma ReadIntItoa(n: int, rest: string)
    requires rest == [] || !IsDigit(rest[0])
    ensures ReadInt(Itoa(n) + rest) == Some((n, rest))
  {
    var m: nat := if n < 0 then -n else n;
    var d := Digits(m);
    DigitSpanOfDigits(d, rest);
    DigitsRoundTrip(m);
    if n < 0 {
      assert (Itoa(n) + rest)[1..] == d + rest;
    }
    assert (d + rest)[..|d|] == d;
    assert (d + rest)[|d|..] == rest;
  }

  /** `strconv.Atoi` and `strconv.ParseBool` both return a value and an error flag. */
  datatype Parsed<T> = Parsed(value: T, ok: bool)

  /** What `strconv.Atoi` reads digits from: `s` without its leading sign, if any. */
  function AtoiBody(s: string): string {
    if |s| > 0 && (s[0] == '-' || s[0] == '+') then s[1..] else s
  }

  /** The number an optional sign and a run of digits denote. */
  function SignedValue(s: string): int
    requires AllDigits(AtoiBody(s))
  {
    var magnitude: int := DigitsValue(AtoiBody(s));
    if |s| > 0 && s[0] == '-' then -magnitude else magnitude
  }

  /**
   * `strconv.Atoi(s)` meets a range error: either the whole body is digits
   * naming a number outside the 64-bit range, or its leading run of digits
   * already exceeds 2^64 - 1 before a non-digit is reached (the unsigned
   * parser checks for overflow at each digit, so the syntax error behind it
   * is never seen).
   */
  predicate AtoiOverflows(s: string) {
    var body := AtoiBody(s);
    var k := DigitSpan(body);
    if k == |body| then
      body != [] && (if |s| > 0 && s[0] == '-' then DigitsValue(body) > -MinInt64 else DigitsValue(body) > MaxInt64)
    else DigitsValue(body[..k]) > MaxUint64
  }

  /**
   * `strconv.Atoi(s)`: an optional sign followed by at least one decimal digit.
   * A number outside the 64-bit range, or a leading run of digits beyond
   * 2^64 - 1, is a range error whose value is clamped to the bound of the
   * sign; anything else is a syntax error with value 0.
   */
  function Atoi(s: string): (r: Parsed<int>)
    ensures r.ok <==> AtoiBody(s) != [] && AllDigits(AtoiBody(s)) && !AtoiOverflows(s)
    ensures r.ok ==> r.value == SignedValue(s) && MinInt64 <= r.value <= MaxInt64
    ensures !r.ok && AtoiOverflows(s) ==> r.value == (if s[0] == '-' then MinInt64 else MaxInt64)
    ensures !r.ok && !AtoiOverflows(s) ==> r.value == 0
    ensures AtoiOverflows(s) ==> !r.ok
  {
    var negative := |s| > 0 && s[0] == '-';
    var body := AtoiBody(s);
    var k := DigitSpan(body);
    if body == [] then Parsed(0, false)
    else if k < |body| then
      if DigitsValue(body[..k]) > MaxUint64 then Parsed(if negative then MinInt64 else MaxInt64, false)
      else Parsed(0, false)
    else
      var magnitude: int := DigitsValue(body);
      var v := if negative then -magnitude else magnitude;
      if v < MinInt64 then Parsed(MinInt64, false)
      else if v > MaxInt64 then Parsed(MaxInt64, false)
      else Parsed(v, true)
  }

  /**
   * A run of digits beyond 2^64 - 1 followed by a non-digit is a range error
   * clamped to the largest 64-bit integer, not a syntax error.
   */
  lemma AtoiOverflowBeforeNonDigit(d: string, rest: string)
    requires AllDigits(d) && DigitsValue(d) > MaxUint64
    requires rest != [] && !IsDigit(rest[0])
    ensures AtoiOverflows(d + rest)
    ensures Atoi(d + rest) == Parsed(MaxInt64, false)
  {
    DigitSpanOfDigits(d, rest);
    assert d != [];
    assert IsDigit(d[0]);
    assert (d + rest)[0] == d[0];
    assert AtoiBody(d + rest) == d + rest;
    assert (d + rest)[..|d|] == d;
  }

  /** A plus sign, leading zeros and a negative zero are all accepted. */
  lemma AtoiOtherSpellings()
    ensures Atoi("+5") == Parsed(5, true)
    ensures Atoi("007") == Parsed(7, true)
    ensures Atoi("-0") == Parsed(0, true)
  {
    assert AtoiBody("+5") == "5" && DigitsValue("5") == 5;
    assert "007"[..2] == "00" && "00"[..1] == "0";
    assert DigitsValue("007") == 7;
    assert AtoiBody("-0") == "0" && DigitsValue("0") == 0;
  }

  /** `Atoi` reads back every 64-bit integer that `Itoa` prints. */
  lemma AtoiItoa(n: int)
    requires MinInt64 <= n <= MaxInt64
    ensures Atoi(Itoa(n)) == Parsed(n, true)
  {
    var m: nat := if n < 0 then -n else n;
    var d := Digits(m);
    if n < 0 {
      assert Itoa(n)[1..] == d;
    }
    assert AtoiBody(Itoa(n)) == d;
    DigitsRoundTrip(m);
    DigitSpanOfDigits(d, []);
    assert d + [] == d;
    assert !AtoiOverflows(Itoa(n));
    assert SignedValue(Itoa(n)) == n;
  }

  /** `strconv.ParseBool`: the six accepted spellings of each truth value; otherwise an error and false. */
  function ParseBool(s: string): (r: Parsed<bool>)
    ensures r.value ==> r.ok
  {
    if s in {"1", "t", "T", "TRUE", "true", "True"} then Parsed(true, true)
    else if s in {"0", "f", "F", "FALSE", "false", "False"} then Parsed(false, true)
    else Parsed(false, false)
  }

  /** `strings.HasPrefix`. */
  predicate HasPrefix(s: string, prefix: string) {
    |prefix| <= |s| && s[..|prefix|] == prefix
  }

  /** `strings.Contains`: does `sub` occur in `s` at some position (scanning left to right)? */
  predicate Contains(s: string, sub: string)
    decreases |s|
  {
    HasPrefix(s, sub) || (s != [] && Contains(s[1..], sub))
  }

  /** `sub` occurs in `s` starting at index `i`. */
  predicate OccursAt(s: string, sub: string, i: int) {
    0 <= i <= |s| - |sub| && s[i..i + |sub|] == sub
  }

  /** `Contains` holds exactly when `sub` is a slice of `s`. */
  lemma {:induction false} ContainsIff(s: string, sub: string)
    ensures Contains(s, sub) <==> exists i :: OccursAt(s, sub, i)
    decreases |s|
  {
    if s != [] {
      ContainsIff(s[1..], sub);
      if HasPrefix(s, sub) {
        assert OccursAt(s, sub, 0);
      }
      if Contains(s[1..], sub) {
        var i :| OccursAt(s[1..], sub, i);
        assert s[i + 1..i + 1 + |sub|] == s[1..][i..i + |sub|];
        assert OccursAt(s, sub, i + 1);
      }
      if exists i :: OccursAt(s, sub, i) {
        var i :| OccursAt(s, sub, i);
        if i > 0 {
          assert s[1..][i - 1..i - 1 + |sub|] == s[i..i + |sub|];
          assert OccursAt(s[1..], sub, i - 1);
        } else {
          assert HasPrefix(s, sub);
        }
      }
    } else {
      if Contains(s, sub) {
        assert OccursAt(s, sub, 0);
      }
      if exists i :: OccursAt(s, sub, i) {
        var i :| OccursAt(s, sub, i);
        assert sub == [] && HasPrefix(s, sub);
      }
    }
  }

  /** Anything that occurs in `b` occurs in `a + b + c`. */
  lemma ContainsMiddle(a: string, b: string, c: string)
    ensures Contains(a + b + c, b)
  {
    var s := a + b + c;
    assert s[|a|..|a| + |b|] == b;
    assert OccursAt(s, b, |a|);
    ContainsIff(s, b);
  }

  /** The UTF-8 bytes of one Unicode scalar value. */
  function Utf8Rune(c: char): (bs: seq<Byte>)
    ensures 1 <= |bs| <= 4
    ensures (c as int < 0x80) <==> |bs| == 1
  {
    var n := c as int;
    if n < 0x80 then [n]
    else if n < 0x800 then [0xC0 + n / 64, 0x80 + n % 64]
    else if n < 0x1_0000 then [0xE0 + n / 4096, 0x80 + (n / 64) % 64, 0x80 + n % 64]
    else [0xF0 + n / 262144, 0x80 + (n / 4096) % 64, 0x80 + (n / 64) % 64, 0x80 + n % 64]
  }

  /** `[]byte(s)`: a Go string is a UTF-8 byte sequence. */
  function Utf8(s: string): (bs: seq<Byte>)
    ensures |s| <= |bs| <= 4 * |s|
  {
    if s == [] then [] else Utf8Rune(s[0]) + Utf8(s[1..])
  }

  predicate IsAscii(s: string) {
    forall i :: 0 <= i < |s| ==> s[i] as int < 0x80
  }

  /** On ASCII text the bytes are the characters' codes, one byte per character. */
  lemma {:induction false} Utf8Ascii(s: string)
    requires IsAscii(s)
    ensures |Utf8(s)| == |s|
    ensures forall i :: 0 <= i < |s| ==> Utf8(s)[i] == s[i] as int
  {
    if s != [] {
      assert IsAscii(s[1..]) by {
        forall i | 0 <= i < |s[1..]| ensures s[1..][i] as int < 0x80 {
          assert s[1..][i] == s[i + 1];
        }
      }
      Utf8Ascii(s[1..]);
    }
  }
}
