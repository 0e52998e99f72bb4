/** Go strings. A Go string is a sequence of bytes; here it is a `string` with
    one `char` per byte, so a byte b is the char whose code is b. */
module GoText {
  import opened Wrappers

  /** A UTF-8 continuation byte, section 4 of RFC 3629. */
  predicate Continuation(c: char) {
    0x80 <= c as int <= 0xBF
  }

  /** The number of bytes of the well-formed UTF-8 sequence that starts s, or 0. */
  function Utf8Width(s: string): (n: nat)
    ensures n <= |s|
  {
    if s == [] then 0
    else
      var b := s[0] as int;
      if b <= 0x7F then 1
      else if 0xC2 <= b <= 0xDF then
        if |s| >= 2 && Continuation(s[1]) then 2 else 0
      else if 0xE0 <= b <= 0xEF then
        if |s| >= 3 && Continuation(s[1]) && Continuation(s[2])
           && (b == 0xE0 ==> s[1] as int >= 0xA0) && (b == 0xED ==> s[1] as int <= 0x9F)
        then 3 else 0
      else if 0xF0 <= b <= 0xF4 then
        if |s| >= 4 && Continuation(s[1]) && Continuation(s[2]) && Continuation(s[3])
           && (b == 0xF0 ==> s[1] as int >= 0x90) && (b == 0xF4 ==> s[1] as int <= 0x8F)
        then 4 else 0
      else 0
  }

  /** utf8.ValidString. */
  predicate ValidUtf8(s: string) {
    s == [] || (Utf8Width(s) > 0 && ValidUtf8(s[Utf8Width(s)..]))
  }

  lemma {:induction false} AsciiIsUtf8(s: string)
    requires forall i :: 0 <= i < |s| ==> s[i] as int <= 0x7F
    ensures ValidUtf8(s)
  {
    if s != [] {
      AsciiIsUtf8(s[1..]);
    }
  }

  /** strings.IndexByte: the first position of c, if any. */
  function IndexByte(s: string, c: char): (r: Option<nat>)
    ensures r.None? ==> c !in s
    ensures r.Some? ==> r.value < |s| && s[r.value] == c && c !in s[..r.value]
  {
    if s == [] then None
    else if s[0] == c then Some(0)
    else
      match IndexByte(s[1..], c)
      case None => None
      case Some(i) =>
        assert s[..i + 1] == [s[0]] + s[1..][..i];
        Some(i + 1)
  }

  /** The position IndexByte reports is the only one with its two properties. */
  lemma IndexByteIs(s: string, c: char, i: nat)
    requires i < |s| && s[i] == c && c !in s[..i]
    ensures IndexByte(s, c) == Some(i)
  {
    var r := IndexByte(s, c).value;
    assert forall j :: 0 <= j < i ==> s[..i][j] == s[j];
    assert forall j :: 0 <= j < r ==> s[..r][j] == s[j];
  }

  /** strings.HasPrefix. */
  predicate HasPrefix(s: string, prefix: string) {
    prefix <= s
  }

  predicate OccursAt(s: string, part: string, i: nat) {
    i + |part| <= |s| && s[i..i + |part|] == part
  }

  /** strings.Contains. */
  predicate ContainsText(s: string, part: string) {
    exists i: nat :: i <= |s| && OccursAt(s, part, i)
  }

  /** strings.Join with one separator byte. */
  function Join(parts: seq<string>, sep: char): string {
    if parts == [] then ""
    else if |parts| == 1 then parts[0]
    else parts[0] + [sep] + Join(parts[1..], sep)
  }
}

/** Decimal numerals: strconv.Itoa (and the %d verb) and strconv.Atoi. */
module Decimal {
  import opened Wrappers

  function Digit(d: nat): (c: char)
    requires d < 10
    ensures '0' <= c <= '9' && c as int == 48 + d
  {
    (48 + d) as char
  }

  function Digits(n: nat): (s: string)
    ensures |s| > 0 && forall i :: 0 <= i < |s| ==> '0' <= s[i] <= '9'
  {
    if n < 10 then [Digit(n)] else Digits(n / 10) + [Digit(n % 10)]
  }

  /** strconv.Itoa. */
  function Itoa(n: int): string {
    if n < 0 then "-" + Digits(-n) else Digits(n)
  }

  /** The value of a run of digits; None when some byte is not a digit. */
  function DigitsValue(s: string): (r: Option<nat>) {
    if s == [] then Some(0)
    else
      match DigitsValue(s[..|s| - 1])
      case None => None
      case Some(v) =>
        var c := s[|s| - 1];
        if '0' <= c <= '9' then Some(10 * v + (c as int - 48)) else None
  }

  const MIN_INT: int := -0x8000_0000_0000_0000
  const MAX_INT: int := 0x7FFF_FFFF_FFFF_FFFF

  /** strconv.Atoi on a 64-bit platform: an optional sign, at least one digit,
      and a value in the range of int. */
  function Atoi(s: string): Option<int> {
    var signed := s != [] && (s[0] == '+' || s[0] == '-');
    var digits := if signed then s[1..] else s;
    if digits == [] then None
    else
      match DigitsValue(digits)
      case None => None
      case Some(v) =>
        var magnitude: int := v;
        var n := if signed && s[0] == '-' then -magnitude else magnitude;
        if MIN_INT <= n <= MAX_INT then Some(n) else None
  }

  lemma {:induction false} DigitsRoundTrip(n: nat)
    ensures DigitsValue(Digits(n)) == Some(n)
  {
    var s := Digits(n);
    if n < 10 {
      assert s[..0] == [];
    } else {
      DigitsRoundTrip(n / 10);
      assert s[..|s| - 1] == Digits(n / 10);
    }
  }

  lemma AtoiOfDigits(digits: string, v: nat)
    requires digits != [] && digits[0] != '+' && digits[0] != '-' && DigitsValue(digits) == Some(v) && v <= MAX_INT
    ensures Atoi(digits) == Some(v)
  {
  }

  lemma AtoiOfNegative(digits: string, v: nat)
    requires digits != [] && DigitsValue(digits) == Some(v) && v <= -MIN_INT
    ensures Atoi("-" + digits) == Some(-(v as int))
  {
    assert ("-" + digits)[1..] == digits;
  }

  /** Atoi undoes Itoa over the whole range of int. */
  lemma AtoiInvertsItoa(n: int)
    requires MIN_INT <= n <= MAX_INT
    ensures Atoi(Itoa(n)) == Some(n)
  {
    if n < 0 {
      DigitsRoundTrip(-n);
      AtoiOfNegative(Digits(-n), -n);
    } else {
      DigitsRoundTrip(n);
      AtoiOfDigits(Digits(n), n);
    }
  }

  /** Distinct numbers have distinct numerals. */
  lemma ItoaInjective(m: nat, n: nat)
    requires Itoa(m) == Itoa(n)
    ensures m == n
  {
    DigitsRoundTrip(m);
    DigitsRoundTrip(n);
  }
}
