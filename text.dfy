/** The string helpers of Go's standard library that the commands lean on:
    strings.SplitN(s, "=", 2), strconv.Atoi, strconv.Itoa, uint32 conversion and
    the upper-casing used to recognise a PATH entry. */
module Text {
  import opened Base

  const MinInt64: int := -0x8000_0000_0000_0000
  const MaxInt64: int := 0x7fff_ffff_ffff_ffff

  // ---------------------------------------------------------------------------
  // strings.SplitN(s, "=", 2)

  /** Splits at the first '='; None stands for SplitN returning a single part. */
  function SplitOnce(s: string): (r: Option<(string, string)>)
    ensures r.None? <==> '=' !in s
    ensures r.Some? ==> '=' !in r.value.0 && s == r.value.0 + "=" + r.value.1
  {
    if s == [] then None
    else if s[0] == '=' then Some(([], s[1..]))
    else
      match SplitOnce(s[1..])
      case None => None
      case Some((k, v)) => Some(([s[0]] + k, v))
  }

  /** Joining a key without '=' to any value and splitting again gives both back. */
  lemma {:induction false} SplitOnceJoin(k: string, v: string)
    requires '=' !in k
    ensures SplitOnce(k + "=" + v) == Some((k, v))
  {
    if k != [] {
      assert (k + "=" + v)[1..] == k[1..] + "=" + v;
      SplitOnceJoin(k[1..], v);
      assert [k[0]] + k[1..] == k;
    }
  }

  // ---------------------------------------------------------------------------
  // strconv.Atoi and strconv.Itoa

  predicate IsDigit(c: char) {
    '0' <= c <= '9'
  }

  predicate AllDigits(s: string) {
    |s| > 0 && forall i :: 0 <= i < |s| ==> IsDigit(s[i])
  }

  /** The value of a run of decimal digits, most significant first. */
  function DigitsValue(s: string): int
    requires forall i :: 0 <= i < |s| ==> IsDigit(s[i])
  {
    if s == [] then 0 else 10 * DigitsValue(s[..|s| - 1]) + (s[|s| - 1] as int - '0' as int)
  }

  /** strconv.Atoi: an optional sign and at least one decimal digit, nothing else
      (no whitespace is trimmed), and the value must fit in a 64-bit int. */
  function ParseInt(s: string): (r: Option<int>)
    ensures r.Some? ==> MinInt64 <= r.value <= MaxInt64
    ensures r.Some? ==> |s| > 0 && IsDigit(s[|s| - 1])
    ensures r.Some? ==> forall i :: 0 < i < |s| ==> IsDigit(s[i])
    ensures r.Some? ==> IsDigit(s[0]) || s[0] == '-' || s[0] == '+'
  {
    if s == [] then None
    else
      var body := if s[0] == '-' || s[0] == '+' then s[1..] else s;
      if !AllDigits(body) then None
      else
        var v: int := if s[0] == '-' then -DigitsValue(body) else DigitsValue(body);
        if MinInt64 <= v <= MaxInt64 then Some(v) else None
  }

  function DigitChar(d: int): (c: char)
    requires 0 <= d < 10
    ensures IsDigit(c) && c as int - '0' as int == d
  {
    ('0' as int + d) as char
  }

  /** Decimal digits of n, most significant first, with no leading zero. */
  function Digits(n: nat): (s: string)
    ensures AllDigits(s)
    ensures DigitsValue(s) == n
    ensures s[0] == '0' ==> n == 0
  {
    if n < 10 then [DigitChar(n)]
    else
      var prefix := Digits(n / 10);
      var s := prefix + [DigitChar(n % 10)];
      assert s[..|s| - 1] == prefix;
      s
  }

  /** strconv.Itoa: a '-' for a negative number, then the decimal digits of its
      magnitude with no leading zero. */
  function Itoa(n: int): (r: string)
    ensures n >= 0 ==> AllDigits(r) && DigitsValue(r) == n
    ensures n < 0 ==> |r| > 1 && r[0] == '-' && AllDigits(r[1..]) && DigitsValue(r[1..]) == -n
    ensures n != 0 ==> r[if n < 0 then 1 else 0] != '0'
    ensures n == 0 ==> r == "0"
  {
    if n < 0 then "-" + Digits(-n) else Digits(n)
  }

  /** What strconv.Itoa writes, strconv.Atoi reads back. */
  lemma ParseItoa(n: int)
    requires MinInt64 <= n <= MaxInt64
    ensures ParseInt(Itoa(n)) == Some(n)
  {
    var s := Itoa(n);
    if n < 0 {
      assert s[1..] == Digits(-n);
    }
  }

  /** Atoi does not trim: a trailing newline makes any text unparsable. */
  lemma ParseRejectsNewline(s: string)
    ensures ParseInt(s + "\n") == None
  {
    var t := s + "\n";
    assert t[|t| - 1] == '\n';
  }

  // ---------------------------------------------------------------------------
  // Go's uint32(x) conversion of an int, which keeps the low 32 bits.

  function Uint32(x: int): (r: int)
    ensures 0 <= r < 0x1_0000_0000
    ensures 0 <= x < 0x1_0000_0000 ==> r == x
    ensures (r - x) % 0x1_0000_0000 == 0
  {
    x % 0x1_0000_0000
  }

  // ---------------------------------------------------------------------------
  // strings.ToUpper(k) == "PATH". Only the ASCII letters p, a, t, h upper-case to
  // P, A, T, H, so ASCII upper-casing decides the comparison.

  function UpperAscii(c: char): char {
    if 'a' <= c <= 'z' then (c as int - 32) as char else c
  }

  predicate IsPathKey(k: string) {
    |k| == 4 && UpperAscii(k[0]) == 'P' && UpperAscii(k[1]) == 'A'
    && UpperAscii(k[2]) == 'T' && UpperAscii(k[3]) == 'H'
  }

  /** The keys setPath treats as PATH are exactly the sixteen letter-case spellings
      of "PATH". */
  lemma PathKeySpellings(k: string)
    ensures IsPathKey(k) <==>
      |k| == 4 && k[0] in "Pp" && k[1] in "Aa" && k[2] in "Tt" && k[3] in "Hh"
  {
    if |k| == 4 {
      UpperAsciiInverse(k[0], 'P', 'p');
      UpperAsciiInverse(k[1], 'A', 'a');
      UpperAsciiInverse(k[2], 'T', 't');
      UpperAsciiInverse(k[3], 'H', 'h');
    }
  }

  /** An upper-case ASCII letter comes only from itself or its lower-case form. */
  lemma UpperAsciiInverse(c: char, upper: char, lower: char)
    requires 'A' <= upper <= 'Z' && lower as int == upper as int + 32
    ensures UpperAscii(c) == upper <==> c in [upper, lower]
  {
  }
}
