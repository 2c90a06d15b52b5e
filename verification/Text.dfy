/** Decimal and hexadecimal text as the Rust standard library prints and parses it.

    A string is a sequence of characters.  Where the source works on the bytes of a
    string (lengths of command-id components, hexadecimal pid-file stems), the string is
    the sequence of its UTF-8 bytes, one character of code below 256 per byte. */
module Text {
  import opened Wrappers

  const U32_MAX: nat := 0xFFFF_FFFF
  const U64_MAX: nat := 0xFFFF_FFFF_FFFF_FFFF

  predicate IsDigit(c: char) { '0' <= c <= '9' }

  predicate AllDigits(s: string) { forall i | 0 <= i < |s| :: IsDigit(s[i]) }

  function DigitChar(d: nat): char
    requires d < 10
  {
    ('0' as int + d) as char
  }

  /** The text `{}` formatting produces for an unsigned integer. */
  function Decimal(n: nat): string {
    if n < 10 then [DigitChar(n)] else Decimal(n / 10) + [DigitChar(n % 10)]
  }

  function DigitsValue(s: string): nat
    requires AllDigits(s)
  {
    if s == "" then 0
    else DigitsValue(s[..|s| - 1]) * 10 + (s[|s| - 1] as int - '0' as int)
  }

  /** `str::parse` for an unsigned integer type whose greatest value is `max`: an optional
      plus sign, at least one digit, nothing else, and no overflow. */
  function ParseUnsigned(s: string, max: nat): Option<nat> {
    var body := if s != "" && s[0] == '+' then s[1..] else s;
    if body != "" && AllDigits(body) && DigitsValue(body) <= max then Some(DigitsValue(body)) else None
  }

  lemma {:induction false} DecimalRoundTrip(n: nat)
    ensures Decimal(n) != "" && AllDigits(Decimal(n))
    ensures DigitsValue(Decimal(n)) == n
  {
    if n >= 10 {
      DecimalRoundTrip(n / 10);
      assert Decimal(n)[..|Decimal(n)| - 1] == Decimal(n / 10);
    } else {
      assert Decimal(n)[..0] == "";
    }
  }

  /** Parsing the printed form gives the number back exactly when the type can hold it. */
  lemma ParseDecimal(n: nat, max: nat)
    ensures ParseUnsigned(Decimal(n), max) == if n <= max then Some(n) else None
  {
    DecimalRoundTrip(n);
  }

  lemma DecimalInjective(m: nat, n: nat)
    requires Decimal(m) == Decimal(n)
    ensures m == n
  {
    DecimalRoundTrip(m);
    DecimalRoundTrip(n);
  }

  function Pow10(k: nat): nat {
    if k == 0 then 1 else 10 * Pow10(k - 1)
  }

  lemma {:induction false} DecimalLength(n: nat, k: nat)
    requires 0 < k && n < Pow10(k)
    ensures |Decimal(n)| <= k
  {
    if n >= 10 {
      assert Pow10(1) == 10 * Pow10(0) == 10;
      DecimalLength(n / 10, k - 1);
    }
  }

  /** No u64 prints to more than twenty digits. */
  lemma U64TextIsShort(n: nat)
    requires n <= U64_MAX
    ensures 1 <= |Decimal(n)| <= 20
  {
    assert Pow10(20) == 100_000_000_000_000_000_000 by {
      assert Pow10(4) == 10_000;
      assert Pow10(8) == 10_000 * Pow10(4);
      assert Pow10(12) == 10_000 * Pow10(8);
      assert Pow10(16) == 10_000 * Pow10(12);
      assert Pow10(20) == 10_000 * Pow10(16);
    }
    DecimalLength(n, 20);
    DecimalRoundTrip(n);
  }

  /** The Unicode White_Space characters, which `str::trim` strips. */
  predicate IsWhitespace(c: char) {
    var n := c as int;
    9 <= n <= 13 || n == 0x20 || n == 0x85 || n == 0xA0 || n == 0x1680 || 0x2000 <= n <= 0x200A
    || n == 0x2028 || n == 0x2029 || n == 0x202F || n == 0x205F || n == 0x3000
  }

  function Trim(s: string): string {
    if s == "" then ""
    else if IsWhitespace(s[0]) then Trim(s[1..])
    else if IsWhitespace(s[|s| - 1]) then Trim(s[..|s| - 1])
    else s
  }

  /** A pid file holds the pid in decimal, with or without surrounding white space. */
  function ParsePid(contents: string): Option<nat> {
    ParseUnsigned(Trim(contents), U32_MAX)
  }

  predicate AllWhitespace(s: string) { forall i | 0 <= i < |s| :: IsWhitespace(s[i]) }

  /** Trimming takes white space off both ends and nothing else. */
  lemma {:induction false} TrimExactly(s: string) returns (before: string, after: string)
    ensures AllWhitespace(before) && AllWhitespace(after) && s == before + Trim(s) + after
    ensures var t := Trim(s); t != "" ==> !IsWhitespace(t[0]) && !IsWhitespace(t[|t| - 1])
    decreases |s|
  {
    if s == "" {
      before, after := "", "";
    } else if IsWhitespace(s[0]) {
      before, after := TrimExactly(s[1..]);
      before := [s[0]] + before;
    } else if IsWhitespace(s[|s| - 1]) {
      before, after := TrimExactly(s[..|s| - 1]);
      after := after + [s[|s| - 1]];
    } else {
      before, after := "", "";
    }
  }

  /** Leading zeros and a plus sign do not change the number. */
  lemma {:induction false} LeadingZeros(zeros: string, s: string)
    requires (forall i | 0 <= i < |zeros| :: zeros[i] == '0') && AllDigits(s)
    ensures AllDigits(zeros + s) && DigitsValue(zeros + s) == DigitsValue(s)
    decreases |zeros| + |s|
  {
    var all := zeros + s;
    if s != "" {
      LeadingZeros(zeros, s[..|s| - 1]);
      assert all[..|all| - 1] == zeros + s[..|s| - 1];
    } else if zeros != "" {
      LeadingZeros(zeros[..|zeros| - 1], "");
      assert all[..|all| - 1] == zeros[..|zeros| - 1] + "" && all[|all| - 1] == '0';
    }
  }

  /** What parses as an unsigned integer: an optional plus sign and at least one digit, nothing else,
      up to the greatest value. */
  lemma ParseUnsignedExactly(s: string, max: nat)
    ensures var body := if s != "" && s[0] == '+' then s[1..] else s;
            var fits := body != "" && (forall i | 0 <= i < |body| :: '0' <= body[i] <= '9') && DigitsValue(body) <= max;
            ParseUnsigned(s, max) == if fits then Some(DigitsValue(body)) else None
  {
  }

  /** Digits count ten times the next one's place. */
  lemma DigitsValueSnoc(s: string, d: nat)
    requires d < 10 && AllDigits(s)
    ensures AllDigits(s + [('0' as int + d) as char])
    ensures DigitsValue(s + [('0' as int + d) as char]) == DigitsValue(s) * 10 + d
  {
    var t := s + [('0' as int + d) as char];
    assert t[..|t| - 1] == s;
  }

  lemma TrimDigits(s: string)
    requires s != "" && AllDigits(s)
    ensures Trim(s) == s && Trim(s + "\n") == s
  {
    var t := s + "\n";
    assert !IsWhitespace(t[0]) && t[|t| - 1] == '\n' && t[..|t| - 1] == s;
    assert !IsWhitespace(s[|s| - 1]);
  }

  /** Both pid-file spellings the providers write are read back as the pid. */
  lemma PidTextRoundTrip(pid: nat)
    requires pid <= U32_MAX
    ensures ParsePid(Decimal(pid)) == Some(pid)
    ensures ParsePid(Decimal(pid) + "\n") == Some(pid)
  {
    DecimalRoundTrip(pid);
    TrimDigits(Decimal(pid));
  }

  lemma EmptyIsNoPid()
    ensures ParsePid("") == None
  {
  }

  // Hexadecimal.

  /** One lower-case hexadecimal digit. */
  function HexChar(d: nat): char
    requires d < 16
  {
    if d < 10 then DigitChar(d) else ('a' as int + (d - 10)) as char
  }

  predicate IsHex(c: char) {
    '0' <= c <= '9' || 'a' <= c <= 'f' || 'A' <= c <= 'F'
  }

  /** The value of a digit of either case. */
  function HexValue(c: char): (d: nat)
    requires IsHex(c)
    ensures d < 16
  {
    if '0' <= c <= '9' then c as int - '0' as int
    else if 'a' <= c <= 'f' then c as int - 'a' as int + 10
    else c as int - 'A' as int + 10
  }

  type Bytes = s: string | forall i | 0 <= i < |s| :: s[i] as int < 256

  /** `{:02x}` of every byte, in order. */
  function HexBytes(s: Bytes): string {
    if s == "" then ""
    else [HexChar(s[0] as int / 16), HexChar(s[0] as int % 16)] + HexBytes(s[1..])
  }

  function DecodeHexBytes(t: string): Option<string> {
    if t == "" then Some("")
    else if |t| < 2 || !IsHex(t[0]) || !IsHex(t[1]) then None
    else
      match DecodeHexBytes(t[2..])
      case None => None
      case Some(rest) => Some([(HexValue(t[0]) * 16 + HexValue(t[1])) as char] + rest)
  }

  lemma {:induction false} HexBytesRoundTrip(s: Bytes)
    ensures DecodeHexBytes(HexBytes(s)) == Some(s)
  {
    if s != "" {
      HexBytesRoundTrip(s[1..]);
      var t := HexBytes(s);
      assert t[2..] == HexBytes(s[1..]);
      var b := s[0] as int;
      assert HexValue(t[0]) == b / 16 && HexValue(t[1]) == b % 16;
      assert (b / 16) * 16 + b % 16 == b;
      assert [s[0]] + s[1..] == s;
    }
  }
}
