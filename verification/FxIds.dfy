/** Effect identifiers: printing and parsing (`becky-fx-id`).

    The `uuid` crate is not part of this model; its parser is modelled by the text form of
    section 4 of RFC 9562 (36 characters, hyphens at 8, 13, 18 and 23, hexadecimal digits of
    either case) and the crate's three other spellings: no hyphens, braces, and `urn:uuid:`. */
module FxIds {
  import opened Wrappers
  import opened Text

  /** A 128-bit UUID as its 32 half-bytes, most significant first. */
  type Uuid = u: seq<nat> | |u| == 32 && forall i | 0 <= i < 32 :: u[i] < 16
    witness seq(32, _ => 0)

  type U64 = n: nat | n <= U64_MAX

  datatype FxId = UuidV4(uuid: Uuid) | Str(text: string) | Number(n: U64)

  predicate AllHex(s: string) { forall i | 0 <= i < |s| :: IsHex(s[i]) }

  function ParseSimple(s: string): Option<Uuid> {
    if |s| == 32 && AllHex(s) then Some(seq(32, i requires 0 <= i < 32 => HexValue(s[i]))) else None
  }

  function ParseHyphenated(s: string): Option<Uuid> {
    if |s| == 36 && s[8] == s[13] == s[18] == s[23] == '-'
    then ParseSimple(s[..8] + s[9..13] + s[14..18] + s[19..23] + s[24..])
    else None
  }

  function ParseUuid(s: string): Option<Uuid> {
    if |s| == 32 then ParseSimple(s)
    else if |s| == 36 then ParseHyphenated(s)
    else if |s| == 38 && s[0] == '{' && s[37] == '}' then ParseHyphenated(s[1..37])
    else if |s| == 45 && s[..9] == "urn:uuid:" then ParseHyphenated(s[9..])
    else None
  }

  /** The 32 digits without hyphens. */
  function HexText(u: Uuid): string {
    seq(32, i requires 0 <= i < 32 => HexChar(u[i]))
  }

  function Hyphenate(t: string): string
    requires |t| == 32
  {
    t[..8] + "-" + t[8..12] + "-" + t[12..16] + "-" + t[16..20] + "-" + t[20..]
  }

  function DisplayUuid(u: Uuid): string {
    Hyphenate(HexText(u))
  }

  function Display(id: FxId): string {
    match id
    case UuidV4(u) => DisplayUuid(u)
    case Str(s) => s
    case Number(n) => Decimal(n)
  }

  function Parse(s: string): FxId {
    match ParseUuid(s)
    case Some(u) => UuidV4(u)
    case None =>
      match ParseUnsigned(s, U64_MAX)
      case Some(n) => Number(n)
      case None => Str(s)
  }

  /** The 32 digits of `u`, each in either case. */
  predicate Spells(t: string, u: Uuid) {
    |t| == 32 && AllHex(t) && forall i | 0 <= i < 32 :: HexValue(t[i]) == u[i]
  }

  lemma HyphenatedSpelling(u: Uuid, t: string)
    requires Spells(t, u)
    ensures |Hyphenate(t)| == 36 && ParseHyphenated(Hyphenate(t)) == Some(u)
  {
    var s := Hyphenate(t);
    assert s[8] == s[13] == s[18] == s[23] == '-';
    assert s[..8] == t[..8] && s[9..13] == t[8..12] && s[14..18] == t[12..16];
    assert s[19..23] == t[16..20] && s[24..] == t[20..];
    assert s[..8] + s[9..13] + s[14..18] + s[19..23] + s[24..] == t;
    assert seq(32, i requires 0 <= i < 32 => HexValue(t[i])) == u;
  }

  /** All spellings of a UUID, with digits of either case, parse to that identifier. */
  lemma UuidSpellings(u: Uuid, t: string)
    requires Spells(t, u)
    ensures Parse(t) == Parse(Hyphenate(t)) == UuidV4(u)
    ensures Parse("{" + Hyphenate(t) + "}") == Parse("urn:uuid:" + Hyphenate(t)) == UuidV4(u)
  {
    var s := Hyphenate(t);
    HyphenatedSpelling(u, t);
    assert ("{" + s + "}")[1..37] == s && ("urn:uuid:" + s)[9..] == s;
    assert ("urn:uuid:" + s)[..9] == "urn:uuid:";
    assert seq(32, i requires 0 <= i < 32 => HexValue(t[i])) == u;
  }

  /** One of the four spellings with the digits of `t`. */
  predicate IsSpelling(s: string, t: string, u: Uuid) {
    Spells(t, u)
    && (s == t || s == Hyphenate(t) || s == "{" + Hyphenate(t) + "}" || s == "urn:uuid:" + Hyphenate(t))
  }

  /** Nothing but those spellings is read as a UUID. */
  lemma UuidExactly(s: string, u: Uuid)
    ensures ParseUuid(s) == Some(u)
            <==> exists t: string :: IsSpelling(s, t, u)
  {
    if ParseUuid(s) == Some(u) {
      var t := SpellingOf(s, u);
    }
    if t: string :| IsSpelling(s, t, u) {
      UuidSpellings(u, t);
      ParseTells(s, u);
    }
  }

  lemma ParseTells(s: string, u: Uuid)
    requires Parse(s) == UuidV4(u)
    ensures ParseUuid(s) == Some(u)
  {
  }

  lemma SpellingOf(s: string, u: Uuid) returns (t: string)
    requires ParseUuid(s) == Some(u)
    ensures IsSpelling(s, t, u)
  {
    if |s| == 32 {
      t := s;
    } else if |s| == 36 {
      t := HyphensRemoved(s, u);
    } else if |s| == 38 {
      t := HyphensRemoved(s[1..37], u);
      assert s == "{" + s[1..37] + "}";
    } else {
      t := HyphensRemoved(s[9..], u);
      assert s == s[..9] + s[9..];
    }
  }

  lemma HyphensRemoved(s: string, u: Uuid) returns (t: string)
    requires |s| == 36 && ParseHyphenated(s) == Some(u)
    ensures Spells(t, u) && s == Hyphenate(t)
  {
    t := s[..8] + s[9..13] + s[14..18] + s[19..23] + s[24..];
    assert t[..8] == s[..8] && t[8..12] == s[9..13] && t[12..16] == s[14..18];
    assert t[16..20] == s[19..23] && t[20..] == s[24..];
    assert s[8..9] == "-" && s[13..14] == "-" && s[18..19] == "-" && s[23..24] == "-";
    assert s == s[..8] + s[8..9] + s[9..13] + s[13..14] + s[14..18] + s[18..19] + s[19..23] + s[23..24] + s[24..];
  }

  /** A UUID is printed in the form of section 4 of RFC 9562: 36 characters, hyphens after 8, 12, 16
      and 20 digits, and lower-case digits. */
  lemma DisplayIsCanonical(u: Uuid)
    ensures var s := Display(UuidV4(u));
            |s| == 36 && forall i | 0 <= i < 36 ::
              if i in {8, 13, 18, 23} then s[i] == '-' else '0' <= s[i] <= '9' || 'a' <= s[i] <= 'f'
  {
    var t := HexText(u);
    assert forall i | 0 <= i < 32 :: '0' <= t[i] <= '9' || 'a' <= t[i] <= 'f';
    var s := Hyphenate(t);
    forall i | 0 <= i < 36
      ensures if i in {8, 13, 18, 23} then s[i] == '-' else '0' <= s[i] <= '9' || 'a' <= s[i] <= 'f'
    {
      if i < 8 {
        assert s[i] == t[i];
      } else if 8 < i < 13 {
        assert s[i] == t[i - 1];
      } else if 13 < i < 18 {
        assert s[i] == t[i - 2];
      } else if 18 < i < 23 {
        assert s[i] == t[i - 3];
      } else if i > 23 {
        assert s[i] == t[i - 4];
      }
    }
  }

  /** A number may be spelled with a plus sign and leading zeros, as long as the text does not have
      the length of a UUID. */
  lemma NumberSpellings(n: U64, zeros: string)
    requires forall i | 0 <= i < |zeros| :: zeros[i] == '0'
    requires |zeros| + |Decimal(n)| < 31
    ensures Parse(zeros + Decimal(n)) == Parse("+" + (zeros + Decimal(n))) == Number(n)
  {
    DecimalRoundTrip(n);
    LeadingZeros(zeros, Decimal(n));
    var s := zeros + Decimal(n);
    assert s[0] != '+' && ("+" + s)[1..] == s;
  }

  /** A text is a string id if and only if it is neither a UUID nor a number. */
  lemma StringExactly(s: string)
    ensures Parse(s).Str? <==> ParseUuid(s) == None && ParseUnsigned(s, U64_MAX) == None
    ensures Parse(s).Str? ==> Parse(s).text == s
    ensures Parse(s).Number? <==> ParseUuid(s) == None && ParseUnsigned(s, U64_MAX).Some?
  {
  }

  lemma UuidRoundTrip(u: Uuid)
    ensures Parse(DisplayUuid(u)) == UuidV4(u)
  {
    UuidSpellings(u, HexText(u));
  }

  /** A printed u64 is too short to be read as a UUID. */
  lemma U64TextIsNoUuid(n: U64)
    ensures ParseUuid(Decimal(n)) == None
  {
    U64TextIsShort(n);
  }

  /** Printing and parsing again gives the identifier back exactly when it is not a string
      that reads as a UUID or as a u64. */
  lemma ParseDisplay(id: FxId)
    ensures Parse(Display(id)) == id
            <==> (id.Str? ==> ParseUuid(id.text) == None && ParseUnsigned(id.text, U64_MAX) == None)
  {
    match id
    case UuidV4(u) => UuidRoundTrip(u);
    case Str(s) =>
    case Number(n) =>
      U64TextIsNoUuid(n);
      ParseDecimal(n, U64_MAX);
  }

  /** Every text settles after one parse: the printed form of what was read reads the same. */
  lemma ParseIsStable(s: string)
    ensures Parse(Display(Parse(s))) == Parse(s)
  {
    ParseDisplay(Parse(s));
  }

  /** The identifiers that some text parses to. */
  predicate Parsed(id: FxId) { Parse(Display(id)) == id }

  /** `Display` alone is not injective: a string id may spell a number. */
  lemma StringIdCanShadowNumber()
    ensures Display(Str("7")) == Display(Number(7)) && !Parsed(Str("7"))
  {
    assert Decimal(7) == "7";
    ParseDisplay(Number(7));
  }
}
