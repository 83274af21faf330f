/** Prefix hashes as text: sixteen hex digits out, and a lenient reader. */
module PrefixHash {
  import opened Common
  import opened Text
  import opened Fnv

  const HASH_DIGITS: nat := 16

  function HexDigit(d: nat): char
    requires d < 16
  {
    if d < 10 then '0' + d as char else 'a' + (d - 10) as char
  }

  function HexValue(c: char): Option<nat> {
    if '0' <= c <= '9' then Some(c as int - '0' as int)
    else if 'a' <= c <= 'f' then Some(c as int - 'a' as int + 10)
    else if 'A' <= c <= 'F' then Some(c as int - 'A' as int + 10)
    else None
  }

  function HexDigits(n: nat, width: nat): string {
    if width == 0 then "" else HexDigits(n / 16, width - 1) + [HexDigit(n % 16)]
  }

  function FormatPrefixHash(hash: word): string {
    HexDigits(hash, HASH_DIGITS)
  }

  // ----- reading -----

  function ReadDigits(s: string): Option<nat> {
    if s == "" then Some(0)
    else
      var high, low := ReadDigits(s[..|s| - 1]), HexValue(s[|s| - 1]);
      if high.Some? && low.Some? then Some(16 * high.value + low.value) else None
  }

  /** A number in base 16: an optional plus sign, then at least one digit. */
  function FromRadix16(s: string): Option<nat> {
    var digits := if s != "" && s[0] == '+' then s[1..] else s;
    if digits == "" then None else ReadDigits(digits)
  }

  function StripMarkers(s: string): string {
    if |s| >= 2 && s[..2] == "0x" then StripMarkers(s[2..]) else s
  }

  /** The last n bytes, unless the cut falls inside a character. */
  function LastBytes(s: string, n: nat): Option<string> {
    if n == 0 || s == "" then Some("")
    else
      var c := s[|s| - 1];
      if CharBytes(c) > n then None
      else
        var rest := LastBytes(s[..|s| - 1], n - CharBytes(c));
        if rest.Some? then Some(rest.value + [c]) else None
  }

  /** A cut inside a character stops the program, which is kept apart from a text that is no hash. */
  datatype Parse = Hash(h: nat) | NotAHash | BadCut

  function ParsePrefixHashHex(raw: string): Parse {
    var s := StripMarkers(Trim(raw));
    var tail := if ByteLen(s) > HASH_DIGITS then LastBytes(s, HASH_DIGITS) else Some(s);
    if tail.None? then BadCut
    else if FromRadix16(tail.value).None? then NotAHash
    else Hash(FromRadix16(tail.value).value)
  }

  // ----- round trip -----

  predicate AllHex(s: string) {
    forall i | 0 <= i < |s| :: HexValue(s[i]).Some?
  }

  lemma {:induction false} DigitsRoundTrip(n: nat, width: nat, bound: nat)
    requires n < bound && bound == Power16(width)
    ensures |HexDigits(n, width)| == width && AllHex(HexDigits(n, width))
    ensures ReadDigits(HexDigits(n, width)) == Some(n)
  {
    if width > 0 {
      DigitsRoundTrip(n / 16, width - 1, bound / 16);
      assert HexDigits(n, width)[..width - 1] == HexDigits(n / 16, width - 1);
      assert HexValue(HexDigit(n % 16)) == Some(n % 16);
    }
  }

  function Power16(n: nat): nat {
    if n == 0 then 1 else 16 * Power16(n - 1)
  }

  lemma {:induction false} TrimKeepsEnd(lead: string, f: string) returns (rest: string)
    requires f != "" && AllHex(f)
    ensures Trim(lead + f) == rest + f
    decreases |lead|
  {
    var s := lead + f;
    assert forall i | |lead| <= i < |s| :: s[i] == f[i - |lead|] && HexValue(s[i]).Some?;
    if IsWhitespace(s[0]) {
      assert s[1..] == lead[1..] + f;
      rest := TrimKeepsEnd(lead[1..], f);
    } else {
      rest := lead;
    }
  }

  lemma {:induction false} StripKeepsEnd(lead: string, f: string) returns (rest: string)
    requires f != "" && AllHex(f)
    ensures StripMarkers(lead + f) == rest + f
    decreases |lead|
  {
    var s := lead + f;
    assert forall i | |lead| <= i < |s| :: s[i] == f[i - |lead|] && HexValue(s[i]).Some?;
    if |s| >= 2 && s[..2] == "0x" {
      assert s[1] == s[..2][1] == 'x';
      assert s[2..] == lead[2..] + f;
      rest := StripKeepsEnd(lead[2..], f);
    } else {
      rest := lead;
    }
  }

  lemma {:induction false} LastBytesOfHex(lead: string, f: string)
    requires AllHex(f)
    ensures LastBytes(lead + f, |f|) == Some(f)
    decreases |f|
  {
    var s := lead + f;
    if f != "" {
      assert s[|s| - 1] == f[|f| - 1] && HexValue(f[|f| - 1]).Some?;
      assert s[..|s| - 1] == lead + f[..|f| - 1];
      LastBytesOfHex(lead, f[..|f| - 1]);
      assert f == f[..|f| - 1] + [f[|f| - 1]];
    }
  }

  /** Whatever stands before it, a formatted hash at the end of a text is read back. */
  lemma ParseInvertsFormat(lead: string, hash: word)
    ensures ParsePrefixHashHex(lead + FormatPrefixHash(hash)) == Hash(hash)
  {
    assert Power16(8) == 0x1_0000_0000;
    assert Power16(16) == WORD;
    DigitsRoundTrip(hash, 16, WORD);
    var f := FormatPrefixHash(hash);
    var trimmed := TrimKeepsEnd(lead, f);
    var rest := StripKeepsEnd(trimmed, f);
    ByteLenConcat(rest, f);
    ByteLenBounds(rest);
    HexIsAscii(f);
    if rest == "" {
      assert rest + f == f;
    } else {
      LastBytesOfHex(rest, f);
    }
    assert HexValue(f[0]).Some?;
  }

  lemma HexIsAscii(f: string)
    requires AllHex(f)
    ensures ByteLen(f) == |f|
  {
  }

  /** Different hashes have different texts. */
  lemma FormatIsInjective(h1: word, h2: word)
    requires FormatPrefixHash(h1) == FormatPrefixHash(h2)
    ensures h1 == h2
  {
    ParseInvertsFormat("", h1);
    ParseInvertsFormat("", h2);
  }

  // ----- cuts inside a character -----

  /** No tail of the text has exactly `n` bytes. */
  ghost predicate NoTailOf(s: string, n: nat) {
    forall i | 0 <= i <= |s| :: ByteLen(s[i..]) != n
  }

  lemma {:induction false} NoLastBytesIff(s: string, n: nat)
    requires n <= ByteLen(s)
    ensures LastBytes(s, n).None? <==> NoTailOf(s, n)
  {
    if n == 0 || s == "" {
      assert s[|s|..] == "";
    } else {
      var init, c := s[..|s| - 1], s[|s| - 1];
      forall i | 0 <= i < |s|
        ensures ByteLen(s[i..]) == ByteLen(init[i..]) + CharBytes(c)
      {
        assert s[i..][..|s[i..]| - 1] == init[i..];
      }
      assert s[|s|..] == "";
      if CharBytes(c) <= n {
        NoLastBytesIff(init, n - CharBytes(c));
        assert NoTailOf(init, n - CharBytes(c)) ==> NoTailOf(s, n);
        assert NoTailOf(s, n) ==> NoTailOf(init, n - CharBytes(c)) by {
          if NoTailOf(s, n) {
            forall i | 0 <= i <= |init|
              ensures ByteLen(init[i..]) != n - CharBytes(c)
            {
              assert ByteLen(s[i..]) != n;
            }
          }
        }
      }
    }
  }

  /** The cut falls inside a character exactly when the stripped text is longer than 16 bytes and none of its
      tails has 16. */
  lemma BadCutIff(raw: string)
    ensures var s := StripMarkers(Trim(raw));
            ParsePrefixHashHex(raw) == BadCut <==> ByteLen(s) > HASH_DIGITS && NoTailOf(s, HASH_DIGITS)
  {
    var s := StripMarkers(Trim(raw));
    if ByteLen(s) > HASH_DIGITS {
      NoLastBytesIff(s, HASH_DIGITS);
    }
  }

  lemma {:induction false} StripIsAscii(s: string)
    requires Ascii(s)
    ensures Ascii(StripMarkers(s))
  {
    if |s| >= 2 && s[..2] == "0x" {
      StripIsAscii(s[2..]);
    }
  }

  /** ASCII text, all that a header can hold, is always cut between characters. */
  lemma AsciiIsCutWell(raw: string)
    requires Ascii(raw)
    ensures ParsePrefixHashHex(raw) != BadCut
  {
    TrimIsAscii(raw);
    StripIsAscii(Trim(raw));
    var s := StripMarkers(Trim(raw));
    ByteLenBounds(s);
    if |s| > HASH_DIGITS {
      ByteLenBounds(s[|s| - HASH_DIGITS..]);
      BadCutIff(raw);
    }
  }

  /** Six characters of three bytes in the JSON field. */
  lemma WideTextIsCutBadly()
    ensures ParsePrefixHashHex("\U{4E2D}\U{4E2D}\U{4E2D}\U{4E2D}\U{4E2D}\U{4E2D}") == BadCut
  {
    var s := "\U{4E2D}\U{4E2D}\U{4E2D}\U{4E2D}\U{4E2D}\U{4E2D}";
    assert Trim(s) == s && StripMarkers(s) == s;
    ByteLenTriples(s);
    forall i | 0 <= i <= |s|
      ensures ByteLen(s[i..]) != HASH_DIGITS
    {
      ByteLenTriples(s[i..]);
    }
    BadCutIff(s);
  }

  lemma {:induction false} ByteLenTriples(s: string)
    requires forall i | 0 <= i < |s| :: CharBytes(s[i]) == 3
    ensures ByteLen(s) == 3 * |s|
  {
    if s != "" {
      ByteLenTriples(s[..|s| - 1]);
    }
  }

  // ----- lenient reading -----

  /** White space around a text of hex digits, and markers in front of it, do not count. */
  lemma ReadsLeniently(a: string, digits: string, b: string)
    requires Blank(a) && Blank(b) && AllHex(digits) && 0 < |digits| <= HASH_DIGITS
    ensures ParsePrefixHashHex(a + digits + b) == Hash(ReadDigits(digits).GetOr(0))
    ensures ParsePrefixHashHex(a + ("0x" + digits) + b) == Hash(ReadDigits(digits).GetOr(0))
    ensures ReadDigits(digits).Some?
  {
    HexIsRead(digits);
    NoMarker(digits);
    TrimHex(a, digits, b);
    ReadsStripped(a + digits + b, digits);
    ReadsStripped(a + ("0x" + digits) + b, digits);
  }

  lemma TrimHex(a: string, digits: string, b: string)
    requires Blank(a) && Blank(b) && AllHex(digits) && digits != ""
    ensures Trim(a + digits + b) == digits
    ensures StripMarkers(Trim(a + ("0x" + digits) + b)) == StripMarkers(digits)
  {
    assert HexValue(digits[0]).Some? && HexValue(digits[|digits| - 1]).Some?;
    TrimTakesBlanks(a, digits, b);
    var marked := "0x" + digits;
    assert marked[|marked| - 1] == digits[|digits| - 1] && marked[0] == '0';
    TrimTakesBlanks(a, marked, b);
    assert marked[..2] == "0x" && marked[2..] == digits;
  }

  lemma ReadsStripped(raw: string, digits: string)
    requires AllHex(digits) && 0 < |digits| <= HASH_DIGITS && StripMarkers(Trim(raw)) == digits
    requires ReadDigits(digits).Some?
    ensures ParsePrefixHashHex(raw) == Hash(ReadDigits(digits).value)
  {
    HexIsAscii(digits);
    assert HexValue(digits[0]).Some?;
  }

  lemma NoMarker(digits: string)
    requires AllHex(digits)
    ensures StripMarkers(digits) == digits
  {
    assert |digits| >= 2 ==> HexValue(digits[1]).Some?;
  }

  lemma {:induction false} HexIsRead(digits: string)
    requires AllHex(digits)
    ensures ReadDigits(digits).Some?
  {
    if digits != "" {
      HexIsRead(digits[..|digits| - 1]);
    }
  }

  /** Digits count 0 to 9 and a to f in either case. */
  lemma HexValues()
    ensures HexValue('0') == Some(0) && HexValue('9') == Some(9)
    ensures HexValue('a') == HexValue('A') == Some(10) && HexValue('f') == HexValue('F') == Some(15)
    ensures HexValue('g') == HexValue('G') == HexValue('x') == None
  {
  }

  /** The first digit counts the most, and anything that is no digit spoils the text. */
  lemma DigitsRead(more: string, c: char)
    ensures ReadDigits(more + [c]) ==
            if ReadDigits(more).Some? && HexValue(c).Some? then Some(16 * ReadDigits(more).value + HexValue(c).value)
                else None
  {
    assert (more + [c])[..|more|] == more;
  }

  /** A text needs a digit, and may have a plus sign. */
  lemma SignAndEmpty(more: string)
    requires more != ""
    ensures FromRadix16("") == None && FromRadix16("+") == None && FromRadix16("+" + more) == ReadDigits(more)
  {
    assert ("+" + more)[1..] == more;
  }
}
