/** Strings as the source measures them: characters for slicing, UTF-8 bytes for lengths. */
module Text {
  import opened Common

  function CharBytes(c: char): nat {
    if c as int < 0x80 then 1 else if c as int < 0x800 then 2 else if c as int < 0x10000 then 3 else 4
  }

  /** Length in UTF-8 bytes. */
  function ByteLen(s: string): nat {
    if s == "" then 0 else ByteLen(s[..|s| - 1]) + CharBytes(s[|s| - 1])
  }

  predicate Ascii(s: string) {
    forall i | 0 <= i < |s| :: s[i] as int < 0x80
  }

  lemma {:induction false} ByteLenConcat(a: string, b: string)
    ensures ByteLen(a + b) == ByteLen(a) + ByteLen(b)
  {
    if b == "" {
      assert a + b == a;
    } else {
      assert (a + b)[..|a + b| - 1] == a + b[..|b| - 1];
      ByteLenConcat(a, b[..|b| - 1]);
    }
  }

  lemma {:induction false} ByteLenBounds(s: string)
    ensures |s| <= ByteLen(s) <= 4 * |s|
    ensures Ascii(s) <==> ByteLen(s) == |s|
  {
    if s != "" {
      var init := s[..|s| - 1];
      ByteLenBounds(init);
      if Ascii(init) && s[|s| - 1] as int < 0x80 {
        assert forall i | 0 <= i < |s| :: i < |init| ==> s[i] == init[i];
      } else if !Ascii(init) {
        var i :| 0 <= i < |init| && init[i] as int >= 0x80;
        assert s[i] == init[i];
      }
    }
  }

  function Digit(d: nat): char
    requires d < 10
  {
    '0' + d as char
  }

  function Decimal(n: nat): string {
    if n < 10 then [Digit(n)] else Decimal(n / 10) + [Digit(n % 10)]
  }

  function Pow10(k: nat): nat {
    if k == 0 then 1 else 10 * Pow10(k - 1)
  }

  lemma {:induction false} DecimalLength(n: nat, k: nat)
    requires k >= 1 && n < Pow10(k)
    ensures Ascii(Decimal(n)) && 1 <= |Decimal(n)| <= k
  {
    if n >= 10 {
      DecimalLength(n / 10, k - 1);
    }
  }

  /** Exactly k digits, when it takes that many. */
  lemma {:induction false} DecimalDigits(n: nat, k: nat)
    requires k >= 1 && n < Pow10(k) && (k == 1 || n >= Pow10(k - 1))
    ensures |Decimal(n)| == k
  {
    if k > 1 {
      assert n >= 10 by {
        PowAtLeastOne(k - 2);
      }
      DecimalDigits(n / 10, k - 1);
    }
  }

  lemma {:induction false} PowAtLeastOne(k: nat)
    ensures Pow10(k) >= 1
  {
    if k > 0 {
      PowAtLeastOne(k - 1);
    }
  }

  /** A usize prints in at most 20 digits. */
  lemma UsizeLength(n: nat)
    requires n < 0x1_0000_0000_0000_0000
    ensures Ascii(Decimal(n)) && 1 <= |Decimal(n)| <= 20
  {
    assert Pow10(10) == 10_000_000_000;
    Pow10Sum(10, 10);
    DecimalLength(n, 20);
  }

  lemma {:induction false} Pow10Sum(a: nat, b: nat)
    ensures Pow10(a + b) == Pow10(a) * Pow10(b)
  {
    if a > 0 {
      Pow10Sum(a - 1, b);
    }
  }

  function Join(parts: seq<string>, separator: string): string {
    if parts == [] then "" else if |parts| == 1 then parts[0] else parts[0] + separator + Join(parts[1..], separator)
  }

  function AsStr(v: Option<Json>): Option<string> {
    if v.Some? && v.value.JStr? then Some(v.value.s) else None
  }

  /** The text of one content block: its "text" field, or the block itself when it is a string. */
  function BlockText(block: Json): Option<string> {
    var text := AsStr(block.Get("text"));
    if text.Some? then text else AsStr(Some(block))
  }

  function BlockTexts(blocks: seq<Json>): seq<string> {
    if blocks == [] then []
    else (if BlockText(blocks[0]).Some? then [BlockText(blocks[0]).value] else []) + BlockTexts(blocks[1..])
  }

  function ContentText(content: Json): string {
    match content
    case JStr(s) => s
    case JArr(blocks) => Join(BlockTexts(blocks), " ")
    case _ => ""
  }

  /** The block is this text: a plain string, or an object with it under "text". */
  predicate Holds(block: Json, text: string) {
    block == JStr(text) || (block.JObj? && "text" in block.fields && block.fields["text"] == JStr(text))
  }

  /** The block is neither a string nor an object with a string under "text". */
  predicate HoldsNothing(block: Json) {
    !block.JStr? && (block.JObj? && "text" in block.fields ==> !block.fields["text"].JStr?)
  }

  /** Where part `i` starts when parts are set one space apart. */
  function Offset(parts: seq<string>, i: nat): nat
    requires i <= |parts|
  {
    if i == 0 then 0 else |parts[0]| + 1 + Offset(parts[1..], i - 1)
  }

  function TotalBytes(parts: seq<string>): nat {
    if parts == [] then 0 else ByteLen(parts[0]) + TotalBytes(parts[1..])
  }

  /** Every part stands in the text at its place, and one byte stands between each two. */
  ghost predicate Spaced(text: string, parts: seq<string>) {
    && (forall i | 0 <= i < |parts| ::
          Offset(parts, i) + |parts[i]| <= |text| && text[Offset(parts, i)..Offset(parts, i) + |parts[i]|] == parts[i])
    && ByteLen(text) == TotalBytes(parts) + if parts == [] then 0 else |parts| - 1
  }

  lemma {:induction false} JoinBytes(parts: seq<string>)
    ensures ByteLen(Join(parts, " ")) == TotalBytes(parts) + if parts == [] then 0 else |parts| - 1
  {
    if |parts| == 1 {
      assert parts[1..] == [];
    } else if |parts| > 1 {
      JoinBytes(parts[1..]);
      SpaceByte();
      ByteLenConcat(parts[0], " ");
      ByteLenConcat(parts[0] + " ", Join(parts[1..], " "));
    }
  }

  lemma Shifted(head: string, rest: string, o: nat, n: nat)
    requires o + n <= |rest|
    ensures (head + rest)[|head| + o..|head| + o + n] == rest[o..o + n]
  {
  }

  lemma {:induction false} PartStandsAt(parts: seq<string>, i: nat)
    requires i < |parts|
    ensures var text, o := Join(parts, " "), Offset(parts, i);
            o + |parts[i]| <= |text| && text[o..o + |parts[i]|] == parts[i]
  {
    if i == 0 {
      assert Join(parts, " ")[..|parts[0]|] == parts[0];
    } else {
      PartStandsAt(parts[1..], i - 1);
      Shifted(parts[0] + " ", Join(parts[1..], " "), Offset(parts[1..], i - 1), |parts[i]|);
    }
  }

  lemma JoinIsSpaced(parts: seq<string>)
    ensures Spaced(Join(parts, " "), parts)
  {
    JoinBytes(parts);
    forall i | 0 <= i < |parts|
      ensures var text, o := Join(parts, " "), Offset(parts, i);
              o + |parts[i]| <= |text| && text[o..o + |parts[i]|] == parts[i]
    {
      PartStandsAt(parts, i);
    }
  }

  lemma SpaceByte()
    ensures ByteLen(" ") == 1
  {
    assert " "[..0] == "";
  }

  lemma {:induction false} TextsOfBlocks(blocks: seq<Json>, parts: seq<string>)
    requires |blocks| == |parts| && forall i | 0 <= i < |blocks| :: Holds(blocks[i], parts[i])
    ensures BlockTexts(blocks) == parts
  {
    if blocks != [] {
      assert Holds(blocks[0], parts[0]);
      TextsOfBlocks(blocks[1..], parts[1..]);
    }
  }

  /** The text of array content holds the text of every block in order, a space apart. */
  lemma ArrayText(blocks: seq<Json>, parts: seq<string>)
    requires |blocks| == |parts| && forall i | 0 <= i < |blocks| :: Holds(blocks[i], parts[i])
    ensures Spaced(ContentText(JArr(blocks)), parts)
  {
    TextsOfBlocks(blocks, parts);
    JoinIsSpaced(parts);
  }

  /** Blocks without text count for nothing. */
  lemma TextlessBlockIsSkipped(a: seq<Json>, block: Json, b: seq<Json>)
    requires HoldsNothing(block)
    ensures ContentText(JArr(a + [block] + b)) == ContentText(JArr(a + b))
  {
    TextsSkip(a, block, b);
  }

  lemma {:induction false} TextsSkip(a: seq<Json>, block: Json, b: seq<Json>)
    requires HoldsNothing(block)
    ensures BlockTexts(a + [block] + b) == BlockTexts(a + b)
  {
    if a == [] {
      assert a + [block] + b == [block] + b && ([block] + b)[1..] == b && a + b == b;
    } else {
      assert (a + [block] + b)[0] == a[0] == (a + b)[0];
      assert (a + [block] + b)[1..] == a[1..] + [block] + b && (a + b)[1..] == a[1..] + b;
      TextsSkip(a[1..], block, b);
    }
  }

  /** A string is its own text, and anything else but an array has none. */
  lemma PlainText(content: Json)
    ensures content.JStr? ==> ContentText(content) == content.s
    ensures !content.JStr? && !content.JArr? ==> ContentText(content) == ""
  {
  }

  // ----- lines and trimming -----

  /** Unicode White_Space. */
  predicate IsWhitespace(c: char) {
    var n := c as int;
    || 0x09 <= n <= 0x0d || n == 0x20 || n == 0x85 || n == 0xa0 || n == 0x1680
    || 0x2000 <= n <= 0x200a || n == 0x2028 || n == 0x2029 || n == 0x202f || n == 0x205f || n == 0x3000
  }

  function Trim(s: string): string {
    if s != "" && IsWhitespace(s[0]) then Trim(s[1..])
    else if s != "" && IsWhitespace(s[|s| - 1]) then Trim(s[..|s| - 1])
    else s
  }

  function LineEnd(s: string): nat
    ensures LineEnd(s) <= |s|
    ensures LineEnd(s) < |s| ==> s[LineEnd(s)] == '\n'
  {
    if s == "" || s[0] == '\n' then 0 else 1 + LineEnd(s[1..])
  }

  /** The first line that is not blank, trimmed. */
  function FirstLine(s: string): Option<string> {
    var n := LineEnd(s);
    var line := Trim(s[..n]);
    if line != "" then Some(line) else if n < |s| then FirstLine(s[n + 1..]) else None
  }

  lemma {:induction false} TrimIsAscii(s: string)
    requires Ascii(s)
    ensures Ascii(Trim(s))
  {
    if s != "" && IsWhitespace(s[0]) {
      TrimIsAscii(s[1..]);
    } else if s != "" && IsWhitespace(s[|s| - 1]) {
      TrimIsAscii(s[..|s| - 1]);
    }
  }

  lemma {:induction false} FirstLineIsAscii(s: string)
    requires Ascii(s)
    ensures FirstLine(s).Some? ==> Ascii(FirstLine(s).value)
  {
    var n := LineEnd(s);
    TrimIsAscii(s[..n]);
    if Trim(s[..n]) == "" && n < |s| {
      FirstLineIsAscii(s[n + 1..]);
    }
  }

  predicate Blank(s: string) {
    forall i | 0 <= i < |s| :: IsWhitespace(s[i])
  }

  predicate OneLine(s: string) {
    forall i | 0 <= i < |s| :: s[i] != '\n'
  }

  lemma {:induction false} TrimOfBlank(s: string)
    requires Blank(s)
    ensures Trim(s) == ""
  {
    if s != "" {
      TrimOfBlank(s[1..]);
    }
  }

  /** Trimming takes the white space off both ends, and nothing else. */
  lemma {:induction false} TrimTakesBlanks(a: string, core: string, b: string)
    requires Blank(a) && Blank(b)
    requires core != "" && !IsWhitespace(core[0]) && !IsWhitespace(core[|core| - 1])
    ensures Trim(a + core + b) == core
    decreases |a| + |b|
  {
    var s := a + core + b;
    if a != "" {
      assert s[0] == a[0] && s[1..] == a[1..] + core + b;
      TrimTakesBlanks(a[1..], core, b);
    } else {
      assert s[0] == core[0];
      if b != "" {
        var init := b[..|b| - 1];
        assert s[|s| - 1] == b[|b| - 1] && s[..|s| - 1] == a + core + init;
        TrimTakesBlanks(a, core, init);
      } else {
        assert s == core;
      }
    }
  }

  lemma {:induction false} LineEndsAt(line: string, rest: string)
    requires OneLine(line)
    ensures LineEnd(line) == |line| && LineEnd(line + "\n" + rest) == |line|
  {
    var s := line + "\n" + rest;
    if line == "" {
      assert s[0] == '\n';
    } else {
      assert s[0] == line[0] && s[1..] == line[1..] + "\n" + rest;
      LineEndsAt(line[1..], rest);
    }
  }

  /** The first line that is not blank: blank ones are skipped, and the first other one is taken, trimmed. */
  lemma FirstLineIs(line: string, rest: string)
    requires OneLine(line)
    ensures Trim(line) != "" ==> FirstLine(line) == FirstLine(line + "\n" + rest) == Some(Trim(line))
    ensures Trim(line) == "" ==> FirstLine(line) == None && FirstLine(line + "\n" + rest) == FirstLine(rest)
  {
    LineEndsAt(line, rest);
    var s := line + "\n" + rest;
    assert line[..|line|] == line && s[..|line|] == line && s[|line| + 1..] == rest;
  }

  // ----- digits and bytes -----

  function ValueOf(digits: string): int {
    if digits == "" then 0 else 10 * ValueOf(digits[..|digits| - 1]) + (digits[|digits| - 1] as int - '0' as int)
  }

  /** The digits of a number, the first the most, say that number. */
  lemma {:induction false} DecimalSaysTheNumber(n: nat)
    ensures ValueOf(Decimal(n)) == n && forall c | c in Decimal(n) :: '0' <= c <= '9'
  {
    if n >= 10 {
      DecimalSaysTheNumber(n / 10);
      assert Decimal(n)[..|Decimal(n)| - 1] == Decimal(n / 10);
    } else {
      assert Decimal(n)[..0] == "";
    }
  }

  /** One byte up to U+007F, two up to U+07FF, three up to U+FFFF and four above. */
  lemma BytesOfCharacters()
    ensures CharBytes('a') == CharBytes('\U{007F}') == 1 && CharBytes('\U{0080}') == CharBytes('\U{07FF}') == 2
    ensures CharBytes('\U{0800}') == CharBytes('\U{FFFF}') == 3
            && CharBytes('\U{10000}') == CharBytes('\U{10FFFF}') == 4
  {
  }

  /** What counts as white space, and what does not. */
  lemma WhiteSpace()
    ensures forall c | c in [' ', '\t', '\n', '\r', '\U{000B}', '\U{000C}', '\U{0085}', '\U{00A0}'] :: IsWhitespace(c)
    ensures forall c | c in ['\U{1680}', '\U{2003}', '\U{2028}', '\U{2029}', '\U{202F}', '\U{205F}', '\U{3000}'] ::
            IsWhitespace(c)
    ensures forall c | c in ['a', '0', '_', '\0', '\U{001B}', '\U{200B}', '\U{FEFF}'] :: !IsWhitespace(c)
  {
  }
}
