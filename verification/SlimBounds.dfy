/**
 How long slimmed tool bodies are. Lengths are bytes but the head and tail are cut in characters, so
 the documented cap holds for ASCII bodies and can fail for others; the exact condition is given.
 */
module SlimBounds {
  import opened Common
  import opened Text
  import opened ContextSlim

  const USIZE: nat := 0x1_0000_0000_0000_0000
  /** Bytes of a placeholder without its number, id and clue. */
  const LABEL_BYTES := 61

  /** The body after slimming, replaced or not. */
  function Final(text: string, id: Option<string>, cfg: SlimConfig): string {
    Rendered(text, id, cfg).GetOr(text)
  }

  /** The placeholder threshold is off, or not below the cap. */
  predicate Ordered(cfg: SlimConfig) {
    cfg.placeholderAfter == 0 || cfg.placeholderAfter >= cfg.maxToolChars
  }

  lemma OmittedBound(text: string, max: nat)
    ensures Omitted(text, max) <= ByteLen(text)
  {
  }

  lemma MarkBytes(n: nat)
    requires n < USIZE
    ensures ByteLen(CUT_OPEN + Decimal(n) + CUT_CLOSE) == CUT_BYTES + |Decimal(n)|
  {
    UsizeLength(n);
    ByteLenBounds(CUT_OPEN + Decimal(n) + CUT_CLOSE);
  }

  /** A capped body is the kept head and tail plus the marker, in bytes, for any text. */
  lemma HeadTailBytes(text: string, max: nat)
    requires max < ByteLen(text) < USIZE
    ensures ByteLen(HeadTail(text, max)) ==
            ByteLen(Head(text, max)) + ByteLen(Tail(text, max)) + CUT_BYTES + |Decimal(Omitted(text, max))|
  {
    OmittedBound(text, max);
    var mark := CUT_OPEN + Decimal(Omitted(text, max)) + CUT_CLOSE;
    MarkBytes(Omitted(text, max));
    ByteLenConcat(Head(text, max), mark);
    ByteLenConcat(Head(text, max) + mark, Tail(text, max));
  }

  /** When the text has at least head + tail characters, what is kept is a true prefix and a true
      suffix, and the number printed is the size of what lies between them. */
  lemma KeptPartsAreExact(text: string, max: nat) returns (cut: string)
    requires |text| >= HeadLen(max) + TailLen(max) && ByteLen(text) > max
    ensures text == Head(text, max) + cut + Tail(text, max)
    ensures |Head(text, max)| == HeadLen(max) && |Tail(text, max)| == TailLen(max)
    ensures HeadTail(text, max) == Head(text, max) + (CUT_OPEN + Decimal(ByteLen(cut)) + CUT_CLOSE) + Tail(text, max)
  {
    cut := text[HeadLen(max)..|text| - TailLen(max)];
    assert text == Head(text, max) + cut + Tail(text, max);
    ByteLenConcat(Head(text, max), cut);
    ByteLenConcat(Head(text, max) + cut, Tail(text, max));
  }

  /** Every ASCII text over the cap has enough characters for that. */
  lemma AsciiKeepsExactParts(text: string, max: nat)
    requires Ascii(text) && ByteLen(text) > max
    ensures |text| >= HeadLen(max) + TailLen(max)
    ensures ByteLen(Head(text, max)) == HeadLen(max) && ByteLen(Tail(text, max)) == TailLen(max)
  {
    ByteLenBounds(text);
    ByteLenBounds(Head(text, max));
    ByteLenBounds(Tail(text, max));
  }

  /** For ASCII the cap is met exactly when the 30 percent not given to the head hold the marker. */
  lemma AsciiCapIff(text: string, max: nat)
    requires Ascii(text) && max < ByteLen(text) < USIZE
    ensures ByteLen(HeadTail(text, max)) <= max <==> CUT_BYTES + |Decimal(Omitted(text, max))| <= max - HeadLen(max)
  {
    HeadTailBytes(text, max);
    AsciiKeepsExactParts(text, max);
    OmittedBound(text, max);
    UsizeLength(Omitted(text, max));
  }

  // ----- wide characters -----

  /** Bytes beyond one per character. */
  function Extra(s: string): nat {
    ByteLenBounds(s);
    ByteLen(s) - |s|
  }

  /** What a cap leaves for the digits and for wide characters, once head, tail and marker have one byte each. */
  function Room(max: nat): int {
    max - HeadLen(max) - TailLen(max) - CUT_BYTES
  }

  /**
   For any text over the cap: what is kept fits exactly when head and tail do not meet and their wide
   characters leave room for the digits. From a cap of 267 on the room is 40 bytes.
   */
  lemma CappedBodyFitsIff(text: string, max: nat)
    requires max < ByteLen(text) < USIZE
    ensures ByteLen(HeadTail(text, max)) <= max <==>
            && |text| >= HeadLen(max) + TailLen(max)
            && Extra(Head(text, max)) + Extra(Tail(text, max)) + |Decimal(Omitted(text, max))| <= Room(max)
    ensures max >= 267 ==> Room(max) == 40
  {
    HeadTailBytes(text, max);
    var head, tail := Head(text, max), Tail(text, max);
    if |text| < HeadLen(max) + TailLen(max) {
      KeptCoversText(text, head, tail);
    }
  }

  /** A head and a tail that meet keep every byte. */
  lemma KeptCoversText(text: string, head: string, tail: string)
    requires |head| <= |text| && |tail| <= |text| <= |head| + |tail|
    requires head == text[..|head|] && tail == text[|text| - |tail|..]
    ensures ByteLen(text) <= ByteLen(head) + ByteLen(tail)
  {
    var rest, overlap := text[|head|..], text[|text| - |tail|..|head|];
    assert text == head + rest && tail == overlap + rest;
    ByteLenConcat(head, rest);
    ByteLenConcat(overlap, rest);
  }

  /** Checked before the call: at most 20 bytes beyond one per character never break a cap of 267 or more. */
  lemma MostlyAsciiFits(text: string, max: nat)
    requires ByteLen(text) < USIZE && max >= 267 && Extra(text) <= 20
    ensures ByteLen(HeadTail(text, max)) <= max
  {
    if ByteLen(text) > max {
      CappedBodyFitsIff(text, max);
      OmittedBound(text, max);
      UsizeLength(Omitted(text, max));
      var cut := KeptPartsAreExact(text, max);
      ByteLenConcat(Head(text, max), cut);
      ByteLenConcat(Head(text, max) + cut, Tail(text, max));
      ByteLenBounds(cut);
    }
  }

  // ----- placeholders -----

  lemma OpenLabelBytes()
    ensures ByteLen(OMITTED_OPEN) == 42
  {
    ByteLenBounds(OMITTED_OPEN);
  }

  lemma LabelBytes()
    ensures ByteLen(OMITTED_ID) == 11 && ByteLen(OMITTED_CLUE) == 7 && ByteLen("]") == 1
  {
    ByteLenBounds(OMITTED_ID);
    ByteLenBounds(OMITTED_CLUE);
    ByteLenBounds("]");
  }

  /** Bytes of a placeholder: its labels, the digits of the length, the id and the clue. */
  lemma PlaceholderBytes(text: string, id: Option<string>, n: nat)
    requires n < USIZE
    ensures ByteLen(Placeholder(text, id, n))
            == LABEL_BYTES + |Decimal(n)| + ByteLen(id.GetOr("-")) + ByteLen(Clue(text))
  {
    OpenLabelBytes();
    LabelBytes();
    UsizeLength(n);
    ByteLenBounds(Decimal(n));
    var p1, p2, p3 := OMITTED_OPEN + Decimal(n), OMITTED_ID + id.GetOr("-"), OMITTED_CLUE + Clue(text);
    ByteLenConcat(OMITTED_OPEN, Decimal(n));
    ByteLenConcat(OMITTED_ID, id.GetOr("-"));
    ByteLenConcat(OMITTED_CLUE, Clue(text));
    PartsBytes(p1, p2, p3, "]");
  }

  lemma PartsBytes(a: string, b: string, c: string, d: string)
    ensures ByteLen(a + b + c + d) == ByteLen(a) + ByteLen(b) + ByteLen(c) + ByteLen(d)
  {
    ByteLenConcat(a, b);
    ByteLenConcat(a + b, c);
    ByteLenConcat(a + b + c, d);
  }

  lemma EllipsisBytes()
    ensures ByteLen(ELLIPSIS) == 3
  {
    assert ELLIPSIS[..0] == "";
  }

  lemma ClueBytes(text: string)
    ensures ByteLen(Clue(text)) <= 4 * CLUE_CHARS + 3
    ensures Ascii(text) ==> ByteLen(Clue(text)) <= CLUE_CHARS + 3
  {
    if FirstLine(text).Some? {
      var line := FirstLine(text).value;
      if Ascii(text) {
        FirstLineIsAscii(text);
      }
      ByteLenBounds(line);
      if |line| > CLUE_CHARS {
        EllipsisBytes();
        ByteLenBounds(line[..CLUE_CHARS]);
        ByteLenConcat(line[..CLUE_CHARS], ELLIPSIS);
      }
    } else {
      ByteLenBounds("tool output");
    }
  }

  /** The placeholder rule applies: it is on, and the body is over its threshold. */
  predicate Collapses(text: string, cfg: SlimConfig) {
    cfg.placeholderAfter > 0 && ByteLen(text) > cfg.placeholderAfter
  }

  /** Checked before the call: from a cap of 468 on no placeholder is over it, whatever the text;
      for ASCII, from 228 on. */
  lemma PlaceholderFits(text: string, id: Option<string>, cfg: SlimConfig)
    requires ByteLen(text) < USIZE && Collapses(text, cfg) && (id.Some? ==> ByteLen(id.value) <= 64)
    requires cfg.maxToolChars >= 468 || (Ascii(text) && cfg.maxToolChars >= 228)
    ensures ByteLen(Final(text, id, cfg)) <= cfg.maxToolChars
  {
    PlaceholderBytes(text, id, ByteLen(text));
    UsizeLength(ByteLen(text));
    ByteLenBounds("-");
    ClueBytes(text);
  }

  /** Every ASCII body ends up within the cap, whether it was left alone, capped or replaced. */
  lemma EveryAsciiBodyFits(text: string, id: Option<string>, cfg: SlimConfig)
    requires Ascii(text) && ByteLen(text) < USIZE && (id.Some? ==> ByteLen(id.value) <= 64)
    requires cfg.maxToolChars >= 228 && Ordered(cfg)
    ensures ByteLen(Final(text, id, cfg)) <= cfg.maxToolChars
  {
    if ByteLen(text) > cfg.maxToolChars {
      if Collapses(text, cfg) {
        PlaceholderFits(text, id, cfg);
      } else {
        OmittedBound(text, cfg.maxToolChars);
        UsizeLength(Omitted(text, cfg.maxToolChars));
        AsciiCapIff(text, cfg.maxToolChars);
      }
    }
  }

  function HeadTailSize(text: string, max: nat): nat {
    ByteLen(Head(text, max)) + ByteLen(Tail(text, max)) + CUT_BYTES + |Decimal(Omitted(text, max))|
  }

  function PlaceholderSize(text: string, id: Option<string>): nat {
    LABEL_BYTES + |Decimal(ByteLen(text))| + ByteLen(id.GetOr("-")) + ByteLen(Clue(text))
  }

  /** Which rule applies to a body, and how long the candidate is. */
  lemma ReplacementBytes(text: string, id: Option<string>, cfg: SlimConfig)
    requires ByteLen(text) < USIZE
    ensures var r := Replacement(text, id, cfg);
            && (r.Some? <==> Collapses(text, cfg) || ByteLen(text) > cfg.maxToolChars)
            && (r.Some? && Collapses(text, cfg) ==> ByteLen(r.value) == PlaceholderSize(text, id))
            && (r.Some? && !Collapses(text, cfg) ==> ByteLen(r.value) == HeadTailSize(text, cfg.maxToolChars))
  {
    if Collapses(text, cfg) {
      PlaceholderBytes(text, id, ByteLen(text));
    } else if ByteLen(text) > cfg.maxToolChars {
      HeadTailBytes(text, cfg.maxToolChars);
    }
  }

  /** For every text, id and configuration: exactly when the body ends up within the cap. */
  lemma AnyBodyFitsIff(text: string, id: Option<string>, cfg: SlimConfig)
    requires ByteLen(text) < USIZE
    ensures var max := cfg.maxToolChars;
            ByteLen(Final(text, id, cfg)) <= max <==>
            || ByteLen(text) <= max
            || (if Collapses(text, cfg) then
                  PlaceholderSize(text, id) <= max
                else
                  && |text| >= HeadLen(max) + TailLen(max)
                  && Extra(Head(text, max)) + Extra(Tail(text, max)) + |Decimal(Omitted(text, max))| <= Room(max))
  {
    ReplacementBytes(text, id, cfg);
    if ByteLen(text) > cfg.maxToolChars && !Collapses(text, cfg) {
      CappedBodyFitsIff(text, cfg.maxToolChars);
    }
  }

  lemma {:induction false} RepeatedBytes(c: char, n: nat)
    ensures ByteLen(seq(n, _ => c)) == n * CharBytes(c)
  {
    if n > 0 {
      assert seq(n, _ => c)[..n - 1] == seq(n - 1, _ => c);
      RepeatedBytes(c, n - 1);
    }
  }

  /** 300 three-byte characters under a cap of 800: head and tail overlap, the candidate is longer
      than the text, and the body stays at 900 bytes. */
  lemma WideTextEscapesCap()
    ensures var text := seq(300, _ => '\U{4E2D}');
            && ByteLen(text) == 900
            && Final(text, None, SlimConfig(800, 0)) == text
  {
    var text := seq(300, _ => '\U{4E2D}');
    RepeatedBytes('\U{4E2D}', 300);
    RepeatedBytes('\U{4E2D}', 160);
    assert Head(text, 800) == text;
    assert Tail(text, 800) == seq(160, _ => '\U{4E2D}');
    HeadTailBytes(text, 800);
  }

  lemma TrimKeepsRepeated(c: char, n: nat)
    requires !IsWhitespace(c)
    ensures Trim(seq(n, _ => c)) == seq(n, _ => c)
  {
  }

  lemma {:induction false} RepeatedIsOneLine(c: char, n: nat)
    requires c != '\n'
    ensures LineEnd(seq(n, _ => c)) == n
  {
    if n > 0 {
      assert seq(n, _ => c)[1..] == seq(n - 1, _ => c);
      RepeatedIsOneLine(c, n - 1);
    }
  }

  /** A long line of one three-byte character leaves a clue of 80 of them and the ellipsis. */
  lemma WideClueBytes(n: nat)
    requires n > CLUE_CHARS
    ensures ByteLen(Clue(seq(n, _ => '\U{4E2D}'))) == 243
  {
    var text := seq(n, _ => '\U{4E2D}');
    RepeatedIsOneLine('\U{4E2D}', n);
    TrimKeepsRepeated('\U{4E2D}', n);
    assert text[..n] == text && text[..CLUE_CHARS] == seq(CLUE_CHARS, _ => '\U{4E2D}');
    RepeatedBytes('\U{4E2D}', CLUE_CHARS);
    EllipsisBytes();
    ByteLenConcat(text[..CLUE_CHARS], ELLIPSIS);
  }

  /** 400 three-byte characters on one line under a cap of 256, with the threshold at four times the cap:
      the placeholder itself has 309 bytes. */
  lemma WidePlaceholderEscapesCap()
    ensures var text, cfg := seq(400, _ => '\U{4E2D}'), SlimConfig(256, 1024);
            && Ordered(cfg) && Final(text, None, cfg) == Placeholder(text, None, 1200)
            && ByteLen(Final(text, None, cfg)) == 309
  {
    var text := seq(400, _ => '\U{4E2D}');
    RepeatedBytes('\U{4E2D}', 400);
    WideClueBytes(400);
    ByteLenBounds("-");
    assert Pow10(1) == 10 && Pow10(2) == 100 && Pow10(3) == 1000 && Pow10(4) == 10000;
    DecimalDigits(1200, 4);
    PlaceholderBytes(text, None, 1200);
  }

  // ----- slimming twice -----

  /** The tool body of this holder is ASCII, and its id is short. */
  predicate Plain(holder: Json, idKey: string) {
    holder.JObj? && "content" in holder.fields ==>
      var text, id := ContentText(holder.fields["content"]), AsStr(holder.Get(idKey));
      Ascii(text) && ByteLen(text) < USIZE && (id.Some? ==> ByteLen(id.value) <= 64)
  }

  predicate PlainMessage(m: Json) {
    if IsToolMessage(m) then Plain(m, "tool_call_id")
    else HasBlocks(m) ==>
      forall i | 0 <= i < |m.fields["content"].items| && IsToolResult(m.fields["content"].items[i]) ::
        Plain(m.fields["content"].items[i], "tool_use_id")
  }

  /** A second application changes nothing and counts nothing. */
  ghost predicate Settles(f: Json -> (Json, Stats), x: Json) {
    f(f(x).0).0 == f(x).0 && f(f(x).0).1.savedChars == 0 && f(f(x).0).1.touched == 0
  }

  lemma HolderSettles(holder: Json, idKey: string, cfg: SlimConfig)
    requires Plain(holder, idKey) && cfg.maxToolChars >= 228 && Ordered(cfg)
    ensures var once := SlimHolder(holder, idKey, cfg).0;
            SlimHolder(once, idKey, cfg).0 == once && SlimHolder(once, idKey, cfg).1.savedChars == 0
            && SlimHolder(once, idKey, cfg).1.touched == 0
  {
    if holder.JObj? && "content" in holder.fields {
      var text, id := ContentText(holder.fields["content"]), AsStr(holder.Get(idKey));
      EveryAsciiBodyFits(text, id, cfg);
      var once := SlimHolder(holder, idKey, cfg).0;
      assert ContentText(once.fields["content"]) == Final(text, id, cfg);
    }
  }

  lemma {:induction false} AllSettle(f: Json -> (Json, Stats), items: seq<Json>)
    requires forall i | 0 <= i < |items| :: Settles(f, items[i])
    ensures var once := SlimAll(f, items).0;
            SlimAll(f, once).0 == once && SlimAll(f, once).1.savedChars == 0 && SlimAll(f, once).1.touched == 0
  {
    if items != [] {
      var n := |items| - 1;
      AllSettle(f, items[..n]);
      var once := SlimAll(f, items).0;
      assert once == SlimAll(f, items[..n]).0 + [f(items[n]).0];
      SlimAllPointwise(f, items[..n]);
      assert once[..n] == SlimAll(f, items[..n]).0 && once[n] == f(items[n]).0;
      assert Settles(f, items[n]);
    }
  }

  lemma BlockSettles(block: Json, cfg: SlimConfig)
    requires (IsToolResult(block) ==> Plain(block, "tool_use_id")) && cfg.maxToolChars >= 228 && Ordered(cfg)
    ensures Settles(BlockSlimmer(cfg), block)
  {
    HolderConserves(block, "tool_use_id", cfg);
    if IsToolResult(block) {
      HolderSettles(block, "tool_use_id", cfg);
    }
  }

  lemma BlocksSettle(m: Json, cfg: SlimConfig)
    requires HasBlocks(m) && !IsToolMessage(m) && PlainMessage(m) && cfg.maxToolChars >= 228 && Ordered(cfg)
    ensures Settles(MessageSlimmer(cfg), m)
  {
    var blocks, f := m.fields["content"].items, BlockSlimmer(cfg);
    forall i | 0 <= i < |blocks|
      ensures Settles(f, blocks[i])
    {
      BlockSettles(blocks[i], cfg);
    }
    AllSettle(f, blocks);
    var once := SlimMessage(m, cfg).0;
    assert once.fields["content"] == JArr(SlimAll(f, blocks).0);
    assert once.Get("role") == m.Get("role");
  }

  /** Slimming twice equals slimming once. */
  lemma SlimIsIdempotent(messages: seq<Json>, cfg: SlimConfig)
    requires cfg.maxToolChars >= 228 && Ordered(cfg)
    requires forall i | 0 <= i < |messages| :: PlainMessage(messages[i])
    ensures var once := SlimMessages(messages, cfg).0;
            && SlimMessages(once, cfg).0 == once
            && SlimMessages(once, cfg).1.savedChars == 0 && SlimMessages(once, cfg).1.touched == 0
  {
    var f := MessageSlimmer(cfg);
    forall i | 0 <= i < |messages|
      ensures Settles(f, messages[i])
    {
      var m := messages[i];
      if IsToolMessage(m) {
        HolderConserves(m, "tool_call_id", cfg);
        HolderSettles(m, "tool_call_id", cfg);
      } else if HasBlocks(m) {
        BlocksSettle(m, cfg);
      }
    }
    AllSettle(f, messages);
  }

  // ----- slimming any text twice -----

  /** A body of any text stays as it is exactly when no rule applies or the candidate would not be shorter. */
  lemma BodyIsFixedIff(text: string, id: Option<string>, cfg: SlimConfig)
    requires ByteLen(text) < USIZE
    ensures Final(text, id, cfg) == text <==>
            if Collapses(text, cfg) then PlaceholderSize(text, id) >= ByteLen(text)
            else ByteLen(text) <= cfg.maxToolChars || HeadTailSize(text, cfg.maxToolChars) >= ByteLen(text)
  {
    ReplacementBytes(text, id, cfg);
  }

  /** Slimming the slimmed body changes nothing. */
  predicate BodySettles(text: string, id: Option<string>, cfg: SlimConfig) {
    Final(Final(text, id, cfg), id, cfg) == Final(text, id, cfg)
  }

  /** A capped body keeps its head and tail when it is capped again; only the marker is cut out. */
  lemma CappedAgain(text: string, max: nat)
    requires max < ByteLen(text) < USIZE && |text| >= HeadLen(max) + TailLen(max)
    ensures var capped := HeadTail(text, max);
            && Head(capped, max) == Head(text, max) && Tail(capped, max) == Tail(text, max)
            && Omitted(capped, max) == CUT_BYTES + |Decimal(Omitted(text, max))|
            && 41 <= Omitted(capped, max) <= 60
  {
    HeadTailBytes(text, max);
    OmittedBound(text, max);
    UsizeLength(Omitted(text, max));
    EndsOf(Head(text, max), CUT_OPEN + Decimal(Omitted(text, max)) + CUT_CLOSE, Tail(text, max), max);
  }

  lemma EndsOf(head: string, mark: string, tail: string, max: nat)
    requires |head| == HeadLen(max) && |tail| == TailLen(max)
    ensures Head(head + mark + tail, max) == head && Tail(head + mark + tail, max) == tail
  {
    var text := head + mark + tail;
    assert text[..|head|] == head && text[|text| - |tail|..] == tail;
  }

  lemma TwoDigits(n: nat)
    ensures 10 <= n < 100 ==> |Decimal(n)| == 2
    ensures n >= 100 ==> |Decimal(n)| > 2
    ensures n < 10 ==> |Decimal(n)| == 1
  {
  }

  /**
   A body of any text that is not turned into a placeholder is slimmed once and for all, unless its capped
   form is still over the cap and prints an omitted count of three digits or more. Then the second time
   cuts out the marker of the first, which is at least as long as the new one.
   */
  lemma CappedBodySettlesIff(text: string, id: Option<string>, cfg: SlimConfig)
    requires ByteLen(text) < USIZE && !Collapses(text, cfg)
    ensures BodySettles(text, id, cfg) <==>
            || Final(text, id, cfg) == text
            || ByteLen(Final(text, id, cfg)) <= cfg.maxToolChars
            || Omitted(text, cfg.maxToolChars) < 100
  {
    var max, once := cfg.maxToolChars, Final(text, id, cfg);
    BodyIsFixedIff(text, id, cfg);
    if once != text {
      HeadTailBytes(text, max);
      if |text| < HeadLen(max) + TailLen(max) {
        KeptCoversText(text, Head(text, max), Tail(text, max));
      }
      BodyIsFixedIff(once, id, cfg);
      if ByteLen(once) > max {
        CappedAgain(text, max);
        TwoDigits(Omitted(text, max));
        TwoDigits(Omitted(once, max));
      }
    }
  }

  /** 1,000 three-byte characters under a cap of 800: 2,203 bytes after the first time, fewer after the second. */
  lemma WideTextSlimsTwice()
    ensures var text, cfg := seq(1000, _ => '\U{4E2D}'), SlimConfig(800, 0);
            ByteLen(Final(text, None, cfg)) == 2203 && !BodySettles(text, None, cfg)
  {
    var text, cfg := seq(1000, _ => '\U{4E2D}'), SlimConfig(800, 0);
    RepeatedBytes('\U{4E2D}', 1000);
    RepeatedBytes('\U{4E2D}', 560);
    RepeatedBytes('\U{4E2D}', 160);
    assert Head(text, 800) == seq(560, _ => '\U{4E2D}') && Tail(text, 800) == seq(160, _ => '\U{4E2D}');
    HeadTailBytes(text, 800);
    assert Pow10(1) == 10 && Pow10(2) == 100 && Pow10(3) == 1000;
    DecimalDigits(840, 3);
    assert Omitted(text, 800) == 840;
    CappedBodySettlesIff(text, None, cfg);
  }

  /** The tool body of the holder, if it has one, settles. */
  predicate HolderBodySettles(holder: Json, idKey: string, cfg: SlimConfig) {
    holder.JObj? && "content" in holder.fields ==>
      BodySettles(ContentText(holder.fields["content"]), AsStr(holder.Get(idKey)), cfg)
  }

  predicate ToolBodiesSettle(m: Json, cfg: SlimConfig) {
    if IsToolMessage(m) then HolderBodySettles(m, "tool_call_id", cfg)
    else HasBlocks(m) ==>
      forall i | 0 <= i < |m.fields["content"].items| && IsToolResult(m.fields["content"].items[i]) ::
        HolderBodySettles(m.fields["content"].items[i], "tool_use_id", cfg)
  }

  ghost predicate Repeats(f: Json -> (Json, Stats), x: Json) {
    f(f(x).0).0 == f(x).0
  }

  lemma HolderRepeatsIff(holder: Json, idKey: string, cfg: SlimConfig)
    requires idKey != "content"
    ensures var once := SlimHolder(holder, idKey, cfg).0;
            SlimHolder(once, idKey, cfg).0 == once <==> HolderBodySettles(holder, idKey, cfg)
  {
    if holder.JObj? && "content" in holder.fields {
      var text, id := ContentText(holder.fields["content"]), AsStr(holder.Get(idKey));
      var once := SlimHolder(holder, idKey, cfg).0;
      assert ContentText(once.fields["content"]) == Final(text, id, cfg) && once.Get(idKey) == holder.Get(idKey);
      var twice := SlimHolder(once, idKey, cfg).0;
      assert Rendered(Final(text, id, cfg), id, cfg).Some? ==> twice.fields["content"] != once.fields["content"];
    }
  }

  lemma AllRepeatIff(f: Json -> (Json, Stats), items: seq<Json>)
    ensures var once := SlimAll(f, items).0;
            SlimAll(f, once).0 == once <==> forall i | 0 <= i < |items| :: Repeats(f, items[i])
  {
    SlimAllPointwise(f, items);
    SlimAllPointwise(f, SlimAll(f, items).0);
    SameAtIff(SlimAll(f, SlimAll(f, items).0).0, SlimAll(f, items).0);
  }

  lemma SameAtIff(a: seq<Json>, b: seq<Json>)
    requires |a| == |b|
    ensures a == b <==> forall i | 0 <= i < |a| :: a[i] == b[i]
  {
  }

  lemma BlockRepeatsIff(block: Json, cfg: SlimConfig)
    ensures Repeats(BlockSlimmer(cfg), block) <==>
            (IsToolResult(block) ==> HolderBodySettles(block, "tool_use_id", cfg))
  {
    HolderConserves(block, "tool_use_id", cfg);
    HolderRepeatsIff(block, "tool_use_id", cfg);
  }

  lemma BlocksRepeatIff(m: Json, cfg: SlimConfig)
    requires HasBlocks(m) && !IsToolMessage(m)
    ensures Repeats(MessageSlimmer(cfg), m) <==> ToolBodiesSettle(m, cfg)
  {
    var blocks, f := m.fields["content"].items, BlockSlimmer(cfg);
    forall i | 0 <= i < |blocks|
      ensures Repeats(f, blocks[i]) <==> (IsToolResult(blocks[i]) ==> HolderBodySettles(blocks[i], "tool_use_id", cfg))
    {
      BlockRepeatsIff(blocks[i], cfg);
    }
    AllRepeatIff(f, blocks);
    BlocksRepeat(m, cfg);
  }

  lemma BlocksRepeat(m: Json, cfg: SlimConfig)
    requires HasBlocks(m) && !IsToolMessage(m)
    ensures var once := SlimAll(BlockSlimmer(cfg), m.fields["content"].items).0;
            Repeats(MessageSlimmer(cfg), m) <==> SlimAll(BlockSlimmer(cfg), once).0 == once
  {
    var once := SlimMessage(m, cfg).0;
    assert once.fields["content"] == JArr(SlimAll(BlockSlimmer(cfg), m.fields["content"].items).0);
    assert once.Get("role") == m.Get("role");
    var twice := SlimMessage(once, cfg).0;
    assert twice.fields["content"] == JArr(SlimAll(BlockSlimmer(cfg), once.fields["content"].items).0);
    assert twice.fields == once.fields["content" := twice.fields["content"]];
  }

  /** For any messages: slimming twice equals slimming once if and only if every tool body settles. */
  lemma SlimIsIdempotentIff(messages: seq<Json>, cfg: SlimConfig)
    ensures var once := SlimMessages(messages, cfg).0;
            SlimMessages(once, cfg).0 == once <==>
            forall i | 0 <= i < |messages| :: ToolBodiesSettle(messages[i], cfg)
  {
    var f := MessageSlimmer(cfg);
    forall i | 0 <= i < |messages|
      ensures Repeats(f, messages[i]) <==> ToolBodiesSettle(messages[i], cfg)
    {
      var m := messages[i];
      if IsToolMessage(m) {
        HolderConserves(m, "tool_call_id", cfg);
        HolderRepeatsIff(m, "tool_call_id", cfg);
      } else if HasBlocks(m) {
        BlocksRepeatIff(m, cfg);
      }
    }
    AllRepeatIff(f, messages);
  }
}
