/**
 Which messages slimming rewrites, told by their fields: a message with role "tool", and in any other message
 each block of type "tool_result". The text of a body may be spread over an array of blocks.
 */
module SlimCases {
  import opened Common
  import opened Text
  import opened ContextSlim
  import opened SlimBounds

  function StringField(fields: map<string, Json>, key: string): Option<string> {
    if key in fields && fields[key].JStr? then Some(fields[key].s) else None
  }

  /** The object with its body slimmed, and what is counted for it. */
  function SlimmedBody(fields: map<string, Json>, id: Option<string>, cfg: SlimConfig): (Json, Stats)
    requires "content" in fields
  {
    var text := ContentText(fields["content"]);
    var final := Final(text, id, cfg);
    if final == text then (JObj(fields), Stats(ByteLen(text), 0, 0))
    else (JObj(fields["content" := JStr(final)]), Stats(ByteLen(text), ByteLen(text) - ByteLen(final), 1))
  }

  lemma FinalIsNotLonger(text: string, id: Option<string>, cfg: SlimConfig)
    ensures Final(text, id, cfg) == text || ByteLen(Final(text, id, cfg)) < ByteLen(text)
  {
  }

  lemma HolderCase(fields: map<string, Json>, key: string, cfg: SlimConfig)
    requires "content" in fields
    ensures SlimHolder(JObj(fields), key, cfg) == SlimmedBody(fields, StringField(fields, key), cfg)
  {
    FinalIsNotLonger(ContentText(fields["content"]), StringField(fields, key), cfg);
  }

  lemma OneItem(f: Json -> (Json, Stats), x: Json)
    ensures SlimAll(f, [x]) == ([f(x).0], f(x).1)
  {
    var items := [x];
    var none := items[..0];
    assert SlimAll(f, none) == ([], NO_STATS);
    assert SlimAll(f, items) == (SlimAll(f, none).0 + [f(x).0], NO_STATS.Plus(f(x).1));
    assert SlimAll(f, none).0 + [f(x).0] == [f(x).0];
    assert NO_STATS.Plus(f(x).1) == f(x).1;
  }

  lemma OneMessage(m: Json, cfg: SlimConfig)
    ensures SlimMessages([m], cfg) == ([SlimMessage(m, cfg).0], SlimMessage(m, cfg).1)
  {
    OneItem(MessageSlimmer(cfg), m);
  }

  /** A message with role "tool" has its content slimmed, under the id in "tool_call_id". */
  lemma ToolMessageIsSlimmed(fields: map<string, Json>, cfg: SlimConfig)
    requires "role" in fields && fields["role"] == JStr("tool") && "content" in fields
    ensures var (slim, stats) := SlimmedBody(fields, StringField(fields, "tool_call_id"), cfg);
            SlimMessages([JObj(fields)], cfg) == ([slim], stats)
  {
    OneMessage(JObj(fields), cfg);
    HolderCase(fields, "tool_call_id", cfg);
  }

  /** In any other message with array content each block of type "tool_result" has its content slimmed, under the id
      in "tool_use_id", and every other block stays. */
  lemma ToolResultIsSlimmed(fields: map<string, Json>, i: nat, cfg: SlimConfig)
    requires "role" in fields ==> fields["role"] != JStr("tool")
    requires "content" in fields && fields["content"].JArr? && i < |fields["content"].items|
    ensures var blocks, slim := fields["content"].items, SlimMessages([JObj(fields)], cfg).0[0];
            && slim.JObj? && "content" in slim.fields && slim.fields == fields["content" := slim.fields["content"]]
            && slim.fields["content"].JArr? && |slim.fields["content"].items| == |blocks|
            && slim.fields["content"].items[i] ==
               if blocks[i].JObj? && "type" in blocks[i].fields && blocks[i].fields["type"] == JStr("tool_result")
                  && "content" in blocks[i].fields
               then SlimmedBody(blocks[i].fields, StringField(blocks[i].fields, "tool_use_id"), cfg).0
               else blocks[i]
  {
    OneMessage(JObj(fields), cfg);
    var blocks := fields["content"].items;
    SlimAllPointwise(BlockSlimmer(cfg), blocks);
    BlockCase(blocks[i], cfg);
  }

  lemma BlockCase(block: Json, cfg: SlimConfig)
    ensures SlimBlock(block, cfg) ==
            if block.JObj? && "type" in block.fields && block.fields["type"] == JStr("tool_result")
                && "content" in block.fields
            then SlimmedBody(block.fields, StringField(block.fields, "tool_use_id"), cfg)
            else (block, NO_STATS)
  {
    if block.JObj? && "content" in block.fields {
      HolderCase(block.fields, "tool_use_id", cfg);
    }
  }

  /** What such a message counts is the sum over its blocks. */
  lemma {:induction false} BlockStatsAdd(blocks: seq<Json>, block: Json, cfg: SlimConfig)
    ensures SlimAll(BlockSlimmer(cfg), blocks + [block]).1
            == SlimAll(BlockSlimmer(cfg), blocks).1.Plus(SlimBlock(block, cfg).1)
  {
    assert (blocks + [block])[..|blocks|] == blocks;
  }

  /** Every other message stays, and counts nothing. */
  lemma OtherMessageStays(m: Json, cfg: SlimConfig)
    requires m.JObj? && "role" in m.fields ==> m.fields["role"] != JStr("tool")
    requires m.JObj? && "content" in m.fields ==> !m.fields["content"].JArr?
    ensures SlimMessages([m], cfg) == ([m], NO_STATS)
  {
    OneMessage(m, cfg);
  }

  /** A body over the cap, below the placeholder threshold, is capped when that makes it shorter. */
  lemma CapsWhenShorter(text: string, id: Option<string>, cfg: SlimConfig)
    requires cfg.maxToolChars < ByteLen(text) < USIZE && !Collapses(text, cfg)
    requires HeadTailSize(text, cfg.maxToolChars) < ByteLen(text)
    ensures Final(text, id, cfg) == HeadTail(text, cfg.maxToolChars)
    ensures ByteLen(Final(text, id, cfg)) == HeadTailSize(text, cfg.maxToolChars)
  {
    ReplacementBytes(text, id, cfg);
  }

  lemma CountsShorter(fields: map<string, Json>, id: Option<string>, cfg: SlimConfig)
    requires "content" in fields
    requires ByteLen(Final(ContentText(fields["content"]), id, cfg)) < ByteLen(ContentText(fields["content"]))
    ensures var text := ContentText(fields["content"]);
            var final := Final(text, id, cfg);
            SlimmedBody(fields, id, cfg) ==
            (JObj(fields["content" := JStr(final)]), Stats(ByteLen(text), ByteLen(text) - ByteLen(final), 1))
  {
  }

  lemma ToolTextIsCapped(fields: map<string, Json>, text: string, cfg: SlimConfig)
    requires "role" in fields && fields["role"] == JStr("tool") && "content" in fields
            && text == ContentText(fields["content"])
    requires cfg.maxToolChars < ByteLen(text) < USIZE && !Collapses(text, cfg)
    requires HeadTailSize(text, cfg.maxToolChars) < ByteLen(text)
    ensures SlimMessages([JObj(fields)], cfg) ==
            ([JObj(fields["content" := JStr(HeadTail(text, cfg.maxToolChars))])],
             Stats(ByteLen(text), ByteLen(text) - HeadTailSize(text, cfg.maxToolChars), 1))
    ensures ByteLen(HeadTail(text, cfg.maxToolChars)) == HeadTailSize(text, cfg.maxToolChars)
  {
    var id := StringField(fields, "tool_call_id");
    CapsWhenShorter(text, id, cfg);
    ToolMessageIsSlimmed(fields, cfg);
    CountsShorter(fields, id, cfg);
  }

  /** The size of a body spread over blocks: its texts and the spaces between them. */
  function SpreadSize(parts: seq<string>): nat
    requires parts != []
  {
    TotalBytes(parts) + |parts| - 1
  }

  lemma SpreadText(blocks: seq<Json>, parts: seq<string>)
    requires |blocks| == |parts| > 0 && forall i | 0 <= i < |parts| :: Holds(blocks[i], parts[i])
    ensures Spaced(ContentText(JArr(blocks)), parts) && ByteLen(ContentText(JArr(blocks))) == SpreadSize(parts)
  {
    ArrayText(blocks, parts);
  }

  /** A body spread over blocks that is over the cap ends at the size of its capped form, if that is shorter. */
  lemma ArrayBodyIsCapped(fields: map<string, Json>, text: string, parts: seq<string>, cfg: SlimConfig)
    requires "role" in fields && fields["role"] == JStr("tool") && "content" in fields && fields["content"].JArr?
    requires |fields["content"].items| == |parts| > 0
    requires forall i | 0 <= i < |parts| :: Holds(fields["content"].items[i], parts[i])
    requires text == ContentText(fields["content"]) && cfg.maxToolChars < SpreadSize(parts) < USIZE
    requires cfg.placeholderAfter == 0 || SpreadSize(parts) <= cfg.placeholderAfter
    requires HeadTailSize(text, cfg.maxToolChars) < SpreadSize(parts)
    ensures SlimMessages([JObj(fields)], cfg) ==
            ([JObj(fields["content" := JStr(HeadTail(text, cfg.maxToolChars))])],
             Stats(SpreadSize(parts), SpreadSize(parts) - HeadTailSize(text, cfg.maxToolChars), 1))
    ensures ByteLen(HeadTail(text, cfg.maxToolChars)) == HeadTailSize(text, cfg.maxToolChars)
  {
    SpreadText(fields["content"].items, parts);
    ToolTextIsCapped(fields, text, cfg);
  }

  function LongBlocks(): seq<Json> {
    [JObj(map["type" := JStr("text"), "text" := JStr(seq(1000, _ => 'x'))])]
  }

  function LongResult(): map<string, Json> {
    map["type" := JStr("tool_result"), "content" := JArr(LongBlocks())]
  }

  lemma LongText()
    ensures var text := seq(1000, _ => 'x');
            ContentText(JArr(LongBlocks())) == text && ByteLen(text) == 1000 && HeadTailSize(text, 800) == 763
  {
    var text := seq(1000, _ => 'x');
    assert Holds(LongBlocks()[0], text);
    TextsOfBlocks(LongBlocks(), [text]);
    LongCut(text);
  }

  lemma LongCut(text: string)
    requires text == seq(1000, _ => 'x')
    ensures ByteLen(text) == 1000 && HeadTailSize(text, 800) == 763
  {
    RepeatedBytes('x', 1000);
    RepeatedBytes('x', 560);
    RepeatedBytes('x', 160);
    assert Head(text, 800) == seq(560, _ => 'x') && Tail(text, 800) == seq(160, _ => 'x');
    assert Pow10(1) == 10 && Pow10(2) == 100 && Pow10(3) == 1000;
    DecimalDigits(280, 3);
  }

  lemma BlockTextIsCapped(fields: map<string, Json>, text: string, cfg: SlimConfig)
    requires "type" in fields && fields["type"] == JStr("tool_result")
    requires "content" in fields && text == ContentText(fields["content"])
    requires cfg.maxToolChars < ByteLen(text) < USIZE && !Collapses(text, cfg)
    requires HeadTailSize(text, cfg.maxToolChars) < ByteLen(text)
    ensures SlimBlock(JObj(fields), cfg) ==
            (JObj(fields["content" := JStr(HeadTail(text, cfg.maxToolChars))]),
             Stats(ByteLen(text), ByteLen(text) - HeadTailSize(text, cfg.maxToolChars), 1))
    ensures ByteLen(HeadTail(text, cfg.maxToolChars)) == HeadTailSize(text, cfg.maxToolChars)
  {
    var id := StringField(fields, "tool_use_id");
    CapsWhenShorter(text, id, cfg);
    BlockCase(JObj(fields), cfg);
    CountsShorter(fields, id, cfg);
  }

  /** A tool_result whose content is one text block of 1,000 characters, under a cap of 800: 763 are left. */
  lemma LongBlockIsCapped(text: string)
    requires text == seq(1000, _ => 'x')
    ensures SlimBlock(JObj(LongResult()), SlimConfig(800, 0)) ==
            (JObj(LongResult()["content" := JStr(HeadTail(text, 800))]), Stats(1000, 237, 1))
    ensures ByteLen(HeadTail(text, 800)) == 763
  {
    LongText();
    BlockTextIsCapped(LongResult(), text, SlimConfig(800, 0));
  }

  /** The clue is the first line that is not blank, trimmed and cut after 80 characters. */
  lemma ClueIsFirstLine(line: string, rest: string)
    requires OneLine(line)
    ensures Trim(line) == "" ==> Clue(line) == "tool output" && Clue(line + "\n" + rest) == Clue(rest)
    ensures 0 < |Trim(line)| <= 80 ==> Clue(line) == Clue(line + "\n" + rest) == Trim(line)
    ensures |Trim(line)| > 80 ==> Clue(line) == Clue(line + "\n" + rest) == Trim(line)[..80] + ELLIPSIS
  {
    FirstLineIs(line, rest);
  }

  /** A placeholder says how long the body was, which call it answered and how it began. */
  lemma PlaceholderShows(text: string, id: Option<string>, n: nat)
    ensures Placeholder(text, id, n)
         == ("[prior tool result omitted by SmartGate: ~" + Decimal(n))
             + (" chars, id=" + (if id.Some? then id.value else "-"))
            + (", clue=" + Clue(text)) + "]"
  {
  }

  /** The head gets seventy percent of the cap, rounded down, and the tail what is left after a reserve of 80. */
  lemma CutSizes(max: nat)
    ensures 10 * HeadLen(max) <= 7 * max < 10 * HeadLen(max) + 10
    ensures max >= HeadLen(max) + 80 ==> HeadLen(max) + 80 + TailLen(max) == max
    ensures max < HeadLen(max) + 80 ==> TailLen(max) == 0
  {
  }
}
