/**
 Context slimming: oversized tool outputs in a request body are capped or replaced in place. The
 replacement is a function of the one tool body, so an unchanged message renders identically on every
 later turn, whatever is appended after it.
 */
module ContextSlim {
  import opened Common
  import opened Text

  datatype SlimConfig = SlimConfig(maxToolChars: nat, placeholderAfter: nat)

  datatype Stats = Stats(originalChars: nat, savedChars: nat, touched: nat) {
    function Plus(other: Stats): Stats {
      Stats(originalChars + other.originalChars, savedChars + other.savedChars, touched + other.touched)
    }
  }

  const NO_STATS := Stats(0, 0, 0)

  /** Slims every item and adds up the counters. */
  function SlimAll(f: Json -> (Json, Stats), items: seq<Json>): (seq<Json>, Stats) {
    if items == [] then ([], NO_STATS)
    else
      var n := |items| - 1;
      var done := SlimAll(f, items[..n]);
      (done.0 + [f(items[n]).0], done.1.Plus(f(items[n]).1))
  }

  function Total(measure: Json -> nat, items: seq<Json>): nat {
    if items == [] then 0 else Total(measure, items[..|items| - 1]) + measure(items[|items| - 1])
  }

  datatype SlimResult = SlimResult(body: Json, stats: Stats, modified: bool)

  const CUT_OPEN := "\n...[truncated by SmartGate: "
  const CUT_CLOSE := " chars]...\n"
  /** Bytes of the truncation marker without its number. */
  const CUT_BYTES := 40
  const TAIL_RESERVE := 80
  const OMITTED_OPEN := "[prior tool result omitted by SmartGate: ~"
  const OMITTED_ID := " chars, id="
  const OMITTED_CLUE := ", clue="
  const CLUE_CHARS := 80
  const ELLIPSIS := "\U{2026}"

  function AtMost(n: nat, s: string): nat {
    if n <= |s| then n else |s|
  }

  function HeadLen(max: nat): nat {
    7 * max / 10
  }

  function TailLen(max: nat): nat {
    if max >= HeadLen(max) + TAIL_RESERVE then max - HeadLen(max) - TAIL_RESERVE else 0
  }

  function Head(text: string, max: nat): string {
    text[..AtMost(HeadLen(max), text)]
  }

  function Tail(text: string, max: nat): string {
    text[|text| - AtMost(TailLen(max), text)..]
  }

  function Omitted(text: string, max: nat): nat {
    var kept := ByteLen(Head(text, max)) + ByteLen(Tail(text, max));
    if ByteLen(text) >= kept then ByteLen(text) - kept else 0
  }

  function HeadTail(text: string, max: nat): string {
    if ByteLen(text) <= max then text
    else Head(text, max) + (CUT_OPEN + Decimal(Omitted(text, max)) + CUT_CLOSE) + Tail(text, max)
  }

  function Clue(text: string): string {
    match FirstLine(text)
    case Some(line) => if |line| > CLUE_CHARS then line[..CLUE_CHARS] + ELLIPSIS else line
    case None => "tool output"
  }

  function Placeholder(text: string, id: Option<string>, originalLen: nat): string {
    (OMITTED_OPEN + Decimal(originalLen)) + (OMITTED_ID + id.GetOr("-")) + (OMITTED_CLUE + Clue(text)) + "]"
  }

  function Replacement(text: string, id: Option<string>, cfg: SlimConfig): Option<string> {
    if cfg.placeholderAfter > 0 && ByteLen(text) > cfg.placeholderAfter then Some(Placeholder(text, id, ByteLen(text)))
    else if ByteLen(text) > cfg.maxToolChars then Some(HeadTail(text, cfg.maxToolChars))
    else None
  }

  /** The tool text after slimming: a replacement counts only if it is shorter. */
  function Rendered(text: string, id: Option<string>, cfg: SlimConfig): Option<string> {
    var r := Replacement(text, id, cfg);
    if r.Some? && ByteLen(r.value) < ByteLen(text) then r else None
  }

  // ----- the rewrite of one message -----

  /** Slims the "content" of one holder: a tool message, or a tool_result block. */
  function SlimHolder(holder: Json, idKey: string, cfg: SlimConfig): (Json, Stats) {
    if !holder.JObj? || holder.Get("content").None? then (holder, NO_STATS)
    else
      var text := ContentText(holder.fields["content"]);
      match Rendered(text, AsStr(holder.Get(idKey)), cfg)
      case Some(short) =>
        (holder.(fields := holder.fields["content" := JStr(short)]),
            Stats(ByteLen(text), ByteLen(text) - ByteLen(short), 1))
      case None => (holder, Stats(ByteLen(text), 0, 0))
  }

  predicate IsToolMessage(m: Json) {
    m.Get("role") == Some(JStr("tool"))
  }

  predicate IsToolResult(block: Json) {
    block.Get("type") == Some(JStr("tool_result"))
  }

  function SlimBlock(block: Json, cfg: SlimConfig): (Json, Stats) {
    if IsToolResult(block) then SlimHolder(block, "tool_use_id", cfg) else (block, NO_STATS)
  }

  function BlockSlimmer(cfg: SlimConfig): Json -> (Json, Stats) {
    block => SlimBlock(block, cfg)
  }

  predicate HasBlocks(m: Json) {
    m.JObj? && m.Get("content").Some? && m.fields["content"].JArr?
  }

  function SlimMessage(m: Json, cfg: SlimConfig): (Json, Stats) {
    if IsToolMessage(m) then SlimHolder(m, "tool_call_id", cfg)
    else if HasBlocks(m) then
      var (blocks, stats) := SlimAll(BlockSlimmer(cfg), m.fields["content"].items);
      (m.(fields := m.fields["content" := JArr(blocks)]), stats)
    else (m, NO_STATS)
  }

  function MessageSlimmer(cfg: SlimConfig): Json -> (Json, Stats) {
    m => SlimMessage(m, cfg)
  }

  function SlimMessages(messages: seq<Json>, cfg: SlimConfig): (seq<Json>, Stats) {
    SlimAll(MessageSlimmer(cfg), messages)
  }

  // ----- the loops -----

  method SlimToolMessages(body: Json, cfg: SlimConfig) returns (r: SlimResult)
    ensures if body.Get("messages").Some? && body.fields["messages"].JArr? then
              var (messages, stats) := SlimMessages(body.fields["messages"].items, cfg);
              r == SlimResult(JObj(body.fields["messages" := JArr(messages)]), stats, stats.touched > 0)
            else r == SlimResult(body, NO_STATS, false)
  {
    if !body.JObj? || "messages" !in body.fields || !body.fields["messages"].JArr? {
      return SlimResult(body, NO_STATS, false);
    }
    var msgs, stats, modified := SlimEachMessage(body.fields["messages"].items, cfg);
    r := SlimResult(body.(fields := body.fields["messages" := JArr(msgs)]), stats, modified);
  }

  method SlimEachMessage(input: seq<Json>, cfg: SlimConfig) returns (msgs: seq<Json>, stats: Stats, modified: bool)
    ensures (msgs, stats) == SlimMessages(input, cfg) && modified == (stats.touched > 0)
  {
    msgs, stats, modified := input, NO_STATS, false;
    ghost var f := MessageSlimmer(cfg);
    var i := 0;
    while i < |msgs|
      invariant i <= |msgs| == |input|
      invariant forall k | 0 <= k < |msgs| :: msgs[k] == if k < i then f(input[k]).0 else input[k]
      invariant stats == SlimAll(f, input[..i]).1
      invariant modified == (stats.touched > 0)
    {
      SlimAllStep(f, input, i);
      var msg, more := SlimOneMessage(msgs[i], cfg);
      msgs := msgs[i := msg];
      stats := stats.Plus(more);
      modified := modified || more.touched > 0;
      i := i + 1;
    }
    SlimAllDone(f, input, msgs);
  }

  /** The loop body: an OpenAI tool message, or the tool_result blocks of an Anthropic message. */
  method SlimOneMessage(msg: Json, cfg: SlimConfig) returns (slim: Json, stats: Stats)
    ensures (slim, stats) == MessageSlimmer(cfg)(msg)
  {
    slim, stats := msg, NO_STATS;
    if msg.Get("role") == Some(JStr("tool")) {
      slim, stats := SlimOne(msg, "tool_call_id", cfg);
      return;
    }
    if !msg.JObj? || "content" !in msg.fields || !msg.fields["content"].JArr? {
      return;
    }
    var blocks;
    blocks, stats := SlimEachBlock(msg.fields["content"].items, cfg);
    slim := msg.(fields := msg.fields["content" := JArr(blocks)]);
  }

  method SlimEachBlock(input: seq<Json>, cfg: SlimConfig) returns (blocks: seq<Json>, stats: Stats)
    ensures (blocks, stats) == SlimAll(BlockSlimmer(cfg), input)
  {
    blocks, stats := input, NO_STATS;
    ghost var f := BlockSlimmer(cfg);
    var i := 0;
    while i < |blocks|
      invariant i <= |blocks| == |input|
      invariant forall k | 0 <= k < |blocks| :: blocks[k] == if k < i then f(input[k]).0 else input[k]
      invariant stats == SlimAll(f, input[..i]).1
    {
      SlimAllStep(f, input, i);
      if blocks[i].Get("type") == Some(JStr("tool_result")) {
        var block, more := SlimOne(blocks[i], "tool_use_id", cfg);
        blocks := blocks[i := block];
        stats := stats.Plus(more);
      }
      i := i + 1;
    }
    SlimAllDone(f, input, blocks);
  }

  method SlimOne(holder: Json, idKey: string, cfg: SlimConfig) returns (slim: Json, stats: Stats)
    requires holder.JObj?
    ensures (slim, stats) == SlimHolder(holder, idKey, cfg)
  {
    slim, stats := holder, NO_STATS;
    if "content" !in holder.fields {
      return;
    }
    var text := ContentText(holder.fields["content"]);
    stats := Stats(ByteLen(text), 0, 0);
    var replacement := Replacement(text, AsStr(holder.Get(idKey)), cfg);
    if replacement.Some? && ByteLen(replacement.value) < ByteLen(text) {
      stats := Stats(ByteLen(text), ByteLen(text) - ByteLen(replacement.value), 1);
      slim := holder.(fields := holder.fields["content" := JStr(replacement.value)]);
    }
  }

  lemma SlimAllStep(f: Json -> (Json, Stats), input: seq<Json>, i: nat)
    requires i < |input|
    ensures SlimAll(f, input[..i + 1]).1 == SlimAll(f, input[..i]).1.Plus(f(input[i]).1)
  {
    assert input[..i + 1][..i] == input[..i];
  }

  lemma SlimAllDone(f: Json -> (Json, Stats), input: seq<Json>, output: seq<Json>)
    requires |output| == |input| && forall k | 0 <= k < |output| :: output[k] == f(input[k]).0
    ensures output == SlimAll(f, input).0 && input[..|input|] == input
  {
    SlimAllPointwise(f, input);
  }

  lemma {:induction false} SlimAllPointwise(f: Json -> (Json, Stats), items: seq<Json>)
    ensures |SlimAll(f, items).0| == |items|
    ensures forall i | 0 <= i < |items| :: SlimAll(f, items).0[i] == f(items[i]).0
  {
    if items != [] {
      SlimAllPointwise(f, items[..|items| - 1]);
    }
  }

  // ----- cache stability -----

  lemma {:induction false} SlimAllConcat(f: Json -> (Json, Stats), a: seq<Json>, b: seq<Json>)
    ensures SlimAll(f, a + b).0 == SlimAll(f, a).0 + SlimAll(f, b).0
    ensures SlimAll(f, a + b).1 == SlimAll(f, a).1.Plus(SlimAll(f, b).1)
  {
    if b == [] {
      assert a + b == a;
    } else {
      var n := |b| - 1;
      assert (a + b)[..|a| + n] == a + b[..n];
      SlimAllConcat(f, a, b[..n]);
    }
  }

  /** Slimming is a homomorphism: what was rendered on earlier turns is never rendered differently
      because the history has grown. */
  lemma SlimIsHomomorphism(a: seq<Json>, b: seq<Json>, cfg: SlimConfig)
    ensures SlimMessages(a + b, cfg).0 == SlimMessages(a, cfg).0 + SlimMessages(b, cfg).0
    ensures SlimMessages(a + b, cfg).1 == SlimMessages(a, cfg).1.Plus(SlimMessages(b, cfg).1)
  {
    SlimAllConcat(MessageSlimmer(cfg), a, b);
  }

  // ----- conservation -----

  function HolderChars(holder: Json): nat {
    if holder.Get("content").None? then 0 else ByteLen(ContentText(holder.fields["content"]))
  }

  function BlockChars(): Json -> nat {
    block => if IsToolResult(block) then HolderChars(block) else 0
  }

  /** Bytes of tool text in one message. */
  function MessageChars(): Json -> nat {
    m =>
      if IsToolMessage(m) then HolderChars(m)
      else if HasBlocks(m) then Total(BlockChars(), m.fields["content"].items)
      else 0
  }

  function ToolChars(messages: seq<Json>): nat {
    Total(MessageChars(), messages)
  }

  /** Same object, but possibly another "content". */
  predicate SameButContent(a: Json, b: Json) {
    a == b ||
    (&& a.JObj? && b.JObj? && "content" in a.fields && "content" in b.fields
     && a.fields - {"content"} == b.fields - {"content"})
  }

  ghost predicate Conserves(f: Json -> (Json, Stats), measure: Json -> nat, item: Json) {
    && f(item).1.originalChars == measure(item)
    && measure(f(item).0) + f(item).1.savedChars == measure(item)
  }

  lemma {:induction false} TotalConserved(f: Json -> (Json, Stats), measure: Json -> nat, items: seq<Json>)
    requires forall i | 0 <= i < |items| :: Conserves(f, measure, items[i])
    ensures SlimAll(f, items).1.originalChars == Total(measure, items)
    ensures Total(measure, SlimAll(f, items).0) + SlimAll(f, items).1.savedChars == Total(measure, items)
  {
    if items != [] {
      var n := |items| - 1;
      TotalConserved(f, measure, items[..n]);
      assert SlimAll(f, items).0[..n] == SlimAll(f, items[..n]).0 by {
        SlimAllPointwise(f, items);
        SlimAllPointwise(f, items[..n]);
      }
      SlimAllPointwise(f, items);
      assert Conserves(f, measure, items[n]);
    }
  }

  lemma HolderConserves(holder: Json, idKey: string, cfg: SlimConfig)
    ensures var (slim, stats) := SlimHolder(holder, idKey, cfg);
            && stats.originalChars == HolderChars(holder)
            && HolderChars(slim) + stats.savedChars == HolderChars(holder)
            && SameButContent(holder, slim)
            && (stats.touched == 0 ==> slim == holder)
            && IsToolMessage(slim) == IsToolMessage(holder) && IsToolResult(slim) == IsToolResult(holder)
  {
    var slim := SlimHolder(holder, idKey, cfg).0;
    if slim != holder {
      assert slim.fields - {"content"} == holder.fields - {"content"};
      assert slim.Get("role") == holder.Get("role") && slim.Get("type") == holder.Get("type");
    }
  }

  lemma BlockConserves(block: Json, cfg: SlimConfig)
    ensures Conserves(BlockSlimmer(cfg), BlockChars(), block)
    ensures var slim := BlockSlimmer(cfg)(block).0;
            if IsToolResult(block) then SameButContent(block, slim) else slim == block
  {
  }

  /** Only tool bodies change: a tool message keeps everything but its content, and any other message
      keeps everything but the content of its tool_result blocks. */
  predicate OnlyToolBodiesDiffer(a: Json, b: Json) {
    if IsToolMessage(a) then SameButContent(a, b)
    else if !HasBlocks(a) then a == b
    else
      && SameButContent(a, b) && HasBlocks(b) && |b.fields["content"].items| == |a.fields["content"].items|
      && forall i | 0 <= i < |a.fields["content"].items| ::
           if IsToolResult(a.fields["content"].items[i]) then
               SameButContent(a.fields["content"].items[i], b.fields["content"].items[i])
           else a.fields["content"].items[i] == b.fields["content"].items[i]
  }

  lemma BlocksConserve(m: Json, cfg: SlimConfig)
    requires HasBlocks(m) && !IsToolMessage(m)
    ensures Conserves(MessageSlimmer(cfg), MessageChars(), m)
    ensures OnlyToolBodiesDiffer(m, MessageSlimmer(cfg)(m).0)
  {
    var blocks := m.fields["content"].items;
    var f := BlockSlimmer(cfg);
    forall i | 0 <= i < |blocks|
      ensures Conserves(f, BlockChars(), blocks[i])
      ensures if IsToolResult(blocks[i]) then SameButContent(blocks[i], f(blocks[i]).0) else f(blocks[i]).0 == blocks[i]
    {
      BlockConserves(blocks[i], cfg);
    }
    TotalConserved(f, BlockChars(), blocks);
    SlimAllPointwise(f, blocks);
    var slim := MessageSlimmer(cfg)(m).0;
    assert slim.fields["content"] == JArr(SlimAll(f, blocks).0);
    assert slim.fields - {"content"} == m.fields - {"content"};
    assert slim.Get("role") == m.Get("role");
  }

  lemma MessageConserves(m: Json, cfg: SlimConfig)
    ensures Conserves(MessageSlimmer(cfg), MessageChars(), m)
    ensures OnlyToolBodiesDiffer(m, MessageSlimmer(cfg)(m).0)
  {
    if IsToolMessage(m) {
      HolderConserves(m, "tool_call_id", cfg);
    } else if HasBlocks(m) {
      BlocksConserve(m, cfg);
    }
  }

  /** The tool text left in the output is exactly original - saved, and only tool bodies differ. */
  lemma SlimConserves(messages: seq<Json>, cfg: SlimConfig)
    ensures var (slim, stats) := SlimMessages(messages, cfg);
            && |slim| == |messages|
            && stats.originalChars == ToolChars(messages)
            && ToolChars(slim) + stats.savedChars == ToolChars(messages)
            && (forall i | 0 <= i < |messages| :: OnlyToolBodiesDiffer(messages[i], slim[i]))
  {
    var f := MessageSlimmer(cfg);
    forall i | 0 <= i < |messages|
      ensures Conserves(f, MessageChars(), messages[i]) && OnlyToolBodiesDiffer(messages[i], f(messages[i]).0)
    {
      MessageConserves(messages[i], cfg);
    }
    TotalConserved(f, MessageChars(), messages);
    SlimAllPointwise(f, messages);
  }
}
