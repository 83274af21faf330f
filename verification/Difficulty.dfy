/**
 How difficult a request looks: keywords of the user's own text plus the size of the whole context.
 The keyword lists are parameters, so the results hold for any lists.
 */
module Difficulty {
  import opened Common
  import opened Text

  const HIGH_THRESHOLD: real := 0.55
  const MEDIUM_THRESHOLD: real := 0.35

  /** Keyword tests, and the way a tool list is written out for counting. */
  datatype Lexicon = Lexicon(
    codeMarker: string -> bool,
    strongKeyword: (string, string) -> bool,
    taskKeyword: (string, string) -> bool,
    correction: string -> bool,
    render: Json -> string)

  // ----- tokens -----

  predicate IsWide(c: char) {
    var n := c as int;
    || 0x4e00 <= n <= 0x9fff || 0x3400 <= n <= 0x4dbf || 0x3040 <= n <= 0x30ff
    || 0xac00 <= n <= 0xd7af || 0xff00 <= n <= 0xffef
  }

  predicate IsNarrow(c: char) {
    !IsWide(c) && !IsWhitespace(c)
  }

  function Count(text: string, kind: char -> bool): nat {
    if text == "" then 0 else Count(text[..|text| - 1], kind) + if kind(text[|text| - 1]) then 1 else 0
  }

  /** A wide character is a token, four narrow ones are another; a started token counts, and one is the least. */
  function Estimate(text: string): nat {
    var tokens := Count(text, IsWide) + (Count(text, IsNarrow) + 3) / 4;
    if tokens < 1 then 1 else tokens
  }

  function Ceil(x: real): int {
    -(-x).Floor
  }

  method EstimateTokensFromText(text: string) returns (tokens: nat)
    ensures tokens == Estimate(text)
  {
    var wide, narrow := 0, 0;
    var i := 0;
    while i < |text|
      invariant i <= |text|
      invariant wide == Count(text[..i], IsWide) && narrow == Count(text[..i], IsNarrow)
    {
      assert text[..i + 1][..i] == text[..i];
      if IsWide(text[i]) {
        wide := wide + 1;
      } else if !IsWhitespace(text[i]) {
        narrow := narrow + 1;
      }
      i := i + 1;
    }
    assert text[..i] == text;
    var sum := wide as real * 1.0 + narrow as real / 4.0;
    QuartersRoundUp(wide, narrow);
    tokens := if Ceil(sum) < 1 then 1 else Ceil(sum);
  }

  lemma QuartersRoundUp(wide: nat, narrow: nat)
    ensures Ceil(wide as real * 1.0 + narrow as real / 4.0) == wide + (narrow + 3) / 4
  {
  }

  // ----- the request -----

  function Messages(body: Json): Option<seq<Json>> {
    var m := body.Get("messages");
    if m.Some? && m.value.JArr? then Some(m.value.items) else None
  }

  predicate IsUser(message: Json) {
    AsStr(message.Get("role")) == Some("user")
  }

  function ContentOf(message: Json): string {
    var content := message.Get("content");
    if content.Some? then ContentText(content.value) else ""
  }

  function LastUser(messages: seq<Json>): Option<nat> {
    if messages == [] then None
    else if IsUser(messages[|messages| - 1]) then Some(|messages| - 1)
    else LastUser(messages[..|messages| - 1])
  }

  function FirstUser(messages: seq<Json>): Option<Json> {
    if messages == [] then None else if IsUser(messages[0]) then Some(messages[0]) else FirstUser(messages[1..])
  }

  lemma {:induction false} LastUserIsUser(messages: seq<Json>)
    ensures LastUser(messages).Some? ==>
              && LastUser(messages).value < |messages| && IsUser(messages[LastUser(messages).value])
              && forall i | LastUser(messages).value < i < |messages| :: !IsUser(messages[i])
    ensures LastUser(messages).None? ==> forall i | 0 <= i < |messages| :: !IsUser(messages[i])
  {
    if messages != [] {
      LastUserIsUser(messages[..|messages| - 1]);
    }
  }

  /** Something follows the last user message: the request is a round of an agent's loop. */
  predicate ContinuesAfterLastUser(messages: seq<Json>) {
    LastUser(messages).Some? && LastUser(messages).value < |messages| - 1
  }

  predicate IsMidLoop(body: Json) {
    Messages(body).Some? && ContinuesAfterLastUser(Messages(body).value)
  }

  function Parts(messages: seq<Json>): seq<string> {
    if messages == [] then []
    else Parts(messages[..|messages| - 1])
         + (var content := messages[|messages| - 1].Get("content");
            if content.Some? then [ContentText(content.value)] else [])
  }

  function ToolParts(lex: Lexicon, body: Json): seq<string> {
    if body.Get("tools").Some? then [lex.render(body.Get("tools").value)] else []
  }

  function PromptText(lex: Lexicon, body: Json): string {
    Join(Parts(Messages(body).GetOr([])) + ToolParts(lex, body), "\n")
  }

  function Tokens(lex: Lexicon, body: Json): nat {
    Estimate(PromptText(lex, body))
  }

  function LowerChar(c: char): char {
    if 'A' <= c <= 'Z' then (c as int + 32) as char else c
  }

  function Lower(s: string): string {
    seq(|s|, i requires 0 <= i < |s| => LowerChar(s[i]))
  }

  /** The text that drives the difficulty: the original task inside a loop, else the latest instruction. */
  function TaskText(lex: Lexicon, body: Json): string {
    if Messages(body).None? then PromptText(lex, body)
    else
      var messages := Messages(body).value;
      if ContinuesAfterLastUser(messages) then
        if FirstUser(messages).Some? then ContentOf(FirstUser(messages).value) else ""
      else
        LastUserIsUser(messages);
        if LastUser(messages).Some? then ContentOf(messages[LastUser(messages).value]) else ""
  }

  predicate NonEmptyArray(v: Option<Json>) {
    v.Some? && v.value.JArr? && v.value.items != []
  }

  predicate HasTools(body: Json) {
    NonEmptyArray(body.Get("tools")) || NonEmptyArray(body.Get("functions"))
  }

  // ----- the score -----

  function Ramp(tokens: nat): real {
    var ramp := tokens as real / 24000.0;
    if ramp < 0.20 then ramp else 0.20
  }

  /** The context's own share, from its size alone. */
  function Load(tokens: nat): real {
    Ramp(tokens)
    + (if tokens > 60000 then 0.05 else 0.0)
    + (if tokens > 12000 then 0.05 else 0.0)
  }

  /** The share of the user's own words. */
  function TaskWeight(lex: Lexicon, text: string): real {
    (if lex.codeMarker(text) then 0.12 else 0.0)
    + (if lex.strongKeyword(Lower(text), text) then 0.50
       else if lex.taskKeyword(Lower(text), text) then 0.25 else 0.0)
  }

  /** The user spoke last and corrects the model. */
  predicate Corrected(lex: Lexicon, body: Json) {
    && Messages(body).Some? && !IsMidLoop(body)
    && (var messages := Messages(body).value;
        messages != [] && IsUser(messages[|messages| - 1]) && lex.correction(ContentOf(messages[|messages| - 1])))
  }

  predicate LongFreshTurn(body: Json) {
    Messages(body).Some? && !IsMidLoop(body) && |Messages(body).value| >= 8
  }

  /** The share of a fresh user turn. */
  function TurnWeight(lex: Lexicon, body: Json): real {
    (if LongFreshTurn(body) then 0.05 else 0.0) + (if Corrected(lex, body) then 0.30 else 0.0)
  }

  function Raw(lex: Lexicon, body: Json): real {
    0.15 + Load(Tokens(lex, body)) + TaskWeight(lex, TaskText(lex, body))
    + (if HasTools(body) then 0.08 else 0.0)
    + TurnWeight(lex, body)
  }

  function Difficulty(lex: Lexicon, body: Json): real {
    if Raw(lex, body) > 1.0 then 1.0 else Raw(lex, body)
  }

  lemma LoadGrows(a: nat, b: nat)
    requires a <= b
    ensures 0.0 <= Load(a) <= Load(b) <= 0.30
  {
  }

  method HeuristicDifficulty(lex: Lexicon, body: Json) returns (d: real)
    ensures d == Difficulty(lex, body) && 0.0 <= d <= 1.0
  {
    var taskText := TaskText(lex, body);
    var tokens := EstimateTokensFromText(PromptText(lex, body));
    d := 0.15;
    d := d + Ramp(tokens);
    if tokens > 60000 {
      d := d + 0.05;
    }
    if HasTools(body) {
      d := d + 0.08;
    }
    if lex.codeMarker(taskText) {
      d := d + 0.12;
    }
    if tokens > 12000 {
      d := d + 0.05;
    }
    assert d == 0.15 + Load(tokens) + (if HasTools(body) then 0.08 else 0.0)
                + if lex.codeMarker(taskText) then 0.12 else 0.0;
    if lex.strongKeyword(Lower(taskText), taskText) {
      d := d + 0.50;
    } else if lex.taskKeyword(Lower(taskText), taskText) {
      d := d + 0.25;
    }
    assert d == 0.15 + Load(tokens) + TaskWeight(lex, taskText) + if HasTools(body) then 0.08 else 0.0;
    d := d + TurnWeight(lex, body);
    assert d == Raw(lex, body);
    LoadGrows(tokens, tokens);
    d := if d < 0.0 then 0.0 else if d > 1.0 then 1.0 else d;
  }

  // ----- what tool output cannot do -----

  /** The user's own words carry no code, keyword or correction. */
  predicate PlainTask(lex: Lexicon, body: Json) {
    TaskWeight(lex, TaskText(lex, body)) == 0.0 && !Corrected(lex, body)
  }

  /** A plain task is never hard inside an agent's loop, however large its context grows. */
  lemma PlainLoopStaysBelowHigh(lex: Lexicon, body: Json)
    requires IsMidLoop(body) && TaskWeight(lex, TaskText(lex, body)) == 0.0
    ensures 0.15 < Difficulty(lex, body) <= 0.53 < HIGH_THRESHOLD
    ensures Tokens(lex, body) >= 4800 ==> Difficulty(lex, body) >= MEDIUM_THRESHOLD
  {
  }

  /**
   Outside a loop the size of the context does reach the high threshold by itself, but only with more
   than 60,000 tokens, tools and at least eight messages together.
   */
  lemma PlainTaskIsHardIff(lex: Lexicon, body: Json)
    requires PlainTask(lex, body)
    ensures Difficulty(lex, body) >= HIGH_THRESHOLD <==>
            && Tokens(lex, body) > 60000 && HasTools(body) && LongFreshTurn(body)
  {
  }

  /** Two lists of messages with the same roles and the same user messages. */
  ghost predicate SameUserView(a: seq<Json>, b: seq<Json>) {
    && |a| == |b|
    && forall i | 0 <= i < |a| :: IsUser(a[i]) == IsUser(b[i]) && (IsUser(a[i]) ==> a[i] == b[i])
  }

  lemma {:induction false} SameLastUser(a: seq<Json>, b: seq<Json>)
    requires SameUserView(a, b)
    ensures LastUser(a) == LastUser(b)
  {
    if a != [] {
      SameLastUser(a[..|a| - 1], b[..|b| - 1]);
    }
  }

  lemma {:induction false} SameFirstUser(a: seq<Json>, b: seq<Json>)
    requires SameUserView(a, b)
    ensures FirstUser(a) == FirstUser(b)
  {
    if a != [] {
      SameFirstUser(a[1..], b[1..]);
    }
  }

  lemma SameTaskText(lex: Lexicon, a: Json, b: Json)
    requires Messages(a).Some? && Messages(b).Some? && SameUserView(Messages(a).value, Messages(b).value)
    ensures TaskText(lex, a) == TaskText(lex, b) && Corrected(lex, a) == Corrected(lex, b)
  {
    var x, y := Messages(a).value, Messages(b).value;
    SameLastUser(x, y);
    SameFirstUser(x, y);
    LastUserIsUser(x);
    LastUserIsUser(y);
    if x != [] {
      assert IsUser(x[|x| - 1]) == IsUser(y[|y| - 1]);
    }
  }

  lemma SameTaskDiffersByLoad(lex: Lexicon, a: Json, b: Json)
    requires TaskText(lex, a) == TaskText(lex, b) && HasTools(a) == HasTools(b)
    requires LongFreshTurn(a) == LongFreshTurn(b) && Corrected(lex, a) == Corrected(lex, b)
    requires Tokens(lex, a) <= Tokens(lex, b)
    ensures Difficulty(lex, a) <= Difficulty(lex, b) <= Difficulty(lex, a) + Load(Tokens(lex, b)) - Load(Tokens(lex, a))
  {
    LoadGrows(Tokens(lex, a), Tokens(lex, b));
  }

  /** Whatever stands in assistant and tool messages, it moves the difficulty only through the number of tokens. */
  lemma OnlyTokensOfOtherMessagesCount(lex: Lexicon, a: Json, b: Json)
    requires Messages(a).Some? && Messages(b).Some? && SameUserView(Messages(a).value, Messages(b).value)
    requires HasTools(a) == HasTools(b) && Tokens(lex, a) <= Tokens(lex, b)
    ensures Difficulty(lex, a) <= Difficulty(lex, b) <= Difficulty(lex, a) + Load(Tokens(lex, b)) - Load(Tokens(lex, a))
    ensures Tokens(lex, a) == Tokens(lex, b) ==> Difficulty(lex, a) == Difficulty(lex, b)
  {
    SameTaskText(lex, a, b);
    SameLastUser(Messages(a).value, Messages(b).value);
    SameTaskDiffersByLoad(lex, a, b);
  }

  lemma {:induction false} RepeatedCount(c: char, n: nat, kind: char -> bool)
    ensures Count(seq(n, _ => c), kind) == if kind(c) then n else 0
  {
    if n > 0 {
      assert seq(n, _ => c)[..n - 1] == seq(n - 1, _ => c);
      RepeatedCount(c, n - 1, kind);
    }
  }

  function Message(role: string, content: string): Json {
    JObj(map["role" := JStr(role), "content" := JStr(content)])
  }

  /** Seven assistant messages of this content, and a user who says "hi". */
  function Chat(content: string): seq<Json> {
    seq(7, _ => Message("assistant", content)) + [Message("user", "hi")]
  }

  function ChatBody(content: string): Json {
    JObj(map["messages" := JArr(Chat(content)), "tools" := JArr([JNull])])
  }

  /** A plain request that is hard by the size of its context alone, whatever lexicon finds nothing in "hi". */
  lemma ContextAloneCanBeHard(lex: Lexicon)
    requires TaskWeight(lex, "hi") == 0.0 && !lex.correction("hi")
    ensures var body := ChatBody(seq(240_001, _ => 'x'));
            PlainTask(lex, body) && Difficulty(lex, body) == 0.58
  {
    var text := seq(240_001, _ => 'x');
    var body := ChatBody(text);
    assert IsUser(Chat(text)[7]) && Chat(text)[7] == Message("user", "hi");
    RepeatedCount('x', 240_001, IsNarrow);
    FirstPartCounts(lex, body, text);
  }

  lemma FirstPartCounts(lex: Lexicon, body: Json, text: string)
    requires Messages(body) == Some(Chat(text))
    ensures Tokens(lex, body) >= (Count(text, IsNarrow) + 3) / 4
  {
    var chat := Chat(text);
    assert chat == [chat[0]] + chat[1..] && chat[0] == Message("assistant", text);
    PartsConcat([chat[0]], chat[1..]);
    assert [chat[0]][..0] == [];
    var parts := Parts(chat) + ToolParts(lex, body);
    assert Parts([chat[0]]) == [text] && parts[0] == text;
    CountJoin(parts, IsNarrow);
  }

  // ----- growing histories -----

  lemma {:induction false} CountConcat(a: string, b: string, kind: char -> bool)
    ensures Count(a + b, kind) == Count(a, kind) + Count(b, kind)
  {
    if b == "" {
      assert a + b == a;
    } else {
      assert (a + b)[..|a + b| - 1] == a + b[..|b| - 1];
      CountConcat(a, b[..|b| - 1], kind);
    }
  }

  function Total(parts: seq<string>, kind: char -> bool): nat {
    if parts == [] then 0 else Count(parts[0], kind) + Total(parts[1..], kind)
  }

  /** Joining with line breaks adds nothing to the count. */
  lemma {:induction false} CountJoin(parts: seq<string>, kind: char -> bool)
    requires !kind('\n')
    ensures Count(Join(parts, "\n"), kind) == Total(parts, kind)
  {
    if |parts| == 1 {
      assert parts[1..] == [];
    } else if |parts| > 1 {
      CountJoin(parts[1..], kind);
      CountConcat(parts[0], "\n", kind);
      assert Count("\n", kind) == Count("\n"[..0], kind) + 0;
      CountConcat(parts[0] + "\n", Join(parts[1..], "\n"), kind);
    }
  }

  lemma {:induction false} TotalConcat(a: seq<string>, b: seq<string>, kind: char -> bool)
    ensures Total(a + b, kind) == Total(a, kind) + Total(b, kind)
  {
    if a == [] {
      assert a + b == b;
    } else {
      assert (a + b)[1..] == a[1..] + b;
      TotalConcat(a[1..], b, kind);
    }
  }

  lemma {:induction false} PartsConcat(a: seq<Json>, b: seq<Json>)
    ensures Parts(a + b) == Parts(a) + Parts(b)
  {
    if b == [] {
      assert a + b == a;
    } else {
      assert (a + b)[..|a + b| - 1] == a + b[..|b| - 1];
      PartsConcat(a, b[..|b| - 1]);
    }
  }

  lemma TotalGrows(before: seq<string>, added: seq<string>, after: seq<string>, kind: char -> bool)
    requires !kind('\n')
    ensures Count(Join(before + after, "\n"), kind) <= Count(Join(before + added + after, "\n"), kind)
  {
    CountJoin(before + after, kind);
    CountJoin(before + added + after, kind);
    TotalConcat(before, after, kind);
    TotalConcat(before, added, kind);
    TotalConcat(before + added, after, kind);
  }

  function WithMessages(body: Json, messages: seq<Json>): Json
    requires body.JObj?
  {
    JObj(body.fields["messages" := JArr(messages)])
  }

  lemma PromptOf(lex: Lexicon, body: Json, messages: seq<Json>)
    requires body.JObj?
    ensures PromptText(lex, WithMessages(body, messages)) == Join(Parts(messages) + ToolParts(lex, body), "\n")
  {
    assert WithMessages(body, messages).Get("tools") == body.Get("tools");
  }

  lemma EstimateGrows(a: string, b: string)
    requires Count(a, IsWide) <= Count(b, IsWide) && Count(a, IsNarrow) <= Count(b, IsNarrow)
    ensures Estimate(a) <= Estimate(b)
  {
  }

  lemma TokensGrow(lex: Lexicon, body: Json, history: seq<Json>, more: seq<Json>)
    requires body.JObj?
    ensures Tokens(lex, WithMessages(body, history)) <= Tokens(lex, WithMessages(body, history + more))
  {
    PartsConcat(history, more);
    var tools := ToolParts(lex, body);
    TotalGrows(Parts(history), Parts(more), tools, IsWide);
    TotalGrows(Parts(history), Parts(more), tools, IsNarrow);
    PromptOf(lex, body, history);
    PromptOf(lex, body, history + more);
    EstimateGrows(Join(Parts(history) + tools, "\n"), Join(Parts(history) + Parts(more) + tools, "\n"));
  }

  lemma {:induction false} TaskStays(history: seq<Json>, more: seq<Json>)
    requires LastUser(history).Some? && LastUser(more).None?
    ensures LastUser(history + more) == LastUser(history)
    ensures FirstUser(history + more) == FirstUser(history)
  {
    if more == [] {
      assert history + more == history;
    } else {
      var n := |more| - 1;
      assert history + more == (history + more[..n]) + [more[n]];
      TaskStays(history, more[..n]);
      LastUserIsUser(history);
      FirstIsKept(history, more);
    }
  }

  lemma {:induction false} FirstIsKept(history: seq<Json>, more: seq<Json>)
    requires exists i | 0 <= i < |history| :: IsUser(history[i])
    ensures FirstUser(history + more) == FirstUser(history)
  {
    assert (history + more)[0] == history[0];
    if !IsUser(history[0]) {
      assert (history + more)[1..] == history[1..] + more;
      var i :| 0 <= i < |history| && IsUser(history[i]);
      assert IsUser(history[1..][i - 1]);
      FirstIsKept(history[1..], more);
    }
  }

  lemma LoopTaskText(lex: Lexicon, body: Json, messages: seq<Json>)
    requires body.JObj? && ContinuesAfterLastUser(messages)
    ensures var b := WithMessages(body, messages);
            && IsMidLoop(b)
            && TaskText(lex, b) == (if FirstUser(messages).Some? then ContentOf(FirstUser(messages).value) else "")
  {
  }

  lemma ToolsStay(body: Json, a: seq<Json>, b: seq<Json>)
    requires body.JObj?
    ensures HasTools(WithMessages(body, a)) == HasTools(WithMessages(body, b))
  {
    var x, y := WithMessages(body, a), WithMessages(body, b);
    assert x.Get("tools") == y.Get("tools") && x.Get("functions") == y.Get("functions");
  }

  lemma TaskTextStays(lex: Lexicon, body: Json, history: seq<Json>, more: seq<Json>)
    requires body.JObj? && ContinuesAfterLastUser(history) && LastUser(more).None?
    ensures var early, late := WithMessages(body, history), WithMessages(body, history + more);
            && IsMidLoop(early) && IsMidLoop(late)
            && TaskText(lex, late) == TaskText(lex, early) && HasTools(late) == HasTools(early)
  {
    TaskStays(history, more);
    LoopTaskText(lex, body, history);
    LoopTaskText(lex, body, history + more);
    ToolsStay(body, history, history + more);
  }

  /**
   Rounds of one agent loop: as assistant and tool messages accumulate the driving text stays the same and
   the difficulty only rises, by at most 0.30 over the whole loop.
   */
  lemma LoopRaisesDifficultySlowly(lex: Lexicon, body: Json, history: seq<Json>, more: seq<Json>)
    requires body.JObj? && ContinuesAfterLastUser(history) && LastUser(more).None?
    ensures var early, late := WithMessages(body, history), WithMessages(body, history + more);
            && IsMidLoop(late) && TaskText(lex, late) == TaskText(lex, early)
            && Difficulty(lex, early) <= Difficulty(lex, late) <= Difficulty(lex, early) + 0.30
  {
    var early, late := WithMessages(body, history), WithMessages(body, history + more);
    TaskTextStays(lex, body, history, more);
    TokensGrow(lex, body, history, more);
    LoadGrows(1, Tokens(lex, early));
    LoadGrows(1, Tokens(lex, late));
    SameTaskDiffersByLoad(lex, early, late);
  }

  // ----- which text counts as the user's -----

  predicate HasRole(message: Json, role: string) {
    message.JObj? && "role" in message.fields && message.fields["role"] == JStr(role)
  }

  function TextOf(message: Json): string {
    if message.JObj? && "content" in message.fields then ContentText(message.fields["content"]) else ""
  }

  /** When the user spoke last, the last message is the text. */
  lemma LatestInstructionDecides(lex: Lexicon, body: Json, before: seq<Json>, m: Json)
    requires Messages(body) == Some(before + [m]) && HasRole(m, "user")
    ensures !IsMidLoop(body) && TaskText(lex, body) == TextOf(m)
  {
    var messages := before + [m];
    assert messages[|messages| - 1] == m;
  }

  /** When something follows the last user message, the first user message is the text. */
  lemma OriginalTaskDecides(lex: Lexicon, body: Json, before: seq<Json>, m: Json, rest: seq<Json>)
    requires Messages(body) == Some(before + [m] + rest) && HasRole(m, "user")
    requires forall i | 0 <= i < |before| :: !HasRole(before[i], "user")
    requires rest != [] && !HasRole(rest[|rest| - 1], "user")
    ensures IsMidLoop(body) && TaskText(lex, body) == TextOf(m)
  {
    FirstUserIs(before, m, rest);
    FollowedUser(before, m, rest);
  }

  lemma FollowedUser(before: seq<Json>, m: Json, rest: seq<Json>)
    requires IsUser(m) && rest != [] && !IsUser(rest[|rest| - 1])
    ensures ContinuesAfterLastUser(before + [m] + rest)
  {
    var messages := before + [m] + rest;
    LastUserIsUser(messages);
    assert messages[|before|] == m && messages[|messages| - 1] == rest[|rest| - 1];
  }

  lemma {:induction false} FirstUserIs(before: seq<Json>, m: Json, rest: seq<Json>)
    requires IsUser(m) && forall i | 0 <= i < |before| :: !IsUser(before[i])
    ensures FirstUser(before + [m] + rest) == Some(m)
  {
    if before != [] {
      assert (before + [m] + rest)[0] == before[0] && (before + [m] + rest)[1..] == before[1..] + [m] + rest;
      FirstUserIs(before[1..], m, rest);
    } else {
      assert (before + [m] + rest)[0] == m;
    }
  }

  /** Without a user message the text is empty; without messages it is everything there is. */
  lemma WithoutUser(lex: Lexicon, body: Json)
    ensures Messages(body).None? ==> TaskText(lex, body) == PromptText(lex, body) && !IsMidLoop(body)
    ensures Messages(body).Some? && (forall i | 0 <= i < |Messages(body).value| ::
            !HasRole(Messages(body).value[i], "user")) ==>
              TaskText(lex, body) == "" && !IsMidLoop(body)
  {
    if Messages(body).Some? {
      LastUserIsUser(Messages(body).value);
    }
  }

  // ----- every share of the score -----

  /** A lexicon that finds nothing. */
  function Silent(lex: Lexicon): Lexicon {
    Lexicon(_ => false, (_, _) => false, (_, _) => false, _ => false, lex.render)
  }

  predicate UserCorrects(lex: Lexicon, body: Json) {
    && Messages(body).Some? && !IsMidLoop(body)
    && (var messages := Messages(body).value;
        messages != [] && HasRole(messages[|messages| - 1], "user") && lex.correction(TextOf(messages[|messages| - 1])))
  }

  /** What the user's words add: 0.12 for code, 0.50 for a strong keyword or
      else 0.25 for a task keyword, and 0.30 for a
      correction. */
  lemma WordsAdd(lex: Lexicon, body: Json)
    ensures var text := TaskText(lex, body);
            var words := (if lex.codeMarker(text) then 0.12 else 0.0)
                         + (if lex.strongKeyword(Lower(text), text) then 0.50
                            else if lex.taskKeyword(Lower(text), text) then 0.25 else 0.0)
                         + (if UserCorrects(lex, body) then 0.30 else 0.0);
            var quiet := Difficulty(Silent(lex), body);
            Difficulty(lex, body) == if quiet + words > 1.0 then 1.0 else quiet + words
  {
    assert PromptText(Silent(lex), body) == PromptText(lex, body);
    LoadGrows(0, Tokens(lex, body));
  }

  predicate NamesTools(body: Json) {
    body.JObj? &&
    (|| ("tools" in body.fields && body.fields["tools"].JArr? && body.fields["tools"].items != [])
     || ("functions" in body.fields && body.fields["functions"].JArr? && body.fields["functions"].items != []))
  }

  /** What the rest adds: 0.08 for tools, 0.05 for a fresh turn after seven messages or more, and
      the load of the context. */
  lemma RestAdds(lex: Lexicon, body: Json)
    ensures Difficulty(Silent(lex), body) ==
            0.15 + Load(Tokens(lex, body)) + (if NamesTools(body) then 0.08 else 0.0)
            + if Messages(body).Some? && !IsMidLoop(body) && |Messages(body).value| >= 8 then 0.05 else 0.0
  {
    assert PromptText(Silent(lex), body) == PromptText(lex, body);
    LoadGrows(0, Tokens(lex, body));
  }

  /** The load rises with the tokens up to 4,800, and in two steps after 12,000 and after 60,000. */
  lemma LoadIs(tokens: nat)
    ensures tokens <= 4_800 ==> Load(tokens) * 24_000.0 == tokens as real
    ensures 4_800 <= tokens <= 12_000 ==> Load(tokens) == 0.20
    ensures 12_000 < tokens <= 60_000 ==> Load(tokens) == 0.25
    ensures 60_000 < tokens ==> Load(tokens) == 0.30
  {
  }

  // ----- what the estimate counts -----

  function Sum(messages: seq<Json>, kind: char -> bool): nat {
    if messages == [] then 0 else Sum(messages[..|messages| - 1], kind) + Count(TextOf(messages[|messages| - 1]), kind)
  }

  lemma {:induction false} PartsCount(messages: seq<Json>, kind: char -> bool)
    ensures Total(Parts(messages), kind) == Sum(messages, kind)
  {
    if messages != [] {
      var n := |messages| - 1;
      PartsCount(messages[..n], kind);
      var more := Parts(messages)[|Parts(messages[..n])|..];
      assert Parts(messages) == Parts(messages[..n]) + more;
      TotalConcat(Parts(messages[..n]), more, kind);
      TotalOfOne(TextOf(messages[n]), kind);
    }
  }

  lemma TotalOfOne(part: string, kind: char -> bool)
    ensures Total([part], kind) == Count(part, kind) && Total([], kind) == 0
  {
    assert [part][1..] == [];
  }

  /** Every message counts with its text, and so does the tool list as it is written out. */
  lemma EverythingCounts(lex: Lexicon, body: Json, kind: char -> bool)
    requires !kind('\n')
    ensures Count(PromptText(lex, body), kind) ==
            (if Messages(body).Some? then Sum(Messages(body).value, kind) else 0)
            + if body.JObj? && "tools" in body.fields then Count(lex.render(body.fields["tools"]), kind) else 0
  {
    var messages := Messages(body).GetOr([]);
    CountJoin(Parts(messages) + ToolParts(lex, body), kind);
    TotalConcat(Parts(messages), ToolParts(lex, body), kind);
    PartsCount(messages, kind);
    if body.Get("tools").Some? {
      TotalOfOne(lex.render(body.Get("tools").value), kind);
    }
  }

  /** Content spread over blocks counts as its texts. */
  lemma ArrayCounts(blocks: seq<Json>, parts: seq<string>, kind: char -> bool)
    requires |blocks| == |parts| && forall i | 0 <= i < |blocks| :: Holds(blocks[i], parts[i])
    requires !kind(' ')
    ensures Count(ContentText(JArr(blocks)), kind) == Total(parts, kind)
  {
    TextsOfBlocks(blocks, parts);
    CountSpaced(parts, kind);
  }

  lemma {:induction false} CountSpaced(parts: seq<string>, kind: char -> bool)
    requires !kind(' ')
    ensures Count(Join(parts, " "), kind) == Total(parts, kind)
  {
    if |parts| == 1 {
      assert parts[1..] == [];
    } else if |parts| > 1 {
      CountSpaced(parts[1..], kind);
      CountConcat(parts[0], " ", kind);
      assert Count(" ", kind) == Count(" "[..0], kind) + 0;
      CountConcat(parts[0] + " ", Join(parts[1..], " "), kind);
    }
  }

  /** Characters of Chinese, Japanese and Korean text and full-width forms are wide; white space is neither. */
  lemma CharacterKinds()
    ensures IsWide('\U{4E2D}') && IsWide('\U{3042}') && IsWide('\U{D55C}') && IsWide('\U{FF21}') && IsWide('\U{3400}')
    ensures IsNarrow('a') && IsNarrow('\U{00E9}') && IsNarrow('1') && IsNarrow('\U{1F600}')
    ensures forall c | c in [' ', '\n', '\t', '\r', '\U{3000}'] :: !IsWide(c) && !IsNarrow(c)
  {
  }

  /** Four narrow characters are a token, a fifth starts another, each wide one is a token, and nothing is one too. */
  lemma EstimateOf(text: string)
    ensures Count(text, IsWide) + Count(text, IsNarrow) > 0 ==>
              4 * Estimate(text) - 4 < 4 * Count(text, IsWide) + Count(text, IsNarrow) <= 4 * Estimate(text)
    ensures Count(text, IsWide) + Count(text, IsNarrow) == 0 ==> Estimate(text) == 1
  {
  }

  /** Keywords are looked for without regard to the case of ASCII letters, and of those only. */
  lemma LowerIs(s: string, i: nat)
    requires i < |s|
    ensures |Lower(s)| == |s|
    ensures 'A' <= s[i] <= 'Z' ==> 'a' <= Lower(s)[i] <= 'z' && Lower(s)[i] as int - s[i] as int == 32
    ensures !('A' <= s[i] <= 'Z') ==> Lower(s)[i] == s[i]
  {
  }
}
