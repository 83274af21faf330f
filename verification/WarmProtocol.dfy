/**
 Warm sessions on Redis with any number of store instances. Each client is a program counter over
 the source's await points; between two of its steps other clients, key expiry and cleaners may run.
 A run is a sequence of actions, so every theorem here holds for every interleaving.
 */
module WarmProtocol {
  import opened Common
  import opened WarmScript
  import opened WarmDelivery

  /** What a client continues with once the binding lookup has answered. Here and below `readAt` is the
      length of the event log when the snapshot was read, and `wroteAt` its length after the script. */
  datatype Call =
    | PublishCall(input: PublishInput)
    | DeltaCall(context: DeltaContext, tail: seq<Json>, requested: Option<string>, snapshot: SessionPrefix, readAt: nat)

  datatype Outcome =
    | Failed(error: WarmError)
    | Published(body: SessionPrefix, wroteAt: nat, earlier: Option<SessionPrefix>,
                snapshot: SessionPrefix, model: Option<string>, readAt: nat)
    | Assembled(context: DeltaContext, tail: seq<Json>, messages: seq<Json>, readAt: nat)

  datatype Pc =
    | DeltaRead(context: DeltaContext, tail: seq<Json>, requested: Option<string>)
    | DeltaClear
    | BindRead(call: Call)
    | BindFetch(call: Call, expected: nat)
    | BindDrop(call: Call)
    | BindFill(call: Call, expected: nat, model: Option<string>)
    | BindTouch(call: Call, model: Option<string>)
    | PublishRead(input: PublishInput, existing: Option<string>)
    | PublishClear(input: PublishInput, existing: Option<string>)
    | PublishRun(body: SessionPrefix, effective: Option<string>, earlier: Option<SessionPrefix>)
    | PublishConfirm(body: SessionPrefix, wroteAt: nat, effective: Option<string>, earlier: Option<SessionPrefix>)
    | Finished(outcome: Outcome)

  datatype State = State(server: Server, clients: map<nat, Pc>, log: seq<Event>)

  const INITIAL := State(Server(None, None), map[], [])

  datatype Action =
    | StartPublish(id: nat, input: PublishInput)
    | StartDelta(id: nat, context: DeltaContext, tail: seq<Json>, requested: Option<string>)
    | Advance(id: nat, now: int)
    | Environment(op: ServerOp)

  /** The binding lookup has answered: compare Virtual Models and go on. */
  function Resume(cfg: Config, call: Call, bound: Option<string>): Pc {
    match call
    case PublishCall(input) =>
      if bound.Some? && input.model.Some? && bound != input.model then Finished(Failed(VirtualModelMismatch))
      else PublishRead(input, bound)
    case DeltaCall(context, tail, requested, snapshot, readAt) =>
      if bound.Some? && requested.Some? && bound != requested then Finished(Failed(VirtualModelMismatch))
      else
        match Assemble(cfg, snapshot, context, tail)
        case Ok(messages) => Finished(Assembled(context, tail, messages, readAt))
        case Err(error) => Finished(Failed(error))
  }

  function Touch(cfg: Config, read: Read, now: int): ServerOp {
    if read.Found? && cfg.touchOnRead then TouchPrefix(now) else Observe
  }

  /** The reader has fetched all fields of the binding hash. */
  function Fetched(cfg: Config, call: Call, expected: nat, b: BindingHash, now: int): Pc {
    if cfg.limits.maxLifetime > 0 && now - b.created.GetOr(now) >= cfg.limits.maxLifetime then BindDrop(call)
    else if b.epoch.None? then BindFill(call, expected, b.model)
    else if call.DeltaCall? && b.epoch != Some(expected) then Finished(Failed(StoreUnavailable))
    else if b.model.Some? then BindTouch(call, b.model)
    else Resume(cfg, call, None)
  }

  function RunPc(cfg: Config, input: PublishInput, existing: Option<string>, earlier: Option<SessionPrefix>): Pc {
    if CheckPublish(cfg, input).Some? then Finished(Failed(CheckPublish(cfg, input).value))
    else if !cfg.prefixFits(input.messages) then Finished(Failed(PrefixTooLarge))
    else PublishRun(BuildPrefix(cfg, input), if input.model.Some? then input.model else existing, earlier)
  }

  function PublishFailure(code: int): WarmError {
    if code == STALE then StaleEpoch else if code == CONFLICT then EpochConflict else VirtualModelMismatch
  }

  /** One atomic step of a client: its next program counter and what it does to the server. */
  function ClientStep(cfg: Config, s: Server, at: nat, pc: Pc, now: int): (Pc, ServerOp) {
    match pc
    case DeltaRead(context, tail, requested) =>
      var read := ReadPrefix(cfg.limits, s.prefix, now);
      (match read
       case Missing => Finished(Failed(SessionNotFound))
       case Outdated => DeltaClear
       case Found(p) => BindRead(DeltaCall(context, tail, requested, p, at)),
       Touch(cfg, read, now))
    case DeltaClear => (Finished(Failed(SessionExpired)), RunDelete)
    case BindRead(call) =>
      var read := ReadPrefix(cfg.limits, s.prefix, now);
      (match read
       case Missing => Resume(cfg, call, None)
       case Outdated => Finished(Failed(SessionExpired))
       case Found(p) => BindFetch(call, p.epoch),
       Touch(cfg, read, now))
    case BindFetch(call, expected) =>
      (if s.binding.None? then Resume(cfg, call, None) else Fetched(cfg, call, expected, s.binding.value, now), Observe)
    case BindDrop(call) => (Resume(cfg, call, None), EvictBinding)
    case BindFill(call, expected, model) =>
      (if model.Some? then BindTouch(call, model) else Resume(cfg, call, None), FillEpoch(expected))
    case BindTouch(call, model) => (Resume(cfg, call, model), TouchBinding(now))
    case PublishRead(input, existing) =>
      var read := ReadPrefix(cfg.limits, s.prefix, now);
      (match read
       case Missing => RunPc(cfg, input, existing, None)
       case Outdated => PublishClear(input, existing)
       case Found(p) => RunPc(cfg, input, existing, Some(p)),
       Touch(cfg, read, now))
    case PublishClear(input, existing) => (RunPc(cfg, input, existing, None), RunDelete)
    case PublishRun(body, effective, earlier) =>
      var code := Publish(cfg.limits, s, body, now, effective.GetOr("")).1;
      var op := RunPublish(body, now, effective.GetOr(""));
      (if code < 0 then Finished(Failed(PublishFailure(code)))
       else PublishConfirm(body, at + |Events(cfg.limits, s, op)|, effective, earlier),
       op)
    case PublishConfirm(body, wroteAt, effective, earlier) =>
      var read := ReadPrefix(cfg.limits, s.prefix, now);
      (match read
       case Missing =>
         if earlier.Some? then Finished(Published(body, wroteAt, earlier, earlier.value, effective, at))
         else Finished(Failed(SessionNotFound))
       case Outdated => Finished(Failed(SessionExpired))
       case Found(p) => Finished(Published(body, wroteAt, earlier, p, effective, at)),
       Touch(cfg, read, now))
    case Finished(_) => (pc, Observe)
  }

  /** Removals may happen at any time: deletes by other processes, key expiry, the periodic cleaner. */
  predicate Removal(op: ServerOp) {
    op.RunDelete? || op.EvictPrefix? || op.EvictBinding?
  }

  function Operation(cfg: Config, st: State, a: Action): ServerOp {
    match a
    case Advance(id, now) =>
      if id in st.clients then ClientStep(cfg, st.server, |st.log|, st.clients[id], now).1 else Observe
    case Environment(op) => if Removal(op) then op else Observe
    case _ => Observe
  }

  function NextClients(cfg: Config, st: State, a: Action): map<nat, Pc> {
    match a
    case StartPublish(id, input) =>
      st.clients[id := if CheckPublish(cfg, input).Some? then Finished(Failed(CheckPublish(cfg, input).value))
                       else BindRead(PublishCall(input))]
    case StartDelta(id, context, tail, requested) => st.clients[id := DeltaRead(context, tail, requested)]
    case Advance(id, now) =>
      if id in st.clients then st.clients[id := ClientStep(cfg, st.server, |st.log|, st.clients[id], now).0]
          else st.clients
    case Environment(_) => st.clients
  }

  function Next(cfg: Config, st: State, a: Action): State {
    var op := Operation(cfg, st, a);
    State(Apply(cfg.limits, st.server, op), NextClients(cfg, st, a), st.log + Events(cfg.limits, st.server, op))
  }

  function Run(cfg: Config, st: State, actions: seq<Action>): State
    decreases |actions|
  {
    if actions == [] then st else Run(cfg, Next(cfg, st, actions[0]), actions[1..])
  }

  // ----- what the event log says -----

  /** The prefix that is alive after these events. */
  function Current(log: seq<Event>): Option<SessionPrefix> {
    if log == [] then None
    else
      match log[|log| - 1]
      case Wrote(_, body) => Some(body)
      case Removed => None
      case Unbound => Current(log[..|log| - 1])
  }

  /** Result codes mean what they say, event by event. */
  ghost predicate Coherent(cfg: Config, log: seq<Event>) {
    log != [] ==>
      && Coherent(cfg, log[..|log| - 1])
      && match log[|log| - 1]
         case Wrote(code, body) =>
           var before := Current(log[..|log| - 1]);
           && WellFormed(cfg, body)
           && (code == CREATED || code == REPLACED || code == ALREADY_CURRENT)
           && (code == CREATED ==> before.None?)
           && (code == REPLACED ==> before.Some? && before.value.epoch < body.epoch)
           && (code == ALREADY_CURRENT ==> before == Some(body))
         case _ => true
  }

  ghost predicate NoRemoval(log: seq<Event>, from: nat, upto: nat) {
    forall k | from <= k < upto && k < |log| :: !log[k].Removed?
  }

  /** Event `i` is the publish that created or replaced the prefix with `p`; up to `upto` the prefix
      was neither removed nor overwritten with anything else. */
  ghost predicate WriterOf(log: seq<Event>, i: nat, upto: nat, p: SessionPrefix) {
    && i < upto <= |log|
    && (log[i] == Wrote(CREATED, p) || log[i] == Wrote(REPLACED, p))
    && (forall k | i < k < upto :: log[k].Unbound? || log[k] == Wrote(ALREADY_CURRENT, p))
  }

  lemma {:induction false} CurrentHasWriter(cfg: Config, log: seq<Event>, p: SessionPrefix) returns (i: nat)
    requires Coherent(cfg, log) && Current(log) == Some(p)
    ensures WriterOf(log, i, |log|, p) && WellFormed(cfg, p)
  {
    var n := |log| - 1;
    if log[n].Unbound? || log[n].code == ALREADY_CURRENT {
      i := CurrentHasWriter(cfg, log[..n], p);
    } else {
      i := n;
    }
  }

  lemma {:induction false} CoherentPrefix(cfg: Config, log: seq<Event>, n: nat)
    requires Coherent(cfg, log) && n <= |log|
    ensures Coherent(cfg, log[..n])
    decreases |log| - n
  {
    if n < |log| {
      CoherentPrefix(cfg, log, n + 1);
      assert log[..n + 1][..n] == log[..n];
    } else {
      assert log[..n] == log;
    }
  }

  /** While the prefix key stays alive its epoch never decreases, and one epoch has one content. */
  lemma {:induction false} EpochsGrow(cfg: Config, log: seq<Event>, i: nat, j: nat, p: SessionPrefix, q: SessionPrefix)
    requires Coherent(cfg, log) && i <= j <= |log| && NoRemoval(log, i, j)
    requires Current(log[..i]) == Some(p) && Current(log[..j]) == Some(q)
    ensures p.epoch <= q.epoch && (p.epoch == q.epoch ==> p == q)
    decreases j
  {
    if i < j {
      CoherentPrefix(cfg, log, j);
      assert log[..j][..j - 1] == log[..j - 1];
      assert !log[j - 1].Removed?;
      StaysAlive(log, i, j - 1);
      EpochsGrow(cfg, log, i, j - 1, p, Current(log[..j - 1]).value);
    }
  }

  lemma {:induction false} StaysAlive(log: seq<Event>, i: nat, j: nat)
    requires i <= j <= |log| && NoRemoval(log, i, j) && Current(log[..i]).Some?
    ensures Current(log[..j]).Some?
    decreases j
  {
    if i < j {
      assert log[..j][..j - 1] == log[..j - 1];
      StaysAlive(log, i, j - 1);
    }
  }

  /** At most one publish since the last removal created or replaced the prefix at a given epoch. */
  lemma {:induction false} OneWriterPerEpoch(cfg: Config, log: seq<Event>, i: nat, j: nat)
    requires Coherent(cfg, log) && i < j < |log| && NoRemoval(log, i, j)
    requires log[i].Wrote? && log[j].Wrote? && (log[j].code == CREATED || log[j].code == REPLACED)
    ensures log[i].body.epoch < log[j].body.epoch
  {
    assert Current(log[..i + 1]) == Some(log[i].body);
    StaysAlive(log, i + 1, j);
    EpochsGrow(cfg, log, i + 1, j, log[i].body, Current(log[..j]).value);
    CoherentPrefix(cfg, log, j + 1);
    assert log[..j + 1][..j] == log[..j];
  }

  // ----- invariant of every run -----

  ghost predicate CallOk(cfg: Config, log: seq<Event>, call: Call) {
    match call
    case PublishCall(input) => CheckPublish(cfg, input).None?
    case DeltaCall(_, _, _, snapshot, readAt) => readAt <= |log| && Current(log[..readAt]) == Some(snapshot)
  }

  ghost predicate ClientOk(cfg: Config, log: seq<Event>, pc: Pc) {
    match pc
    case BindRead(call) => CallOk(cfg, log, call)
    case BindFetch(call, _) => CallOk(cfg, log, call)
    case BindDrop(call) => CallOk(cfg, log, call)
    case BindFill(call, _, _) => CallOk(cfg, log, call)
    case BindTouch(call, _) => CallOk(cfg, log, call)
    case PublishRun(body, _, _) => WellFormed(cfg, body)
    case PublishConfirm(body, wroteAt, _, _) => wroteAt <= |log| && Current(log[..wroteAt]) == Some(body)
    case Finished(Published(body, wroteAt, earlier, snapshot, _, readAt)) =>
      && wroteAt <= readAt <= |log|
      && Current(log[..wroteAt]) == Some(body)
      && Some(snapshot) == if Current(log[..readAt]).Some? then Current(log[..readAt]) else earlier
    case Finished(Assembled(context, tail, messages, readAt)) =>
      && readAt <= |log|
      && Current(log[..readAt]).Some?
      && Assemble(cfg, Current(log[..readAt]).value, context, tail) == Ok(messages)
    case _ => true
  }

  /** The stored hash is what the log says, and nothing else. */
  ghost predicate Tracks(s: Server, log: seq<Event>) {
    && s.prefix.Some? == Current(log).Some?
    && (s.prefix.Some? ==>
          s.prefix.value.body == Current(log).value && s.prefix.value.epoch == s.prefix.value.body.epoch)
  }

  ghost predicate Inv(cfg: Config, st: State) {
    && Coherent(cfg, st.log)
    && Tracks(st.server, st.log)
    && forall id | id in st.clients :: ClientOk(cfg, st.log, st.clients[id])
  }

  lemma ClientOkIsStable(cfg: Config, log: seq<Event>, more: seq<Event>, pc: Pc)
    requires ClientOk(cfg, log, pc)
    ensures ClientOk(cfg, log + more, pc)
  {
    assert forall n: nat | n <= |log| :: (log + more)[..n] == log[..n];
  }

  lemma AppendEvent(cfg: Config, log: seq<Event>, e: Event)
    ensures Current(log + [e]) ==
            match e case Wrote(_, body) => Some(body) case Removed => None case Unbound => Current(log)
    ensures Coherent(cfg, log) && !e.Wrote? ==> Coherent(cfg, log + [e])
  {
  }

  lemma AppendLosses(cfg: Config, s: Server, log: seq<Event>)
    requires Coherent(cfg, log) && Tracks(s, log)
    ensures Coherent(cfg, log + Losses(s)) && Current(log + Losses(s)).None?
  {
    var first := if s.prefix.Some? then [Removed] else [];
    var rest := if s.binding.Some? then [Unbound] else [];
    assert log + Losses(s) == (log + first) + rest;
    if s.prefix.Some? {
      AppendEvent(cfg, log, Removed);
    } else {
      assert log + first == log;
    }
    if s.binding.Some? {
      AppendEvent(cfg, log + first, Unbound);
    } else {
      assert (log + first) + rest == log + first;
    }
  }

  lemma AppendWrite(cfg: Config, live: Server, log: seq<Event>, body: SessionPrefix, model: string)
    requires Coherent(cfg, log) && Tracks(live, log) && WellFormed(cfg, body)
    requires Verdict(live, body, model) >= 0
    ensures Coherent(cfg, log + [Wrote(Verdict(live, body, model), body)])
  {
  }

  /** Each atomic server operation keeps the log in step with the stored prefix. */
  lemma OperationKeepsLog(cfg: Config, s: Server, log: seq<Event>, op: ServerOp)
    requires Coherent(cfg, log) && Tracks(s, log)
    requires op.RunPublish? ==> WellFormed(cfg, op.body)
    ensures Coherent(cfg, log + Events(cfg.limits, s, op))
    ensures Tracks(Apply(cfg.limits, s, op), log + Events(cfg.limits, s, op))
  {
    var events := Events(cfg.limits, s, op);
    match op
    case RunPublish(body, now, model) =>
      var live := Survivor(cfg.limits, s, now);
      var code := Publish(cfg.limits, s, body, now, model).1;
      var lost := if live != s then Losses(s) else [];
      var wrote := if code >= 0 then [Wrote(code, body)] else [];
      assert log + events == (log + lost) + wrote;
      if live != s {
        AppendLosses(cfg, s, log);
      } else {
        assert log + lost == log;
      }
      if code >= 0 {
        AppendWrite(cfg, live, log + lost, body, model);
        AppendEvent(cfg, log + lost, Wrote(code, body));
      } else {
        assert log + events == log + lost;
      }
    case RunDelete => AppendLosses(cfg, s, log);
    case EvictPrefix => AppendEvent(cfg, log, Removed); assert log + [] == log;
    case EvictBinding => AppendEvent(cfg, log, Unbound); assert log + [] == log;
    case _ => assert log + events == log;
  }

  lemma StepKeepsInvariant(cfg: Config, st: State, a: Action)
    requires Inv(cfg, st)
    ensures Inv(cfg, Next(cfg, st, a))
  {
    OperationKeepsLog(cfg, st.server, st.log, Operation(cfg, st, a));
    forall id | id in Next(cfg, st, a).clients
      ensures ClientOk(cfg, Next(cfg, st, a).log, Next(cfg, st, a).clients[id])
    {
      ClientStaysOk(cfg, st, a, id);
    }
  }

  lemma ClientStaysOk(cfg: Config, st: State, a: Action, id: nat)
    requires Inv(cfg, st) && Tracks(Next(cfg, st, a).server, Next(cfg, st, a).log)
    requires id in Next(cfg, st, a).clients
    ensures ClientOk(cfg, Next(cfg, st, a).log, Next(cfg, st, a).clients[id])
  {
    var events, st' := Events(cfg.limits, st.server, Operation(cfg, st, a)), Next(cfg, st, a);
    if id in st.clients {
      ClientOkIsStable(cfg, st.log, events, st.clients[id]);
    }
    if a.Advance? && a.id == id && id in st.clients {
      if st.clients[id].PublishRun? {
        assert st'.log[..|st'.log|] == st'.log;
      } else {
        AdvanceKeepsClientOk(cfg, st.server, st.log, st.clients[id], a.now);
        ClientOkIsStable(cfg, st.log, events, st'.clients[id]);
      }
    }
  }

  lemma ResumeIsOk(cfg: Config, log: seq<Event>, call: Call, bound: Option<string>)
    requires CallOk(cfg, log, call)
    ensures ClientOk(cfg, log, Resume(cfg, call, bound))
  {
  }

  lemma AdvanceKeepsClientOk(cfg: Config, s: Server, log: seq<Event>, pc: Pc, now: int)
    requires Tracks(s, log) && ClientOk(cfg, log, pc) && !pc.PublishRun?
    ensures ClientOk(cfg, log, ClientStep(cfg, s, |log|, pc, now).0)
  {
    assert log[..|log|] == log;
    if pc.BindRead? || pc.BindFetch? || pc.BindDrop? || pc.BindFill? {
      ResumeIsOk(cfg, log, pc.call, None);
    } else if pc.BindTouch? {
      ResumeIsOk(cfg, log, pc.call, pc.model);
    }
  }

  lemma {:induction false} RunKeepsInvariant(cfg: Config, st: State, actions: seq<Action>)
    requires Inv(cfg, st)
    ensures Inv(cfg, Run(cfg, st, actions))
    decreases |actions|
  {
    if actions != [] {
      StepKeepsInvariant(cfg, st, actions[0]);
      RunKeepsInvariant(cfg, Next(cfg, st, actions[0]), actions[1..]);
    }
  }

  // ----- main results -----

  /** Event `i` alone created or replaced the prefix at the epoch of `p` since the last removal. */
  ghost predicate OnlyWriter(log: seq<Event>, i: nat, upto: nat, p: SessionPrefix) {
    forall k | 0 <= k < upto <= |log| && k != i && NoRemoval(log, k, upto) && log[k].Wrote?
               && (log[k].code == CREATED || log[k].code == REPLACED) :: log[k].body.epoch != p.epoch
  }

  lemma WriterIsOnly(cfg: Config, log: seq<Event>, i: nat, upto: nat, p: SessionPrefix)
    requires Coherent(cfg, log) && WriterOf(log, i, upto, p)
    ensures OnlyWriter(log, i, upto, p)
  {
    forall k | 0 <= k < i && NoRemoval(log, k, upto) && log[k].Wrote?
      ensures log[k].body.epoch != p.epoch
    {
      OneWriterPerEpoch(cfg, log, k, i);
    }
  }

  /** What the log says about a client that has been handed a delta. */
  lemma DeltaOfLog(cfg: Config, log: seq<Event>, done: Outcome) returns (i: nat, p: SessionPrefix)
    requires Coherent(cfg, log) && done.Assembled? && ClientOk(cfg, log, Finished(done))
    ensures done.readAt <= |log|
    ensures WriterOf(log, i, done.readAt, p) && WellFormed(cfg, p)
    ensures Assemble(cfg, p, done.context, done.tail) == Ok(done.messages)
  {
    var seen := log[..done.readAt];
    CoherentPrefix(cfg, log, done.readAt);
    p := Current(seen).value;
    i := CurrentHasWriter(cfg, seen, p);
  }

  /**
   Delta refines full delivery: whenever, in any run, a client has been handed an assembled delta,
   the messages are P followed by its tail, where P was published by the one event that created or
   replaced the prefix at the client's epoch since the last removal before the read.
   */
  lemma DeltaIsPrefixPlusTail(cfg: Config, actions: seq<Action>, id: nat) returns (i: nat, p: SessionPrefix)
    requires id in Run(cfg, INITIAL, actions).clients
    requires var pc := Run(cfg, INITIAL, actions).clients[id]; pc.Finished? && pc.outcome.Assembled?
    ensures var st := Run(cfg, INITIAL, actions);
            var done := st.clients[id].outcome;
            && done.readAt <= |st.log|
            && WriterOf(st.log, i, done.readAt, p)
            && done.context.epoch == Some(p.epoch)
            && done.context.tailStart == Some(|p.messages|)
            && (done.context.prefixHash.Some? ==> done.context.prefixHash.value == cfg.fingerprint(p.messages))
            && done.messages == p.messages + done.tail
            && OnlyWriter(st.log, i, done.readAt, p)
  {
    RunKeepsInvariant(cfg, INITIAL, actions);
    var st := Run(cfg, INITIAL, actions);
    i, p := DeltaOfLog(cfg, st.log, st.clients[id].outcome);
    WriterIsOnly(cfg, st.log, i, st.clients[id].outcome.readAt, p);
  }

  /**
   Delta refines full delivery over runs: if a publish of `b` is in the log, the prefix was not removed
   since, and a delta naming that epoch succeeds, then the client gets `b`'s messages and its tail. So a
   client that sends the tail of a transcript gets the transcript exactly when it had published the rest.
   */
  lemma DeltaSendsWhatWasPublished(cfg: Config, actions: seq<Action>, id: nat, w: nat, transcript: seq<Json>)
    requires id in Run(cfg, INITIAL, actions).clients
    requires var pc := Run(cfg, INITIAL, actions).clients[id]; pc.Finished? && pc.outcome.Assembled?
    requires var st := Run(cfg, INITIAL, actions);
             var done := st.clients[id].outcome;
             && w < done.readAt && w < |st.log| && st.log[w].Wrote? && NoRemoval(st.log, w, done.readAt)
             && done.context.epoch == Some(st.log[w].body.epoch)
    ensures var st := Run(cfg, INITIAL, actions);
            var done, published := st.clients[id].outcome, st.log[w].body.messages;
            && done.messages == published + done.tail
            && (|published| <= |transcript| && done.tail == transcript[|published|..] ==>
                  (done.messages == transcript <==> published == transcript[..|published|]))
  {
    RunKeepsInvariant(cfg, INITIAL, actions);
    var st := Run(cfg, INITIAL, actions);
    var done := st.clients[id].outcome;
    LastWriteIsCurrent(cfg, st.log, w, done);
    TranscriptOf(st.log[w].body.messages, done.tail, transcript);
  }

  lemma LastWriteIsCurrent(cfg: Config, log: seq<Event>, w: nat, done: Outcome)
    requires Coherent(cfg, log) && done.Assembled? && ClientOk(cfg, log, Finished(done))
    requires w < done.readAt && w < |log| && log[w].Wrote? && NoRemoval(log, w, done.readAt)
    requires done.context.epoch == Some(log[w].body.epoch)
    ensures done.messages == log[w].body.messages + done.tail
  {
    assert Current(log[..w + 1]) == Some(log[w].body);
    EpochsGrow(cfg, log, w + 1, done.readAt, log[w].body, Current(log[..done.readAt]).value);
  }

  lemma TranscriptOf(published: seq<Json>, tail: seq<Json>, transcript: seq<Json>)
    ensures |published| <= |transcript| && tail == transcript[|published|..] ==>
              (published + tail == transcript <==> published == transcript[..|published|])
  {
    if |published| <= |transcript| {
      assert transcript == transcript[..|published|] + transcript[|published|..];
    }
  }

  /** A later epoch, or the very prefix that was published. */
  predicate AsNew(p: SessionPrefix, body: SessionPrefix) {
    body.epoch < p.epoch || p == body
  }

  /**
   What a successful publish returns: the prefix stored when it reads back, or, if none is, the one it had
   read before the script. It is as new as the one it wrote if and only if nothing was removed since, or
   what was stored again, or failing that the earlier prefix, happens to be.
   */
  lemma PublishReturnsAsNewIff(cfg: Config, actions: seq<Action>, id: nat)
    requires id in Run(cfg, INITIAL, actions).clients
    requires var pc := Run(cfg, INITIAL, actions).clients[id]; pc.Finished? && pc.outcome.Published?
    ensures var st := Run(cfg, INITIAL, actions);
            var done := st.clients[id].outcome;
            && done.wroteAt <= done.readAt <= |st.log|
            && Current(st.log[..done.wroteAt]) == Some(done.body)
            && var stored := Current(st.log[..done.readAt]);
            && Some(done.snapshot) == (if stored.Some? then stored else done.earlier)
            && (AsNew(done.snapshot, done.body) <==>
                  || NoRemoval(st.log, done.wroteAt, done.readAt)
                  || (match stored
                      case Some(q) => AsNew(q, done.body)
                      case None => done.earlier.Some? && AsNew(done.earlier.value, done.body)))
  {
    RunKeepsInvariant(cfg, INITIAL, actions);
    var st := Run(cfg, INITIAL, actions);
    assert ClientOk(cfg, st.log, st.clients[id]);
    var done := st.clients[id].outcome;
    if NoRemoval(st.log, done.wroteAt, done.readAt) {
      StaysAlive(st.log, done.wroteAt, done.readAt);
      EpochsGrow(cfg, st.log, done.wroteAt, done.readAt, done.body, done.snapshot);
    }
  }

  lemma {:induction false} LogGrows(cfg: Config, st: State, more: seq<Action>)
    ensures st.log <= Run(cfg, st, more).log
    decreases |more|
  {
    if more != [] {
      LogGrows(cfg, Next(cfg, st, more[0]), more[1..]);
    }
  }

  /** Epoch safety over runs: between two points of a run with no removal in between. */
  lemma PrefixEpochIsMonotone(cfg: Config, actions: seq<Action>, more: seq<Action>)
    requires var a := Run(cfg, INITIAL, actions); var b := Run(cfg, a, more);
             a.server.prefix.Some? && NoRemoval(b.log, |a.log|, |b.log|)
    ensures var a := Run(cfg, INITIAL, actions); var b := Run(cfg, a, more);
            && b.server.prefix.Some?
            && a.server.prefix.value.epoch <= b.server.prefix.value.epoch
            && (a.server.prefix.value.epoch == b.server.prefix.value.epoch ==>
                  a.server.prefix.value.body == b.server.prefix.value.body)
  {
    var a := Run(cfg, INITIAL, actions);
    RunKeepsInvariant(cfg, INITIAL, actions);
    RunKeepsInvariant(cfg, a, more);
    var b := Run(cfg, a, more);
    LogGrows(cfg, a, more);
    assert b.log[..|a.log|] == a.log && b.log[..|b.log|] == b.log;
    StaysAlive(b.log, |a.log|, |b.log|);
    EpochsGrow(cfg, b.log, |a.log|, |b.log|, Current(a.log).value, Current(b.log).value);
  }

  /** Binding safety over runs: a bound Virtual Model never changes while the binding key lives,
      whatever earlier reads the publishing clients act on. */
  lemma {:induction false} BoundModelNeverChanges(cfg: Config, st: State, more: seq<Action>)
    requires st.server.Model().Some?
    requires forall k | |st.log| <= k < |Run(cfg, st, more).log| :: !Run(cfg, st, more).log[k].Unbound?
    ensures Run(cfg, st, more).server.Model() == st.server.Model()
    decreases |more|
  {
    if more != [] {
      var mid := Next(cfg, st, more[0]);
      LogGrows(cfg, mid, more[1..]);
      OperationKeepsModel(cfg, st.server, Operation(cfg, st, more[0]));
      var events := Events(cfg.limits, st.server, Operation(cfg, st, more[0]));
      forall k | 0 <= k < |events|
        ensures !events[k].Unbound?
      {
        assert events[k] == mid.log[|st.log| + k] == Run(cfg, st, more).log[|st.log| + k];
      }
      assert Run(cfg, mid, more[1..]) == Run(cfg, st, more) && |st.log| <= |mid.log|;
      BoundModelNeverChanges(cfg, mid, more[1..]);
    }
  }

  lemma OperationKeepsModel(cfg: Config, s: Server, op: ServerOp)
    requires s.Model().Some?
    ensures Apply(cfg.limits, s, op).Model() == s.Model() || Unbound in Events(cfg.limits, s, op)
  {
  }
}
