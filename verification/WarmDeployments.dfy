/**
 The two deployments of a Warm session beside each other: one client alone with Redis, as a run of the
 protocol, and one call of the in-memory store on the same session.
 */
module WarmDeployments {
  import opened Common
  import opened WarmScript
  import opened WarmDelivery
  import opened WarmProtocol
  import opened WarmMemory

  // ----- one client alone -----

  datatype Solo = Solo(server: Server, pc: Pc, at: nat)

  function Move(cfg: Config, x: Solo, now: int): Solo {
    var (next, op) := ClientStep(cfg, x.server, x.at, x.pc, now);
    Solo(Apply(cfg.limits, x.server, op), next, x.at + |Events(cfg.limits, x.server, op)|)
  }

  /** Where `n` steps of one client take it, with nobody else around and the clock standing still. */
  function Alone(cfg: Config, x: Solo, now: int, n: nat): Solo
    decreases n
  {
    if n == 0 then x else Alone(cfg, Move(cfg, x, now), now, n - 1)
  }

  function Steps(id: nat, now: int, n: nat): seq<Action> {
    if n == 0 then [] else [Advance(id, now)] + Steps(id, now, n - 1)
  }

  /** The client is where `x` says, and so is the server. */
  ghost predicate Matches(st: State, id: nat, x: Solo) {
    id in st.clients && x == Solo(st.server, st.clients[id], |st.log|)
  }

  lemma MoveIsNext(cfg: Config, st: State, id: nat, x: Solo, now: int)
    requires Matches(st, id, x)
    ensures Matches(Next(cfg, st, Advance(id, now)), id, Move(cfg, x, now))
  {
  }

  lemma RunFront(cfg: Config, st: State, a: Action, rest: seq<Action>)
    ensures Run(cfg, st, [a] + rest) == Run(cfg, Next(cfg, st, a), rest)
  {
    assert ([a] + rest)[1..] == rest;
  }

  lemma {:induction false} AloneIsRun(cfg: Config, st: State, id: nat, x: Solo, now: int, n: nat)
    requires Matches(st, id, x)
    ensures Matches(Run(cfg, st, Steps(id, now, n)), id, Alone(cfg, x, now, n))
    decreases n
  {
    if n > 0 {
      var next, y := Next(cfg, st, Advance(id, now)), Move(cfg, x, now);
      MoveIsNext(cfg, st, id, x, now);
      AloneIsRun(cfg, next, id, y, now, n - 1);
      RunFront(cfg, st, Advance(id, now), Steps(id, now, n - 1));
      Unfold(cfg, x, now, n - 1);
    }
  }

  lemma Unfold(cfg: Config, x: Solo, now: int, n: nat)
    ensures Alone(cfg, x, now, n + 1) == Alone(cfg, Move(cfg, x, now), now, n)
  {
  }

  /** One step of known outcome in front of `n` more. */
  lemma After(cfg: Config, x: Solo, now: int, y: Solo, n: nat)
    requires Move(cfg, x, now) == y
    ensures Alone(cfg, x, now, n + 1) == Alone(cfg, y, now, n)
  {
    Unfold(cfg, x, now, n);
  }

  // ----- the publish, from the script on -----

  /** What a client and a call may report alike. */
  predicate SameAnswer(pc: Pc, r: Result<Snapshot, WarmError>) {
    && pc.Finished?
    && match r
       case Ok(snapshot) =>
         pc.outcome.Published? && pc.outcome.snapshot == snapshot.prefix && pc.outcome.model == snapshot.model
       case Err(error) => pc.outcome == Failed(error)
  }

  /** The same prefix but for the time of the last access, and the same Virtual Model. */
  ghost predicate SameSession(server: Server, s: Slot) {
    SameContent(server.prefix, s.prefix) && server.Model() == s.model
  }

  predicate Live(cfg: Config, prefix: Option<PrefixHash>, now: int) {
    prefix.Some? ==> !Expired(cfg.limits, prefix.value, now)
  }

  /** What the publish makes of a live session once the Virtual Models have been compared. */
  function LivePublish(cfg: Config, prefix: Option<PrefixHash>, model: Option<string>, input: PublishInput, now: int):
    (Slot, Result<Snapshot, WarmError>)
    requires CheckPublish(cfg, input).None?
  {
    var effective := if input.model.Some? then input.model else model;
    var body := BuildPrefix(cfg, input);
    if !cfg.prefixFits(input.messages) then (Slot(prefix, model), Err(PrefixTooLarge))
    else
      var (stored, code) := StorePublish(cfg, prefix, body, now);
      if code < 0 then (Slot(prefix, model), Err(PublishFailure(code)))
      else (Slot(Some(stored), effective), Ok(Snapshot(body, effective)))
  }

  lemma MemoryOutcome(cfg: Config, s: Slot, input: PublishInput, now: int)
    requires Live(cfg, s.prefix, now) && CheckPublish(cfg, input).None?
    requires s.model.None? || input.model.None? || s.model == input.model
    ensures var (slot, r) := PublishSlot(cfg, s, input, now);
            var (slot', r') := LivePublish(cfg, s.prefix, s.model, input, now);
            r == r' && SameContent(slot.prefix, slot'.prefix) && slot.model == slot'.model
  {
  }

  lemma FromScript(cfg: Config, x: Solo, body: SessionPrefix, model: Option<string>, earlier: Option<SessionPrefix>,
                   now: int)
    returns (n: nat)
    requires x.pc == PublishRun(body, model, earlier) && Live(cfg, x.server.prefix, now)
    requires x.server.Model().None? || x.server.Model() == model
    requires model != Some("")
    ensures var end := Alone(cfg, x, now, n);
            var (stored, code) := StorePublish(cfg, x.server.prefix, body, now);
            if code < 0 then end.pc == Finished(Failed(PublishFailure(code))) && end.server == x.server
            else
              && end.pc.Finished? && end.pc.outcome.Published?
              && end.pc.outcome.snapshot == body && end.pc.outcome.model == model
              && SameContent(end.server.prefix, Some(stored)) && end.server.Model() == model
  {
    var op := RunPublish(body, now, model.GetOr(""));
    var (server, code) := WarmScript.Publish(cfg.limits, x.server, body, now, model.GetOr(""));
    if code < 0 {
      n := 1;
      After(cfg, x, now, Move(cfg, x, now), 0);
    } else {
      n := 2;
      var wrote := x.at + |Events(cfg.limits, x.server, op)|;
      assert !Expired(cfg.limits, server.prefix.value, now);
      var y := Solo(server, PublishConfirm(body, wrote, model, earlier), wrote);
      After(cfg, x, now, y, 1);
      After(cfg, y, now, Move(cfg, y, now), 0);
    }
  }

  /** From the read before the script on, the client does what the call does. */
  lemma FromRead(cfg: Config, x: Solo, input: PublishInput, now: int) returns (n: nat)
    requires x.pc == PublishRead(input, x.server.Model()) && x.server.Model() != Some("")
    requires Live(cfg, x.server.prefix, now) && CheckPublish(cfg, input).None?
    requires x.server.Model().None? || input.model.None? || x.server.Model() == input.model
    ensures var end, (slot, r) := Alone(cfg, x, now, n),
            LivePublish(cfg, x.server.prefix, x.server.Model(), input, now);
            SameAnswer(end.pc, r) && SameSession(end.server, slot)
  {
    var read := ReadPrefix(cfg.limits, x.server.prefix, now);
    var earlier := if read.Found? then Some(read.prefix) else None;
    var y := Move(cfg, x, now);
    ReadMove(cfg, x, input, now);
    if y.pc.Finished? {
      n := 1;
      After(cfg, x, now, y, 0);
    } else {
      var m := FromScript(cfg, y, y.pc.body, y.pc.effective, earlier, now);
      n := m + 1;
      After(cfg, x, now, y, m);
    }
  }

  lemma ReadMove(cfg: Config, x: Solo, input: PublishInput, now: int)
    requires x.pc == PublishRead(input, x.server.Model()) && Live(cfg, x.server.prefix, now)
    ensures var read, y := ReadPrefix(cfg.limits, x.server.prefix, now), Move(cfg, x, now);
            && y.pc == RunPc(cfg, input, x.server.Model(), if read.Found? then Some(read.prefix) else None)
            && Live(cfg, y.server.prefix, now) && SameContent(y.server.prefix, x.server.prefix)
            && y.server.Model() == x.server.Model()
  {
  }

  // ----- the binding lookup -----

  /** The session of a slot as the script leaves it on Redis. */
  function Deployed(s: Slot): Server {
    Server(s.prefix,
           if s.prefix.Some? && s.model.Some? then
             Some(BindingHash(s.model, Some(s.prefix.value.epoch), Some(s.prefix.value.created),
                 Some(s.prefix.value.accessed)))
           else None)
  }

  lemma LookupRead(cfg: Config, x: Solo, call: Call, now: int)
    requires x.pc == BindRead(call) && Live(cfg, x.server.prefix, now)
    ensures var y := Move(cfg, x, now);
            && y.pc == (if x.server.prefix.None? then Resume(cfg, call, None)
                else BindFetch(call, x.server.prefix.value.body.epoch))
            && y.server.binding == x.server.binding
            && SameContent(y.server.prefix, x.server.prefix) && Live(cfg, y.server.prefix, now)
  {
  }

  lemma LookupFetch(cfg: Config, x: Solo, call: Call, s: Slot, now: int)
    requires s.prefix.Some? && Live(cfg, s.prefix, now) && (call.PublishCall? || EpochIsStored(s))
    requires x.pc == BindFetch(call, s.prefix.value.body.epoch) && x.server.binding == Deployed(s).binding
    ensures var y := Move(cfg, x, now);
            && y.pc == (if s.model.None? then Resume(cfg, call, None) else BindTouch(call, s.model))
            && y.server == x.server
  {
  }

  lemma LookupTouch(cfg: Config, x: Solo, call: Call, model: Option<string>, now: int)
    requires x.pc == BindTouch(call, model)
    ensures var y := Move(cfg, x, now);
            && y.pc == Resume(cfg, call, model)
            && y.server.prefix == x.server.prefix && y.server.Model() == x.server.Model()
  {
  }

  /** After `n` steps the client goes on from y. */
  ghost predicate Leads(cfg: Config, x: Solo, now: int, n: nat, y: Solo) {
    forall m: nat :: Alone(cfg, x, now, n + m) == Alone(cfg, y, now, m)
  }

  lemma LeadsOne(cfg: Config, x: Solo, now: int)
    ensures Leads(cfg, x, now, 1, Move(cfg, x, now))
  {
    forall m: nat
      ensures Alone(cfg, x, now, 1 + m) == Alone(cfg, Move(cfg, x, now), now, m)
    {
      Unfold(cfg, x, now, m);
    }
  }

  lemma LeadsThen(cfg: Config, x: Solo, now: int, n: nat, y: Solo, k: nat, z: Solo)
    requires Leads(cfg, x, now, n, y) && Leads(cfg, y, now, k, z)
    ensures Leads(cfg, x, now, n + k, z)
  {
    forall m: nat
      ensures Alone(cfg, x, now, n + k + m) == Alone(cfg, z, now, m)
    {
      assert Alone(cfg, x, now, n + (k + m)) == Alone(cfg, y, now, k + m);
    }
  }

  /** As every publish stores it. */
  predicate EpochIsStored(s: Slot) {
    s.prefix.Some? ==> s.prefix.value.epoch == s.prefix.value.body.epoch
  }

  /** On a live session the lookup compares the Virtual Models, and then the client goes on. */
  lemma ThroughLookup(cfg: Config, s: Slot, server: Server, call: Call, at: nat, now: int) returns (n: nat, y: Solo)
    requires Anchored(s) && Live(cfg, s.prefix, now) && (call.PublishCall? || EpochIsStored(s))
    requires SameContent(server.prefix, s.prefix) && Live(cfg, server.prefix, now)
            && server.binding == Deployed(s).binding
    ensures Leads(cfg, Solo(server, BindRead(call), at), now, n, y)
    ensures y.pc == Resume(cfg, call, s.model)
    ensures SameSession(y.server, s) && Live(cfg, y.server.prefix, now)
  {
    var x := Solo(server, BindRead(call), at);
    LookupRead(cfg, x, call, now);
    LeadsOne(cfg, x, now);
    n, y := 1, Move(cfg, x, now);
    if s.prefix.Some? {
      assert server.prefix.value.body == s.prefix.value.body;
      LookupFetch(cfg, y, call, s, now);
      LeadsOne(cfg, y, now);
      LeadsThen(cfg, x, now, 1, y, 1, Move(cfg, y, now));
      n, y := 2, Move(cfg, y, now);
      if s.model.Some? {
        LookupTouch(cfg, y, call, s.model, now);
        LeadsOne(cfg, y, now);
        LeadsThen(cfg, x, now, 2, y, 1, Move(cfg, y, now));
        n, y := 3, Move(cfg, y, now);
      }
    }
  }

  // ----- the comparison -----

  /**
   A publish has the same answer and leaves the same session in both deployments if and only if it is
   invalid or the session has not expired. On an expired session the client of Redis is refused and
   nothing changes, whatever it publishes, while the in-memory store never says that it has expired.
   */
  lemma DeploymentsAgreeIff(cfg: Config, s: Slot, input: PublishInput, id: nat, now: int) returns (n: nat)
    requires Anchored(s)
    ensures var start := State(Deployed(s), map[], []);
            var end := Run(cfg, start, [StartPublish(id, input)] + Steps(id, now, n));
            var (slot, r) := PublishSlot(cfg, s, input, now);
            && id in end.clients && end.clients[id].Finished?
            && (SameAnswer(end.clients[id], r) && SameSession(end.server, slot) <==>
                  CheckPublish(cfg, input).Some? || Live(cfg, s.prefix, now))
            && (CheckPublish(cfg, input).None? && !Live(cfg, s.prefix, now) ==>
                  end.clients[id] == Finished(Failed(SessionExpired)) && end.server == Deployed(s))
  {
    var start := State(Deployed(s), map[], []);
    var first := Next(cfg, start, StartPublish(id, input));
    var x := Solo(first.server, first.clients[id], |first.log|);
    if CheckPublish(cfg, input).Some? {
      n := 0;
    } else if !Live(cfg, s.prefix, now) {
      n := 1;
      assert Alone(cfg, x, now, 1) == Alone(cfg, Move(cfg, x, now), now, 0);
    } else {
      n := LiveDeploymentsAgree(cfg, s, input, 0, now);
    }
    AloneIsRun(cfg, first, id, x, now, n);
    RunFront(cfg, start, StartPublish(id, input), Steps(id, now, n));
  }

  lemma LiveDeploymentsAgree(cfg: Config, s: Slot, input: PublishInput, at: nat, now: int) returns (n: nat)
    requires Anchored(s) && CheckPublish(cfg, input).None? && Live(cfg, s.prefix, now)
    ensures var end := Alone(cfg, Solo(Deployed(s), BindRead(PublishCall(input)), at), now, n);
            var (slot, r) := PublishSlot(cfg, s, input, now);
            SameAnswer(end.pc, r) && SameSession(end.server, slot)
  {
    var k, y := ThroughLookup(cfg, s, Deployed(s), PublishCall(input), at, now);
    if y.pc.Finished? {
      n := k + 0;
      assert Alone(cfg, y, now, 0) == y;
    } else {
      var m := FromRead(cfg, y, input, now);
      n := k + m;
      MemoryOutcome(cfg, s, input, now);
      SameLivePublish(cfg, y.server.prefix, s.prefix, s.model, input, now);
    }
  }

  /** The time of the last access plays no part in a live publish. */
  lemma SameLivePublish(cfg: Config, p: Option<PrefixHash>, q: Option<PrefixHash>, model: Option<string>,
                        input: PublishInput, now: int)
    requires SameContent(p, q) && Live(cfg, p, now) && Live(cfg, q, now) && CheckPublish(cfg, input).None?
    ensures var (a, r), (b, r') := LivePublish(cfg, p, model, input, now), LivePublish(cfg, q, model, input, now);
            r == r' && SameContent(a.prefix, b.prefix) && a.model == b.model
  {
  }

  // ----- deltas -----

  predicate SameDelta(pc: Pc, r: Result<seq<Json>, WarmError>) {
    && pc.Finished?
    && match r
       case Ok(messages) => pc.outcome.Assembled? && pc.outcome.messages == messages
       case Err(error) => pc.outcome == Failed(error)
  }

  /**
   A delta has the same answer in both deployments, always. On a session that has not expired it also leaves
   the same session; an expired one is removed from Redis, while the process only forgets its model.
   */
  lemma DeltaDeploymentsAgree(cfg: Config, s: Slot, context: DeltaContext, tail: seq<Json>, requested: Option<string>,
                              id: nat, now: int)
    returns (n: nat)
    requires Anchored(s) && EpochIsStored(s)
    ensures var start := State(Deployed(s), map[], []);
            var end := Run(cfg, start, [StartDelta(id, context, tail, requested)] + Steps(id, now, n));
            var (slot, r) := DeltaSlot(cfg, s, context, tail, requested, now);
            && id in end.clients && SameDelta(end.clients[id], r)
            && (Live(cfg, s.prefix, now) ==> SameSession(end.server, slot))
            && (!Live(cfg, s.prefix, now) ==> end.server == Server(None, None) && slot == Slot(s.prefix, None))
  {
    var start := State(Deployed(s), map[], []);
    var first := Next(cfg, start, StartDelta(id, context, tail, requested));
    var x := Solo(first.server, first.clients[id], |first.log|);
    n := DeltaAlone(cfg, s, x, context, tail, requested, now);
    AloneIsRun(cfg, first, id, x, now, n);
    RunFront(cfg, start, StartDelta(id, context, tail, requested), Steps(id, now, n));
  }

  lemma DeltaAlone(cfg: Config, s: Slot, x: Solo, context: DeltaContext, tail: seq<Json>, requested: Option<string>,
      now: int)
    returns (n: nat)
    requires Anchored(s) && EpochIsStored(s) && x.server == Deployed(s) && x.pc == DeltaRead(context, tail, requested)
    ensures var end, (slot, r) := Alone(cfg, x, now, n), DeltaSlot(cfg, s, context, tail, requested, now);
            && SameDelta(end.pc, r)
            && (Live(cfg, s.prefix, now) ==> SameSession(end.server, slot))
            && (!Live(cfg, s.prefix, now) ==> end.server == Server(None, None) && slot == Slot(s.prefix, None))
  {
    var y := Move(cfg, x, now);
    DeltaMove(cfg, x, context, tail, requested, now);
    if s.prefix.None? {
      n := 1;
      After(cfg, x, now, y, 0);
    } else if !Live(cfg, s.prefix, now) {
      n := 2;
      After(cfg, x, now, y, 1);
      After(cfg, y, now, Move(cfg, y, now), 0);
    } else {
      var k, z := ThroughLookup(cfg, s, y.server, y.pc.call, y.at, now);
      n := k + 1;
      After(cfg, x, now, y, k);
      assert Alone(cfg, y, now, k + 0) == Alone(cfg, z, now, 0) == z;
      ResumeDelta(cfg, s, y.pc.call, context, tail, requested, now);
    }
  }

  lemma DeltaMove(cfg: Config, x: Solo, context: DeltaContext, tail: seq<Json>, requested: Option<string>, now: int)
    requires x.pc == DeltaRead(context, tail, requested)
    ensures var y := Move(cfg, x, now);
            && y.server.binding == x.server.binding
            && SameContent(y.server.prefix, x.server.prefix)
            && (x.server.prefix.None? ==> y.pc == Finished(Failed(SessionNotFound)) && y.server == x.server)
            && (!Live(cfg, x.server.prefix, now) ==> y.pc == DeltaClear)
            && (x.server.prefix.Some? && Live(cfg, x.server.prefix, now) ==>
                  && y.pc == BindRead(DeltaCall(context, tail, requested, x.server.prefix.value.body, x.at))
                  && Live(cfg, y.server.prefix, now))
  {
  }

  lemma ResumeDelta(cfg: Config, s: Slot, call: Call, context: DeltaContext, tail: seq<Json>, requested: Option<string>,
                    now: int)
    requires s.prefix.Some? && Live(cfg, s.prefix, now) && call.DeltaCall? && call.snapshot == s.prefix.value.body
    requires call.context == context && call.tail == tail && call.requested == requested
    ensures var (slot, r) := DeltaSlot(cfg, s, context, tail, requested, now);
            SameDelta(Resume(cfg, call, s.model), r) && SameContent(slot.prefix, s.prefix) && slot.model == s.model
  {
  }
}
