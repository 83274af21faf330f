/**
 When a session is alive, told by the times in its history: the time its content was created or replaced,
 and the time it was last written or touched.
 */
module WarmExpiry {
  import opened Common
  import opened WarmScript
  import opened WarmDelivery
  import opened WarmProtocol

  // ----- the history of one server -----

  function After(limits: Lifetime, ops: seq<ServerOp>): Server {
    if ops == [] then Server(None, None) else Apply(limits, After(limits, ops[..|ops| - 1]), ops[|ops| - 1])
  }

  /** What a publish at this point of the history answers. */
  function Answer(limits: Lifetime, ops: seq<ServerOp>, body: SessionPrefix, now: int, model: string): int {
    Publish(limits, After(limits, ops), body, now, model).1
  }

  /** Times of the content and of the last access. */
  datatype Times = Times(content: int, access: int)

  /** The times after these operations, as their answers and times tell; none once the prefix is removed. */
  function TimesOf(limits: Lifetime, ops: seq<ServerOp>): Option<Times> {
    if ops == [] then None
    else
      var init := ops[..|ops| - 1];
      var before := TimesOf(limits, init);
      match ops[|ops| - 1]
      case RunPublish(body, now, model) =>
        var code := Answer(limits, init, body, now, model);
        if code == CREATED || code == REPLACED then Some(Times(now, now))
        else if code == ALREADY_CURRENT && before.Some? then Some(Times(before.value.content, now))
        else before
      case TouchPrefix(at) => if before.Some? then Some(Times(before.value.content, at)) else None
      case RunDelete => None
      case EvictPrefix => None
      case _ => before
  }

  /** Neither limit has run out; zero means no limit. */
  predicate AliveAt(limits: Lifetime, t: Option<Times>, now: int) {
    && t.Some?
    && (limits.maxLifetime == 0 || now < t.value.content + limits.maxLifetime)
    && (limits.idleTtl == 0 || now < t.value.access + limits.idleTtl)
  }

  lemma {:induction false} TimesAreStored(limits: Lifetime, ops: seq<ServerOp>)
    ensures var p, t := After(limits, ops).prefix, TimesOf(limits, ops);
            p.Some? == t.Some? && (p.Some? ==> p.value.created == t.value.content && p.value.accessed == t.value.access)
  {
    if ops != [] {
      TimesAreStored(limits, ops[..|ops| - 1]);
    }
  }

  /** A read finds the prefix exactly while the session is alive by those times. */
  lemma ReadFindsIff(limits: Lifetime, ops: seq<ServerOp>, now: int)
    ensures ReadPrefix(limits, After(limits, ops).prefix, now).Found? <==> AliveAt(limits, TimesOf(limits, ops), now)
    ensures ReadPrefix(limits, After(limits, ops).prefix, now).Missing? <==> TimesOf(limits, ops).None?
  {
    TimesAreStored(limits, ops);
  }

  /**
   What the script answers, after any history: a conflict of models on what has not run out, and without
   one a fresh start on a session that is not alive, else the comparison of epochs and contents.
   */
  lemma AnswerFromTimes(limits: Lifetime, ops: seq<ServerOp>, body: SessionPrefix, now: int, model: string)
    ensures var s, t := After(limits, ops), TimesOf(limits, ops);
            var code := Answer(limits, ops, body, now, model);
            && (code == MODEL_CONFLICT <==>
                  (t.None? || AliveAt(limits, t, now)) && s.Model().Some? && model != "" && s.Model() != Some(model))
            && (code != MODEL_CONFLICT ==>
                  && (code == CREATED <==> !AliveAt(limits, t, now))
                  && (code == STALE <==> AliveAt(limits, t, now) && body.epoch < s.prefix.value.epoch)
                  && (code == REPLACED <==> AliveAt(limits, t, now) && body.epoch > s.prefix.value.epoch)
                  && (code == ALREADY_CURRENT <==>
                        AliveAt(limits, t, now) && body.epoch == s.prefix.value.epoch && body == s.prefix.value.body)
                  && (code == CONFLICT <==>
                        AliveAt(limits, t, now) && body.epoch == s.prefix.value.epoch && body != s.prefix.value.body))
  {
    TimesAreStored(limits, ops);
  }

  /** After an accepted publish the session holds what was published, bound as asked or as before. */
  lemma AcceptedIsStored(limits: Lifetime, ops: seq<ServerOp>, body: SessionPrefix, now: int, model: string)
    requires Answer(limits, ops, body, now, model) >= 0
    ensures var before, s := After(limits, ops), After(limits, ops + [RunPublish(body, now, model)]);
            && s.prefix.Some? && s.prefix.value.body == body && s.prefix.value.epoch == body.epoch
            && s.Model() == (if model != "" then Some(model)
                             else if TimesOf(limits, ops).Some? && !AliveAt(limits, TimesOf(limits, ops), now) then None
                             else before.Model())
  {
    TimesAreStored(limits, ops);
    assert (ops + [RunPublish(body, now, model)])[..|ops|] == ops;
  }

  // ----- runs of the protocol -----

  /** What a run of clients does to the server, operation by operation. */
  function OpsOf(cfg: Config, st: State, actions: seq<Action>): seq<ServerOp>
    decreases |actions|
  {
    if actions == [] then [] else [Operation(cfg, st, actions[0])] + OpsOf(cfg, Next(cfg, st, actions[0]), actions[1..])
  }

  lemma AfterOne(limits: Lifetime, before: seq<ServerOp>, op: ServerOp)
    ensures After(limits, before + [op]) == Apply(limits, After(limits, before), op)
  {
    assert (before + [op])[..|before|] == before;
  }

  lemma OpsShift(before: seq<ServerOp>, op: ServerOp, rest: seq<ServerOp>)
    ensures before + ([op] + rest) == before + [op] + rest
  {
  }

  lemma {:induction false} RunIsItsOps(cfg: Config, st: State, before: seq<ServerOp>, actions: seq<Action>)
    requires st.server == After(cfg.limits, before)
    ensures Run(cfg, st, actions).server == After(cfg.limits, before + OpsOf(cfg, st, actions))
    decreases |actions|
  {
    if actions == [] {
      assert before + [] == before;
    } else {
      var op, next := Operation(cfg, st, actions[0]), Next(cfg, st, actions[0]);
      AfterOne(cfg.limits, before, op);
      RunIsItsOps(cfg, next, before + [op], actions[1..]);
      OpsShift(before, op, OpsOf(cfg, next, actions[1..]));
    }
  }

  /** In every run a client that reads the session before a delta goes on exactly while it is alive; it clears
      an expired session, and reports a missing one. */
  lemma DeltaReadsAliveIff(cfg: Config, actions: seq<Action>, id: nat, now: int)
    requires id in Run(cfg, INITIAL, actions).clients && Run(cfg, INITIAL, actions).clients[id].DeltaRead?
    ensures var t := TimesOf(cfg.limits, OpsOf(cfg, INITIAL, actions));
            var pc := Next(cfg, Run(cfg, INITIAL, actions), Advance(id, now)).clients[id];
            && (pc.BindRead? <==> AliveAt(cfg.limits, t, now))
            && (pc == Finished(Failed(SessionNotFound)) <==> t.None?)
            && (pc == DeltaClear <==> t.Some? && !AliveAt(cfg.limits, t, now))
            && Operation(cfg, Run(cfg, INITIAL, actions), Advance(id, now))
               == if cfg.touchOnRead && AliveAt(cfg.limits, t, now) then TouchPrefix(now) else Observe
  {
    RunIsItsOps(cfg, INITIAL, [], actions);
    assert [] + OpsOf(cfg, INITIAL, actions) == OpsOf(cfg, INITIAL, actions);
    ReadFindsIff(cfg.limits, OpsOf(cfg, INITIAL, actions), now);
  }

  /** A client that has found the session expired removes it, prefix and binding. */
  lemma ExpiredIsCleared(cfg: Config, st: State, id: nat, now: int)
    requires id in st.clients && (st.clients[id].DeltaClear? || st.clients[id].PublishClear?)
    ensures Next(cfg, st, Advance(id, now)).server == Server(None, None)
  {
  }

  /** A binding older than the longest lifetime is dropped by its reader, which goes on as if unbound. */
  lemma OutlivedBindingIsDropped(cfg: Config, st: State, id: nat, now: int, later: int)
    requires id in st.clients && st.clients[id].BindFetch?
    requires st.server.binding.Some? && st.server.binding.value.created.Some? && cfg.limits.maxLifetime > 0
    ensures var next := Next(cfg, st, Advance(id, now));
            var last := Next(cfg, next, Advance(id, later));
            && (next.clients[id].BindDrop? <==> now >= st.server.binding.value.created.value + cfg.limits.maxLifetime)
            && (next.clients[id].BindDrop? ==>
                  last.server.binding.None? && last.clients[id] == Resume(cfg, st.clients[id].call, None))
  {
  }
}
