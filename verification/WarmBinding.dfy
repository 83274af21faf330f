/**
 Virtual Model checks of the delta path. While a session stays alive and bound to one model, no client
 that names another is ever handed its messages, in any interleaving.
 */
module WarmBinding {
  import opened Common
  import opened WarmScript
  import opened WarmDelivery
  import opened WarmProtocol
  import opened WarmMemory

  /** Alive, and bound to a model other than `r`. */
  predicate Foreign(s: Server, r: string) {
    s.prefix.Some? && s.Model().Some? && s.Model() != Some(r)
  }

  /** So at every point of the run. */
  ghost predicate AlwaysForeign(cfg: Config, st: State, actions: seq<Action>, r: string)
    decreases |actions|
  {
    && Foreign(st.server, r)
    && (actions != [] ==> AlwaysForeign(cfg, Next(cfg, st, actions[0]), actions[1..], r))
  }

  /** Client `id` is not given a new call. */
  predicate KeepsCall(actions: seq<Action>, id: nat) {
    forall i | 0 <= i < |actions| :: !(actions[i].StartPublish? && actions[i].id == id)
        && !(actions[i].StartDelta? && actions[i].id == id)
  }

  predicate Names(call: Call, r: string) {
    call.DeltaCall? && call.requested == Some(r)
  }

  /** On the way of a delta that names `r`, with another model in hand, or refused. */
  predicate Refusing(pc: Pc, r: string) {
    match pc
    case DeltaRead(_, _, requested) => requested == Some(r)
    case DeltaClear => true
    case BindRead(call) => Names(call, r)
    case BindFetch(call, _) => Names(call, r)
    case BindDrop(call) => Names(call, r)
    case BindFill(call, _, model) => Names(call, r) && model.Some? && model != Some(r)
    case BindTouch(call, model) => Names(call, r) && model.Some? && model != Some(r)
    case Finished(Failed(_)) => true
    case _ => false
  }

  lemma StepRefuses(cfg: Config, s: Server, at: nat, pc: Pc, now: int, r: string)
    requires Refusing(pc, r) && Foreign(s, r)
    requires Foreign(Apply(cfg.limits, s, ClientStep(cfg, s, at, pc, now).1), r)
    ensures Refusing(ClientStep(cfg, s, at, pc, now).0, r)
  {
  }

  lemma {:induction false} RunRefuses(cfg: Config, st: State, actions: seq<Action>, id: nat, r: string)
    requires id in st.clients && Refusing(st.clients[id], r)
    requires AlwaysForeign(cfg, st, actions, r) && KeepsCall(actions, id)
    ensures var end := Run(cfg, st, actions); id in end.clients && Refusing(end.clients[id], r)
    decreases |actions|
  {
    if actions != [] {
      var a := actions[0];
      if a.Advance? && a.id == id {
        StepRefuses(cfg, st.server, |st.log|, st.clients[id], a.now, r);
      }
      assert forall i | 0 <= i < |actions| - 1 :: actions[1..][i] == actions[i + 1];
      RunRefuses(cfg, Next(cfg, st, a), actions[1..], id, r);
    }
  }

  /**
   An assembled delta that named a model has met a session without model, or with that very model, or no
   session at all, at some point after its start.
   */
  lemma AssembledDeltaMetItsModel(cfg: Config, st: State, start: Action, more: seq<Action>, r: string)
    requires start.StartDelta? && start.requested == Some(r) && KeepsCall(more, start.id)
    ensures var end := Run(cfg, Next(cfg, st, start), more);
            start.id in end.clients && end.clients[start.id].Finished? && end.clients[start.id].outcome.Assembled? ==>
              !AlwaysForeign(cfg, Next(cfg, st, start), more, r)
  {
    if AlwaysForeign(cfg, Next(cfg, st, start), more, r) {
      RunRefuses(cfg, Next(cfg, st, start), more, start.id, r);
    }
  }

  /** From here on the log tells of no removal and no unbinding. */
  ghost predicate StaysBound(cfg: Config, st: State, actions: seq<Action>) {
    forall k | |st.log| <= k < |Run(cfg, st, actions).log| ::
      !Run(cfg, st, actions).log[k].Removed? && !Run(cfg, st, actions).log[k].Unbound?
  }

  lemma OperationKeepsPrefix(cfg: Config, s: Server, op: ServerOp)
    requires s.prefix.Some?
    ensures Apply(cfg.limits, s, op).prefix.Some? || Removed in Events(cfg.limits, s, op)
  {
  }

  lemma FirstStepIsLogged(cfg: Config, st: State, actions: seq<Action>, e: Event)
    requires actions != [] && e in Events(cfg.limits, st.server, Operation(cfg, st, actions[0]))
    ensures exists k :: |st.log| <= k < |Run(cfg, st, actions).log| && Run(cfg, st, actions).log[k] == e
  {
    var events := Events(cfg.limits, st.server, Operation(cfg, st, actions[0]));
    var i :| 0 <= i < |events| && events[i] == e;
    var mid := Next(cfg, st, actions[0]);
    LogGrows(cfg, mid, actions[1..]);
    var end := Run(cfg, st, actions);
    assert end == Run(cfg, mid, actions[1..]);
    assert end.log[|st.log| + i] == mid.log[|st.log| + i] == e;
  }

  lemma {:induction false} QuietLogStaysForeign(cfg: Config, st: State, actions: seq<Action>, r: string)
    requires Foreign(st.server, r) && StaysBound(cfg, st, actions)
    ensures AlwaysForeign(cfg, st, actions, r)
    decreases |actions|
  {
    if actions != [] {
      var op, mid := Operation(cfg, st, actions[0]), Next(cfg, st, actions[0]);
      OperationKeepsPrefix(cfg, st.server, op);
      OperationKeepsModel(cfg, st.server, op);
      if Removed in Events(cfg.limits, st.server, op) {
        FirstStepIsLogged(cfg, st, actions, Removed);
        assert false;
      }
      if Unbound in Events(cfg.limits, st.server, op) {
        FirstStepIsLogged(cfg, st, actions, Unbound);
        assert false;
      }
      assert Run(cfg, st, actions) == Run(cfg, mid, actions[1..]) && |st.log| <= |mid.log|;
      QuietLogStaysForeign(cfg, mid, actions[1..], r);
    }
  }

  /**
   Delta binding safety over runs: from a live session bound to a model, a delta that names another one is
   never assembled while the session is neither removed nor unbound, whatever the other clients do.
   */
  lemma BoundSessionRefusesOtherModel(cfg: Config, st: State, start: Action, more: seq<Action>, r: string)
    requires Foreign(st.server, r) && start.StartDelta? && start.requested == Some(r) && KeepsCall(more, start.id)
    requires StaysBound(cfg, Next(cfg, st, start), more)
    ensures var end := Run(cfg, Next(cfg, st, start), more);
            && start.id in end.clients
            && !(end.clients[start.id].Finished? && end.clients[start.id].outcome.Assembled?)
  {
    QuietLogStaysForeign(cfg, Next(cfg, st, start), more, r);
    RunRefuses(cfg, Next(cfg, st, start), more, start.id, r);
  }

  // ----- one process -----

  /** In memory a delta is refused for its model exactly on a readable session bound to another. */
  lemma MemoryRefusesOtherModelIff(cfg: Config, s: Slot, context: DeltaContext, tail: seq<Json>,
      requested: Option<string>,
                                   now: int)
    ensures DeltaSlot(cfg, s, context, tail, requested, now).1 == Err(VirtualModelMismatch) <==>
            && ReadPrefix(cfg.limits, s.prefix, now).Found?
            && s.model.Some? && requested.Some? && s.model != requested
  {
  }

  // ----- the binding reader -----

  /** The epoch a reader back-fills is the one of the session it has just read,
      into a binding that has none; a delta whose
      binding has another epoch is told that the store is unavailable. */
  lemma ReaderKeepsToItsEpoch(cfg: Config, st: State, id: nat, now: int)
    requires id in st.clients
    ensures var pc, next := st.clients[id], Next(cfg, st, Advance(id, now)).clients[id];
            && (pc.BindRead? && next.BindFetch? ==>
                st.server.prefix.Some? && next.expected == st.server.prefix.value.body.epoch)
            && (pc.BindFetch? && next.BindFill? ==>
                  && next.expected == pc.expected && next.model == st.server.Model()
                  && st.server.binding.Some? && st.server.binding.value.epoch.None?)
            && (pc.BindFill? ==> Operation(cfg, st, Advance(id, now)) == FillEpoch(pc.expected))
            && (pc.BindFetch? && pc.call.DeltaCall? && st.server.binding.Some? && st.server.binding.value.epoch.Some?
                && st.server.binding.value.epoch != Some(pc.expected) && !next.BindDrop? ==>
                  next == Finished(Failed(StoreUnavailable)))
  {
  }
}
