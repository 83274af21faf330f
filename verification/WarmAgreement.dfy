/**
 Do the prefix hash and the binding hash agree on epoch and creation time? The publish script keeps
 them in step, but the binding reader issues separate commands, and its epoch back-fill can land
 after another client's publish. This module gives a run where agreement breaks, and shows that a
 back-fill which finds an epoch already present is the only step that can break it.
 */
module WarmAgreement {
  import opened Common
  import opened WarmScript
  import opened WarmDelivery
  import opened WarmProtocol

  /** Whenever both hashes exist and a model is bound, they carry the same epoch and creation time. */
  ghost predicate Agree(s: Server) {
    s.prefix.Some? && s.Model().Some? ==>
      && s.binding.value.epoch == Some(s.prefix.value.epoch)
      && s.binding.value.created == Some(s.prefix.value.created)
  }

  /** A bound model always comes with an epoch and a creation time. */
  ghost predicate BindingComplete(s: Server) {
    s.Model().Some? ==> s.binding.value.epoch.Some? && s.binding.value.created.Some?
  }

  /** The next action is a back-fill, and the epoch it found missing is there by now. */
  ghost predicate LateFill(cfg: Config, st: State, a: Action) {
    && Operation(cfg, st, a).FillEpoch?
    && st.server.binding.Some? && st.server.binding.value.epoch.Some?
  }

  ghost predicate NoLateFill(cfg: Config, st: State, actions: seq<Action>)
    decreases |actions|
  {
    actions != [] ==> !LateFill(cfg, st, actions[0]) && NoLateFill(cfg, Next(cfg, st, actions[0]), actions[1..])
  }

  /** Every bound model has its epoch, in every run, back-fills included. */
  lemma {:induction false} BindingsAreComplete(cfg: Config, st: State, actions: seq<Action>)
    requires BindingComplete(st.server)
    ensures BindingComplete(Run(cfg, st, actions).server)
    decreases |actions|
  {
    if actions != [] {
      OperationKeepsComplete(cfg, st.server, Operation(cfg, st, actions[0]));
      BindingsAreComplete(cfg, Next(cfg, st, actions[0]), actions[1..]);
    }
  }

  lemma OperationKeepsComplete(cfg: Config, s: Server, op: ServerOp)
    requires BindingComplete(s)
    ensures BindingComplete(Apply(cfg.limits, s, op))
  {
  }

  /** One step from an agreeing state loses agreement exactly when it back-fills a different epoch
      into a binding that another client has bound meanwhile. */
  lemma StepBreaksAgreementIff(cfg: Config, st: State, a: Action)
    requires Agree(st.server)
    ensures !Agree(Next(cfg, st, a).server) <==>
            && Operation(cfg, st, a).FillEpoch?
            && st.server.prefix.Some? && st.server.Model().Some?
            && Operation(cfg, st, a).epoch != st.server.prefix.value.epoch
  {
  }

  /** Without late back-fills, script consistency holds in every run. */
  lemma {:induction false} AgreementWithoutLateFill(cfg: Config, st: State, actions: seq<Action>)
    requires Agree(st.server) && BindingComplete(st.server) && NoLateFill(cfg, st, actions)
    ensures Agree(Run(cfg, st, actions).server) && BindingComplete(Run(cfg, st, actions).server)
    decreases |actions|
  {
    if actions != [] {
      StepBreaksAgreementIff(cfg, st, actions[0]);
      OperationKeepsComplete(cfg, st.server, Operation(cfg, st, actions[0]));
      AgreementWithoutLateFill(cfg, Next(cfg, st, actions[0]), actions[1..]);
    }
  }

  // ----- a run that loses agreement -----

  lemma {:induction false} RunThen(cfg: Config, st: State, actions: seq<Action>, a: Action)
    ensures Run(cfg, st, actions + [a]) == Next(cfg, Run(cfg, st, actions), a)
    decreases |actions|
  {
    if actions == [] {
      assert Run(cfg, Next(cfg, st, a), []) == Next(cfg, st, a);
      assert actions + [a] == [a];
    } else {
      assert (actions + [a])[1..] == actions[1..] + [a];
      RunThen(cfg, Next(cfg, st, actions[0]), actions[1..], a);
    }
  }

  /** No time limits, and the inputs below are accepted. */
  ghost predicate Permissive(cfg: Config) {
    && cfg.limits == Lifetime(0, 0) && !cfg.touchOnRead
    && cfg.prefixFits([]) && cfg.modelIdOk("m")
  }

  function EmptyPublish(epoch: nat, model: Option<string>): PublishInput {
    PublishInput(epoch, 0, [], 0, None, model)
  }

  function Body(cfg: Config, epoch: nat): SessionPrefix {
    SessionPrefix(epoch, [], Some(0), Some(cfg.fingerprint([])), Some(0))
  }

  function Stored(cfg: Config, epoch: nat): Option<PrefixHash> {
    Some(PrefixHash(epoch, Body(cfg, epoch), 0, 0))
  }

  const READER := DeltaContext(Some(1), None, Some(0))

  lemma Start(cfg: Config, actions: seq<Action>, st: State, a: Action, id: nat, pc: Pc)
      returns (more: seq<Action>, st': State)
    requires st == Run(cfg, INITIAL, actions)
    requires match a
             case StartPublish(i, input) =>
               i == id && CheckPublish(cfg, input).None? && pc == BindRead(PublishCall(input))
             case StartDelta(i, context, tail, requested) => i == id && pc == DeltaRead(context, tail, requested)
             case _ => false
    ensures st' == Run(cfg, INITIAL, more) && st'.server == st.server && st'.clients == st.clients[id := pc]
  {
    RunThen(cfg, INITIAL, actions, a);
    more, st' := actions + [a], Next(cfg, st, a);
  }

  /** One client step whose next program counter and operation are known. */
  lemma Go(cfg: Config, actions: seq<Action>, st: State, id: nat, pc: Pc, op: ServerOp, s: Server)
      returns (more: seq<Action>, st': State)
    requires st == Run(cfg, INITIAL, actions) && id in st.clients
    requires ClientStep(cfg, st.server, |st.log|, st.clients[id], 0) == (pc, op)
    requires s == Apply(cfg.limits, st.server, op)
    ensures st' == Run(cfg, INITIAL, more) && st'.server == s && st'.clients == st.clients[id := pc]
  {
    RunThen(cfg, INITIAL, actions, Advance(id, 0));
    more, st' := actions + [Advance(id, 0)], Next(cfg, st, Advance(id, 0));
  }

  /** A publisher that finds no model goes from its start to the script. */
  lemma ReachesScript(cfg: Config, actions: seq<Action>, st: State, id: nat, epoch: nat, model: Option<string>)
    returns (more: seq<Action>, st': State)
    requires Permissive(cfg) && st == Run(cfg, INITIAL, actions)
    requires st.server.prefix.None? && (model.None? || model == Some("m"))
    ensures st' == Run(cfg, INITIAL, more) && st'.server == st.server
    ensures st'.clients == st.clients[id := PublishRun(Body(cfg, epoch), model, None)]
  {
    var input := EmptyPublish(epoch, model);
    more, st' := Start(cfg, actions, st, StartPublish(id, input), id, BindRead(PublishCall(input)));
    more, st' := Go(cfg, more, st', id, PublishRead(input, None), Observe, st.server);
    more, st' := Go(cfg, more, st', id, PublishRun(Body(cfg, epoch), model, None), Observe, st.server);
    assert st'.clients == st.clients[id := PublishRun(Body(cfg, epoch), model, None)];
  }

  /** A delta reader of epoch 1 gets as far as fetching the binding. */
  lemma ReachesFetch(cfg: Config, actions: seq<Action>, st: State, id: nat)
      returns (more: seq<Action>, st': State, call: Call)
    requires Permissive(cfg) && st == Run(cfg, INITIAL, actions) && st.server.prefix == Stored(cfg, 1)
    ensures st' == Run(cfg, INITIAL, more) && st'.server == st.server
    ensures call.DeltaCall? && call.requested.None? && st'.clients == st.clients[id := BindFetch(call, 1)]
  {
    more, st' := Start(cfg, actions, st, StartDelta(id, READER, [], None), id, DeltaRead(READER, [], None));
    call := DeltaCall(READER, [], None, Body(cfg, 1), |st'.log|);
    more, st' := Go(cfg, more, st', id, BindRead(call), Observe, st.server);
    more, st' := Go(cfg, more, st', id, BindFetch(call, 1), Observe, st.server);
    assert st'.clients == st.clients[id := BindFetch(call, 1)];
  }

  /** Client 1 binds "m" at epoch 1. */
  lemma BoundSession(cfg: Config) returns (actions: seq<Action>, st: State)
    requires Permissive(cfg)
    ensures st == Run(cfg, INITIAL, actions)
    ensures st.server == Server(Stored(cfg, 1), Some(BindingHash(Some("m"), Some(1), Some(0), Some(0))))
  {
    actions, st := ReachesScript(cfg, [], INITIAL, 1, 1, Some("m"));
    actions, st := Go(cfg, actions, st, 1, PublishConfirm(Body(cfg, 1), |st.log| + 1, Some("m"), None),
                      RunPublish(Body(cfg, 1), 0, "m"),
                      Server(Stored(cfg, 1), Some(BindingHash(Some("m"), Some(1), Some(0), Some(0)))));
  }

  /** Client 2 has read that binding and is about to touch it. */
  lemma ReaderIsAboutToTouch(cfg: Config) returns (actions: seq<Action>, st: State, call: Call)
    requires Permissive(cfg)
    ensures st == Run(cfg, INITIAL, actions)
    ensures 2 in st.clients && st.clients[2] == BindTouch(call, Some("m"))
  {
    actions, st := BoundSession(cfg);
    actions, st, call := ReachesFetch(cfg, actions, st, 2);
    actions, st := Go(cfg, actions, st, 2, BindTouch(call, Some("m")), Observe, st.server);
  }

  /** The session is deleted before that touch, whose HSET then leaves a binding without model and
      epoch. */
  lemma GhostBinding(cfg: Config) returns (actions: seq<Action>, st: State)
    requires Permissive(cfg)
    ensures st == Run(cfg, INITIAL, actions)
    ensures st.server == Server(None, Some(NO_FIELDS.(accessed := Some(0))))
  {
    var call;
    actions, st, call := ReaderIsAboutToTouch(cfg);
    RunThen(cfg, INITIAL, actions, Environment(RunDelete));
    var deleted := Next(cfg, st, Environment(RunDelete));
    assert deleted.server == Server(None, None) && deleted.clients == st.clients;
    actions, st := Go(cfg, actions + [Environment(RunDelete)], deleted, 2,
                      Resume(cfg, call, Some("m")), TouchBinding(0),
                      Server(None, Some(NO_FIELDS.(accessed := Some(0)))));
  }

  /** Client 3 publishes epoch 1 without a model, which leaves that binding alone, and client 4 finds
      no epoch in it. */
  lemma FillIsPending(cfg: Config) returns (actions: seq<Action>, st: State, call: Call)
    requires Permissive(cfg)
    ensures st == Run(cfg, INITIAL, actions)
    ensures st.server == Server(Stored(cfg, 1), Some(NO_FIELDS.(accessed := Some(0))))
    ensures 4 in st.clients && st.clients[4] == BindFill(call, 1, None)
  {
    actions, st := GhostBinding(cfg);
    actions, st := ReachesScript(cfg, actions, st, 3, 1, None);
    actions, st := Go(cfg, actions, st, 3, PublishConfirm(Body(cfg, 1), |st.log| + 1, None, None),
                      RunPublish(Body(cfg, 1), 0, ""),
                      Server(Stored(cfg, 1), st.server.binding));
    actions, st, call := ReachesFetch(cfg, actions, st, 4);
    actions, st := Go(cfg, actions, st, 4, BindFill(call, 1, None), Observe, st.server);
  }

  /** Client 5, about to publish epoch 2 bound to "m", finds no epoch either. */
  lemma SecondBinderStarts(cfg: Config) returns (actions: seq<Action>, st: State, call: Call)
    requires Permissive(cfg)
    ensures st == Run(cfg, INITIAL, actions)
    ensures st.server == Server(Stored(cfg, 1), Some(NO_FIELDS.(accessed := Some(0))))
    ensures 4 in st.clients && st.clients[4] == BindFill(call, 1, None)
    ensures 5 in st.clients && st.clients[5] == BindFill(PublishCall(EmptyPublish(2, Some("m"))), 1, None)
  {
    var binder := PublishCall(EmptyPublish(2, Some("m")));
    actions, st, call := FillIsPending(cfg);
    actions, st := Start(cfg, actions, st, StartPublish(5, binder.input), 5, BindRead(binder));
    actions, st := Go(cfg, actions, st, 5, BindFetch(binder, 1), Observe, st.server);
    actions, st := Go(cfg, actions, st, 5, BindFill(binder, 1, None), Observe, st.server);
  }

  /** It back-fills epoch 1 and reaches the script. */
  lemma SecondBinderIsReady(cfg: Config) returns (actions: seq<Action>, st: State, call: Call)
    requires Permissive(cfg)
    ensures st == Run(cfg, INITIAL, actions)
    ensures st.server.prefix == Stored(cfg, 1) && st.server.Model().None?
    ensures 4 in st.clients && st.clients[4] == BindFill(call, 1, None)
    ensures 5 in st.clients && st.clients[5] == PublishRun(Body(cfg, 2), Some("m"), Some(Body(cfg, 1)))
  {
    var input := EmptyPublish(2, Some("m"));
    var filled := Server(Stored(cfg, 1), Some(NO_FIELDS.(epoch := Some(1), accessed := Some(0))));
    actions, st, call := SecondBinderStarts(cfg);
    actions, st := Go(cfg, actions, st, 5, PublishRead(input, None), FillEpoch(1), filled);
    actions, st := Go(cfg, actions, st, 5, PublishRun(Body(cfg, 2), Some("m"), Some(Body(cfg, 1))), Observe, filled);
  }

  /**
   Agreement is not an invariant: client 5 binds "m" at epoch 2, and only then client 4 writes the
   epoch 1 it had expected.
   */
  lemma AgreementCanBreak(cfg: Config) returns (actions: seq<Action>)
    requires Permissive(cfg)
    ensures var s := Run(cfg, INITIAL, actions).server;
            && s.Model() == Some("m") && s.prefix.Some? && s.prefix.value.epoch == 2
            && s.binding.value.epoch == Some(1) && !Agree(s)
  {
    var st, call;
    actions, st, call := SecondBinderIsReady(cfg);
    var bound := Server(Stored(cfg, 2), Some(BindingHash(Some("m"), Some(2), Some(0), Some(0))));
    actions, st := Go(cfg, actions, st, 5, PublishConfirm(Body(cfg, 2), |st.log| + 1, Some("m"), Some(Body(cfg, 1))),
                      RunPublish(Body(cfg, 2), 0, "m"), bound);
    actions, st := Go(cfg, actions, st, 4, Resume(cfg, call, None), FillEpoch(1),
                      bound.(binding := Some(bound.binding.value.(epoch := Some(1)))));
  }
}
