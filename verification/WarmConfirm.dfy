/**
 A run in which a publish reports success with an older prefix than the one it wrote. The session is
 deleted between the script and the read that confirms it; the publisher then falls back on the prefix
 it had read before.
 */
module WarmConfirm {
  import opened Common
  import opened WarmScript
  import opened WarmDelivery
  import opened WarmProtocol
  import opened WarmAgreement

  /** Client 1 has stored epoch 1 without a model. */
  lemma FirstEpochStored(cfg: Config) returns (actions: seq<Action>, st: State)
    requires Permissive(cfg)
    ensures st == Run(cfg, INITIAL, actions) && st.server == Server(Stored(cfg, 1), None)
  {
    actions, st := ReachesScript(cfg, [], INITIAL, 1, 1, None);
    actions, st := Go(cfg, actions, st, 1, PublishConfirm(Body(cfg, 1), |st.log| + 1, None, None),
                      RunPublish(Body(cfg, 1), 0, ""), Server(Stored(cfg, 1), None));
  }

  /** Client 2, about to publish epoch 2, has found no model. */
  lemma SecondHasNoModel(cfg: Config) returns (actions: seq<Action>, st: State)
    requires Permissive(cfg)
    ensures st == Run(cfg, INITIAL, actions) && st.server == Server(Stored(cfg, 1), None)
    ensures 2 in st.clients && st.clients[2] == PublishRead(EmptyPublish(2, None), None)
  {
    var input := EmptyPublish(2, None);
    var call := PublishCall(input);
    actions, st := FirstEpochStored(cfg);
    actions, st := Start(cfg, actions, st, StartPublish(2, input), 2, BindRead(call));
    actions, st := Go(cfg, actions, st, 2, BindFetch(call, 1), Observe, st.server);
    actions, st := Go(cfg, actions, st, 2, PublishRead(input, None), Observe, st.server);
  }

  /** It has read epoch 1 and run the script with epoch 2. */
  lemma SecondEpochStored(cfg: Config) returns (actions: seq<Action>, st: State, wroteAt: nat)
    requires Permissive(cfg)
    ensures st == Run(cfg, INITIAL, actions) && st.server == Server(Stored(cfg, 2), None)
    ensures 2 in st.clients && st.clients[2] == PublishConfirm(Body(cfg, 2), wroteAt, None, Some(Body(cfg, 1)))
  {
    actions, st := SecondHasNoModel(cfg);
    actions, st := Go(cfg, actions, st, 2, PublishRun(Body(cfg, 2), None, Some(Body(cfg, 1))), Observe, st.server);
    wroteAt := |st.log| + 1;
    actions, st := Go(cfg, actions, st, 2, PublishConfirm(Body(cfg, 2), wroteAt, None, Some(Body(cfg, 1))),
                      RunPublish(Body(cfg, 2), 0, ""), Server(Stored(cfg, 2), None));
  }

  /** The publish of epoch 2 succeeds and returns epoch 1. */
  lemma PublishCanReturnOlder(cfg: Config) returns (actions: seq<Action>)
    requires Permissive(cfg)
    ensures var st := Run(cfg, INITIAL, actions);
            && 2 in st.clients && st.clients[2].Finished? && st.clients[2].outcome.Published?
            && st.clients[2].outcome.body.epoch == 2 && st.clients[2].outcome.snapshot.epoch == 1
            && st.server.prefix.None?
  {
    var st, wroteAt;
    actions, st, wroteAt := SecondEpochStored(cfg);
    RunThen(cfg, INITIAL, actions, Environment(RunDelete));
    var deleted := Next(cfg, st, Environment(RunDelete));
    assert deleted.server == Server(None, None) && deleted.clients == st.clients;
    actions, st := Go(cfg, actions + [Environment(RunDelete)], deleted, 2,
                      Finished(Published(Body(cfg, 2), wroteAt, Some(Body(cfg, 1)), Body(cfg, 1), None, |deleted.log|)),
                      Observe, deleted.server);
  }
}
