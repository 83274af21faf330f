/**
 What callers of the in-memory store are told, request by request: for each answer exactly the sessions
 and inputs that get it, in terms of the session's times.
 */
module WarmAnswers {
  import opened Common
  import opened WarmScript
  import opened WarmDelivery
  import opened WarmMemory
  import opened WarmExpiry

  predicate Alive(cfg: Config, s: Slot, now: int) {
    s.prefix.Some? && AliveAt(cfg.limits, Some(Times(s.prefix.value.created, s.prefix.value.accessed)), now)
  }

  predicate Conflicting(s: Slot, requested: Option<string>) {
    s.model.Some? && requested.Some? && s.model.value != requested.value
  }

  // ----- publish -----

  predicate Malformed(cfg: Config, input: PublishInput) {
    || input.epoch < 0 || input.messageCount != |input.messages| || input.pinnedBoundary > |input.messages|
    || (input.model.Some? && (input.model.value == "" || !cfg.modelIdOk(input.model.value)))
  }

  predicate WrongHash(cfg: Config, input: PublishInput) {
    input.prefixHash.Some? && input.prefixHash.value != cfg.fingerprint(input.messages)
  }

  /** The prefix an accepted publish stores, field by field. */
  function Intended(cfg: Config, input: PublishInput): SessionPrefix
    requires !Malformed(cfg, input)
  {
    SessionPrefix(input.epoch, input.messages, Some(input.pinnedBoundary), Some(cfg.fingerprint(input.messages)),
                  Some(|input.messages|))
  }

  /** Exactly when a publish is refused before the session is compared, and with which answer. */
  lemma PublishIsRefusedIff(cfg: Config, s: Slot, input: PublishInput, now: int)
    ensures var r := PublishSlot(cfg, s, input, now).1;
            var valid := !Malformed(cfg, input) && !WrongHash(cfg, input);
            && (r == Err(InvalidPublish) <==> Malformed(cfg, input))
            && (r == Err(PrefixHashMismatch) <==> !Malformed(cfg, input) && WrongHash(cfg, input))
            && (r == Err(VirtualModelMismatch) <==> valid && Conflicting(s, input.model))
            && (r == Err(PrefixTooLarge) <==> valid && !Conflicting(s, input.model) && !cfg.prefixFits(input.messages))
  {
  }

  predicate Compared(cfg: Config, s: Slot, input: PublishInput) {
    !Malformed(cfg, input) && !WrongHash(cfg, input) && !Conflicting(s, input.model) && cfg.prefixFits(input.messages)
  }

  /** What the comparison with a session answers, and what an accepted publish returns and leaves. */
  lemma PublishAnswers(cfg: Config, s: Slot, input: PublishInput, now: int)
    requires Compared(cfg, s, input)
    ensures var (slot, r) := PublishSlot(cfg, s, input, now);
            var body, live := Intended(cfg, input), Alive(cfg, s, now);
            && (r == Err(StaleEpoch) <==> live && input.epoch < s.prefix.value.epoch)
            && (r == Err(EpochConflict) <==> live && input.epoch == s.prefix.value.epoch && s.prefix.value.body != body)
            && (r.Ok? <==>
                  !live || input.epoch > s.prefix.value.epoch
                  || (input.epoch == s.prefix.value.epoch && s.prefix.value.body == body))
            && (r.Ok? ==>
                  && r.value == Snapshot(body, if input.model.Some? then input.model else s.model)
                  && slot.model == r.value.model
                  && slot.prefix.Some? && slot.prefix.value.body == body && slot.prefix.value.epoch == input.epoch
                  && slot.prefix.value.accessed == now
                  && slot.prefix.value.created == if live && s.prefix.value.body == body
                      && input.epoch == s.prefix.value.epoch
                                                  then s.prefix.value.created else now)
            && (r.Err? ==> SameContent(slot.prefix, s.prefix) && slot.model == s.model)
  {
  }

  // ----- delta -----

  const EPOCH_LIMIT := 0x7fff_ffff_ffff_ffff

  /** A delta that has passed the lookup and names the epoch. */
  predicate OnEpoch(cfg: Config, s: Slot, context: DeltaContext, requested: Option<string>, now: int) {
    && Alive(cfg, s, now) && !Conflicting(s, requested)
    && s.prefix.value.body.epoch <= EPOCH_LIMIT && context.epoch == Some(s.prefix.value.body.epoch)
  }

  predicate HashHolds(s: Slot, context: DeltaContext)
    requires s.prefix.Some?
  {
    context.prefixHash.Some? ==> s.prefix.value.body.fingerprint == context.prefixHash
  }

  /** Exactly when a delta is refused before its tail is looked at, and with which answer. */
  lemma DeltaIsRefusedIff(cfg: Config, s: Slot, context: DeltaContext, tail: seq<Json>, requested: Option<string>,
      now: int)
    ensures var r := DeltaSlot(cfg, s, context, tail, requested, now).1;
            && (r == Err(SessionNotFound) <==> s.prefix.None?)
            && (r == Err(SessionExpired) <==> s.prefix.Some? && !Alive(cfg, s, now))
            && (r == Err(VirtualModelMismatch) <==> Alive(cfg, s, now) && Conflicting(s, requested))
            && (r == Err(EpochMismatch) <==>
                  && Alive(cfg, s, now) && !Conflicting(s, requested)
                  && s.prefix.value.body.epoch <= EPOCH_LIMIT && context.epoch != Some(s.prefix.value.body.epoch))
            && (r == Err(PrefixHashMismatch) <==> OnEpoch(cfg, s, context, requested, now) && !HashHolds(s, context))
  {
  }

  /** What a delta on the right epoch and hash is told, for a prefix as every publish stores it. */
  lemma DeltaAnswers(cfg: Config, s: Slot, context: DeltaContext, tail: seq<Json>, requested: Option<string>, now: int)
    requires OnEpoch(cfg, s, context, requested, now) && HashHolds(s, context)
    requires s.prefix.value.body.messageCount == Some(|s.prefix.value.body.messages|)
    ensures var r := DeltaSlot(cfg, s, context, tail, requested, now).1;
            var stored := s.prefix.value.body.messages;
            && (r == Err(InvalidContext) <==> context.tailStart.None?)
            && (r.Err? && r.error.TailStartMismatch? <==>
                context.tailStart.Some? && context.tailStart.value != |stored|)
            && (r.Err? && r.error.TailStartMismatch? ==>
                r.error.expected == |stored| && Some(r.error.actual) == context.tailStart)
            && (r == Err(TailTooLarge) <==> context.tailStart == Some(|stored|) && !cfg.tailFits(tail))
            && (r == Err(AssembledTooLarge) <==>
                  context.tailStart == Some(|stored|) && cfg.tailFits(tail) && !cfg.assembledFits(stored + tail))
            && (r == Ok(stored + tail) <==>
                  context.tailStart == Some(|stored|) && cfg.tailFits(tail) && cfg.assembledFits(stored + tail))
  {
  }

  /** What a delta leaves: a touched session, or an expired one without its model. */
  lemma DeltaLeaves(cfg: Config, s: Slot, context: DeltaContext, tail: seq<Json>, requested: Option<string>, now: int)
    ensures var slot := DeltaSlot(cfg, s, context, tail, requested, now).0;
            if Alive(cfg, s, now) then
              && slot.model == s.model
              && slot.prefix == Some(s.prefix.value.(accessed := if cfg.touchOnRead then now
                  else s.prefix.value.accessed))
            else if s.prefix.None? then slot == s
            else slot == Slot(s.prefix, None)
  {
  }

  // ----- get and the cleaner -----

  lemma GetAnswers(cfg: Config, s: Slot, now: int)
    ensures var (slot, r) := GetSlot(cfg, s, now);
            if Alive(cfg, s, now) then
              && r == Some(Snapshot(s.prefix.value.body, s.model)) && slot.model == s.model
              && slot.prefix == Some(s.prefix.value.(accessed := if cfg.touchOnRead then now
                  else s.prefix.value.accessed))
            else r == None && slot == Slot(s.prefix, None)
  {
  }

  /** The cleaner empties what is not alive, and leaves everything else but the time of access of a bound session. */
  lemma PurgeKeepsAlive(cfg: Config, s: Slot, now: int)
    ensures var slot := PurgeSlot(cfg, s, now);
            if Alive(cfg, s, now) then
              && slot.model == s.model
              && slot.prefix == Some(s.prefix.value.(accessed := if cfg.touchOnRead && s.model.Some? then now
                                                                 else s.prefix.value.accessed))
            else slot == Slot(None, None)
  {
  }
}
