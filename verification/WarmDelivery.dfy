/**
 The parts of the Warm store that both deployments share: request validation, the prefix a publish
 stores, the read contract of the session store, and delta assembly from a snapshot.
 */
module WarmDelivery {
  import opened Common
  import opened WarmScript

  datatype WarmError =
    | InvalidContext
    | SessionNotFound
    | SessionExpired
    | StoreUnavailable
    | PrefixTooLarge
    | TailTooLarge
    | AssembledTooLarge
    | EpochConflict
    | StaleEpoch
    | EpochMismatch
    | PrefixHashMismatch
    | TailStartMismatch(expected: nat, actual: nat)
    | VirtualModelMismatch
    | InvalidPublish

  /** Deployment settings. The fingerprint and the size limits are arbitrary functions. */
  datatype Config = Config(
    limits: Lifetime,
    touchOnRead: bool,
    fingerprint: seq<Json> -> string,
    modelIdOk: string -> bool,
    prefixFits: seq<Json> -> bool,
    tailFits: seq<Json> -> bool,
    assembledFits: seq<Json> -> bool)

  datatype PublishInput = PublishInput(
    epoch: int,
    messageCount: nat,
    messages: seq<Json>,
    pinnedBoundary: nat,
    prefixHash: Option<string>,
    model: Option<string>)

  datatype DeltaContext = DeltaContext(epoch: Option<int>, prefixHash: Option<string>, tailStart: Option<nat>)

  const MAX_EPOCH := 0x7fff_ffff_ffff_ffff

  /** The checks a publish makes before it looks at any store. */
  function CheckPublish(cfg: Config, input: PublishInput): Option<WarmError> {
    if input.epoch < 0 || input.messageCount != |input.messages| || input.pinnedBoundary > input.messageCount then
      Some(InvalidPublish)
    else if input.model.Some? && (input.model.value == "" || !cfg.modelIdOk(input.model.value)) then
      Some(InvalidPublish)
    else if input.prefixHash.Some? && input.prefixHash.value != cfg.fingerprint(input.messages) then
      Some(PrefixHashMismatch)
    else None
  }

  function BuildPrefix(cfg: Config, input: PublishInput): SessionPrefix
    requires CheckPublish(cfg, input).None?
  {
    SessionPrefix(input.epoch, input.messages, Some(input.pinnedBoundary),
                  Some(cfg.fingerprint(input.messages)), Some(input.messageCount))
  }

  /** What every prefix written by a publish satisfies. */
  predicate WellFormed(cfg: Config, p: SessionPrefix) {
    && p.messageCount == Some(|p.messages|)
    && p.fingerprint == Some(cfg.fingerprint(p.messages))
  }

  datatype Read = Missing | Outdated | Found(prefix: SessionPrefix)

  /** The session store reports an expired prefix as such; it may be removed at any later time. */
  function ReadPrefix(limits: Lifetime, prefix: Option<PrefixHash>, now: int): Read {
    if prefix.None? then Missing
    else if Expired(limits, prefix.value, now) then Outdated
    else Found(prefix.value.body)
  }

  /** Delta assembly once the snapshot is read and the Virtual Model accepted. */
  function Assemble(cfg: Config, snapshot: SessionPrefix, context: DeltaContext, tail: seq<Json>):
    (r: Result<seq<Json>, WarmError>)
    ensures r.Ok? ==>
      && context.epoch == Some(snapshot.epoch)
      && context.tailStart == Some(snapshot.messageCount.GetOr(|snapshot.messages|))
      && (context.prefixHash.Some? ==> snapshot.fingerprint == context.prefixHash)
      && r.value == snapshot.messages + tail
  {
    if snapshot.epoch > MAX_EPOCH then Err(InvalidContext)
    else if context.epoch != Some(snapshot.epoch) then Err(EpochMismatch)
    else if context.prefixHash.Some? && snapshot.fingerprint != context.prefixHash then Err(PrefixHashMismatch)
    else if context.tailStart.None? then Err(InvalidContext)
    else
      var expected := snapshot.messageCount.GetOr(|snapshot.messages|);
      if context.tailStart.value != expected then Err(TailStartMismatch(expected, context.tailStart.value))
      else if !cfg.tailFits(tail) then Err(TailTooLarge)
      else if !cfg.assembledFits(snapshot.messages + tail) then Err(AssembledTooLarge)
      else Ok(snapshot.messages + tail)
  }

  /**
   Full delivery sends `transcript`; delta delivery sends only its tail. For a well-formed snapshot
   a successful delta yields the transcript exactly when the stored messages are the ones the client
   left out, and a client that sends the hash of those messages is safe as soon as the hash tells
   the two lists apart.
   */
  lemma DeltaMatchesFullDelivery(cfg: Config, snapshot: SessionPrefix, context: DeltaContext, transcript: seq<Json>)
    requires WellFormed(cfg, snapshot)
    requires context.tailStart.Some? && context.tailStart.value <= |transcript|
    requires Assemble(cfg, snapshot, context, transcript[context.tailStart.value..]).Ok?
    ensures var sent := transcript[..context.tailStart.value];
            var assembled := Assemble(cfg, snapshot, context, transcript[context.tailStart.value..]).value;
            && (assembled == transcript <==> snapshot.messages == sent)
            && (context.prefixHash == Some(cfg.fingerprint(sent)) && assembled != transcript ==>
                  snapshot.messages != sent && cfg.fingerprint(snapshot.messages) == cfg.fingerprint(sent))
  {
  }
}
