/**
 Warm sessions on one process: the in-memory prefix store beside the map of bound Virtual Models.
 The publish path here is several steps, so its results are about calls that run one after another.
 */
module WarmMemory {
  import opened Common
  import opened WarmScript
  import opened WarmDelivery
  import opened WarmProtocol

  datatype SessionKey = SessionKey(projectId: string, apiKeyId: string, sessionId: string)

  /** Everything the process holds for one session key. */
  datatype Slot = Slot(prefix: Option<PrefixHash>, model: Option<string>)

  datatype Snapshot = Snapshot(prefix: SessionPrefix, model: Option<string>)

  const EMPTY_SLOT := Slot(None, None)

  function Touched(cfg: Config, p: PrefixHash, now: int): PrefixHash {
    if cfg.touchOnRead then p.(accessed := now) else p
  }

  /** Reading touches a live prefix and reports an expired one. */
  function AfterRead(cfg: Config, prefix: Option<PrefixHash>, now: int): Option<PrefixHash> {
    if ReadPrefix(cfg.limits, prefix, now).Found? then Some(Touched(cfg, prefix.value, now)) else prefix
  }

  /** The session store's publish, which knows nothing about Virtual Models. */
  function StorePublish(cfg: Config, prefix: Option<PrefixHash>, body: SessionPrefix, now: int): (PrefixHash, int) {
    var (s, code) := Publish(cfg.limits, Server(prefix, None), body, now, "");
    (s.prefix.value, code)
  }

  function PublishSlot(cfg: Config, s: Slot, input: PublishInput, now: int): (Slot, Result<Snapshot, WarmError>) {
    if CheckPublish(cfg, input).Some? then (s, Err(CheckPublish(cfg, input).value))
    else if s.model.Some? && input.model.Some? && s.model != input.model then (s, Err(VirtualModelMismatch))
    else
      var model := if ReadPrefix(cfg.limits, s.prefix, now).Outdated? then None else s.model;
      var read := Slot(AfterRead(cfg, s.prefix, now), model);
      var body := BuildPrefix(cfg, input);
      if !cfg.prefixFits(input.messages) then (read, Err(PrefixTooLarge))
      else
        var (stored, code) := StorePublish(cfg, read.prefix, body, now);
        if code < 0 then (read.(prefix := Some(stored)), Err(PublishFailure(code)))
        else
          var effective := if input.model.Some? then input.model else s.model;
          (Slot(AfterRead(cfg, Some(stored), now), effective), Ok(Snapshot(body, effective)))
  }

  function DeltaSlot(cfg: Config, s: Slot, context: DeltaContext, tail: seq<Json>, requested: Option<string>, now: int):
    (Slot, Result<seq<Json>, WarmError>)
  {
    match ReadPrefix(cfg.limits, s.prefix, now)
    case Missing => (s, Err(SessionNotFound))
    case Outdated => (s.(model := None), Err(SessionExpired))
    case Found(p) =>
      (s.(prefix := AfterRead(cfg, s.prefix, now)),
       if s.model.Some? && requested.Some? && s.model != requested then Err(VirtualModelMismatch)
       else Assemble(cfg, p, context, tail))
  }

  function GetSlot(cfg: Config, s: Slot, now: int): (Slot, Option<Snapshot>) {
    match ReadPrefix(cfg.limits, s.prefix, now)
    case Found(p) => (s.(prefix := AfterRead(cfg, s.prefix, now)), Some(Snapshot(p, s.model)))
    case _ => (s.(model := None), None)
  }

  /** The cleaner drops expired prefixes, then every binding whose session can no longer be read. */
  function PurgeSlot(cfg: Config, s: Slot, now: int): Slot {
    if !ReadPrefix(cfg.limits, s.prefix, now).Found? then EMPTY_SLOT
    else if s.model.Some? then s.(prefix := AfterRead(cfg, s.prefix, now))
    else s
  }

  class WarmStore {
    const cfg: Config
    var prefixes: map<SessionKey, PrefixHash>
    var models: map<SessionKey, string>

    constructor (cfg: Config)
      ensures this.cfg == cfg && prefixes == map[] && models == map[]
    {
      this.cfg := cfg;
      prefixes, models := map[], map[];
    }

    function PrefixOf(key: SessionKey): Option<PrefixHash>
      reads this
    {
      if key in prefixes then Some(prefixes[key]) else None
    }

    function SlotOf(key: SessionKey): Slot
      reads this
    {
      Slot(PrefixOf(key), if key in models then Some(models[key]) else None)
    }

    /** The session store's read: a live prefix is touched, nothing else changes. */
    method GetKey(key: SessionKey, now: int) returns (read: Read)
      modifies this`prefixes
      ensures read == ReadPrefix(cfg.limits, old(PrefixOf(key)), now)
      ensures PrefixOf(key) == AfterRead(cfg, old(PrefixOf(key)), now)
      ensures prefixes.Keys == old(prefixes.Keys)
      ensures forall k | k != key :: PrefixOf(k) == old(PrefixOf(k))
    {
      if key !in prefixes {
        return Missing;
      }
      if Expired(cfg.limits, prefixes[key], now) {
        return Outdated;
      }
      read := Found(prefixes[key].body);
      if cfg.touchOnRead {
        prefixes := prefixes[key := prefixes[key].(accessed := now)];
      }
    }

    method Publish(key: SessionKey, input: PublishInput, now: int) returns (r: Result<Snapshot, WarmError>)
      modifies this
      ensures (SlotOf(key), r) == PublishSlot(cfg, old(SlotOf(key)), input, now)
      ensures forall k | k != key :: SlotOf(k) == old(SlotOf(k))
    {
      var invalid := CheckPublish(cfg, input);
      if invalid.Some? {
        return Err(invalid.value);
      }
      var existing := if key in models then Some(models[key]) else None;
      if existing.Some? && input.model.Some? && existing != input.model {
        return Err(VirtualModelMismatch);
      }
      var read := GetKey(key, now);
      if read.Outdated? {
        models := models - {key};
      }
      var effective := if input.model.Some? then input.model else existing;
      var body := BuildPrefix(cfg, input);
      if !cfg.prefixFits(input.messages) {
        return Err(PrefixTooLarge);
      }
      var (stored, code) := StorePublish(cfg, PrefixOf(key), body, now);
      prefixes := prefixes[key := stored];
      if code < 0 {
        return Err(PublishFailure(code));
      }
      if effective.Some? {
        models := models[key := effective.value];
      }
      var confirmed := GetKey(key, now);
      r := Ok(Snapshot(body, effective));
    }

    method AssembleDelta(key: SessionKey, context: DeltaContext, tail: seq<Json>, requested: Option<string>, now: int)
      returns (r: Result<seq<Json>, WarmError>)
      modifies this
      ensures (SlotOf(key), r) == DeltaSlot(cfg, old(SlotOf(key)), context, tail, requested, now)
      ensures forall k | k != key :: SlotOf(k) == old(SlotOf(k))
    {
      var read := GetKey(key, now);
      match read
      case Missing => return Err(SessionNotFound);
      case Outdated =>
        models := models - {key};
        return Err(SessionExpired);
      case Found(snapshot) =>
        if key in models && requested.Some? && Some(models[key]) != requested {
          return Err(VirtualModelMismatch);
        }
        r := Assemble(cfg, snapshot, context, tail);
    }

    method Get(key: SessionKey, now: int) returns (r: Option<Snapshot>)
      modifies this
      ensures (SlotOf(key), r) == GetSlot(cfg, old(SlotOf(key)), now)
      ensures prefixes.Keys == old(prefixes.Keys)
      ensures models == if r.None? then old(models) - {key} else old(models)
      ensures forall k | k in prefixes :: prefixes[k] ==
                if k == key && r.Some? then Touched(cfg, old(prefixes)[k], now) else old(prefixes)[k]
      ensures forall k | k != key :: SlotOf(k) == old(SlotOf(k))
    {
      var read := GetKey(key, now);
      forall k | k in prefixes
        ensures prefixes[k] == if k == key && read.Found? then Touched(cfg, old(prefixes)[k], now) else old(prefixes)[k]
      {
        assert PrefixOf(k) == Some(prefixes[k]);
      }
      if read.Found? {
        r := Some(Snapshot(read.prefix, if key in models then Some(models[key]) else None));
      } else {
        models := models - {key};
        r := None;
      }
    }

    method Delete(key: SessionKey)
      modifies this
      ensures SlotOf(key) == EMPTY_SLOT
      ensures forall k | k != key :: SlotOf(k) == old(SlotOf(k))
    {
      prefixes := prefixes - {key};
      models := models - {key};
    }

    method PurgeExpired(now: int) returns (removed: nat)
      modifies this
      ensures forall k :: SlotOf(k) == PurgeSlot(cfg, old(SlotOf(k)), now)
      ensures removed == |old(prefixes)| - |prefixes|
    {
      var live := map k | k in prefixes && !Expired(cfg.limits, prefixes[k], now) :: prefixes[k];
      SubsetSize(live.Keys, prefixes.Keys);
      removed := |prefixes| - |live|;
      prefixes := live;
      DropUnreadable(now);
      assert |prefixes| == |prefixes.Keys| == |live.Keys| == |live|;
    }

    /** Reads every bound session and unbinds those that are gone. */
    method DropUnreadable(now: int)
      requires forall k | k in prefixes :: !Expired(cfg.limits, prefixes[k], now)
      modifies this
      ensures prefixes.Keys == old(prefixes.Keys)
      ensures forall k :: k in models <==> k in old(models) && k in prefixes
      ensures forall k | k in models :: models[k] == old(models)[k]
      ensures forall k | k in prefixes ::
        prefixes[k] == (if k in models then Touched(cfg, old(prefixes)[k], now) else old(prefixes)[k])
    {
      ghost var p0, m0 := prefixes, models;
      var pending := models.Keys;
      while pending != {}
        invariant pending <= models.Keys <= m0.Keys
        invariant prefixes.Keys == p0.Keys
        invariant forall k | k in m0 && k !in pending :: k in models <==> k in p0
        invariant forall k | k in models :: models[k] == m0[k]
        invariant forall k | k in p0 ::
          prefixes[k] == (if k in models && k !in pending then Touched(cfg, p0[k], now) else p0[k])
        decreases |pending|
      {
        var key :| key in pending;
        var snapshot := Get(key, now);
        assert snapshot.Some? <==> key in p0;
        pending := pending - {key};
      }
    }
  }

  lemma SubsetSize<T>(a: set<T>, b: set<T>)
    requires a <= b
    ensures |a| <= |b|
  {
    if a != b {
      assert b == a + (b - a);
    }
  }

  // ----- what the slots guarantee -----

  /** Sequential calls never leave a binding without a stored prefix, and never bind the empty name. */
  ghost predicate Anchored(s: Slot) {
    s.model.Some? ==> s.prefix.Some? && s.model.value != ""
  }

  datatype Request =
    | DoPublish(input: PublishInput)
    | DoDelta(context: DeltaContext, tail: seq<Json>, requested: Option<string>)
    | DoGet
    | DoDelete
    | DoPurge

  function Serve(cfg: Config, s: Slot, q: Request, now: int): Slot {
    match q
    case DoPublish(input) => PublishSlot(cfg, s, input, now).0
    case DoDelta(context, tail, requested) => DeltaSlot(cfg, s, context, tail, requested, now).0
    case DoGet => GetSlot(cfg, s, now).0
    case DoDelete => EMPTY_SLOT
    case DoPurge => PurgeSlot(cfg, s, now)
  }

  function ServeAll(cfg: Config, s: Slot, requests: seq<(Request, int)>): Slot
    decreases |requests|
  {
    if requests == [] then s else ServeAll(cfg, Serve(cfg, s, requests[0].0, requests[0].1), requests[1..])
  }

  /** Over any sequence of calls a session's model stays what it was, or the session loses its
      binding; it never moves to another model without being unbound first. */
  lemma {:induction false} ModelMovesOnlyThroughUnbound(cfg: Config, s: Slot, requests: seq<(Request, int)>)
    requires Anchored(s) && s.model.Some?
    requires forall n | 0 <= n <= |requests| :: ServeAll(cfg, s, requests[..n]).model.Some?
    ensures Anchored(ServeAll(cfg, s, requests)) && ServeAll(cfg, s, requests).model == s.model
    decreases |requests|
  {
    if requests != [] {
      var t := Serve(cfg, s, requests[0].0, requests[0].1);
      assert requests[..1] == [requests[0]];
      assert ServeAll(cfg, s, requests[..1]) == ServeAll(cfg, t, []) == t;
      forall n | 0 <= n <= |requests[1..]|
        ensures ServeAll(cfg, t, requests[1..][..n]).model.Some?
      {
        assert requests[..n + 1][1..] == requests[1..][..n];
        assert ServeAll(cfg, s, requests[..n + 1]).model.Some?;
      }
      ModelMovesOnlyThroughUnbound(cfg, t, requests[1..]);
    }
  }

  lemma {:induction false} AnchoredAlways(cfg: Config, requests: seq<(Request, int)>, s: Slot)
    requires Anchored(s)
    ensures Anchored(ServeAll(cfg, s, requests))
    decreases |requests|
  {
    if requests != [] {
      AnchoredAlways(cfg, requests[1..], Serve(cfg, s, requests[0].0, requests[0].1));
    }
  }

  /** The Redis state with the same prefix and, if bound, the same model. */
  function AsServer(s: Slot): Server {
    Server(s.prefix, if s.model.Some? then Some(NO_FIELDS.(model := s.model)) else None)
  }

  ghost predicate SameContent(a: Option<PrefixHash>, b: Option<PrefixHash>) {
    && a.Some? == b.Some?
    && (a.Some? ==> a.value.(accessed := 0) == b.value.(accessed := 0))
  }

  /**
   The in-memory publish gives the same answer, stored prefix and binding as the bare publish script,
   except in one case: the session has expired and the publish names another Virtual Model. The script
   drops the old binding first and accepts; the in-memory store still compares with it and refuses.
   WarmDeployments compares with the whole publish path on Redis, which also looks up the binding.
   */
  lemma MemoryPublishMatchesScriptIff(cfg: Config, s: Slot, input: PublishInput, now: int)
    requires Anchored(s) && CheckPublish(cfg, input).None? && cfg.prefixFits(input.messages)
    ensures var effective := if input.model.Some? then input.model else s.model;
            var (slot, r) := PublishSlot(cfg, s, input, now);
            var (server, code) := WarmScript.Publish(cfg.limits, AsServer(s), BuildPrefix(cfg, input), now,
                effective.GetOr(""));
            (&& (code >= 0 ==> r.Ok?)
             && (code < 0 ==> r == Err(PublishFailure(code)))
             && SameContent(slot.prefix, server.prefix)
             && slot.model == server.Model())
            <==>
            !(&& ReadPrefix(cfg.limits, s.prefix, now).Outdated?
              && s.model.Some? && input.model.Some? && s.model != input.model)
  {
  }

  /** After a successful publish, a delta that names its epoch and length is assembled, as long as
      the session is alive and the request fits. */
  lemma PublishThenDelta(cfg: Config, s: Slot, input: PublishInput, now: int, context: DeltaContext,
                         tail: seq<Json>, requested: Option<string>, later: int)
    requires PublishSlot(cfg, s, input, now).1.Ok? && input.epoch <= MAX_EPOCH
    requires !Expired(cfg.limits, PublishSlot(cfg, s, input, now).0.prefix.value, later)
    requires var model := PublishSlot(cfg, s, input, now).1.value.model;
             model.None? || requested.None? || model == requested
    requires cfg.tailFits(tail) && cfg.assembledFits(input.messages + tail)
    ensures var r := DeltaSlot(cfg, PublishSlot(cfg, s, input, now).0, context, tail, requested, later).1;
            r == Ok(input.messages + tail) <==>
              && context.epoch == Some(input.epoch)
              && context.tailStart == Some(|input.messages|)
              && (context.prefixHash.Some? ==> context.prefixHash.value == cfg.fingerprint(input.messages))
  {
  }
}
