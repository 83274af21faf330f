/**
 The atomic Redis operations behind a Warm session: the publish script, the delete script, and the
 single commands issued by the binding reader. One value of `Server` is the pair of hashes that
 belongs to one session key.
 */
module WarmScript {
  import opened Common

  /** The canonical prefix a client publishes; its rendering is what the script compares. */
  datatype SessionPrefix = SessionPrefix(
    epoch: nat,
    messages: seq<Json>,
    pinnedBoundary: Option<nat>,
    fingerprint: Option<string>,
    messageCount: Option<nat>)

  datatype PrefixHash = PrefixHash(epoch: nat, body: SessionPrefix, created: int, accessed: int)

  /** Every field is optional: single HSET commands can create the hash with one field only. */
  datatype BindingHash = BindingHash(
    model: Option<string>,
    epoch: Option<nat>,
    created: Option<int>,
    accessed: Option<int>)

  datatype Server = Server(prefix: Option<PrefixHash>, binding: Option<BindingHash>) {
    function Model(): Option<string> {
      if binding.Some? then binding.value.model else None
    }
  }

  /** Script arguments 4 and 5; 0 disables the limit. */
  datatype Lifetime = Lifetime(idleTtl: nat, maxLifetime: nat)

  /** Wrote: the script stored `body` with this result. Removed: the prefix hash disappeared.
      Unbound: the binding hash disappeared. */
  datatype Event = Wrote(code: int, body: SessionPrefix) | Removed | Unbound

  const CREATED := 0
  const REPLACED := 1
  const ALREADY_CURRENT := 2
  const STALE := -1
  const CONFLICT := -2
  const MODEL_CONFLICT := -3

  predicate Expired(limits: Lifetime, p: PrefixHash, now: int) {
    || (limits.maxLifetime > 0 && now - p.created >= limits.maxLifetime)
    || (limits.idleTtl > 0 && now - p.accessed >= limits.idleTtl)
  }

  /** The state the script works on once an expired session has been dropped. */
  function Survivor(limits: Lifetime, s: Server, now: int): Server {
    if s.prefix.Some? && Expired(limits, s.prefix.value, now) then Server(None, None) else s
  }

  /** What the script answers on a state without an expired prefix. */
  function Verdict(s: Server, body: SessionPrefix, model: string): int {
    if s.Model().Some? && model != "" && s.Model().value != model then MODEL_CONFLICT
    else if s.prefix.None? then CREATED
    else if body.epoch < s.prefix.value.epoch then STALE
    else if body.epoch > s.prefix.value.epoch then REPLACED
    else if s.prefix.value.body == body then ALREADY_CURRENT
    else CONFLICT
  }

  function BoundModel(s: Server, model: string): Option<string> {
    if model != "" then Some(model) else s.Model()
  }

  function Publish(limits: Lifetime, s: Server, body: SessionPrefix, now: int, model: string): (Server, int) {
    var live := Survivor(limits, s, now);
    var code := Verdict(live, body, model);
    if code < 0 then (live, code)
    else
      var created := if code == ALREADY_CURRENT then live.prefix.value.created else now;
      var binding :=
        if BoundModel(live, model).Some? then
          Some(BindingHash(BoundModel(live, model), Some(body.epoch), Some(created), Some(now)))
        else live.binding;
      (Server(Some(PrefixHash(body.epoch, body, created, now)), binding), code)
  }

  /** The two hashes as the mutable store the Lua scripts run against. */
  class RedisSession {
    var prefix: Option<PrefixHash>
    var binding: Option<BindingHash>

    constructor ()
      ensures State() == Server(None, None)
    {
      prefix, binding := None, None;
    }

    ghost function State(): Server
      reads this
    {
      Server(prefix, binding)
    }

    method RunPublishScript(limits: Lifetime, body: SessionPrefix, now: int, model: string) returns (result: int)
      modifies this
      ensures (State(), result) == Publish(limits, old(State()), body, now, model)
    {
      var oldEpoch := if prefix.Some? then Some(prefix.value.epoch) else None;
      var oldCreated := if prefix.Some? then prefix.value.created else 0;
      var oldAccessed := if prefix.Some? then prefix.value.accessed else 0;
      if oldEpoch.Some? &&
         ((limits.maxLifetime > 0 && now - oldCreated >= limits.maxLifetime) ||
          (limits.idleTtl > 0 && now - oldAccessed >= limits.idleTtl))
      {
        prefix, binding := None, None;
        oldEpoch := None;
      }
      var existing := if binding.Some? then binding.value.model else None;
      if existing.Some? && model != "" && existing.value != model {
        return MODEL_CONFLICT;
      }
      result := CREATED;
      if oldEpoch.Some? {
        if body.epoch < oldEpoch.value {
          return STALE;
        }
        if body.epoch == oldEpoch.value {
          if prefix.value.body != body {
            return CONFLICT;
          }
          result := ALREADY_CURRENT;
        } else {
          result := REPLACED;
        }
      }
      var created := if result == ALREADY_CURRENT then oldCreated else now;
      prefix := Some(PrefixHash(body.epoch, body, created, now));
      if model != "" {
        binding := Some(BindingHash(Some(model), Some(body.epoch), Some(created), Some(now)));
      } else if existing.Some? {
        binding := Some(binding.value.(epoch := Some(body.epoch), created := Some(created), accessed := Some(now)));
      }
    }

    method RunDeleteScript()
      modifies this
      ensures State() == Server(None, None)
    {
      prefix, binding := None, None;
    }
  }

  /** A rejected publish leaves both hashes exactly as they were, expired or not. */
  lemma RejectedPublishChangesNothing(limits: Lifetime, s: Server, body: SessionPrefix, now: int, model: string)
    requires Publish(limits, s, body, now, model).1 < 0
    ensures Publish(limits, s, body, now, model).0 == s
  {
  }

  /** Republishing what is stored keeps the creation time; every other accepted publish resets it. */
  lemma OnlyNewContentMovesCreation(limits: Lifetime, s: Server, body: SessionPrefix, now: int, model: string)
    requires s.prefix.Some? && !Expired(limits, s.prefix.value, now)
    requires Publish(limits, s, body, now, model).1 >= 0
    ensures var p := Publish(limits, s, body, now, model).0.prefix;
            && p.Some?
            && p.value.created == (if body == s.prefix.value.body && body.epoch == s.prefix.value.epoch
                                   then s.prefix.value.created else now)
  {
  }

  // ----- single atomic operations -----

  /** Everything any client, cleaner or key expiry does to the pair of hashes in one atomic step. */
  datatype ServerOp =
    | Observe
    | RunPublish(body: SessionPrefix, now: int, model: string)
    | RunDelete
    | EvictPrefix
    | EvictBinding
    | TouchPrefix(at: int)
    | FillEpoch(epoch: nat)
    | TouchBinding(at: int)

  const NO_FIELDS := BindingHash(None, None, None, None)

  /** HSET on a missing key creates the hash with that one field. */
  function OrEmpty(b: Option<BindingHash>): BindingHash {
    b.GetOr(NO_FIELDS)
  }

  function Apply(limits: Lifetime, s: Server, op: ServerOp): Server {
    match op
    case Observe => s
    case RunPublish(body, now, model) => Publish(limits, s, body, now, model).0
    case RunDelete => Server(None, None)
    case EvictPrefix => s.(prefix := None)
    case EvictBinding => s.(binding := None)
    case TouchPrefix(at) => if s.prefix.Some? then s.(prefix := Some(s.prefix.value.(accessed := at))) else s
    case FillEpoch(epoch) => s.(binding := Some(OrEmpty(s.binding).(epoch := Some(epoch))))
    case TouchBinding(at) => s.(binding := Some(OrEmpty(s.binding).(accessed := Some(at))))
  }

  function Losses(s: Server): seq<Event> {
    (if s.prefix.Some? then [Removed] else []) + (if s.binding.Some? then [Unbound] else [])
  }

  function Events(limits: Lifetime, s: Server, op: ServerOp): seq<Event> {
    match op
    case RunPublish(body, now, model) =>
      var code := Publish(limits, s, body, now, model).1;
      (if Survivor(limits, s, now) != s then Losses(s) else []) + (if code >= 0 then [Wrote(code, body)] else [])
    case RunDelete => Losses(s)
    case EvictPrefix => if s.prefix.Some? then [Removed] else []
    case EvictBinding => if s.binding.Some? then [Unbound] else []
    case _ => []
  }
}
