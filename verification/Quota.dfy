/**
 Hard limits per project and API key: requests per minute over a sliding window, and concurrent
 requests. The class is the limiter as one thread uses it; QuotaConcurrency and QuotaRace treat
 interleaved callers.
 */
module Quota {
  import opened Common

  type u32 = n: nat | n < 0x1_0000_0000

  // Times are nanoseconds on the monotonic clock.
  const RPM_WINDOW: nat := 60 * SECOND
  const RPM_IDLE_TTL: nat := 600 * SECOND

  datatype RpmState = RpmState(events: seq<nat>, lastActive: nat)

  datatype Limits = Limits(rpm: Option<u32>, concurrency: Option<u32>)

  datatype Scope = ProjectScope | KeyScope

  datatype Reject =
    | Rpm(scope: Scope, limit: u32, retryAfterSecs: nat)
    | Concurrency(scope: Scope, limit: u32)

  type RpmMap = map<string, RpmState>
  type CounterMap = map<string, nat>

  function Prune(events: seq<nat>, now: nat): seq<nat> {
    if events != [] && Since(now, events[0]) >= RPM_WINDOW then Prune(events[1..], now) else events
  }

  function EventsOf(m: RpmMap, id: string): seq<nat> {
    if id in m then m[id].events else []
  }

  function CountOf(m: CounterMap, id: string): nat {
    if id in m then m[id] else 0
  }

  /** Whole seconds until the oldest event leaves the window, at least one. */
  function RetryAfter(window: seq<nat>, now: nat): nat {
    if window == [] then 1
    else
      var left := if Since(now, window[0]) <= RPM_WINDOW then RPM_WINDOW - Since(now, window[0]) else 0;
      if left / SECOND < 1 then 1 else left / SECOND
  }

  predicate Exceeds(window: seq<nat>, limit: u32) {
    |window| % 0x1_0000_0000 >= limit
  }

  method PruneWindow(q: seq<nat>, now: nat) returns (q': seq<nat>)
    ensures q' == Prune(q, now)
  {
    q' := q;
    while q' != [] && Since(now, q'[0]) >= RPM_WINDOW
      invariant Prune(q', now) == Prune(q, now)
      decreases |q'|
    {
      q' := q'[1..];
    }
  }

  class QuotaLimiter {
    var keyRpm: RpmMap
    var projectRpm: RpmMap
    var keyConcurrency: CounterMap
    var projectConcurrency: CounterMap

    constructor ()
      ensures State() == FRESH
    {
      keyRpm, projectRpm, keyConcurrency, projectConcurrency := map[], map[], map[], map[];
    }

    function State(): Limiter
      reads this
    {
      Limiter(keyRpm, projectRpm, keyConcurrency, projectConcurrency)
    }

    method TryAcquire(keyId: string, projectId: string, keyLimits: Limits, projectLimits: Limits, now: nat)
      returns (r: Result<(), Reject>)
      modifies this
      ensures (State(), r) == Acquire(old(State()), keyId, projectId, keyLimits, projectLimits, now)
    {
      if projectLimits.rpm.Some? {
        var retry;
        projectRpm, retry := WouldExceedRpm(projectRpm, projectId, projectLimits.rpm.value, now);
        if retry.Some? {
          return Err(Rpm(ProjectScope, projectLimits.rpm.value, retry.value));
        }
      }
      if keyLimits.rpm.Some? {
        var retry;
        keyRpm, retry := WouldExceedRpm(keyRpm, keyId, keyLimits.rpm.value, now);
        if retry.Some? {
          return Err(Rpm(KeyScope, keyLimits.rpm.value, retry.value));
        }
      }
      r := ReserveSlots(keyId, projectId, keyLimits.concurrency, projectLimits.concurrency);
      if r.Err? {
        return;
      }
      if projectLimits.rpm.Some? {
        projectRpm := RecordRpm(projectRpm, projectId, now);
      }
      if keyLimits.rpm.Some? {
        keyRpm := RecordRpm(keyRpm, keyId, now);
      }
    }

    /** Project slot first, then the key slot; a refused key gives the project slot back. */
    method ReserveSlots(keyId: string, projectId: string, keyLimit: Option<u32>, projectLimit: Option<u32>)
      returns (r: Result<(), Reject>)
      modifies this`keyConcurrency, this`projectConcurrency
      ensures r == DecideSlots(CountOf(old(projectConcurrency), projectId), CountOf(old(keyConcurrency), keyId),
                               keyLimit, projectLimit)
      ensures keyConcurrency == CounterAfter(old(keyConcurrency), keyId, keyLimit, SlotsReached(r, KeyScope), r.Ok?)
      ensures projectConcurrency == CounterAfter(old(projectConcurrency), projectId, projectLimit, true, r.Ok?)
    {
      if projectLimit.Some? {
        var ok;
        projectConcurrency, ok := TryInc(projectConcurrency, projectId, projectLimit.value);
        if !ok {
          return Err(Concurrency(ProjectScope, projectLimit.value));
        }
      }
      if keyLimit.Some? {
        var ok;
        keyConcurrency, ok := TryInc(keyConcurrency, keyId, keyLimit.value);
        if !ok {
          if projectLimit.Some? {
            projectConcurrency := Dec(projectConcurrency, projectId);
          }
          return Err(Concurrency(KeyScope, keyLimit.value));
        }
      }
      r := Ok(());
    }

    method Release(keyId: string, projectId: Option<string>)
      modifies this
      ensures State() == ReleaseSlots(old(State()), keyId, projectId)
    {
      keyConcurrency := Dec(keyConcurrency, keyId);
      if projectId.Some? {
        projectConcurrency := Dec(projectConcurrency, projectId.value);
      }
    }
  }

  method WouldExceedRpm(m: RpmMap, id: string, limit: u32, now: nat) returns (m': RpmMap, retry: Option<nat>)
    ensures m' == AfterCheck(m, id, now)
    ensures var window := Prune(EventsOf(m, id), now);
            retry == if Exceeds(window, limit) then Some(RetryAfter(window, now)) else None
  {
    var state := if id in m then m[id] else RpmState([], now);
    var events := PruneWindow(state.events, now);
    var evict := events == [] && Since(now, state.lastActive) >= RPM_IDLE_TTL;
    m' := m[id := RpmState(events, now)];
    retry := if Exceeds(events, limit) then Some(RetryAfter(events, now)) else None;
    if evict {
      m' := EvictIfEmpty(m', id, now);
    }
  }

  method EvictIfEmpty(m: RpmMap, id: string, now: nat) returns (m': RpmMap)
    requires id in m
    ensures var events := Prune(m[id].events, now);
            m' == if events == [] then m - {id} else m[id := m[id].(events := events)]
  {
    var events := PruneWindow(m[id].events, now);
    m' := if events == [] then m - {id} else m[id := m[id].(events := events)];
  }

  method RecordRpm(m: RpmMap, id: string, now: nat) returns (m': RpmMap)
    ensures m' == m[id := RpmState(Prune(EventsOf(m, id), now) + [now], now)]
  {
    var state := if id in m then m[id] else RpmState([], now);
    var events := PruneWindow(state.events, now);
    m' := m[id := RpmState(events + [now], now)];
  }

  method TryInc(m: CounterMap, id: string, limit: u32) returns (m': CounterMap, ok: bool)
    ensures ok == (CountOf(m, id) < limit)
    ensures m' == m[id := if ok then CountOf(m, id) + 1 else CountOf(m, id)]
  {
    var cur := if id in m then m[id] else 0;
    ok := cur < limit;
    m' := m[id := if ok then cur + 1 else cur];
  }

  method Dec(m: CounterMap, id: string) returns (m': CounterMap)
    ensures m' == Decremented(m, id)
  {
    m' := m;
    if id in m && m[id] != 0 {
      m' := m[id := m[id] - 1];
    }
  }

  // ----- the limiter as a value -----

  datatype Limiter = Limiter(
    keyRpm: RpmMap,
    projectRpm: RpmMap,
    keyConcurrency: CounterMap,
    projectConcurrency: CounterMap)

  const FRESH := Limiter(map[], map[], map[], map[])

  function Decremented(m: CounterMap, id: string): CounterMap {
    if CountOf(m, id) > 0 then m[id := m[id] - 1] else m
  }

  /** A check prunes the window and marks the entry active, or evicts one idle for too long. */
  function AfterCheck(m: RpmMap, id: string, now: nat): RpmMap {
    var lastActive := if id in m then m[id].lastActive else now;
    var events := Prune(EventsOf(m, id), now);
    if events == [] && Since(now, lastActive) >= RPM_IDLE_TTL then m - {id} else m[id := RpmState(events, now)]
  }

  /** The verdict on a call, from the two windows and the two counters alone. */
  function Decide(projectWindow: seq<nat>, keyWindow: seq<nat>, projectCount: nat, keyCount: nat,
                  keyLimits: Limits, projectLimits: Limits, now: nat): Result<(), Reject>
  {
    if projectLimits.rpm.Some? && Exceeds(projectWindow, projectLimits.rpm.value) then
      Err(Rpm(ProjectScope, projectLimits.rpm.value, RetryAfter(projectWindow, now)))
    else if keyLimits.rpm.Some? && Exceeds(keyWindow, keyLimits.rpm.value) then
      Err(Rpm(KeyScope, keyLimits.rpm.value, RetryAfter(keyWindow, now)))
    else DecideSlots(projectCount, keyCount, keyLimits.concurrency, projectLimits.concurrency)
  }

  function DecideSlots(projectCount: nat, keyCount: nat, keyLimit: Option<u32>, projectLimit: Option<u32>):
    Result<(), Reject>
  {
    if projectLimit.Some? && projectCount >= projectLimit.value then Err(Concurrency(ProjectScope, projectLimit.value))
    else if keyLimit.Some? && keyCount >= keyLimit.value then Err(Concurrency(KeyScope, keyLimit.value))
    else Ok(())
  }

  /** One scope's windows after a call: checked or not reached, and recorded if the call got in. */
  function RpmAfter(m: RpmMap, id: string, limit: Option<u32>, now: nat, checked: bool, admitted: bool): RpmMap {
    if limit.None? || !checked then m
    else
      var seen := AfterCheck(m, id, now);
      if admitted then seen[id := RpmState(Prune(EventsOf(seen, id), now) + [now], now)] else seen
  }

  /** One scope's counters after a call. An entry exists once it has been asked for, even at zero. */
  function CounterAfter(m: CounterMap, id: string, limit: Option<u32>, reached: bool, admitted: bool): CounterMap {
    if limit.None? || !reached then m else m[id := CountOf(m, id) + if admitted then 1 else 0]
  }

  predicate KeyRpmChecked(r: Result<(), Reject>) {
    !(r.Err? && r.error.Rpm? && r.error.scope == ProjectScope)
  }

  predicate SlotsReached(r: Result<(), Reject>, scope: Scope) {
    r.Ok? || (r.error.Concurrency? && (scope == ProjectScope || r.error.scope == KeyScope))
  }

  function Acquire(s: Limiter, keyId: string, projectId: string, keyLimits: Limits, projectLimits: Limits, now: nat):
    (Limiter, Result<(), Reject>)
  {
    var r := Decide(Prune(EventsOf(s.projectRpm, projectId), now), Prune(EventsOf(s.keyRpm, keyId), now),
                    CountOf(s.projectConcurrency, projectId), CountOf(s.keyConcurrency, keyId),
                    keyLimits, projectLimits, now);
    (Limiter(RpmAfter(s.keyRpm, keyId, keyLimits.rpm, now, KeyRpmChecked(r), r.Ok?),
             RpmAfter(s.projectRpm, projectId, projectLimits.rpm, now, true, r.Ok?),
             CounterAfter(s.keyConcurrency, keyId, keyLimits.concurrency, SlotsReached(r, KeyScope), r.Ok?),
             CounterAfter(s.projectConcurrency, projectId, projectLimits.concurrency,
                          SlotsReached(r, ProjectScope), r.Ok?)),
     r)
  }

  function ReleaseSlots(s: Limiter, keyId: string, projectId: Option<string>): Limiter {
    s.(keyConcurrency := Decremented(s.keyConcurrency, keyId),
       projectConcurrency :=
         if projectId.Some? then Decremented(s.projectConcurrency, projectId.value) else s.projectConcurrency)
  }

  /** Releasing an admitted call restores every count, provided each of its scopes is limited or was not counted. */
  lemma ReleaseUndoesAcquireIff(s: Limiter, keyId: string, projectId: string,
                                keyLimits: Limits, projectLimits: Limits, now: nat)
    requires Acquire(s, keyId, projectId, keyLimits, projectLimits, now).1.Ok?
    ensures var admitted := Acquire(s, keyId, projectId, keyLimits, projectLimits, now).0;
            var s' := ReleaseSlots(admitted, keyId, Some(projectId));
            (forall id :: CountOf(s'.keyConcurrency, id) == CountOf(s.keyConcurrency, id)
                          && CountOf(s'.projectConcurrency, id) == CountOf(s.projectConcurrency, id)) <==>
            && (keyLimits.concurrency.Some? || CountOf(s.keyConcurrency, keyId) == 0)
            && (projectLimits.concurrency.Some? || CountOf(s.projectConcurrency, projectId) == 0)
  {
    var s' := ReleaseSlots(Acquire(s, keyId, projectId, keyLimits, projectLimits, now).0, keyId, Some(projectId));
    if forall id :: CountOf(s'.keyConcurrency, id) == CountOf(s.keyConcurrency, id)
                    && CountOf(s'.projectConcurrency, id) == CountOf(s.projectConcurrency, id) {
      assert CountOf(s'.keyConcurrency, keyId) == CountOf(s.keyConcurrency, keyId);
      assert CountOf(s'.projectConcurrency, projectId) == CountOf(s.projectConcurrency, projectId);
    }
  }

  // ----- pruning loses nothing -----

  /** The events of a full history that are still inside the window at `now`. */
  function Recent(history: seq<nat>, now: nat): seq<nat> {
    if history == [] then []
    else
      var last := history[|history| - 1];
      Recent(history[..|history| - 1], now) + if Since(now, last) < RPM_WINDOW then [last] else []
  }

  lemma {:induction false} PruneTwice(events: seq<nat>, now: nat, later: nat)
    requires now <= later
    ensures Prune(Prune(events, now), later) == Prune(events, later)
  {
    if events != [] && Since(now, events[0]) >= RPM_WINDOW {
      PruneTwice(events[1..], now, later);
    }
  }

  lemma {:induction false} PruneAppend(events: seq<nat>, e: nat, now: nat)
    requires forall t | t in events :: t <= e
    ensures Prune(events + [e], now) == Prune(events, now) + if Since(now, e) < RPM_WINDOW then [e] else []
  {
    if events == [] {
      assert Prune([e], now) == if Since(now, e) < RPM_WINDOW then [e] else Prune([], now);
    } else {
      assert events[0] in events;
      assert (events + [e])[0] == events[0] && (events + [e])[1..] == events[1..] + [e];
      if Since(now, events[0]) >= RPM_WINDOW {
        assert forall t | t in events[1..] :: t in events;
        PruneAppend(events[1..], e, now);
      }
    }
  }

  /** From `now` on, the stored events render the same windows as the full admission history. */
  ghost predicate Stands(events: seq<nat>, history: seq<nat>, now: nat) {
    && (forall t | t in events :: t <= now)
    && (forall later | now <= later :: Prune(events, later) == Recent(history, later))
  }

  lemma StandsAfterPrune(events: seq<nat>, history: seq<nat>, now: nat, later: nat)
    requires Stands(events, history, now) && now <= later
    ensures Stands(Prune(events, later), history, later)
  {
    forall then' | later <= then'
      ensures Prune(Prune(events, later), then') == Recent(history, then')
    {
      PruneTwice(events, later, then');
    }
    PruneKeepsMembers(events, later);
  }

  lemma {:induction false} PruneKeepsMembers(events: seq<nat>, now: nat)
    ensures forall t | t in Prune(events, now) :: t in events
  {
    if events != [] && Since(now, events[0]) >= RPM_WINDOW {
      PruneKeepsMembers(events[1..], now);
    }
  }

  lemma StandsAfterRecord(events: seq<nat>, history: seq<nat>, now: nat)
    requires Stands(events, history, now)
    ensures Stands(events + [now], history + [now], now)
  {
    forall later | now <= later
      ensures Prune(events + [now], later) == Recent(history + [now], later)
    {
      PruneAppend(events, now, later);
      assert (history + [now])[..|history|] == history;
    }
  }

  // ----- runs of calls -----

  datatype Call =
    | AcquireCall(keyId: string, projectId: string, keyLimits: Limits, projectLimits: Limits)
    | ReleaseCall(keyId: string, owner: Option<string>)

  type Timed = (Call, nat)

  /** A limiter that never forgets an admission. */
  datatype Full = Full(
    keys: map<string, seq<nat>>,
    projects: map<string, seq<nat>>,
    keyConcurrency: CounterMap,
    projectConcurrency: CounterMap)

  const FRESH_FULL := Full(map[], map[], map[], map[])

  function HistoryOf(m: map<string, seq<nat>>, id: string): seq<nat> {
    if id in m then m[id] else []
  }

  function Append(m: map<string, seq<nat>>, id: string, limit: Option<u32>, now: nat): map<string, seq<nat>> {
    if limit.Some? then m[id := HistoryOf(m, id) + [now]] else m
  }

  function Step(s: Limiter, c: Call, now: nat): (Limiter, Result<(), Reject>) {
    match c
    case AcquireCall(k, p, kl, pl) => Acquire(s, k, p, kl, pl, now)
    case ReleaseCall(k, p) => (ReleaseSlots(s, k, p), Ok(()))
  }

  function FullStep(f: Full, c: Call, now: nat): (Full, Result<(), Reject>) {
    match c
    case AcquireCall(k, p, kl, pl) =>
      var r := Decide(Recent(HistoryOf(f.projects, p), now), Recent(HistoryOf(f.keys, k), now),
                      CountOf(f.projectConcurrency, p), CountOf(f.keyConcurrency, k), kl, pl, now);
      (if r.Ok? then
         Full(Append(f.keys, k, kl.rpm, now), Append(f.projects, p, pl.rpm, now),
              CounterAfter(f.keyConcurrency, k, kl.concurrency, true, true),
              CounterAfter(f.projectConcurrency, p, pl.concurrency, true, true))
       else f, r)
    case ReleaseCall(k, p) =>
      (f.(keyConcurrency := Decremented(f.keyConcurrency, k),
          projectConcurrency := if p.Some? then Decremented(f.projectConcurrency, p.value) else f.projectConcurrency),
       Ok(()))
  }

  function Results(s: Limiter, calls: seq<Timed>): seq<Result<(), Reject>>
    decreases |calls|
  {
    if calls == [] then []
    else
      var (s', r) := Step(s, calls[0].0, calls[0].1);
      [r] + Results(s', calls[1..])
  }

  function FullResults(f: Full, calls: seq<Timed>): seq<Result<(), Reject>>
    decreases |calls|
  {
    if calls == [] then []
    else
      var (f', r) := FullStep(f, calls[0].0, calls[0].1);
      [r] + FullResults(f', calls[1..])
  }

  predicate Clocked(calls: seq<Timed>, start: nat) {
    calls != [] ==> start <= calls[0].1 && Clocked(calls[1..], calls[0].1)
  }

  ghost predicate Simulates(s: Limiter, f: Full, now: nat) {
    && ScopeStands(s.keyRpm, f.keys, now)
    && ScopeStands(s.projectRpm, f.projects, now)
    && SameCounts(s.keyConcurrency, f.keyConcurrency)
    && SameCounts(s.projectConcurrency, f.projectConcurrency)
  }

  ghost predicate ScopeStands(m: RpmMap, h: map<string, seq<nat>>, now: nat) {
    forall id: string {:trigger HistoryOf(h, id)} :: Stands(EventsOf(m, id), HistoryOf(h, id), now)
  }

  /** One scope's map after a call, checked or not, recorded or not, still stands for its history. */
  lemma ScopeStandsAfter(m: RpmMap, h: map<string, seq<nat>>, id: string, limit: Option<u32>,
                         now: nat, later: nat, checked: bool, admitted: bool)
    requires now <= later && (admitted ==> checked) && ScopeStands(m, h, now)
    ensures ScopeStands(RpmAfter(m, id, limit, later, checked, admitted),
                        if admitted then Append(h, id, limit, later) else h, later)
  {
    var m' := RpmAfter(m, id, limit, later, checked, admitted);
    var h' := if admitted then Append(h, id, limit, later) else h;
    forall i: string {:trigger HistoryOf(h', i)}
      ensures Stands(EventsOf(m', i), HistoryOf(h', i), later)
    {
      var events, history := EventsOf(m, i), HistoryOf(h, i);
      StandsAfterPrune(events, history, now, later);
      if i == id && checked && limit.Some? {
        assert EventsOf(AfterCheck(m, id, later), id) == Prune(events, later);
        PruneTwice(events, later, later);
        if admitted {
          StandsAfterRecord(Prune(events, later), history, later);
        }
      }
    }
  }

  ghost predicate SameCounts(m: CounterMap, m2: CounterMap) {
    forall id: string :: CountOf(m, id) == CountOf(m2, id)
  }

  lemma SameCountsDecremented(m: CounterMap, m2: CounterMap, id: string)
    requires SameCounts(m, m2)
    ensures SameCounts(Decremented(m, id), Decremented(m2, id))
  {
    assert CountOf(m, id) == CountOf(m2, id);
    forall i: string
      ensures CountOf(Decremented(m, id), i) == CountOf(Decremented(m2, id), i)
    {
      assert CountOf(m, i) == CountOf(m2, i);
    }
  }

  lemma SameCountsAfter(m: CounterMap, m2: CounterMap, id: string, limit: Option<u32>, reached: bool, admitted: bool)
    requires SameCounts(m, m2)
    ensures SameCounts(CounterAfter(m, id, limit, reached, admitted),
                       if admitted then CounterAfter(m2, id, limit, reached, true) else m2)
  {
    assert CountOf(m, id) == CountOf(m2, id);
    forall i: string
      ensures CountOf(CounterAfter(m, id, limit, reached, admitted), i)
           == CountOf(if admitted then CounterAfter(m2, id, limit, reached, true) else m2, i)
    {
      assert CountOf(m, i) == CountOf(m2, i);
    }
  }

  lemma StepSimulates(s: Limiter, f: Full, c: Call, now: nat, later: nat)
    requires Simulates(s, f, now) && now <= later
    ensures Step(s, c, later).1 == FullStep(f, c, later).1
    ensures Simulates(Step(s, c, later).0, FullStep(f, c, later).0, later)
  {
    match c
    case AcquireCall(k, p, kl, pl) =>
      assert Stands(EventsOf(s.keyRpm, k), HistoryOf(f.keys, k), now);
      assert Stands(EventsOf(s.projectRpm, p), HistoryOf(f.projects, p), now);
      var r := FullStep(f, c, later).1;
      assert r == Step(s, c, later).1;
      ScopeStandsAfter(s.projectRpm, f.projects, p, pl.rpm, now, later, true, r.Ok?);
      ScopeStandsAfter(s.keyRpm, f.keys, k, kl.rpm, now, later, KeyRpmChecked(r), r.Ok?);
      SameCountsAfter(s.keyConcurrency, f.keyConcurrency, k, kl.concurrency, SlotsReached(r, KeyScope), r.Ok?);
      SameCountsAfter(s.projectConcurrency, f.projectConcurrency, p, pl.concurrency,
                      SlotsReached(r, ProjectScope), r.Ok?);
    case ReleaseCall(k, p) =>
      SameCountsDecremented(s.keyConcurrency, f.keyConcurrency, k);
      if p.Some? {
        SameCountsDecremented(s.projectConcurrency, f.projectConcurrency, p.value);
      }
      ScopeStandsAfter(s.projectRpm, f.projects, "", None, now, later, true, false);
      ScopeStandsAfter(s.keyRpm, f.keys, "", None, now, later, true, false);
  }

  /** Pruning and idle eviction never change a verdict, not even its retry hint. */
  lemma {:induction false} AgreesWithFullHistory(s: Limiter, f: Full, calls: seq<Timed>, now: nat)
    requires Simulates(s, f, now) && Clocked(calls, now)
    ensures Results(s, calls) == FullResults(f, calls)
    decreases |calls|
  {
    if calls != [] {
      StepSimulates(s, f, calls[0].0, now, calls[0].1);
      AgreesWithFullHistory(Step(s, calls[0].0, calls[0].1).0, FullStep(f, calls[0].0, calls[0].1).0,
                            calls[1..], calls[0].1);
    }
  }

  /** Rejected calls consume nothing: every later verdict is the one without the rejected call. */
  lemma RejectionConsumesNothing(s: Limiter, f: Full, c: Call, calls: seq<Timed>, now: nat, later: nat)
    requires Simulates(s, f, now) && now <= later && Clocked(calls, later)
    requires Step(s, c, later).1.Err?
    ensures Results(Step(s, c, later).0, calls) == Results(s, calls)
  {
    StepSimulates(s, f, c, now, later);
    AgreesWithFullHistory(Step(s, c, later).0, f, calls, later);
    StepSimulates(s, f, ReleaseCall("", None), now, later);
    AgreesWithFullHistory(s, f, calls, now);
  }

  // ----- the sliding-window guarantee -----

  /** How many of these times lie in the half-open minute that starts at `from`. */
  function CountIn(times: seq<nat>, from: nat): nat {
    if times == [] then 0
    else CountIn(times[..|times| - 1], from) + if from <= times[|times| - 1] < from + RPM_WINDOW then 1 else 0
  }

  predicate Concerns(c: Call, id: string, scope: Scope) {
    c.AcquireCall? && id == if scope == ProjectScope then c.projectId else c.keyId
  }

  /** Admission times of one scope over a run, appended to those before it. */
  function Admissions(s: Limiter, calls: seq<Timed>, id: string, scope: Scope, sofar: seq<nat>): seq<nat>
    decreases |calls|
  {
    if calls == [] then sofar
    else
      var (s', r) := Step(s, calls[0].0, calls[0].1);
      Admissions(s', calls[1..], id, scope,
                 if Concerns(calls[0].0, id, scope) && r.Ok? then sofar + [calls[0].1] else sofar)
  }

  /** Every call on this scope carries the same limit. */
  predicate FixedLimit(calls: seq<Timed>, id: string, scope: Scope, limit: u32) {
    forall i | 0 <= i < |calls| && Concerns(calls[i].0, id, scope) ::
      Some(limit) == if scope == ProjectScope then calls[i].0.projectLimits.rpm else calls[i].0.keyLimits.rpm
  }

  lemma {:induction false} CountInRecent(times: seq<nat>, from: nat, now: nat)
    requires from <= now < from + RPM_WINDOW && forall t | t in times :: t <= now
    ensures CountIn(times, from) <= |Recent(times, now)|
  {
    if times != [] {
      var init := times[..|times| - 1];
      assert forall t | t in init :: t in times;
      CountInRecent(init, from, now);
    }
  }

  /** No half-open minute holds more of these times than the limit. */
  ghost predicate Within(times: seq<nat>, limit: u32) {
    forall from: nat :: CountIn(times, from) <= limit
  }

  ghost predicate Bounded(history: seq<nat>, limit: u32, now: nat) {
    && (forall t | t in history :: t <= now)
    && Within(history, limit)
  }

  lemma RecentIsBounded(history: seq<nat>, limit: u32, now: nat)
    requires Bounded(history, limit, now)
    ensures |Recent(history, now)| <= limit
  {
    var from := if now >= RPM_WINDOW then now - RPM_WINDOW + 1 else 0;
    RecentCountsIn(history, from, now);
    assert CountIn(history, from) <= limit;
  }

  lemma {:induction false} RecentCountsIn(times: seq<nat>, from: nat, now: nat)
    requires from == (if now >= RPM_WINDOW then now - RPM_WINDOW + 1 else 0) && forall t | t in times :: t <= now
    ensures |Recent(times, now)| == CountIn(times, from)
  {
    if times != [] {
      var init := times[..|times| - 1];
      assert forall t | t in init :: t in times;
      assert times[|times| - 1] in times;
      RecentCountsIn(init, from, now);
    }
  }

  lemma AdmissionKeepsBound(history: seq<nat>, limit: u32, now: nat, later: nat)
    requires Bounded(history, limit, now) && now <= later
    requires !Exceeds(Recent(history, later), limit)
    ensures Bounded(history + [later], limit, later)
  {
    RecentIsBounded(history, limit, later);
    forall from: nat
      ensures CountIn(history + [later], from) <= limit
    {
      assert (history + [later])[..|history|] == history;
      if from <= later < from + RPM_WINDOW {
        CountInRecent(history, from, later);
      }
    }
  }

  function Kept(f: Full, id: string, scope: Scope): seq<nat> {
    HistoryOf(if scope == ProjectScope then f.projects else f.keys, id)
  }

  lemma StepKeepsBound(f: Full, c: Call, later: nat, id: string, scope: Scope, limit: u32, now: nat)
    requires Bounded(Kept(f, id, scope), limit, now) && now <= later && FixedLimit([(c, later)], id, scope, limit)
    ensures var (f', r) := FullStep(f, c, later);
            && Kept(f', id, scope) == Kept(f, id, scope) + (if Concerns(c, id, scope) && r.Ok? then [later] else [])
            && Bounded(Kept(f', id, scope), limit, later)
  {
    var (f', r) := FullStep(f, c, later);
    if Concerns(c, id, scope) && r.Ok? {
      assert [(c, later)][0].0 == c;
      AdmissionKeepsBound(Kept(f, id, scope), limit, now, later);
    } else {
      assert Kept(f', id, scope) == Kept(f, id, scope);
    }
  }

  lemma AdmissionsUnfold(s: Limiter, calls: seq<Timed>, id: string, scope: Scope, before: seq<nat>, after: seq<nat>)
    requires calls != []
    requires after == before +
             if Concerns(calls[0].0, id, scope) && Step(s, calls[0].0, calls[0].1).1.Ok? then [calls[0].1] else []
    ensures Admissions(s, calls, id, scope, before)
            == Admissions(Step(s, calls[0].0, calls[0].1).0, calls[1..], id, scope, after)
  {
    assert before + [] == before;
  }

  lemma AdmissionsStep(s: Limiter, f: Full, calls: seq<Timed>, id: string, scope: Scope, limit: u32, now: nat)
    returns (s': Limiter, f': Full)
    requires Simulates(s, f, now) && calls != [] && Clocked(calls, now) && FixedLimit(calls, id, scope, limit)
    requires Bounded(Kept(f, id, scope), limit, now)
    ensures s' == Step(s, calls[0].0, calls[0].1).0 && f' == FullStep(f, calls[0].0, calls[0].1).0
    ensures Simulates(s', f', calls[0].1) && Bounded(Kept(f', id, scope), limit, calls[0].1)
    ensures Admissions(s, calls, id, scope, Kept(f, id, scope))
            == Admissions(s', calls[1..], id, scope, Kept(f', id, scope))
  {
    var (c, later) := calls[0];
    s', f' := Step(s, c, later).0, FullStep(f, c, later).0;
    StepSimulates(s, f, c, now, later);
    assert FixedLimit([(c, later)], id, scope, limit);
    StepKeepsBound(f, c, later, id, scope, limit, now);
    AdmissionsUnfold(s, calls, id, scope, Kept(f, id, scope), Kept(f', id, scope));
  }

  lemma {:induction false} AdmissionsBounded(s: Limiter, f: Full, calls: seq<Timed>, id: string, scope: Scope,
      limit: u32, now: nat)
    requires Simulates(s, f, now) && Clocked(calls, now) && FixedLimit(calls, id, scope, limit)
    requires Bounded(Kept(f, id, scope), limit, now)
    ensures Within(Admissions(s, calls, id, scope, Kept(f, id, scope)), limit)
    decreases |calls|
  {
    if calls != [] {
      var s', f' := AdmissionsStep(s, f, calls, id, scope, limit, now);
      assert FixedLimit(calls[1..], id, scope, limit);
      AdmissionsBounded(s', f', calls[1..], id, scope, limit, calls[0].1);
    }
  }

  /** The guarantee: over any sequential run on a non-decreasing clock, no half-open minute holds
      more than `limit` admissions of a scope, for projects and for keys. */
  lemma SlidingWindowHolds(calls: seq<Timed>, id: string, scope: Scope, limit: u32, from: nat)
    requires Clocked(calls, 0) && FixedLimit(calls, id, scope, limit)
    ensures CountIn(Admissions(FRESH, calls, id, scope, []), from) <= limit
  {
    FreshSimulates();
    AdmissionsBounded(FRESH, FRESH_FULL, calls, id, scope, limit, 0);
  }

  lemma FreshSimulates()
    ensures Simulates(FRESH, FRESH_FULL, 0)
  {
  }

  // ----- what the retry hint is worth -----

  ghost predicate Ascending(window: seq<nat>, now: nat) {
    && (forall i, j | 0 <= i < j < |window| :: window[i] <= window[j])
    && (forall i | 0 <= i < |window| :: window[i] <= now)
  }

  ghost predicate WindowsAscend(s: Limiter, now: nat) {
    && (forall id | id in s.keyRpm :: Ascending(s.keyRpm[id].events, now))
    && (forall id | id in s.projectRpm :: Ascending(s.projectRpm[id].events, now))
  }

  function After(s: Limiter, calls: seq<Timed>): Limiter
    decreases |calls|
  {
    if calls == [] then s else After(Step(s, calls[0].0, calls[0].1).0, calls[1..])
  }

  lemma {:induction false} PruneAscends(window: seq<nat>, now: nat, later: nat)
    requires Ascending(window, now) && now <= later
    ensures Ascending(Prune(window, later), later) && Ascending(Prune(window, later) + [later], later)
  {
    if window != [] && Since(later, window[0]) >= RPM_WINDOW {
      PruneAscends(window[1..], now, later);
    }
  }

  lemma ScopeAscends(m: RpmMap, id: string, limit: Option<u32>, now: nat, later: nat, checked: bool, admitted: bool)
    requires now <= later && forall k | k in m :: Ascending(m[k].events, now)
    ensures var m' := RpmAfter(m, id, limit, later, checked, admitted);
            forall k | k in m' :: Ascending(m'[k].events, later)
  {
    PruneAscends(EventsOf(m, id), now, later);
    PruneTwice(EventsOf(m, id), later, later);
  }

  function EndOf(calls: seq<Timed>, start: nat): nat {
    if calls == [] then start else EndOf(calls[1..], calls[0].1)
  }

  /** In every run on a non-decreasing clock the stored windows are in order. */
  lemma {:induction false} WindowsStayInOrder(s: Limiter, calls: seq<Timed>, now: nat)
    requires WindowsAscend(s, now) && Clocked(calls, now)
    ensures WindowsAscend(After(s, calls), EndOf(calls, now))
    decreases |calls|
  {
    if calls != [] {
      var (c, later) := calls[0];
      if c.AcquireCall? {
        var r := Step(s, c, later).1;
        ScopeAscends(s.projectRpm, c.projectId, c.projectLimits.rpm, now, later, true, r.Ok?);
        ScopeAscends(s.keyRpm, c.keyId, c.keyLimits.rpm, now, later, KeyRpmChecked(r), r.Ok?);
      }
      WindowsStayInOrder(Step(s, c, later).0, calls[1..], later);
    }
  }

  lemma {:induction false} PruneLength(window: seq<nat>, now: nat, later: nat, keep: nat)
    requires Ascending(window, now) && 1 <= keep <= |window|
    ensures |Prune(window, later)| < keep <==> Since(later, window[|window| - keep]) >= RPM_WINDOW
  {
    if Since(later, window[0]) >= RPM_WINDOW {
      if keep < |window| {
        PruneLength(window[1..], now, later, keep);
      } else {
        PruneShortens(window[1..], later);
      }
    }
  }

  /**
   After a refusal, waiting for the hint opens the window exactly when the limit is not zero and enough
   admissions have left by then. With `limit` admissions in the window, the usual case, that is when the
   time left is at most a second or a whole number of seconds: the hint is rounded down.
   */
  lemma RetryHintSufficesIff(window: seq<nat>, limit: u32, now: nat)
    requires Ascending(window, now) && Prune(window, now) == window && |window| < 0x1_0000_0000
    requires Exceeds(window, limit)
    ensures var later := now + RetryAfter(window, now) * SECOND;
            !Exceeds(Prune(window, later), limit) <==>
              limit > 0 && Since(later, window[|window| - limit]) >= RPM_WINDOW
    ensures |window| == limit > 0 ==>
              var left := RPM_WINDOW - Since(now, window[0]);
              !Exceeds(Prune(window, now + RetryAfter(window, now) * SECOND), limit) <==>
                left <= SECOND || left % SECOND == 0
  {
    var later := now + RetryAfter(window, now) * SECOND;
    PruneShortens(window, later);
    if limit > 0 {
      PruneLength(window, now, later, limit);
    }
    if |window| == limit > 0 {
      PruneShortens(window, now);
      HintRoundsDown(window, now);
    }
  }

  lemma HintRoundsDown(window: seq<nat>, now: nat)
    requires window != [] && window[0] <= now && Since(now, window[0]) < RPM_WINDOW
    ensures var left := RPM_WINDOW - Since(now, window[0]);
            Since(now + RetryAfter(window, now) * SECOND, window[0]) >= RPM_WINDOW <==>
                left <= SECOND || left % SECOND == 0
  {
    var left := RPM_WINDOW - Since(now, window[0]);
    assert left == (left / SECOND) * SECOND + left % SECOND;
  }

  function WindowOf(s: Limiter, c: Call, scope: Scope, now: nat): seq<nat>
    requires c.AcquireCall?
  {
    Prune(if scope == ProjectScope then EventsOf(s.projectRpm, c.projectId) else EventsOf(s.keyRpm, c.keyId), now)
  }

  predicate RefusedFor(r: Result<(), Reject>, scope: Scope) {
    r.Err? && r.error.Rpm? && r.error.scope == scope
  }

  lemma DecideAgain(project: seq<nat>, key: seq<nat>, project': seq<nat>, key': seq<nat>,
                    counts: (nat, nat), counts': (nat, nat),
                    keyLimits: Limits, projectLimits: Limits, now: nat, later: nat)
    requires |project'| <= |project| < 0x1_0000_0000
    ensures var r := Decide(project, key, counts.0, counts.1, keyLimits, projectLimits, now);
            var again := Decide(project', key', counts'.0, counts'.1, keyLimits, projectLimits, later);
            && (RefusedFor(r, ProjectScope) ==> (RefusedFor(again, ProjectScope) <==> Exceeds(project', r.error.limit)))
            && (RefusedFor(r, KeyScope) ==> (RefusedFor(again, KeyScope) <==> Exceeds(key', r.error.limit)))
  {
  }

  /** A refusal names the window's hint, and the same call is refused again exactly while that window is full. */
  lemma RetryVerdict(s: Limiter, c: Call, scope: Scope, now: nat, later: nat)
    requires c.AcquireCall? && now <= later && RefusedFor(Step(s, c, now).1, scope)
    requires |EventsOf(s.projectRpm, c.projectId)| < 0x1_0000_0000
    ensures var error, window := Step(s, c, now).1.error, WindowOf(s, c, scope, now);
            && Exceeds(window, error.limit) && error.retryAfterSecs == RetryAfter(window, now)
            && (RefusedFor(Step(Step(s, c, now).0, c, later).1, scope) <==> Exceeds(Prune(window, later), error.limit))
  {
    var s', r := Step(s, c, now).0, Step(s, c, now).1;
    WindowAfterRefusal(s.projectRpm, c.projectId, c.projectLimits.rpm, now, later, true);
    WindowAfterRefusal(s.keyRpm, c.keyId, c.keyLimits.rpm, now, later, KeyRpmChecked(r));
    var project, key := WindowOf(s, c, ProjectScope, now), WindowOf(s, c, KeyScope, now);
    PruneShortens(EventsOf(s.projectRpm, c.projectId), now);
    PruneShortens(project, later);
    DecideAgain(project, key, Prune(project, later), Prune(key, later),
                (CountOf(s.projectConcurrency, c.projectId), CountOf(s.keyConcurrency, c.keyId)),
                (CountOf(s'.projectConcurrency, c.projectId), CountOf(s'.keyConcurrency, c.keyId)),
                c.keyLimits, c.projectLimits, now, later);
  }

  lemma WindowAfterRefusal(m: RpmMap, id: string, limit: Option<u32>, now: nat, later: nat, checked: bool)
    requires now <= later
    ensures Prune(EventsOf(RpmAfter(m, id, limit, now, checked, false), id), later)
            == Prune(Prune(EventsOf(m, id), now), later)
  {
    PruneTwice(EventsOf(m, id), now, later);
    PruneTwice(EventsOf(m, id), now, now);
  }

  /** An admission at 0 s and a limit of one: refused at 1.5 s with a hint of 58 s, and refused again at 59.5 s.
      A limit of zero is refused with a hint of one second for ever. */
  lemma RetryHintCanFail()
    ensures Exceeds(Prune([0], 1_500_000_000), 1) && RetryAfter(Prune([0], 1_500_000_000), 1_500_000_000) == 58
    ensures Exceeds(Prune([0], 59_500_000_000), 1)
    ensures forall now: nat :: RetryAfter([], now) == 1 && Exceeds(Prune([], now), 0)
  {
  }

  lemma {:induction false} PruneShortens(events: seq<nat>, now: nat)
    ensures |Prune(events, now)| <= |events|
    ensures events != [] ==> (Prune(events, now) != events <==> Since(now, events[0]) >= RPM_WINDOW)
  {
    if events != [] && Since(now, events[0]) >= RPM_WINDOW {
      PruneShortens(events[1..], now);
    }
  }
}
