/**
 The law of admission, over every sequential run with fixed limits: a call is admitted exactly when both of
 its scopes have had fewer admissions in the last minute, and have fewer calls in flight, than their limits.
 */
module QuotaLaw {
  import opened Common
  import opened Quota

  /** What a scope's limits are in every call of a run. */
  predicate Fixed(calls: seq<Timed>, id: string, scope: Scope, limits: Limits) {
    forall i | 0 <= i < |calls| && Concerns(calls[i].0, id, scope) :: LimitsOf(calls[i].0, scope) == limits
  }

  function LimitsOf(c: Call, scope: Scope): Limits
    requires c.AcquireCall?
  {
    if scope == ProjectScope then c.projectLimits else c.keyLimits
  }

  predicate Frees(c: Call, id: string, scope: Scope) {
    c.ReleaseCall? && if scope == ProjectScope then c.owner == Some(id) else c.keyId == id
  }

  function IdOf(c: Call, scope: Scope): string
    requires c.AcquireCall?
  {
    if scope == ProjectScope then c.projectId else c.keyId
  }

  // ----- calls in flight -----

  /** Admitted and not yet released, as the answers of the run tell. */
  function InFlight(s: Limiter, calls: seq<Timed>, id: string, scope: Scope, before: nat): nat
    decreases |calls|
  {
    if calls == [] then before
    else
      var (s', r) := Step(s, calls[0].0, calls[0].1);
      InFlight(s', calls[1..], id, scope, FlightAfter(calls[0].0, r, id, scope, before))
  }

  function FlightAfter(c: Call, r: Result<(), Reject>, id: string, scope: Scope, n: nat): nat {
    if Concerns(c, id, scope) && r.Ok? then n + 1
    else if Frees(c, id, scope) && n > 0 then n - 1
    else n
  }

  function CounterOf(s: Limiter, id: string, scope: Scope): nat {
    CountOf(if scope == ProjectScope then s.projectConcurrency else s.keyConcurrency, id)
  }

  /** The counter of a limited scope holds the calls in flight; that of an unlimited one stays at zero. */
  predicate Counts(s: Limiter, id: string, scope: Scope, slots: Option<u32>, n: nat) {
    if slots.Some? then CounterOf(s, id, scope) == n <= slots.value else CounterOf(s, id, scope) == 0
  }

  lemma StepCounts(s: Limiter, c: Call, now: nat, id: string, scope: Scope, slots: Option<u32>, n: nat)
    requires Counts(s, id, scope, slots, n)
    requires Concerns(c, id, scope) ==> LimitsOf(c, scope).concurrency == slots
    ensures Counts(Step(s, c, now).0, id, scope, slots, FlightAfter(c, Step(s, c, now).1, id, scope, n))
  {
  }

  lemma {:induction false} RunCounts(s: Limiter, calls: seq<Timed>, id: string, scope: Scope, limits: Limits, n: nat)
    requires Counts(s, id, scope, limits.concurrency, n) && Fixed(calls, id, scope, limits)
    ensures Counts(After(s, calls), id, scope, limits.concurrency, InFlight(s, calls, id, scope, n))
    decreases |calls|
  {
    if calls != [] {
      var (c, now) := calls[0];
      StepCounts(s, c, now, id, scope, limits.concurrency, n);
      assert forall i | 0 <= i < |calls| - 1 :: calls[1..][i] == calls[i + 1];
      RunCounts(Step(s, c, now).0, calls[1..], id, scope, limits, FlightAfter(c, Step(s, c, now).1, id, scope, n));
    }
  }

  /** In every run a limited scope's counter is the number of its calls in flight, and never exceeds its limit. */
  lemma SlotsAreInFlight(calls: seq<Timed>, id: string, scope: Scope, limits: Limits)
    requires Fixed(calls, id, scope, limits) && limits.concurrency.Some?
    ensures CounterOf(After(FRESH, calls), id, scope) == InFlight(FRESH, calls, id, scope, 0)
            <= limits.concurrency.value
  {
    RunCounts(FRESH, calls, id, scope, limits, 0);
  }

  function Releases(calls: seq<Timed>, id: string, scope: Scope): nat {
    if calls == [] then 0 else (if Frees(calls[0].0, id, scope) then 1 else 0) + Releases(calls[1..], id, scope)
  }

  /** No release comes without a call in flight. */
  predicate Matched(s: Limiter, calls: seq<Timed>, id: string, scope: Scope, n: nat)
    decreases |calls|
  {
    calls != [] ==>
      var (s', r) := Step(s, calls[0].0, calls[0].1);
      && (Frees(calls[0].0, id, scope) ==> n > 0)
      && Matched(s', calls[1..], id, scope, FlightAfter(calls[0].0, r, id, scope, n))
  }

  /** Then the calls in flight are the admissions less the releases. */
  lemma {:induction false} FlightIsAdmittedLessReleased(s: Limiter, calls: seq<Timed>, id: string, scope: Scope,
      n: nat, past: seq<nat>)
    requires Matched(s, calls, id, scope, n)
    ensures InFlight(s, calls, id, scope, n) + Releases(calls, id, scope) + |past|
         == n + |Admissions(s, calls, id, scope, past)|
    decreases |calls|
  {
    if calls != [] {
      var (s', r) := Step(s, calls[0].0, calls[0].1);
      var admitted := if Concerns(calls[0].0, id, scope) && r.Ok? then past + [calls[0].1] else past;
      FlightIsAdmittedLessReleased(s', calls[1..], id, scope, FlightAfter(calls[0].0, r, id, scope, n), admitted);
    }
  }

  // ----- admissions of the last minute -----

  function LastMinute(times: seq<nat>, now: nat): nat {
    if times == [] then 0
    else LastMinute(times[..|times| - 1], now) + if now < times[|times| - 1] + 60_000_000_000 then 1 else 0
  }

  lemma {:induction false} RecentCounts(times: seq<nat>, now: nat)
    requires forall t | t in times :: t <= now
    ensures |Recent(times, now)| == LastMinute(times, now)
  {
    if times != [] {
      var init := times[..|times| - 1];
      assert times[|times| - 1] in times && forall t | t in init :: t in times;
      RecentCounts(init, now);
    }
  }

  function FullAfter(f: Full, calls: seq<Timed>): Full
    decreases |calls|
  {
    if calls == [] then f else FullAfter(FullStep(f, calls[0].0, calls[0].1).0, calls[1..])
  }

  lemma {:induction false} RunSimulates(s: Limiter, f: Full, calls: seq<Timed>, now: nat)
    requires Simulates(s, f, now) && Clocked(calls, now)
    ensures Simulates(After(s, calls), FullAfter(f, calls), EndOf(calls, now)) && now <= EndOf(calls, now)
    decreases |calls|
  {
    if calls != [] {
      StepSimulates(s, f, calls[0].0, now, calls[0].1);
      RunSimulates(Step(s, calls[0].0, calls[0].1).0, FullStep(f, calls[0].0, calls[0].1).0, calls[1..], calls[0].1);
    }
  }

  /** A scope with a request limit has kept all its admissions, within the limit. */
  lemma {:induction false} RunKeeps(s: Limiter, f: Full, calls: seq<Timed>, id: string, scope: Scope, limit: u32,
      now: nat)
    requires Simulates(s, f, now) && Clocked(calls, now) && FixedLimit(calls, id, scope, limit)
    requires Bounded(Kept(f, id, scope), limit, now)
    ensures Kept(FullAfter(f, calls), id, scope) == Admissions(s, calls, id, scope, Kept(f, id, scope))
    ensures Bounded(Kept(FullAfter(f, calls), id, scope), limit, EndOf(calls, now))
    decreases |calls|
  {
    if calls != [] {
      var s', f' := AdmissionsStep(s, f, calls, id, scope, limit, now);
      assert FixedLimit(calls[1..], id, scope, limit);
      RunKeeps(s', f', calls[1..], id, scope, limit, calls[0].1);
    }
  }

  function EventsIn(s: Limiter, id: string, scope: Scope): seq<nat> {
    EventsOf(if scope == ProjectScope then s.projectRpm else s.keyRpm, id)
  }

  lemma WindowFullAt(s: Limiter, f: Full, id: string, scope: Scope, limit: u32, end: nat, now: nat)
    requires Simulates(s, f, end) && Bounded(Kept(f, id, scope), limit, end) && end <= now
    ensures Exceeds(Prune(EventsIn(s, id, scope), now), limit) <==> LastMinute(Kept(f, id, scope), now) >= limit
  {
    var history := Kept(f, id, scope);
    assert Stands(EventsIn(s, id, scope), history, end);
    assert Prune(EventsIn(s, id, scope), now) == Recent(history, now);
    RecentIsBounded(history, limit, now);
    RecentCounts(history, now);
  }

  /** What the limiter sees of a scope: its window is full exactly when the last minute is. */
  lemma WindowFullIff(calls: seq<Timed>, id: string, scope: Scope, limits: Limits, now: nat)
    requires Clocked(calls, 0) && EndOf(calls, 0) <= now && Fixed(calls, id, scope, limits) && limits.rpm.Some?
    ensures Exceeds(Prune(EventsIn(After(FRESH, calls), id, scope), now), limits.rpm.value)
            <==> LastMinute(Admissions(FRESH, calls, id, scope, []), now) >= limits.rpm.value
  {
    FreshSimulates();
    RunSimulates(FRESH, FRESH_FULL, calls, 0);
    RunKeeps(FRESH, FRESH_FULL, calls, id, scope, limits.rpm.value, 0);
    WindowFullAt(After(FRESH, calls), FullAfter(FRESH_FULL, calls), id, scope, limits.rpm.value, EndOf(calls, 0), now);
  }

  // ----- the law -----

  /** The scope of the call has as many admissions in the last minute as its limit allows. */
  predicate WindowFull(calls: seq<Timed>, c: Call, scope: Scope, now: nat)
    requires c.AcquireCall?
  {
    && LimitsOf(c, scope).rpm.Some?
    && LastMinute(Admissions(FRESH, calls, IdOf(c, scope), scope, []), now) >= LimitsOf(c, scope).rpm.value
  }

  /** The scope of the call has as many calls in flight as its limit allows. */
  predicate SlotsFull(calls: seq<Timed>, c: Call, scope: Scope)
    requires c.AcquireCall?
  {
    && LimitsOf(c, scope).concurrency.Some?
    && InFlight(FRESH, calls, IdOf(c, scope), scope, 0) >= LimitsOf(c, scope).concurrency.value
  }

  predicate RefusedSlot(r: Result<(), Reject>, scope: Scope) {
    r.Err? && r.error.Concurrency? && r.error.scope == scope
  }

  predicate Over(window: seq<nat>, limit: Option<u32>) {
    limit.Some? && Exceeds(window, limit.value)
  }

  predicate Reached(count: nat, limit: Option<u32>) {
    limit.Some? && count >= limit.value
  }

  /** The answer for these four conditions. */
  predicate AnswersTo(r: Result<(), Reject>, p: bool, k: bool, ps: bool, ks: bool) {
    && (r.Ok? <==> !p && !k && !ps && !ks)
    && (RefusedFor(r, ProjectScope) <==> p)
    && (RefusedFor(r, KeyScope) <==> !p && k)
    && (RefusedSlot(r, ProjectScope) <==> !p && !k && ps)
    && (RefusedSlot(r, KeyScope) <==> !p && !k && !ps && ks)
  }

  lemma VerdictTable(pw: seq<nat>, kw: seq<nat>, pc: nat, kc: nat, keyLimits: Limits, projectLimits: Limits, now: nat)
    ensures AnswersTo(Decide(pw, kw, pc, kc, keyLimits, projectLimits, now), Over(pw, projectLimits.rpm),
                      Over(kw, keyLimits.rpm), Reached(pc, projectLimits.concurrency),
                          Reached(kc, keyLimits.concurrency))
  {
  }

  /**
   The law, with every refusal: request limits before slots, the project before the key; and a call that
   none of them stops is admitted.
   */
  lemma AdmissionLaw(calls: seq<Timed>, c: Call, now: nat)
    requires c.AcquireCall? && Clocked(calls, 0) && EndOf(calls, 0) <= now
    requires Fixed(calls, c.projectId, ProjectScope, c.projectLimits) && Fixed(calls, c.keyId, KeyScope, c.keyLimits)
    ensures var r := Step(After(FRESH, calls), c, now).1;
            && AnswersTo(r, WindowFull(calls, c, ProjectScope, now), WindowFull(calls, c, KeyScope, now),
                         SlotsFull(calls, c, ProjectScope), SlotsFull(calls, c, KeyScope))
            && (r.Err? && r.error.Rpm? ==> Some(r.error.limit) == LimitsOf(c, r.error.scope).rpm)
            && (r.Err? && r.error.Concurrency? ==> Some(r.error.limit) == LimitsOf(c, r.error.scope).concurrency)
  {
    var s := After(FRESH, calls);
    ScopeConditions(calls, c, ProjectScope, now);
    ScopeConditions(calls, c, KeyScope, now);
    VerdictTable(Prune(EventsIn(s, c.projectId, ProjectScope), now), Prune(EventsIn(s, c.keyId, KeyScope), now),
                 CounterOf(s, c.projectId, ProjectScope), CounterOf(s, c.keyId, KeyScope), c.keyLimits,
                     c.projectLimits, now);
  }

  lemma ScopeConditions(calls: seq<Timed>, c: Call, scope: Scope, now: nat)
    requires c.AcquireCall? && Clocked(calls, 0) && EndOf(calls, 0) <= now
    requires Fixed(calls, IdOf(c, scope), scope, LimitsOf(c, scope))
    ensures var s, id, limits := After(FRESH, calls), IdOf(c, scope), LimitsOf(c, scope);
            && (WindowFull(calls, c, scope, now) <==> Over(Prune(EventsIn(s, id, scope), now), limits.rpm))
            && (SlotsFull(calls, c, scope) <==> Reached(CounterOf(s, id, scope), limits.concurrency))
  {
    RunCounts(FRESH, calls, IdOf(c, scope), scope, LimitsOf(c, scope), 0);
    if LimitsOf(c, scope).rpm.Some? {
      WindowFullIff(calls, IdOf(c, scope), scope, LimitsOf(c, scope), now);
    }
  }

  /** A check forgets a scope exactly when its window is empty and its last use is ten minutes ago. */
  lemma EvictedIff(m: RpmMap, id: string, now: nat)
    requires id in m
    ensures id !in AfterCheck(m, id, now) <==>
            Prune(m[id].events, now) == [] && now >= m[id].lastActive + 600_000_000_000
    ensures forall k | k != id :: k in AfterCheck(m, id, now) <==> k in m
  {
  }
}
