/**
 The rate limit under concurrency. A caller reads the clock, checks the window, and records its admission
 in three separate steps, so several callers can pass the check before any of them records, and a caller
 can check with a time that others have left behind. This module bounds what that does to the window and
 to every minute of the full history, and shows that the bounds are reached.
 */
module QuotaRace {
  import opened Common
  import opened Quota

  /** Arrived: the clock is read. Passed: past the check and not yet recorded. */
  datatype Phase = Idle | Arrived(now: nat) | Passed(now: nat)

  /** One scope's window and the callers that compete for it. */
  datatype State = State(events: seq<nat>, callers: seq<Phase>)

  datatype Action =
    | Arrive(id: nat, at: nat)
    | Check(id: nat)
    | Refused(id: nat)
    | Record(id: nat)

  /** A caller refused elsewhere, before or after the check, records nothing. */
  function Next(st: State, limit: u32, a: Action): State {
    if a.id >= |st.callers| then st
    else
      var caller := st.callers[a.id];
      match a
      case Arrive(id, at) => if caller.Idle? then st.(callers := st.callers[id := Arrived(at)]) else st
      case Check(id) =>
        if !caller.Arrived? then st
        else
          var window := Prune(st.events, caller.now);
          State(window, st.callers[id := if Exceeds(window, limit) then Idle else Passed(caller.now)])
      case Refused(id) => st.(callers := st.callers[id := Idle])
      case Record(id) =>
        if !caller.Passed? then st
        else State(Prune(st.events, caller.now) + [caller.now], st.callers[id := Idle])
  }

  function Run(st: State, limit: u32, actions: seq<Action>): State
    decreases |actions|
  {
    if actions == [] then st else Run(Next(st, limit, actions[0]), limit, actions[1..])
  }

  function Start(n: nat): State {
    State([], seq(n, _ => Idle))
  }

  // ----- counting callers -----

  function Tally(callers: seq<Phase>, kind: Phase -> bool): nat {
    if callers == [] then 0 else Tally(callers[..|callers| - 1], kind) + One(kind(callers[|callers| - 1]))
  }

  function One(b: bool): nat {
    if b then 1 else 0
  }

  lemma {:induction false} TallyAfter(callers: seq<Phase>, id: nat, phase: Phase, kind: Phase -> bool)
    requires id < |callers|
    ensures Tally(callers[id := phase], kind) + One(kind(callers[id])) == Tally(callers, kind) + One(kind(phase))
  {
    var n := |callers| - 1;
    if id < n {
      TallyAfter(callers[..n], id, phase, kind);
      assert callers[id := phase][..n] == callers[..n][id := phase];
    } else {
      assert callers[id := phase][..n] == callers[..n];
    }
  }

  lemma {:induction false} TallyBound(callers: seq<Phase>, kind: Phase -> bool)
    ensures Tally(callers, kind) <= |callers|
  {
    if callers != [] {
      TallyBound(callers[..|callers| - 1], kind);
    }
  }

  /** A caller of another kind is not counted. */
  lemma TallyWithout(callers: seq<Phase>, id: nat, kind: Phase -> bool)
    requires id < |callers| && !kind(callers[id])
    ensures Tally(callers, kind) <= |callers| - 1
  {
    TallyBound(callers[..id] + callers[id + 1..], kind);
    assert callers == callers[..id] + [callers[id]] + callers[id + 1..];
    TallyConcat(callers[..id], [callers[id]], kind);
    TallyConcat(callers[..id] + [callers[id]], callers[id + 1..], kind);
    TallyConcat(callers[..id], callers[id + 1..], kind);
    assert [callers[id]][..0] == [];
  }

  lemma {:induction false} TallyConcat(a: seq<Phase>, b: seq<Phase>, kind: Phase -> bool)
    ensures Tally(a + b, kind) == Tally(a, kind) + Tally(b, kind)
  {
    if b == [] {
      assert a + b == a;
    } else {
      assert (a + b)[..|a + b| - 1] == a + b[..|b| - 1];
      TallyConcat(a, b[..|b| - 1], kind);
    }
  }

  lemma {:induction false} NobodyYet(n: nat, kind: Phase -> bool)
    requires !kind(Idle)
    ensures Tally(seq(n, _ => Idle), kind) == 0
  {
    if n > 0 {
      assert seq(n, _ => Idle)[..n - 1] == seq(n - 1, _ => Idle);
      NobodyYet(n - 1, kind);
    }
  }

  // ----- the stored window -----

  function PastCheck(): Phase -> bool {
    (p: Phase) => p.Passed?
  }

  ghost predicate Bounded(st: State, limit: u32, n: nat) {
    && |st.callers| == n
    && |st.events| + Tally(st.callers, PastCheck()) <= limit + n - 1
  }

  lemma StepKeepsBound(st: State, limit: u32, n: nat, a: Action)
    requires Bounded(st, limit, n) && n >= 1 && limit + n <= 0x1_0000_0000
    ensures Bounded(Next(st, limit, a), limit, n)
  {
    if a.id < n {
      var caller, st' := st.callers[a.id], Next(st, limit, a);
      TallyAfter(st.callers, a.id, st'.callers[a.id], PastCheck());
      TallyBound(st'.callers, PastCheck());
      assert st.callers[a.id := caller] == st.callers;
      if !caller.Idle? {
        PruneShortens(st.events, caller.now);
      }
    }
  }

  /** The recorded window plus the callers past the check never exceed limit + N - 1, in whatever order they check. */
  lemma {:induction false} OvershootIsBounded(st: State, limit: u32, n: nat, actions: seq<Action>)
    requires Bounded(st, limit, n) && n >= 1 && limit + n <= 0x1_0000_0000
    ensures Bounded(Run(st, limit, actions), limit, n)
    decreases |actions|
  {
    if actions != [] {
      StepKeepsBound(st, limit, n, actions[0]);
      OvershootIsBounded(Next(st, limit, actions[0]), limit, n, actions[1..]);
    }
  }

  // ----- any minute of the full history -----

  /** The admission a step records. */
  function Recorded(st: State, a: Action): seq<nat> {
    if a.Record? && a.id < |st.callers| && st.callers[a.id].Passed? then [st.callers[a.id].now] else []
  }

  /** All admissions of a run, which the stored window forgets. */
  function History(st: State, limit: u32, actions: seq<Action>): seq<nat>
    decreases |actions|
  {
    if actions == [] then [] else Recorded(st, actions[0]) + History(Next(st, limit, actions[0]), limit, actions[1..])
  }

  predicate InMinute(t: nat, from: nat) {
    from <= t < from + RPM_WINDOW
  }

  function PassedIn(from: nat): Phase -> bool {
    (p: Phase) => p.Passed? && InMinute(p.now, from)
  }

  function ArrivedIn(from: nat): Phase -> bool {
    (p: Phase) => p.Arrived? && InMinute(p.now, from)
  }

  /** Admissions and callers past the check that belong to the minute. */
  function Load(st: State, past: seq<nat>, from: nat): nat {
    CountIn(past, from) + Tally(st.callers, PassedIn(from))
  }

  lemma CountInOne(times: seq<nat>, t: nat, from: nat)
    ensures CountIn(times + [t], from) == CountIn(times, from) + One(InMinute(t, from))
  {
    assert (times + [t])[..|times|] == times;
  }

  lemma {:induction false} CountInConcat(a: seq<nat>, b: seq<nat>, from: nat)
    ensures CountIn(a + b, from) == CountIn(a, from) + CountIn(b, from)
  {
    if b == [] {
      assert a + b == a;
    } else {
      assert (a + b)[..|a + b| - 1] == a + b[..|b| - 1];
      CountInConcat(a, b[..|b| - 1], from);
    }
  }

  lemma {:induction false} CountInBound(times: seq<nat>, from: nat)
    ensures CountIn(times, from) <= |times|
  {
    if times != [] {
      CountInBound(times[..|times| - 1], from);
    }
  }

  /** Pruning never drops an event of a minute that has not ended. */
  lemma {:induction false} PruneKeepsMinute(events: seq<nat>, now: nat, from: nat)
    requires now < from + RPM_WINDOW
    ensures CountIn(Prune(events, now), from) == CountIn(events, from)
  {
    if events != [] && Since(now, events[0]) >= RPM_WINDOW {
      PruneKeepsMinute(events[1..], now, from);
      assert events == [events[0]] + events[1..];
      CountInConcat([events[0]], events[1..], from);
      assert [events[0]][..0] == [];
    }
  }

  /** Every admission of the minute is still stored. */
  predicate StoresMinute(st: State, past: seq<nat>, from: nat) {
    CountIn(past, from) <= CountIn(st.events, from)
  }

  /** The caller looks at the window with its time. */
  predicate Acts(caller: Phase, a: Action) {
    (a.Check? && caller.Arrived?) || (a.Record? && caller.Passed?)
  }

  lemma StoresStep(st: State, past: seq<nat>, limit: u32, a: Action, from: nat)
    requires a.id < |st.callers| && StoresMinute(st, past, from)
    requires Acts(st.callers[a.id], a) ==> st.callers[a.id].now < from + RPM_WINDOW
    ensures StoresMinute(Next(st, limit, a), past + Recorded(st, a), from)
  {
    var caller := st.callers[a.id];
    if Acts(caller, a) {
      PruneKeepsMinute(st.events, caller.now, from);
      CountInOne(past, caller.now, from);
      CountInOne(Prune(st.events, caller.now), caller.now, from);
    }
    assert past + [] == past;
  }

  /** A step with a time before the end of a minute loses nothing of it, and its load stays in bounds. */
  lemma StepInMinute(st: State, past: seq<nat>, limit: u32, n: nat, a: Action, from: nat)
    requires Bounded(st, limit, n) && n >= 1 && limit + n <= 0x1_0000_0000 && a.id < n
    requires StoresMinute(st, past, from) && Load(st, past, from) <= limit + n - 1
    requires Acts(st.callers[a.id], a) ==> st.callers[a.id].now < from + RPM_WINDOW
    ensures StoresMinute(Next(st, limit, a), past + Recorded(st, a), from)
    ensures Load(Next(st, limit, a), past + Recorded(st, a), from) <= limit + n - 1
  {
    StoresStep(st, past, limit, a, from);
    if a.Check? && Acts(st.callers[a.id], a) && Next(st, limit, a).callers[a.id].Passed? {
      assert past + [] == past;
      PassedLoad(st, past, limit, n, a.id, from);
    } else {
      QuietStep(st, past, limit, a, from);
    }
  }

  /** A step that passes no check adds nothing to the load. */
  lemma QuietStep(st: State, past: seq<nat>, limit: u32, a: Action, from: nat)
    requires a.id < |st.callers|
    requires a.Check? && st.callers[a.id].Arrived? ==> !PassedIn(from)(Next(st, limit, a).callers[a.id])
    ensures Load(Next(st, limit, a), past + Recorded(st, a), from) <= Load(st, past, from)
  {
    var caller, st' := st.callers[a.id], Next(st, limit, a);
    TallyAfter(st.callers, a.id, st'.callers[a.id], PassedIn(from));
    assert st.callers[a.id := caller] == st.callers;
    assert past + [] == past;
    if !caller.Idle? {
      CountInOne(past, caller.now, from);
    }
  }

  /** Right after a passed check fewer than `limit` admissions are stored. */
  lemma PassedLoad(st: State, past: seq<nat>, limit: u32, n: nat, id: nat, from: nat)
    requires Bounded(st, limit, n) && limit + n <= 0x1_0000_0000 && id < n && st.callers[id].Arrived?
    requires Next(st, limit, Check(id)).callers[id].Passed?
    requires StoresMinute(Next(st, limit, Check(id)), past, from)
    ensures Load(Next(st, limit, Check(id)), past, from) <= limit + n - 1
  {
    var st' := Next(st, limit, Check(id));
    PruneShortens(st.events, st.callers[id].now);
    CountInBound(st'.events, from);
    TallyBound(st'.callers, PassedIn(from));
  }

  // ----- checks in clock order -----

  function CheckTime(st: State, a: Action, last: nat): nat {
    if a.Check? && a.id < |st.callers| && st.callers[a.id].Arrived? then st.callers[a.id].now else last
  }

  /** The times of checks never go back. */
  predicate ChecksInOrder(st: State, limit: u32, actions: seq<Action>, last: nat)
    decreases |actions|
  {
    actions != [] ==>
      && last <= CheckTime(st, actions[0], last)
      && ChecksInOrder(Next(st, limit, actions[0]), limit, actions[1..], CheckTime(st, actions[0], last))
  }

  ghost predicate InOrderInv(st: State, past: seq<nat>, last: nat, limit: u32, n: nat) {
    && Bounded(st, limit, n)
    && (forall id | 0 <= id < n && st.callers[id].Passed? :: st.callers[id].now <= last)
    && (forall from: nat | last < from + RPM_WINDOW :: StoresMinute(st, past, from))
    && (forall from: nat :: Load(st, past, from) <= limit + n - 1)
  }

  lemma InOrderStep(st: State, past: seq<nat>, last: nat, limit: u32, n: nat, a: Action)
    requires InOrderInv(st, past, last, limit, n) && n >= 1 && limit + n <= 0x1_0000_0000
    requires last <= CheckTime(st, a, last)
    ensures InOrderInv(Next(st, limit, a), past + Recorded(st, a), CheckTime(st, a, last), limit, n)
  {
    StepKeepsBound(st, limit, n, a);
    assert past + [] == past;
    forall from: nat
      ensures CheckTime(st, a, last) < from + RPM_WINDOW ==>
              StoresMinute(Next(st, limit, a), past + Recorded(st, a), from)
      ensures Load(Next(st, limit, a), past + Recorded(st, a), from) <= limit + n - 1
    {
      if a.id < n {
        if CheckTime(st, a, last) < from + RPM_WINDOW {
          StepInMinute(st, past, limit, n, a, from);
        } else {
          QuietStep(st, past, limit, a, from);
        }
      }
    }
  }

  lemma {:induction false} InOrderRun(st: State, past: seq<nat>, last: nat, limit: u32, n: nat, actions: seq<Action>,
      from: nat)
    requires InOrderInv(st, past, last, limit, n) && n >= 1 && limit + n <= 0x1_0000_0000
    requires ChecksInOrder(st, limit, actions, last)
    ensures Load(Run(st, limit, actions), past + History(st, limit, actions), from) <= limit + n - 1
    decreases |actions|
  {
    if actions == [] {
      assert past + [] == past;
    } else {
      var a := actions[0];
      InOrderStep(st, past, last, limit, n, a);
      InOrderRun(Next(st, limit, a), past + Recorded(st, a), CheckTime(st, a, last), limit, n, actions[1..], from);
      assert past + History(st, limit, actions)
          == past + Recorded(st, a) + History(Next(st, limit, a), limit, actions[1..]);
    }
  }

  lemma StartIsBounded(limit: u32, n: nat)
    requires n >= 1
    ensures Bounded(Start(n), limit, n)
    ensures forall from: nat :: Load(Start(n), [], from) == 0 && Tally(Start(n).callers, ArrivedIn(from)) == 0
  {
    NobodyYet(n, PastCheck());
    forall from: nat
      ensures Load(Start(n), [], from) == 0 && Tally(Start(n).callers, ArrivedIn(from)) == 0
    {
      NobodyYet(n, PassedIn(from));
      NobodyYet(n, ArrivedIn(from));
    }
  }

  /** When checks come in the order of their times, no half-open minute holds more than limit + N - 1 of all
      admissions ever recorded, callers past the check included. */
  lemma MinuteBoundInOrder(limit: u32, n: nat, actions: seq<Action>, from: nat)
    requires n >= 1 && limit + n <= 0x1_0000_0000 && ChecksInOrder(Start(n), limit, actions, 0)
    ensures Load(Run(Start(n), limit, actions), History(Start(n), limit, actions), from) <= limit + n - 1
  {
    StartIsBounded(limit, n);
    InOrderRun(Start(n), [], 0, limit, n, actions, from);
    assert [] + History(Start(n), limit, actions) == History(Start(n), limit, actions);
  }

  // ----- checks in any order -----

  /** The last time read from the clock. */
  function TimeOf(st: State, a: Action, clock: nat): nat {
    if a.Arrive? && a.id < |st.callers| && st.callers[a.id].Idle? then a.at else clock
  }

  /** The clock that arriving callers read never goes back. */
  predicate Ticking(st: State, limit: u32, actions: seq<Action>, clock: nat)
    decreases |actions|
  {
    actions != [] ==>
      && clock <= TimeOf(st, actions[0], clock)
      && Ticking(Next(st, limit, actions[0]), limit, actions[1..], TimeOf(st, actions[0], clock))
  }

  /** Until the clock leaves a minute it is stored in full; after that only callers in flight can add to it. */
  ghost predicate MinuteInv(st: State, past: seq<nat>, clock: nat, limit: u32, n: nat, from: nat) {
    if clock < from + RPM_WINDOW then StoresMinute(st, past, from) && Load(st, past, from) <= limit + n - 1
    else Load(st, past, from) + Tally(st.callers, ArrivedIn(from)) <= limit + 2 * (n - 1)
  }

  ghost predicate ClockInv(st: State, past: seq<nat>, clock: nat, limit: u32, n: nat) {
    && Bounded(st, limit, n)
    && (forall id | 0 <= id < n && !st.callers[id].Idle? :: st.callers[id].now <= clock)
    && (forall from: nat :: MinuteInv(st, past, clock, limit, n, from))
  }

  /** The caller that reads a time after the minute is not in flight within it; all others may still add one. */
  lemma ClockLeavesMinute(st: State, past: seq<nat>, limit: u32, n: nat, id: nat, at: nat, from: nat)
    requires |st.callers| == n && id < n && st.callers[id].Idle? && at >= from + RPM_WINDOW
    requires Load(st, past, from) <= limit + n - 1
    ensures var st' := Next(st, limit, Arrive(id, at));
            Load(st', past, from) + Tally(st'.callers, ArrivedIn(from)) <= limit + 2 * (n - 1)
  {
    var st' := Next(st, limit, Arrive(id, at));
    TallyAfter(st.callers, id, Arrived(at), PassedIn(from));
    TallyWithout(st'.callers, id, ArrivedIn(from));
  }

  lemma FlightStep(st: State, past: seq<nat>, limit: u32, a: Action, from: nat)
    requires a.id < |st.callers| && (a.Arrive? ==> !InMinute(a.at, from))
    ensures var st' := Next(st, limit, a);
            Load(st', past + Recorded(st, a), from) + Tally(st'.callers, ArrivedIn(from))
            <= Load(st, past, from) + Tally(st.callers, ArrivedIn(from))
  {
    var caller, st' := st.callers[a.id], Next(st, limit, a);
    TallyAfter(st.callers, a.id, st'.callers[a.id], PassedIn(from));
    TallyAfter(st.callers, a.id, st'.callers[a.id], ArrivedIn(from));
    assert st.callers[a.id := caller] == st.callers;
    assert past + [] == past;
    if !caller.Idle? {
      CountInOne(past, caller.now, from);
    }
  }

  lemma MinuteStep(st: State, past: seq<nat>, clock: nat, limit: u32, n: nat, a: Action, from: nat)
    requires ClockInv(st, past, clock, limit, n) && n >= 1 && limit + n <= 0x1_0000_0000
    requires clock <= TimeOf(st, a, clock)
    ensures MinuteInv(Next(st, limit, a), past + Recorded(st, a), TimeOf(st, a, clock), limit, n, from)
  {
    assert past + [] == past;
    assert MinuteInv(st, past, clock, limit, n, from);
    if a.id < n {
      if TimeOf(st, a, clock) < from + RPM_WINDOW {
        StepInMinute(st, past, limit, n, a, from);
      } else if clock < from + RPM_WINDOW {
        ClockLeavesMinute(st, past, limit, n, a.id, a.at, from);
      } else if a.Arrive? && !st.callers[a.id].Idle? {
        assert Next(st, limit, a) == st;
      } else {
        FlightStep(st, past, limit, a, from);
      }
    }
  }

  lemma ClockStep(st: State, past: seq<nat>, clock: nat, limit: u32, n: nat, a: Action)
    requires ClockInv(st, past, clock, limit, n) && n >= 1 && limit + n <= 0x1_0000_0000
    requires clock <= TimeOf(st, a, clock)
    ensures ClockInv(Next(st, limit, a), past + Recorded(st, a), TimeOf(st, a, clock), limit, n)
  {
    StepKeepsBound(st, limit, n, a);
    forall from: nat
      ensures MinuteInv(Next(st, limit, a), past + Recorded(st, a), TimeOf(st, a, clock), limit, n, from)
    {
      MinuteStep(st, past, clock, limit, n, a, from);
    }
  }

  lemma {:induction false} ClockRun(st: State, past: seq<nat>, clock: nat, limit: u32, n: nat, actions: seq<Action>,
      from: nat)
    requires ClockInv(st, past, clock, limit, n) && n >= 1 && limit + n <= 0x1_0000_0000
    requires Ticking(st, limit, actions, clock)
    ensures Load(Run(st, limit, actions), past + History(st, limit, actions), from) <= limit + 2 * (n - 1)
    decreases |actions|
  {
    if actions == [] {
      assert past + [] == past;
      assert MinuteInv(st, past, clock, limit, n, from);
    } else {
      var a := actions[0];
      ClockStep(st, past, clock, limit, n, a);
      ClockRun(Next(st, limit, a), past + Recorded(st, a), TimeOf(st, a, clock), limit, n, actions[1..], from);
      assert past + History(st, limit, actions)
          == past + Recorded(st, a) + History(Next(st, limit, a), limit, actions[1..]);
    }
  }

  /** In every run of N callers, whatever the order of their checks, no half-open minute holds more than
      limit + 2 (N - 1) of all admissions ever recorded, callers past the check included. */
  lemma MinuteOvershootIsBounded(limit: u32, n: nat, actions: seq<Action>, from: nat)
    requires n >= 1 && limit + n <= 0x1_0000_0000 && Ticking(Start(n), limit, actions, 0)
    ensures Load(Run(Start(n), limit, actions), History(Start(n), limit, actions), from) <= limit + 2 * (n - 1)
  {
    StartIsBounded(limit, n);
    ClockRun(Start(n), [], 0, limit, n, actions, from);
    assert [] + History(Start(n), limit, actions) == History(Start(n), limit, actions);
  }

  // ----- the bounds are reached -----

  /** The actions lead from the start to this state, record this history, and read this clock last. */
  ghost predicate Reaches(limit: u32, n: nat, actions: seq<Action>, st: State, past: seq<nat>, clock: nat) {
    && Run(Start(n), limit, actions) == st
    && History(Start(n), limit, actions) == past
    && Ticking(Start(n), limit, actions, 0) && EndClock(Start(n), limit, actions, 0) == clock
  }

  function EndClock(st: State, limit: u32, actions: seq<Action>, clock: nat): nat
    decreases |actions|
  {
    if actions == [] then clock else EndClock(Next(st, limit, actions[0]), limit, actions[1..],
        TimeOf(st, actions[0], clock))
  }

  lemma {:induction false} RunThen(st: State, limit: u32, actions: seq<Action>, a: Action, clock: nat)
    ensures var mid, end := Run(st, limit, actions), EndClock(st, limit, actions, clock);
            && Run(st, limit, actions + [a]) == Next(mid, limit, a)
            && History(st, limit, actions + [a]) == History(st, limit, actions) + Recorded(mid, a)
            && (Ticking(st, limit, actions, clock) && end <= TimeOf(mid, a, end) ==>
                Ticking(st, limit, actions + [a], clock))
            && EndClock(st, limit, actions + [a], clock) == TimeOf(mid, a, end)
    decreases |actions|
  {
    if actions == [] {
      assert actions + [a] == [a] && [a][1..] == [];
    } else {
      assert (actions + [a])[0] == actions[0] && (actions + [a])[1..] == actions[1..] + [a];
      RunThen(Next(st, limit, actions[0]), limit, actions[1..], a, TimeOf(st, actions[0], clock));
    }
  }

  lemma Then(limit: u32, n: nat, actions: seq<Action>, st: State, past: seq<nat>, clock: nat, a: Action, st': State)
    returns (more: seq<Action>)
    requires Reaches(limit, n, actions, st, past, clock) && clock <= TimeOf(st, a, clock) && Next(st, limit, a) == st'
    ensures Reaches(limit, n, more, st', past + Recorded(st, a), TimeOf(st, a, clock))
  {
    more := actions + [a];
    RunThen(Start(n), limit, actions, a, 0);
  }

  /** One caller reads the clock and passes the check. */
  lemma PassOne(limit: u32, n: nat, actions: seq<Action>, st: State, past: seq<nat>, clock: nat, id: nat, t: nat)
    returns (more: seq<Action>)
    requires Reaches(limit, n, actions, st, past, clock) && clock <= t
    requires id < |st.callers| && st.callers[id].Idle? && Prune(st.events, t) == st.events && |st.events| < limit
    ensures Reaches(limit, n, more, State(st.events, st.callers[id := Passed(t)]), past, t)
  {
    var arrived := State(st.events, st.callers[id := Arrived(t)]);
    more := Then(limit, n, actions, st, past, clock, Arrive(id, t), arrived);
    assert past + [] == past;
    assert st.callers[id := Arrived(t)][id := Passed(t)] == st.callers[id := Passed(t)];
    more := Then(limit, n, more, arrived, past, t, Check(id), State(st.events, st.callers[id := Passed(t)]));
  }

  lemma RecordOne(limit: u32, n: nat, actions: seq<Action>, st: State, past: seq<nat>, clock: nat, id: nat)
    returns (more: seq<Action>)
    requires Reaches(limit, n, actions, st, past, clock)
    requires id < |st.callers| && st.callers[id].Passed? && Prune(st.events, st.callers[id].now) == st.events
    ensures var t := st.callers[id].now;
            Reaches(limit, n, more, State(st.events + [t], st.callers[id := Idle]), past + [t], clock)
  {
    var t := st.callers[id].now;
    more := Then(limit, n, actions, st, past, clock, Record(id), State(st.events + [t], st.callers[id := Idle]));
  }

  /** One caller from start to end. */
  lemma AdmitOne(limit: u32, n: nat, actions: seq<Action>, st: State, past: seq<nat>, id: nat)
    returns (more: seq<Action>)
    requires Reaches(limit, n, actions, st, past, 0)
    requires id < |st.callers| && st.callers[id].Idle? && Prune(st.events, 0) == st.events && |st.events| < limit
    ensures Reaches(limit, n, more, st.(events := st.events + [0]), past + [0], 0)
  {
    more := PassOne(limit, n, actions, st, past, 0, id, 0);
    var passed := State(st.events, st.callers[id := Passed(0)]);
    more := RecordOne(limit, n, more, passed, past, 0, id);
    assert passed.callers[id := Idle] == st.callers;
  }

  /** Callers below k are done, those from k up to m have something left to do, and the rest are idle. */
  function Row(n: nat, k: nat, m: nat, done: Phase, todo: Phase): seq<Phase> {
    seq(n, id => if id < k then done else if id < m then todo else Idle)
  }

  lemma RowStep(n: nat, k: nat, m: nat, done: Phase, todo: Phase)
    requires k < m <= n
    ensures Row(n, k, m, done, todo)[k] == todo
    ensures Row(n, k, m, done, todo)[k := done] == Row(n, k + 1, m, done, todo)
  {
  }

  /** When all have done one thing they turn to the next. */
  lemma RowTurns(n: nat, m: nat, done: Phase, todo: Phase, next: Phase)
    requires m <= n
    ensures Row(n, m, m, done, todo) == Row(n, 0, m, next, done)
  {
  }

  function Times(k: nat, t: nat): seq<nat> {
    seq(k, _ => t)
  }

  lemma TimesMore(k: nat, t: nat)
    ensures Times(k, t) + [t] == Times(k + 1, t)
  {
  }

  lemma {:induction false} TimesStay(k: nat, t: nat)
    ensures Prune(Times(k, t), t) == Times(k, t)
    ensures Prune(Times(k, 0), RPM_WINDOW) == []
    ensures CountIn(Times(k, t), 0) == if t < RPM_WINDOW then k else 0
  {
    if k > 0 {
      TimesStay(k - 1, t);
      assert Times(k, 0)[1..] == Times(k - 1, 0) && Times(k, t)[..k - 1] == Times(k - 1, t);
    }
  }

  /** `k` admissions one after the other at time zero. */
  lemma {:induction false} Fill(limit: u32, n: nat, k: nat) returns (actions: seq<Action>)
    requires n >= 1 && k < limit
    ensures Reaches(limit, n, actions, State(Times(k, 0), Row(n, 0, 0, Idle, Idle)), Times(k, 0), 0)
  {
    if k == 0 {
      actions := [];
      assert Start(n) == State(Times(0, 0), Row(n, 0, 0, Idle, Idle)) && Times(0, 0) == [];
    } else {
      actions := Fill(limit, n, k - 1);
      TimesStay(k - 1, 0);
      var before := Times(k - 1, 0);
      actions := AdmitOne(limit, n, actions, State(before, Row(n, 0, 0, Idle, Idle)), before, 0);
      TimesMore(k - 1, 0);
    }
  }

  /** With one place left, callers below `k` have passed. */
  lemma {:induction false} PassAll(limit: u32, n: nat, k: nat) returns (actions: seq<Action>)
    requires n >= 1 && limit >= 1 && k <= n
    ensures Reaches(limit, n, actions, State(Times(limit - 1, 0), Row(n, k, n, Passed(0), Idle)), Times(limit - 1, 0),
            0)
  {
    var full := Times(limit - 1, 0);
    if k == 0 {
      actions := Fill(limit, n, limit - 1);
      assert Row(n, 0, n, Passed(0), Idle) == Row(n, 0, 0, Idle, Idle);
    } else {
      actions := PassAll(limit, n, k - 1);
      TimesStay(limit - 1, 0);
      var row := Row(n, k - 1, n, Passed(0), Idle);
      RowStep(n, k - 1, n, Passed(0), Idle);
      actions := PassOne(limit, n, actions, State(full, row), full, 0, k - 1, 0);
    }
  }

  /** And then have recorded. */
  lemma {:induction false} RecordAll(limit: u32, n: nat, k: nat) returns (actions: seq<Action>)
    requires n >= 1 && limit >= 1 && k <= n
    ensures Reaches(limit, n, actions, State(Times(limit - 1 + k, 0), Row(n, k, n, Idle, Passed(0))),
            Times(limit - 1 + k, 0), 0)
  {
    if k == 0 {
      actions := PassAll(limit, n, n);
      RowTurns(n, n, Passed(0), Idle, Idle);
    } else {
      actions := RecordAll(limit, n, k - 1);
      var before, row := Times(limit - 2 + k, 0), Row(n, k - 1, n, Idle, Passed(0));
      TimesStay(limit - 2 + k, 0);
      actions := RecordOne(limit, n, actions, State(before, row), before, 0, k - 1);
      RowStep(n, k - 1, n, Idle, Passed(0));
      TimesMore(limit - 2 + k, 0);
    }
  }

  /** N callers can push one minute's admissions to limit + N - 1, checking in order. */
  lemma OvershootIsReached(limit: u32, n: nat) returns (actions: seq<Action>)
    requires n >= 1 && limit >= 1
    ensures Ticking(Start(n), limit, actions, 0)
    ensures |Run(Start(n), limit, actions).events| == limit + n - 1
    ensures CountIn(History(Start(n), limit, actions), 0) == limit + n - 1
  {
    actions := RecordAll(limit, n, n);
    TimesStay(limit - 1 + n, 0);
  }

  const LATE: nat := RPM_WINDOW - 1

  /** Late in the same minute all callers but the last have read the clock again. */
  lemma {:induction false} ArriveLate(limit: u32, n: nat, k: nat) returns (actions: seq<Action>, clock: nat)
    requires n >= 1 && limit >= 1 && k < n
    ensures clock <= LATE
    ensures var zeros := Times(limit - 1 + n, 0);
            Reaches(limit, n, actions, State(zeros, Row(n, k, n, Arrived(LATE), Idle)), zeros, clock)
  {
    var zeros := Times(limit - 1 + n, 0);
    if k == 0 {
      actions := RecordAll(limit, n, n);
      clock := 0;
      assert Row(n, n, n, Idle, Passed(0)) == Row(n, 0, n, Arrived(LATE), Idle);
    } else {
      actions, clock := ArriveLate(limit, n, k - 1);
      var row := Row(n, k - 1, n, Arrived(LATE), Idle);
      RowStep(n, k - 1, n, Arrived(LATE), Idle);
      actions := Then(limit, n, actions, State(zeros, row), zeros, clock, Arrive(k - 1, LATE),
                      State(zeros, Row(n, k, n, Arrived(LATE), Idle)));
      clock := LATE;
    }
  }

  /** The last caller checks in the next minute, which empties the window, and is refused elsewhere. */
  lemma ClearWindow(limit: u32, n: nat) returns (actions: seq<Action>)
    requires n >= 1 && limit >= 1
    ensures Reaches(limit, n, actions, State([], Row(n, 0, n - 1, Passed(LATE), Arrived(LATE))),
            Times(limit - 1 + n, 0), RPM_WINDOW)
  {
    var zeros, row, clock := Times(limit - 1 + n, 0), Row(n, n - 1, n, Arrived(LATE), Idle), 0;
    actions, clock := ArriveLate(limit, n, n - 1);
    actions := ClearWith(limit, n, actions, State(zeros, row), zeros, clock, n - 1);
    assert row[n - 1 := Idle] == Row(n, 0, n - 1, Passed(LATE), Arrived(LATE));
  }

  lemma ClearWith(limit: u32, n: nat, actions: seq<Action>, st: State, zeros: seq<nat>, clock: nat, id: nat)
    returns (more: seq<Action>)
    requires Reaches(limit, n, actions, st, zeros, clock) && clock <= RPM_WINDOW && limit >= 1
    requires id < |st.callers| && st.callers[id].Idle? && st.events == Times(|st.events|, 0)
    ensures Reaches(limit, n, more, State([], st.callers[id := Idle]), zeros, RPM_WINDOW)
  {
    var arrived := State(st.events, st.callers[id := Arrived(RPM_WINDOW)]);
    assert zeros + [] == zeros;
    more := Then(limit, n, actions, st, zeros, clock, Arrive(id, RPM_WINDOW), arrived);
    var passed := State([], arrived.callers[id := Passed(RPM_WINDOW)]);
    CheckClears(limit, arrived, id);
    more := Then(limit, n, more, arrived, zeros, RPM_WINDOW, Check(id), passed);
    assert passed.callers[id := Idle] == st.callers[id := Idle];
    more := Then(limit, n, more, passed, zeros, RPM_WINDOW, Refused(id), State([], st.callers[id := Idle]));
  }

  lemma CheckClears(limit: u32, st: State, id: nat)
    requires limit >= 1 && st.events == Times(|st.events|, 0)
    requires id < |st.callers| && st.callers[id] == Arrived(RPM_WINDOW)
    ensures Next(st, limit, Check(id)) == State([], st.callers[id := Passed(RPM_WINDOW)])
  {
    TimesStay(|st.events|, 0);
  }

  lemma {:induction false} CheckLate(limit: u32, n: nat, k: nat) returns (actions: seq<Action>)
    requires n >= 1 && limit >= 1 && k < n
    ensures Reaches(limit, n, actions, State([], Row(n, k, n - 1, Passed(LATE), Arrived(LATE))),
            Times(limit - 1 + n, 0), RPM_WINDOW)
  {
    if k == 0 {
      actions := ClearWindow(limit, n);
    } else {
      actions := CheckLate(limit, n, k - 1);
      var row := Row(n, k - 1, n - 1, Passed(LATE), Arrived(LATE));
      RowStep(n, k - 1, n - 1, Passed(LATE), Arrived(LATE));
      actions := Then(limit, n, actions, State([], row), Times(limit - 1 + n, 0), RPM_WINDOW, Check(k - 1),
                      State([], Row(n, k, n - 1, Passed(LATE), Arrived(LATE))));
    }
  }

  lemma {:induction false} RecordLate(limit: u32, n: nat, k: nat) returns (actions: seq<Action>)
    requires n >= 1 && limit >= 1 && k < n
    ensures Reaches(limit, n, actions, State(Times(k, LATE), Row(n, k, n - 1, Idle, Passed(LATE))),
                    Times(limit - 1 + n, 0) + Times(k, LATE), RPM_WINDOW)
  {
    var zeros := Times(limit - 1 + n, 0);
    if k == 0 {
      actions := CheckLate(limit, n, n - 1);
      RowTurns(n, n - 1, Passed(LATE), Arrived(LATE), Idle);
      assert zeros + Times(0, LATE) == zeros && Times(0, LATE) == [];
    } else {
      actions := RecordLate(limit, n, k - 1);
      var row := Row(n, k - 1, n - 1, Idle, Passed(LATE));
      TimesStay(k - 1, LATE);
      actions := RecordOne(limit, n, actions, State(Times(k - 1, LATE), row), zeros + Times(k - 1, LATE), RPM_WINDOW,
          k - 1);
      RowStep(n, k - 1, n - 1, Idle, Passed(LATE));
      TimesMore(k - 1, LATE);
      assert zeros + Times(k - 1, LATE) + [LATE] == zeros + Times(k, LATE);
    }
  }

  /** Checking out of order, they can push it to limit + 2 (N - 1). */
  lemma MinuteOvershootIsReached(limit: u32, n: nat) returns (actions: seq<Action>)
    requires n >= 1 && limit >= 1
    ensures Ticking(Start(n), limit, actions, 0)
    ensures CountIn(History(Start(n), limit, actions), 0) == limit + 2 * (n - 1)
  {
    actions := RecordLate(limit, n, n - 1);
    TimesStay(limit - 1 + n, 0);
    TimesStay(n - 1, LATE);
    CountInConcat(Times(limit - 1 + n, 0), Times(n - 1, LATE), 0);
  }
}
