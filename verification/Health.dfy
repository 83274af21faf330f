/**
 Endpoint health: the runtime metric of one endpoint, folded over its attempts, and the database row
 its health is written through to. Moving averages are real numbers.
 */
module Health {
  import opened Common

  const FAILURE_THRESHOLD: int := 3
  const COOLDOWN_SECS: int := 30

  datatype Metric = Metric(
    active: int, latency: real, successLatency: real,
    requests: int, errors: int, failures: int,
    cacheRatio: real, cacheSamples: int,
    status: string, cooldown: Option<int>, lastErrorAt: Option<int>)

  const NEW_METRIC := Metric(0, 0.0, 0.0, 0, 0, 0, 0.0, 0, "healthy", None, None)

  type Ratio = r: real | 0.0 <= r <= 1.0

  datatype Event =
    | Started(activeAtStart: nat)
    | Finished(success: bool, latencyMs: nat, now: int)
    | CacheSeen(ratio: Ratio)
    | ProbePassed

  /** One step of a moving average; an average of zero starts over. */
  function Average(average: real, sample: real): real {
    if average == 0.0 then sample else 0.9 * average + 0.1 * sample
  }

  function Attempted(m: Metric, success: bool, latencyMs: nat, now: int): Metric {
    var active := if m.active > 0 then m.active - 1 else m.active;
    var base := m.(active := active, latency := Average(m.latency, latencyMs as real));
    if success then
      var fine := base.(successLatency := Average(m.successLatency, latencyMs as real), failures := 0);
      if m.status == "healthy" then fine else fine.(status := "healthy", cooldown := None)
    else
      var failed := base.(errors := m.errors + 1, failures := m.failures + 1, lastErrorAt := Some(now));
      if failed.failures >= FAILURE_THRESHOLD then
          failed.(status := "unavailable", cooldown := Some(now + COOLDOWN_SECS))
      else if m.status == "healthy" then failed.(status := "degraded") else failed
  }

  predicate HealthChanged(m: Metric, success: bool) {
    if success then m.status != "healthy" else m.failures + 1 >= FAILURE_THRESHOLD || m.status == "healthy"
  }

  /** The share of the prompt that came from the cache. */
  function HitRatio(promptTokens: int, hitTokens: int): Ratio
    requires promptTokens > 0
  {
    var hits := if hitTokens < 0 then 0 else if hitTokens > promptTokens then promptTokens else hitTokens;
    Division(hits, promptTokens);
    hits as real / promptTokens as real
  }

  lemma Division(a: nat, b: nat)
    requires 0 <= a <= b && b > 0
    ensures 0.0 <= a as real / b as real <= 1.0
  {
  }

  function Observed(m: Metric, ratio: Ratio): Metric {
    m.(cacheRatio := if m.cacheSamples == 0 then ratio else m.cacheRatio * 0.75 + ratio * 0.25,
       cacheSamples := m.cacheSamples + 1)
  }

  function Step(m: Metric, event: Event): Metric {
    match event
    case Started(active) => m.(active := active, requests := m.requests + 1)
    case Finished(success, latencyMs, now) => Attempted(m, success, latencyMs, now)
    case CacheSeen(ratio) => Observed(m, ratio)
    case ProbePassed => m.(status := "healthy", failures := 0, cooldown := None)
  }

  class EndpointMetric {
    var active: int
    var latency: real
    var successLatency: real
    var requests: int
    var errors: int
    var failures: int
    var cacheRatio: real
    var cacheSamples: int
    var status: string
    var cooldown: Option<int>
    var lastErrorAt: Option<int>

    function State(): Metric
      reads this
    {
      Metric(active, latency, successLatency, requests, errors, failures, cacheRatio, cacheSamples, status, cooldown,
          lastErrorAt)
    }

    constructor ()
      ensures State() == NEW_METRIC
    {
      active, latency, successLatency, requests, errors, failures := 0, 0.0, 0.0, 0, 0, 0;
      cacheRatio, cacheSamples := 0.0, 0;
      status, cooldown, lastErrorAt := "healthy", None, None;
    }

    method RecordAttempt(success: bool, latencyMs: nat, now: int) returns (changed: bool)
      modifies this
      ensures State() == Attempted(old(State()), success, latencyMs, now)
      ensures changed == HealthChanged(old(State()), success)
    {
      if active > 0 {
        active := active - 1;
      }
      latency := Average(latency, latencyMs as real);
      if success {
        successLatency := Average(successLatency, latencyMs as real);
        failures := 0;
        if status != "healthy" {
          status, cooldown := "healthy", None;
          return true;
        }
        return false;
      }
      errors := errors + 1;
      failures := failures + 1;
      lastErrorAt := Some(now);
      if failures >= FAILURE_THRESHOLD {
        status, cooldown := "unavailable", Some(now + COOLDOWN_SECS);
        return true;
      } else if status == "healthy" {
        status := "degraded";
        return true;
      }
      return false;
    }

    method RecordCacheObservation(promptTokens: int, hitTokens: int)
      modifies this
      ensures State() ==
              if promptTokens <= 0 then old(State()) else Observed(old(State()), HitRatio(promptTokens, hitTokens))
    {
      if promptTokens <= 0 {
        return;
      }
      var ratio := HitRatio(promptTokens, hitTokens);
      cacheRatio := if cacheSamples == 0 then ratio else cacheRatio * 0.75 + ratio * 0.25;
      cacheSamples := cacheSamples + 1;
    }
  }

  // ----- write-through -----

  /** The health columns of the endpoint's row. */
  datatype Row = Row(status: string, cooldown: Option<int>)

  function Unelapsed(cooldown: Option<int>, now: int): Option<int> {
    if cooldown.Some? && cooldown.value > now then cooldown else None
  }

  /** The metric a starting process makes from the row. */
  function Seed(row: Row, now: int): Metric {
    NEW_METRIC.(status := row.status, cooldown := Unelapsed(row.cooldown, now))
  }

  function HealthRow(m: Metric): Row {
    Row(m.status, m.cooldown)
  }

  /** The event makes the process write the row. */
  predicate Writes(m: Metric, event: Event) {
    match event
    case Finished(success, _, _) => HealthChanged(m, success)
    case ProbePassed => true
    case _ => false
  }

  datatype World = World(metric: Metric, row: Row)

  datatype Move = Live(event: Event) | Restart(now: int)

  function StepWorld(w: World, move: Move): World {
    match move
    case Restart(now) => w.(metric := Seed(w.row, now))
    case Live(event) =>
      var m := Step(w.metric, event);
      World(m, if Writes(w.metric, event) then HealthRow(m) else w.row)
  }

  /** One endpoint as the hooks see it: its metric and its row. */
  class HealthHooks {
    const metric: EndpointMetric
    var row: Row

    function State(): World
      reads this, metric
    {
      World(metric.State(), row)
    }

    constructor ()
      ensures State() == World(NEW_METRIC, Row("healthy", None))
      ensures fresh(metric)
    {
      metric := new EndpointMetric();
      row := Row("healthy", None);
    }

    method OnAttemptStarted(activeAtStart: nat)
      modifies metric
      ensures State() == StepWorld(old(State()), Live(Started(activeAtStart)))
    {
      metric.active := activeAtStart;
      metric.requests := metric.requests + 1;
    }

    method OnAttemptFinished(success: bool, latencyMs: nat, now: int)
      modifies this, metric
      ensures State() == StepWorld(old(State()), Live(Finished(success, latencyMs, now)))
    {
      var changed := metric.RecordAttempt(success, latencyMs, now);
      if changed {
        row := Row(metric.status, metric.cooldown);
      }
    }

    /** Start of a process: the metric is seeded from the row. */
    method SeedFromRow(now: int)
      modifies metric
      ensures State() == StepWorld(old(State()), Restart(now))
    {
      metric.active, metric.latency, metric.successLatency := 0, 0.0, 0.0;
      metric.requests, metric.errors, metric.failures := 0, 0, 0;
      metric.cacheRatio, metric.cacheSamples, metric.lastErrorAt := 0.0, 0, None;
      metric.status := row.status;
      metric.cooldown := if row.cooldown.Some? && row.cooldown.value > now then row.cooldown else None;
    }
  }

  function RunWorld(w: World, moves: seq<Move>): World {
    if moves == [] then w else StepWorld(RunWorld(w, moves[..|moves| - 1]), moves[|moves| - 1])
  }

  /** Every clock reading of the run is at or before `now`. */
  predicate Until(moves: seq<Move>, now: int) {
    forall i | 0 <= i < |moves| && moves[i].Restart? :: moves[i].now <= now
  }

  /**
   Over all runs, restarts included, the row tells the health the process acts on: the same status,
   and the same cooldown as long as it has not run out. A restart therefore changes neither.
   */
  lemma {:induction false} RowMirrorsMemory(w: World, moves: seq<Move>, now: int)
    requires w.row == HealthRow(w.metric) && Until(moves, now)
    ensures var end := RunWorld(w, moves);
            && end.row.status == end.metric.status
            && Unelapsed(end.row.cooldown, now) == Unelapsed(end.metric.cooldown, now)
            && (var again := StepWorld(end, Restart(now));
                again.metric.status == end.metric.status
                && forall later | later >= now ::
                    Unelapsed(again.metric.cooldown, later) == Unelapsed(end.metric.cooldown, later))
            && ((forall move | move in moves :: move.Live?) ==> end.row.cooldown == end.metric.cooldown)
  {
    if moves != [] {
      RowMirrorsMemory(w, moves[..|moves| - 1], now);
    }
  }

  // ----- writes that land late -----

  /** A write is issued once the metric is free again, so it lands some time after the attempt. */
  datatype Late = Late(metric: Metric, row: Row, pending: seq<Row>)

  datatype LateMove = Happens(event: Event) | Lands(which: nat)

  function StepLate(l: Late, move: LateMove): Late {
    match move
    case Happens(event) => l.(metric := Step(l.metric, event), pending := l.pending + IssuedBy(l, move))
    case Lands(i) =>
      if i < |l.pending| then Late(l.metric, l.pending[i], l.pending[..i] + l.pending[i + 1..]) else l
  }

  function IssuedBy(l: Late, move: LateMove): seq<Row> {
    if move.Happens? && Writes(l.metric, move.event) then [HealthRow(Step(l.metric, move.event))] else []
  }

  function LandedBy(l: Late, move: LateMove): seq<Row> {
    if move.Lands? && move.which < |l.pending| then [l.pending[move.which]] else []
  }

  function RunLate(l: Late, moves: seq<LateMove>): Late {
    if moves == [] then l else StepLate(RunLate(l, moves[..|moves| - 1]), moves[|moves| - 1])
  }

  function Issued(l: Late, moves: seq<LateMove>): seq<Row> {
    if moves == [] then []
    else Issued(l, moves[..|moves| - 1]) + IssuedBy(RunLate(l, moves[..|moves| - 1]), moves[|moves| - 1])
  }

  function Landed(l: Late, moves: seq<LateMove>): seq<Row> {
    if moves == [] then []
    else Landed(l, moves[..|moves| - 1]) + LandedBy(RunLate(l, moves[..|moves| - 1]), moves[|moves| - 1])
  }

  function Latest(first: Row, rows: seq<Row>): Row {
    if rows == [] then first else rows[|rows| - 1]
  }

  lemma LatestAppend(first: Row, a: seq<Row>, b: seq<Row>)
    ensures Latest(first, a + b) == Latest(Latest(first, a), b)
  {
    assert b == [] ==> a + b == a;
  }

  lemma MoveShows(l: Late, move: LateMove)
    ensures HealthRow(StepLate(l, move).metric) == Latest(HealthRow(l.metric), IssuedBy(l, move))
    ensures StepLate(l, move).row == Latest(l.row, LandedBy(l, move))
  {
  }

  /** Memory always has the health issued last and the row the one landed last, whatever the order of landing. */
  lemma {:induction false} RowIsLatestLanded(l: Late, moves: seq<LateMove>)
    requires l.row == HealthRow(l.metric)
    ensures HealthRow(RunLate(l, moves).metric) == Latest(l.row, Issued(l, moves))
    ensures RunLate(l, moves).row == Latest(l.row, Landed(l, moves))
  {
    if moves != [] {
      var init, move := moves[..|moves| - 1], moves[|moves| - 1];
      RowIsLatestLanded(l, init);
      MoveShows(RunLate(l, init), move);
      LatestAppend(l.row, Issued(l, init), IssuedBy(RunLate(l, init), move));
      LatestAppend(l.row, Landed(l, init), LandedBy(RunLate(l, init), move));
    }
  }

  lemma TakeOut(rows: seq<Row>, i: nat)
    requires i < |rows|
    ensures multiset(rows) == multiset(rows[..i] + rows[i + 1..]) + multiset([rows[i]])
  {
    assert rows == rows[..i] + [rows[i]] + rows[i + 1..];
  }

  lemma MoveConserves(l: Late, move: LateMove)
    ensures multiset(l.pending) + multiset(IssuedBy(l, move))
            == multiset(StepLate(l, move).pending) + multiset(LandedBy(l, move))
  {
    if move.Happens? {
      assert StepLate(l, move).pending == l.pending + IssuedBy(l, move);
    } else if move.which < |l.pending| {
      TakeOut(l.pending, move.which);
      assert StepLate(l, move).pending == l.pending[..move.which] + l.pending[move.which + 1..];
    }
  }

  lemma MoveQueues(l: Late, move: LateMove)
    requires move.Happens? || move.which == 0
    ensures l.pending + IssuedBy(l, move) == LandedBy(l, move) + StepLate(l, move).pending
  {
    if move.Lands? && l.pending != [] {
      assert l.pending == [l.pending[0]] + ([] + l.pending[1..]);
    }
  }

  /** No write is lost: what was issued has landed or is pending. */
  lemma {:induction false} WritesAreConserved(l: Late, moves: seq<LateMove>)
    requires l.pending == []
    ensures multiset(Issued(l, moves)) == multiset(Landed(l, moves)) + multiset(RunLate(l, moves).pending)
  {
    if moves != [] {
      var init, move := moves[..|moves| - 1], moves[|moves| - 1];
      WritesAreConserved(l, init);
      var mid := RunLate(l, init);
      MoveConserves(mid, move);
      SumOf(Issued(l, init), IssuedBy(mid, move));
      SumOf(Landed(l, init), LandedBy(mid, move));
      Exchange(multiset(Issued(l, init)), multiset(Landed(l, init)), multiset(mid.pending),
               multiset(IssuedBy(mid, move)), multiset(LandedBy(mid, move)), multiset(StepLate(mid, move).pending));
    }
  }

  lemma SumOf(a: seq<Row>, b: seq<Row>)
    ensures multiset(a + b) == multiset(a) + multiset(b)
  {
  }

  lemma Exchange(issued: multiset<Row>, landed: multiset<Row>, pending: multiset<Row>,
                 more: multiset<Row>, done: multiset<Row>, rest: multiset<Row>)
    requires issued == landed + pending && pending + more == rest + done
    ensures issued + more == (landed + done) + rest
  {
    assert issued + more == landed + (pending + more);
  }

  /** When writes land in the order of the attempts, the row catches up with memory as soon as all have landed. */
  lemma {:induction false} InOrderRowCatchesUp(l: Late, moves: seq<LateMove>)
    requires l.row == HealthRow(l.metric) && l.pending == []
    requires forall i | 0 <= i < |moves| && moves[i].Lands? :: moves[i].which == 0
    ensures Issued(l, moves) == Landed(l, moves) + RunLate(l, moves).pending
    ensures RunLate(l, moves).pending == [] ==> RunLate(l, moves).row == HealthRow(RunLate(l, moves).metric)
  {
    if moves != [] {
      var init, move := moves[..|moves| - 1], moves[|moves| - 1];
      InOrderRowCatchesUp(l, init);
      var mid := RunLate(l, init);
      MoveQueues(mid, move);
      Requeue(Issued(l, init), Landed(l, init), mid.pending, IssuedBy(mid, move), LandedBy(mid, move),
          StepLate(mid, move).pending);
    }
    RowIsLatestLanded(l, moves);
    if RunLate(l, moves).pending == [] {
      assert Issued(l, moves) == Landed(l, moves);
    }
  }

  lemma Requeue(issued: seq<Row>, landed: seq<Row>, pending: seq<Row>, more: seq<Row>, done: seq<Row>, rest: seq<Row>)
    requires issued == landed + pending && pending + more == done + rest
    ensures issued + more == (landed + done) + rest
  {
    assert issued + more == landed + (pending + more);
    assert landed + (done + rest) == (landed + done) + rest;
  }

  /** A failure and a success whose writes land in reverse: all have landed, memory is healthy, the row degraded. */
  lemma LateRowCanDiffer() returns (moves: seq<LateMove>)
    ensures var end := RunLate(Late(NEW_METRIC, HealthRow(NEW_METRIC), []), moves);
            end.pending == [] && end.metric.status == "healthy" && end.row.status == "degraded"
  {
    var start := Late(NEW_METRIC, HealthRow(NEW_METRIC), []);
    var fails, succeeds := Happens(Finished(false, 0, 0)), Happens(Finished(true, 0, 0));
    moves := [fails, succeeds, Lands(1), Lands(0)];
    assert moves[..3] == [fails, succeeds, Lands(1)];
    assert [fails, succeeds, Lands(1)][..2] == [fails, succeeds];
    assert [fails, succeeds][..1] == [fails] && [fails][..0] == [];
    var one := StepLate(start, fails);
    assert RunLate(start, [fails]) == one && one.pending == [Row("degraded", None)];
    var two := StepLate(one, succeeds);
    assert RunLate(start, [fails, succeeds]) == two && two.pending == [Row("degraded", None), Row("healthy", None)];
    var three := StepLate(two, Lands(1));
    assert RunLate(start, [fails, succeeds, Lands(1)]) == three && three.pending == [Row("degraded", None)];
  }

  // ----- health and trailing failures -----

  function After(m: Metric, events: seq<Event>): Metric {
    if events == [] then m else Step(After(m, events[..|events| - 1]), events[|events| - 1])
  }

  predicate Clears(event: Event) {
    event.ProbePassed? || (event.Finished? && event.success)
  }

  predicate Fails(event: Event) {
    event.Finished? && !event.success
  }

  /** Failures since the last success. */
  function TrailingFailures(events: seq<Event>): nat {
    if events == [] then 0
    else
      var last, before := events[|events| - 1], TrailingFailures(events[..|events| - 1]);
      if Clears(last) then 0 else if Fails(last) then before + 1 else before
  }

  /** The time of the last failure. */
  function LastFailure(events: seq<Event>): Option<int> {
    if events == [] then None
    else if Fails(events[|events| - 1]) then Some(events[|events| - 1].now) else LastFailure(events[..|events| - 1])
  }

  /** The status is settled by a success or by enough failures in a row; until then the first one counts. */
  predicate Settled(events: seq<Event>) {
    events != [] &&
    (|| Settled(events[..|events| - 1])
     || Clears(events[|events| - 1])
     || TrailingFailures(events) >= FAILURE_THRESHOLD)
  }

  predicate AnyFailure(events: seq<Event>) {
    exists i | 0 <= i < |events| :: Fails(events[i])
  }

  /** The first cooldown counts until a probe, enough failures in a row, or a success on an endpoint
      that was not healthy. */
  predicate CooldownSettled(first: Metric, events: seq<Event>) {
    events != [] &&
    var init, last := events[..|events| - 1], events[|events| - 1];
    || CooldownSettled(first, init)
    || last.ProbePassed?
    || (Clears(last) && (first.status != "healthy" || AnyFailure(init)))
    || TrailingFailures(events) >= FAILURE_THRESHOLD
  }

  ghost predicate HealthOf(m: Metric, first: Metric, events: seq<Event>) {
    var f := TrailingFailures(events);
    && m.failures == f
    && m.status == (if f >= FAILURE_THRESHOLD then "unavailable"
                    else if f > 0 && (Settled(events) || first.status == "healthy") then "degraded"
                    else if Settled(events) then "healthy"
                    else first.status)
    && (if f >= FAILURE_THRESHOLD then LastFailure(events).Some?
        && m.cooldown == Some(LastFailure(events).value + COOLDOWN_SECS)
        else m.cooldown == if CooldownSettled(first, events) then None else first.cooldown)
  }

  /** Health after any events is a function of the failures since the last success. */
  lemma {:induction false} HealthIsTrailingFailures(first: Metric, events: seq<Event>)
    requires first.failures == 0
    ensures HealthOf(After(first, events), first, events)
  {
    if events != [] {
      var init := events[..|events| - 1];
      HealthIsTrailingFailures(first, init);
      AnyFailureStep(events);
      ClearedMeansSettled(first, init);
      TrailingNeedsFailure(init);
    }
  }

  lemma AnyFailureStep(events: seq<Event>)
    requires events != []
    ensures AnyFailure(events) <==> AnyFailure(events[..|events| - 1]) || Fails(events[|events| - 1])
  {
    var n := |events| - 1;
    if AnyFailure(events[..n]) {
      var i :| 0 <= i < n && Fails(events[..n][i]);
      assert Fails(events[i]);
    }
    if AnyFailure(events) {
      var i :| 0 <= i < |events| && Fails(events[i]);
      assert i < n ==> Fails(events[..n][i]);
    }
  }

  lemma {:induction false} TrailingNeedsFailure(events: seq<Event>)
    ensures TrailingFailures(events) > 0 ==> AnyFailure(events)
  {
    if events != [] {
      TrailingNeedsFailure(events[..|events| - 1]);
      AnyFailureStep(events);
    }
  }

  /** Once an endpoint that was not healthy has been cleared, its first cooldown no longer counts. */
  lemma {:induction false} ClearedMeansSettled(first: Metric, events: seq<Event>)
    ensures first.status != "healthy" && Settled(events) ==> CooldownSettled(first, events)
    ensures AnyFailure(events) && TrailingFailures(events) == 0 ==> CooldownSettled(first, events)
  {
    if events != [] {
      ClearedMeansSettled(first, events[..|events| - 1]);
      AnyFailureStep(events);
    }
  }

  /** From a new endpoint: healthy without trailing failures, degraded with one or two, unavailable with more. */
  lemma HealthFromNew(events: seq<Event>)
    ensures var m, f := After(NEW_METRIC, events), TrailingFailures(events);
            && (m.status == "healthy" <==> f == 0)
            && (m.status == "degraded" <==> 1 <= f <= 2)
            && (m.status == "unavailable" <==> f >= 3)
            && (m.cooldown.Some? <==> f >= 3)
  {
    HealthIsTrailingFailures(NEW_METRIC, events);
  }

  // ----- moving averages -----

  function Latencies(events: seq<Event>, successesOnly: bool): seq<real> {
    if events == [] then []
    else
      var last := events[|events| - 1];
      Latencies(events[..|events| - 1], successesOnly)
      + if Samples(last, successesOnly) then [last.latencyMs as real] else []
  }

  function Averaged(samples: seq<real>): real {
    if samples == [] then 0.0 else Average(Averaged(samples[..|samples| - 1]), samples[|samples| - 1])
  }

  /** The textbook average: the first sample starts it, once. */
  function Textbook(samples: seq<real>): real
    requires samples != []
  {
    var n := |samples| - 1;
    if n == 0 then samples[0] else 0.9 * Textbook(samples[..n]) + 0.1 * samples[n]
  }

  function LatencyOf(m: Metric, successesOnly: bool): real {
    if successesOnly then m.successLatency else m.latency
  }

  predicate Samples(event: Event, successesOnly: bool) {
    event.Finished? && (successesOnly ==> event.success)
  }

  lemma StepAverages(m: Metric, event: Event, successesOnly: bool)
    ensures LatencyOf(Step(m, event), successesOnly) ==
            if Samples(event, successesOnly) then Average(LatencyOf(m, successesOnly), event.latencyMs as real)
            else LatencyOf(m, successesOnly)
  {
  }

  lemma AveragedAppend(samples: seq<real>, x: real)
    ensures Averaged(samples + [x]) == Average(Averaged(samples), x)
  {
  }

  lemma {:induction false} LatencyAverages(events: seq<Event>, successesOnly: bool)
    ensures LatencyOf(After(NEW_METRIC, events), successesOnly) == Averaged(Latencies(events, successesOnly))
  {
    if events != [] {
      var init, last := events[..|events| - 1], events[|events| - 1];
      LatencyAverages(init, successesOnly);
      StepAverages(After(NEW_METRIC, init), last, successesOnly);
      if Samples(last, successesOnly) {
        AveragedAppend(Latencies(init, successesOnly), last.latencyMs as real);
      } else {
        assert Latencies(init, successesOnly) + [] == Latencies(init, successesOnly);
      }
    }
  }

  predicate InRange(samples: seq<real>, lo: real, hi: real) {
    forall i | 0 <= i < |samples| :: lo <= samples[i] <= hi
  }

  lemma {:induction false} AverageStaysInRange(samples: seq<real>, lo: real, hi: real)
    requires samples != [] && 0.0 <= lo && InRange(samples, lo, hi)
    ensures lo <= Averaged(samples) <= hi
  {
    var n := |samples| - 1;
    if n > 0 {
      AverageStaysInRange(samples[..n], lo, hi);
    } else {
      assert samples[..0] == [];
    }
  }

  /** Both latency averages stay between the smallest and the largest latency observed. */
  lemma LatencyStaysInRange(events: seq<Event>, successesOnly: bool, lo: real, hi: real)
    requires Latencies(events, successesOnly) != []
    requires 0.0 <= lo && InRange(Latencies(events, successesOnly), lo, hi)
    ensures lo <= LatencyOf(After(NEW_METRIC, events), successesOnly) <= hi
  {
    LatencyAverages(events, successesOnly);
    AverageStaysInRange(Latencies(events, successesOnly), lo, hi);
  }

  predicate AllZero(samples: seq<real>) {
    forall i | 0 <= i < |samples| :: samples[i] == 0.0
  }

  /** Samples of zero at the start are forgotten; the average is the textbook one exactly when none of them matters. */
  lemma {:induction false} AverageIsTextbookIff(samples: seq<real>)
    requires samples != [] && forall i | 0 <= i < |samples| :: samples[i] >= 0.0
    ensures Averaged(samples) >= Textbook(samples) >= 0.0
    ensures Averaged(samples) == 0.0 <==> AllZero(samples)
    ensures Averaged(samples) == Textbook(samples) <==> samples[0] > 0.0 || AllZero(samples)
  {
    var n := |samples| - 1;
    var init := samples[..n];
    assert AllZero(samples) <==> AllZero(init) && samples[n] == 0.0;
    if n > 0 {
      AverageIsTextbookIff(init);
    } else {
      assert init == [];
    }
  }

  function Ratios(events: seq<Event>): seq<real> {
    if events == [] then []
    else
      var last := events[|events| - 1];
      Ratios(events[..|events| - 1])
      + if last.CacheSeen? then [last.ratio] else []
  }

  lemma StepBlends(m: Metric, event: Event, lo: real, hi: real)
    requires m.cacheSamples >= 0 && 0.0 <= m.cacheRatio <= 1.0 && (m.cacheSamples > 0 ==> lo <= m.cacheRatio <= hi)
    requires event.CacheSeen? ==> lo <= event.ratio <= hi
    ensures var after := Step(m, event);
            && after.cacheSamples == m.cacheSamples + (if event.CacheSeen? then 1 else 0)
            && (event.CacheSeen? ==> lo <= after.cacheRatio <= hi)
            && (!event.CacheSeen? ==> after.cacheRatio == m.cacheRatio)
            && 0.0 <= after.cacheRatio <= 1.0
  {
  }

  /** The cache average lies between the hit ratios observed, hence in [0, 1]; every observation is counted. */
  lemma {:induction false} CacheRatioStaysInRange(events: seq<Event>, lo: real, hi: real)
    requires InRange(Ratios(events), lo, hi)
    ensures After(NEW_METRIC, events).cacheSamples == |Ratios(events)|
    ensures Ratios(events) != [] ==> lo <= After(NEW_METRIC, events).cacheRatio <= hi
    ensures 0.0 <= After(NEW_METRIC, events).cacheRatio <= 1.0
  {
    if events != [] {
      var init, last := events[..|events| - 1], events[|events| - 1];
      var before, all := Ratios(init), Ratios(events);
      assert forall i | 0 <= i < |before| :: all[i] == before[i];
      CacheRatioStaysInRange(init, lo, hi);
      assert |all| > |before| ==> lo <= all[|before|] <= hi;
      StepBlends(After(NEW_METRIC, init), last, lo, hi);
    }
  }

  // ----- counts -----

  function CountIf(events: seq<Event>, kind: Event -> bool): nat {
    if events == [] then 0 else CountIf(events[..|events| - 1], kind) + if kind(events[|events| - 1]) then 1 else 0
  }

  /** From a new endpoint every start is a request, every failure an error, and the last failure is dated. */
  lemma {:induction false} CountsAreExact(events: seq<Event>)
    ensures var m := After(NEW_METRIC, events);
            && m.requests == CountIf(events, (e: Event) => e.Started?)
            && m.errors == CountIf(events, (e: Event) => e.Finished? && !e.success)
            && m.lastErrorAt == LastFailure(events)
            && m.active >= 0
  {
    if events != [] {
      CountsAreExact(events[..|events| - 1]);
    }
  }

  /** A start sets the active count, and each end lowers it by one, not below zero. */
  lemma ActiveFollowsAttempts(m: Metric, event: Event)
    requires m.active >= 0
    ensures event.Started? ==> Step(m, event).active == event.activeAtStart
    ensures event.Finished? ==> Step(m, event).active == if m.active == 0 then 0 else m.active - 1
    ensures !event.Started? && !event.Finished? ==> Step(m, event).active == m.active
  {
  }

  /** The first observation of the cache counts in full, and each later one moves the average a quarter of the way. */
  lemma CacheMovesByQuarters(m: Metric, ratio: Ratio)
    ensures m.cacheSamples == 0 ==> Observed(m, ratio).cacheRatio == ratio
    ensures m.cacheSamples != 0 ==> Observed(m, ratio).cacheRatio - m.cacheRatio == (ratio - m.cacheRatio) * 0.25
  {
  }

  /** Hits are those of the prompt: none below zero, and never more than all. */
  lemma HitRatioIs(prompt: int, hits: int)
    requires prompt > 0
    ensures 0 <= hits <= prompt ==> HitRatio(prompt, hits) * prompt as real == hits as real
    ensures hits < 0 ==> HitRatio(prompt, hits) == 0.0
    ensures hits > prompt ==> HitRatio(prompt, hits) == 1.0
  {
    WholeShare(prompt as real);
    if 0 <= hits <= prompt {
      ShareOf(hits as real, prompt as real);
    }
  }

  lemma WholeShare(b: real)
    requires b > 0.0
    ensures b / b == 1.0 && 0.0 / b == 0.0
  {
  }

  lemma ShareOf(a: real, b: real)
    requires b > 0.0
    ensures a / b * b == a
  {
  }

  /** A starting process takes the status of the row and a cooldown still to come, and knows nothing else. */
  lemma SeedIs(row: Row, now: int, until: int)
    ensures var m := Seed(row, now);
            && m.status == row.status && m.failures == 0 && m.requests == 0 && m.errors == 0 && m.cacheSamples == 0
            && (m.cooldown == Some(until) <==> row.cooldown == Some(until) && until > now)
  {
  }
}
