/**
 One routing evaluation: which pool members are excluded and how the rest are scored. The main
 results say what the score boost for a sticky session can and cannot do, and that the budget gate
 always leaves usable endpoints.
 */
module Routing {
  import opened Common
  import opened Strategy

  datatype Member = Member(endpointId: string, priority: int, weight: int)

  datatype Metric = Metric(
    activeRequests: nat,
    latency: real,
    successLatency: real,
    totalRequests: int,
    totalErrors: int,
    cacheHitRatio: real,
    cacheSamples: int,
    cooldownUntil: Option<int>)

  datatype Hint = Hint(
    inputTokens: nat,
    outputTokens: nat,
    difficulty: real,
    hasTools: bool,
    downshift: bool,
    affinityEnabled: bool,
    sticky: Option<string>)

  /** What the provider reads about one pool, at one moment. */
  datatype Pool = Pool(
    strategy: PoolStrategy,
    members: seq<Member>,
    profiles: map<string, Profile>,
    metrics: map<string, Metric>,
    hint: Hint,
    now: int)

  /** A cooldown that has run out is not reported. */
  datatype Signal = Signal(score: Option<real>, excluded: bool, cooldown: Option<int>, errorRate: Option<real>)

  const CACHE_MIN_SAMPLES := 8
  const CACHE_COLLAPSED_RATIO := 0.10
  const CACHE_HEALTHY_RATIO := 0.50
  const BUDGET_SLACK := 1.05

  const DEFAULT_PROFILE := Profile(UNPRICED, 0.5, 0.5, None, PayAsYouGo, None)

  function ProfileOf(pool: Pool, id: string): Profile {
    if id in pool.profiles then pool.profiles[id] else DEFAULT_PROFILE
  }

  /** The strongest member, starting from zero. */
  function Strongest(pool: Pool, members: seq<Member>): real {
    if members == [] then 0.0
    else MaxReal(Strongest(pool, members[..|members| - 1]),
        ProfileOf(pool, members[|members| - 1].endpointId).capability)
  }

  function MaxPoolCapability(pool: Pool): real {
    if pool.strategy == CapabilityAware then Strongest(pool, pool.members) else 1.0
  }

  /** On hard requests the capability-qualified members are exempt from the budget gate. */
  predicate BudgetProtected(pool: Pool, id: string) {
    && pool.strategy == CapabilityAware && pool.hint.difficulty >= HARD_TASK_DIFFICULTY
    && CapabilityQualified(ProfileOf(pool, id).capability, pool.hint.difficulty, MaxPoolCapability(pool))
  }

  // ----- median price -----

  /** Price of a member for this request, errors aside. */
  function ListPrice(pool: Pool, id: string): real {
    ExpectedCost(ProfileOf(pool, id).price, pool.hint.inputTokens, pool.hint.outputTokens, 0.0)
  }

  function PricedCosts(pool: Pool, members: seq<Member>): seq<real> {
    if members == [] then []
    else
      var m := members[|members| - 1];
      PricedCosts(pool, members[..|members| - 1])
          + if ProfileOf(pool, m.endpointId).price.IsPriced() then [ListPrice(pool, m.endpointId)] else []
  }

  function Insert(x: real, sorted: seq<real>): seq<real> {
    if sorted == [] || x <= sorted[0] then [x] + sorted else [sorted[0]] + Insert(x, sorted[1..])
  }

  function Sorted(costs: seq<real>): seq<real> {
    if costs == [] then [] else Insert(costs[0], Sorted(costs[1..]))
  }

  function Median(costs: seq<real>): Option<real>
  {
    SortedLength(costs);
    if costs == [] then None else Some(Sorted(costs)[|costs| / 2])
  }

  lemma {:induction false} InsertLength(x: real, sorted: seq<real>)
    ensures |Insert(x, sorted)| == |sorted| + 1
  {
    if sorted != [] && x > sorted[0] {
      InsertLength(x, sorted[1..]);
    }
  }

  lemma {:induction false} SortedLength(costs: seq<real>)
    ensures |Sorted(costs)| == |costs|
  {
    if costs != [] {
      SortedLength(costs[1..]);
      InsertLength(costs[0], Sorted(costs[1..]));
    }
  }

  // ----- one member -----

  function MetricOf(pool: Pool, id: string): Option<Metric> {
    if id in pool.metrics then Some(pool.metrics[id]) else None
  }

  function RecentErrorRate(pool: Pool, id: string): Option<real> {
    match MetricOf(pool, id)
    case Some(m) => if m.totalRequests > 0 then Some(m.totalErrors as real / m.totalRequests as real) else None
    case None => None
  }

  function ErrorRate(pool: Pool, id: string): real {
    RecentErrorRate(pool, id).GetOr(0.0)
  }

  function Cooldown(pool: Pool, id: string): Option<int> {
    if HealthExcluded(pool, id) then pool.metrics[id].cooldownUntil else None
  }

  predicate HealthExcluded(pool: Pool, id: string) {
    id in pool.metrics && pool.metrics[id].cooldownUntil.Some? && pool.metrics[id].cooldownUntil.value > pool.now
  }

  predicate ToolsExcluded(pool: Pool, id: string) {
    pool.hint.hasTools && ProfileOf(pool, id).supportsTools == Some(false)
  }

  predicate BudgetExcluded(pool: Pool, id: string) {
    && pool.hint.downshift
    && ProfileOf(pool, id).price.IsPriced()
    && (var median := Median(PricedCosts(pool, pool.members));
        ExpectedCost(ProfileOf(pool, id).price, pool.hint.inputTokens, pool.hint.outputTokens, ErrorRate(pool, id))
        > median.GetOr(F64_MAX) * BUDGET_SLACK)
    && !BudgetProtected(pool, id)
  }

  function InputFor(pool: Pool, m: Member): ScoreInput {
    var metric := MetricOf(pool, m.endpointId);
    ScoreInput(m.priority, m.weight, ProfileOf(pool, m.endpointId),
               if metric.Some? then metric.value.activeRequests else 0,
               if metric.Some? then metric.value.successLatency else 0.0,
               if metric.Some? then metric.value.latency else 0.0,
               ErrorRate(pool, m.endpointId), pool.hint.inputTokens, pool.hint.outputTokens, pool.hint.difficulty,
               MaxPoolCapability(pool), pool.hint.affinityEnabled)
  }

  function SignalFor(pool: Pool, m: Member): Signal {
    var score := Score(pool.strategy, InputFor(pool, m));
    Signal(if pool.hint.affinityEnabled && score.None? then Some(1.0) else score,
           || HealthExcluded(pool, m.endpointId)
           || ToolsExcluded(pool, m.endpointId)
           || BudgetExcluded(pool, m.endpointId),
           Cooldown(pool, m.endpointId), RecentErrorRate(pool, m.endpointId))
  }

  function SignalsFor(pool: Pool, members: seq<Member>): map<string, Signal> {
    if members == [] then map[]
    else
      var m := members[|members| - 1];
      SignalsFor(pool, members[..|members| - 1])[m.endpointId := SignalFor(pool, m)]
  }

  // ----- session affinity -----

  predicate StickyCapable(pool: Pool, sticky: string) {
    pool.strategy == CapabilityAware ==>
      CapabilityQualified(if sticky in pool.profiles then pool.profiles[sticky].capability else 0.0,
                          pool.hint.difficulty, MaxPoolCapability(pool))
  }

  predicate TrustedRatio(pool: Pool, id: string) {
    id in pool.metrics && pool.metrics[id].cacheSamples >= CACHE_MIN_SAMPLES
  }

  /** The sticky endpoint lost its cache while another member retains one. */
  predicate CacheCollapsed(pool: Pool, sticky: string) {
    && TrustedRatio(pool, sticky) && pool.metrics[sticky].cacheHitRatio < CACHE_COLLAPSED_RATIO
    && exists i | 0 <= i < |pool.members| ::
         var id := pool.members[i].endpointId;
         id != sticky && TrustedRatio(pool, id) && pool.metrics[id].cacheHitRatio > CACHE_HEALTHY_RATIO
  }

  predicate Boosts(pool: Pool, signals: map<string, Signal>, id: string) {
    && pool.hint.affinityEnabled && pool.hint.sticky == Some(id)
    && StickyCapable(pool, id) && !CacheCollapsed(pool, id)
    && id in signals && !signals[id].excluded
  }

  function FinalSignals(pool: Pool): map<string, Signal> {
    var signals := SignalsFor(pool, pool.members);
    var sticky := pool.hint.sticky.GetOr("");
    if Boosts(pool, signals, sticky) then
      signals[sticky := signals[sticky].(score := Some(signals[sticky].score.GetOr(0.0) + AFFINITY_BOOST))]
    else signals
  }

  /** Exclusions and scores member by member, then the boost in place. */
  method Evaluate(pool: Pool) returns (signals: map<string, Signal>)
    ensures signals == FinalSignals(pool)
  {
    signals := EvaluateMembers(pool);
    if pool.hint.affinityEnabled && pool.hint.sticky.Some? {
      var sticky := pool.hint.sticky.value;
      if StickyCapable(pool, sticky) && !CacheCollapsed(pool, sticky) {
        if sticky in signals && !signals[sticky].excluded {
          var signal := signals[sticky];
          signals := signals[sticky := signal.(score := Some(signal.score.GetOr(0.0) + AFFINITY_BOOST))];
        }
      }
    }
  }

  /** The evaluation loop. */
  method EvaluateMembers(pool: Pool) returns (signals: map<string, Signal>)
    ensures signals == SignalsFor(pool, pool.members)
  {
    var maxCapability := MaxPoolCapability(pool);
    var medianCost := Median(PricedCosts(pool, pool.members)).GetOr(F64_MAX);
    signals := map[];
    var i := 0;
    while i < |pool.members|
      invariant i <= |pool.members|
      invariant signals == SignalsFor(pool, pool.members[..i])
    {
      var member := pool.members[i];
      var signal := EvaluateMember(pool, member, maxCapability, medianCost);
      signals := signals[member.endpointId := signal];
      assert pool.members[..i + 1][..i] == pool.members[..i];
      i := i + 1;
    }
    assert pool.members[..i] == pool.members;
  }

  method EvaluateMember(pool: Pool, member: Member, maxCapability: real, medianCost: real) returns (signal: Signal)
    requires maxCapability == MaxPoolCapability(pool)
    requires medianCost == Median(PricedCosts(pool, pool.members)).GetOr(F64_MAX)
    ensures signal == SignalFor(pool, member)
  {
    var id := member.endpointId;
    var profile := ProfileOf(pool, id);
    var errorRate := RecentErrorRate(pool, id);
    var err := errorRate.GetOr(0.0);
    var baseCost := ExpectedCost(profile.price, pool.hint.inputTokens, pool.hint.outputTokens, err);
    var excluded := HealthExcluded(pool, id);
    var cooldown := if excluded then pool.metrics[id].cooldownUntil else None;
    if pool.hint.hasTools && profile.supportsTools == Some(false) {
      excluded := true;
    }
    if pool.hint.downshift && profile.price.IsPriced()
       && baseCost > medianCost * BUDGET_SLACK && !BudgetProtected(pool, id)
    {
      excluded := true;
    }
    var score := Score(pool.strategy, InputFor(pool, member));
    if pool.hint.affinityEnabled && score.None? {
      score := Some(1.0);
    }
    signal := Signal(score, excluded, cooldown, errorRate);
  }

  // ----- what the signals contain -----

  lemma {:induction false} SignalOrigin(pool: Pool, members: seq<Member>, id: string)
    requires id in SignalsFor(pool, members)
    ensures exists i :: 0 <= i < |members| && members[i].endpointId == id
                        && SignalsFor(pool, members)[id] == SignalFor(pool, members[i])
  {
    var n := |members| - 1;
    if members[n].endpointId != id {
      SignalOrigin(pool, members[..n], id);
      var i :| 0 <= i < n && members[..n][i].endpointId == id
               && SignalsFor(pool, members[..n])[id] == SignalFor(pool, members[..n][i]);
      assert members[i] == members[..n][i];
    }
  }

  function TierOf(pool: Pool, id: string): nat {
    Tier(InputFor(pool, Member(id, 0, 0)))
  }

  function CapabilityRank(pool: Pool, id: string): nat {
    RankOf(ProfileOf(pool, id).capability)
  }

  function BaseScore(pool: Pool, id: string): real {
    CapabilityScore(InputFor(pool, Member(id, 0, 0)))
  }

  lemma UnboostedScore(pool: Pool, id: string)
    requires pool.strategy == CapabilityAware && id in SignalsFor(pool, pool.members)
    ensures SignalsFor(pool, pool.members)[id].score == Some(BaseScore(pool, id))
  {
    var signals := SignalsFor(pool, pool.members);
    SignalOrigin(pool, pool.members, id);
    var i :| 0 <= i < |pool.members| && pool.members[i].endpointId == id
             && signals[id] == SignalFor(pool, pool.members[i]);
    CapabilityScoreIgnoresWeights(InputFor(pool, pool.members[i]), 0, 0);
    assert InputFor(pool, Member(id, 0, 0)) == InputFor(pool, pool.members[i]).(priority := 0, weight := 0);
  }

  /** In a capability_aware pool only a qualified endpoint is boosted, at any difficulty. */
  lemma BoostedIsTopTier(pool: Pool, id: string)
    requires pool.strategy == CapabilityAware && Boosts(pool, SignalsFor(pool, pool.members), id)
    ensures TierOf(pool, id) == 2
  {
  }

  /** The final score is the capability score, plus the boost for the sticky endpoint. */
  lemma FinalScore(pool: Pool, id: string)
    requires pool.strategy == CapabilityAware && id in FinalSignals(pool)
    ensures FinalSignals(pool)[id].score ==
            Some(BaseScore(pool, id) + if Boosts(pool, SignalsFor(pool, pool.members), id) then AFFINITY_BOOST else 0.0)
    ensures Boosts(pool, SignalsFor(pool, pool.members), id) ==> TierOf(pool, id) == 2
  {
    var signals := SignalsFor(pool, pool.members);
    assert id in signals;
    UnboostedScore(pool, id);
    if Boosts(pool, signals, id) {
      BoostedIsTopTier(pool, id);
    }
  }

  /** A higher rounded capability never sits in a lower tier. */
  lemma RankOrdersTiers(pool: Pool, a: string, b: string)
    requires CapabilityRank(pool, a) < CapabilityRank(pool, b)
    ensures TierOf(pool, a) <= TierOf(pool, b)
  {
  }

  /**
   Hard requests go to the strongest usable endpoint: whatever is best among the non-excluded members
   after the affinity boost has maximal rounded capability among them.
   */
  lemma BestIsStrongest(pool: Pool, best: string, other: string)
    requires pool.strategy == CapabilityAware && pool.hint.difficulty >= HARD_TASK_DIFFICULTY
    requires best in FinalSignals(pool) && other in FinalSignals(pool)
    requires FinalSignals(pool)[best].score.Some? && FinalSignals(pool)[other].score.Some?
    requires FinalSignals(pool)[best].score.value >= FinalSignals(pool)[other].score.value
    ensures CapabilityRank(pool, best) >= CapabilityRank(pool, other)
  {
    if CapabilityRank(pool, best) < CapabilityRank(pool, other) {
      FinalScore(pool, best);
      FinalScore(pool, other);
      RankOrdersTiers(pool, best, other);
      var b, o := InputFor(pool, Member(best, 0, 0)), InputFor(pool, Member(other, 0, 0));
      if TierOf(pool, best) < TierOf(pool, other) {
        BoostStaysInTier(b, o);
      } else {
        StickyWinsWithinTierIff(b, o);
        BoostMargin(b, o);
      }
    }
  }

  /** One capability step in the same tier is worth more than the boost. */
  lemma BoostMargin(a: ScoreInput, b: ScoreInput)
    requires a.difficulty >= HARD_TASK_DIFFICULTY && b.difficulty >= HARD_TASK_DIFFICULTY
    requires Tier(a) == Tier(b) && RankOf(a.profile.capability) < RankOf(b.profile.capability)
    ensures CapabilityScore(a) + AFFINITY_BOOST < CapabilityScore(b)
  {
  }

  /** At any difficulty the boost never lifts an endpoint past one of a higher tier. */
  lemma BoostNeverCrossesTiers(pool: Pool, low: string, high: string)
    requires pool.strategy == CapabilityAware
    requires low in FinalSignals(pool) && high in FinalSignals(pool) && TierOf(pool, low) < TierOf(pool, high)
    ensures FinalSignals(pool)[low].score.Some? && FinalSignals(pool)[high].score.Some?
    ensures FinalSignals(pool)[low].score.value < FinalSignals(pool)[high].score.value
  {
    FinalScore(pool, low);
    FinalScore(pool, high);
    BoostStaysInTier(InputFor(pool, Member(low, 0, 0)), InputFor(pool, Member(high, 0, 0)));
  }

  /** When the sticky endpoint ends up ahead of a rival of its tier, for every pool and request. */
  lemma StickyEndsAheadIff(pool: Pool, sticky: string, rival: string)
    requires pool.strategy == CapabilityAware && Boosts(pool, SignalsFor(pool, pool.members), sticky)
    requires rival in FinalSignals(pool) && rival != sticky && TierOf(pool, rival) == TierOf(pool, sticky)
    ensures sticky in FinalSignals(pool)
    ensures FinalSignals(pool)[sticky].score.Some? && FinalSignals(pool)[rival].score.Some?
    ensures var s, r := InputFor(pool, Member(sticky, 0, 0)), InputFor(pool, Member(rival, 0, 0));
            FinalSignals(pool)[sticky].score.value > FinalSignals(pool)[rival].score.value <==>
            if pool.hint.difficulty >= HARD_TASK_DIFFICULTY then HardStickyWins(s, r)
            else WinsOnCost(CostBase(s), CostBase(r), Headstart(s, r))
  {
    FinalScore(pool, sticky);
    FinalScore(pool, rival);
    StickyWinsWithinTierIff(InputFor(pool, Member(sticky, 0, 0)), InputFor(pool, Member(rival, 0, 0)));
  }

  // ----- the budget gate leaves usable endpoints -----

  function CountAtMost(costs: seq<real>, x: real): nat {
    if costs == [] then 0 else (if costs[0] <= x then 1 else 0) + CountAtMost(costs[1..], x)
  }

  ghost predicate Ascending(s: seq<real>) {
    forall i, j | 0 <= i < j < |s| :: s[i] <= s[j]
  }

  lemma {:induction false} InsertSorts(x: real, sorted: seq<real>, bound: real)
    requires Ascending(sorted)
    ensures Ascending(Insert(x, sorted))
    ensures CountAtMost(Insert(x, sorted), bound) == CountAtMost(sorted, bound) + if x <= bound then 1 else 0
    ensures forall y | y in Insert(x, sorted) :: y == x || y in sorted
  {
    if sorted != [] && x > sorted[0] {
      InsertSorts(x, sorted[1..], bound);
      assert ([sorted[0]] + Insert(x, sorted[1..]))[1..] == Insert(x, sorted[1..]);
    } else {
      assert ([x] + sorted)[1..] == sorted;
    }
  }

  lemma {:induction false} SortingKeepsCounts(costs: seq<real>, bound: real)
    ensures Ascending(Sorted(costs))
    ensures CountAtMost(Sorted(costs), bound) == CountAtMost(costs, bound)
  {
    if costs != [] {
      SortingKeepsCounts(costs[1..], bound);
      InsertSorts(costs[0], Sorted(costs[1..]), bound);
    }
  }

  lemma {:induction false} PrefixCounts(s: seq<real>, k: nat, bound: real)
    requires k <= |s| && forall i | 0 <= i < k :: s[i] <= bound
    ensures CountAtMost(s, bound) >= k
  {
    if k > 0 {
      PrefixCounts(s[1..], k - 1, bound);
    }
  }

  lemma SortedCovers(sorted: seq<real>, k: nat)
    requires Ascending(sorted) && k < |sorted|
    ensures CountAtMost(sorted, sorted[k]) >= k + 1
  {
    PrefixCounts(sorted, k + 1, sorted[k]);
  }

  lemma MedianCoversHalf(costs: seq<real>)
    requires costs != []
    ensures CountAtMost(costs, Median(costs).value) >= |costs| / 2 + 1
  {
    var bound := Median(costs).value;
    SortedLength(costs);
    SortingKeepsCounts(costs, bound);
    SortedCovers(Sorted(costs), |costs| / 2);
  }

  /** Priced members, and those among them whose list price is at most `x`. */
  function Affordable(pool: Pool, members: seq<Member>, x: Option<real>): nat {
    if members == [] then 0
    else
      var id := members[|members| - 1].endpointId;
      Affordable(pool, members[..|members| - 1], x)
      + if ProfileOf(pool, id).price.IsPriced() && (x.None? || ListPrice(pool, id) <= x.value) then 1 else 0
  }

  lemma {:induction false} CountAtMostAppend(costs: seq<real>, y: real, x: real)
    ensures CountAtMost(costs + [y], x) == CountAtMost(costs, x) + if y <= x then 1 else 0
  {
    if costs != [] {
      assert (costs + [y])[1..] == costs[1..] + [y];
      CountAtMostAppend(costs[1..], y, x);
    } else {
      assert costs + [y] == [y];
    }
  }

  lemma {:induction false} CostsCountMembers(pool: Pool, members: seq<Member>, x: real)
    ensures |PricedCosts(pool, members)| == Affordable(pool, members, None)
    ensures CountAtMost(PricedCosts(pool, members), x) == Affordable(pool, members, Some(x))
  {
    if members != [] {
      var n := |members| - 1;
      CostsCountMembers(pool, members[..n], x);
      if ProfileOf(pool, members[n].endpointId).price.IsPriced() {
        CountAtMostAppend(PricedCosts(pool, members[..n]), ListPrice(pool, members[n].endpointId), x);
      } else {
        assert PricedCosts(pool, members) == PricedCosts(pool, members[..n]);
      }
    }
  }

  /** More than half of the priced members cost no more than the median. */
  lemma DownshiftKeepsHalf(pool: Pool)
    requires Affordable(pool, pool.members, None) > 0
    ensures var costs := PricedCosts(pool, pool.members);
            && costs != []
            && Affordable(pool, pool.members, Some(Median(costs).value)) >= Affordable(pool, pool.members, None) / 2 + 1
  {
    var costs := PricedCosts(pool, pool.members);
    CostsCountMembers(pool, pool.members, 0.0);
    MedianCoversHalf(costs);
    CostsCountMembers(pool, pool.members, Median(costs).value);
  }

  /** None of those with an error rate of at most 5 percent is budget-excluded; unpriced members and,
      on hard capability_aware requests, qualified members never are, the strongest included. */
  lemma DownshiftSpares(pool: Pool, m: Member)
    requires m in pool.members
    requires var median := Median(PricedCosts(pool, pool.members));
             || !ProfileOf(pool, m.endpointId).price.IsPriced()
             || (median.Some? && ListPrice(pool, m.endpointId) <= median.value && ErrorRate(pool, m.endpointId) <= 0.05)
             || BudgetProtected(pool, m.endpointId)
    ensures !BudgetExcluded(pool, m.endpointId)
    ensures SignalFor(pool, m).excluded <==> HealthExcluded(pool, m.endpointId) || ToolsExcluded(pool, m.endpointId)
  {
    var p := ProfileOf(pool, m.endpointId).price;
    var estimate := EstimateCost(p, pool.hint.inputTokens, pool.hint.outputTokens);
    if p.IsPriced() {
      assert ListPrice(pool, m.endpointId) == estimate;
      var median := Median(PricedCosts(pool, pool.members));
      var surcharge := Surcharge(ErrorRate(pool, m.endpointId));
      if median.Some? && estimate <= median.value && surcharge <= 1.05 {
        MulGrows(estimate, median.value, surcharge, 1.05);
      }
    }
  }

  /** The strongest member is always protected on hard requests. */
  lemma StrongestIsProtected(pool: Pool, m: Member)
    requires pool.strategy == CapabilityAware && pool.hint.difficulty >= HARD_TASK_DIFFICULTY && m in pool.members
    requires forall other | other in pool.members ::
      ProfileOf(pool, other.endpointId).capability <= ProfileOf(pool, m.endpointId).capability
    requires ProfileOf(pool, m.endpointId).capability >= 0.0
    ensures BudgetProtected(pool, m.endpointId) && !BudgetExcluded(pool, m.endpointId)
  {
    StrongestIsLeast(pool, pool.members, ProfileOf(pool, m.endpointId).capability);
  }

  lemma {:induction false} StrongestIsLeast(pool: Pool, members: seq<Member>, bound: real)
    requires bound >= 0.0 && forall m | m in members :: ProfileOf(pool, m.endpointId).capability <= bound
    ensures Strongest(pool, members) <= bound
  {
    if members != [] {
      assert forall m | m in members[..|members| - 1] :: m in members;
      StrongestIsLeast(pool, members[..|members| - 1], bound);
    }
  }

  // ----- exclusion, exactly -----

  lemma {:induction false} StrongestAtMostIff(pool: Pool, members: seq<Member>, bound: real)
    ensures Strongest(pool, members) <= bound <==>
            0.0 <= bound && forall m | m in members :: ProfileOf(pool, m.endpointId).capability <= bound
  {
    if members != [] {
      var n := |members| - 1;
      StrongestAtMostIff(pool, members[..n], bound);
      assert members == members[..n] + [members[n]];
    }
  }

  /** Within 0.04 of every member, and of zero. */
  ghost predicate NearStrongest(pool: Pool, capability: real) {
    0.0 <= capability + 0.04 && forall m | m in pool.members ::
        ProfileOf(pool, m.endpointId).capability <= capability + 0.04
  }

  lemma QualifiedWhenHardIff(pool: Pool, capability: real)
    requires pool.strategy == CapabilityAware && pool.hint.difficulty >= 0.55
    ensures CapabilityQualified(capability, pool.hint.difficulty, MaxPoolCapability(pool)) <==>
            NearStrongest(pool, capability)
  {
    StrongestAtMostIff(pool, pool.members, capability + 0.04);
  }

  predicate CoolingDown(pool: Pool, id: string) {
    id in pool.metrics && pool.metrics[id].cooldownUntil.Some? && pool.now < pool.metrics[id].cooldownUntil.value
  }

  predicate LacksTools(pool: Pool, id: string) {
    pool.hint.hasTools && id in pool.profiles && pool.profiles[id].supportsTools == Some(false)
  }

  /** The share of failed requests, from none to 95 percent. */
  function FailureShare(pool: Pool, id: string): real {
    if id in pool.metrics && pool.metrics[id].totalRequests > 0 then
      Clamp(pool.metrics[id].totalErrors as real / pool.metrics[id].totalRequests as real, 0.0, 0.95)
    else 0.0
  }

  /** The list price and its expected retries are more than five percent above the median list price. */
  predicate OverBudget(pool: Pool, id: string) {
    && ProfileOf(pool, id).price.IsPriced()
    && Median(PricedCosts(pool, pool.members)).Some?
    && ListPrice(pool, id) * (1.0 + FailureShare(pool, id)) > Median(PricedCosts(pool, pool.members)).value * 1.05
  }

  /** An endpoint is excluded exactly when it cools down, lacks the tools, or is over a budget that
      does not spare it. */
  lemma ExcludedIff(pool: Pool, id: string)
    requires id in FinalSignals(pool)
    ensures FinalSignals(pool)[id].excluded <==>
            || CoolingDown(pool, id)
            || LacksTools(pool, id)
            || (pool.hint.downshift && OverBudget(pool, id)
                && !(pool.strategy == CapabilityAware && pool.hint.difficulty >= 0.55
                     && NearStrongest(pool, ProfileOf(pool, id).capability)))
  {
    SignalOrigin(pool, pool.members, id);
    var i :| 0 <= i < |pool.members| && pool.members[i].endpointId == id
             && SignalsFor(pool, pool.members)[id] == SignalFor(pool, pool.members[i]);
    if ProfileOf(pool, id).price.IsPriced() {
      PricedHasMedian(pool, pool.members, i);
    }
    if pool.strategy == CapabilityAware && pool.hint.difficulty >= 0.55 {
      QualifiedWhenHardIff(pool, ProfileOf(pool, id).capability);
    }
    BudgetIff(pool, id);
  }

  lemma {:induction false} PricedHasMedian(pool: Pool, members: seq<Member>, i: nat)
    requires i < |members| && ProfileOf(pool, members[i].endpointId).price.IsPriced()
    ensures PricedCosts(pool, members) != []
  {
    if i < |members| - 1 {
      PricedHasMedian(pool, members[..|members| - 1], i);
    }
  }

  lemma BudgetIff(pool: Pool, id: string)
    requires ProfileOf(pool, id).price.IsPriced() ==> PricedCosts(pool, pool.members) != []
    ensures BudgetExcluded(pool, id) <==> pool.hint.downshift && OverBudget(pool, id) && !BudgetProtected(pool, id)
  {
    if ProfileOf(pool, id).price.IsPriced() {
      CostIsListPriceAndRetries(pool, id);
    }
  }

  lemma CostIsListPriceAndRetries(pool: Pool, id: string)
    requires ProfileOf(pool, id).price.IsPriced()
    ensures ExpectedCost(ProfileOf(pool, id).price, pool.hint.inputTokens, pool.hint.outputTokens, ErrorRate(pool, id))
         == ListPrice(pool, id) * (1.0 + FailureShare(pool, id))
  {
    var estimate := EstimateCost(ProfileOf(pool, id).price, pool.hint.inputTokens, pool.hint.outputTokens);
    assert ListPrice(pool, id) == estimate * 1.0;
    assert Surcharge(ErrorRate(pool, id)) == 1.0 + FailureShare(pool, id);
  }

  function CountBelow(costs: seq<real>, x: real): nat {
    if costs == [] then 0 else (if costs[0] < x then 1 else 0) + CountBelow(costs[1..], x)
  }

  lemma {:induction false} InsertCountsBelow(x: real, sorted: seq<real>, bound: real)
    ensures CountBelow(Insert(x, sorted), bound) == CountBelow(sorted, bound) + if x < bound then 1 else 0
  {
    if sorted != [] && x > sorted[0] {
      InsertCountsBelow(x, sorted[1..], bound);
      assert ([sorted[0]] + Insert(x, sorted[1..]))[1..] == Insert(x, sorted[1..]);
    } else {
      assert ([x] + sorted)[1..] == sorted;
    }
  }

  lemma {:induction false} SortingKeepsBelow(costs: seq<real>, bound: real)
    ensures CountBelow(Sorted(costs), bound) == CountBelow(costs, bound)
  {
    if costs != [] {
      SortingKeepsBelow(costs[1..], bound);
      InsertCountsBelow(costs[0], Sorted(costs[1..]), bound);
    }
  }

  lemma {:induction false} FewBelow(s: seq<real>, k: nat, bound: real)
    requires k <= |s| && forall i | k <= i < |s| :: s[i] >= bound
    ensures CountBelow(s, bound) <= k
  {
    if s != [] {
      FewBelow(s[1..], if k > 0 then k - 1 else 0, bound);
    }
  }

  lemma SortedMiddle(sorted: seq<real>, k: nat)
    requires Ascending(sorted) && k < |sorted|
    ensures CountBelow(sorted, sorted[k]) <= k
  {
    FewBelow(sorted, k, sorted[k]);
  }

  /** The median is the upper middle: at most half of the costs lie below it, and more than half are at most it. */
  lemma MedianIsUpperMiddle(costs: seq<real>)
    requires costs != []
    ensures CountBelow(costs, Median(costs).value) <= |costs| / 2
    ensures CountAtMost(costs, Median(costs).value) >= |costs| / 2 + 1
  {
    MedianCoversHalf(costs);
    SortedLength(costs);
    var sorted, k := Sorted(costs), |costs| / 2;
    SortingKeepsCounts(costs, sorted[k]);
    SortedMiddle(sorted, k);
    SortingKeepsBelow(costs, sorted[k]);
  }

  // ----- the boost, exactly -----

  /** Strong enough for the request, by the profile on file. */
  ghost predicate StrongEnough(pool: Pool, id: string) {
    var capability := if id in pool.profiles then pool.profiles[id].capability else 0.0;
    if pool.hint.difficulty >= 0.55 then NearStrongest(pool, capability)
    else capability >= 0.35 + 0.55 * Clamp(pool.hint.difficulty, 0.0, 1.0)
  }

  predicate Trusted(pool: Pool, id: string) {
    id in pool.metrics && pool.metrics[id].cacheSamples >= 8
  }

  /** Its cache hits have fallen below 10 percent while another member's are above 50. */
  ghost predicate LostCache(pool: Pool, id: string) {
    && Trusted(pool, id) && pool.metrics[id].cacheHitRatio < 0.10
    && exists m :: m in pool.members && m.endpointId != id && Trusted(pool, m.endpointId)
                   && pool.metrics[m.endpointId].cacheHitRatio > 0.50
  }

  /** The sticky endpoint gets 10,000 on top exactly when it is usable, strong enough and has not lost its cache. */
  lemma BoostedIff(pool: Pool, id: string)
    requires id in SignalsFor(pool, pool.members)
    ensures id in FinalSignals(pool)
    ensures var before, after := SignalsFor(pool, pool.members)[id], FinalSignals(pool)[id];
            after == if && pool.hint.affinityEnabled && pool.hint.sticky == Some(id) && !before.excluded
                        && (pool.strategy == CapabilityAware ==> StrongEnough(pool, id)) && !LostCache(pool, id)
                     then before.(score := Some(before.score.GetOr(0.0) + 10_000.0))
                     else before
  {
    if pool.strategy == CapabilityAware && pool.hint.difficulty >= 0.55 {
      QualifiedWhenHardIff(pool, if id in pool.profiles then pool.profiles[id].capability else 0.0);
    }
    CollapsedIff(pool, id);
  }

  lemma CollapsedIff(pool: Pool, id: string)
    ensures CacheCollapsed(pool, id) <==> LostCache(pool, id)
  {
    if CacheCollapsed(pool, id) {
      var i :| 0 <= i < |pool.members| && pool.members[i].endpointId != id
          && TrustedRatio(pool, pool.members[i].endpointId)
               && pool.metrics[pool.members[i].endpointId].cacheHitRatio > CACHE_HEALTHY_RATIO;
      assert pool.members[i] in pool.members;
    }
    if LostCache(pool, id) {
      var m :| m in pool.members && m.endpointId != id && Trusted(pool, m.endpointId)
               && pool.metrics[m.endpointId].cacheHitRatio > 0.50;
      var i :| 0 <= i < |pool.members| && pool.members[i] == m;
      assert pool.members[i].endpointId != id;
    }
  }

  // ----- pools by load and by connections -----

  /** In a load_aware pool the score of a member with successes on record falls with load, latency and errors. */
  lemma LoadedMemberScoresNoHigher(pool: Pool, light: string, heavy: string)
    requires pool.strategy == LoadAware
    requires light in SignalsFor(pool, pool.members) && heavy in SignalsFor(pool, pool.members)
    requires light in pool.metrics && heavy in pool.metrics
    requires var a, b := pool.metrics[light], pool.metrics[heavy];
             && a.activeRequests <= b.activeRequests && 0.0 < a.successLatency <= b.successLatency
             && FailureShareOf(a) <= FailureShareOf(b)
    ensures var signals := SignalsFor(pool, pool.members);
            && signals[light].score.Some? && signals[heavy].score.Some?
            && signals[heavy].score.value <= signals[light].score.value
  {
    LoadSignal(pool, light);
    LoadSignal(pool, heavy);
    HeavierLoadScoresNoHigher(InputFor(pool, Member(light, 0, 0)), InputFor(pool, Member(heavy, 0, 0)));
  }

  lemma LoadSignal(pool: Pool, id: string)
    requires pool.strategy == LoadAware && id in SignalsFor(pool, pool.members)
    ensures SignalsFor(pool, pool.members)[id].score == Some(LoadScore(InputFor(pool, Member(id, 0, 0))))
  {
    var signals := SignalsFor(pool, pool.members);
    SignalOrigin(pool, pool.members, id);
    var i :| 0 <= i < |pool.members| && pool.members[i].endpointId == id
        && signals[id] == SignalFor(pool, pool.members[i]);
    var x := InputFor(pool, pool.members[i]);
    assert InputFor(pool, Member(id, 0, 0)) == x.(priority := 0, weight := 0);
    LoadScoreIgnoresWeights(x, 0, 0);
  }

  lemma HeavierLoadScoresNoHigher(a: ScoreInput, b: ScoreInput)
    requires a.active <= b.active && 0.0 < a.successLatency <= b.successLatency && a.errorRate <= b.errorRate
    ensures LoadScore(b) <= LoadScore(a)
  {
    var worse := a.(active := b.active, successLatency := b.successLatency, errorRate := b.errorRate);
    MoreLoadNeverScoresHigher(a, b.active, b.successLatency, b.errorRate);
    assert LoadScore(worse) == LoadScore(b);
  }

  function FailureShareOf(m: Metric): real {
    if m.totalRequests > 0 then m.totalErrors as real / m.totalRequests as real else 0.0
  }

  /** Pools whose order the data plane owns have no scores, but one each for sessions with affinity; an endpoint without
      profile counts as of middling strength and unpriced. */
  lemma UnscoredAndUnknown(pool: Pool, m: Member)
    ensures pool.strategy == Unscored ==>
            SignalFor(pool, m).score == if pool.hint.affinityEnabled then Some(1.0) else None
    ensures m.endpointId !in pool.profiles ==>
              && ProfileOf(pool, m.endpointId).capability == 0.5 && !ProfileOf(pool, m.endpointId).price.IsPriced()
              && !ToolsExcluded(pool, m.endpointId) && !BudgetExcluded(pool, m.endpointId)
  {
  }

  // ----- what a pool's scores are made of -----

  /** A member listed twice is scored as it is listed last. */
  lemma {:induction false} LastListingCounts(pool: Pool, members: seq<Member>, i: nat)
    requires i < |members| && forall j | i < j < |members| :: members[j].endpointId != members[i].endpointId
    ensures members[i].endpointId in SignalsFor(pool, members)
    ensures SignalsFor(pool, members)[members[i].endpointId] == SignalFor(pool, members[i])
  {
    var n := |members| - 1;
    if i < n {
      LastListingCounts(pool, members[..n], i);
    }
  }

  /** In a priority pool the score is made of the member's own priority and weight. */
  lemma PriorityPoolScores(pool: Pool, i: nat)
    requires pool.strategy == Priority && i < |pool.members|
    requires forall j | i < j < |pool.members| :: pool.members[j].endpointId != pool.members[i].endpointId
    ensures pool.members[i].endpointId in SignalsFor(pool, pool.members)
    ensures SignalsFor(pool, pool.members)[pool.members[i].endpointId].score
         == Some(pool.members[i].priority as real * 1000.0 + pool.members[i].weight as real)
  {
    LastListingCounts(pool, pool.members, i);
  }

  function ActiveOn(pool: Pool, id: string): nat {
    if id in pool.metrics then pool.metrics[id].activeRequests else 0
  }

  /** In a least_connections pool the member with fewer active requests scores higher. */
  lemma FewerConnectionsScoreHigher(pool: Pool, a: string, b: string)
    requires pool.strategy == LeastConnections
    requires a in SignalsFor(pool, pool.members) && b in SignalsFor(pool, pool.members)
    ensures var signals := SignalsFor(pool, pool.members);
            && signals[a].score.Some? && signals[b].score.Some?
            && (signals[a].score.value > signals[b].score.value <==> ActiveOn(pool, a) < ActiveOn(pool, b))
  {
    SignalOrigin(pool, pool.members, a);
    SignalOrigin(pool, pool.members, b);
    LeastConnectionsOrders(InputFor(pool, Member(a, 0, 0)), InputFor(pool, Member(b, 0, 0)));
  }

  /** What the request is expected to cost on this endpoint, with cached input when sessions stick. */
  function CostOn(pool: Pool, id: string): real {
    EffectiveMarginalCost(ProfileOf(pool, id), pool.hint.inputTokens, pool.hint.outputTokens, FailureShare(pool, id),
                          pool.hint.affinityEnabled)
  }

  lemma CostSignal(pool: Pool, id: string)
    requires pool.strategy == CostAware && id in SignalsFor(pool, pool.members)
    ensures SignalsFor(pool, pool.members)[id].score == Score(CostAware, InputFor(pool, Member(id, 0, 0)))
    ensures Costed(ProfileOf(pool, id)) ==> Cost(InputFor(pool, Member(id, 0, 0))) == CostOn(pool, id)
  {
    SignalOrigin(pool, pool.members, id);
  }

  /** In a cost_aware pool the member that is expected to cost less scores higher. */
  lemma CheaperMemberScoresHigher(pool: Pool, a: string, b: string)
    requires pool.strategy == CostAware && Costed(ProfileOf(pool, a)) && Costed(ProfileOf(pool, b))
    requires a in SignalsFor(pool, pool.members) && b in SignalsFor(pool, pool.members)
    ensures var signals := SignalsFor(pool, pool.members);
            && signals[a].score.Some? && signals[b].score.Some?
            && (signals[a].score.value > signals[b].score.value <==> CostOn(pool, a) < CostOn(pool, b))
  {
    CostSignal(pool, a);
    CostSignal(pool, b);
    CostAwareOrdersByCost(InputFor(pool, Member(a, 0, 0)), InputFor(pool, Member(b, 0, 0)));
  }

  /** In a capability_aware pool the upper tier is within 0.04 of the strongest member on a hard request,
      and at or above
      0.35 + 0.55 d on an easy one of difficulty d. */
  lemma UpperTierIff(pool: Pool, id: string)
    requires pool.strategy == CapabilityAware && 0.0 <= pool.hint.difficulty <= 1.0
    ensures TierOf(pool, id) == 2 <==>
            if pool.hint.difficulty >= 0.55 then NearStrongest(pool, ProfileOf(pool, id).capability)
            else ProfileOf(pool, id).capability >= 0.35 + 0.55 * pool.hint.difficulty
  {
    if pool.hint.difficulty >= 0.55 {
      QualifiedWhenHardIff(pool, ProfileOf(pool, id).capability);
    }
  }
}
