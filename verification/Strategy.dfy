/** Endpoint pricing and pool strategy scores. Reals stand for floats; prices are not negative. */
module Strategy {
  import opened Common

  type Price = r: real | r >= 0.0

  datatype UnitPrice = UnitPrice(inputPer1m: Option<Price>, outputPer1m: Option<Price>, cacheReadPer1m: Option<Price>) {
    predicate IsPriced() {
      inputPer1m.Some? || outputPer1m.Some?
    }

    function InputPrice(): Price {
      inputPer1m.GetOr(0.0)
    }

    function OutputPrice(): Price {
      outputPer1m.GetOr(0.0)
    }
  }

  datatype BillingTier = PayAsYouGo | SubscriptionRolling | FreeTier

  datatype QuotaWindow = QuotaWindow(utilization: real, resetInSecs: Option<nat>)

  datatype Profile = Profile(
    price: UnitPrice,
    capability: real,
    family: real,
    supportsTools: Option<bool>,
    billing: BillingTier,
    quota: Option<QuotaWindow>)

  /** Canonical pool strategies; `Unscored` covers those whose order the data plane owns. */
  datatype PoolStrategy = Priority | LeastConnections | LoadAware | CostAware | CapabilityAware | Unscored

  datatype ScoreInput = ScoreInput(
    priority: int,
    weight: int,
    profile: Profile,
    active: nat,
    successLatency: real,
    allLatency: real,
    errorRate: real,
    inputTokens: nat,
    outputTokens: nat,
    difficulty: real,
    maxPoolCapability: real,
    agentic: bool)

  const UNPRICED_SCORE := 0.000000000001
  const CAPABILITY_TIER_SCALE := 1_000_000_000.0
  const CAPABILITY_RANK_SCALE := 1_000_000.0
  const FAMILY_RANK_SCALE := 1_000.0
  const COST_TERM_MAX := 999.0
  const HARD_TASK_DIFFICULTY := 0.55
  const CAPABILITY_TOP_TOLERANCE := 0.04

  /** The largest finite double. */
  const F64_MAX := (Pow2(1024) - Pow2(971)) as real

  function Clamp(x: real, lo: real, hi: real): real {
    if x < lo then lo else if x > hi then hi else x
  }

  function MinReal(x: real, y: real): real {
    if x <= y then x else y
  }

  function MaxReal(x: real, y: real): real {
    if x >= y then x else y
  }

  function PerMillion(tokens: nat): Price {
    tokens as real / 1_000_000.0
  }

  function EstimateCost(p: UnitPrice, input: nat, output: nat): Price {
    PerMillion(input) * p.InputPrice() + PerMillion(output) * p.OutputPrice()
  }

  function Surcharge(errorRate: real): real {
    1.0 + Clamp(errorRate, 0.0, 0.95)
  }

  function ExpectedCost(p: UnitPrice, input: nat, output: nat, errorRate: real): real {
    if p.IsPriced() then EstimateCost(p, input, output) * Surcharge(errorRate) else F64_MAX / 8.0
  }

  function ExpectedAgenticCost(p: UnitPrice, input: nat, output: nat, errorRate: real): real {
    if !p.IsPriced() then F64_MAX / 8.0
    else
      var cached: nat := 7 * input / 10;
      var cachePrice := p.cacheReadPer1m.GetOr(p.InputPrice() * 0.1);
      (PerMillion(input - cached) * p.InputPrice() + PerMillion(cached) * cachePrice
       + PerMillion(output) * p.OutputPrice()) * Surcharge(errorRate)
  }

  /** Discount on a subscription that is little used and about to reset. */
  function Urgency(utilization: real, resetInSecs: Option<nat>): real {
    if utilization < 0.50 && resetInSecs.Some? && resetInSecs.value <= 3600 then
      Clamp(resetInSecs.value as real / 3600.0, 0.2, 1.0)
    else 1.0
  }

  /** Conservation penalty from 80 percent utilization on. */
  function Watermark(utilization: real): real {
    if utilization >= 0.80 then
      var excess := (utilization - 0.80) / 0.15;
      1.0 + 10.0 * excess * excess
    else 1.0
  }

  function SubscriptionCost(base: real, quota: Option<QuotaWindow>): real {
    var u := if quota.Some? then Clamp(quota.value.utilization, 0.0, 1.0) else 0.0;
    var urgency := if quota.Some? then Urgency(u, quota.value.resetInSecs) else 1.0;
    MaxReal(base * 0.01 * Watermark(u) * urgency, 0.000000001)
  }

  function EffectiveMarginalCost(p: Profile, input: nat, output: nat, errorRate: real, agentic: bool): real {
    var base := if agentic then ExpectedAgenticCost(p.price, input, output, errorRate)
        else ExpectedCost(p.price, input, output, errorRate);
    match p.billing
    case FreeTier => 0.000001 * Surcharge(errorRate)
    case SubscriptionRolling => SubscriptionCost(base, p.quota)
    case PayAsYouGo => base
  }

  function RequiredCapability(difficulty: real): real {
    0.35 + 0.55 * Clamp(difficulty, 0.0, 1.0)
  }

  predicate CapabilityQualified(capability: real, difficulty: real, maxPoolCapability: real) {
    if difficulty >= HARD_TASK_DIFFICULTY then capability >= maxPoolCapability - CAPABILITY_TOP_TOLERANCE
    else capability >= RequiredCapability(difficulty)
  }

  /** Counts as priced for scoring. */
  predicate Costed(p: Profile) {
    p.price.IsPriced() || p.billing == FreeTier
  }

  lemma CostIsNonNegative(p: Profile, input: nat, output: nat, errorRate: real, agentic: bool)
    requires Costed(p)
    ensures EffectiveMarginalCost(p, input, output, errorRate, agentic) >= 0.0
  {
    if p.price.IsPriced() {
      ExpectedCostIsNonNegative(p.price, input, output, errorRate);
      AgenticCostIsNonNegative(p.price, input, output, errorRate);
    }
  }

  lemma ExpectedCostIsNonNegative(p: UnitPrice, input: nat, output: nat, errorRate: real)
    requires p.IsPriced()
    ensures ExpectedCost(p, input, output, errorRate) >= 0.0
  {
  }

  lemma AgenticCostIsNonNegative(p: UnitPrice, input: nat, output: nat, errorRate: real)
    requires p.IsPriced()
    ensures ExpectedAgenticCost(p, input, output, errorRate) >= 0.0
  {
    var cached: nat := 7 * input / 10;
    var cachePrice: Price := p.cacheReadPer1m.GetOr(p.InputPrice() * 0.1);
    MulGrows(0.0, PerMillion(input - cached), 0.0, p.InputPrice());
    MulGrows(0.0, PerMillion(cached), 0.0, cachePrice);
    MulGrows(0.0, PerMillion(output), 0.0, p.OutputPrice());
    var sum := PerMillion(input - cached) * p.InputPrice() + PerMillion(cached) * cachePrice
        + PerMillion(output) * p.OutputPrice();
    MulGrows(0.0, sum, 0.0, Surcharge(errorRate));
  }

  function Cost(i: ScoreInput): (c: real)
    requires Costed(i.profile)
    ensures c >= 0.0
  {
    CostIsNonNegative(i.profile, i.inputTokens, i.outputTokens, Clamp(i.errorRate, 0.0, 0.95), i.agentic);
    EffectiveMarginalCost(i.profile, i.inputTokens, i.outputTokens, Clamp(i.errorRate, 0.0, 0.95), i.agentic)
  }

  /** Rounds a score in hundredths, half up. */
  function RankOf(x: real): nat {
    (Clamp(x, 0.0, 1.0) * 100.0 + 0.5).Floor
  }

  function Tier(i: ScoreInput): nat {
    if CapabilityQualified(i.profile.capability, i.difficulty, i.maxPoolCapability) then 2
    else if i.profile.capability >= RequiredCapability(i.difficulty) - 0.10 then 1
    else 0
  }

  function CostTerm(i: ScoreInput): real {
    if Costed(i.profile) then Clamp(1.0 / (Cost(i) + 0.000001), 0.0, COST_TERM_MAX) else UNPRICED_SCORE
  }

  /** The cost an easy request divides by, if there is one. */
  function CostBase(i: ScoreInput): Option<real> {
    if Costed(i.profile) then Some(Cost(i) + 0.000000000001) else None
  }

  /** Cheaper is better. */
  function CostScore(base: Option<real>): real
    requires base.Some? ==> base.value > 0.0
  {
    match base case Some(c) => 1.0 / c case None => UNPRICED_SCORE
  }

  /** The same up to a ceiling a million below one tier. */
  function Cheapness(base: Option<real>): real
    requires base.Some? ==> base.value > 0.0
  {
    MinReal(CostScore(base), 999_000_000.0)
  }

  function CheapScore(i: ScoreInput): real {
    Cheapness(CostBase(i))
  }

  function CapabilityScore(i: ScoreInput): real {
    if i.difficulty >= HARD_TASK_DIFFICULTY then
      Tier(i) as real * CAPABILITY_TIER_SCALE + RankOf(i.profile.capability) as real * CAPABILITY_RANK_SCALE
      + RankOf(i.profile.family) as real * FAMILY_RANK_SCALE + CostTerm(i)
    else
      Tier(i) as real * CAPABILITY_TIER_SCALE + CheapScore(i) + Clamp(i.profile.capability, 0.0, 1.0) * 10.0
  }

  function LoadScore(i: ScoreInput): real {
    var latency :=
      if i.successLatency > 0.0 then i.successLatency else if i.allLatency > 0.0 then i.allLatency else 0.0;
    (if latency > 0.0 then 1000.0 / latency else 1.0) * (1.0 / (1.0 + i.active as real))
    * MaxReal(1.0 - 0.5 * Clamp(i.errorRate, 0.0, 0.95), 0.1)
  }

  /** Higher is preferred. */
  function Score(strategy: PoolStrategy, i: ScoreInput): Option<real> {
    match strategy
    case Priority => Some(i.priority as real * 1_000.0 + i.weight as real)
    case LeastConnections => Some(1.0 / (1.0 + i.active as real))
    case LoadAware => Some(LoadScore(i))
    case CostAware => Some(CostScore(CostBase(i)))
    case CapabilityAware => Some(CapabilityScore(i))
    case Unscored => None
  }

  /** Priority and weight play no part in the capability score. */
  lemma CapabilityScoreIgnoresWeights(i: ScoreInput, priority: int, weight: int)
    ensures CapabilityScore(i.(priority := priority, weight := weight)) == CapabilityScore(i)
  {
  }

  // ----- one number, four keys -----

  lemma RankBounds(x: real)
    ensures RankOf(x) <= 100
  {
  }

  lemma CostTermBounds(i: ScoreInput)
    ensures 0.0 <= CostTerm(i) <= COST_TERM_MAX
  {
  }

  /** First tier, then rounded capability, then rounded family, then cost. */
  predicate LexGreater(a: ScoreInput, b: ScoreInput) {
    || Tier(a) > Tier(b)
    || (Tier(a) == Tier(b) && RankOf(a.profile.capability) > RankOf(b.profile.capability))
    || (Tier(a) == Tier(b) && RankOf(a.profile.capability) == RankOf(b.profile.capability)
        && RankOf(a.profile.family) > RankOf(b.profile.family))
    || (Tier(a) == Tier(b) && RankOf(a.profile.capability) == RankOf(b.profile.capability)
        && RankOf(a.profile.family) == RankOf(b.profile.family) && CostTerm(a) > CostTerm(b))
  }

  /** On hard requests the score orders endpoints lexicographically, both ways. */
  lemma HardScoreIsLexicographic(a: ScoreInput, b: ScoreInput)
    requires a.difficulty >= HARD_TASK_DIFFICULTY && b.difficulty >= HARD_TASK_DIFFICULTY
    ensures CapabilityScore(a) > CapabilityScore(b) <==> LexGreater(a, b)
  {
    RankBounds(a.profile.capability);
    RankBounds(b.profile.capability);
    RankBounds(a.profile.family);
    RankBounds(b.profile.family);
    CostTermBounds(a);
    CostTermBounds(b);
    var dt := Tier(a) - Tier(b);
    var dc := RankOf(a.profile.capability) - RankOf(b.profile.capability);
    var df := RankOf(a.profile.family) - RankOf(b.profile.family);
    assert CapabilityScore(a) - CapabilityScore(b)
        == dt as real * CAPABILITY_TIER_SCALE + dc as real * CAPABILITY_RANK_SCALE + df as real * FAMILY_RANK_SCALE
           + CostTerm(a) - CostTerm(b);
  }

  const AFFINITY_BOOST := 10_000.0

  /** At any difficulty, a boosted score stays below every score of a higher tier. */
  lemma BoostStaysInTier(a: ScoreInput, b: ScoreInput)
    requires a.difficulty == b.difficulty && Tier(a) < Tier(b)
    ensures CapabilityScore(a) + AFFINITY_BOOST < CapabilityScore(b)
  {
    RankBounds(a.profile.capability);
    RankBounds(a.profile.family);
    CostTermBounds(a);
    CostTermBounds(b);
    assert Tier(a) as real + 1.0 <= Tier(b) as real;
    assert Costed(b.profile) ==> 1.0 / (Cost(b) + 0.000000000001) > 0.0;
  }

  /**
   Inside a tier on a hard request the boost never makes up for a rounded capability step, always makes
   up for nine family steps, and for ten only against a lower cost term.
   */
  predicate HardStickyWins(sticky: ScoreInput, rival: ScoreInput) {
    var ds := RankOf(rival.profile.capability) - RankOf(sticky.profile.capability);
    var df := RankOf(rival.profile.family) - RankOf(sticky.profile.family);
    ds < 0 || (ds == 0 && (df < 10 || (df == 10 && CostTerm(rival) < CostTerm(sticky))))
  }

  /** The boost, and the small share of capability on easy requests. */
  function Headstart(sticky: ScoreInput, rival: ScoreInput): real {
    AFFINITY_BOOST + 10.0 * (Clamp(sticky.profile.capability, 0.0, 1.0) - Clamp(rival.profile.capability, 0.0, 1.0))
  }

  /** The head start decides against an unpriced rival, and against a priced one that is not much cheaper; an
      unpriced sticky endpoint needs a rival that is dear enough. */
  predicate OutweighsCost(sticky: Option<real>, rival: Option<real>, headstart: real) {
    match (sticky, rival)
    case (_, None) => true
    case (None, Some(y)) => (headstart + UNPRICED_SCORE) * y > 1.0
    case (Some(x), Some(y)) => !MuchCheaper(x, y, headstart)
  }

  /** Inside a tier on an easy request cost decides, unless the sticky endpoint is in reach of the ceiling. */
  predicate WinsOnCost(sticky: Option<real>, rival: Option<real>, headstart: real) {
    OutweighsCost(sticky, rival, headstart) || NearCeiling(sticky, headstart)
  }

  /** A cost y is so far below x that the head start does not make up for it. */
  predicate MuchCheaper(x: real, y: real, headstart: real) {
    y * (1.0 + headstart * x) <= x
  }

  /** When the boosted endpoint wins within its tier, at every difficulty. It does not in general. */
  lemma StickyWinsWithinTierIff(sticky: ScoreInput, rival: ScoreInput)
    requires sticky.difficulty == rival.difficulty && Tier(sticky) == Tier(rival)
    ensures CapabilityScore(sticky) + AFFINITY_BOOST > CapabilityScore(rival) <==>
            if sticky.difficulty >= HARD_TASK_DIFFICULTY then HardStickyWins(sticky, rival)
            else WinsOnCost(CostBase(sticky), CostBase(rival), Headstart(sticky, rival))
  {
    if sticky.difficulty >= HARD_TASK_DIFFICULTY {
      HardStickyWinsIff(sticky, rival);
    } else {
      EasyStickyWinsIff(sticky, rival);
    }
  }

  lemma HardStickyWinsIff(sticky: ScoreInput, rival: ScoreInput)
    requires sticky.difficulty >= HARD_TASK_DIFFICULTY && rival.difficulty >= HARD_TASK_DIFFICULTY
    requires Tier(sticky) == Tier(rival)
    ensures CapabilityScore(sticky) + AFFINITY_BOOST > CapabilityScore(rival) <==> HardStickyWins(sticky, rival)
  {
    RankBounds(sticky.profile.family);
    RankBounds(rival.profile.family);
    CostTermBounds(sticky);
    CostTermBounds(rival);
    var ds := RankOf(rival.profile.capability) - RankOf(sticky.profile.capability);
    var df := RankOf(rival.profile.family) - RankOf(sticky.profile.family);
    assert CapabilityScore(rival) - CapabilityScore(sticky)
        == ds as real * CAPABILITY_RANK_SCALE + df as real * FAMILY_RANK_SCALE + CostTerm(rival) - CostTerm(sticky);
  }

  lemma EasyStickyWinsIff(sticky: ScoreInput, rival: ScoreInput)
    requires sticky.difficulty == rival.difficulty < HARD_TASK_DIFFICULTY && Tier(sticky) == Tier(rival)
    ensures CapabilityScore(sticky) + AFFINITY_BOOST > CapabilityScore(rival) <==>
            WinsOnCost(CostBase(sticky), CostBase(rival), Headstart(sticky, rival))
  {
    EasyScoreGap(sticky, rival);
    WinsOnCostIff(CostBase(sticky), CostBase(rival), Headstart(sticky, rival));
  }

  lemma EasyScoreGap(sticky: ScoreInput, rival: ScoreInput)
    requires sticky.difficulty == rival.difficulty < HARD_TASK_DIFFICULTY && Tier(sticky) == Tier(rival)
    ensures 9_990.0 <= Headstart(sticky, rival) <= 10_010.0
    ensures CapabilityScore(sticky) + AFFINITY_BOOST > CapabilityScore(rival) <==>
            CheapScore(rival) < CheapScore(sticky) + Headstart(sticky, rival)
  {
  }

  lemma WinsOnCostIff(sticky: Option<real>, rival: Option<real>, headstart: real)
    requires (sticky.Some? ==> sticky.value > 0.0) && (rival.Some? ==> rival.value > 0.0)
    requires 9_990.0 <= headstart <= 10_010.0
    ensures Cheapness(rival) < Cheapness(sticky) + headstart <==> WinsOnCost(sticky, rival, headstart)
  {
    OutweighsCostIff(sticky, rival, headstart);
    CeilingDecides(CostScore(sticky), CostScore(rival), headstart, 999_000_000.0);
    NearCeilingIff(sticky, headstart);
  }

  predicate NearCeiling(base: Option<real>, headstart: real) {
    base.Some? && (999_000_000.0 - headstart) * base.value < 1.0
  }

  lemma NearCeilingIff(base: Option<real>, headstart: real)
    requires (base.Some? ==> base.value > 0.0) && headstart <= 10_010.0
    ensures CostScore(base) > 999_000_000.0 - headstart <==> NearCeiling(base, headstart)
  {
    if base.Some? {
      IsReciprocal(base.value);
      ReciprocalOrder(1.0 / base.value, base.value, 999_000_000.0 - headstart);
    }
  }

  lemma CeilingDecides(u: real, v: real, h: real, ceiling: real)
    requires 0.0 < h
    ensures MinReal(v, ceiling) < MinReal(u, ceiling) + h <==> v < u + h || u > ceiling - h
  {
  }

  predicate Reciprocal(v: real, x: real) {
    x > 0.0 && v > 0.0 && v * x == 1.0
  }

  lemma IsReciprocal(x: real)
    requires x > 0.0
    ensures Reciprocal(1.0 / x, x)
  {
  }

  lemma ScaleOrder(a: real, b: real, p: real)
    requires p > 0.0
    ensures a < b <==> a * p < b * p
  {
    Distributes(b, a, p);
    if a < b {
      PositiveProduct(b - a, p);
    } else if a > b {
      Distributes(a, b, p);
      PositiveProduct(a - b, p);
    }
  }

  lemma Distributes(a: real, b: real, p: real)
    ensures (a - b) * p == a * p - b * p
  {
  }

  lemma ReciprocalOrder(v: real, x: real, bound: real)
    requires Reciprocal(v, x)
    ensures v < bound <==> bound * x > 1.0
    ensures v > bound <==> bound * x < 1.0
  {
    var w := bound * x;
    ScaleOrder(v, bound, x);
    ScaleOrder(bound, v, x);
    assert (v < bound <==> v * x < w) && (v > bound <==> v * x > w);
  }

  lemma Gap(u: real, v: real, x: real, y: real, h: real)
    requires Reciprocal(u, x) && Reciprocal(v, y)
    ensures v < u + h <==> !MuchCheaper(x, y, h)
  {
    ReciprocalOrder(v, y, u + h);
    ScaleOrder(1.0, (u + h) * y, x);
    assert ((u + h) * y) * x == y * (u * x + h * x);
  }

  /** The same boost under cost_aware, which has neither tiers nor a ceiling, for priced and unpriced endpoints. */
  lemma StickyWinsCostAwareIff(sticky: ScoreInput, rival: ScoreInput)
    ensures Score(CostAware, sticky).value + AFFINITY_BOOST > Score(CostAware, rival).value <==>
            OutweighsCost(CostBase(sticky), CostBase(rival), AFFINITY_BOOST)
  {
    OutweighsCostIff(CostBase(sticky), CostBase(rival), AFFINITY_BOOST);
  }

  lemma OutweighsCostIff(sticky: Option<real>, rival: Option<real>, headstart: real)
    requires (sticky.Some? ==> sticky.value > 0.0) && (rival.Some? ==> rival.value > 0.0) && headstart >= 1.0
    ensures CostScore(sticky) + headstart > CostScore(rival) <==> OutweighsCost(sticky, rival, headstart)
  {
    if sticky.Some? {
      IsReciprocal(sticky.value);
    }
    match (sticky, rival)
    case (_, None) =>
    case (None, Some(y)) =>
      IsReciprocal(y);
      ReciprocalOrder(1.0 / y, y, headstart + UNPRICED_SCORE);
    case (Some(x), Some(y)) =>
      IsReciprocal(y);
      Gap(1.0 / x, 1.0 / y, x, y, headstart);
  }

  const UNPRICED := UnitPrice(None, None, None)

  function Bare(capability: real): ScoreInput {
    var profile := Profile(UNPRICED, capability, 0.5, None, PayAsYouGo, None);
    ScoreInput(0, 0, profile, 0, 0.0, 0.0, 0.0, 0, 0, 0.6, 0.97, true)
  }

  /** Both within 0.04 of the strongest, hence in the same tier, and the boosted one still loses. */
  lemma StickyCanLoseWithinTier()
    ensures Tier(Bare(0.95)) == Tier(Bare(0.97)) == 2
    ensures CapabilityScore(Bare(0.95)) + AFFINITY_BOOST < CapabilityScore(Bare(0.97))
  {
  }

  /** An easy request of 1,000 input and 512 output tokens. */
  function Easy(price: UnitPrice, billing: BillingTier): ScoreInput {
    ScoreInput(0, 0, Profile(price, 0.9, 0.5, None, billing, None), 0, 0.0, 0.0, 0.0, 1000, 512, 0.2, 0.9, true)
  }

  /** Both qualified; the boosted endpoint at one dollar per million tokens still loses to a free rival. */
  lemma StickyCanLoseOnCost()
    ensures var sticky := Easy(UnitPrice(Some(1.0), Some(1.0), None), PayAsYouGo);
            var rival := Easy(UNPRICED, FreeTier);
            && Tier(sticky) == Tier(rival) == 2
            && Cost(sticky) == 0.000882
            && CapabilityScore(sticky) + AFFINITY_BOOST < CapabilityScore(rival)
  {
    var sticky := Easy(UnitPrice(Some(1.0), Some(1.0), None), PayAsYouGo);
    var rival := Easy(UNPRICED, FreeTier);
    assert PerMillion(300) == 0.0003 && PerMillion(700) == 0.0007 && PerMillion(512) == 0.000512;
    assert Cost(sticky) == 0.000882 && Cost(rival) == 0.000001;
    assert 1.0 / CostBase(sticky).value < 1_200.0;
    assert 1.0 / CostBase(rival).value > 900_000.0;
  }

  // ----- subscription cost -----

  lemma WatermarkGrows(u: real, v: real)
    requires 0.0 <= u <= v <= 1.0
    ensures 1.0 <= Watermark(u) <= Watermark(v)
  {
    if v >= 0.80 {
      var y := (v - 0.80) / 0.15;
      var x := if u >= 0.80 then (u - 0.80) / 0.15 else 0.0;
      MulGrows(x, y, x, y);
      assert 10.0 * x * x == 10.0 * (x * x) && 10.0 * y * y == 10.0 * (y * y);
    }
  }

  lemma UrgencyGrows(u: real, v: real, reset: Option<nat>)
    requires u <= v
    ensures 0.0 < Urgency(u, reset) <= Urgency(v, reset) <= 1.0
  {
  }

  lemma MulGrows(a: real, b: real, c: real, d: real)
    requires 0.0 <= a <= b && 0.0 <= c <= d
    ensures 0.0 <= a * c <= b * d
  {
    assert a * c <= b * c <= b * d;
  }

  /** Across the discount, the flat zone and the quadratic penalty: more use never costs less. */
  lemma SubscriptionCostGrowsWithUse(base: real, u: real, v: real, reset: Option<nat>)
    requires base >= 0.0 && u <= v
    ensures SubscriptionCost(base, Some(QuotaWindow(u, reset))) <= SubscriptionCost(base, Some(QuotaWindow(v, reset)))
  {
    var x, y := Clamp(u, 0.0, 1.0), Clamp(v, 0.0, 1.0);
    WatermarkGrows(x, y);
    UrgencyGrows(x, y, reset);
    MulGrows(base * 0.01, base * 0.01, Watermark(x), Watermark(y));
    MulGrows(base * 0.01 * Watermark(x), base * 0.01 * Watermark(y), Urgency(x, reset), Urgency(y, reset));
  }

  /** Under cost_aware, a less-used subscription never scores lower than the same one more used. */
  lemma LessUsedNeverScoresLower(i: ScoreInput, u: real, v: real, reset: Option<nat>)
    requires i.profile.billing == SubscriptionRolling && u <= v
    ensures var less := i.(profile := i.profile.(quota := Some(QuotaWindow(u, reset))));
            var more := i.(profile := i.profile.(quota := Some(QuotaWindow(v, reset))));
            Score(CostAware, less).value >= Score(CostAware, more).value
  {
    var less := i.(profile := i.profile.(quota := Some(QuotaWindow(u, reset))));
    var more := i.(profile := i.profile.(quota := Some(QuotaWindow(v, reset))));
    if Costed(i.profile) {
      var err := Clamp(i.errorRate, 0.0, 0.95);
      var base := if i.agentic then ExpectedAgenticCost(i.profile.price, i.inputTokens, i.outputTokens, err)
                  else ExpectedCost(i.profile.price, i.inputTokens, i.outputTokens, err);
      CostIsNonNegative(i.profile.(billing := PayAsYouGo), i.inputTokens, i.outputTokens, err, i.agentic);
      SubscriptionCostGrowsWithUse(base, u, v, reset);
      InverseShrinks(Cost(less) + 0.000000000001, Cost(more) + 0.000000000001);
    }
  }

  lemma InverseShrinks(a: real, b: real)
    requires 0.0 < a <= b
    ensures 1.0 / a >= 1.0 / b
  {
  }

  // ----- the other strategies -----

  /** cost_aware ranks by cost alone, and an unpriced endpoint comes last, short of absurd prices. */
  lemma CostAwareOrdersByCost(a: ScoreInput, b: ScoreInput)
    requires Costed(a.profile)
    ensures Costed(b.profile) ==> (Score(CostAware, a).value > Score(CostAware, b).value <==> Cost(a) < Cost(b))
    ensures !Costed(b.profile) ==>
      (Score(CostAware, a).value > Score(CostAware, b).value <==> Cost(a) + 0.000000000001 < 1_000_000_000_000.0)
  {
    var x := Cost(a) + 0.000000000001;
    if Costed(b.profile) {
      InverseOrder(x, Cost(b) + 0.000000000001);
    } else {
      assert 1.0 / 1_000_000_000_000.0 == UNPRICED_SCORE;
      InverseOrder(x, 1_000_000_000_000.0);
    }
  }

  lemma InverseOrder(a: real, b: real)
    requires a > 0.0 && b > 0.0
    ensures 1.0 / a > 1.0 / b <==> a < b
  {
    if a < b {
      var x, y := 1.0 / a, 1.0 / b;
      assert x > 0.0 && x * a == 1.0 && y * b == 1.0;
      PositiveProduct(x, b - a);
      assert x * b == x * a + x * (b - a);
      if x <= y {
        MulGrows(x, y, b, b);
      }
    } else {
      InverseShrinks(b, a);
    }
  }

  /** load_aware never ranks an endpoint higher for being busier, slower or less reliable. */
  lemma MoreLoadNeverScoresHigher(i: ScoreInput, active: nat, latency: real, errorRate: real)
    requires active >= i.active && 0.0 < i.successLatency <= latency && errorRate >= i.errorRate
    ensures var worse := i.(active := active, successLatency := latency, errorRate := errorRate);
            0.0 < Score(LoadAware, worse).value <= Score(LoadAware, i).value
  {
    var worse := i.(active := active, successLatency := latency, errorRate := errorRate);
    InverseShrinks(1.0 + i.active as real, 1.0 + active as real);
    SpeedShrinks(i.successLatency, latency);
    var s1, s2 := 1000.0 / latency, 1000.0 / i.successLatency;
    var r1, r2 := 1.0 / (1.0 + active as real), 1.0 / (1.0 + i.active as real);
    var q1 := MaxReal(1.0 - 0.5 * Clamp(errorRate, 0.0, 0.95), 0.1);
    var q2 := MaxReal(1.0 - 0.5 * Clamp(i.errorRate, 0.0, 0.95), 0.1);
    TripleGrows(s1, s2, r1, r2, q1, q2);
    assert LoadScore(worse) == s1 * r1 * q1 && LoadScore(i) == s2 * r2 * q2;
  }

  lemma TripleGrows(a: real, b: real, c: real, d: real, e: real, f: real)
    requires 0.0 < a <= b && 0.0 < c <= d && 0.0 < e <= f
    ensures 0.0 < a * c * e <= b * d * f
  {
    PositiveProduct(a, c);
    PositiveProduct(a * c, e);
    MulGrows(a, b, c, d);
    MulGrows(a * c, b * d, e, f);
  }

  lemma SpeedShrinks(a: real, b: real)
    requires 0.0 < a <= b
    ensures 0.0 < 1000.0 / b <= 1000.0 / a
  {
  }

  lemma PositiveProduct(a: real, b: real)
    requires a > 0.0 && b > 0.0
    ensures a * b > 0.0
  {
  }

  lemma LoadScoreIgnoresWeights(i: ScoreInput, priority: int, weight: int)
    ensures LoadScore(i.(priority := priority, weight := weight)) == LoadScore(i)
  {
  }

  /** load_aware looks at the latency of successes, and at that of all attempts only when there was no success. */
  lemma SuccessLatencyDecides(i: ScoreInput, other: real)
    ensures i.successLatency > 0.0 ==> LoadScore(i.(allLatency := other)) == LoadScore(i)
    ensures i.successLatency <= 0.0 && other > 0.0 ==>
              LoadScore(i.(allLatency := other)) == LoadScore(i.(successLatency := other))
  {
  }

  /** priority orders by priority first and by weight second, as long as weights differ by less than a thousand. */
  lemma PriorityOrders(a: ScoreInput, b: ScoreInput)
    requires -1000 < a.weight - b.weight < 1000
    ensures Score(Priority, a).value > Score(Priority, b).value <==>
            a.priority > b.priority || (a.priority == b.priority && a.weight > b.weight)
  {
    assert Score(Priority, a).value - Score(Priority, b).value
        == (a.priority - b.priority) as real * 1_000.0 + (a.weight - b.weight) as real;
  }

  /** least_connections orders by the number of active requests. */
  lemma LeastConnectionsOrders(a: ScoreInput, b: ScoreInput)
    ensures Score(LeastConnections, a).value > Score(LeastConnections, b).value <==> a.active < b.active
    ensures 0.0 < Score(LeastConnections, a).value <= 1.0
  {
    InverseOrder(1.0 + a.active as real, 1.0 + b.active as real);
    IsReciprocal(1.0 + a.active as real);
    InverseShrinks(1.0, 1.0 + a.active as real);
  }

  /** On an easy request of difficulty d the tiers start at 0.35 + 0.55 d and at 0.10 below; on a hard one the upper
      tier starts 0.04 below the strongest member. */
  lemma TierBounds(i: ScoreInput)
    requires 0.0 <= i.difficulty <= 1.0
    ensures i.difficulty < 0.55 ==>
              && (Tier(i) == 2 <==> i.profile.capability >= 0.35 + 0.55 * i.difficulty)
              && (Tier(i) >= 1 <==> i.profile.capability >= 0.25 + 0.55 * i.difficulty)
    ensures i.difficulty >= 0.55 ==> (Tier(i) == 2 <==> i.profile.capability >= i.maxPoolCapability - 0.04)
    ensures Tier(i) == 0 ==> i.profile.capability < 0.25 + 0.55 * i.difficulty
  {
  }

  const DOLLARS := UnitPrice(Some(2.0), Some(10.0), None)

  function Subscribed(quota: Option<QuotaWindow>): Profile {
    Profile(DOLLARS, 0.9, 0.9, None, SubscriptionRolling, quota)
  }

  /** Prices are per million tokens; an expected failure is paid for again, up to 95 percent of the price. */
  lemma CostExamples()
    ensures ExpectedCost(DOLLARS, 1_000_000, 100_000, 0.0) == 3.0
    ensures ExpectedCost(DOLLARS, 1_000_000, 100_000, 0.5) == 4.5
    ensures ExpectedCost(DOLLARS, 1_000_000, 100_000, 2.0) == 5.85
    ensures ExpectedAgenticCost(DOLLARS, 1_000_000, 100_000, 0.0) == 1.74
    ensures ExpectedAgenticCost(DOLLARS.(cacheReadPer1m := Some(1.0)), 1_000_000, 100_000, 0.0) == 2.3
    ensures EffectiveMarginalCost(Subscribed(None).(billing := FreeTier), 1_000_000, 100_000, 0.5, false) == 0.0000015
    ensures EffectiveMarginalCost(Subscribed(None).(billing := PayAsYouGo), 1_000_000, 100_000, 0.5, false) == 4.5
    ensures EffectiveMarginalCost(Subscribed(None), 1_000_000, 100_000, 0.0, false) == 0.03
  {
    assert PerMillion(1_000_000) == 1.0 && PerMillion(100_000) == 0.1 && PerMillion(300_000) == 0.3
        && PerMillion(700_000) == 0.7;
    assert EstimateCost(DOLLARS, 1_000_000, 100_000) == 3.0;
  }

  /** A subscription costs one percent of the price in its flat zone. Little used and soon reset it costs down
      to a fifth of that; above 80 percent of use it costs more, eleven times as much at 95 percent. */
  lemma SubscriptionExamples(base: real)
    requires base >= 1.0
    ensures SubscriptionCost(base, None) == base * 0.01
    ensures SubscriptionCost(base, Some(QuotaWindow(0.6, Some(60)))) == base * 0.01
    ensures SubscriptionCost(base, Some(QuotaWindow(0.2, Some(3601)))) == base * 0.01
    ensures SubscriptionCost(base, Some(QuotaWindow(0.2, None))) == base * 0.01
    ensures SubscriptionCost(base, Some(QuotaWindow(0.2, Some(1800)))) == base * 0.005
    ensures SubscriptionCost(base, Some(QuotaWindow(0.49, Some(60)))) == base * 0.002
    ensures SubscriptionCost(base, Some(QuotaWindow(0.79, None))) == base * 0.01
    ensures SubscriptionCost(base, Some(QuotaWindow(0.95, None))) == base * 0.11
    ensures SubscriptionCost(base, Some(QuotaWindow(0.80, None))) == base * 0.01
  {
    assert Watermark(0.95) == 11.0 && Watermark(0.80) == 1.0 && Watermark(0.79) == 1.0;
    assert Urgency(0.2, Some(1800)) == 0.5 && Urgency(0.49, Some(60)) == 0.2;
  }
}
