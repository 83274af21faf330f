/** Capability scores of a pool's members, and what a finished request cost. */
module Pricing {
  import opened Common
  import opened Strategy
  import Routing

  const CAPABILITY_SPREAD_MIN := 0.05

  function Abs(x: real): real {
    if x < 0.0 then -x else x
  }

  /** A member's upstream model and the capability an operator gave it. */
  datatype Member = Member(model: string, configured: real)

  ghost predicate Ambiguous(family: string -> real, members: seq<Member>) {
    exists i, j | 0 <= i < j < |members| :: Unseparated(family, members[i], members[j])
  }

  /** Close in the configured score, apart in the family score. */
  predicate Unseparated(family: string -> real, a: Member, b: Member) {
    && Abs(a.configured - b.configured) < CAPABILITY_SPREAD_MIN
    && Abs(family(a.model) - family(b.model)) >= CAPABILITY_SPREAD_MIN
  }

  function Configured(members: seq<Member>): seq<real> {
    seq(|members|, i requires 0 <= i < |members| => members[i].configured)
  }

  function Families(family: string -> real, members: seq<Member>): seq<real> {
    seq(|members|, i requires 0 <= i < |members| => family(members[i].model))
  }

  ghost function Resolve(family: string -> real, members: seq<Member>): seq<real> {
    if Ambiguous(family, members) then Families(family, members) else Configured(members)
  }

  method ResolvePoolCapabilities(family: string -> real, members: seq<Member>) returns (scores: seq<real>)
    ensures scores == Resolve(family, members)
  {
    if |members| < 2 {
      return Configured(members);
    }
    var ambiguous := exists i | 0 <= i < |members| ::
      exists j | i + 1 <= j < |members| :: Unseparated(family, members[i], members[j]);
    return if ambiguous then Families(family, members) else Configured(members);
  }

  /** Resolved scores separate every two members whose families are apart. */
  lemma FamiliesStayApart(family: string -> real, members: seq<Member>, i: nat, j: nat)
    requires i < |members| && j < |members|
    requires Abs(family(members[i].model) - family(members[j].model)) >= CAPABILITY_SPREAD_MIN
    ensures Abs(Resolve(family, members)[i] - Resolve(family, members)[j]) >= CAPABILITY_SPREAD_MIN
  {
  }

  /** On a hard request, members that qualify beside each other come from families of one strength. */
  lemma QualifiedMembersShareAFamilyTier(family: string -> real, members: seq<Member>, i: nat, j: nat,
                                         best: real, difficulty: real)
    requires i < |members| && j < |members| && difficulty >= HARD_TASK_DIFFICULTY
    requires forall k | 0 <= k < |members| :: Resolve(family, members)[k] <= best
    requires CapabilityQualified(Resolve(family, members)[i], difficulty, best)
    requires CapabilityQualified(Resolve(family, members)[j], difficulty, best)
    ensures Abs(family(members[i].model) - family(members[j].model)) < CAPABILITY_SPREAD_MIN
  {
  }

  /** The pool's members are these models, and each is routed with its resolved score. */
  ghost predicate Applied(family: string -> real, members: seq<Member>, pool: Routing.Pool) {
    && |pool.members| == |members|
    && forall i | 0 <= i < |members| ::
         Routing.ProfileOf(pool, pool.members[i].endpointId).capability == Resolve(family, members)[i]
  }

  /**
   Why scores are resolved: where the configured scores cannot tell two strengths apart, hard requests go to a
   member of the strongest family among the usable ones, whatever stickiness and price say.
   */
  lemma AmbiguousPoolRoutesByFamily(family: string -> real, members: seq<Member>, pool: Routing.Pool, best: nat,
      other: nat)
    requires Applied(family, members, pool) && Ambiguous(family, members)
    requires pool.strategy == CapabilityAware && pool.hint.difficulty >= HARD_TASK_DIFFICULTY
    requires best < |members| && other < |members|
    requires var signals := Routing.FinalSignals(pool);
             var b, o := pool.members[best].endpointId, pool.members[other].endpointId;
             && b in signals && o in signals && signals[b].score.Some? && signals[o].score.Some?
             && signals[b].score.value >= signals[o].score.value
    ensures RankOf(family(members[best].model)) >= RankOf(family(members[other].model))
  {
    Routing.BestIsStrongest(pool, pool.members[best].endpointId, pool.members[other].endpointId);
  }

  /** Resolving resolved scores changes nothing. */
  lemma ResolveIsIdempotent(family: string -> real, members: seq<Member>)
    ensures var again := seq(|members|, i requires 0 <= i < |members| =>
              Member(members[i].model, Resolve(family, members)[i]));
            Resolve(family, again) == Resolve(family, members)
  {
  }

  // ----- the bill -----

  /** Cost of a finished request; at most the prompt can have been a cache hit. */
  function CalculateCost(p: UnitPrice, prompt: nat, completion: nat, cacheHits: Option<nat>): Price {
    var hits := if cacheHits.GetOr(0) <= prompt then cacheHits.GetOr(0) else prompt;
    var cachePrice := p.cacheReadPer1m.GetOr(if p.InputPrice() > 0.0 then p.InputPrice() * 0.1 else 0.0);
    PerMillion(prompt - hits) * p.InputPrice() + PerMillion(hits) * cachePrice
        + PerMillion(completion) * p.OutputPrice()
  }

  lemma ShareOfPrice(misses: nat, hits: nat, price: real)
    ensures PerMillion(misses) * price == PerMillion(misses + hits) * price - PerMillion(hits) * price
  {
  }

  /** Every hit saves exactly the difference of the two prices, so hits never cost extra unless
      cached input is dearer. */
  lemma HitsSaveThePriceDifference(p: UnitPrice, prompt: nat, completion: nat, hits: nat)
    ensures var counted := if hits <= prompt then hits else prompt;
            var cachePrice := p.cacheReadPer1m.GetOr(p.InputPrice() * 0.1);
            var saved := EstimateCost(p, prompt, completion) - CalculateCost(p, prompt, completion, Some(hits));
            && saved == PerMillion(counted) * p.InputPrice() - PerMillion(counted) * cachePrice
            && (saved < 0.0 <==> counted > 0 && cachePrice > p.InputPrice())
  {
    var counted := if hits <= prompt then hits else prompt;
    var cachePrice := p.cacheReadPer1m.GetOr(p.InputPrice() * 0.1);
    ShareOfPrice(prompt - counted, counted, p.InputPrice());
    var share, gap := PerMillion(counted), p.InputPrice() - cachePrice;
    assert share * p.InputPrice() - share * cachePrice == share * gap;
    assert counted > 0 ==> share > 0.0;
    if counted > 0 {
      SignOfProduct(share, gap);
    }
    assert EstimateCost(p, prompt, completion) - CalculateCost(p, prompt, completion, Some(hits)) == share * gap;
  }

  lemma SignOfProduct(a: real, b: real)
    requires a > 0.0
    ensures a * b < 0.0 <==> b < 0.0
  {
    if b >= 0.0 {
      assert a * b >= 0.0;
    } else {
      assert a * b < 0.0;
    }
  }

  /** The scores are the family scores exactly when two members are less than 0.05 apart in the configured score and at
      least 0.05 apart in the family score, and else the configured ones. */
  lemma ResolvedIff(family: string -> real, members: seq<Member>)
    ensures var apart := exists i, j | 0 <= i < j < |members| ::
                           && -0.05 < members[i].configured - members[j].configured < 0.05
                           && (family(members[i].model) - family(members[j].model) >= 0.05
                               || family(members[j].model) - family(members[i].model) >= 0.05);
            && |Resolve(family, members)| == |members|
            && forall k | 0 <= k < |members| ::
                 Resolve(family, members)[k] == if apart then family(members[k].model) else members[k].configured
  {
    if Ambiguous(family, members) {
      var i, j :| 0 <= i < j < |members| && Unseparated(family, members[i], members[j]);
      assert -0.05 < members[i].configured - members[j].configured < 0.05;
    } else {
      assert forall i, j | 0 <= i < j < |members| :: !Unseparated(family, members[i], members[j]);
    }
  }
}
