/** Failing endpoints and routing: a cooldown that health sets is the one that routing honours. */
module RoutingHealth {
  import opened Common
  import Health
  import opened Routing

  /** The metric that routing reads for this endpoint is the one its attempts have made. */
  predicate Reads(pool: Pool, id: string, h: Health.Metric) {
    && id in pool.metrics
    && pool.metrics[id].cooldownUntil == h.cooldown
    && pool.metrics[id].totalRequests == h.requests && pool.metrics[id].totalErrors == h.errors
  }

  /**
   After three or more failures in a row, the last at t, an endpoint is excluded until t + 30 seconds, and
   from then on not for its health; with fewer it never is.
   */
  lemma FailingEndpointIsExcluded(pool: Pool, id: string, events: seq<Health.Event>)
    requires id in FinalSignals(pool) && Reads(pool, id, Health.After(Health.NEW_METRIC, events))
    ensures var f, t := Health.TrailingFailures(events), Health.LastFailure(events);
            && (f >= 3 ==> t.Some?)
            && (CoolingDown(pool, id) <==> f >= 3 && pool.now < t.value + 30)
            && (f >= 3 && pool.now < t.value + 30 ==> FinalSignals(pool)[id].excluded)
            && (f < 3 || pool.now >= t.value + 30 ==>
                  (FinalSignals(pool)[id].excluded ==>
                      LacksTools(pool, id) || (pool.hint.downshift && OverBudget(pool, id))))
  {
    Health.HealthIsTrailingFailures(Health.NEW_METRIC, events);
    ExcludedIff(pool, id);
  }
}
