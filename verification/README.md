# SmartGate: a verified model

SmartGate is a control plane in front of an LLM gateway. This project models the parts of it that keep
state or do delicate arithmetic, and proves what they guarantee.

| Files | Part |
|---|---|
| WarmScript, WarmDelivery, WarmExpiry, WarmProtocol, WarmBinding, WarmAgreement, WarmConfirm | Warm sessions on Redis: the atomic publish and delete scripts, the binding reader, and any number of interleaved store instances as a transition system |
| WarmMemory, WarmAnswers, WarmDeployments, Namespace | Warm sessions in one process, that deployment compared with the one on Redis, and the tenant namespace encoding |
| Quota, QuotaLaw, QuotaConcurrency, QuotaRace | Request and concurrency limits: the limiter as a class, the law it obeys, its compare-exchange loops under any interleaving, and the gap between checking and recording |
| Text, ContextSlim, SlimCases, SlimBounds | Rewriting oversized tool outputs in a request body |
| Strategy, Routing, RoutingHealth, Pricing | Endpoint scores, the affinity boost, the budget gate and capability resolution |
| Session, Fnv, PrefixHash | The session affinity table and the prefix hash |
| Health | Endpoint health, its moving averages and the row it is written through to |
| Difficulty | The difficulty estimate of a request |
| Common | Option, Result, JSON values, elapsed time |

Code that changes state step by step is modelled by classes and loops; each method is proved against a
specification function, and the guarantees are proved about those functions over all runs. Floats are
real numbers and clocks are parameters.

`dafny verify dfyconfig.toml` checks everything.

## Where the code promises less than its comments

- The affinity boost is said to make the sticky endpoint win within its tier (src/routing/mod.rs:39). On hard
  requests a rival ahead by a capability step or by enough family steps still wins
  (`Strategy.StickyCanLoseWithinTier`), on easy ones a rival that is cheap enough
  (`Strategy.StickyCanLoseOnCost`). `Strategy.StickyWinsWithinTierIff` gives the exact condition at every
  difficulty.
- Prefix and binding of a Warm session are meant to agree on epoch and creation time. A back-fill of the
  epoch that lands late (src/warm/mod.rs:441) breaks this; `WarmAgreement.AgreementCanBreak` is such
  a run and `WarmAgreement.StepBreaksAgreementIff` the exact condition.
- A publish can succeed and return an older prefix than it wrote, when the session is removed before the
  read back; `WarmConfirm.PublishCanReturnOlder` is such a run and `WarmProtocol.PublishReturnsAsNewIff` the
  exact condition.
- The two deployments treat an expired session differently: Redis refuses the publish, the in-memory store
  takes it for a new one; `WarmDeployments.DeploymentsAgreeIff`.
- A caller reads the clock before it checks the request limit, so callers can check out of order and push one
  minute above limit + N - 1; `QuotaRace.MinuteOvershootIsReached` and `QuotaRace.MinuteOvershootIsBounded`.
- The slimming cap is met by ASCII bodies. Text outside ASCII is cut in characters but measured in bytes and can
  exceed it, capped (`SlimBounds.WideTextEscapesCap`) or as a placeholder
  (`SlimBounds.WidePlaceholderEscapesCap`); `SlimBounds.AnyBodyFitsIff` gives the exact condition. Such a body
  can also be slimmed once more the second time (`SlimBounds.WideTextSlimsTwice`), exactly when
  `SlimBounds.CappedBodySettlesIff` says so.
- The retry hint of the rate limit is rounded down to seconds, so waiting for it may not be enough, and
  nothing helps against a limit of zero; `Quota.RetryHintCanFail` and `Quota.RetryHintSufficesIff`.
- Context size alone is said to stay below the high difficulty threshold (src/policy/tokens.rs:245-247). In a
  long conversation with tools and more than 60,000 tokens it does not; `Difficulty.ContextAloneCanBeHard` and
  `Difficulty.PlainTaskIsHardIff`.
- The health row is written after the metric is free again, so two writes can land in reverse and leave the row
  different from memory; `Health.LateRowCanDiffer`, and `Health.RowIsLatestLanded` for what it then shows.
- Sessions share one table. Another session's call can drop an entry that is stale anyway. That shows in two
  ways: in a success recorded after the drop (`Session.LateSuccessSeesOthers`; exactly when, in
  `Session.SessionsAreIndependentIff`), and in a stability check made after it
  (`Session.StabilitySeesOthers`; exactly when, in `Session.StableAnswersAsIfAloneIff`).

## Model

| member | source | states |
|---|---|---|
| WarmScript.RedisSession.RunPublishScript | src/warm/mod.rs:342-380 | The publish script run statement by statement on the two mutable hashes leaves exactly the state and returns exactly the code of the specification function: expiry first, then the Virtual Model conflict, then the epoch rules |
| WarmScript.RedisSession.RunDeleteScript | src/warm/mod.rs:382 | Delete removes both hashes together |
| WarmScript.RejectedPublishChangesNothing | src/warm/mod.rs:353-371 | Every rejected publish (-1, -2, -3) leaves prefix hash and binding hash exactly as they were, on any state, expired or not |
| WarmScript.OnlyNewContentMovesCreation | src/warm/mod.rs:360-373 | An accepted publish on a live session keeps the creation time exactly when it republishes the stored content at the stored epoch |
| WarmExpiry.AnswerFromTimes | src/warm/mod.rs:353-371 | After any history of operations, what the publish script answers, told by the times the content was created and last accessed: a fresh start exactly on a session that is not alive, else the comparison of models, epochs and contents |
| WarmExpiry.ReadFindsIff | src/warm/mod.rs:353 | A read finds the prefix if and only if neither the lifetime since its creation nor the idle time since its last write or touch has run out |
| WarmExpiry.AcceptedIsStored | src/warm/mod.rs:372-379 | After an accepted publish the session holds the published content, bound as asked or as before unless it had expired |
| WarmExpiry.DeltaReadsAliveIff | src/warm/mod.rs:930-940 | In every run a delta goes on past its read exactly while the session is alive, clears an expired one and reports a missing one; it touches exactly a live session, when reads touch |
| WarmExpiry.ExpiredIsCleared | src/warm/mod.rs:706-716 | A client that has found the session expired removes prefix and binding |
| WarmExpiry.OutlivedBindingIsDropped | src/warm/mod.rs:425-434 | A binding is dropped by its reader exactly when it is older than the longest lifetime, and then counts as none |
| WarmDelivery.Assemble | src/warm/mod.rs:924-981 | A successful assembly implies that epoch, tail start and, if sent, prefix hash match the snapshot, and yields the snapshot messages followed by the tail |
| WarmDelivery.DeltaMatchesFullDelivery | src/warm/mod.rs:943-980 | Delta delivery reproduces the full transcript if and only if the stored prefix is what the client left out; a client that sends the hash of what it left out can only be wrong by a hash collision |
| WarmProtocol.DeltaIsPrefixPlusTail | src/warm/mod.rs:924-981 | For every run of any number of clients with removals at any point: a successful delta at epoch e is P ++ tail, where P is the message list of the one publish that created or replaced the prefix at epoch e since the last removal, and tail start is the length of P |
| WarmProtocol.DeltaSendsWhatWasPublished | src/warm/mod.rs:924-981 | Over every run: a delta that succeeds at the epoch of a logged publish, with no removal since, yields that publish's messages and the tail, hence the client's transcript exactly when it had published the rest of it |
| WarmProtocol.PublishReturnsAsNewIff | src/warm/mod.rs:840-851 | Over every run a successful publish returns the prefix stored when it reads back or, when none is, the one read before the script; the result is as new as the one written if and only if nothing was removed since, or what is stored by then, failing that the earlier prefix, is as new |
| WarmConfirm.PublishCanReturnOlder | src/warm/mod.rs:840-851 | A run in which publishing epoch 2 succeeds and returns epoch 1, since the session was deleted before the read back |
| WarmProtocol.PrefixEpochIsMonotone | src/warm/mod.rs:359-376 | Between any two points of any run without a removal in between, the stored epoch never decreases and one epoch has one content |
| WarmProtocol.BoundModelNeverChanges | src/warm/mod.rs:357-379 | In every interleaving the Virtual Model of a bound session stays the same as long as its binding key lives, whatever stale read a publishing client acts on |
| WarmBinding.BoundSessionRefusesOtherModel | src/warm/mod.rs:728-743 | In every interleaving a delta that names another Virtual Model than the one bound is never assembled while the session is neither removed nor unbound |
| WarmBinding.AssembledDeltaMetItsModel | src/warm/mod.rs:924-941 | In every run an assembled delta that named a model has met, after its start, a session without a model, with that model, or no session |
| WarmBinding.ReaderKeepsToItsEpoch | src/warm/mod.rs:435-450 | A reader back-fills the epoch of the session it has read, only into a binding without one; a delta whose binding has another epoch is refused |
| WarmProtocol.OneWriterPerEpoch | src/warm/mod.rs:359-376 | Since the last removal at most one publish created or replaced the prefix at a given epoch |
| WarmProtocol.RunKeepsInvariant | src/warm/mod.rs:410-460 | Invariant of all runs: the log is coherent, the stored hash is what the log says, and every client in flight holds a snapshot that was current when it read it |
| WarmProtocol.CurrentHasWriter | src/warm/mod.rs:359-376 | The prefix that is alive was created or replaced by one logged publish and only republished since |
| WarmAgreement.BindingsAreComplete | src/warm/mod.rs:374-379 | A bound Virtual Model always carries an epoch and a creation time, in every run |
| WarmAgreement.StepBreaksAgreementIff | src/warm/mod.rs:435-443 | From a state where prefix and binding agree on epoch and creation time, a step breaks agreement if and only if it is an epoch back-fill into a bound binding whose session is at another epoch |
| WarmAgreement.AgreementWithoutLateFill | src/warm/mod.rs:353-380 | Prefix and binding agree on epoch and creation time in every run in which no back-fill lands after another client supplied the epoch |
| WarmAgreement.AgreementCanBreak | src/warm/mod.rs:435-443 | A concrete run of five clients after which the model is bound at epoch 2 while its binding says epoch 1 |
| WarmMemory.WarmStore.Publish | src/warm/mod.rs:745-851 | The in-memory publish, statement by statement, does to its session what the slot specification says and leaves every other session alone |
| WarmMemory.WarmStore.AssembleDelta | src/warm/mod.rs:924-981 | The in-memory delta path answers as the slot specification says, unbinds an expired session, and leaves other sessions alone |
| WarmMemory.WarmStore.Get | src/warm/mod.rs:853-866 | Reading touches a live prefix, reports its model, and unbinds a session that is gone |
| WarmMemory.WarmStore.Delete | src/warm/mod.rs:868-877 | Delete removes the prefix and the binding of one session only |
| WarmMemory.WarmStore.PurgeExpired | src/warm/mod.rs:880-922 | The cleaner removes every expired prefix and every binding whose session can no longer be read, keeps the rest, and returns the number of prefixes removed |
| WarmMemory.ModelMovesOnlyThroughUnbound | src/warm/mod.rs:765-837 | Over any sequence of in-memory calls the bound model never changes without the session being unbound in between |
| WarmMemory.AnchoredAlways | src/warm/mod.rs:745-922 | Over any sequence of in-memory calls a binding always has a stored prefix beside it |
| WarmMemory.MemoryPublishMatchesScriptIff | src/warm/mod.rs:765-837 | In-memory publish and the bare publish script give the same answer and the same session, except if and only if the session has expired and the publish names another Virtual Model |
| WarmDeployments.DeploymentsAgreeIff | src/warm/mod.rs:745-851 | A publish of a lone client on Redis, binding lookup included, and the in-memory publish give the same answer and the same session if and only if the request is invalid or the session has not expired; on an expired one Redis refuses and changes nothing |
| WarmDeployments.DeltaDeploymentsAgree | src/warm/mod.rs:924-981 | A delta of a lone client on Redis, binding lookup included, always has the answer of the in-memory path; they leave the same session unless it has expired, which Redis removes |
| WarmMemory.PublishThenDelta | src/warm/mod.rs:924-981 | After a publish, while the session lives, a delta is assembled to published messages ++ tail if and only if it names that epoch, that length and, if any, that hash |
| WarmBinding.MemoryRefusesOtherModelIff | src/warm/mod.rs:924-941 | In one process a delta is refused for its model if and only if the session is readable and bound to another |
| WarmAnswers.PublishIsRefusedIff | src/warm/mod.rs:753-772 | Exactly when a publish is refused before the session is compared, and with which error |
| WarmAnswers.PublishAnswers | src/warm/mod.rs:773-851 | Exactly when a publish is stale, in conflict or accepted, by epochs, content and times, and what an accepted one returns and leaves |
| WarmAnswers.DeltaIsRefusedIff | src/warm/mod.rs:924-957 | Exactly when a delta finds no session, an expired one, another model, another epoch or another hash |
| WarmAnswers.DeltaAnswers | src/warm/mod.rs:958-981 | Exactly when its tail start or one of the size limits refuses it, and what it yields otherwise |
| WarmAnswers.DeltaLeaves | src/warm/mod.rs:930-938 | A delta touches a live session, forgets the model of an expired one and changes nothing else |
| WarmAnswers.GetAnswers | src/warm/mod.rs:853-866 | Reading answers exactly for a live session, with its content and model, and forgets the model of any other |
| WarmAnswers.PurgeKeepsAlive | src/warm/mod.rs:880-922 | The cleaner empties exactly the sessions that are not alive |
| Namespace.DecodeInvertsRender | src/warm/mod.rs:984-997 | A decoder recovers project id and key id from every rendered namespace, whatever colons and digits they contain |
| Namespace.RenderExample | src/warm/mod.rs:984-997 | The namespace of project "p:1" and key "k", byte for byte |
| Namespace.TenantsNeverShareSessions | src/warm/mod.rs:984-997 | Two sessions have the same store key if and only if project, API key and session id are all equal |
| Quota.QuotaLimiter.TryAcquire | src/quota/mod.rs:96-161 | One admission, statement by statement, has exactly the outcome and the new state of the specification: windows checked in order, project slot before key slot, record last |
| Quota.QuotaLimiter.ReserveSlots | src/quota/mod.rs:130-150 | A refused key slot gives the project slot back, so both counters move together or not at all |
| Quota.ReleaseUndoesAcquireIff | src/quota/mod.rs:129-168 | Releasing an admitted call restores every count if and only if each of its scopes is limited or was not counted before |
| Quota.PruneWindow | src/quota/mod.rs:269-276 | The pruning loop drops exactly the leading events that are a minute old or older |
| Quota.AgreesWithFullHistory | src/quota/mod.rs:170-231 | For every run on a non-decreasing clock, pruning and idle eviction never change a verdict or a retry hint compared with a limiter that keeps the full admission history |
| Quota.RejectionConsumesNothing | src/quota/mod.rs:96-161 | After a rejected call all later verdicts are those of a run without that call |
| Quota.SlidingWindowHolds | src/quota/mod.rs:103-160 | No half-open 60-second interval contains more than the limit of admissions of a scope, for projects and keys, in any sequential run |
| QuotaLaw.AdmissionLaw | src/quota/mod.rs:96-161 | In every sequential run with fixed limits a call is admitted if and only if both scopes had fewer admissions in the last 60 seconds and have fewer calls in flight than their limits; otherwise exactly which refusal it gets |
| QuotaLaw.SlotsAreInFlight | src/quota/mod.rs:130-168 | In every such run a limited scope's counter is the number of its calls in flight and never exceeds the limit |
| QuotaLaw.FlightIsAdmittedLessReleased | src/quota/mod.rs:130-168 | Calls in flight are admissions less releases, when no release comes without a call in flight |
| QuotaLaw.EvictedIff | src/quota/mod.rs:183-221 | A check forgets a scope if and only if its window is empty and its last use is at least 600 seconds ago |
| Quota.RetryHintSufficesIff | src/quota/mod.rs:190-201 | After a refusal, waiting for the hint opens the window if and only if the limit is not zero and enough admissions have left by then; with as many admissions as the limit, if and only if the time left is at most a second or a whole number of seconds |
| Quota.RetryVerdict | src/quota/mod.rs:96-127 | A refusal names the hint of its window, and the same call later is refused for the same scope if and only if that window is still full |
| Quota.RetryHintCanFail | src/quota/mod.rs:190-201 | An admission at 0 s under a limit of one: refused at 1.5 s with hint 58 and refused again at 59.5 s; a limit of zero is refused with hint one for ever |
| Quota.WindowsStayInOrder | src/quota/mod.rs:223-231 | In every run on a non-decreasing clock the stored windows are ascending |
| QuotaConcurrency.CountersAreHolders | src/quota/mod.rs:130-168 | Under every interleaving of loads and compare-exchanges each limited counter equals admitted unreleased requests plus reservations in progress, and never exceeds its limit |
| QuotaConcurrency.RollbackReturnsTheSlot | src/quota/mod.rs:139-143 | The step that ends a rollback lowers the project counter by exactly one and moves nothing else |
| QuotaConcurrency.QuiescentMeansFree | src/quota/mod.rs:163-168 | When every request has been rejected or released, every counter is zero |
| QuotaConcurrency.StepMovesCountersExactly | src/quota/mod.rs:233-266 | Each atomic step of a request moves each counter by exactly the slots that request takes or gives back |
| QuotaConcurrency.AloneReserves | src/quota/mod.rs:130-150 | A request with nobody else around is admitted if and only if both its scopes have room, and leaves the counts as the sequential limiter does |
| QuotaRace.OvershootIsBounded | src/quota/mod.rs:106-158 | With N concurrent callers, recorded admissions plus callers past the check never exceed limit + N - 1 in the stored window, in whatever order they check |
| QuotaRace.MinuteOvershootIsBounded | src/quota/mod.rs:103-158 | With N concurrent callers that read a non-decreasing clock before they check, in any order, no half-open minute holds more than limit + 2 (N - 1) of all admissions ever recorded and callers past the check together |
| QuotaRace.MinuteBoundInOrder | src/quota/mod.rs:103-158 | When the checks come in the order of their times, that bound is limit + N - 1 |
| QuotaRace.MinuteOvershootIsReached | src/quota/mod.rs:103-158 | For every limit and N a run whose first minute holds limit + 2 (N - 1) admissions, so the bound is exact |
| QuotaRace.OvershootIsReached | src/quota/mod.rs:106-158 | For every limit and N a run that stores limit + N - 1 admissions of one minute |
| ContextSlim.SlimToolMessages | src/policy/context.rs:126-213 | The in-place loops over messages and blocks compute the slimmed body and the counters of the specification, and report a change exactly when some body was replaced |
| ContextSlim.SlimIsHomomorphism | src/policy/context.rs:104-213 | Slimming A ++ B is slim(A) ++ slim(B) with added counters, so earlier messages never render differently as history grows |
| ContextSlim.SlimConserves | src/policy/context.rs:142-212 | Tool text left in the output is exactly the original minus the saved count; message count, roles, ids and everything but tool bodies stay the same |
| SlimCases.ToolMessageIsSlimmed | src/policy/context.rs:143-170 | A message with role "tool" has its content slimmed under the id in "tool_call_id", and is counted exactly |
| SlimCases.ToolResultIsSlimmed | src/policy/context.rs:171-203 | In any other message each block of type "tool_result" has its content slimmed under "tool_use_id", and every other block stays |
| SlimCases.OtherMessageStays | src/policy/context.rs:143-174 | A message with another role and without array content stays and counts nothing |
| Text.ArrayText | src/policy/context.rs:49-64 | The text of array content holds the text of each block in order, one space apart, and its size is their sum and the spaces |
| Text.TextlessBlockIsSkipped | src/policy/context.rs:52-60 | A block that is neither a string nor an object with a string under "text" adds nothing |
| Text.DecimalSaysTheNumber | src/policy/context.rs:81-101 | The counts printed in markers and placeholders are written in decimal digits |
| SlimCases.ArrayBodyIsCapped | src/policy/context.rs:152-167 | A body spread over blocks that is over the cap ends at the size of its capped form, if that is shorter |
| SlimCases.LongBlockIsCapped | src/policy/context.rs:175-203 | A tool_result of one block with 1,000 characters under a cap of 800 is left with 763 |
| SlimCases.ClueIsFirstLine | src/policy/context.rs:87-99 | The clue of a placeholder is the first line that is not blank, trimmed and cut after 80 characters |
| SlimCases.CutSizes | src/policy/context.rs:70-71 | The head gets seventy percent of the cap and the tail what is left after 80 |
| SlimBounds.KeptPartsAreExact | src/policy/context.rs:66-83 | The kept head and tail are a true prefix and suffix and the number printed is the byte length of what lies between them |
| SlimBounds.AsciiCapIff | src/policy/context.rs:66-83 | For ASCII a capped body fits the cap if and only if the part not given to the head holds the marker |
| SlimBounds.EveryAsciiBodyFits | src/policy/context.rs:66-122 | With cap at least 228, an ordered placeholder threshold and ids up to 64 bytes, every ASCII body ends within the cap, whether kept, capped or replaced |
| SlimBounds.AnyBodyFitsIff | src/policy/context.rs:66-122 | For every text, id and configuration, kept, capped or replaced: exactly when the body ends within the cap |
| SlimBounds.CappedBodyFitsIff | src/policy/context.rs:66-83 | A capped body of any text fits if and only if head and tail do not meet and their wide characters leave room for the digits; the room is 40 bytes from a cap of 267 on |
| SlimBounds.MostlyAsciiFits | src/policy/context.rs:66-83 | Checked before the call: with at most 20 bytes beyond one per character a cap of 267 or more always holds |
| SlimBounds.PlaceholderFits | src/policy/context.rs:86-118 | Checked before the call: with ids up to 64 bytes no placeholder is over a cap of 468, whatever the text, nor over 228 for ASCII |
| SlimBounds.WidePlaceholderEscapesCap | src/policy/context.rs:86-118 | A 1200-byte line whose placeholder has 309 bytes under a cap of 256 |
| SlimBounds.WideTextEscapesCap | src/policy/context.rs:66-83 | A 900-byte body of three-byte characters that a cap of 800 leaves unchanged |
| SlimBounds.SlimIsIdempotent | src/policy/context.rs:126-213 | Slimming twice equals slimming once, with nothing counted the second time |
| SlimBounds.SlimIsIdempotentIff | src/policy/context.rs:126-213 | For any messages and configuration slimming twice equals slimming once if and only if every tool body settles |
| SlimBounds.CappedBodySettlesIff | src/policy/context.rs:66-83 | A body of any text below the placeholder threshold settles if and only if it is left alone, or its capped form fits the cap, or fewer than 100 bytes were omitted |
| SlimBounds.BodyIsFixedIff | src/policy/context.rs:66-122 | Exactly when a body of any text is left as it is, in bytes |
| SlimBounds.WideTextSlimsTwice | src/policy/context.rs:66-83 | A 3,000-byte body that the first slimming leaves at 2,203 bytes and the second changes again |
| Strategy.HardScoreIsLexicographic | src/routing/strategy.rs:142-170 | On hard requests the one-number score orders endpoints lexicographically by tier, rounded capability, rounded family and cost, in both directions |
| Strategy.BoostStaysInTier | src/routing/strategy.rs:208-253 | At any difficulty a score plus the affinity boost stays below every score of a higher tier |
| Strategy.StickyWinsWithinTierIff | src/routing/mod.rs:39-40 | At every difficulty, exactly when the boosted endpoint wins within its tier: on hard requests not across a capability step and at most across ten family steps, on easy ones unless the rival is cheaper by more than the head start and the own cost is not at the ceiling |
| Strategy.StickyCanLoseWithinTier | src/routing/mod.rs:39-40 | Two endpoints of one tier where the boosted one still loses, against the comment on the constant |
| Strategy.StickyCanLoseOnCost | src/routing/mod.rs:39-40 | An easy request where the boosted endpoint loses to a free one of its tier |
| Strategy.StickyWinsCostAwareIff | src/routing/mod.rs:298-304 | Under cost_aware, for priced and unpriced endpoints, the boosted one wins exactly when the rival is unpriced or not cheaper by more than the boost; an unpriced one only against a rival that is dear enough |
| Strategy.SubscriptionCostGrowsWithUse | src/routing/strategy.rs:89-140 | Effective subscription cost never falls as utilization rises, across urgency discount, flat zone and quadratic watermark |
| Strategy.LessUsedNeverScoresLower | src/routing/strategy.rs:199-207 | Under cost_aware a less used subscription never scores below the same one more used |
| Strategy.CostAwareOrdersByCost | src/routing/strategy.rs:199-207 | cost_aware ranks priced endpoints exactly by cost, and above unpriced ones exactly while the cost is below 10^12 |
| Strategy.MoreLoadNeverScoresHigher | src/routing/strategy.rs:187-198 | load_aware never ranks an endpoint higher for more active requests, a higher latency or a higher error rate |
| Strategy.SuccessLatencyDecides | src/routing/strategy.rs:188-194 | load_aware looks at the latency of all attempts only when there was no success |
| Strategy.PriorityOrders | src/routing/strategy.rs:185 | priority orders by priority and then by weight, for weights less than a thousand apart |
| Strategy.LeastConnectionsOrders | src/routing/strategy.rs:186 | least_connections orders by active requests alone |
| Strategy.TierBounds | src/routing/strategy.rs:155-170 | Where the two tiers of easy requests and the upper tier of hard ones start |
| Strategy.CostExamples | src/routing/strategy.rs:51-102 | Prices, retries, cached input, free and subscribed endpoints in numbers |
| Strategy.SubscriptionExamples | src/routing/strategy.rs:103-140 | The flat zone, the discount and the watermark in numbers, for every base price of at least one |
| Routing.Evaluate | src/routing/mod.rs:146-306 | The evaluation loop with its in-place boost computes the signals of the specification for every pool |
| Routing.ExcludedIff | src/routing/mod.rs:168-224 | An endpoint is excluded if and only if it cools down, lacks required tools, or its list price with expected retries is more than five percent above the median under downshift and it is not spared as one of the strongest on a hard request |
| Routing.UnscoredAndUnknown | src/routing/mod.rs:200-245 | Scores of pools ordered by the data plane, and what an endpoint without profile counts as |
| RoutingHealth.FailingEndpointIsExcluded | src/routing/mod.rs:169-182 | After three or more failures in a row, the last at t, an endpoint is excluded until t + 30 seconds, and from then on not for its health |
| Routing.BoostedIff | src/routing/mod.rs:267-306 | The sticky endpoint gets 10,000 if and only if it is usable, strong enough for the request and has not lost its cache to another member |
| Routing.LoadedMemberScoresNoHigher | src/routing/mod.rs:226-241 | In a load_aware pool a member with more load, latency and errors never scores higher |
| Routing.CheaperMemberScoresHigher | src/routing/mod.rs:226-241 | In a cost_aware pool the member expected to cost less for this request scores higher, with cached input when sessions stick |
| Routing.PriorityPoolScores | src/routing/mod.rs:226-241 | In a priority pool the score is made of the member's own priority and weight |
| Routing.FewerConnectionsScoreHigher | src/routing/mod.rs:226-241 | In a least_connections pool the member with fewer active requests scores higher |
| Routing.UpperTierIff | src/routing/mod.rs:111-123 | Exactly which members of a capability_aware pool are in the upper tier, on easy and hard requests |
| Routing.LastListingCounts | src/routing/mod.rs:256-264 | A member listed twice has the signal of its last listing |
| Routing.BestIsStrongest | src/routing/mod.rs:226-306 | On hard requests whatever signal is best after the boost has maximal rounded capability among the compared members |
| Routing.BoostNeverCrossesTiers | src/routing/mod.rs:267-306 | At any difficulty the boost never lifts an endpoint to or past one of a higher tier |
| Routing.StickyEndsAheadIff | src/routing/mod.rs:226-306 | For every pool and request, exactly when the boosted sticky endpoint ends ahead of a rival of its tier |
| Routing.MedianCoversHalf | src/routing/mod.rs:146-164 | At least floor(n/2) + 1 of n prices are at most the computed median |
| Routing.MedianIsUpperMiddle | src/routing/mod.rs:146-164 | At most floor(n/2) of n prices lie below the computed median |
| Routing.DownshiftKeepsHalf | src/routing/mod.rs:146-164 | At least floor(n/2) + 1 of the n priced members of a pool cost no more than its median |
| Routing.DownshiftSpares | src/routing/mod.rs:128-224 | None of those with an error rate of at most 5 percent, no unpriced member and no protected member is budget-excluded, and then only health or tools can exclude it |
| Routing.StrongestIsProtected | src/routing/mod.rs:128-144 | On hard capability_aware requests the strongest member is never budget-excluded |
| Pricing.QualifiedMembersShareAFamilyTier | src/routing/strategy.rs:160-170 | With resolved scores, two members that both qualify for a hard request come from families less than 0.05 apart |
| Pricing.ResolvedIff | src/pricing/mod.rs:182-202 | Exactly when the family scores replace the configured ones, with the spread of 0.05 in numbers |
| Pricing.AmbiguousPoolRoutesByFamily | src/pricing/mod.rs:177-202 | Where configured scores cannot separate two families, hard requests go to a member of the strongest family among the compared ones, after boost and price |
| Pricing.HitsSaveThePriceDifference | src/pricing/mod.rs:49-70 | Cache hits save exactly the difference of the two input prices, capped at the prompt, and cost extra if and only if cached input is dearer |
| Session.SessionTable.PurgeStaleSessions | src/policy/session.rs:183-186 | Every entry idle for its lifetime is dropped and every other kept |
| Session.SessionTable.GetStickyEndpoint | src/policy/session.rs:197-210 | Purges all stale sessions and answers with the sticky endpoint of a session still active |
| Session.SessionTable.NextTurnIndex | src/policy/session.rs:213-237 | Purges, creates a missing entry, counts the turn modulo 2^32 and refreshes it; other sessions change only by the purge |
| Session.SessionTable.RecordSuccessfulRequest | src/policy/session.rs:255-283 | Binds the endpoint only if none is bound; other sessions do not change |
| Session.EntryIsItsOwnHistory | src/policy/session.rs:183-283 | For every run over interleaved sessions, an entry is the summary of its own calls since its creation: n-th turn index n, endpoint of the first success, first hash present; only idleness for a whole lifetime ends it |
| Session.StickyAnswer | src/policy/session.rs:188-210 | In every run the answer is the endpoint of the first success since creation, while neither the lifetime last written nor the one asked for has passed since the last write, and none after |
| Session.TurnAnswer | src/policy/session.rs:213-237 | In every run the next index is one more than the turns since creation, or one when the session starts afresh |
| Session.SessionsAreIndependentIff | src/policy/session.rs:183-283 | For every run over interleaved sessions: a session sees the table all along as if it were alone in it, save an early drop of a stale entry, if and only if every success that comes after such a drop finds a blank entry |
| Session.TimelySuccessIsHarmless | src/policy/session.rs:255-283 | A success recorded while the session's own entry is not stale never comes after such a drop |
| Session.OthersOnlyDropStale | src/policy/session.rs:183-283 | Whenever somebody else's call has dropped a session's entry early, the entry would be stale by now if the session were alone |
| Session.SessionsAnswerAsIfAlone | src/policy/session.rs:197-237 | While a session is explained as alone save an early drop, the sticky endpoint and the turn index answered are those of a table used by it alone |
| Session.LateSuccessAgreesIff | src/policy/session.rs:255-283 | A success on a stale entry gives the same result with and without a drop by somebody else if and only if the entry had no turn and no other endpoint or hash |
| Session.LateSuccessSeesOthers | src/policy/session.rs:255-283 | A run in which another session's read decides which endpoint becomes sticky |
| Session.StableMeansFirstHash | src/policy/session.rs:240-252 | Over any run a stability check compares with the first hash present since the entry was created, and answers only if both are present |
| Session.StableAnswersAsIfAloneIff | src/policy/session.rs:240-252 | The check does not purge: it answers as in a table used alone if and only if nobody has dropped the entry early or the answer would be none anyway; on an entry that is not stale it always does |
| Session.StableAfterOwnTurn | src/api/proxy.rs:445-458 | A check right after the session's own turn answers as if alone, and answers when that turn carried the hash |
| Session.StabilitySeesOthers | src/policy/session.rs:240-252 | A run without any late success in which the check answers none, and would answer yes in a table used alone |
| Fnv.Fnv1a64 | src/policy/session.rs:164-173 | The byte loop computes FNV-1a with 64-bit wrap-around over any bytes |
| Fnv.MixIsInjective | src/policy/session.rs:168-171 | A step is injective in the hash for a fixed byte and in the byte for a fixed hash |
| Fnv.MultiplicationInverts | src/policy/session.rs:166-170 | Multiplying by the prime modulo 2^64 is undone by multiplying with its inverse |
| Fnv.OneByteChangeIsSeen | src/policy/session.rs:164-173 | Two strings of equal length that differ in exactly one byte never hash alike |
| Fnv.TestVectors | src/policy/session.rs:164-173 | The published hashes of the empty string and of "a" |
| PrefixHash.ParseInvertsFormat | src/policy/session.rs:140-147 | A formatted hash at the end of any text is read back, whatever stands before it |
| PrefixHash.ReadsLeniently | src/policy/session.rs:140-147 | White space around up to sixteen hex digits and a marker in front of them do not count |
| PrefixHash.FormatIsInjective | src/policy/session.rs:285-287 | Different hashes have different texts |
| PrefixHash.BadCutIff | src/policy/session.rs:140-147 | Reading a hash cuts inside a character if and only if the stripped text is longer than 16 bytes and none of its tails has exactly 16 |
| PrefixHash.AsciiIsCutWell | src/policy/session.rs:140-147 | ASCII text, all that a header can hold, is never cut inside a character |
| PrefixHash.WideTextIsCutBadly | src/policy/session.rs:128-147 | Six three-byte characters, as the JSON field can hold them, are |
| Health.EndpointMetric.RecordAttempt | src/usage/mod.rs:17-60 | Folding one attempt changes the fields as specified and returns whether health changed |
| Health.HealthHooks.OnAttemptFinished | src/usage/mod.rs:86-116 | The row is written exactly when the attempt changed health |
| Health.HealthHooks.SeedFromRow | src/sync/mod.rs:76-87 | A starting process takes the status and a cooldown that has not run out from the row |
| Health.SeedIs | src/sync/mod.rs:76-87 | A starting process takes the status and exactly a cooldown still to come, and no counts |
| Health.RowMirrorsMemory | src/usage/mod.rs:86-116 | Over every run in which writes land at once, restarts included, the row has the status in memory and the same unelapsed cooldown, so a restart changes neither; without a restart it is equal |
| Health.RowIsLatestLanded | src/usage/mod.rs:94-116 | With writes that land late and in any order, memory always has the health issued last and the row the one landed last |
| Health.WritesAreConserved | src/usage/mod.rs:94-116 | Over every such run what was issued has landed or is pending |
| Health.InOrderRowCatchesUp | src/usage/mod.rs:94-116 | If writes land in the order of the attempts, the row equals memory whenever all have landed |
| Health.LateRowCanDiffer | src/usage/mod.rs:94-116 | A failure and a success whose writes land in reverse leave memory healthy and the row degraded |
| Health.HealthIsTrailingFailures | src/usage/mod.rs:36-59 | From any starting row, health after any events is a function of the failures since the last success; until a success or three failures in a row settle it the row counts, and the cooldown is 30 seconds after the last failure |
| Health.HealthFromNew | src/usage/mod.rs:36-59 | From a new endpoint: healthy iff no trailing failure, degraded iff one or two, unavailable with a cooldown iff three or more |
| Health.CountsAreExact | src/usage/mod.rs:44-47 | Requests are the starts, errors the failures, and the last failure is dated, over every run |
| Health.ActiveFollowsAttempts | src/usage/mod.rs:20-22 | A start sets the active count and each end lowers it by one, not below zero |
| Health.LatencyStaysInRange | src/usage/mod.rs:24-35 | Both latency averages stay between the smallest and largest latency observed |
| Health.AverageIsTextbookIff | src/usage/mod.rs:24-28 | The average equals the textbook moving average if and only if the first sample is positive or all are zero, since an average of zero starts over |
| Health.CacheRatioStaysInRange | src/models/mod.rs:175-187 | The cache average lies between the ratios observed and in [0, 1], and every observation is counted |
| Health.CacheMovesByQuarters | src/models/mod.rs:181-186 | The first observation counts in full and each later one moves the average a quarter of the way |
| Health.HitRatioIs | src/models/mod.rs:179-180 | The ratio observed is that of the hits to the prompt, clamped to the prompt |
| Difficulty.EstimateTokensFromText | src/policy/tokens.rs:7-19 | The counting loop yields one token per wide character and the rounded-up quarter of the narrow ones, at least one |
| Difficulty.EverythingCounts | src/policy/tokens.rs:194-209 | Every message and the written-out tool list count, and the line breaks between them do not |
| Difficulty.ArrayCounts | src/policy/tokens.rs:211-226 | Content spread over blocks counts as its texts |
| Difficulty.EstimateOf | src/policy/tokens.rs:7-19 | Four narrow characters or one wide one are a token, a started one counts, and nothing is one too |
| Difficulty.HeuristicDifficulty | src/policy/tokens.rs:248-301 | The accumulated score is the sum of its shares, clamped, and lies in [0, 1] |
| Difficulty.WordsAdd | src/policy/tokens.rs:263-300 | What the user's words add for any lexicon: 0.12 for code, 0.50 or else 0.25 for a keyword, 0.30 for a correction, up to one |
| Difficulty.RestAdds | src/policy/tokens.rs:252-287 | What everything else adds: tools 0.08, a long fresh conversation 0.05, and the load of the context |
| Difficulty.LoadIs | src/policy/tokens.rs:254-271 | The load in numbers for every token count |
| Difficulty.LatestInstructionDecides | src/policy/tokens.rs:64-69 | When the user spoke last, the last message is the text that counts |
| Difficulty.OriginalTaskDecides | src/policy/tokens.rs:58-63 | When something follows the last user message, the first user message is |
| Difficulty.PlainLoopStaysBelowHigh | src/policy/tokens.rs:248-301 | A mid-loop request whose first user message has no code marker or keyword stays at or below 0.53, and from 4,800 tokens on at or above the medium threshold |
| Difficulty.PlainTaskIsHardIff | src/policy/tokens.rs:238-301 | Any request without code, keyword or correction by the user reaches the high threshold if and only if it has more than 60,000 tokens, tools, and is a fresh turn of at least eight messages |
| Difficulty.ContextAloneCanBeHard | src/policy/tokens.rs:238-301 | A body of eight messages and one tool with 240,001 narrow characters and a plain user message has difficulty 0.58 |
| Difficulty.OnlyTokensOfOtherMessagesCount | src/policy/tokens.rs:43-74 | Whatever assistant and tool messages say moves the difficulty only through the token estimate, monotonically and by no more than the load share |
| Difficulty.LoopRaisesDifficultySlowly | src/policy/tokens.rs:35-74 | As an agent loop appends messages its driving text stays the same and its difficulty only rises, by at most 0.30 in all |

## Left out

- WarmMemory.WarmStore.Publish: several locked steps in the source, modelled as one sequential call; binding safety under interleaving is stated for the Redis scripts only.
- WarmProtocol.DeltaIsPrefixPlusTail: a run concerns one session key; `Namespace.TenantsNeverShareSessions` says why others cannot interfere. `WarmStore.get` and the cleaner on Redis are covered by removals that may happen at any step.
- WarmScript.RedisSession.RunPublishScript: epochs are unbounded, while Lua numbers are exact up to 2^53; the rendered JSON of a prefix is compared as a record; a configured lifetime of zero seconds, which the script rounds up to one and the binding reader does not, is not distinguished; key expiry set by the script is part of the removals that may happen at any step.
- WarmDelivery.DeltaMatchesFullDelivery: about one snapshot; `WarmProtocol.DeltaSendsWhatWasPublished` is the statement over runs.
- WarmDeployments.DeploymentsAgreeIff: the lone client runs without removals and on one clock reading; likewise for the delta.
- QuotaLaw.AdmissionLaw: sequential runs, with each scope's limits the same in every call.
- WarmDelivery.Assemble: the size limits, the message fingerprint and the Virtual Model syntax are arbitrary functions, and a requested hash is compared by value; the session store of the gateway SDK is not part of this model beyond its contract (atomic operations, an expired prefix is reported, a read may touch).
- Quota.RetryVerdict: the stored project window has less than 2^32 admissions, beyond which its length wraps.
- Quota.RetryHintSufficesIff: the same bound for the window that is checked.
- Namespace.TenantsNeverShareSessions: the SDK's rendering of namespace and session id into one string is assumed to be injective.
- Quota.SlidingWindowHolds: sequential runs; what concurrent callers can do is in QuotaRace. Sequential runs also fix each scope's limit.
- QuotaRace.OvershootIsBounded: limit + N is at most 2^32, beyond which the cast of the window length wraps.
- QuotaRace.MinuteOvershootIsBounded: limit + N is at most 2^32 here too.
- QuotaConcurrency.CountersAreHolders: atomics are sequentially consistent, limits are fixed over a run, and each admission is released at most once; shadow requests, which never acquire, and the drop guard of a permit are outside the matching.
- ContextSlim.SlimToolMessages: lengths and counters are unbounded, and the head share of 0.7 is the floor of 7/10 of the cap.
- SlimBounds.EveryAsciiBodyFits: ASCII only, because the claim is false otherwise; `SlimBounds.AnyBodyFitsIff` covers every text.
- Strategy.HardScoreIsLexicographic: real numbers, so the rounding of doubles at 10^9 is not modelled; prices are not negative by type.
- Routing.Evaluate: the candidate trace with its random tie-break, strategy aliases and exclusion reasons are left out, and a cooldown is reported in the unit of the clock, not as whole seconds.
- Pricing.ResolvePoolCapabilities: the table of model families is an arbitrary function.
- Session.SessionTable.NextTurnIndex: a call reads the clock once for its purge and once for its work; the table is used by one thread at a time, and the debug build's overflow check is not modelled.
- Health.RowMirrorsMemory: row writes succeed and land at once; late landing is in `Health.RowIsLatestLanded`, and a write that fails is left out.
- Health.EndpointMetric.RecordAttempt: counters are unbounded, and the timestamp of the last update is left out.
- Difficulty.HeuristicDifficulty: keyword lists and the text of the tool list are arbitrary functions, and the u32 range of the token counters is left out.
- PrefixHash.ParseInvertsFormat: choosing between the header, the body field and the computed hash is left out, as is the JSON text that is hashed.
- HTTP handlers, SQL, Redis connections, metrics, environment parsing, header parsing, budgets, the judge, shadow traffic, probes, catalog sync and the web console: single branches or plumbing.
- The login and IP limiters: simpler copies of the quota window.
