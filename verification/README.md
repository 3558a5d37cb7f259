# LiteStar Gateway verification

A Dafny 4.11 model of the parts of LiteStar Gateway, an LLM gateway, where correctness is hard to
see by reading: the money path, the callable-alias allocator and the data migration that re-implements
it, the tool-transcript rules and their codecs, the credential and role lifecycle, and the response
cache. `dafny verify dfyconfig.toml` checks everything.

| File | Component |
|---|---|
| `Outcomes`, `Totals` | option and result types; the total of a map's amounts |
| `Money`, `Pricing` | decimal scales and rounding; rate cards, cost, reservation estimates |
| `SpendBound`, `Fleet`, `FleetAdmission` | one budget scope under any interleaving of requests; many requests over the shared store, simulated by it; admissions, sessions and billing as its steps |
| `Failover`, `Metering`, `Dispatch`, `Requests` | eligibility and fallback chain; store, ledger and counters; one attempt and the retry loops; a whole request |
| `StreamMetering`, `StreamedRequests` | the metered generator, priming, stopping, settlement; a streamed request from admission to its last chunk |
| `BudgetAlerts` | threshold validation, crossing, interleaved evaluations across periods |
| `AliasNames`, `CallableAliases` | synthetic names and the allocation in closed form; the resolver |
| `Json`, `RouterMigration`, `RouterBinding`, `RouterPreflight` | JSON trees and the depth walk; the migration's allocator, strategy binding and preflight |
| `ToolReplay`, `Base64`, `VertexCallId` | the replay automaton; base64 of RFC 4648; the call-id codec |
| `KeyLifecycle`, `PlatformAdmins`, `TeamMembership` | API keys; platform admins; team roles and SSO reconciliation |
| `ResponseCache` | exact keys, semantic scopes, transparency of the exact cache |

How the model is built. Objects the program updates in place are classes whose methods are proved to
move their state exactly as a specification function says; the results are lemmas about those
functions. Concurrent operations are runs of committed steps: an operation reads a snapshot and later
takes one locked step, so a step carries an arbitrary stale snapshot and a run is any interleaving.
Providers, guardrails, deadlines and repositories that may fail are scripts of outcomes given to the
operation. Amounts are whole numbers at rate scale 10^-10 and cost scale 10^-6, identities are
numbers, and time is a number that never decreases.

Where the program does not do what its comments say, the model follows the program and proves when
the promise holds:

- A failover attempt refused because the deadline is already spent keeps its reservation
  (`completion_service.py:1396-1397`), and so do a request whose fallback lookup fails
  (`completion_service.py:1424-1425`, `:1714-1715`) and one cancelled on the cache path
  (`completion_service.py:373-390`, `:1602`): `Requests.ReservationsConserved`. It is never more than
  one attempt, the last: `Requests.OnlyTheLastMayKeepAClaim`. A request of each kind:
  `Requests.SpentDeadlineKeepsItsClaim`, `Requests.FailedLookupStrandsItsClaim`,
  `Requests.CancelledCacheHitKeepsItsClaim`.
- Streams release their claim before they bill, so their spend escapes the bound that dispatches keep:
  `SpendBound.ReleasingFirstIsUnbounded`.
- A call id ending in `__thought` or `__thought_` does not survive having a signature appended:
  `VertexCallId.DecodeUndoesEncodeIff`.
- The migration and the resolver read a name differently exactly when a router bears a name the
  migration gives to a platform model: `RouterMigration.NameAgreesIff`,
  `RouterPreflight.IdentitiesAgreeIff`; a registry that does: `RouterMigration.OneNameTwoMeanings`.
- An SSO login that writes back a stale admin flag can demote the last platform admin:
  `PlatformAdmins.AdminRemainsIff`, `PlatformAdmins.StaleLoginLosesTheLastAdmin`.
- The last-admin check of a team and the write it guards share no lock: the write empties the team
  exactly when the user has become the last admin since (`TeamMembership.WriteEmptiesIff`,
  `TeamMembership.MutualDemotionRace`).
- The identity half of a SCIM update has no lock either, so it can reach an account promoted since the
  snapshot: `PlatformAdmins.ScimIdentifiesAnAdminIff`.
- A rotated key starts with its predecessor's cap at that moment, so a cap set afterwards on either one
  parts them, and nothing else does: `KeyLifecycle.CapsAgreeIff`, `KeyLifecycle.CapsFollowRotations`.
- A response guard that depends on the router is not part of the cache key:
  `ResponseCache.TransparencyNeedsAbsorption`, `ResponseCache.ScopedGuardsShowThrough`.

## Model

| member | source | states |
|---|---|---|
| SpendBound.RunIsBounded | src/litestar_gateway/application/usage_meter.py:504-546 | over every interleaving, early or expired releases included, money spent or owed stays below limit + last admission's amount + what was committed between its read and its reserve + what was owed without a claim |
| SpendBound.DispatchSpendBound | src/litestar_gateway/application/completion_service.py:421-462 | when every claim is released after its settlement the gap is nil: exposure stays below limit + largest reservation + read-to-reserve drift; that dispatches keep this order is `Dispatch.RunDispatch` and `Fleet.RunSimulates` |
| SpendBound.SettlingFirstLeavesNoGap | src/litestar_gateway/application/completion_service.py:421-462 | under settle-then-release every unsettled request is still counted in flight |
| SpendBound.BoundIsAttained | src/litestar_gateway/application/usage_meter.py:504-546 | for every limit, drift and amount some run comes within one unit of the bound |
| SpendBound.ReleasingFirstIsUnbounded | src/litestar_gateway/application/usage_meter.py:1042-1068 | streams, which release before they bill, can owe n whole reservations at once for every n |
| Metering.AdmissionKeepsTheRest | src/litestar_gateway/application/usage_meter.py:429-450 | a refusal leaves the store as it was, the key's claim given back after a team refusal; an admission adds only fresh claims of the reserved amount |
| Metering.AdmittedIff | src/litestar_gateway/application/usage_meter.py:452-546 | admission is granted exactly when each capped scope has spent + in flight below its limit on the books before the call, and takes one claim per capped scope |
| Metering.AdmissionReserves | src/litestar_gateway/application/usage_meter.py:452-546 | an admission puts the amount in flight in the key's scope iff the key is capped, in the team's iff the team is, and nothing in any other; a refusal puts nothing anywhere |
| Metering.OtherScopesUnmoved | src/litestar_gateway/infrastructure/budget_reservation.py:50-70 | a claim in one scope never changes what another scope sees in flight |
| Metering.Meter.LiveTotal | src/litestar_gateway/infrastructure/budget_reservation.py:35-48 | the loop returns the total of the scope's claims |
| Metering.Meter.TryReserve | src/litestar_gateway/infrastructure/budget_reservation.py:50-70 | one step: records a fresh claim iff spent + in flight is below the limit, else changes nothing |
| Metering.Meter.ReleaseAll | src/litestar_gateway/application/usage_meter.py:579-604 | removes exactly the admission's claims, whether or not they are still there |
| Metering.Meter.AdmitBudgets | src/litestar_gateway/application/usage_meter.py:433-450 | key gate, then team gate, with the key's claim returned when the team refuses |
| Metering.Meter.Admit | src/litestar_gateway/application/usage_meter.py:391-450 | each unskipped limited gate takes one hit, and a throttled request reserves nothing |
| Metering.Meter.RecordUsage | src/litestar_gateway/application/usage_meter.py:843-874 | a charge lands in the ledger, else in the outbox, else is dropped, and in one of them only |
| Failover.FilterPicks | src/litestar_gateway/domain/routing.py:306-325 | the filter keeps exactly the capable candidates, in declared order |
| Failover.RemainingCandidates | src/litestar_gateway/application/completion_service.py:1323-1346 | the fallback chain is, in declared order, exactly the candidates with another name than attempt one, enabled chat models all, that have the vision, tools, JSON schema and window the request needs |
| Failover.BreakerFiltered | src/litestar_gateway/application/completion_service.py:1348-1374 | the breaker only drops candidates and keeps their order |
| Failover.FallbackChain | src/litestar_gateway/application/completion_service.py:1424-1426 | both filters in turn yield only declared candidates that may serve, in declared order |
| Requests.FallbacksAreDeclared | src/litestar_gateway/application/completion_service.py:1426-1450 | the attempts a request makes after its first serve capable declared candidates other than attempt one, in declared order |
| Fleet.SameInFlight | src/litestar_gateway/infrastructure/budget_reservation.py:35-48 | what the store sums over a scope's claims is what the protocol sums over the requests holding them |
| Fleet.StepSimulates | src/litestar_gateway/infrastructure/budget_reservation.py:50-78 | each step of many requests over the shared store, their attempts' effects one by one and other scopes' traffic included, is a step of the spend-bound protocol or none |
| Fleet.RunSimulates | src/litestar_gateway/application/completion_service.py:421-462 | every interleaved run is a run of the protocol, and without streams one that settles before it releases |
| Fleet.FleetSpendBound | src/litestar_gateway/application/usage_meter.py:504-546 | the bound of the store itself: spent or owed stays below limit + largest reservation + drift + gap, with no gap when no request streams |
| FleetAdmission.AdmissionIsARun | src/litestar_gateway/application/usage_meter.py:429-450 | an admission through both gates is, seen from any scope, a run of the fleet that moves the store as the gates do and leaves the request in flight there iff it was admitted and the scope is capped |
| FleetAdmission.LiveProgramIsItsSession | src/litestar_gateway/application/usage_meter.py:1042-1068 | what the fleet has a live stream do is what its metered session does wherever it stops: release, then settle |
| FleetAdmission.ReplayProgramIsItsEnd | src/litestar_gateway/application/completion_service.py:1672-1685 | and a replayed answer: release, then a record at no cost |
| FleetAdmission.CommittedIsBilled | src/litestar_gateway/application/usage_meter.py:843-874 | over any run the spend of the scope grows by exactly what is billed in it |
| Dispatch.RunDispatch | src/litestar_gateway/application/completion_service.py:372-462 | a dispatch moves the books as its outcome says and settles before it releases |
| Dispatch.RunOpen | src/litestar_gateway/application/completion_service.py:1768-1820 | so does opening and priming a stream, which once open releases before it settles |
| Dispatch.EffectsExplainTheBooks | src/litestar_gateway/application/completion_service.py:421-462 | replaying the logged effects of an attempt, in their order, gives the books it leaves |
| Dispatch.AttemptWritesItsDue | src/litestar_gateway/application/completion_service.py:372-460 | outcome by outcome: an answer and a malformed response are charged at cost, a cache hit at nothing, every other failed call or open not at all |
| Dispatch.AttemptGivesBack | src/litestar_gateway/application/completion_service.py:461-462 | the claims go back in every outcome but a spent deadline at the door, a cancellation around the cache, and a live stream or replay |
| Dispatch.AttemptOrder | src/litestar_gateway/application/completion_service.py:421-462 | a dispatch has settled when it gives its claim back, and a stream once opened gives it back first |
| Dispatch.AttemptReplies | src/litestar_gateway/application/completion_service.py:436-445 | only an unblocked answer or hit that came in time, a first chunk, a replay or an empty stream is an answer; which error each other outcome raises |
| Dispatch.RetriedWhen | src/litestar_gateway/domain/failover.py:20-42 | the errors that fail over, with a malformed response only where it has not been paid for |
| Dispatch.ChatWithFailover | src/litestar_gateway/application/completion_service.py:1404-1529 | the loop computes the specified chain of attempts: books, reply and attempts made |
| Dispatch.OpenStreamWithFailover | src/litestar_gateway/application/completion_service.py:1690-1827 | the streaming loop does the same |
| Dispatch.ChainShape | src/litestar_gateway/application/completion_service.py:1436-1525 | how far a chain goes, that only a retryable failure before the deadline leads on, that it bills one charge per billed attempt and costs no further rate-limit hit |
| Dispatch.ChainClaims | src/litestar_gateway/application/completion_service.py:1436-1525 | a chain gives back exactly the claims it took, unless an attempt keeps one, and never touches others; what a live stream keeps is all it holds |
| Dispatch.ChainWrites | src/litestar_gateway/application/completion_service.py:1436-1525 | if no attempt before the last bills, a chain writes exactly what its last attempt writes |
| Dispatch.ChainStops | src/litestar_gateway/application/completion_service.py:1436-1525 | a chain ends because its last attempt may not be retried, every fallback was tried, or the next met a spent deadline, a failed setup or a refusal; and replies accordingly |
| Requests.Prepare | src/litestar_gateway/application/completion_service.py:1109-1232 | preparation moves the books as specified, releasing when credentials are missing |
| Requests.PreparationConserves | src/litestar_gateway/application/completion_service.py:1205-1232 | a refused preparation leaves no claim and no charge |
| Requests.PreparedIff | src/litestar_gateway/application/completion_service.py:1109-1232 | a request is admitted iff neither rate limit refuses it, nothing fails before admission, both budgets have room on the books it met, and credentials exist |
| Requests.ChatCompletion | src/litestar_gateway/application/completion_service.py:1234-1276 | a whole request runs as specified, direct or routed |
| Requests.OpenChatStream | src/litestar_gateway/application/completion_service.py:1556-1623 | a whole streamed request, up to its first chunk or the start of a replay, runs as specified and hands on the claim it holds |
| Requests.RequestShape | src/litestar_gateway/application/completion_service.py:1426-1525 | attempts never exceed min(max_attempts, 1 + fallbacks), each but the last failed retryably, none starts once the deadline is spent |
| Requests.ExpiredIsLast | src/litestar_gateway/application/completion_service.py:1439-1445 | an attempt the deadline ended is the last to be dispatched |
| Requests.RequestStops | src/litestar_gateway/application/completion_service.py:1426-1525 | a routed request tries its fallbacks, at most max_attempts - 1, in order and stops only for one of the reasons of `Dispatch.ChainStops` |
| Requests.SecondAttemptIff | src/litestar_gateway/domain/failover.py:20-42 | with a fallback ready and admissible in time, attempt one is retried iff it raised one of four upstream errors, or a malformed response where that is unpaid, or its deadline fired |
| Requests.OneHitPerLimit | src/litestar_gateway/application/completion_service.py:1121-1125 | one logical request costs each rate limit it reaches exactly one hit, whatever the number of attempts |
| Requests.ChargedAtMostOnce | src/litestar_gateway/application/completion_service.py:1500-1520 | one logical request is charged at most once, and once exactly when its last attempt bills |
| Requests.RequestWritesItsDue | src/litestar_gateway/application/completion_service.py:1436-1525 | that charge is what the outcome of the last attempt owes, for its model; with no attempt dispatched nothing is written |
| Requests.AnsweredIsCharged | src/litestar_gateway/application/completion_service.py:421-433 | a request answered without a stream has written exactly one more charge, for the model that answered, at its cost or at nothing for a cache hit |
| Requests.ReservationsConserved | src/litestar_gateway/application/completion_service.py:1213-1230 | the store ends as it began if and only if no attempt kept a claim and no lookup stranded the first one |
| Requests.OnlyTheLastMayKeepAClaim | src/litestar_gateway/application/completion_service.py:1436-1525 | only the last attempt may keep its claim, and giving back what it holds restores the store |
| Requests.SpentDeadlineKeepsItsClaim | src/litestar_gateway/application/completion_service.py:1396-1397 | a request whose deadline is spent between admission and dispatch answers with a timeout and leaves its claim in the store |
| Requests.FailedLookupStrandsItsClaim | src/litestar_gateway/application/completion_service.py:1424-1425 | so does one whose fallback candidates cannot be loaded, before any attempt is dispatched |
| Requests.CancelledCacheHitKeepsItsClaim | src/litestar_gateway/application/completion_service.py:373-390 | and one cancelled after a cache hit is recorded, whose charge of nothing is in the ledger |
| Money.RoundingIsHalfUp | src/litestar_gateway/domain/money.py:49-57 | the rounding is the one nearest value, ties away from zero |
| Money.RoundingIsMonotone | src/litestar_gateway/domain/money.py:54-57 | a larger amount never rounds below a smaller one |
| Money.QuantizeError | src/litestar_gateway/domain/money.py:35-57 | quantizing loses at most half a unit, and nothing when the number fits |
| Money.CostIsExactAsRate | src/litestar_gateway/domain/money.py:28-32 | a cost survives the round trip through rate scale |
| Pricing.NeverCreditsIff | src/litestar_gateway/domain/pricing.py:103-149 | a card yields no negative cost for any usage iff no price a call can look up is negative |
| Pricing.ValidatedNeverCredits | src/litestar_gateway/domain/pricing.py:103-178 | every validated card, once converted, yields no credit and keeps all its image prices |
| Pricing.RefusedRateCredits | src/litestar_gateway/domain/pricing.py:85-120 | a refused negative price, of any dimension, that survives conversion and can be looked up would have yielded one |
| Pricing.AcceptedIff | src/litestar_gateway/domain/pricing.py:77-120 | a card is accepted iff every price is a number not below zero, all but image prices optional |
| Pricing.PriceOfEachDimension | src/litestar_gateway/domain/pricing.py:132-178 | each configured price is charged for its own dimension, at rate scale, through conversion and cost |
| Pricing.UnlistedImagesCostTheRate | src/litestar_gateway/domain/pricing.py:123-129 | an image size and quality without an entry costs the flat rate |
| Pricing.ExactAdds | src/litestar_gateway/domain/pricing.py:132-149 | before the one rounding, charges add up across usages |
| Pricing.ReservationIsTheMaximum | src/litestar_gateway/application/usage_meter.py:305-322 | the reserved cost is the largest settlement the estimates allow, and itself one of them |
| Pricing.ReservationDominates | src/litestar_gateway/application/usage_meter.py:325-347 | settlement is between zero and the reservation while the provider stays within the request's limits |
| Pricing.ReservationIsForTheRequest | src/litestar_gateway/application/usage_meter.py:230-237 | on the request's own fields: with n choices and the first positive ceiling for each, the reservation is the most any provider that honours them can bill, and is attained |
| Pricing.ImageReservationIsForTheRequest | src/litestar_gateway/application/usage_meter.py:334-346 | the same for the number of images asked for |
| Pricing.EstimateTokens | src/litestar_gateway/application/usage_meter.py:71-72 | a quarter of the characters, rounded up |
| Pricing.LedgerDrift | src/litestar_gateway/domain/pricing.py:132-149 | a ledger of n rounded charges is within n half units of the exact total |
| StreamMetering.MeteredStream.Finalize | src/litestar_gateway/application/usage_meter.py:1042-1068 | stopping releases and then bills, in that order, what the processed prefix amounts to |
| StreamMetering.MeteredStream.Next | src/litestar_gateway/application/usage_meter.py:1015-1041 | relays the provider's next chunk unchanged, or settles when the provider stops |
| StreamMetering.MeteredStream.Collect | src/litestar_gateway/application/completion_service.py:1881-1908 | the collector's finalizer releases only a claim nobody released, and never bills |
| StreamMetering.Session | src/litestar_gateway/application/completion_service.py:164-178 | primed, relayed and stopped anywhere, the client gets exactly a prefix, the first min(take, all) chunks; what was pulled, the priming chunk included, is released and billed once |
| StreamMetering.StoppedStreamBillsOnce | src/litestar_gateway/application/usage_meter.py:1225-1297 | the claim is gone, and without an error exactly one charge is written |
| StreamMetering.FailedStreamBillsIff | src/litestar_gateway/application/usage_meter.py:1225-1277 | with an error a charge is written iff tokens were reported or unrefused output was produced |
| StreamMetering.ErrorBeforeOutputIsFree | src/litestar_gateway/application/usage_meter.py:1225-1231 | an error before any output or reported token bills nothing |
| StreamMetering.LastReportIs | src/litestar_gateway/application/usage_meter.py:1017-1021 | the report billed is the last one any chunk carried |
| StreamMetering.NoReportIs | src/litestar_gateway/application/usage_meter.py:1010 | without any, there is no report |
| StreamMetering.BilledUsageIs | src/litestar_gateway/application/usage_meter.py:1231-1247 | in the report's own terms: its counts when any is positive or when it is a refusal reported as free; otherwise a quarter of the characters rounded up |
| StreamMetering.WhatReportsSay | src/litestar_gateway/application/usage_meter.py:181-214 | what a report says field by field: chat counts when their entries are there, zero included, else the Responses ones; cache counts apart; when it has tokens; when its pair is complete |
| StreamMetering.EitherShapeIsRead | src/litestar_gateway/application/usage_meter.py:257-276 | a chat and a Responses report of the same counts are billed alike |
| StreamMetering.StoppedStreamCharges | src/litestar_gateway/application/usage_meter.py:1042-1068 | a stopped stream's one charge is for its model at the price of the usage billed, or nothing is written |
| StreamedRequests.PrimingBillsAsMetered | src/litestar_gateway/application/completion_service.py:221-233 | every outcome of priming without a chunk leaves the books and the order of effects the metered generator leaves |
| StreamedRequests.FinishReplay | src/litestar_gateway/application/completion_service.py:1659-1684 | the end of a replay releases and then records a charge of nothing |
| StreamedRequests.StreamedRequestConserves | src/litestar_gateway/application/completion_service.py:1726-1823 | however many attempts it took to open and wherever it stops, a streamed request returns the store to its start and, without a provider error, is charged exactly once |
| StreamedRequests.ReplayConserves | src/litestar_gateway/application/completion_service.py:1659-1688 | so does a replayed cache entry, at no cost |
| StreamedRequests.StreamChat | src/litestar_gateway/application/completion_service.py:1556-1623 | opening and session composed: the client gets a prefix, the store is as before |
| BudgetAlerts.ValidateThresholds | src/litestar_gateway/domain/budget.py:19-30 | accepted iff all are integers in 1..100, then exactly those values, ascending without repeats |
| BudgetAlerts.CrossedThresholds | src/litestar_gateway/domain/budget.py:33-49 | ascending, and exactly the configured, unfired thresholds the spend reaches |
| BudgetAlerts.ReachesIsThePercentage | src/litestar_gateway/domain/budget.py:45-49 | a threshold is reached iff spend / limit * 100, as real numbers, is at least it |
| BudgetAlerts.AlertStore.Evaluate | src/litestar_gateway/application/usage_meter.py:917-963 | afterwards exactly the reached thresholds have joined the fired ones of the period, with the outbox only extended |
| BudgetAlerts.AlertStore.RecordFiredAndEnqueue | src/litestar_gateway/infrastructure/persistence/budget_alert_state_repository.py:101-130 | only the insert that wins the key queues an alert |
| BudgetAlerts.AlertsFireExactlyOnce | src/litestar_gateway/application/usage_meter.py:939-961 | over every interleaving, rollovers and evaluations of an earlier period included, no threshold is queued twice or unreached in a period, and once evaluations finish exactly those reached in it are queued |
| BudgetAlerts.RolloverRefires | src/litestar_gateway/domain/budget.py:36-46 | a threshold reached in two periods is queued for each of them |
| AliasNames.SyntheticInjective | src/litestar_gateway/application/callable_aliases.py:76-82 | distinct globals or suffixes give distinct synthetic names |
| AliasNames.SyntheticNames | src/litestar_gateway/application/callable_aliases.py:75-80 | the names tried are alias-global, then alias-global-2 and on, in decimal numerals without leading zeros |
| AliasNames.TakenNamesAreBounded | src/litestar_gateway/application/callable_aliases.py:76-80 | n names tried and found taken need n names to avoid, so the search stops within one more |
| AliasNames.SearchFree | src/litestar_gateway/application/callable_aliases.py:76-80 | the suffix loop ends at the first free name |
| AliasNames.GrowingSetIsEnough | src/litestar_gateway/application/callable_aliases.py:70-82 | the names handed out so far never change what the next global gets |
| CallableAliases.EffectiveBindings | src/litestar_gateway/application/callable_aliases.py:57-83 | the loop builds the specified namespace |
| CallableAliases.EveryBindingOnce | src/litestar_gateway/application/callable_aliases.py:57-83 | every local and global binding appears under exactly one effective alias |
| CallableAliases.HowAliasesAreChosen | src/litestar_gateway/application/callable_aliases.py:66-82 | locals keep theirs, free globals keep theirs, others get the first synthetic name neither held, reserved nor declared |
| CallableAliases.OrderIndependent | src/litestar_gateway/application/callable_aliases.py:66-83 | any permutation of the snapshot yields the same namespace |
| CallableAliases.ListCallable | src/litestar_gateway/application/callable_aliases.py:85-100 | lists exactly the loadable entries of the namespace |
| CallableAliases.Resolve | src/litestar_gateway/application/callable_aliases.py:102-108 | agrees with the listing on every alias |
| CallableAliases.AnsweredFrom | src/litestar_gateway/application/callable_aliases.py:48-55 | which table answers a listed alias: models, grants under the binding's team, revisions or routers, and that an alias whose entry is gone is not listed |
| CallableAliases.ResolveModelId | src/litestar_gateway/application/callable_aliases.py:117-129 | loads a model identity iff some binding of the scope names it |
| RouterMigration.EffectiveModels | migrations/versions/2026-07-22_version_router_revisions_a61d7e3c9b20.py:68-97 | the migration's own loop builds the specified model namespace |
| RouterMigration.AgreesWithResolver | migrations/versions/2026-07-22_version_router_revisions_a61d7e3c9b20.py:68-97 | on any registry the two namespaces agree if and only if no router in sight bears a name the migration gives to a platform model |
| RouterMigration.NameAgreesIff | src/litestar_gateway/application/callable_aliases.py:57-83 | the same name by name, and then the resolver finds a router under it |
| RouterMigration.EffectiveMovesIff | src/litestar_gateway/application/callable_aliases.py:66-82 | occupying more slots and declaring more names moves a global iff one of them is the name it had |
| RouterMigration.SlotsSetAsideStayEmpty | src/litestar_gateway/application/callable_aliases.py:66-82 | a slot set aside is given to nothing by either namespace, but for a team's own use of a name the platform set aside |
| RouterMigration.RouterAliasesDisagree | migrations/versions/2026-07-22_version_router_revisions_a61d7e3c9b20.py:57-62 | every such name means the platform model to the migration and the router to the resolver |
| RouterMigration.OneNameTwoMeanings | migrations/versions/2026-07-22_version_router_revisions_a61d7e3c9b20.py:68-97 | a registry of three rows in which a team's router bears the synthetic name of a platform model, and the two namespaces read that name differently |
| RouterMigration.ModelEntryIsMine | src/litestar_gateway/application/callable_aliases.py:57-83 | while routers stay apart the resolver has no model entry the migration lacks |
| RouterBinding.BindStrategyMeaning | migrations/versions/2026-07-22_version_router_revisions_a61d7e3c9b20.py:100-140 | binding reports no problem iff every referenced name exists, and then every name carries the identity it resolves to, other keys untouched |
| RouterBinding.JudgeIsBound | migrations/versions/2026-07-22_version_router_revisions_a61d7e3c9b20.py:109-115 | a judge strategy gets its model's identity, or a problem when the name is missing, no text or unknown |
| RouterBinding.EmbeddingsAreBound | migrations/versions/2026-07-22_version_router_revisions_a61d7e3c9b20.py:116-132 | an embeddings strategy gets its model's identity and, route by route, its targets', iff every target is a candidate |
| RouterBinding.HybridIsBound | migrations/versions/2026-07-22_version_router_revisions_a61d7e3c9b20.py:133-139 | a hybrid strategy is bound one level down by the strategy named there, an absent config counting as empty |
| RouterBinding.BoundIdsAreFound | migrations/versions/2026-07-22_version_router_revisions_a61d7e3c9b20.py:143-154 | the collector finds every bound identity at any nesting depth |
| RouterBinding.CollectedIff | migrations/versions/2026-07-22_version_router_revisions_a61d7e3c9b20.py:143-154 | the collector takes exactly what stands under a key ending in _model_id, at any depth |
| RouterPreflight.ShadowIsBound | migrations/versions/2026-07-22_version_router_revisions_a61d7e3c9b20.py:228-244 | a shadow strategy, if one is named, is bound like the active one, on its own config |
| RouterPreflight.BindCandidates | migrations/versions/2026-07-22_version_router_revisions_a61d7e3c9b20.py:189-221 | no problem iff every candidate is an object whose name resolves in the owner's namespace, to a platform model if the router is the platform's; then each carries that identity, its origin and its source team |
| RouterPreflight.WrittenIdsAreFound | migrations/versions/2026-07-22_version_router_revisions_a61d7e3c9b20.py:228-244 | identities in active and shadow configs are all among those collected |
| RouterPreflight.CheckGrants | migrations/versions/2026-07-22_version_router_revisions_a61d7e3c9b20.py:257-265 | no problem iff every granted team reaches every referenced identity |
| RouterPreflight.IdentitiesAgreeIff | src/litestar_gateway/application/callable_aliases.py:102-129 | the identities the migration binds names to are the resolver's if and only if routers stay apart |
| RouterPreflight.ReachableIsCallable | src/litestar_gateway/application/callable_aliases.py:117-129 | the identities a team reaches in the migration are, always, those the resolver loads for it |
| RouterPreflight.PreservedForResolver | migrations/versions/2026-07-22_version_router_revisions_a61d7e3c9b20.py:157-282 | so a migrated revision means to the resolver what its router's names meant there |
| RouterPreflight.Preflight | migrations/versions/2026-07-22_version_router_revisions_a61d7e3c9b20.py:157-282 | passes iff every router is migratable; then every revision means what its router's names meant, to the migration always and to the resolver where routers stay apart, and every grant reaches it |
| Json.ValidateComplexity | src/litestar_gateway/domain/chat_tool_policy.py:71-83 | the explicit-stack walk accepts iff the nesting depth is at most 32 |
| Json.DepthIs | src/litestar_gateway/domain/chat_tool_policy.py:71-83 | a value fits in n levels iff what it holds fits in n - 1, and what holds nothing fits in one |
| ToolReplay.ScanIffWellFormed | src/litestar_gateway/domain/chat_tool_policy.py:677-786 | the automaton accepts a transcript iff the grammar of plain messages and answered call groups derives it |
| ToolReplay.AcceptedCallsTranslate | src/litestar_gateway/domain/chat_tool_policy.py:691-758 | in an accepted transcript every group has a call, and every call the fields, name, arguments, id and signature its provider takes |
| ToolReplay.AcceptedCallsAreAnswered | src/litestar_gateway/domain/chat_tool_policy.py:759-786 | right behind the calls stand their results as text, each id once, nothing in between, and for Vertex in call order |
| ToolReplay.OneCallIsAcceptedIff | src/litestar_gateway/domain/chat_tool_policy.py:691-786 | one call and the message behind it are accepted iff the call is such a call and the message is its result, as text |
| ToolReplay.WalkGroup | src/litestar_gateway/domain/chat_tool_policy.py:691-758 | accepts a call group iff it is non-empty, well formed and its ids are new, and collects exactly these |
| ToolReplay.ValidateToolReplay | src/litestar_gateway/domain/chat_tool_policy.py:677-786 | the loop accepts iff the transcript is well formed, with pending set and list in step throughout |
| ToolReplay.RemoveKeepsDistinct | src/litestar_gateway/domain/chat_tool_policy.py:759-777 | answering one call removes the same id from the pending list and the pending set |
| Base64.DecodeUndoesEncode | src/litestar_gateway/domain/chat_tool_policy.py:166-172 | the round trip of section 4 of RFC 4648 |
| Base64.CanonicalIffReencodes | src/litestar_gateway/domain/chat_tool_policy.py:143-148 | accepted text re-encodes to itself iff it is canonical in the sense of section 3.5 of RFC 4648 |
| Base64.SymbolsAreTheAlphabet | src/litestar_gateway/domain/chat_tool_policy.py:143-148 | the alphabet is table 1 of RFC 4648 |
| Base64.TestVectors | src/litestar_gateway/domain/chat_tool_policy.py:143-148 | three test vectors of section 10 of RFC 4648 |
| VertexCallId.SignatureAcceptance | src/litestar_gateway/domain/chat_tool_policy.py:132-153 | a signature is accepted iff it is the canonical encoding of some legal byte string |
| VertexCallId.LegalSignatureIs | src/litestar_gateway/domain/chat_tool_policy.py:17-18 | a signature is 1 to 65536 bytes other than the ASCII text of the validation bypass |
| VertexCallId.MissingIdIff | src/litestar_gateway/domain/chat_tool_policy.py:175-181 | an id is refused as missing iff it starts with the delimiter |
| VertexCallId.EncodeUndoesDecode | src/litestar_gateway/domain/chat_tool_policy.py:166-181 | every accepted id is the encoding of what it decodes to |
| VertexCallId.FirstDelimiterIsTheAppendedOne | src/litestar_gateway/domain/chat_tool_policy.py:175-181 | the first delimiter is the appended one iff the id neither contains it nor ends in a part that completes it early |
| VertexCallId.DecodeUndoesEncodeIff | src/litestar_gateway/domain/chat_tool_policy.py:166-181 | with a legal signature the round trip holds for exactly these ids |
| VertexCallId.UnsignedRoundTripIff | src/litestar_gateway/domain/chat_tool_policy.py:166-181 | without one, for exactly the ids free of the delimiter |
| VertexCallId.OverlappingIdsAreMisread | src/litestar_gateway/domain/chat_tool_policy.py:163-181 | two ids that break it |
| KeyLifecycle.KeyService.IssueKey | src/litestar_gateway/application/service.py:130-159 | issues iff scope and the locked owner or principal allow it |
| KeyLifecycle.KeyService.RotateForTeam | src/litestar_gateway/application/service.py:208-274 | the locked half of a rotation, with a stale snapshot: replacement on the same terms and cap, predecessor scheduled, or no change |
| KeyLifecycle.KeyService.RevokeForTeam | src/litestar_gateway/application/service.py:194-199 | the unlocked write of a revocation sets the time it read and nothing else |
| KeyLifecycle.KeyService.DeactivateUser | src/litestar_gateway/application/user_service.py:455-469 | offboarding shortens every personal key and disables the account in one step |
| KeyLifecycle.RunKeepsInv | src/litestar_gateway/application/service.py:208-274 | in every run a replacement shares its predecessor's terms, a replaced key is scheduled for revocation, and no key is replaced twice |
| KeyLifecycle.IssuedKeysWork | src/litestar_gateway/application/service.py:130-189 | a key is issued iff a live holder of the right team answers for it and only a principal's asks for more than inference; it then works until revoked |
| KeyLifecycle.RotationOverlaps | src/litestar_gateway/application/service.py:208-274 | exactly when a key is rotated; then the old key works until the grace has passed and the new one from now on |
| KeyLifecycle.PersonalKeysOnlyInfer | src/litestar_gateway/application/service.py:140-146 | in every run no working key without a service principal may do more than inference |
| KeyLifecycle.RevocationIsFinal | src/litestar_gateway/application/service.py:194-199 | a revoked key never authenticates again, and no other key is touched |
| KeyLifecycle.KillSwitchIsReversible | src/litestar_gateway/application/service.py:169-177 | disabling a service principal stops all its keys and no others; enabling it restores exactly the state before |
| KeyLifecycle.DeactivationIs | src/litestar_gateway/application/user_service.py:455-469 | offboarding cuts the user's personal keys short, never lengthening one, and leaves other users' and principals' keys as they were |
| KeyLifecycle.PrincipalDeletionIs | src/litestar_gateway/infrastructure/persistence/repository.py:193-215 | deletion cuts the principal's keys short and orphans them, and leaves every other key as it was |
| KeyLifecycle.DeactivationIsFinal | src/litestar_gateway/application/user_service.py:455-469 | after any later interleaving a personal key its owner had when deactivated never authenticates again |
| KeyLifecycle.PrincipalDeletionIsFinal | src/litestar_gateway/infrastructure/persistence/repository.py:193-215 | nor does a key of a deleted service principal, though it is left looking personal |
| KeyLifecycle.LineageSharesTerms | src/litestar_gateway/application/service.py:234-245 | all keys of a rotation lineage share team, owner, principal, scope, rate limit and expiry |
| KeyLifecycle.OneOpenKeyPerLineage | src/litestar_gateway/application/service.py:226-251 | at any moment at most one key of a lineage has no revocation scheduled |
| KeyLifecycle.CapsAgreeIff | src/litestar_gateway/application/service.py:252-265 | caps of a lineage agree after a step iff the step does not set a different cap on one of its keys |
| KeyLifecycle.ReplacementStartsWithTheCap | src/litestar_gateway/application/service.py:252-265 | right after a rotation the replacement and its predecessor have the cap the predecessor had |
| KeyLifecycle.CapsFollowRotations | src/litestar_gateway/application/service.py:252-265 | after any run in which no step parts them every key has the cap of the first key of its lineage |
| PlatformAdmins.UserService.SetUserActive | src/litestar_gateway/application/user_service.py:447-473 | takes effect iff the actor is another, live admin under the lock |
| PlatformAdmins.UserService.SetUserAdmin | src/litestar_gateway/application/user_service.py:489-506 | so does granting or revoking the admin role |
| PlatformAdmins.UserService.DeleteUser | src/litestar_gateway/application/user_service.py:201-225 | and deleting an account nothing refers to |
| PlatformAdmins.UserService.EnsureAdmin | src/litestar_gateway/application/user_service.py:149-170 | bootstrap leaves a live admin and touches no existing account |
| PlatformAdmins.UserService.ScimUpdate | src/litestar_gateway/application/scim_service.py:155-218 | snapshot check, identity write, lock and re-check change the account as specified |
| PlatformAdmins.SetActiveIs | src/litestar_gateway/application/user_service.py:447-473 | a live other admin's disabling marks the account as disabled by an admin, enabling clears the mark, and nothing else changes |
| PlatformAdmins.SetAdminIs | src/litestar_gateway/application/user_service.py:489-506 | a grant or withdrawal sets the flag alone |
| PlatformAdmins.DeleteIs | src/litestar_gateway/application/user_service.py:201-225 | a deletion by a live other admin removes an unreferenced account and only it |
| PlatformAdmins.CreateIs | src/litestar_gateway/application/user_service.py:395-404 | an account is created iff its id, address and external id are free |
| PlatformAdmins.LoginIs | src/litestar_gateway/application/user_service.py:405-410 | a login sets the flag alone, and with a current snapshot only ever grants it |
| PlatformAdmins.ScimSwitchesIff | src/litestar_gateway/application/scim_service.py:155-214 | when SCIM switches an account: never off for an admin, never on for one an admin disabled, by snapshot or locked row; and what it leaves |
| PlatformAdmins.ScimUndoesItsOwn | src/litestar_gateway/application/scim_service.py:162-170 | SCIM may undo its own disabling, and that restores the account |
| PlatformAdmins.ScimIdentityIs | src/litestar_gateway/application/scim_service.py:174-189 | an identity is written iff it is new to a snapshot that is no admin's and taken by no other account |
| PlatformAdmins.StepKeepsIdentitiesUnique | src/litestar_gateway/application/scim_service.py:182-189 | no operation gives two accounts one address or external id |
| PlatformAdmins.ScimIdentifiesAnAdminIff | src/litestar_gateway/application/scim_service.py:182-189 | SCIM changes a platform admin's identity iff its snapshot is from before the promotion |
| PlatformAdmins.AdminRemainsIff | src/litestar_gateway/application/user_service.py:141-147 | the one step that can leave no live admin is a login writing a stale flag over the only one |
| PlatformAdmins.PlatformKeepsAnAdmin | src/litestar_gateway/application/user_service.py:447-506 | from bootstrap on, every interleaving with fresh logins leaves a live admin |
| PlatformAdmins.StaleLoginLosesTheLastAdmin | src/litestar_gateway/application/user_service.py:407-410 | a run in which a stale login leaves none |
| PlatformAdmins.DisabledUntilAnAdminActs | src/litestar_gateway/application/scim_service.py:179-214 | an admin's disabling ends exactly when an admin enables or deletes the account |
| PlatformAdmins.ScimNeverResurrects | src/litestar_gateway/application/scim_service.py:179-214 | over whole runs, so SCIM and SSO never undo it |
| PlatformAdmins.DisablingIsFinal | src/litestar_gateway/application/scim_service.py:166-173 | from the disabling on: an account a live admin disabled stays inactive in any run in which no admin enables or deletes it |
| TeamMembership.MembershipService.ReconcileSsoMemberships | src/litestar_gateway/application/team_service.py:481-536 | in whatever order the teams come, the loop computes the order-free reconciliation and reports exactly the before/after difference |
| TeamMembership.ReportedChangesAre | src/litestar_gateway/application/team_service.py:503-536 | what additions, updates and removals in the report mean, and that no difference is missing |
| TeamMembership.EndsAsDesired | src/litestar_gateway/application/team_service.py:506-535 | each governed live team ends at the desired role unless the user is its last admin |
| TeamMembership.OthersUntouched | src/litestar_gateway/application/team_service.py:493-505 | other users and ungoverned teams are untouched |
| TeamMembership.ReconcileIsIdempotent | src/litestar_gateway/application/team_service.py:481-536 | a second run changes nothing |
| TeamMembership.SerialRunsKeepAdmins | src/litestar_gateway/application/team_service.py:136-144 | over any sequence of undivided operations no team loses its last admin |
| TeamMembership.OperationIs | src/litestar_gateway/application/team_service.py:206-242 | the roles after each operation: a new team has creator and lead as admins, nobody is added twice, a team's one admin can be neither demoted nor removed |
| TeamMembership.UndividedWriteSettles | src/litestar_gateway/application/team_service.py:503-535 | check and write of one team with nothing in between are the reconciliation's step |
| TeamMembership.UndividedWriteIsTheOperation | src/litestar_gateway/application/team_service.py:452-479 | the same for a demotion and a removal |
| TeamMembership.WriteEmptiesIff | src/litestar_gateway/application/team_service.py:452-535 | a demotion, removal or reconciliation write whose check passed on older rows empties the team iff it takes a role it saw from a user who has become the last admin since |
| TeamMembership.NoTeamLosesItsLastAdmin | src/litestar_gateway/application/team_service.py:452-535 | over any interleaving of checks and writes no team loses its last admin while no other admin of it is lost between an operation's check and its write |
| TeamMembership.MutualDemotionRace | src/litestar_gateway/application/team_service.py:452-468 | a run in which two admins demote each other, both checks pass, and none is left |
| ResponseCache.KeysEqualIff | src/litestar_gateway/domain/response_cache_key.py:45-100 | two requests share an exact key iff caller, model coordinates, operation and every determining field agree |
| ResponseCache.DeterminingFieldsCount | src/litestar_gateway/domain/response_cache_key.py:28-40 | a difference in any field but model, stream, stream_options, user and metadata gives different exact keys |
| ResponseCache.FiveFieldsAreIgnored | src/litestar_gateway/domain/response_cache_key.py:28-40 | whatever these five say, the key is the same |
| ResponseCache.ScopesEqualIff | src/litestar_gateway/domain/response_cache_semantic.py:36-63 | they share a semantic scope iff only the embedded text may differ |
| ResponseCache.KeyIsScopePlusText | src/litestar_gateway/domain/response_cache_semantic.py:36-63 | equal exact keys are equal scopes plus equal `messages` and `input` |
| ResponseCache.CacheDispatcher.Dispatch | src/litestar_gateway/application/completion_service.py:372-460 | a dispatch reads, guards and stores as specified; its billing and release are those of `Dispatch.RunDispatch` |
| ResponseCache.WhenTheCacheAnswers | src/litestar_gateway/application/completion_service.py:372-460 | which requests take part, that these are answered from the entry under their key, screened again, and what is kept under it |
| ResponseCache.DispatchIsTransparent | src/litestar_gateway/application/completion_service.py:372-460 | one dispatch answers what the uncached dispatch answers and stores only guarded bodies |
| ResponseCache.RunIsTransparent | src/litestar_gateway/application/completion_service.py:372-460 | so does any run, with entries expiring and the cache failing at any moment |
| ResponseCache.TransparencyNeedsAbsorption | src/litestar_gateway/application/completion_service.py:391-397 | a second scope gets its uncached answer iff its guard treats the stored body as the original |
| ResponseCache.ScopedGuardsShowThrough | src/litestar_gateway/application/completion_service.py:391-397 | a world of idempotent guards in which a scope that redacts nothing is answered with what another scope redacted |

## Left out

- Metering.Meter.ReleaseAll: a store that fails to release leaves the claim to its time to live; releases succeed here.
- Metering.Meter.LiveTotal: does not model the sweep of expired claims, since claims carry no time here; neither the store nor `Fleet` lets one expire, and only `SpendBound.RunIsBounded`, whose releases may come at any moment, covers expiry.
- Metering.Meter.TryReserve: the store's floats are whole cost units, a meter with no store wired (library use only) is not modelled, and neither is a cancellation after the store has recorded a claim and before its id is returned, which strands it until it expires.
- Requests.Prepare: resolution, routing, validation and guardrails before admission are one possible error; billable calls a routing strategy makes are requests of their own.
- Requests.ExpiredIsLast: the event loop's timer and the loop's own reading of elapsed time are one clock.
- Fleet.FleetSpendBound: the scope's spend is what requests were billed; a charge that lands in the outbox reaches the ledger only with the background reconciler, which is not modelled.
- Dispatch.ChatWithFailover: circuit-breaker bookkeeping, traces and routing records are not modelled.
- StreamMetering.Session: the settlement timeout never fires, providers report natural counts, and a collector runs after the client is done; the native Anthropic and Gemini generators are not modelled.
- Pricing.RefusedRateCredits: a negative price too small to survive conversion, or under a key no call can ask for, is refused though harmless.
- Pricing.ReservationDominates: assumes the provider's counts stay within the character estimate and the requested ceiling.
- BudgetAlerts.AlertsFireExactlyOnce: one team, one window kind, limit and thresholds fixed.
- BudgetAlerts.CrossedThresholds: exact arithmetic, where the program divides in decimals of 28 digits; an evaluation that fails midway is one that is never finished.
- CallableAliases.EffectiveBindings: sorting is modelled as taking the bindings in any order, since the result does not depend on it.
- RouterPreflight.Preflight: identities inside a config are compared as text, so one the program cannot parse is an unreachable identity here and an exception there; a shadow config that is not an object is a problem here and, but for empty lists and texts, an exception there.
- KeyLifecycle.RunKeepsInv: team deletion, which removes keys, and the audit record of a rotation are not modelled.
- ResponseCache.CacheDispatcher.Dispatch: the semantic tier, which answers by similarity and so promises no transparency, is off.
- ResponseCache.RunIsTransparent: takes the digest as injective, the provider as a function of the canonical view and guards as stable, and leaves the semantic tier off.
- Web controllers, configuration, adapters, hashing, e-mail and webhook delivery, the similarity measure and guardrail providers: plumbing or outside calls, replaced by the contract their callers rely on.
- Permission tables, list paging, tool schemas and provider feature tables: each is settled by reading one branch or loop.
