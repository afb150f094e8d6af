# Verified model of the LLMate gateway

LLMate routes requests for language models to several providers. This project models the parts of it whose
behaviour depends on state and time, and proves what they guarantee over every input, every run and every
interleaving. One module per component:

| file | component |
|---|---|
| `Circuit.dfy`, `CircuitRuns.dfy` | the sliding-window circuit breaker, and what it guarantees over whole runs |
| `Limiter.dfy` | fixed-window request and token limits per API key |
| `Catalog.dfy`, `Strings.dfy` | the in-memory routing index, against plain scans of its tables |
| `Reload.dfy` | the coalescing reload protocol between table writers, notifiers and the reload worker |
| `Selection.dfy`, `BreakerBank.dfy`, `Router.dfy` | weighted priority selection, the router's breaker objects, the two in-place filters, routing |
| `Failover.dfy`, `Interference.dfy` | the retry loops, and a request failing over while others use the same breakers |
| `Streaming.dfy`, `StreamLaws.dfy`, `Collector.dfy` | the stream pipeline, from scanned lines to stored chunks and the text rebuilt from them |
| `Pricing.dfy`, `Tallies.dfy`, `TimeSeries.dfy` | cost of a request, adding up logs, the usage chart of the database |
| `Buckets.dfy`, `Accumulator.dfy` | the hourly in-memory usage statistics and their dashboard |
| `Dashboards.dfy`, `Charts.dfy` | what the dashboard and both charts say about the logs, field by field |
| `Prelude.dfy`, `Models.dfy` | shared vocabulary and the rows of the tables |

`dafny verify dfyconfig.toml` checks all of it.

Times are integers in nanoseconds, floating-point numbers are reals, and every mutex-protected method is one
atomic step that takes its clock reading as a parameter. Where a run needs it, the clock does not go back.
Methods that change state are classes and methods proved against functions of the old value; the guarantees
are then lemmas about those functions. The usage statistics are compared throughout with one reference,
`Tallies.Tally`, which adds up the contributions of the logs a span of time and a key select; `Dashboards` and
`Charts` then read the results by the fields of the logs alone. In the same way `StreamLaws` reads a stream line
by line, and `CircuitRuns.RunsLikeTheFullHistory` compares the breaker with a machine that never forgets.

## Where the code does not do what its comments or its design suggest

- `internal/models/routing.go:3` calls the routing data a consistent snapshot. The four reads behind it can
  tear (`Reload.TwoWritesCanTear`), exactly when a table is written after being read and another is then
  written before being read (`Reload.TornExactlyWhen`); one write, or any number of writes to one table, cannot.
- A failed reload consumes its token, so a notified write can stay unpublished until the next notification
  (`Reload.FailedReloadLosesItsToken`; exactly when, in `Reload.BehindExactlyWhenOwed`).
- An answer below 500 that is not a 2xx counts as a success for the breaker when it is streamed, and as nothing
  otherwise (`Failover.OnlySuccessesReportAlike`).
- A closed breaker may sit above its threshold (`CircuitRuns.ClosedRateMayExceedThreshold`): which calls take it
  there is `CircuitRuns.ClosedGoesOverExactly`, and what keeps it below `CircuitRuns.ClosedStaysWithinThreshold`.
  Half-open lets everything through, not one probe.
- Lengthening the window after calls were recorded does not bring pruned entries back
  (`CircuitRuns.LongerWindowDoesNotRecover`; exactly when it matters, in `CircuitRuns.WindowIsExactExactlyWhen`).
- `internal/proxy/catalog.go:152-154` says a model description is missing for an id that is not routable. It is
  also missing for a routable alias of a model that no row lists (`Catalog.RoutableWithoutDescription`; exactly
  when, in `Catalog.DescriptionMissingExactly`), and for a name that is an alias and a direct model it describes
  the direct row, not the one requests go to (`Catalog.AliasIsDescribedByAnotherRow`,
  `Catalog.DescribedDiffersExactly`). A public id need not be routable (`Catalog.RoutableVersusPublic`).
- `input_tokens` of the database chart is a difference of two sums, while the accumulator clamps each log at
  zero: by how much they differ, and when they agree, is `TimeSeries.InputTokensAgreeExactly`.
- Any k minutes let through at most (k+1)*RPM - 1 requests of a key, and for every RPM and k there is a run
  that reaches this (`Limiter.RequestRateBoundIsTight`).

## Model
| member | source | states |
|---|---|---|
| `Circuit.CompactAfter` | internal/proxy/circuit.go:65-79 | compacting a timestamp slice into its own backing array leaves exactly the entries later than the cutoff, in order |
| `Circuit.Append` | internal/proxy/circuit.go:112-128 | appending in place or into a larger copy: the old entries followed by the new one |
| `Circuit.CircuitBreaker.constructor` | internal/proxy/circuit.go:33-43 | a new breaker is closed, with empty lists and the production defaults |
| `Circuit.CircuitBreaker.Configure` | internal/proxy/circuit.go:46-58 | each setting changes only to a legal value; nothing else changes |
| `Circuit.CircuitBreaker.PruneAt` | internal/proxy/circuit.go:62-80 | both lists lose exactly what is not later than the cutoff |
| `Circuit.CircuitBreaker.Allow` | internal/proxy/circuit.go:84-103 | answers yes exactly when the breaker is not open or its cooldown has passed; the only other effect is then Open to HalfOpen |
| `Circuit.CircuitBreaker.RecordSuccess` | internal/proxy/circuit.go:106-119 | the whole new value of the breaker after a success; in particular a half-open one is closed now and has no failures |
| `Circuit.CircuitBreaker.RecordFailure` | internal/proxy/circuit.go:122-145 | the whole new value of the breaker after a failure; in particular a half-open one is open now |
| `CircuitRuns.PrunedListsRefineHistory` | internal/proxy/circuit.go:62-145 | for every run with a nondecreasing clock and any reconfiguration, each pruned list is the unpruned history cut at the latest cutoff any record call reached |
| `CircuitRuns.RecordSeesExactWindow` | internal/proxy/circuit.go:106-128 | right after a record call, unless the window grew after something was recorded, the lists are the failures since the last reset and all successes inside the window |
| `CircuitRuns.OverThresholdMeans` | internal/proxy/circuit.go:135-139 | the rate comparison holds exactly when failures exceed threshold times all calls |
| `CircuitRuns.FailureTripsExactly` | internal/proxy/circuit.go:122-145 | whenever no entry inside the window was pruned before, a failure opens a closed breaker exactly when f > threshold*(f+s) over the unpruned history inside the window, a half-open one always, and leaves an open one alone |
| `CircuitRuns.KeptWindowIsIntact` | internal/proxy/circuit.go:62-80 | nothing inside the window was pruned before if the window has not grown since the first record call, however it was configured before that |
| `CircuitRuns.FixedSettingsTripExactly` | internal/proxy/router.go:47-61 | a breaker configured before its first use and always alike, with any window: every failure call decides on the whole history inside its window, and every record call leaves exactly that history |
| `CircuitRuns.WindowIsExactExactlyWhen` | internal/proxy/circuit.go:62-145 | for any reconfiguration, each list is the history inside the current window if and only if no entry of it was pruned before at a later cutoff |
| `CircuitRuns.LongerWindowDoesNotRecover` | internal/proxy/circuit.go:62-80 | a concrete run in which a lengthened window misses a failure that lies inside it |
| `CircuitRuns.ClosedRateMayExceedThreshold` | internal/proxy/circuit.go:106-145 | a concrete run that ends closed with a rate above the threshold |
| `CircuitRuns.ClosedGoesOverExactly` | internal/proxy/circuit.go:46-145 | for any breaker and any call, read off beforehand: the call leaves a closed breaker above its threshold if and only if it is a success that prunes enough successes, a threshold set low enough, or an Allow on one already there; never a failure |
| `CircuitRuns.ClosedOverAfterRecord` | internal/proxy/circuit.go:106-145 | over the unpruned history, after a record call a closed breaker is above its threshold exactly when the call was a success and the failures in the window outvote the threshold |
| `CircuitRuns.ClosedStaysWithinThreshold` | internal/proxy/circuit.go:106-145 | over a whole run, if since the last failure or reset no success has aged out and the threshold was not lowered, a closed breaker is within its threshold |
| `CircuitRuns.OpenIsLeftByAllow` | internal/proxy/circuit.go:84-145 | an open breaker changes state only by an Allow after its cooldown, to HalfOpen |
| `CircuitRuns.Transitions` | internal/proxy/circuit.go:84-145 | every move between states, on the states and times themselves: Open is left only by an Allow after the cooldown, HalfOpen only by a success to Closed or a failure to Open, Closed only by a failure; the time of the last change is that of the move |
| `CircuitRuns.AllowsUnlessCooling` | internal/proxy/circuit.go:84-103 | an Allow is refused only while the breaker is open and its cooldown has not passed |
| `CircuitRuns.ResetForgetsFailures` | internal/proxy/circuit.go:106-145 | a success on a half-open breaker closes it and forgets its failures: the next one opens it only if, alone, it outvotes the successes in the window |
| `CircuitRuns.RunsLikeTheFullHistory` | internal/proxy/circuit.go:62-145 | over every run whose window is not lengthened after use, the breaker, which prunes, goes through the same states at the same times as a plain machine that keeps its whole history and counts it anew at every failure |
| `CircuitRuns.OpenRefusesUntilCooldown` | internal/proxy/circuit.go:84-145 | whatever calls interleave before the cooldown has passed, every Allow is refused and the breaker stays open since the same time |
| `CircuitRuns.OpeningsAreSpaced` | internal/proxy/circuit.go:84-145 | over a whole run each entry into Open comes at least one cooldown after the one before |
| `CircuitRuns.TripSpacing` | internal/proxy/circuit.go:84-145 | from any state of the breaker, the j-th entry into Open comes at least (j-i) cooldowns after the i-th |
| `CircuitRuns.ConfiguredTripSpacing` | internal/proxy/router.go:47-61 | the same for a breaker configured with any legal cooldown that is then never shortened, by that cooldown |
| `CircuitRuns.TripsAreRateLimited` | internal/proxy/circuit.go:84-145 | a stretch shorter than n cooldowns holds at most n openings |
| `Limiter.KeyLimiterEntry.Admit` | internal/proxy/auth.go:69-91 | one entry after a request, and its verdict: requests are charged first, tokens only if that admits |
| `Limiter.KeyLimiter.Allow` | internal/proxy/auth.go:54-92 | the whole map of entries after a call, verdict and message; no limits means no effect |
| `Limiter.WindowBound` | internal/proxy/auth.go:69-91 | one fixed window over any run of charges of at least a unit: at most (k+1)*limit less that unit is admitted in k minutes |
| `Limiter.RequestRateBound` | internal/proxy/auth.go:54-92 | any half-open k minutes let through at most (k+1)*RPM - 1 requests of a key |
| `Limiter.RequestRateBoundIsTight` | internal/proxy/auth.go:69-78 | for every RPM and k a run that reaches that bound |
| `Limiter.AdmittedExactly` | internal/proxy/auth.go:69-91 | over every run of requests of a key: a request is turned away for requests, or for tokens, if and only if the requests since its window started, or the tokens since the token window started of the requests that were not too many, are above the limit, itself included |
| `Limiter.FirstRequestIsAllowed` | internal/proxy/auth.go:69-91 | a first request that alone is within the limits is let through |
| `Limiter.TokenRateBound` | internal/proxy/auth.go:54-92 | the estimated tokens of the requests let through in k minutes are at most (k+1)*TPM |
| `Limiter.TokenRateBoundIsTight` | internal/proxy/auth.go:80-89 | for every TPM and k a run that lets (k+1)*TPM tokens through in k minutes |
| `Limiter.BothBoundsAreTight` | internal/proxy/auth.go:69-91 | with any two limits one run reaches the request bound and the token bound together |
| `Limiter.PromptBytesBound` | internal/proxy/auth.go:54-101 | with both limits, the bytes of known length let through in k minutes are at most 4*(k+1)*TPM + 3*((k+1)*RPM - 1) |
| `Limiter.RejectionLasts` | internal/proxy/auth.go:69-91 | once a limit has rejected, every later request in that window of that limit is rejected |
| `Catalog.IndexProviders` | internal/proxy/catalog.go:189-192 | looking a provider up in the index is scanning the rows for it |
| `Catalog.IndexEndpoints` | internal/proxy/catalog.go:194-203 | a path is indexed exactly when a supported and enabled row lists it |
| `Catalog.IndexModels` | internal/proxy/catalog.go:205-227 | model lookups are row scans; direct candidates are the available rows at healthy providers in table order; seen ids are those of available rows |
| `Catalog.IndexAliases` | internal/proxy/catalog.go:229-250 | alias candidates are the order-preserving filter of the alias rows: enabled, healthy provider, not marked unavailable |
| `Catalog.SortedIDs` | internal/proxy/catalog.go:252-256 | whatever order the map yields its keys in, the list is sorted, without repeats, with exactly those ids |
| `Catalog.BuildRoutingSnapshot` | internal/proxy/catalog.go:188-266 | every lookup in the snapshot answers as a plain scan of the four tables does, and the public list is sorted and exact |
| `Catalog.ProviderRowMeans` | internal/proxy/catalog.go:189-192 | the provider found for an id is its last row |
| `Catalog.ModelRowMeans` | internal/proxy/catalog.go:205-211 | the model row found for a provider and a model is the last one |
| `Catalog.DirectScanMeans` | internal/proxy/catalog.go:213-227 | the direct candidates of a name are those of its available rows at healthy providers, with weight 1 and priority 0 |
| `Catalog.AliasScanMeans` | internal/proxy/catalog.go:229-250 | the candidates of an alias are those of its enabled rows at healthy providers for models not marked unavailable, each with the weight and the priority of its row |
| `Catalog.ScansGrowAtTheEnd` | internal/proxy/catalog.go:205-250 | candidates stand in table order, at most one for each row |
| `Catalog.PublicListMeans` | internal/proxy/catalog.go:208-256 | the public list names the models that some row has as available and the usable aliases, in ascending order |
| `Catalog.PublicListIsDetermined` | internal/proxy/catalog.go:252-256 | two builds from the same tables publish the same list |
| `Catalog.RoutableVersusPublic` | internal/proxy/catalog.go:208-250 | every routable name is public; a public name is unroutable exactly when it is no usable alias and all its available rows are at missing or unhealthy providers |
| `Catalog.EndpointLookupMatchesTable` | internal/proxy/catalog.go:125-143 | an endpoint is found if and only if a row that is supported and enabled has the provider and the path, with a slash in front if it has none |
| `Catalog.AliasShadowsDirectOnlyInRouting` | internal/proxy/catalog.go:155-165 | the router prefers an alias, the model description a direct row: what each returns in terms of the tables |
| `Catalog.DescriptionMissingExactly` | internal/proxy/catalog.go:152-165 | a name has no description if and only if it is no direct model and is no usable alias or one whose first candidate has no model row; and when a routable name has none |
| `Catalog.RoutableWithoutDescription` | internal/proxy/catalog.go:152-165 | tables in which a name is routable and has no description |
| `Catalog.DescribedDiffersExactly` | internal/proxy/catalog.go:155-165 | the row described is not that of the first routed candidate if and only if the name is an alias and a direct model whose first rows differ |
| `Catalog.AliasIsDescribedByAnotherRow` | internal/proxy/catalog.go:155-165 | tables in which requests go to one model and another is described |
| `Catalog.SharedSnapshot.CopyAliasCandidates` | internal/proxy/catalog.go:106-115 | a fresh copy of the shared list, or nothing for a missing or empty one |
| `Catalog.SharedSnapshot.CopyDirectCandidates` | internal/proxy/catalog.go:117-123 | a fresh copy of the shared list, empty when there is none |
| `Catalog.ResolvedCandidatesAreHealthy` | internal/proxy/catalog.go:208-250 | every candidate carries the current row of its provider, which is healthy |
| `Strings.SortedListIsUnique` | internal/proxy/catalog.go:256 | a sorted list without repeats is determined by its elements |
| `Strings.BelowMeans` | internal/proxy/catalog.go:256 | the order of ids is the lexicographic one |
| `Reload.NoUpdateIsLost` | internal/proxy/catalog.go:69-100 | in every interleaving, once the channel is empty and the worker idle after a good reload, each published table is at least as new as at the last notification |
| `Reload.BehindExactlyWhenOwed` | internal/proxy/catalog.go:69-100 | at any time and with reloads failing or not, the snapshot is behind the last notification if and only if some table was written after its last good read and that write was then notified |
| `Reload.SnapshotsNeverGoBack` | internal/proxy/catalog.go:93-100 | between any two moments of any run, no published table version decreases |
| `Reload.WorkerCatchesUp` | internal/proxy/catalog.go:69-91 | from every state of the protocol a live worker publishes all that was notified in at most eleven steps of its own |
| `Reload.FailedReloadLosesItsToken` | internal/proxy/catalog.go:75-80 | a run in which a failed reload leaves a notified write unpublished with nothing pending |
| `Reload.TornExactlyWhen` | internal/db/sqlite_routing.go:10-33 | what a reload read is the tables at one moment since it began if and only if no write to a table already read was followed by a write to one not yet read |
| `Reload.OneWriteCannotTear` | internal/db/sqlite_routing.go:10-33 | so with at most one write it read the tables as they were when it began or as they are now |
| `Reload.OneTableCannotTear` | internal/health/checker.go:83-101 | and any number of writes to one table cannot tear a reload |
| `Reload.TwoWritesCanTear` | internal/db/sqlite_routing.go:10-33 | a run with two writes that publishes a combination the tables never were in |
| `Selection.PoolHolds` | internal/proxy/router.go:151-165 | the pool is exactly the positive-weight candidates of maximal priority; lower priorities never step in |
| `Selection.PoolIgnoresOrder` | internal/proxy/router.go:148-165 | reordering the candidates does not change which are in the pool |
| `Selection.SortSlice` | internal/proxy/router.go:148-150 | descending priority and a permutation; ties are left open |
| `Selection.CollectPool` | internal/proxy/router.go:151-165 | the two loops yield that pool and its total weight |
| `Selection.PickIndexIsUnique` | internal/proxy/router.go:169-176 | a pick selects the one position whose stretch of the cumulative weights contains it |
| `Selection.WalkPool` | internal/proxy/router.go:170-177 | the cumulative walk returns that position before its end; the final return is dead |
| `Selection.SelectWeightedPriority` | internal/proxy/router.go:147-178 | fails exactly when the pool is empty; otherwise returns the pool member the pick selects |
| `Selection.WeightIsNumberOfPicks` | internal/proxy/router.go:169-176 | exactly weight(i) of the picks select position i |
| `Selection.CandidateHitsLaw` | internal/proxy/router.go:169-176 | a candidate is selected by as many picks as its copies weigh together |
| `Selection.SelectionIgnoresTieOrder` | internal/proxy/router.go:148-178 | how the unstable sort orders ties changes neither the number of picks nor how many select a candidate |
| `BreakerBank.Breakers.Get` | internal/proxy/router.go:30-45 | finds the breaker object of a provider or installs a new one; no other breaker changes |
| `BreakerBank.Breakers.Configure` | internal/proxy/router.go:47-61 | reconfiguring one shared breaker object changes its value and that of no other |
| `BreakerBank.Breakers.Allow` | internal/proxy/router.go:129-132 | asking one shared breaker object: its answer, its new value, and no other breaker changes |
| `BreakerBank.Breakers.RecordSuccess` | internal/proxy/router.go:184 | a success recorded on one shared breaker object, slices included, leaves every other breaker alone |
| `BreakerBank.Breakers.RecordFailure` | internal/proxy/router.go:191 | likewise for a failure |
| `Router.SmartRouter.SyncBreakerConfig` | internal/proxy/router.go:47-61 | the breaker of the provider, created if need be, gets the settings of a known provider; no other breaker changes |
| `Router.SmartRouter.FilterByCircuitBreaker` | internal/proxy/router.go:121-135 | in place, in order: the candidates let through, each judged by the breakers as the earlier ones left them; and the breakers afterwards |
| `Router.SmartRouter.Ask` | internal/proxy/router.go:124-132 | one candidate is let through unless its breaker is enabled and refuses; and the breakers afterwards |
| `Router.SmartRouter.FilterByEndpoint` | internal/proxy/router.go:137-145 | in place, in order: the candidates whose provider has the endpoint enabled |
| `Router.SmartRouter.ResolveCandidates` | internal/proxy/router.go:105-119 | a fresh copy of the shared alias candidates, or else of the direct ones |
| `Router.SmartRouter.Choose` | internal/proxy/router.go:87-95 | both filters and the selection on the copy: the pool member a pick selects among the survivors, or nothing when the pool is empty |
| `Router.SmartRouter.Route` | internal/proxy/router.go:81-103 | returns the pool member a pick selects among the survivors of both filters, or fails when that pool is empty; the breakers afterwards; the shared lists of the snapshot stay as they were |
| `Router.RouteIsSoundAndComplete` | internal/proxy/router.go:81-178 | the targets Route can return are exactly the candidates of positive weight and maximal priority among those that have an enabled endpoint and whose breaker, by its state and times before the call, is disabled, absent, not open or past its cooldown; all healthy in the tables; it fails exactly when there is none |
| `Router.SurvivorsMeans` | internal/proxy/router.go:121-145 | what is left to choose from is exactly the candidates with an enabled endpoint whose breaker is disabled or was, at some ask of the call, not cooling down |
| `Router.LetsThroughMeans` | internal/proxy/router.go:121-135 | a provider is let through if and only if its breaker is disabled or not both open and within the cooldown, seconds being those of its row |
| `Router.GetsPastMeans` | internal/proxy/router.go:121-135 | for the candidates of one call, each judged by the breakers as the earlier asks left them: the same condition on the breakers as they were before the call |
| `Router.FreshBreakersLetThrough` | internal/proxy/router.go:121-135 | a router that has not routed yet lets every candidate through |
| `Router.SettingsAreTheProviders` | internal/proxy/router.go:47-61 | a breaker runs with the threshold, the window and the cooldown of its provider, each in its place |
| `Router.ReportMeans` | internal/proxy/router.go:180-192 | a report changes the breaker of its provider only and adds one success or one failure to it, unless the provider is known and its breaker disabled |
| `Router.SmartRouter.ReportSuccess` | internal/proxy/router.go:180-185 | a success reaches the breaker unless the provider disables it; unknown providers keep theirs |
| `Router.SmartRouter.ReportFailure` | internal/proxy/router.go:187-192 | likewise for a failure |
| `Failover.ProxyNonStreaming` | internal/proxy/handler.go:397-581 | for any number of attempts and outcomes the sends, reports, records and responses are those of the account, every report names the provider of the latest send, and nothing is sent after the answer; the code after the loop is unreachable |
| `Failover.StopsAtFirstSettlement` | internal/proxy/handler.go:397-577 | the loop ends at the first cancellation or response below 500, or when attempts run out |
| `Failover.RetryAccounting` | internal/proxy/handler.go:397-581 | one record and, unless the client has gone, one response, both with the status of the last answer, or 503, 500, 502 or 499 by how the last attempt ended; failure reports for the failed attempts, then a success report of the last provider exactly for a 2xx |
| `Failover.SendsNameTheirAttempts` | internal/proxy/handler.go:405-470 | the sends name, in order, the providers of exactly the attempts that had a route and a request |
| `Failover.ReportsNameTheirAttempts` | internal/proxy/handler.go:471-530 | the failure reports name, in order, the providers of exactly the attempts that broke off, could not be read or were answered by 500 or more |
| `Failover.FailureReportsAreCounted` | internal/proxy/handler.go:471-511 | as many failure reports as failed attempts |
| `Failover.HandleStreamingRequest` | internal/proxy/handler.go:984-1166 | the same accounting for a streamed request, with the end of the stream, and the same order of effects; the branch for a missing response is unreachable |
| `Failover.FinishStream` | internal/proxy/handler.go:1108-1165 | the client gets 200; the report and the recorded status follow how the stream ended |
| `Failover.StreamRetryAccounting` | internal/proxy/handler.go:984-1166 | the status recorded and answered, and the reports, by how the request ended: an answer below 500 is a 200 to the client, recorded with its own status if the stream ran to its end and as 200 otherwise, a success, a failure or no report by how the stream ended; a 5xx ends as 503, anything else as in the other loop |
| `Failover.OnlySuccessesReportAlike` | internal/proxy/handler.go:1125-1134 | after any outcomes, an answer below 500 that ends a request is reported alike when proxied whole and when streamed to its end if and only if it is a 2xx; any other is no report in the one and a success in the other |
| `Interference.FailoverRespectsTheBreaker` | internal/proxy/handler.go:397-530 | for all interleavings with other requests and health checks, no attempt goes to an enabled provider before the cooldown of every trip this request left there has passed, and sends stay within N |
| `Interference.CoolingIsRefused` | internal/proxy/router.go:121-135 | an open breaker that is cooling down never lets its provider through the filter |
| `Interference.StepKeepsInv` | internal/proxy/handler.go:397-530 | every step of the request or of anybody else keeps the trips either open or cooled |
| `Interference.AloneItRoutes` | internal/proxy/router.go:121-135 | without interference the steps ask the same breakers in the same order and keep the same candidates as the router does in one call |
| `Interference.AloneItChooses` | internal/proxy/router.go:81-103 | and choose exactly what Route could return, or find no route exactly when it finds no provider |
| `Interference.SendingActs` | internal/proxy/handler.go:440-530 | a chosen provider is sent to once, its outcome is reported to its own breaker, and a failure that leaves the breaker open is recorded as a trip |
| `Streaming.UsageIsLatest` | internal/proxy/streaming.go:25-40 | folding the usage chunks gives the counts of the last one and the last cached count reported |
| `StreamLaws.LastDetailsMeans` | internal/proxy/streaming.go:25-40 | the cached count is that of the last chunk to report one |
| `Streaming.WindowIsLongestFittingSuffix` | internal/proxy/streaming.go:65-76 | the buffer holds the longest suffix whose bytes fit, or the last line alone; and only that |
| `StreamLaws.BytesAreRawLengths` | internal/proxy/streaming.go:65-76 | the bytes counted are the length of the raw lines written one after another |
| `Streaming.StreamingBuffer.Add` | internal/proxy/streaming.go:65-76 | after any added lines the entries are that suffix, the byte count their sum, and evicted says whether it is proper |
| `Streaming.StreamingBuffer.GetAll` | internal/proxy/streaming.go:79-85 | the window of all added lines, and whether it is not all of them |
| `Streaming.CappedIsPrefix` | internal/proxy/streaming.go:234-239 | the capped body is a prefix of the whole text, and all of it unless the cap was passed |
| `Streaming.EarlyCapIsInvisible` | internal/proxy/handler.go:277-282 | truncating the capped body and truncating the whole text store the same string |
| `StreamLaws.TruncatedMeans` | internal/proxy/handler.go:277-282 | a longer body keeps its first bytes and ends in the mark; any other, and every body when the limit is 0, is kept whole |
| `StreamLaws.CappedMeans` | internal/proxy/streaming.go:234-239 | the body is the text of the first pieces up to the one that takes it past the cap, or of all of them |
| `Streaming.TakePayload` | internal/proxy/streaming.go:204-239 | what one payload adds to the usage, the time to the first token and the capped text |
| `Streaming.ProxyStreaming` | internal/proxy/streaming.go:150-251 | for all lines, connections that cannot be flushed, write failures and scan failures the results are simple functions of the lines before the first [DONE] |
| `StreamLaws.LineMeans` | internal/proxy/streaming.go:175-202 | which lines are data, which payload ends the stream, and which are taken in |
| `StreamLaws.TrimCRMeans` | internal/proxy/streaming.go:177-178 | exactly the carriage returns at the end of a line are dropped |
| `StreamLaws.ClientGetsTheLines` | internal/proxy/streaming.go:175-189 | the client gets the lines in order, trimmed of carriage returns, and rewritten if and only if the model was an alias |
| `StreamLaws.StreamEnds` | internal/proxy/streaming.go:150-251 | for each way a stream can end, exactly when it does, and how many lines the client has by then |
| `StreamLaws.StreamGives` | internal/proxy/streaming.go:191-251 | which lines are taken in, and what is made of them: the time to the first, the usage, the capped text and the window of the latest lines, or nothing of these two after an error |
| `StreamLaws.UsageLinesOf` | internal/proxy/streaming.go:207-232 | the usage reports are those of the payload lines that carry one, in order |
| `Streaming.TakeStreamingChunks` | internal/proxy/streaming.go:87-92 | the window of the live lines when tracking, nothing otherwise |
| `Collector.AcceptedJobsAreConserved` | internal/metrics/collector.go:42-71 | in every interleaving accepted jobs are processed in order at most once, the rest is in the channel, and a worker that left had processed all accepted by then |
| `Collector.DroppedExactlyWhenFull` | internal/metrics/collector.go:42-48 | in every reachable state with the channel open, a job is dropped if and only if the channel is full |
| `Collector.EveryJobIsAcceptedOrDropped` | internal/metrics/collector.go:42-48 | of the jobs offered before the channel is closed each is accepted or dropped, and counted once |
| `Collector.TakingDrains` | internal/metrics/collector.go:50-71 | a worker that keeps taking empties the channel and has then processed everything accepted |
| `Collector.Persist` | internal/metrics/collector.go:79-113 | the stored log carries its cost, worked out as the database would when it came with none; the statistics get the log with its current rates; chunk rows follow, and a failed insert keeps what came before it |
| `Collector.StoredCostMeans` | internal/metrics/collector.go:80-90 | a cost that came with the log stands; otherwise one is stored exactly when the log names provider and model, the catalog has their row and its rates give more than nothing |
| `Collector.StoreChunks` | internal/metrics/collector.go:103-111 | chunk rows are numbered from 0 in arrival order with the truncation mark only on row 0 |
| `Collector.CumulativeBodies` | internal/admin/handler.go:1252-1256 | each row is shown with the text of all rows up to it |
| `Collector.StreamLoggingEndToEnd` | internal/proxy/streaming.go:175-251 | the text shown at the last row is a suffix of the full delta text, all of it when nothing was evicted, and equals the reconstructed body when also uncapped; the stored body truncates the full text |
| `Pricing.RowCostsAgree` | internal/pricing/request_log.go:20-42 | for one row, with every column possibly null, ForRequestLog and the three SQL cases agree |
| `Pricing.CostMeans` | internal/pricing/request_log.go:20-42 | each component is tokens by the million times its own rate, input beyond the cached tokens only, and nothing without tokens or without a rate |
| `Pricing.CostsAgree` | internal/db/sqlite_stats.go:14-36 | adding up the breakdowns of any rows gives the three SQL sums, and their total |
| `Tallies.TallySplit` | internal/stats/accumulator.go:84-124 | a span cut in two loses nothing and counts nothing twice |
| `Tallies.RetainKeepsWholeHours` | internal/stats/accumulator.go:334-341 | dropping the logs of hours before a cutoff leaves every other hour whole |
| `Tallies.RetainTwice` | internal/stats/accumulator.go:334-341 | of two cutoffs the later one decides |
| `Charts.RetainMeans` | internal/stats/accumulator.go:334-341 | pruning keeps, in order, exactly the logs of the hours that start at or after the cutoff |
| `Tallies.KeysPartitionTheLogs` | internal/stats/accumulator.go:278-331 | the tallies over models, over providers and over API keys each add up to the totals |
| `Buckets.BucketStats.ApplyLog` | internal/stats/accumulator.go:245-332 | the whole new value of a bucket after one log |
| `Buckets.CreditTo` | internal/stats/accumulator.go:282-294 | the entry of the log's key after one log, created with its name if new |
| `Buckets.MergeInto` | internal/stats/accumulator.go:92-102 | merging the entries of a bucket in any order gives the same map |
| `Buckets.PooledMean` | internal/stats/accumulator.go:347-353 | the weighted average of two means is total latency over total count |
| `Buckets.AppliedBucketHolds` | internal/stats/accumulator.go:245-332 | a bucket right for some logs is, after one more, right for all of them: keys, counts, errors, tokens, exact means and names |
| `Buckets.RetainedBucketHolds` | internal/stats/accumulator.go:334-341 | pruning other hours leaves a bucket right |
| `Buckets.MergedGroupsHold` | internal/stats/accumulator.go:92-123 | entries right for two disjoint sets of hours merge into entries right for both |
| `Accumulator.Accumulator.Record` | internal/stats/accumulator.go:57-68 | the buckets then stand for the old logs and the new one less those of pruned hours; no log, no effect |
| `Accumulator.Accumulator.EnsureBucket` | internal/stats/accumulator.go:232-243 | the bucket of an hour, or an empty one installed for it |
| `Accumulator.Accumulator.PruneLocked` | internal/stats/accumulator.go:334-341 | exactly the hours that start before the cutoff are dropped |
| `Accumulator.LiveIsTheRetainedRun` | internal/stats/accumulator.go:57-68 | with a nondecreasing clock the buckets stand for all logs ever recorded whose hour starts at or after the latest cutoff |
| `Accumulator.HeldHoursAreComplete` | internal/stats/accumulator.go:57-68 | after any run the map holds an hour exactly when it is not before the latest cutoff and received a log, and its bucket is then right for all logs ever recorded for that hour |
| `Accumulator.SortedList` | internal/stats/accumulator.go:130-141 | for any map order, every entry once, busiest first, ties open |
| `Accumulator.Accumulator.DashboardStats` | internal/stats/accumulator.go:70-143 | for any map order: totals, mean latency, error rate and the three sorted lists are those of the logs of whole hours from since on |
| `Dashboards.ModelsAreResolved` | internal/stats/accumulator.go:276-294 | the entry of a model counts exactly the logs resolved to it and, of the logs without a resolved model, those that asked for it: requests, answers of 400 or more, tokens, mean latency; there is one entry exactly when there are such logs |
| `Dashboards.ProvidersAreByID` | internal/stats/accumulator.go:296-307 | the entry of a provider counts exactly the logs with its id, shows a name one of them carries, and counts no tokens |
| `Dashboards.APIKeysAreByID` | internal/stats/accumulator.go:309-331 | the entry of an API key counts exactly the logs with its id, and shows a name one of them carries, or the id when that has no name, or "No API key" for the logs without one |
| `Dashboards.DashboardTotals` | internal/stats/accumulator.go:84-129 | the number of the logs, their mean latency, and the share of answers of 400 or more |
| `Dashboards.ListsAreOrdered` | internal/stats/accumulator.go:130-141 | each list has its busiest entries first |
| `Accumulator.AllHoursJoined` | internal/stats/accumulator.go:84-129 | the sums over all hours from since on are those read off the logs directly |
| `Accumulator.ListsAddUpToTotals` | internal/stats/accumulator.go:125-142 | requests and errors added up over each of the three lists equal the dashboard totals |
| `Accumulator.Accumulator.TimeSeries` | internal/stats/accumulator.go:145-164 | one point for each bucket from since to until, each the tally of its whole hours |
| `Charts.LivePointMeans` | internal/stats/accumulator.go:145-230 | each point, column by column, adds up the logs of its hour or day; its input tokens are those of each log beyond the cached ones, never below zero |
| `Accumulator.Accumulator.PointFromBucket` | internal/stats/accumulator.go:197-208 | an hour's point is the tally of the logs of that hour, zero when none is held |
| `Accumulator.Accumulator.AggregateDay` | internal/stats/accumulator.go:210-230 | for any map order, a day's point is the tally of the logs of that day |
| `Accumulator.LiveDayIsItsHours` | internal/stats/accumulator.go:210-230 | a day's point of the accumulator is the sum of its 24 hours' points, clamped input tokens included |
| `Accumulator.Accumulator.Backfill` | internal/stats/accumulator.go:166-195 | over a table that does not change, every log since the retention cutoff is recorded exactly once and in order, across pages; a failure at a page leaves exactly the pages before it |
| `Charts.LogsSinceMeans` | internal/stats/accumulator.go:166-195 | the logs taken up are, in order, exactly those no older than the cutoff |
| `Charts.BackfilledMeans` | internal/stats/accumulator.go:166-195 | each at its own clock reading and priced by the rates of its own provider and resolved model; ninety days, pages of 500 |
| `TimeSeries.FillGaps` | internal/db/sqlite_stats.go:276-296 | the buckets from since to until in a row without gaps, with the query's row where there is one and zeros elsewhere |
| `TimeSeries.GroupIsTally` | internal/db/sqlite_stats.go:235-255 | the query's columns for a group are the tally of its rows, input tokens apart |
| `TimeSeries.TimeSeries` | internal/db/sqlite_stats.go:213-298 | each point is the tally of the rows of the window, and of the API key if one is given, in its bucket; an unknown granularity is an error |
| `Charts.PointMeans` | internal/db/sqlite_stats.go:213-298 | each point, column by column, adds up the logs of the window, of its hour or day and of the API key if one is asked for; its input tokens are the difference of two columns |
| `TimeSeries.EveryRowHasItsPoint` | internal/db/sqlite_stats.go:276-296 | every time of the window is covered by one point, that of its bucket, and by no other |
| `TimeSeries.GapFillingConserves` | internal/db/sqlite_stats.go:274-297 | the points add up to all rows of the window |
| `TimeSeries.DayIsItsHours` | internal/db/sqlite_stats.go:276-296 | a day's point is the sum of its 24 hours' points |
| `TimeSeries.InputTokensAgreeExactly` | internal/db/sqlite_stats.go:241 | for all rows, the query shows less input than the accumulator by exactly what clamping takes away log by log; so, negative counts apart, never more, and the same exactly when no row has more cached than prompt tokens |
| `Accumulator.ChartsAgree` | internal/stats/accumulator.go:145-164 | after any run, against a database with the same logs priced alike: for a bucket inside the window and not before the latest cutoff both charts agree but for the clamping, and entirely exactly when clamping takes nothing away |

## Left out
- Router.SmartRouter.Route: all lookups of one call see one published snapshot, so a reload between two of them is not modelled; neither is the joining of the target URL, which no decision depends on.
- Router.SmartRouter.FilterByCircuitBreaker: the asks of one call are one step here; `Interference` lets other callers in between them.
- Circuit.CircuitBreaker.Allow: the second clock reading is merged with the first; it is only stored on entering HalfOpen and never read there.
- Selection.SortSlice: stands for `sort.Slice`, which is not part of this model; nothing beyond its contract is used. Likewise `Strings.Insert` for `sort.Strings`.
- Selection.SelectWeightedPriority: the random pick is any number in range; the distribution of the generator is left out.
- Limiter.KeyLimiterEntry.Admit: Go's zero time is `None`, earlier by more than a minute than every clock reading. Lookup of the key, hashing and the 401 and 429 answers are left out.
- Interference.FailoverRespectsTheBreaker: the catalog and the breaker settings stay fixed while the request runs.
- Failover.ProxyNonStreaming: an attempt is its outcome; headers, bodies, multipart rebuilding and timeouts of the HTTP transport are left out.
- Failover.HandleStreamingRequest: the metrics record with chunks and the one without are one effect.
- Streaming.ProxyStreaming: trimming, rewriting of a line, delta extraction and usage parsing are given functions of the text (JSON is not part of this model).
- Streaming.EarlyCapIsInvisible: a negative limit is excluded, since slicing with it panics in the code.
- Collector.DroppedExactlyWhenFull: the channel is buffered; with a capacity of 0 the code may still hand a job to a worker that waits for one.
- Collector.Persist: the timeout of the inserts is left out; an insert fails or not.
- Catalog.BuildRoutingSnapshot: a map of sets is built as a value and reassigned, where the code fills nested maps in place.
- Buckets.BucketStats.ApplyLog: the entries of the three maps are values that are replaced, where the code updates them through pointers; the triplicated code for the three maps is one method.
- Accumulator.Accumulator.DashboardStats: the names shown for a key are proved to be those of some of its logs, since the map order decides which. `Accumulator.SortedList` stands for `sort.Slice`.
- Accumulator.Accumulator.Backfill: runs over a table that does not change; backfilling a table that is written meanwhile, and the overlap with live recording, are not promised to count once and are left out.
- Accumulator.LiveIsTheRetainedRun: needs a clock that does not go back.
- TimeSeries.TimeSeries: the query engine is replaced by what its text says of the rows (selection, grouping, the column expressions, the left join as an optional model row); timestamp text formats are left out. Hour and day keys are numbers.
- 64-bit overflow of counters and weights and rounding of floating-point sums: integers and reals are mathematical.
- The dashboard and lifetime cost queries of the database, admin CRUD handlers, configuration, the health checker's probes (their reports to the breakers are steps of `Interference`), onboarding of providers, frontends and process start-up.
