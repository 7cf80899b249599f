# Verification of the Studio Production Commander services

These modules model the parts of the system whose behaviour tests cannot settle, and prove
properties of them for every input, every run or every reachable state.

- **Query rewriting** (`QueryTokens`, `PromPasses`, `PromChunks`, `PromRewrite`, `PromTree`, `PromScope`,
  `PromRecency`, `PromMeaning`, `LogQL`, `LogQLMeaning`, `TraceQL`, `TraceScope`, `ToolParameters`). The gateway
  rewrites query text in several passes. Each pass is modelled as the scan it is, over tokens. The composition is
  proved equal to a transformer of syntax trees, and the rewritten query is proved to mean the caller's query over
  one scope's data. Where that fails, the exact condition is proved.
- **Placeholders** (`Masking`, `Restoring`, `Maskers`, `Settling`, `Hanging`). The rewriter's masking, character by
  character: what restoring gives for every masked text, exactly when that is the text meant, and whether it ends.
- **Concurrent protocols** (`Singleflight`, `Remediation`, `RemediationEngine`, `QueryCache`, `Gateway`,
  `GatewayPipeline`). State machines whose steps are the stretches of code between two awaits. The invariants hold
  in every interleaving. Classes run the steps in place and are proved equal to them.
- **Allocators over time** (`Numbering`, `Leases`, `LeaseManager`, `Quota`, `Overtaking`, `RunQuotas`,
  `TokenBucket`).
- **Degradation and what must agree with it** (`Degradation`, `Splitter`, `Readings`, `Simulator`, `RenderWorld`,
  `Scorecard`, `Impact`, `Recovery`). The detector, the simulator that produces its data, the scorecard, the impact
  projection and the post-remediation verifier, with theorems across them.
- **Event log and delivery** (`EventLog`, `EventStream`).

`Common` holds small shared types. `dafny verify dfyconfig.toml` checks everything.

## Reading guide

The rewriting claims are about a fragment of each query language, stated as predicates on phrases or trees
(`PromChunks.Linked`, `PromTree.WellFormed`, `LogQL.WellFormed`, `TraceQL.WellFormed`). A string literal is one token,
because the program masks literals before anything else; `Maskers` shows when masking and restoring is faithful.

Results that are not what the program's comments suggest, each with its exact condition:

- A PromQL scope matcher that stands between two others takes both commas along, so its neighbours fuse.
  `PromScope.RewriteIsScoped` says when the rewrite is right; `PromScope.InteriorMatcherFuses` is the example.
- Words the PromQL identifier pass takes for metrics get label sets they must not have: an operator it does not list,
  `atan2`, unless a bracket follows at once (`PromScope.UnknownOperatorReadAsMetric`); a function with a space behind its
  name (`PromScope.FunctionSpaceDecides`, `PromScope.OperatorSpaceDecides`); the step of a subquery right behind its
  length, `m[5m:1m]` (`PromScope.StepReadAsMetric`). `PromScope.RewriteIsScoped` has the condition for all of them.
- `Inf` or `NaN` alone is wrapped as if it were a selector (`PromRecency.RewriteQueryIsScoped`).
- Rewriting is not idempotent for a LogQL query without a stream selector: the first rewrite turns a scope label into
  a selector, which the second leaves in place (`LogQL.LastScopeWins`).
- A LogQL filter that starts with a scope label and goes on with `and` or `or` leaves its tail behind, which then joins
  the filter in front (`LogQLMeaning.RewriteFuses`). With `and` alone nothing leaks; with `or` it depends on the
  comparisons, and `LogQLMeaning.ConfinedExactly` decides it: `or` and the scope's own value again is harmless
  (`LogQLMeaning.OwnOrIsHarmless`), `or` and another label is not (`LogQLMeaning.ForeignOrLeaks`).
- A TraceQL filter with `||` at the top takes the scope apart (`TraceScope.OrFiltersAreNot`).
- A number alone between two placeholders is taken for a placeholder when a span of that number is put back while both
  are closed; one replacement goes wrong exactly then (`Restoring.ReplaceOpens`), and so does restoring as a whole
  (`Restoring.RestoredExactly`, `Maskers.MaskingUndone`, `Maskers.LiteralsRestored`), as in `"a"1"b"`
  (`Maskers.DigitsBetweenBreakRestoring`).
- The clean-up loop ends on every text when no span holds a span's number between two placeholders
  (`Settling.GaplessSettles`). It need not end otherwise: `a{"p"7"q"9"r"7"s"}+b{"t"0"u"9"v"0"w"}` is a query on which it
  never does, whatever its literals hold (`Hanging.RestoringHangs`).
- `RunQuota.refund` pops the newest stamp, which stands for the refunded run exactly when nobody was admitted at a later
  instant (`Quota.RefundCovers`). A refund leaves the deployment's limit safe in every continuation if and only if the
  popped stamp is the refunded run's or all stamps have left the window by then (`Overtaking.RefundKeepsLimitExactly`);
  for a session's limit only its own runs count (`Overtaking.RefundKeepsSessionLimitExactly`). Every limit can be exceeded
  by a run with one overtaken refund (`Overtaking.OvertakenRefundOveradmits`).
- The number of a crash's error event is stale as soon as anything was emitted, so the event does not reach a stream
  that is up to date (`EventLog.CrashNumberIsStale`, `EventLog.ErrorReachesOnlyEmptyRuns`).
- A failed verification leaves its number to be used again (`EventLog.FailedVerificationNumberIsReused`). Over whole
  runs the numbers go up exactly when every crash met an empty log and a failed verification comes last, if at all
  (`EventLog.OrderExactly`).
- With draws at both ends of their ranges a healthy mixed farm reaches the detector's factor
  (`Simulator.NoneDegraded`, `Simulator.EdgeIsReachable`).
- The gateway's stale fallbacks are never taken (`Gateway.AnswersComeFromUpstream`), and a verification never reports a
  partial recovery (`Recovery.NeverPartial`).

## Model

| member | source | states |
|---|---|---|
| PromRewrite.RewriteRefines | services/mcp-gateway/src/rewriter.py:126-190 | All passes together, on every query of the fragment: each label set loses its scope matchers and gains the scope in front, each bare metric gains a label set, everything else in the text stays |
| PromChunks.StripAllOver | services/mcp-gateway/src/rewriter.py:58-65 | The strip passes remove exactly the matchers on scope labels with the commas around them, and touch nothing outside label sets |
| PromChunks.MaskGroupsOver | services/mcp-gateway/src/rewriter.py:30-33 | Masking hides exactly the grouping clauses |
| PromChunks.AddToBracesOver | services/mcp-gateway/src/rewriter.py:163-168 | Every tidied label set gains the scope in front of what it held; nothing else changes |
| PromChunks.AddToBareOver | services/mcp-gateway/src/rewriter.py:175-190 | The identifier pass followed by restoring gives the printed query in which exactly the bare metrics gained a label set |
| PromScope.RewriteIsScoped | services/mcp-gateway/src/rewriter.py:126-190 | For every tree of the fragment, the rewritten text is the text of the scoped tree if and only if the scope matchers written by the caller stand at the ends of their label sets, no subquery's step stands right behind its length, no unlisted function has a space behind its name, and every operator that is a word is reserved or directly in front of a bracket |
| PromScope.InteriorMatcherFuses | services/mcp-gateway/src/rewriter.py:58-65 | A concrete label set whose interior scope matcher, once removed, leaves its neighbours without a comma |
| PromScope.UnknownOperatorReadAsMetric | services/mcp-gateway/src/rewriter.py:175-190 | `a atan2 b` comes back with a label set behind each of its three words |
| PromScope.StepReadAsMetric | services/mcp-gateway/src/rewriter.py:175-190 | `m[5m:1m]` comes back with a label set behind the metric and another behind `:1m` |
| PromScope.OperatorSpaceDecides | services/mcp-gateway/src/rewriter.py:181-183 | An unlisted operator word in front of a parenthesis is rewritten rightly if and only if no space is between them |
| PromScope.FunctionSpaceDecides | services/mcp-gateway/src/rewriter.py:181-183 | A call of an unlisted function is rewritten rightly if and only if no space stands behind its name |
| PromTree.PrintsLinked | services/mcp-gateway/src/rewriter.py:126-190 | Every well-formed tree (selectors, ranges, subqueries, calls, aggregations with either clause position, binary operators, words among them, with vector matching; spaces in front of parentheses or not) prints inside the fragment |
| PromTree.ScopedBody | services/mcp-gateway/src/rewriter.py:58-65 | Stripping, tidying and prepending agree with the tree transformer on a label set if and only if its scope matchers stand at the ends |
| PromRewrite.LastScopeWins | services/mcp-gateway/src/rewriter.py:136-190 | Rewriting under one scope and then another with the same labels equals rewriting under the other alone, with no condition on the label sets |
| PromRewrite.Idempotent | services/mcp-gateway/src/rewriter.py:136-190 | Rewriting a rewritten query changes nothing |
| PromRecency.BareIff | services/mcp-gateway/src/rewriter.py:193-195 | The recency pattern matches exactly a lone name, or a name with one label set without curly brackets in its values |
| PromRecency.RewriteQueryIsScoped | services/mcp-gateway/src/rewriter.py:201-217 | For the trees rewritten rightly, the text sent upstream is that of the scoped tree, wrapped exactly when the scoped tree is an instant selector without curly brackets in its values (`FreeMatchers`), if and only if the query is not `Inf` or `NaN` alone |
| PromRecency.LastScopeWinsWrapped | services/mcp-gateway/src/rewriter.py:338-345 | On the whole Prometheus path, the `last_over_time` wrapper included, the last scope decides if and only if it wraps whatever the first wraps; it does when its own values hold no curly bracket |
| PromMeaning.RewrittenMeans | services/mcp-gateway/src/rewriter.py:126-142 | For every tree rewritten rightly, over every series database, engine and instant, the rewritten query evaluates to the caller's query, minus its own scope matchers, over the in-scope series only |
| PromMeaning.AnswersFromScopeOnly | services/mcp-gateway/src/rewriter.py:201-217 | For every tree rewritten rightly but `Inf` or `NaN` alone, two databases that agree on one scope give the same answer to the text sent upstream, wrapper included |
| LogQL.RewriteIsScoped | services/mcp-gateway/src/rewriter.py:225-259 | For every pipeline with a stream selector, the rewritten text is the scoped pipeline's text if and only if no filter that starts with a scope label goes on with `and` or `or` |
| LogQL.StripCut | services/mcp-gateway/src/rewriter.py:68-70 | One strip pass takes exactly the first comparison of the filter stages on its label, and makes no new match |
| LogQL.LastScopeWins | services/mcp-gateway/src/rewriter.py:225-263 | The later scope decides if and only if the query has a stream selector |
| LogQLMeaning.ScopedMeaning | services/mcp-gateway/src/rewriter.py:225-234 | The scoped pipeline over the whole log returns what the caller's pipeline, minus its scope filters, returns over the in-scope entries, in the same order |
| LogQLMeaning.AnswersFromScopeOnly | services/mcp-gateway/src/rewriter.py:225-259 | Logs that agree on one scope give the same answer to the rewritten text, chained scope filters included, unless a way leads around the last scope label |
| LogQLMeaning.RewriteFuses | services/mcp-gateway/src/rewriter.py:225-259 | For any scope and any pipeline with a selector whose chained scope filters follow a filter or come first, the rewritten text: what is left of each joins the filter before it, at the front the last scope filter |
| LogQLMeaning.ConfinedExactly | services/mcp-gateway/src/rewriter.py:250-259 | Whatever the engine, its parsers included, only entries of the scope pass the rewritten stages, if and only if, with the last scope label off its value, every choice of one `and` group from each filter holds two comparisons that exclude each other (behind a parser, labels start afresh) |
| LogQLMeaning.AndsDoNotLeak | services/mcp-gateway/src/rewriter.py:68-70 | It is so whenever no `or` is left behind the scope filters put in front |
| LogQLMeaning.ForeignOrLeaks | services/mcp-gateway/src/rewriter.py:250-259 | A scope filter followed by `or` and a comparison on any other label lets entries of other scopes in, under every scope |
| LogQLMeaning.OwnOrIsHarmless | services/mcp-gateway/src/rewriter.py:250-259 | Followed by `or` and the last scope label's own value it does not |
| TraceScope.RewriteIsScoped | services/mcp-gateway/src/rewriter.py:284-309 | For every single filter of the fragment, whatever connectives and groups it uses, the rewritten text is that of the scope, `&&`, and the kept comparisons |
| TraceQL.StripCut | services/mcp-gateway/src/rewriter.py:73-78 | One strip pass takes exactly the comparisons on its label, each with the connective behind it |
| TraceQL.CutCleans | services/mcp-gateway/src/rewriter.py:297-299 | After cleaning up, the stripped filter is the text of the kept comparisons with the connectives between them |
| TraceScope.LastScopeWins | services/mcp-gateway/src/rewriter.py:284-309 | The later scope decides |
| TraceScope.NoFilterMeansScopeOnly | services/mcp-gateway/src/rewriter.py:301-304 | A text that is no filter is replaced by the scope alone, and rewriting that again leaves the later scope alone |
| TraceScope.AndFiltersAreScoped | services/mcp-gateway/src/rewriter.py:284-309 | When the kept comparisons are joined by `&&` only, the rewritten filter and its pipeline answer the caller's query over the in-scope spans |
| TraceScope.OrFiltersAreNot | services/mcp-gateway/src/rewriter.py:306-308 | Whenever a `\|\|` is left at the top, some engine and every span show the rewritten filter accepting a span outside the scope |
| ToolParameters.LastTenantWins | services/mcp-gateway/src/rewriter.py:312-366 | For every tool, rewriting a call's parameters for one tenant and then for another equals rewriting them for the other; what is not a query stays as it is |
| Restoring.ReplaceSwaps | services/mcp-gateway/src/rewriter.py:102-103 | On every text, `str.replace` of a key puts the span in for every pair of NULs with just the key's digits between, leftmost first |
| Restoring.ReplaceOpens | services/mcp-gateway/src/rewriter.py:98-103 | Replacing a key as text opens exactly its placeholders if and only if no other placeholder is followed by the key's digits and the next placeholder; otherwise a NUL is left without its partner |
| Restoring.BackwardExact | services/mcp-gateway/src/rewriter.py:98-103 | The newest-first pass returns the text meant, without a NUL, if the masked text is readable, and a text whose NULs do not pair up otherwise |
| Restoring.RestoredExactly | services/mcp-gateway/src/rewriter.py:98-110 | Restoring returns the text meant if and only if the masked text is readable: no number between two placeholders is that of a span put back while both are closed. No clean-up is needed then, and no number of clean-up rounds helps otherwise |
| Maskers.Masker.Mask | services/mcp-gateway/src/rewriter.py:91-96 | A pass numbers its spans from the spans held so far, stores them, and leaves a text that stands for the same original |
| Maskers.Masker.Restore | services/mcp-gateway/src/rewriter.py:98-110 | The reverse pass and the clean-up loop are the specified ones, for every text on which the loop ends |
| Maskers.Masker.CleanUp | services/mcp-gateway/src/rewriter.py:104-110 | The clean-up loop repeats the forward pass until no NUL is left or nothing changes, on every text on which it ends |
| Maskers.PassesKeep | services/mcp-gateway/src/rewriter.py:81-96 | After any sequence of passes over nested spans the text stands for the original |
| Maskers.MaskingUndone | services/mcp-gateway/src/rewriter.py:81-110 | Masking a NUL-free query by any sequence of passes, over spans that begin and end with no digit, and restoring gives the query back if and only if the masked text is readable |
| Maskers.LiteralsRestored | services/mcp-gateway/src/rewriter.py:81-110 | One pass over the literals of any query, then restoring: the clean-up ends, and the query is back if and only if no number alone between two literals is the index of the second of them or of a later one |
| Maskers.PlainSpansSettle | services/mcp-gateway/src/rewriter.py:104-110 | With literals alone the clean-up loop ends on every text |
| Settling.GaplessSettles | services/mcp-gateway/src/rewriter.py:104-110 | When no span holds a span's number between two placeholders, the clean-up loop ends on every text |
| Hanging.RestoringHangs | services/mcp-gateway/src/rewriter.py:98-110 | A query that, masked by a pass over its literals and one over its label sets, is never restored: no number of rounds ends the clean-up |
| Maskers.DigitsBetweenBreakRestoring | services/mcp-gateway/src/rewriter.py:94-103 | A query with the number 1 alone between its first two literals is restored to a text without the first literal |
| Singleflight.FlightsAreShared | services/mcp-gateway/src/singleflight.py:23-57 | In every interleaving each key has at most one leader between registration and removal, everyone returns the outcome of the flight it joined, and the identity check at removal succeeds |
| Singleflight.ResolvedForGood | services/mcp-gateway/src/singleflight.py:40-53 | A resolved future keeps its outcome over any further run |
| Singleflight.QuietMeansNoFlights | services/mcp-gateway/src/singleflight.py:54-57 | When everyone has returned no flight is registered |
| Singleflight.FollowerIsServed | services/mcp-gateway/src/singleflight.py:30-38 | While a follower waits, it or its own leader can move |
| Singleflight.SingleFlightGroup.Enter | services/mcp-gateway/src/singleflight.py:30-40 | Joining or registering is the machine's step, and says whether the caller leads |
| Singleflight.SingleFlightGroup.Close | services/mcp-gateway/src/singleflight.py:54-57 | Unregistering is the machine's step |
| Remediation.AtMostOnce | services/action-executor/src/executor.py:41-164 | In every interleaving of approvals the control plane is called at most once per key, at most one caller returns the outcome itself, every other answer is the stored result, and no key is audited twice |
| Remediation.QuietMeansSettled | services/action-executor/src/executor.py:41-164 | When nobody is working, every key that was approved has one call, one stored approval, one audit record and exactly one caller that returned SUCCESS or FAILED |
| Remediation.SomeoneCanMove | services/action-executor/src/executor.py:32-60 | No deadlock on the per-key locks |
| Remediation.LocksStayApart | services/action-executor/src/executor.py:32-60 | In every interleaving distinct keys have distinct locks, and at most one caller per key is inside the locked section |
| Remediation.TrailOnlyGrows | services/action-executor/src/audit.py:30-53 | Over any run the audit list only grows and stored approvals never change |
| RemediationEngine.ActionEngine.LockFor | services/action-executor/src/executor.py:32-39 | A key's lock is made once, under the next unused number, and never replaced |
| RemediationEngine.ActionEngine.Check | services/action-executor/src/executor.py:59-69 | The idempotency check under the lock is the machine's step |
| RemediationEngine.ActionEngine.Respond | services/action-executor/src/executor.py:84-97 | The control plane's answer or exception is the machine's step |
| QueryCache.QuantizeTwice | services/mcp-gateway/src/cache.py:38-51 | Quantizing quantized parameters changes nothing |
| QueryCache.QuantizedCache.Get | services/mcp-gateway/src/cache.py:65-98 | Fresh, stale or missing by age; an entry past the tolerance is dropped |
| QueryCache.QuantizedCache.Sweep | services/mcp-gateway/src/cache.py:100-114 | Exactly the entries past the tolerance go |
| Gateway.AnswersComeFromUpstream | services/mcp-gateway/src/main.py:157-260 | Over all runs every answer is what an upstream call for the same tool, tenant, bucket and quantized parameters returned; no request ever holds a stale payload; an address is fetched successfully at most once |
| Gateway.CacheIsFreshOrSilent | services/mcp-gateway/src/main.py:157-183 | In every reachable state the cache answers a request with a payload less than one bucket old, or has nothing and nothing was fetched: never a stale answer |
| Gateway.StepKeeps | services/mcp-gateway/src/main.py:157-240 | Every step of the composition keeps its invariant over cache, flights, requests and upstream calls |
| GatewayPipeline.Pipeline.Receive | services/mcp-gateway/src/main.py:121-183 | Counting, cache lookup and flight registration are the machine's step; the hit counter and the log move exactly on a fresh answer |
| GatewayPipeline.Pipeline.Fetched | services/mcp-gateway/src/main.py:186-206 | Storing and resolving an upstream answer is the machine's step |
| GatewayPipeline.Pipeline.Finish | services/mcp-gateway/src/main.py:208-260 | The handler's cases after the flight are the machine's step, with the answer logged |
| Leases.HoldersAreUnique | services/api-gateway/src/lease.py:26-160 | In every reachable state each session has at most one live lease, and the permission check lets at most one session into a world |
| Leases.LeasesNeverRevive | services/api-gateway/src/lease.py:26-122 | Over any run a lease live at the end was granted on the way or was live at the start and is the same lease, extended |
| Leases.HeldUntilExpiry | services/api-gateway/src/lease.py:26-160 | Over any run of other sessions' operations a lease stays as it is until it expires |
| Leases.OthersUntouched | services/api-gateway/src/lease.py:26-160 | No operation changes another session's live lease or makes one for another session |
| Leases.WritableStays | services/api-gateway/src/lease.py:44-81 | Who holds a live writable world leaves `acquire_lease` with a live writable world |
| Leases.ObserverMeansFull | services/api-gateway/src/lease.py:62-96 | A session is made an observer only when all N worlds are held live by N distinct other sessions |
| Leases.SearchGrants | services/api-gateway/src/lease.py:62-96 | A grant goes to a free key, and is an observer's exactly when every world is taken |
| Leases.WorldsDistinct | services/api-gateway/src/lease.py:22-24 | No two worlds share a name |
| LeaseManager.TenantLeaseManager.AcquireLease | services/api-gateway/src/lease.py:26-96 | The loops of `acquire_lease`, in any dictionary order, are the specified operation and keep the invariant |
| LeaseManager.TenantLeaseManager.HeartbeatLease | services/api-gateway/src/lease.py:113-122 | Extends exactly a live lease of the caller |
| LeaseManager.TenantLeaseManager.ReleaseLease | services/api-gateway/src/lease.py:151-160 | Frees only the caller's own lease and reports whether it did |
| Quota.DeploymentLimitHolds | services/api-gateway/src/quota.py:93-127 | In every world of every run whose refunds do the deployment's queue no harm, in every window of the configured length, no more runs were admitted than the deployment's limit |
| Quota.SessionLimitHolds | services/api-gateway/src/quota.py:93-127 | The same for every session and its limit, whatever the refunds of other sessions' runs do |
| Quota.SessionQueueIsRecent | services/api-gateway/src/quota.py:82-85 | A session's pruned queue is its full history filtered to the window |
| Quota.DeploymentQueueIsRecent | services/api-gateway/src/quota.py:82-85 | The pruned deployment queue is the full history filtered to the window |
| Quota.SessionRefusedWhenFull | services/api-gateway/src/quota.py:110-116 | A start is refused for its session if and only if a window ending now is full of the session's runs |
| Quota.DeploymentRefusedWhenFull | services/api-gateway/src/quota.py:118-123 | A start its session allows is refused for the deployment if and only if a window ending now is full |
| Quota.SessionRefusalsQuoteTheWait | services/api-gateway/src/quota.py:87-91 | The seconds quoted for the session free a slot of its queue, and a second earlier none is free yet |
| Quota.DeploymentRefusalsQuoteTheWait | services/api-gateway/src/quota.py:87-91 | The same of the deployment's queue |
| Quota.RefundCovers | services/api-gateway/src/quota.py:129-141 | Popping the newest stamp forgets the refunded run if and only if nobody was admitted at a later instant |
| Overtaking.RefundKeepsLimitExactly | services/api-gateway/src/quota.py:129-141 | From every sound state, a refund leaves the deployment's limit unexceeded in every continuation if and only if the newest stamp is the refunded run's or all stamps have left the window |
| Overtaking.RefundKeepsSessionLimitExactly | services/api-gateway/src/quota.py:129-141 | The same of a session's limit and its own stamps, with the deployment's limit off |
| Overtaking.OvertakenRefundOveradmits | services/api-gateway/src/quota.py:129-141 | For every deployment limit, a run of starts and one overtaken refund that ends with one start more than the limit within one window |
| RunQuotas.RunQuota.ReserveRun | services/api-gateway/src/quota.py:93-127 | The pruning loops and checks are the specified reservation, with the specified refusal |
| RunQuotas.RunQuota.RefundRun | services/api-gateway/src/quota.py:129-141 | The pops are the specified refund |
| TokenBucket.RateBound | services/mcp-gateway/src/ratelimit.py:23-37 | In every run, of the attempts inside any interval of d seconds at most qps + qps * d succeed, and the tokens stay between 0 and the capacity |
| TokenBucket.Potential | services/mcp-gateway/src/ratelimit.py:23-37 | What is taken plus what is left never exceeds what was there plus what time brought |
| TokenBucket.TokenBucketRateLimiter.Acquire | services/mcp-gateway/src/ratelimit.py:29-46 | The retry loop succeeds at its first look that finds a token, gives up at the first look at or past the timeout that finds none, and ends within timeout / 0.05 + 1 looks, with other callers in between |
| Degradation.DegradedAreTwiceAsSlow | services/common/analysis.py:41-59 | The two groups partition the fleet, the healthy one is not empty, and every degraded duration is at least twice every healthy one |
| Degradation.ScalingKeepsSplit | services/common/analysis.py:41-59 | Scaling all durations by a positive factor changes nothing |
| Degradation.TwoGroupsRecognised | services/common/analysis.py:28-40 | Two non-empty positive groups whose separating ratio is at least 2 and above both internal spreads are returned exactly |
| Degradation.OneBandIsHealthy | services/common/analysis.py:34-40 | A fleet within one band narrower than the factor has nothing degraded |
| Splitter.SplitDegraded | services/common/analysis.py:28-59 | Sorting and scanning for the widest gap returns the split of the fleet, whatever order the dictionary lists it in |
| Splitter.SplitBoth | services/common/analysis.py:45-59 | Two listings of one fleet split alike |
| Splitter.BestIsCut | services/common/analysis.py:46-56 | The scan's running best is the fleet's cut, ties broken towards the lowest |
| Readings.FreshestCounts | services/common/analysis.py:73-101 | Every worker with a usable row gets the value and version of the first of its rows with the newest stamp |
| Readings.ValuesByWorker | services/common/analysis.py:84-101 | The loop computes that map |
| Simulator.DetectorMatchesMarks | services/render-sim/src/world.py:66-153 | In every reachable state with any draws the detector returns exactly the marked workers when some but not all are marked, none when all are, and with none marked finds none if and only if the farm is not on the edge |
| Simulator.StrictDrawsNeverMisread | services/render-sim/src/world.py:141-153 | With tick draws strictly inside their ranges, nothing marked means nothing found |
| Simulator.NoneDegraded | services/common/analysis.py:46-56 | With nothing marked the detector finds nothing if and only if the farm is not on the edge |
| Simulator.EdgeIsReachable | services/render-sim/src/world.py:141-153 | One tick of a new farm can reach the edge |
| Simulator.ScaleAddsOnly | services/render-sim/src/control.py:50-74 | Scaling adds exactly the requested number of workers and overwrites none |
| Simulator.StepKeeps | services/render-sim/src/world.py:90-153 | Trigger, tick, rollback, drain and scale keep every worker in the band of its model and mark |
| RenderWorld.TenantProductionWorld.TickOnce | services/render-sim/src/world.py:134-153 | The loop over the workers is the specified tick |
| RenderWorld.TenantProductionWorld.TriggerIncident | services/render-sim/src/world.py:90-114 | The loop over the named workers marks exactly those that exist |
| RenderWorld.TenantProductionWorld.ScaleWorkers | services/render-sim/src/control.py:50-74 | New workers are numbered from the highest number in use |
| Scorecard.SupportedMeansCorrelated | services/agent-worker/src/agent/hypothesis.py:603-671 | For every ledger a SUPPORTED verdict implies that the correlation test passed and a worker is degraded |
| Scorecard.CleanFleetIsRejected | services/agent-worker/src/agent/hypothesis.py:645-665 | A measured fleet with no degraded worker is REJECTED whatever the other evidence says |
| Scorecard.LowExactlyWhenNotSupported | services/agent-worker/src/agent/hypothesis.py:630-665 | Confidence is LOW exactly when the verdict is not SUPPORTED |
| Scorecard.HighMeansAllOfIt | services/agent-worker/src/agent/hypothesis.py:190-556 | HIGH means: a degraded worker is stalled, the degraded workers are exactly those on one version, the rest are stable, the change was logged before the reading, and render spans dominate when traces are available |
| Scorecard.MediumAt | services/agent-worker/src/agent/hypothesis.py:594-600 | The least number of passes that is at least two thirds, and at least one |
| Impact.ShotsOfUnion | services/impact-engine/src/calculator.py:85-125 | Affected shots, and the deliverables at risk with them, distribute over unions of workers; affected shots are none for no workers, and grow with them |
| Impact.OverrideExactlyWithoutShots | services/impact-engine/src/calculator.py:157-184 | The zero-delay override fires exactly when no shot is affected |
| Impact.DelayIsTheLateness | services/impact-engine/src/calculator.py:35-42 | The delay is the exact lateness in whole minutes, less than one minute below it, and zero exactly when less than a minute late |
| Impact.DelayIsMonotone | services/impact-engine/src/calculator.py:35-42 | The delay does not fall with queue depth and does not rise with throughput or a later deadline |
| Recovery.VerifiedIffNothingToDo | services/action-executor/src/verifier.py:88-149 | On the same readings a verification is VERIFIED if and only if an investigation would end COMPLETED with no options, whenever and whether or not the impact engine answers each of them |
| Recovery.NeverPartial | services/action-executor/src/verifier.py:130-135 | PARTIALLY_RECOVERED is never reported |
| Recovery.SupportedReachesApproval | services/agent-worker/src/agent/planner.py:535-583 | A SUPPORTED verdict always reaches the approval gate with options |
| Recovery.CleanFleetCloses | services/agent-worker/src/agent/planner.py:535-565 | A clean measured fleet is rejected as a regression and closed without options |
| Recovery.IncidentIsNamed | services/action-executor/src/verifier.py:88-130 | In every reachable state of the simulated farm with some but not all workers marked, the verifier names exactly the marked ones |
| Recovery.RollbackIsVerified | services/render-sim/src/world.py:116-132 | After a rollback, whatever ran before and whatever ticks, drains and scalings follow until the next incident, verification succeeds if and only if the farm is not on the edge, where strict draws never put it |
| Recovery.VerifyRecovery | services/action-executor/src/verifier.py:80-149 | The status decision as it runs, with `is_recovered` true exactly for VERIFIED |
| EventLog.NumbersGoUp | services/agent-worker/src/agent/planner.py:136-139 | Over an investigation and successful verifications the numbers start at one and go up |
| EventLog.CrashNumberIsStale | services/agent-worker/src/main.py:117-140 | A crash's error event gets number one, which keeps the order if and only if nothing was emitted before |
| EventLog.ErrorReachesOnlyEmptyRuns | services/stream-service/src/sse.py:73-98 | A stream that is up to date receives a crash's error event exactly when the run had emitted nothing |
| EventLog.FailedVerificationNumberIsReused | services/agent-worker/src/main.py:182-207 | A failed verification keeps the order once, and any verification after it repeats its number |
| EventLog.OrderExactly | services/agent-worker/src/main.py:109-260 | Over every run the numbers go up if and only if every crash met an empty log and a failed verification, if any, is the last operation |
| EventLog.StreamIsASlice | services/stream-service/src/sse.py:73-102 | Whatever its polls see, a stream sends consecutive events from its resume point and stops at the first terminal one |
| EventLog.DeliveriesFormAPrefix | services/stream-service/src/sse.py:32-115 | Over any disconnects and Last-Event-ID resumes the deliveries concatenate to a prefix of the log: nothing lost in between, nothing twice |
| EventLog.BrowserSeesAPrefix | services/stream-service/src/sse.py:32-115 | From the worker to the browser: of an investigation with successful verifications, watched over any broken and resumed connections at any moments, the browser has received a prefix of the events, each once and in order |
| EventLog.CatchesUp | services/stream-service/src/sse.py:73-98 | A poll that sees the whole log delivers everything behind the resume point, unless an earlier event ends the stream |
| EventStream.RunStore.EmitEvent | services/agent-worker/src/firestore_store.py:33-39 | Appends to the run's events and to no other run's |
| EventStream.RunStore.GetEvents | services/agent-worker/src/firestore_store.py:46-50 | Returns exactly the events behind a number, in order |
| EventStream.RunWorker.ExecuteLoop | services/agent-worker/src/main.py:109-147 | The background task numbers its events 1, 2, 3, ... and leaves the next free number as the step count, a state later verifications keep in order, or ends with the stale error event |
| EventStream.RunWorker.VerifyRun | services/agent-worker/src/main.py:182-260 | A verification is the machine's step, successful or failed |
| EventStream.EventGenerator | services/stream-service/src/sse.py:32-115 | What the polling loop sends is the specified delivery over the polls answered before the duration ceiling, and a timeout frame means the ceiling was reached |
| EventStream.ResumesBehindTheLast | services/stream-service/src/main.py:53-57 | Resuming from the last received id resumes behind everything received |

## Left out

- Whitespace in queries: the rewriters work on tokens with whitespace dropped, but for the space in front of a parenthesis, so the patterns' optional spaces and the final trims are not modelled.
- Query shapes outside the fragments: PromQL metric names that are reserved words or begin or end with a colon, the `@` modifier, comments, quoted label names, literals after operators, `group_left` and `group_right` without parentheses; LogQL metric queries; LogQL label filters chained with a comma or by mere juxtaposition, which leave their tails like those chained with words; TraceQL queries with more than one filter, or with a scope label as the last part of a longer attribute or inside parentheses.
- Scope labels are identifiers, and scope values plain words, in every PromQL, LogQL and TraceQL claim: the program splices a value into the text as it is, while the model makes it one literal token, so a value with a quote in it is not covered.
- LogQLMeaning.RewriteFuses: asks that a chained scope filter does not come right behind a line filter or a parser; what it leaves there is no LogQL.
- LogQLMeaning.ConfinedExactly: is about entries; which streams the selector picks is not part of it.
- Maskers.Masker.Restore: takes a number of rounds within which the clean-up ends, as the loop need not end (`Hanging.RestoringHangs`).
- Maskers.Masker.CleanUp: takes the same number.
- Restoring.RestoredExactly: is about masked texts; the query tokens of the other modules take each placeholder for one token, so they speak of readable texts.
- Quota.DeploymentLimitHolds: asks that each refund's popped stamp is that of the refunded run or out of the window; `Overtaking.RefundKeepsLimitExactly` shows that nothing less will do.
- Quota.DeploymentQueueIsRecent: asks the same.
- Quota.DeploymentRefusedWhenFull: asks the same.
- Quota.DeploymentRefusalsQuoteTheWait: asks the same.
- Quota.SessionLimitHolds: asks it of the refunds of the session's own runs.
- Quota.SessionQueueIsRecent: asks it of the refunds of the session's own runs.
- Quota.SessionRefusedWhenFull: asks it of the refunds of the session's own runs.
- Quota.SessionRefusalsQuoteTheWait: asks it of the refunds of the session's own runs.
- Overtaking.RefundKeepsSessionLimitExactly: with the deployment's limit on, that limit may refuse the starts that would exceed the session's.
- Task cancellation: `except Exception` at services/mcp-gateway/src/singleflight.py:51 does not catch it; the protocols assume a call ends with a result or an exception.
- The clock: it never runs backwards, and each stretch between two awaits reads it once.
- Rounding: times, durations and throughputs are exact reals; the rounding of fleet throughput, its smoothing and the simulated queue depth are not modelled.
- The cache's content hash is taken to be injective over its four parts; nested parameter values and JSON formatting are not modelled.
- The Redis store, the tool allowlist, datasource resolution and the write endpoint of the gateway.
- Gateway.AnswersComeFromUpstream: the rate limiter is any sequence of grants and refusals here; its own bound is in module TokenBucket.
- Aliasing of lease records: `acquire_lease` hands out the record it later overwrites; leases are values here, so a caller sees the record as it was.
- LeaseManager.TenantLeaseManager.AcquireLease: an empty preferred world stands for no preference, as the source's truth test treats both alike.
- EventLog.NumbersGoUp: verifications start after the investigation has ended and do not overlap; two started at once read the same step count.
- The server-sent-event framing of section 9.2.6 of the HTML Living Standard and its reconnection timer: a frame is a value with an id.
- Simulator.ScaleAddsOnly: worker ids are read by the digits after the last dash; fields other than model, duration, marks and priority (temperatures, utilisation, memory) are not modelled.
- Readers of raw payloads in the scorecard (timestamps in several units, nested span trees, text search): an evidence entry carries what they return, as arbitrary values.
- Human-readable text, except the one snippet distinction the verdict depends on; with it `median`, which only feeds such text.
- Impact.OverrideExactlyWithoutShots: at-risk deliverables are a set; the order by deadline is kept only as the earliest deadline.
- The run endpoint's sequence of reservation, dispatch and refund: the quota is proved for every sequence of reservations and refunds, and the overtaken refund is the case that sequence allows.
- Token signing, login, telemetry, the agent loop and its prompts, the browser client, deployment and seed data.
