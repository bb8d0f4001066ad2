# A verified model of qmdsr

qmdsr is a search router in front of an external command-line search engine. This project models its decision logic in
Dafny and proves what that logic guarantees. `dafny verify dfyconfig.toml` checks all of it.

| files | what they model |
|---|---|
| `Selection`, `SelectionTheory`, `DedupTheory`, `ArrivalTheory` | deduplication, sorting and the greedy choice of at most two hits per file; its optimality by an exchange argument; which hits are taken for the same; when the order of arrival shows |
| `Snippet`, `Pipeline` | truncation, the character budget, exclusion and score filters, finalization |
| `CpuGuard` | the two hysteresis machines behind the overload and critical flags |
| `LruCache`, `LruTheory` | the versioned, expiring LRU cache and its runs |
| `CacheKey`, `Replay` | the cache key and its decoder; what is stored of a search and what a hit makes of it |
| `NegativeCache`, `NegativeHistory`, `NegativeScopes`, `NegativeRate`, `NegativeTrace` | the deep-query negative cache, its refinement of the full history, what keeps scopes apart, the rate limit, and its place in the trace of a search |
| `World`, `SearchSpec`, `Orchestrator`, `SearchTheory`, `SearchCalls`, `SearchReach`, `Answers` | `Search` with its five paths and its cache, against an arbitrary outside world; which calls it makes, what it asks, reaches, keeps and reports |
| `Names`, `Core`, `CoreTheory`, `Responses`, `Requests`, `Server` | `executeSearchCore` (downgrade, shed, deep gate, merge), what a request's words make of it, and runs of requests to one server |
| `Tokens` | overload tokens and query slots under any interleaving |
| `Reconcile` | registration of collections and contexts |
| `Scheduler` | task exclusion, retries, and the versions reindexing installs |
| `Model`, `Text` | shared values and Go's string functions |

How the model reads the program:

- An object whose methods change its fields is a class, and each method is proved equal to a function of the old state
  (`SpecGet`, `MarkStep`, `Step`, `Syncing`, ...). The theorems about runs are about those functions.
- What the orchestrator does not control (clock, load flags, overload queue, executor) is a `World`: functions of how many
  readings came before, so that every schedule of outside events is some world. Executor attempts, load readings,
  negative-cache questions and recorded failures go into a log, over which the guarantees are stated.
- Concurrent code is a state machine over its atomic steps (`Tokens`, `Scheduler`); a theorem holds for every sequence of
  steps.
- Times are integers in lock order, scores are reals, `sort.Slice` is any sorted arrangement, SHA-1 is injective.

What the code does that its documentation does not say, or says otherwise:

- The CPU protection diagram (`README.md:318-343` of the repository) puts the critical stage behind the overload stage.
  In the code the two flags are independent machines, and with the default windows (10s and 5s) critical is set first
  (`CpuGuard.DefaultsLetCriticalComeFirst`). `CpuGuard.CriticalImpliesOverloadedIff` gives the exact condition on the
  windows.
- A deep request that overload downgrades reports `DEEP_GATE_REJECTED`, not `CPU_OVERLOAD_PROTECT`, unless a collection
  gives another reason (`Responses.ResponseIsRight`).
- A bar in a title, a collection name or a mode makes different things look the same (`DedupTheory.BarInTitleMerges`,
  `NegativeScopes.BarInScopeCollides`, `CacheKey.BarInModeCollides`). Each has its exact condition beside it.
- A reindex that finishes within the same second as the one before installs the same version and invalidates nothing
  (`Scheduler.InstallInvalidatesIff`).

## Model

| member | source | states |
|---|---|---|
| `Selection.SortByScore` | internal/searchutil/searchutil.go:30-32 | some arrangement of the same hits with descending scores, and no more: the sort is not stable |
| `Selection.KeepFirst` | internal/searchutil/searchutil.go:13-28 | the loop with its `seen` map yields the first hit of each dedup key |
| `Selection.PickDiverse` | internal/searchutil/searchutil.go:34-53 | the loop with its per-file counters yields the greedy choice of at most 2 per named file and topK in all |
| `Selection.PickOne` | internal/searchutil/searchutil.go:40-48 | the body of that loop: a hit is taken unless its file has had its share, and the counters stay exact |
| `Selection.DedupSortLimit` | internal/searchutil/searchutil.go:12-56 | every outcome is the greedy choice (or, for topK <= 0, the whole) of some sorted arrangement of the deduplicated hits |
| `SelectionTheory.DedupKeepsFirst` | internal/searchutil/searchutil.go:13-28 | what deduplication keeps is exactly each key's first hit, wherever it scores better later |
| `SelectionTheory.DedupDistinct` | internal/searchutil/searchutil.go:13-28 | kept hits have distinct keys, come from the input, and represent every key of it |
| `SelectionTheory.SelectedCount` | internal/searchutil/searchutil.go:34-53 | how many selected hits reach any score is determined by the room that topK and the file limit leave above that score |
| `SelectionTheory.SelectedShape` | internal/searchutil/searchutil.go:12-56 | an outcome is sorted, made of deduplicated hits, within both limits, and empty only for an empty input |
| `SelectionTheory.GreedyIsOptimal` | internal/searchutil/searchutil.go:34-53 | no other selection within the limits is longer, and its i-th best score never exceeds the outcome's i-th score |
| `SelectionTheory.FacesDecideScores` | internal/searchutil/searchutil.go:30-53 | the selected scores depend only on which files occur at which scores |
| `SelectionTheory.ScoresAreUnique` | internal/searchutil/searchutil.go:30-53 | two outcomes for inputs with the same deduplicated hits have the same score sequence, however ties were broken |
| `SelectionTheory.TwoStageEqualsOneStage` | orchestrator/orchestrator.go:804-811 | selecting per list and again on the concatenation gives the scores of selecting once, when lists share no dedup key, even if they share files |
| `DedupTheory.OneHitPerDocument` | internal/searchutil/searchutil.go:15-27 | no two hits of an outcome share a non-blank trimmed document id |
| `DedupTheory.OneHitPerFile` | internal/searchutil/searchutil.go:15-27 | no two hits without a document id share a non-blank trimmed file |
| `DedupTheory.FirstOfEachDocument` | internal/searchutil/searchutil.go:13-28 | without a limit, of hits that all have document ids exactly the first of each id is kept, whatever else they share |
| `DedupTheory.DifferentDocumentsStay` | internal/searchutil/searchutil.go:13-28 | so hits with different document ids are all kept |
| `DedupTheory.SameDocumentIff` | internal/searchutil/searchutil.go:16-25 | two hits with an id or a file are merged exactly if their ids agree, or, where an id is missing, the file in its place does |
| `DedupTheory.SameTextIff` | internal/searchutil/searchutil.go:20-22 | two hits with neither are merged exactly if title, bar and snippet are the same text and the scores agree to four decimals |
| `DedupTheory.SameFieldsIff` | internal/searchutil/searchutil.go:20-22 | with bar-free titles, exactly if title, snippet and four-decimal score agree |
| `DedupTheory.BarInTitleMerges` | internal/searchutil/searchutil.go:20-22 | two different hits that a bar in a title merges |
| `DedupTheory.AtMostTwoPerFile` | internal/searchutil/searchutil.go:41-47 | no three hits of a limited outcome share a non-blank trimmed file |
| `DedupTheory.LeftOutForALimit` | internal/searchutil/searchutil.go:40-52 | a hit that is missing for a limit is missing from a full list of no worse hits, or behind two no worse hits of its file |
| `Text.TrimSpaceIff` | internal/searchutil/searchutil.go:16-18 | trimming takes away exactly the white space around a text |
| `Text.SpaceIff` | internal/searchutil/searchutil.go:16-18 | white space is these 25 characters |
| `Text.RoundIsNearest` | internal/searchutil/searchutil.go:21 | scores are rounded to the nearest, ties to the even |
| `ArrivalTheory.ArrivalOrderDoesNotShow` | orchestrator/orchestrator.go:606-636 | whatever other collections answered before, the order in which parallel collections answer does not change the scores, if first hits that share a dedup key across them agree in score and trimmed file |
| `ArrivalTheory.ArrivalOrderIff` | orchestrator/orchestrator.go:606-636 | the order never shows exactly if they agree: for any two such hits with another score or file, some earlier answer and some topK make the scores depend on who answers first |
| `ArrivalTheory.SharedKeyLetsOrderShow` | orchestrator/orchestrator.go:606-636 | with a shared dedup key whoever answers first wins, whatever it scores |
| `CpuGuard.FlagClosedForm` | internal/resourceguard/cpu_monitor.go:145-161 | a flag is on exactly if some run of enough high samples has completed and no completed run of low samples followed it |
| `CpuGuard.CountersAreRuns` | internal/resourceguard/cpu_monitor.go:145-161 | the two counters are the lengths of the current runs of high and low samples |
| `CpuGuard.SamplesPayForFlips` | internal/resourceguard/cpu_monitor.go:145-183 | the samples seen pay for every activation and every recovery, plus the current run |
| `CpuGuard.FlipBound` | internal/resourceguard/cpu_monitor.go:145-183 | with a >= 1 activations, a * needOn + (a - 1) * needOff samples have passed |
| `CpuGuard.Samples` | internal/resourceguard/cpu_monitor.go:231-243 | the least positive count whose span covers the duration |
| `CpuGuard.LeastSpanIsUnique` | internal/resourceguard/cpu_monitor.go:231-243 | only one count is least |
| `CpuGuard.RequiredSamples` | internal/resourceguard/cpu_monitor.go:231-243 | the imperative form computes that count |
| `CpuGuard.DefaultsAndClamp` | internal/resourceguard/cpu_monitor.go:45-68 | what is configured counts, except that critical load is at least overload; the rest has the documented defaults |
| `CpuGuard.PlainTimes` | internal/resourceguard/cpu_monitor.go:135-142 | without wrap-around the busy time is the time counted less the idle time |
| `CpuGuard.CountersCoupled` | internal/resourceguard/cpu_monitor.go:145-183 | critical's high count never exceeds overload's, and overload's low count never exceeds critical's |
| `CpuGuard.OverloadClearsCritical` | internal/resourceguard/cpu_monitor.go:145-183 | whenever overloaded clears, critical is clear by the end of the same tick, for every configuration after the clamp |
| `CpuGuard.CriticalImpliesOverloadedIff` | internal/resourceguard/cpu_monitor.go:66-68 | critical implies overloaded after every sequence of samples exactly if the critical window needs at least as many samples as the overload window |
| `CpuGuard.DefaultsLetCriticalComeFirst` | internal/resourceguard/cpu_monitor.go:45-65 | the default windows let critical be set while overloaded is not |
| `CpuGuard.CPUMonitor.constructor` | internal/resourceguard/cpu_monitor.go:44-73 | defaults, the clamp, and for each of the three windows the least number of samples that covers it |
| `CpuGuard.CPUMonitor.Tick` | internal/resourceguard/cpu_monitor.go:129-183 | a failed reading changes nothing, one without elapsed time moves only the previous counters; otherwise each machine moves up exactly if 100 * busy >= percent * total and down exactly if 100 * busy <= percent * total, in 64-bit counters that may wrap |
| `CpuGuard.CPUMonitor.Sample` | internal/resourceguard/cpu_monitor.go:142-183 | counters and flags stay those that the machines reach on all samples so far |
| `CpuGuard.CPUMonitor.SwitchOverload` | internal/resourceguard/cpu_monitor.go:145-161 | one step of the overload machine |
| `CpuGuard.CPUMonitor.SwitchCritical` | internal/resourceguard/cpu_monitor.go:163-183 | one step of the critical machine, which recovers at the overload threshold over the recovery window |
| `CpuGuard.CPUMonitor.IsOverloaded` | internal/resourceguard/cpu_monitor.go:94-98 | the flag, in closed form over the samples |
| `CpuGuard.CPUMonitor.IsCriticalOverloaded` | internal/resourceguard/cpu_monitor.go:100-104 | the flag, in closed form over the samples |
| `LruCache.Cache.Get` | cache/cache.go:56-96 | answers and moves as the recency sequence says, dropping an expired or outdated entry |
| `LruCache.Cache.Put` | cache/cache.go:98-122 | stamps version and time, replaces or evicts, and puts the entry in front |
| `LruCache.Cache.SetVersion` | cache/cache.go:124-128 | changes the version only |
| `LruCache.Cache.Clear` | cache/cache.go:130-135 | empties map and list, keeping version and counters |
| `LruCache.Cache.Cleanup` | cache/cache.go:137-153 | removes exactly the expired and outdated entries, in whatever order the map is walked, and counts them |
| `LruCache.Cache.Stats` | cache/cache.go:156-160 | list length and map size agree |
| `LruCache.Cache.Remove` | cache/cache.go:170-175 | map and list lose the key together |
| `LruCache.Cache.Evict` | cache/cache.go:177-185 | removes the back of the list from both |
| `LruTheory.RunWellFormed` | cache/cache.go:98-122 | in every reachable state the keys are distinct and at most max(1, maxEntries) |
| `LruTheory.HitIsLastPut` | cache/cache.go:56-122 | a hit is exactly the last entry put under that key since the last Clear, within its TTL and at the version in force |
| `LruTheory.OrderIsRecency` | cache/cache.go:88-119 | the list is in order of last put or hit |
| `LruTheory.EvictsLeastRecentlyUsed` | cache/cache.go:112-119 | a put removes a key only when a new key meets a full cache, and then exactly the one whose last use is oldest |
| `LruTheory.LargerIncludesSmaller` | cache/cache.go:56-153 | on every run of Get, Put, SetVersion, Clear and Cleanup the larger cache's sequence without some keys is the smaller one's |
| `LruTheory.LargerHitsToo` | cache/cache.go:56-96 | so it hits, with the same entry, whenever the smaller one hits |
| `LruTheory.HitIff` | cache/cache.go:56-96 | a lookup hits exactly if the key is cached, its last put lives and its version is in force |
| `LruTheory.StaysCachedIff` | cache/cache.go:56-153 | exactly which operation removes a cached key: a late lookup or cleanup, the clear command, or a new key when the cache is full and the key is the last in the list |
| `LruTheory.PutThenGet` | cache/cache.go:98-122 | what was just put is found with the stamps of its put exactly while it lives |
| `LruTheory.CountersCount` | cache/cache.go:56-96 | hits and misses count the lookups that found something and the others |
| `LruTheory.SupersededVersionsStayDead` | cache/cache.go:82-88 | if versions never go back, no hit carries a superseded one |
| `CacheKey.KeyRoundTrip` | cache/cache.go:187-199 | a decoder recovers all eight fields from the key, the score to six decimals, though query and collection may hold bars |
| `CacheKey.SameKeyIff` | cache/cache.go:187-199 | requests with bar-free modes share a key exactly if they agree in all fields |
| `CacheKey.BarInModeCollides` | cache/cache.go:187-199 | a bar in the mode makes different requests share a key |
| `CacheKey.QuotedReads` | cache/cache.go:189 | reading a quoted text recovers it and stops right behind it |
| `CacheKey.TailRoundTrip` | cache/cache.go:192-196 | the last five fields are recovered from the right, whatever precedes them |
| `CacheKey.KeyCountRoundTrip` | cache/cache.go:193 | the count can be read off any key, whatever the mode |
| `NegativeCache.DeepNegativeCache.ShouldSkip` | orchestrator/orchestrator.go:884-920 | answer and lazy deletions of one query |
| `NegativeCache.DeepNegativeCache.MarkFailed` | orchestrator/orchestrator.go:922-939 | one recorded failure |
| `NegativeCache.DeepNegativeCache.MarkScopeCooldown` | orchestrator/orchestrator.go:941-969 | compaction of the window, the new failure, and the cooldown at the third |
| `NegativeCache.DeepNegativeCache.Compact` | orchestrator/orchestrator.go:951-957 | the in-place compaction keeps exactly the failures inside the closed window, in order |
| `NegativeCache.DeepNegativeCache.Cleanup` | orchestrator/orchestrator.go:991-1019 | drops exactly the expired entries and failures, in whatever order the maps are walked, and counts the entries |
| `NegativeHistory.SkipRefinesHistory` | orchestrator/orchestrator.go:884-969 | every answer of the pruned maps is the one that the full history of marks gives |
| `NegativeHistory.CleanupKeeps` | orchestrator/orchestrator.go:991-1019 | a cleanup keeps exactly what has not expired, and of each scope the failures of the last five minutes |
| `NegativeHistory.PruningIsInvisible` | orchestrator/orchestrator.go:991-1019 | cleanups and lazy deletions change no later answer: runs with the same marks answer alike |
| `NegativeHistory.PlainScopeIff` | orchestrator/orchestrator.go:971-989 | exactly the scopes other than `scope_cooldown` and those beginning with `scope_cooldown|` keep query keys and cooldown keys apart |
| `NegativeScopes.OtherScopesDoNotMatter` | orchestrator/orchestrator.go:884-989 | answers on a scope depend on its own failures only, in whatever spelling of its trimmed name, the blank one meaning `all`, as long as no bar joins two scopes |
| `NegativeScopes.FailureElsewhereBlocksNothing` | orchestrator/orchestrator.go:941-989 | so a failure of another scope, anywhere in a run, changes no answer |
| `NegativeScopes.ScopesApartIff` | orchestrator/orchestrator.go:971-979 | no failure of one scope is mistaken for one of another exactly if neither is the beginning of the other up to a bar |
| `NegativeScopes.BarInScopeCollides` | orchestrator/orchestrator.go:971-979 | with a bar in a scope, the failure of one query blocks another |
| `NegativeScopes.SkippedForItselfIff` | orchestrator/orchestrator.go:897-905 | a query is turned away for itself exactly if it failed on this scope within the time to live |
| `NegativeScopes.ThreeSpellingsBlock` | orchestrator/orchestrator.go:941-969 | three failures under spellings of one name within five minutes and a cooldown block the scope for that long from the first |
| `NegativeScopes.TwoFailuresDoNot` | orchestrator/orchestrator.go:941-969 | two failures start no cooldown |
| `NegativeScopes.ThreeFailuresCoolIff` | orchestrator/orchestrator.go:907-969 | of exactly three, the third starts it exactly if it comes within five minutes of the first, and until it is over exactly the scope is turned away |
| `NegativeRate.ThreeFailuresActivate` | orchestrator/orchestrator.go:951-968 | three failures of a scope inside the window have activated its cooldown since the first of them |
| `NegativeRate.BlockedAfterThree` | orchestrator/orchestrator.go:907-919 | after three failures nothing of the scope is let through until the window is over |
| `NegativeRate.DeepFailuresAreRateLimited` | orchestrator/orchestrator.go:884-969 | with at most c attempts of each scope in flight at any moment, no stretch of min(5 minutes, cooldown) holds more than c + 2 failed ones: three if attempts do not overlap |
| `NegativeRate.BurstFails` | orchestrator/orchestrator.go:884-969 | on any scope c + 2 attempts can fail at once with c in flight: two in sequence, then c that were let through together |
| `NegativeRate.RateLimitIff` | orchestrator/orchestrator.go:884-969 | with at most c in flight at any moment, no stretch ever holds more than k failures exactly if c <= k - 2 |
| `Snippet.Truncate` | internal/textutil/snippet.go:29-51 | cuts behind the last sentence end among the last 200 characters that fit, or at the limit |
| `Snippet.TruncationFits` | internal/textutil/snippet.go:29-51 | the result fits the limit, and a text that fits is left alone |
| `Snippet.CutsBehindSentence` | internal/textutil/snippet.go:33-57 | the cut is behind the last of seven sentence ends among the last 200 characters that leave room for the dots, or at the limit |
| `Snippet.Ellipsis` | orchestrator/orchestrator.go:859-872 | a text of exactly the allowed length, or the text itself if it fits |
| `Snippet.EnforceMaxChars` | orchestrator/orchestrator.go:833-857 | keeps whole hits while they fit, then one shortened to fill the budget, then none |
| `Snippet.BudgetHolds` | orchestrator/orchestrator.go:833-872 | the total is the smaller of budget and need, only the last snippet changes, to its beginning with three dots, and no result is emptied |
| `Pipeline.FilterExclude` | orchestrator/orchestrator.go:728-774 | keeps, in order, exactly the hits that no pattern of the collection matches |
| `Pipeline.FilterMinScore` | orchestrator/orchestrator.go:776-787 | keeps, in order, exactly the hits that reach a positive minimum |
| `Pipeline.CleanSnippets` | orchestrator/orchestrator.go:826-831 | changes snippets only, each to a truncation of its cleaned text to 1500 characters |
| `Pipeline.Finalize` | orchestrator/orchestrator.go:804-824 | selection, and either the files_all cap or cleaning before and the character budget after it |
| `Pipeline.FindByName` | orchestrator/orchestrator.go:709-716 | the first collection of that name |
| `Pipeline.CollectionsByTier` | orchestrator/orchestrator.go:718-726 | the collections of the tier that need not be named, in order |
| `SearchTheory.ShortSnippetsStay` | orchestrator/orchestrator.go:826-831 | cleaned text of up to 1500 characters stays as it is, and longer text keeps its first 1297 at least, up to blanks |
| `SearchTheory.CapTakesFirst` | orchestrator/orchestrator.go:817-824 | the cap takes the leading hits of a longer list and leaves any other alone |
| `SearchReach.ExcludeKeeps` | orchestrator/orchestrator.go:728-774 | the places kept, in order, are exactly those whose hit no pattern of the collection matches |
| `SearchReach.MinScoreKeeps` | orchestrator/orchestrator.go:776-787 | the places kept, in order, are exactly those whose hit reaches a positive minimum |
| `SearchReach.SurvivesIff` | orchestrator/orchestrator.go:606-636 | a hit survives a search exactly if some reply held it, no pattern matches it and it scores enough |
| `SearchReach.SearchedReplied` | orchestrator/orchestrator.go:606-636 | a search reports the collections that replied, as often as they did |
| `SearchTheory.FinalizedShape` | orchestrator/orchestrator.go:804-872 | finalized results are sorted, within every limit, made of the input, and empty only if the input is |
| `Orchestrator.Orchestrator.AskNegative` | orchestrator/orchestrator.go:884-920 | one negative-cache question on the normalized query at the current time, answered as the cache stands, in the trace |
| `Orchestrator.Orchestrator.MarkNegative` | orchestrator/orchestrator.go:922-939 | one recorded failure of the normalized query at the current time, in the trace |
| `Orchestrator.Orchestrator.SearchTier` | orchestrator/orchestrator.go:606-636 | one attempt per collection in any order of arrival; hits, names and the failure flag are those of the attempts |
| `World.World.ExecSearch` | orchestrator/orchestrator.go:656-684 | one attempt with the call that SearchTheory.ExecutorCallSafety and SearchCalls.SearchMakesRightCalls describe; the reply is the executor's, unless overload and a busy queue turn the attempt away |
| `Orchestrator.Orchestrator.SearchAndFinalize` | orchestrator/orchestrator.go:411-418 | one attempt on a collection, its exclusions, the score filter and finalization |
| `Orchestrator.Orchestrator.TryDeep` | orchestrator/orchestrator.go:468-494 | the deep branch on one collection and the choice between both branches |
| `Orchestrator.Orchestrator.SearchSingle` | orchestrator/orchestrator.go:401-421 | lookup, confirm gate, one attempt, filters and finalization |
| `Orchestrator.Orchestrator.SearchSingleDeep` | orchestrator/orchestrator.go:423-495 | skip, failure, empty and successful deep outcome on one collection, and exactly when the failure is recorded |
| `Orchestrator.Orchestrator.SearchPrimary` | orchestrator/orchestrator.go:1021-1039 | tier 1, and tier 2 exactly if nothing survived, fallback is asked for and enabled, and tier 2 is not empty |
| `Orchestrator.Orchestrator.SearchDeepTier` | orchestrator/orchestrator.go:644-654 | fails for an empty tier, or if some attempt failed and nothing was found |
| `Orchestrator.Orchestrator.SearchDeep` | orchestrator/orchestrator.go:497-551 | the same four outcomes over the tiers |
| `Orchestrator.Orchestrator.SearchFallback` | orchestrator/orchestrator.go:553-604 | the plain path and its escalation to deep query |
| `Orchestrator.Orchestrator.Escalate` | orchestrator/orchestrator.go:558-587 | escalates only if not overloaded, allowed by the gate and let through; otherwise says why |
| `Orchestrator.Orchestrator.CacheStore` | orchestrator/orchestrator.go:789-802 | what is stored backs every later hit on that key |
| `Orchestrator.Orchestrator.Search` | orchestrator/orchestrator.go:231-284 | a hit repeats the last result stored under the key and costs no event; a miss is one of the five paths, and its result is stored |
| `Orchestrator.Orchestrator.HasCachedResult` | orchestrator/orchestrator.go:115-135 | answers, and moves the entry, as Get does on the key that its own defaults build |
| `Orchestrator.SameLookupIff` | orchestrator/orchestrator.go:115-135 | it looks up the key that Search does exactly if the request has a count, does not ask for all files, or no default is configured |
| `SearchTheory.PipelineGuarantee` | orchestrator/orchestrator.go:401-604 | on every fresh path each hit traces back to an executor reply of a searched and configured collection, to a deep, vector or plain call as the reported mode says, is matched by none of that collection's patterns and scores enough; limits hold; mode query means found and not degraded |
| `SearchTheory.ExecutorCallSafety` | orchestrator/orchestrator.go:286-318 | deep calls need the capability and an earlier go-ahead of the negative cache for the same scope, vector calls the capability, guarded collections a confirmation; only configured collections are attempted, with the query, minimum and file flags of the request and the configured number of candidates; failures are recorded only after such a go-ahead, for a configured collection or all of them |
| `SearchCalls.ResolvesTo` | orchestrator/orchestrator.go:286-318 | the mode in words: deep query exactly if calm, capable, and asked for or routed with the gate's consent; vector search exactly if calm, capable, and asked for or routed; when plain |
| `SearchCalls.SearchMakesRightCalls` | orchestrator/orchestrator.go:656-684 | the searches before deep query are vector calls exactly if that is wanted, else plain calls; those of deep query are deep calls |
| `SearchCalls.RefusedIff` | orchestrator/orchestrator.go:401-409 | a search is refused exactly for an unknown collection, or an unconfirmed one that is explicit and prompts |
| `SearchCalls.SearchAsksRightQuestions` | orchestrator/orchestrator.go:401-604 | when the negative cache is asked and the load is looked at again, in both directions |
| `SearchCalls.OverloadForcesPlainSearch` | orchestrator/orchestrator.go:295-298 | under overload a search makes plain calls, asks nothing first, and answers for a named collection in mode search; deep query needs a later look that is calm |
| `SearchCalls.DeepQueryIsGated` | orchestrator/orchestrator.go:299-307 | deep query happens only with the capability and after a calm look, and unless asked for by name only with the consent of the smart-routing gate |
| `SearchCalls.SearchAnswersRight` | orchestrator/orchestrator.go:401-604 | mode, results, collections, fallback, degradation and its reason follow from what survived, the question and the recorded failure |
| `SearchReach.SearchReachesRight` | orchestrator/orchestrator.go:1021-1039 | a named search reaches its collection once; an unnamed one each collection of the first tier, and of the second exactly if nothing is left and fallback is on |
| `SearchReach.SearchFailsRight` | orchestrator/orchestrator.go:423-654 | exactly when a search fails and when a failure is recorded |
| `SearchReach.NothingIsLost` | orchestrator/orchestrator.go:401-604 | an answer is empty exactly if no reply held a hit that is left |
| `SearchReach.DefaultsApply` | orchestrator/orchestrator.go:234-239 | a request without a count or a minimum gets the configured ones |
| `SearchTheory.PlainSearchStaysPlain` | orchestrator/orchestrator.go:553-558 | with escalation off a plain search makes only plain calls, asks and records nothing in the negative cache, and answers in plain mode |
| `NegativeTrace.SearchAsks` | orchestrator/orchestrator.go:401-604 | on every path a search asks the negative cache at most once, for its own query and scope, and records at most one failure, last, that the question let through |
| `NegativeTrace.LedIsRun` | orchestrator/orchestrator.go:884-1019 | the negative cache after any trace is the one its history of questions, failures and cleanups leads to |
| `NegativeTrace.SearchKeepsSequential` | orchestrator/orchestrator.go:423-604 | searches that come one after the other keep attempts on a scope from overlapping |
| `Replay.SplitJoin` | orchestrator/orchestrator.go:241-251 | splitting inverts joining for comma-free names |
| `Replay.CollectionsRoundTripIff` | orchestrator/orchestrator.go:241-251 | the reported collections are the searched ones exactly for one comma-free name, or several trimmed non-empty ones; none become one empty name |
| `Replay.ReplayIsFaithful` | orchestrator/orchestrator.go:252-263 | a hit repeats results, mode, fallback and degradation of what was stored |
| `Answers.HistoryGrows` | orchestrator/orchestrator.go:231-284 | each call of Search extends the history of its orchestrator |
| `Answers.AnswerWasFresh` | orchestrator/orchestrator.go:241-263 | every answer is that of a fresh search under the same key, this one or an earlier one |
| `Answers.EveryAnswerIsGuaranteed` | orchestrator/orchestrator.go:231-284 | over a whole run every answer, cached or not, has the shape its own request asks for and was made for a request that the key cannot tell apart from it |
| `Answers.PlainAnswersStayPlain` | orchestrator/orchestrator.go:231-284 | the cache never hands a deep answer to a plain request with escalation off |
| `Names.OneOrder` | api/convert.go:52-62 | strictly ordered lists with the same members are equal |
| `Names.BeforeIff` | api/convert.go:60 | the order is by the first character that differs, a proper prefix first |
| `Names.NormalizedNames` | api/convert.go:37-50 | the normalized names are in strict order and exactly the non-empty trimmed ones |
| `Names.RequestedNames` | api/core.go:92-95 | a request that names nothing asks for the unnamed collection, any other for its names |
| `Names.SameNamesSameRequest` | api/convert.go:37-62 | repetition, order and blanks in the list of collections make no difference |
| `Names.NormalizeCollections` | api/convert.go:37-50 | the loop over a set computes the normalized names |
| `Names.SortedKeys` | api/convert.go:52-62 | the keys in strict order, in whatever order the map is walked |
| `Core.GateKeepsModeIff` | api/core.go:138-143 | the deep gate leaves the mode alone exactly if it does not reject or overload came first |
| `Core.PlanIsPermitted` | api/core.go:138-143 | a search in query mode that may fall back was made only for a query that the deep gate lets through |
| `Core.CheckedIsSearchedIff` | api/core.go:102-143 | the key that the shedding check looks up is the one searched under exactly in that case; otherwise Requests.RejectedIsNeverCached applies |
| `Core.SwitchFollowsMode` | api/core.go:97-107 | escalation is switched off exactly for plain searches |
| `Core.SameKeySameSwitch` | api/core.go:97-107 | so requests that share a cache key share the switch, though the key omits it |
| `Core.MergedFacts` | api/core.go:145-202 | the merged mode and flags are those of some part, in whatever order the parts come |
| `Core.CachedMeansSearchHits` | orchestrator/orchestrator.go:115-135 | a key found by HasCachedResult is the key Search looks up: no entry is ever stored under a count of zero |
| `Core.HitKeepsHits` | cache/cache.go:56-96 | a hit changes no other lookup |
| `Core.AllowByCache` | api/core.go:110-126 | under unchanged conditions, true exactly if every collection's key would hit, and then it leaves every lookup as it was |
| `Core.SearchAll` | api/core.go:155-197 | one Search per collection, each from what the ones before it stored, merged in order; trace, stored results and negative cache change as those searches change them, and not at all if all are cached |
| `Core.AddResult` | api/core.go:168-196 | one result merged into the totals |
| `Core.BuildResponse` | api/core.go:206-248 | selection of the merge, the files_all cap, the served mode, and the first reason for degrading |
| `Core.Serve` | api/core.go:155-248 | an error exactly if no collection succeeded, and then the first one; the same effects |
| `Core.Shedding` | api/core.go:109-136 | sheds only under critical load, exactly if some collection is not cached |
| `CoreTheory.OverloadCostsPlainSearches` | api/core.go:102-107 | while overloaded a request costs plain executor calls only, and touches the negative cache in no way |
| `CoreTheory.ResponseShape` | api/core.go:206-214 | the response is sorted, within topK, two per file and the files_all cap, and made of what the collections answered |
| `CoreTheory.ServedHonestly` | api/core.go:202-232 | served deep exactly if some collection was; a deep request not served deep, or degraded in advance, says so and why |
| `CoreTheory.MergeIsOneSelection` | api/core.go:155-206 | for files_only the double selection gives the scores of one selection over everything that survived the collections' filters, if they share no dedup key |
| `Responses.ModeSays` | api/convert.go:24-35 | the four modes are what the trimmed word spells, whatever its case |
| `Responses.PlanSays` | api/core.go:97-143 | mode, escalation and reason planned for a request, in terms of its words, the load and the gate |
| `Responses.CallsAreForRequest` | api/core.go:155-167 | every call for a request carries its trimmed query, minimum and file flags, to a configured collection that it names if it names any, and confirms if need be |
| `Responses.PartsReachAsAsked` | api/core.go:155-167 | every collection of a request is reached; an unnamed one means the first tier, and the second exactly if nothing is left and the request may fall back |
| `Responses.KindsAreAllowed` | api/core.go:97-143 | every call is of a kind that the words of the request allow |
| `Responses.MergedFlags` | api/core.go:155-202 | flags of the merge, in both directions |
| `Responses.MergedFirsts` | api/core.go:173-185 | the first reason, and unless some part is deep the first mode |
| `Responses.MergedNames` | api/core.go:186-196 | the collections reported are those that the parts report, or were for |
| `Responses.MergedError` | api/core.go:168-173 | the error is that of the first part that failed |
| `Responses.ResponseIsRight` | api/core.go:206-248 | served mode, cut, degradation and the order of its reasons, in both directions |
| `Responses.AnswerIsRight` | api/core.go:198-248 | a request is answered from a selection of what its parts found, or with the first error |
| `Requests.RecordGrows` | api/core.go:155-197 | a request extends the record of its orchestrator: all searches so far, each made for some request, and what they stored |
| `Requests.StoredIsPermitted` | api/core.go:138-167 | whatever is stored was searched under by a request that had passed the deep gate if it needed to |
| `Requests.RejectedIsNeverCached` | api/core.go:109-143 | so a deep request that the gate rejects never hits in the shedding check, and is shed under critical load |
| `Requests.DowngradedAnswersStayPlain` | api/core.go:102-107 | over any run of requests the cache never serves a downgraded request the deep answer of another |
| `Requests.PartsAreMade` | api/core.go:155-197 | every collection's answer, fresh or cached, is finalized from what survived the filters of some search of the run for a request like it |
| `Requests.TrackedGrows` | orchestrator/orchestrator.go:884-1019 | a request keeps the negative cache at its history, attempts on a scope apart, and failures to known scopes |
| `Requests.DeepFailuresOfRunsAreLimited` | orchestrator/orchestrator.go:884-969 | over any run of requests that come one after the other, under a clock that never goes back and plain collection names, no stretch of min(5 minutes, cooldown) holds more than three failed deep attempts of a scope |
| `Server.CheckedIsCached` | api/core.go:109-143 | what the shedding check finds cached is cached under the plan after the deep gate as well |
| `Server.Admit` | api/core.go:100-248 | plan, shed check, deep gate and answer of a request with a query, with all it changes |
| `Server.OverloadNeverServesDeep` | api/core.go:102-107 | under overload a request costs plain executor calls only and is never served deep, not even from the cache |
| `Server.ServedAsAsked` | api/core.go:155-248 | an admitted request is answered and searched as its words say |
| `Server.OnlyForRequest` | api/core.go:155-167 | whatever a request adds to the log is for that request |
| `Server.Server.constructor` | api/server.go:41-51 | a server on a new orchestrator starts the record |
| `Server.Server.ExecuteSearchCore` | api/core.go:59-271 | the whole request, on every server that requests, clears, reindexes and cleanups can lead to. Under critical load with nothing changing outside it is shed exactly if some collection is not cached; otherwise it is served without any executor call. Whatever it calls is called as it says, so without its confirmation no collection that asks for one |
| `Server.Server.ClearCache` | orchestrator/orchestrator.go:109-113 | clearing keeps record and negative cache |
| `Server.Server.SetVersion` | scheduler/scheduler.go:156-157 | so does installing an index version |
| `Server.Server.Cleanup` | scheduler/scheduler.go:172-184 | so does the cleanup of both caches, whose effects are stated |
| `Tokens.TokensAreConserved` | orchestrator/orchestrator.go:656-707 | under any interleaving each channel holds one token per search that must give one back, never more than its capacity, and no release finds it empty |
| `Tokens.TokenlessBeganCalm` | orchestrator/orchestrator.go:686-697 | a search in flight waits for or holds a token exactly if it began under overload, whatever the flag does later |
| `Tokens.ConcurrencyIsBounded` | orchestrator/orchestrator.go:686-697 | so many searches begun under overload, and so many deep queries, are at the executor at once, and no more |
| `Tokens.EntersIff` | orchestrator/orchestrator.go:686-697 | and nobody waits longer: a waiting search enters exactly if fewer than configured, or than two, are past the gate, a deep query exactly if fewer than configured are at work |
| `Tokens.NothingLeaks` | executor/cli.go:604-624 | with nothing in flight both channels are empty |
| `Tokens.NoDeadlock` | executor/cli.go:155-178 | although a deep query waits for its slot while it holds a token, some search can always go on without any context expiring |
| `Tokens.Gates.AcquireOverloadSearchToken` | orchestrator/orchestrator.go:686-697 | the protocol's Begin, and then its Token or TokenTimeout if that is enabled |
| `Tokens.Gates.AwaitToken` | orchestrator/orchestrator.go:691-696 | gives up, enters, or stays blocked at a full channel |
| `Tokens.Gates.ReleaseOverloadSearchToken` | orchestrator/orchestrator.go:699-707 | the protocol's End, never by the default branch |
| `Tokens.Gates.AcquireQuerySlot` | executor/cli.go:604-614 | the protocol's Query, and then its Slot or SlotTimeout if that is enabled |
| `Tokens.Gates.AwaitQuerySlot` | executor/cli.go:605-613 | passes a nil channel, gives up, enters, or stays blocked at a full one |
| `Tokens.Gates.ReleaseQuerySlot` | executor/cli.go:616-624 | the protocol's WorkDone of a deep query, never by the default branch |
| `Reconcile.ConvergesIffConsistent` | orchestrator/orchestrator.go:137-211 | without errors one run registers every collection and sets every non-blank context, from any state, exactly if no path has two different ones |
| `Reconcile.QuietIffConverged` | orchestrator/orchestrator.go:137-211 | a run makes no mutating call exactly if there is nothing to do, and then changes nothing |
| `Reconcile.SecondRunIsQuietIff` | orchestrator/orchestrator.go:137-211 | the second run makes no mutating call exactly under the same condition on the configuration |
| `Reconcile.SettlesIffConsistent` | orchestrator/orchestrator.go:137-211 | every run after the first is quiet if the configuration is consistent, and none ever is if it is not |
| `Reconcile.StaleContextsGoFirst` | orchestrator/orchestrator.go:188-210 | a context is added only right after the removal of the one its path had, or as the first its path has |
| `Reconcile.RegisterCollection` | orchestrator/orchestrator.go:155-170 | registers with the default mask, then adds a non-empty context; a failure leaves the rest out |
| `Reconcile.SyncContext` | orchestrator/orchestrator.go:188-210 | one collection of the context sync, with the local map kept up to date |
| `Reconcile.SyncCollectionContexts` | orchestrator/orchestrator.go:176-211 | whatever fails, every call says what is configured, and contexts change only where one is configured and to one configured there, or are lost there; without failures the exact state and calls |
| `Reconcile.EnsureCollections` | orchestrator/orchestrator.go:137-174 | the same for the whole run; nothing is unregistered and nothing unconfigured is added |
| `Scheduler.OneBodyPerName` | scheduler/scheduler.go:104-120 | in every interleaving of timers and triggers at most one body of each task name is in flight |
| `Scheduler.BodyCallsAreBounded` | scheduler/scheduler.go:122-150 | each run calls its body at most four times |
| `Scheduler.InstalledVersionsAscend` | scheduler/scheduler.go:152-160 | installed versions never go back, though the clock is read and the version installed in two steps |
| `Scheduler.SupersededEntriesStayDead` | scheduler/scheduler.go:152-160 | so a version-aware cache never again answers with an entry of a superseded version |
| `Scheduler.OverlapGoesBack` | scheduler/scheduler.go:104-160 | without the exclusion of running tasks a run of the protocol installs a newer version and then an older one |
| `Scheduler.NeverBackIffExclusive` | scheduler/scheduler.go:104-160 | installed versions never go back exactly if running tasks are skipped |
| `Scheduler.InstallInvalidatesIff` | scheduler/scheduler.go:156-157 | installing a version invalidates everything cached exactly if it differs from the one in force; within one second it changes no answer |
| `Scheduler.Tasks.RunTask` | scheduler/scheduler.go:104-132 | skips a running task without error; else calls the body until it succeeds, four times at most, with back-offs of 1, 4 and 9 seconds, and unmarks the task |
| `Scheduler.Tasks.Retry` | scheduler/scheduler.go:134-150 | up to three retries; an error exactly if all fail |

## Left out

- LruCache.Cache.Get: is one atomic step, where the code drops its lock between lookup and promotion; LruCache.Cache.Put likewise, where the code reads the version before it locks.
- LruCache.Cache.Clear: empties the list, where `order.Init` leaves removed elements pointing at it; with atomic steps nobody holds one.
- Orchestrator.Orchestrator.Search: stores the result itself, where each path of the code stores it as its last act; calls of Search come one after another, so two concurrent misses of one key are not modelled.
- Orchestrator.Orchestrator.SearchSingleDeep: takes the broad and the deep branch in turn, where the code runs them concurrently; neither reads what the other writes and the world may answer either anything. Orchestrator.Orchestrator.SearchDeep likewise.
- Orchestrator.Orchestrator.SearchTier: attempts finish in any order but one at a time.
- NegativeCache.DeepNegativeCache.Compact: builds a new list, where the code reuses the old one's memory. Filters and truncation likewise.
- Pipeline.FilterExclude: whether a pattern matches a path is an arbitrary predicate, standing for prefix stripping, `filepath.Clean` and `filepath.Match`.
- Pipeline.CleanSnippets: the regular expressions of `CleanSnippet` are an arbitrary function; its truncation is modelled.
- Core.NormalizeMode: `strings.ToLower` on the requested mode is ASCII only.
- Server.Server.ExecuteSearchCore: requests come one after another (for deep failures, NegativeRate.RateLimitIff says what overlapping ones add); timeouts, trace ids, latency, the formatted text and the route log are left out; the searched collections are reported as a set. It uses the function that Names.NormalizeCollections is proved to compute.
- CacheKey.KeyRoundTrip: scores are exact reals, rounded half to even at the sixth decimal; texts are sequences of Unicode scalar values, so quoting of invalid UTF-8 does not occur.
- Scheduler.InstalledVersionsAscend: a version is the second its reindex read, as an integer; a clock set back, or local time at a change to winter time, is not modelled.
- Reconcile.EnsureCollections: adding a context replaces the one its path had, a failed call changes nothing, and the registry holds one context per path; this is assumed of the executor.
- Tokens.Gates.AcquireOverloadSearchToken: waiting is the outcome `Blocked`, after which the search tries again; Tokens.Gates.AcquireQuerySlot likewise.
- The normalization of queries inside the negative cache's exact key (lower case, blanks, 64 characters) is an arbitrary function, `Lib.normalize`. The rate limit does not depend on queries.
- `DetectMode`, `allowAutoDeepQuery` and `strconv.IsPrint` are arbitrary functions of the query and the character.
- Observation counters, logging and hit statistics of the negative cache: no result depends on them.
- `SearchAndGet`, admin calls, gRPC and protobuf: conversion between formats.
- The executor's process handling, capability probing and output parsing: input and output.
- Configuration loading and defaults, guardian, heartbeat and health reports: short branches without lasting state.
