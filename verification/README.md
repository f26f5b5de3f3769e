# A verified model of the link checker's run

This project models how markdown-linkerator checks links, and proves what a run promises.

A run is four stages joined by bounded channels. Parse workers read sources and hand every
network link to a seen-map, which keeps one record per normalised URL; the first occurrence
of a URL is answered by the on-disk cache or becomes a job; a dispatcher routes jobs to one
pacer per host; pacers wait for their host's rate limiter and release jobs to an executor
pool; an executor checks the URL (HEAD, then perhaps GET, each with retries), stores the
result, completes the record and reports every occurrence that was waiting in it.

## Layout

| files | what they hold |
|---|---|
| `Model.dfy` | targets, results and the projection of one result onto another occurrence |
| `Cache.dfy`, `CacheRuns.dfy` | the cache object; any number of runs sharing one file |
| `Dedup.dfy`, `Pacing.dfy`, `Execution.dfy` | the seen-map, the pacers and the worker's and executor's code as objects |
| `Pipeline.dfy` | the whole run as a state machine: one step per critical section, channel operation or call to the network |
| `Stages.dfy`, `Jobs.dfy`, `Records.dfy`, `Fanout.dfy`, `Outcomes.dfy`, `Gauging.dfy`, `Safety.dfy` | the inductive invariant, part by part |
| `Progress.dfy`, `Termination.dfy`, `Runs.dfy`, `Freshness.dfy` | deadlock freedom, the measure, whole runs, when cached results are served |
| `Guarantees.dfy`, `Limits.dfy`, `Keeping.dfy`, `Isolation.dfy`, `Reruns.dfy`, `EndToEnd.dfy` | the theorems: about any run, its limits and what it leaves in the cache, about what a failed wait loses, about two runs over the same links, and about the run together with checker and cache |
| `Witness.dfy`, `Orders.dfy` | concrete runs: one that loses a link, and two that print different reports |
| `Retry.dfy`, `RetryLaws.dfy`, `Checker.dfy` | one check: its decisions, what holds of them, and the checker as loops over mutable counters |
| `RateLimit.dfy` | the per-host rate controller and cooldown |
| `Report.dfy` | the order of the report, groups, counters and gauges |
| `InlineCode.dfy`, `Headings.dfy` | the two scanning loops behind anchors |

Concurrency is modelled at the granularity of the locks: `add` releases the map's lock
before it takes the record's, so a `complete` can land between the two halves, and the
wakeup of a pacer comes after its unlock. Capacities and limits are arbitrary positive
numbers; `Configure` gives the ones a run really uses. Objects that the program updates in
place are classes whose methods are proved to make exactly the transition the state machine
steps with.

## What was found

- **A failed wait for a token loses links in silence.** When the limiter's wait fails while
  the context is still live, as it does when the remaining time is too short for the next
  token, the pacer returns with jobs queued and `Run` returns no error. A run that is not
  cancelled reports every link if and only if no such wait failed
  (`Guarantees.CompleteIffNoFailedAcquire`), and the links it does not report are exactly
  those whose job was in that pacer's hand or behind it in its queue
  (`Isolation.UnreportedIffLeftBehind`); other hosts lose nothing
  (`Isolation.HostsAreIsolated`). `Witness.LinkCanVanish` is a concrete run: two links to
  one host, of which the first gets its token and the second does not.
- **A Retry-After of more than 9223372036 seconds wraps around** in the multiplication by
  the second. Up to there every honoured Retry-After is waited exactly
  (`RetryLaws.RetryAfterHonoured`); with one second more every retry the budget holds is
  made without any pause (`RetryLaws.HugeRetryAfterIsNoWait`).
- **Heading anchors can collide.** Two headings share a name exactly when a repeated heading
  is due a name that an earlier heading spells out (`Headings.NamesDistinctIff`), as in the
  headings foo-1, foo, foo.
- **The report's order can depend on the order of arrival**: exactly when two different
  results share file, line and URL (`Report.DeterministicReport`). Two clean runs over a URL
  that occurs twice on one line can print their lines in different orders
  (`Orders.OrderOfArrivalShows`). What they print is otherwise the same: up to the reused
  marks, clean runs with the same checks report the same results (`Reruns.SameResults`), and
  in the same order when links in one place with one URL are the same link
  (`Reruns.SameReport`).
- The comment on `Definitive` names 400, 404 and 410; the code keeps every 4xx except 408,
  425 and 429, a 403 for example (`CacheRuns.ForbiddenIsKept`). The model follows the code.
- An interrupted check reports no retries and no Retry-After, even when it had honoured one
  (`RetryLaws.CountersReported`; `RetryLaws.InterruptedForgets` is such a check).
- A result's host is the URL's host with its port when it was checked, and without it when
  it was served from the cache (`RetryLaws.CheckRespectsPolicy`, `Guarantees.CacheProvenance`);
  jobs, gauges and limiters go by the host without port.

## Model

| member | source | states |
|---|---|---|
| Guarantees.OneCopy | internal/pipeline/dedup.go:37-76 | in every reachable state, for every interleaving of `add` and `complete`, a reached link is in exactly one place: its worker's hands, its record, an executor's hands, or the results |
| Guarantees.AtMostOnce | internal/pipeline/dedup.go:11-19 | no link is ever reported twice, in any run, cancelled or not |
| Guarantees.ResultIffChecked | internal/pipeline/pipeline.go:246-263 | at the end of any run a network link has its one result exactly when it was reached and its URL's record was completed |
| Guarantees.CompleteIffNoFailedAcquire | internal/pipeline/pacer.go:69-71 | a finished run that was not cancelled reported every link of every source exactly once if and only if no wait for a token failed |
| Guarantees.SharedOutcome | internal/pipeline/dedup.go:78-91 | all results for one key agree on state, status, host, detail and cache mark, and at most one occurrence is not marked reused |
| Guarantees.ReportsTheRecord | internal/pipeline/dedup.go:78-91 | field by field, a reported network link carries its own target, the state, status, host, detail and cache mark on its URL's record, the reused mark unless it is the record's origin, and none of the check's counters |
| Guarantees.ReportsTheVerdict | internal/pipeline/pipeline.go:169-184 | any other reported link carries exactly the target, state, status and detail that settled it |
| Guarantees.OneFreshResult | internal/pipeline/pipeline.go:260-263 | in a finished clean run each URL that was looked up has exactly one result not marked reused, that of the occurrence that created its record |
| Guarantees.CacheProvenance | internal/pipeline/dedup.go:38-50 | a result marked as cached repeats an entry the store was loaded with, never one this run stored; the entry was younger than the time to live when it was served, during this run; its URL never had a job; and its host is the one jobs go by |
| Guarantees.Accounting | internal/report/report.go:268-292 | after a clean run the summary's total is the number of links, cached plus reused plus checks performed is the number of network links, and every gauge is back to zero |
| Guarantees.CloseDiscipline | internal/pipeline/pipeline.go:89-118 | no send on a closed channel, no second close and no missing record in any reachable state; each channel is closed only when its senders are gone; at the end all are closed and drained |
| Guarantees.PacersFifo | internal/pipeline/pacer.go:47-76 | what a pacer released is a prefix of what it accepted, and all of it when it exits and nothing failed |
| Guarantees.NoLostWakeup | internal/pipeline/pacer.go:31-56 | a pacer asleep with a job queued or told to stop is owed a signal or broadcast by the dispatcher, which is past its unlock |
| Guarantees.GaugesMeanWhatTheySay | internal/report/report.go:74-116 | each host's gauge counts its announced jobs whose check has not returned and is listed only while positive; at most one check per URL is running |
| Guarantees.BacklogAddsUp | internal/report/report.go:120-140 | the hosts' gauges add up to enqueued minus completed checks |
| Limits.LimitsHold | internal/pipeline/pipeline.go:80-131 | in every reachable state at most the configured number of sources are being parsed and of URLs being checked, and no channel holds more than its capacity |
| Keeping.ChecksAreKept | internal/pipeline/pipeline.go:258-263 | in every reachable state, once a URL's check is on record and is alive or dead with a 4xx other than 408, 425 and 429, an enabled cache holds it with its state, its code and a time of this run |
| Safety.InvStep | internal/pipeline/pipeline.go:80-134 | every step of every goroutine, failures and cancellation included, keeps the whole invariant |
| Stages.FlowStep | internal/pipeline/pipeline.go:80-134 | every step keeps who may still send where, when each channel is closed, and what each pacer owes and is owed, and never panics |
| Progress.DeadlockFree | internal/pipeline/pipeline.go:80-134 | in every state of the invariant that is not final some goroutine can take an ordinary step, whatever the capacities and limits |
| Termination.StepDrops | internal/pipeline/pipeline.go:80-134 | every step makes a lexicographic pair of naturals smaller |
| Termination.EveryRunStops | internal/pipeline/pipeline.go:76-134 | there is no infinite run |
| Termination.Finishes | internal/pipeline/pipeline.go:76-134 | from every state of the invariant ordinary steps lead to a final state |
| Runs.ReachableInv | internal/pipeline/pipeline.go:80-134 | every reachable state has the invariant, and a failed wait for a token leaves a job lost for good |
| Witness.SilentLoss | internal/pipeline/pacer.go:69-71 | from any reachable state in which a pacer waits for a token and the context is not about to end, one failed wait allows a run that ends without error and never reports the link whose job that pacer held |
| Witness.LinkCanVanish | internal/cli/cli.go:95-103 | a concrete run over two links to one host whose context stays live: the first job is released, the wait for the second token fails, and the second link is never reported |
| Isolation.UnreportedIffLeftBehind | internal/pipeline/pacer.go:65-74 | in a finished run that was not cancelled, a network link is unreported exactly when the job of its URL was dropped by its host's pacer or still queued there when the pacer returned |
| Isolation.HostsAreIsolated | internal/pipeline/pacer.go:11-15 | a host whose own waits never failed released every job it accepted, and every link whose URL it serves is reported, whatever happened to other hosts |
| Isolation.FailedWaitLosesTheRest | internal/pipeline/pacer.go:65-74 | a host whose wait failed lost that job and those queued after it, none of them reported, and released the ones before in order |
| Reruns.SameResults | internal/pipeline/dedup.go:78-91 | two finished clean runs over the same links whose checks came out the same report the same multiset of results, reused marks apart |
| Reruns.SameReport | internal/report/report.go:294-305 | and the same report line by line, reused marks apart, when links with one file, line and URL are the same link |
| Orders.OrderOfArrivalShows | internal/pipeline/pipeline.go:190-197 | two finished clean runs of one configuration, alike until its only check is on record, whose reports list their results in different orders |
| EndToEnd.ReportSaysTheLastAttempt | internal/checker/http.go:77-140 | from the wire to the report: a network link not served from the cache is reported with its own target and the state, status, detail and host of one check of its URL; that check's last attempt decides them: a status the policy lists is reported alive with that status, any other dead with it, no answer dead with 0, and only a stopped check as an error |
| EndToEnd.ReportObeysPolicy | internal/checker/http.go:131-140 | in a run whose checks are the checker's own, every reported network link obeys the policy, fresh, shared or cached, and so does every entry the store then holds |
| EndToEnd.CachedIsRecentCheck | internal/pipeline/dedup.go:41-46 | a reported result marked as cached repeats a real check worth keeping of its URL by an earlier run under the same policy, made less than the time to live before it was served |
| EndToEnd.PipelineRunIsCacheRun | internal/pipeline/pipeline.go:246-258 | whatever a run's goroutines interleave, the store it ends with is one that passing time and puts of real checks produce, so the laws of cache runs hold over any sequence of pipeline runs |
| EndToEnd.LoadedStoreObeys | internal/cache/cache.go:60-85 | whatever earlier runs did, the store a run loads obeys that run's own policy |
| Dedup.SeenMap.Lookup | internal/pipeline/dedup.go:38-52 | the part of `add` under the map's lock: a known key is handed on untouched; a new one is answered from the cache with the entry's state and status and a record that is done, or becomes a job and a record that holds the link |
| Dedup.SeenMap.JoinRecord | internal/pipeline/dedup.go:54-60 | the part of `add` under the record's lock: a finished record's state, status, host, detail and cache mark are emitted for this link, marked reused; in an unfinished one it waits |
| Dedup.SeenMap.Complete | internal/pipeline/dedup.go:65-76 | the outcome is fixed and exactly the waiting occurrences are handed over, once; no other record changes |
| Dedup.SeenMap.Add | internal/pipeline/dedup.go:37-61 | undisturbed, an occurrence is either emitted with the record's outcome or waits in it, and a job is made exactly for a new key the cache cannot answer |
| Execution.Worker.HandleTarget | internal/pipeline/pipeline.go:169-200 | ignored links, local ones with their check's verdict and unchecked external ones are reported at once, field by field, and leave the seen-map alone; any other link, undisturbed, is reported from its record or held in it, and a job is announced exactly when one is made and then sent unless the send gives up |
| Execution.Worker.Execute | internal/pipeline/pipeline.go:246-264 | one executor undisturbed: gauges, limiter, cache and record each change as the check's result says, and every waiting occurrence is reported, in order, with its own target and the check's state, status, host and detail, all but the first marked reused |
| Pacing.HostPacer.Run | internal/pipeline/pacer.go:47-76 | the pacer's loop under any arrivals: what it sent, dropped and still holds is what it was given, in order; at most one job is dropped, none on a clean exit; each exit has its cause |
| Pacing.HostPacer.Take | internal/pipeline/pacer.go:57-67 | the locked section leaves when cancelled or drained and otherwise takes the oldest job |
| Pacing.PacerSet.Dispatch | internal/pipeline/pacer.go:94-106 | a job goes to its host's pacer, made on first use, and no other pacer changes |
| Pacing.PacerSet.CloseAll | internal/pipeline/pacer.go:109-112 | every pacer is told to stop and nothing else about it changes |
| CacheRuns.GetAgrees | internal/cache/cache.go:123-134 | over any sequence of runs, `Get` answers for every key with the last check worth keeping in the list the store stands for, if it is younger than the time to live: error-free, and alive or dead with a 4xx other than 408, 425 and 429 |
| CacheRuns.HitIsRecentCheck | internal/cache/cache.go:121-134 | a hit repeats a real check of that key under the running policy, less than the time to live ago, with its original time; alive codes are the policy's, dead ones a stable 4xx |
| CacheRuns.SavedThenServed | internal/cache/cache.go:155-195 | what one run saved, the next under the same policy serves, however long after, subject to its own time to live |
| CacheRuns.OtherPolicyStartsCold | internal/cache/cache.go:76-80 | a run under another policy is served nothing |
| CacheRuns.LastingIsServed | internal/cache/cache.go:136-149 | a check that is error-free and alive with any status, or dead with a 4xx other than 408, 425 and 429, is served back for exactly the time to live, by its own run and by the next one under the same policy, with its state, status and time |
| CacheRuns.PassingIsNotKept | internal/cache/cache.go:92-119 | any other check changes no answer for any URL |
| CacheRuns.ForbiddenIsKept | internal/cache/cache.go:109-119 | a link dead with 403 is stored and served back |
| CacheRuns.StepSound | internal/cache/cache.go:56-195 | loading, storing, saving, ending and damage to the file each keep file and store true to the checks made |
| ResultCache.Cache.constructor | internal/cache/cache.go:60-85 | a missing, foreign or differently made file, or a disabled cache, starts empty; otherwise the file's entries are loaded |
| ResultCache.Cache.Get | internal/cache/cache.go:123-134 | answers exactly an enabled, present entry younger than the time to live |
| ResultCache.Cache.Put | internal/cache/cache.go:138-149 | when enabled, stores at the current time exactly error-free results that are alive with any status or dead with a 4xx other than 408, 425 and 429; any other call leaves the entries as they were |
| ResultCache.Cache.Save | internal/cache/cache.go:155-170 | the entry-by-entry copy is the whole store; a disabled cache leaves the file alone |
| RetryLaws.RetryBudgets | internal/checker/http.go:208-271 | over HEAD and GET together, for every sequence of outcomes, retries after 429 and 503, after timeouts and after connection failures each stay within their own budget |
| RetryLaws.BudgetUsedUp | internal/checker/http.go:208-271 | a host failing in one way for ever uses its budget up exactly, and only connection failures go on to GET |
| RetryLaws.AttemptsBounded | internal/checker/http.go:40-63 | the attempts of a check are at most two plus the smaller of twice the loop's limit and the budgets' sum |
| RetryLaws.WaitsMeasured | internal/checker/http.go:290-360 | only throttled responses, timeouts and connection failures are waited for; a wait without response is half a second, one, two, then three; one with a usable Retry-After is that value, clamped; any other lies between the shortest wait and that doubled with every attempt, up to the longest |
| RetryLaws.JitterIsFull | internal/checker/http.go:338-360 | the waits that can come out are exactly those from the shortest to the ceiling, which doubles with every attempt up to the longest |
| RetryLaws.RetryDecision | internal/checker/http.go:203-276 | an attempt is retried if and only if the context is alive and it timed out or failed to connect, or was answered 503, or 429 where those are retried, with no Retry-After beyond the limit, and its own budget has something left; and what each outcome does to every counter |
| RetryLaws.WaitingBounded | internal/checker/http.go:282-360 | the waits of one check add up to at most the throttle budget times the longest wait plus three seconds for every other retry |
| RetryLaws.RetryAfterHonoured | internal/checker/http.go:290-312 | with a limit configured, a retried 429 or 503 that asks for n seconds waits n seconds exactly when n is at most 9223372036, and then n seconds are within the limit |
| RetryLaws.RetryAfterUncapped | internal/checker/http.go:300-311 | with no limit configured the wait is the requested one or two minutes, whichever is less |
| RetryLaws.HugeRetryAfterIsNoWait | internal/checker/http.go:370-375 | one second beyond that bound, a host that keeps answering 503 gets every retry of the budget without any pause, under any limit |
| RetryLaws.CountersReported | internal/checker/http.go:385-392 | an uninterrupted check's retries are its attempts minus its requests, a 429 is reported exactly when one was received, and the Retry-After handed to the limiter is the last one honoured; an interrupted check reports none |
| RetryLaws.InterruptedForgets | internal/checker/http.go:92-95 | a check that waited out a Retry-After and was interrupted on the next attempt reports neither the 429 nor the delay |
| RetryLaws.LastAttemptDecides | internal/checker/http.go:77-140 | a check is an error if and only if its last attempt found the context ended, the wait after it was cut short, or it failed and the context had ended when the check looked; otherwise an answer's status is reported, alive exactly when the policy lists it, and without an answer the link is dead with 0 and no error |
| RetryLaws.LiveCheckIsNoError | internal/checker/http.go:65-67 | in a context that stays alive every check ends alive or dead, whatever fails |
| RetryLaws.BadUrlDecides | internal/checker/http.go:142-146 | a URL no request can be made for is dead with 0 after no attempt, and an error exactly when the context had ended |
| RetryLaws.GetWhenHeadUndecided | internal/checker/http.go:77-107 | GET is sent exactly when HEAD ended with a status that is not 2xx, not alive, not 429 or 503, or failed without timing out while the context lives |
| RetryLaws.CheckRespectsPolicy | internal/checker/http.go:68-140 | a check without error is alive with an alive status or dead without one; the result is about the target asked for and carries the host given, and is marked as an error exactly when it has one |
| Checker.HTTPChecker.CheckRetry | internal/checker/http.go:208-254 | updates the shared counters and decides as the decision function does, in every branch |
| Checker.HTTPChecker.RateLimitRetry | internal/checker/http.go:260-271 | retries exactly while the Retry-After is acceptable and the budget lasts, and counts only acceptable ones |
| Checker.HTTPChecker.Backoff | internal/checker/http.go:290-315 | records the honoured Retry-After and returns the wait |
| Checker.HTTPChecker.Do | internal/checker/http.go:40-63 | the client's loop of attempts over shared mutable counters computes the recursive trace the laws are about |
| Checker.HTTPChecker.Check | internal/checker/http.go:68-123 | the two requests over one set of counters give the result the laws are about |
| RateLimit.RateStaysInBand | internal/ratelimit/ratelimit.go:113-125 | after any calls the rate is at most the ceiling, which is the configured rate or 0.01, and either at it or at least an eighth of it and 0.2; fewer than five successes are pending |
| RateLimit.ApplyInBand | internal/ratelimit/ratelimit.go:195-242 | a penalty never raises the rate, a success never lowers it, nothing else touches it |
| RateLimit.PenaltiesCompound | internal/ratelimit/ratelimit.go:195-220 | k penalties with no success between them halve the rate k times, clamped once |
| RateLimit.ThreePenaltiesReachFloor | internal/ratelimit/ratelimit.go:266-273 | any three penalties with no success between them reach exactly an eighth of the ceiling or 0.2, whichever is more, or the ceiling if that is lower |
| RateLimit.TwoPenaltiesDoNot | internal/ratelimit/ratelimit.go:195-220 | two do not, for ceilings above 0.8 |
| RateLimit.SuccessesAccrue | internal/ratelimit/ratelimit.go:225-242 | with no penalty between them, every fifth success raises the rate by an eighth of the ceiling, those pending included |
| RateLimit.ThirtyFiveSuccessesRecover | internal/ratelimit/ratelimit.go:222-242 | any thirty-five successes with no penalty between them restore the ceiling |
| RateLimit.ThirtyFourDoNot | internal/ratelimit/ratelimit.go:222-242 | thirty-four do not, from the floor of a ceiling of at least 1.6 |
| RateLimit.CooldownIsLatest | internal/ratelimit/ratelimit.go:176-189 | after any calls the deadline is no earlier than call time plus delay, of which at most five minutes count, for each penalty and each arming with a positive delay, and it is what it was or exactly one of these (or the time of a penalty without delay) |
| RateLimit.CooldownIgnoresOrder | internal/ratelimit/ratelimit.go:170-220 | the order in which armings and penalties take the lock makes no difference to the deadline |
| RateLimit.CooldownCapped | internal/ratelimit/ratelimit.go:35-37 | the deadline is at most five minutes after the latest call |
| RateLimit.GrantedAfterEveryDeadline | internal/ratelimit/ratelimit.go:130-152 | a pacer is let through no earlier than call time plus delay, of which at most five minutes count, of any penalty or arming made before it asked or during any of its sleeps |
| RateLimit.SleepsBoundedByExtensions | internal/ratelimit/ratelimit.go:137-151 | a pacer sleeps at most once more than the deadline was extended under it |
| RateLimit.HostState.constructor | internal/ratelimit/ratelimit.go:113-125 | a non-positive rate or burst is replaced and the controller starts at its ceiling |
| RateLimit.HostState.Penalize429 | internal/ratelimit/ratelimit.go:195-220 | the whole new state after a penalty, spelled out: the halved rate between floor and ceiling, and the deadline at least now plus the delay, of which five minutes count |
| RateLimit.HostState.OnSuccess | internal/ratelimit/ratelimit.go:225-242 | the whole new state after a success |
| RateLimit.HostState.ArmCooldown | internal/ratelimit/ratelimit.go:176-189 | only the deadline moves, and only forward |
| RateLimit.HostState.Record | internal/ratelimit/ratelimit.go:156-168 | the counters and first and last instants after one request |
| RateLimit.HostState.Acquire | internal/ratelimit/ratelimit.go:130-152 | the loop of reads and sleeps ends as the specification says, under any calls that arrive meanwhile |
| InlineCode.RemoveInlineCode | internal/extract/anchors.go:137-157 | the loops compute the scan, and the inner one looks at no more than twice the input in all |
| InlineCode.StripDeletesSpans | internal/extract/anchors.go:129-157 | the scan deletes exactly the spans, from one backtick without a backslash before it to another at least two bytes on, that a leftmost, shortest, non-overlapping search finds, and such a search always exists |
| InlineCode.EscapesKept | internal/extract/anchors.go:129-157 | a surviving backtick is a delimiter in the output exactly when it was one in the input |
| InlineCode.TwoDelimsAdjacent | internal/extract/anchors.go:137-157 | any two delimiters of the output are neighbours, so there are at most two |
| InlineCode.StripIdempotent | internal/extract/anchors.go:137-157 | a second pass changes nothing |
| InlineCode.StripUnchanged | internal/extract/anchors.go:139-152 | the scan changes nothing exactly when the input has no span |
| Headings.HeadingSlugs | internal/extract/anchors.go:84-99 | the loop over the counter map computes the numbering |
| Headings.ItoaIsDecimal | internal/extract/anchors.go:93 | a number is written with the decimal digits that stand for it, without leading zeros |
| Headings.EverySlugPresent | internal/extract/anchors.go:84-99 | one name per heading, the counters' keys are the names given out, and every heading's own slug is among them |
| Headings.NamesDistinctIff | internal/extract/anchors.go:81-99 | the names are pairwise distinct exactly when no repeated heading is due a name an earlier heading spells out |
| Headings.PlainNames | internal/extract/anchors.go:81-99 | in a document where no slug is another slug with a number, the n-th repeat of a slug is that slug with the number n, and all names differ |
| Headings.SharedName | internal/extract/anchors.go:89-96 | foo-1, foo, foo gives foo-1 twice |
| Report.SortResultsInOrder | internal/report/report.go:294-305 | the report holds the same results, by file in byte order, then by line going up, then by URL in byte order, and those with the same three in order of arrival |
| Report.StringLessIsByteOrder | internal/report/report.go:294-305 | strings compare by the first byte in which they differ, a proper prefix first |
| Report.SortUnique | internal/report/report.go:294-305 | a stable sort by that key leaves no freedom |
| Report.DeterministicReport | internal/report/report.go:294-305 | the report does not depend on the order of arrival if and only if no two different results share file, line and URL |
| Report.AnyOrderSameSummary | internal/report/report.go:268-292 | the counters and the exit code never depend on the order of arrival |
| Report.Summarize | internal/report/report.go:268-292 | the loop's counters are the numbers of results of each kind, the four states add up to the total, and the exit code is 1 exactly for a dead link or a counted error |
| Report.GroupByFile | internal/report/report.go:403-413 | the groups concatenate to the list, each is one file's, and neighbours are different files' |
| Report.OneGroupPerFile | internal/report/report.go:403-413 | in the report's order the groups' files strictly increase in byte order, so every file has one group |
| Report.Collector.NetEnqueue | internal/report/report.go:75-80 | the whole change to the gauges when a job is announced |
| Report.Collector.NetStart | internal/report/report.go:91-95 | a check becomes active with its starting time |
| Report.Collector.NetStatus | internal/report/report.go:99-105 | a note reaches only a check that is active |
| Report.Collector.NetComplete | internal/report/report.go:108-116 | the whole change to the gauges when a check returns; a host with none left is dropped |
| Report.Collector.Add | internal/report/report.go:211-227 | the result is appended and the live counters keep agreeing with the buffer |
| Report.Collector.Finish | internal/report/report.go:232-253 | the summary counts the buffered results and lists each of them once, by file and URL in byte order and by line going up; the buffer is left as it was |

## Left out

- Guarantees.PacersFifo: says nothing about the jobs a cancelled or failed pacer still holds beyond their being in order; they are never checked.
- Pacing.HostPacer.Run: one object cannot show other goroutines, so what they do between two of the pacer's critical sections arrives as one batch; every interleaving is in the state machine instead.
- Execution.Worker.Execute: takes one clock reading and is undisturbed; the interleavings are in the state machine, where the limiter's feedback is not a step because nothing there depends on it.
- Execution.Worker.HandleTarget: is told whether an ignore pattern matches, what the local check says and whether the send gets through; other goroutines are in the state machine.
- Checker.HTTPChecker.Do: the request's method, headers and authentication are not modelled, and the loop of attempts is the client library's, written out.
- Report.Collector.Finish: the section of per-host statistics and the rendering are not modelled.
- Witness.LinkCanVanish: that the second wait fails is the environment's choice; the model has no token bucket to make it.
- RetryLaws.WaitsMeasured: durations are exact integers, so the rounding of the floating-point backoff product is not modelled.
- RetryLaws.RetryAfterHonoured: covers the delay-seconds form of Retry-After; in the HTTP-date form (section 10.2.3 of RFC 9110) the time left is an input.
- RateLimit.GrantedAfterEveryDeadline: promises nothing about requests already released to the executors or retried inside a check, which bypass the limiter.
- RateLimit.RateStaysInBand: rates are real numbers, and the token bucket they are fed to is not part of this model, so no request rate is claimed.
- CacheRuns.SavedThenServed: saving and loading are taken to be faithful (JSON, temporary file, rename), and different policies to have different fingerprints.
- Headings.HeadingSlugs: starts from the headings' slugs; the regular expressions, Unicode classes and link reduction that make a slug are not modelled.
- InlineCode.RemoveInlineCode: strings are sequences of bytes; the fenced-code and comment removal before it are regular expressions and are not modelled.
- Report.SortResultsInOrder: the library's sort is specified (sorted, equal keys in order) and shown to be unique, not executed in place.
- The wakeup a cancelled context broadcasts takes no lock and is a step of its own that may come too early to be heard; the proofs rely on the broadcast that follows the dispatcher's close.
- Crawling, globbing, file reads, Markdown and HTML parsing: a source is the list of its links; one that cannot be read is a source with one settled error result.
- File, fragment, mailto and ignore checks: each yields a settled result at once.
- URL normalisation and host extraction are uninterpreted functions of the URL.
- Real HTTP, redirects, headers and authentication: each attempt's outcome is an arbitrary choice of the environment.
- Per-host overrides and the lazily filled registry of limiters: one controller per host is assumed.
- The retry callback that arms a cooldown in the middle of a check appears as an arming that may come at any time.
- Configuration merging, the command line, the heartbeat, colours and report rendering.
- The retry count is taken as non-negative, as the configuration resolves it.
