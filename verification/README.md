# Gatesentry, verified

This project models the decision core of Gatesentry, a filtering DNS server and web proxy, and proves what that core
promises. It has six parts.

- **The asynchronous decision logger.** Any number of `enqueue`, `Flush` and `Close` calls run beside one writer
  goroutine. Every critical section, channel operation, atomic counter and database transaction is one action of a
  transition system, so a statement about every run covers every interleaving. `LoggerProtocol` holds the actions,
  `LoggerDatabase` the account of the stored pairs, `LoggerInvariants` an inductive invariant with the proof that each
  action keeps it, `LoggerTheorems` and
  `LoggerOutcomes` what follows for safety and for progress. The database may hold pairs from earlier runs when it is opened, and
  any pair may expire at any step.
- **Policy evaluation.** `PolicyRules` proves the imperative evaluation of a policy against a declarative meaning (the
  first active clause of a list) and proves laws of that meaning: DNS and proxy agree, a pause only lifts blocks.
  `PolicyMeaning` spells the meaning out without the evaluator's own vocabulary.
  `PolicyNormal` covers the normalisation of saved rules, `PolicyDecisions` the decision path around the policy,
  `Schedules` weekly schedules, `Domains` domain patterns and category feeds.
- **Temporary access.** `Grants` and `GrantStore` model exceptions and pauses with their durable life cycle (they share
  one code shape, told apart by `Kind`), `AccessRequests` the requests for access, `RateLimiter` their limit.
- **Reading the history.** `Decisions` and `Rankings` cover paging, the dashboard summary, its timeline and its top lists.
- **Backup and restore.** `Backup` covers archives and their restoration under every pattern of storage failure.
- **The proxy's byte streams and its certificate cache.** `Streams` and `CertificateCache`.

Times are integers on a clock that does not run backwards. A call to the outside (random IDs, the clock, storage
outcomes, JSON, regular expressions, durations, upper and lower case) is a parameter. State that the source updates in
place is a class whose methods are proved against functions on values; the theorems about whole runs are about those
functions.

Places where the code does something other than its comments or its callers expect are stated as lemmas, with
the exact condition under which the expectation holds and, where one is reachable, an input at which it fails:

- `Backup.AllOrNothing` and `Backup.RollbackCanTear`: a store's write can fail after its commit. Then a restoration, or
  its rollback, can leave one store new and the other old, although the comment in the code promises consistency.
- `Domains.WildcardFeedAgreesOffApex` and `Domains.ApexDisagrees`: a wildcard pattern in a policy excludes the apex,
  while a category feed strips the wildcard and includes it. On every other query the two agree.
- `Decisions.WindowIsCovered` and `Decisions.EarlyClockMissesBucket`: the timeline starts at `from - from%step`. Go's
  remainder takes the sign of `from`, so for a negative `from` that is no multiple of the step, entries at the start of
  the window fall into no bucket. The only way in is a clock that reads less than seven days after the start of 1970
  (`Decisions.ResolvedStart`); with any later clock every requested window is covered
  (`Decisions.RequestedWindowIsCovered`).
- `Streams.WithinLimitIsWhole`: `limit+1` overflows at the largest 64-bit limit, and then nothing is read. This is a
  fact about the function: its one caller passes a scan limit of at most 1000 MB.
- `LoggerTheorems.ErrorArmsUnreachable`: the writer retries until a transaction succeeds, so the branches that handle a
  write error after `flush` are dead code.

## Model

| member | source | states |
|---|---|---|
| `LoggerInvariants.ProducerKeepsInv` | application/logger/logger.go:316-360 | Every step of `enqueue` keeps the whole invariant, whatever the other goroutines are doing |
| `LoggerInvariants.FlushKeepsInv` | application/logger/logger.go:386-414 | Every step of `Flush`, including cancellation while sending or waiting, keeps it |
| `LoggerInvariants.CloseKeepsInv` | application/logger/logger.go:419-441 | Every step of `Close` and of the goroutine that waits for producers keeps it |
| `LoggerInvariants.WriterKeepsInv` | application/logger/logger.go:177-291 | Every step of the writer, including failed transactions and the final drain, keeps it |
| `LoggerTheorems.RunKeepsInv` | application/logger/logger.go:177-441 | The invariant holds after every run of any length from any state that satisfies it |
| `LoggerTheorems.ReachableInv` | application/logger/logger.go:128-175 | It holds in every state reachable from a logger just opened on any existing database |
| `LoggerTheorems.RunsAreReachable` | application/logger/logger.go:128-175 | Every run from every such start ends in a state the theorems speak about |
| `LoggerTheorems.BaseIsFixed` | application/logger/logger.go:182-211 | No step but expiry makes a pair expire, and the pairs the database was opened with are fixed |
| `LoggerTheorems.NothingLostOrReordered` | application/logger/logger.go:177-291 | Stored, batched, in-hand and queued entries together are the successful sends in order, none twice; an entry is among them exactly when its call has sent it; the batch is below its size between items |
| `LoggerTheorems.DatabaseIsStored` | application/logger/logger.go:182-211 | The database holds exactly the pairs it was opened with and one for each stored entry, under its own key and with its own value, less those whose time to live ran out |
| `LoggerTheorems.ShutdownPersistsExactlyAccepted` | application/logger/logger.go:213-241 | When `done` closes, queue and batch are empty, accepted equals persisted, the database grew by exactly that many pairs less the expired ones, and a key was written exactly when its call returned true, with its value |
| `LoggerTheorems.CloseIsDurable` | application/logger/logger.go:419-441 | A `Close` that returned without a context error: every call that returned true is in the database with its value, unless expired |
| `LoggerTheorems.DroppedIsNeverWritten` | application/logger/logger.go:307-360 | A call that returned false is not and never was in the database, in any reachable state |
| `LoggerTheorems.FlushIsDurable` | application/logger/logger.go:386-414 | A `Flush` that returned nil, through the barrier or through the closed path: every call accepted before it was written and is in the database with its value, unless expired |
| `LoggerTheorems.BeforeIsAcceptedAtCall` | application/logger/logger.go:386-390 | "Accepted before it" means the calls that had returned true when `Flush` was called, and no later step changes that set |
| `LoggerTheorems.BarrierAnsweredOnce` | application/logger/logger.go:213-260 | Each barrier exists in exactly one place until it is answered once; the writer's send and close on its channel never block or panic, even after the caller has gone |
| `LoggerTheorems.ErrorArmsUnreachable` | application/logger/logger.go:213-290 | No error value reaches a barrier or `finish`, and the drain never discards an item |
| `LoggerTheorems.DepthLags` | application/logger/logger.go:293-377 | The depth counter is the channel's entries minus sends not yet counted plus one uncounted receive; what `Stats` reports never exceeds the capacity by more than one |
| `LoggerTheorems.CountedExactlyOnce` | application/logger/logger.go:307-360 | Accepted plus dropped is the number of calls that counted themselves; when all calls have returned, every one is counted once, and accepted counts those that returned true |
| `LoggerTheorems.RealTimeOrder` | application/logger/logger.go:316-360 | A call that starts after another returned true is sent, and so persisted, after it |
| `LoggerTheorems.SendsOnlyGrow` | application/logger/logger.go:177-360 | No run removes or rewrites a send or a stored entry |
| `LoggerTheorems.ShutdownCompletes` | application/logger/logger.go:213-290 | From every reachable point after the producers have left, the writer alone reaches the end within an explicit number of steps if its transactions succeed |
| `LoggerTheorems.BarrierIsAnswered` | application/logger/logger.go:243-290 | From every reachable point, the writer alone answers any barrier that was sent within an explicit number of steps if its transactions succeed, and a caller that still waits can then return |
| `LoggerTheorems.WriterNeverStuck` | application/logger/logger.go:262-290 | Before it stops, the writer has a next step in every reachable state |
| `LoggerOutcomes.DropIsJustified` | application/logger/logger.go:316-360 | In every run, a call that returned false did not encode, or its admission found the logger closed, or its send found the queue full and its timer then fired |
| `LoggerOutcomes.OnlyClosedRefuses` | application/logger/logger.go:331-339 | In every run, a call stands refused only if the logger is closed, and a closed logger stays closed |
| `LoggerOutcomes.OpenLoggerAccepts` | application/logger/logger.go:331-360 | On an open, unlocked logger with room, an encoded entry is sent, counted and accepted by the call's own five steps |
| `LoggerOutcomes.RoomIsTaken` | application/logger/logger.go:341-360 | A call that waits is accepted as soon as there is room |
| `LoggerOutcomes.ClosedLoggerDrops` | application/logger/logger.go:331-339 | On a closed logger the call returns false, is counted as dropped, and sends nothing |
| `LoggerOutcomes.FlushCompletes` | application/logger/logger.go:386-414 | A `Flush` on an open logger with room returns nil after its own steps and the writer's |
| `LoggerOutcomes.ClosedFlushReports` | application/logger/logger.go:386-414 | A `Flush` that finds the logger closed waits for `done` and reports how closing the database went |
| `LoggerOutcomes.CloseCompletes` | application/logger/logger.go:419-441 | A `Close` whose producers have left returns nil after the writer has shut down |
| `LoggerOutcomes.LaterCloseCompletes` | application/logger/logger.go:419-441 | A later `Close` joins the shutdown and returns with it |
| `LoggerOutcomes.ReportsAreTrue` | application/logger/logger.go:213-241 | In every run, an error from `Flush` or `Close`, and success from `Close`, is what closing the database returned |
| `LoggerOutcomes.EverySendIsStored` | application/logger/logger.go:177-291 | From every reachable state the writer alone, its transactions succeeding, brings every send into the database |
| `LoggerOutcomes.LockIsReleased` | application/logger/logger.go:386-414 | In every run the state lock is free or held by a `Flush` that is sending its barrier |
| `LoggerOutcomes.HolderCanRelease` | application/logger/logger.go:386-414 | Such a holder can give the lock up at once |
| `LoggerOutcomes.BatchesAreFull` | application/logger/logger.go:243-253 | In every run, a flush for size finds the batch full |
| `LoggerOutcomes.WriteErrorsAreCounted` | application/logger/logger.go:182-211 | The error counter grows by exactly the failed transactions of the run |
| `LoggerOutcomes.WriterCountsErrors` | application/logger/logger.go:182-211 | A failed transaction changes that counter and nothing else |
| `LoggerDatabase.WriteKeepsDisk` | application/logger/logger.go:188-201 | A transaction with new keys keeps the account: base plus stored less expired |
| `RateLimiter.Limiter.Allow` | application/policy/access_request.go:90-108 | The pruned list answers exactly as the complete history would, and the call is recorded |
| `RateLimiter.Prune` | application/policy/access_request.go:96-101 | The loop keeps exactly the times after the cutoff, in order |
| `RateLimiter.LaterTwice` | application/policy/access_request.go:94-102 | Having pruned at an earlier cutoff changes nothing about a later window |
| `RateLimiter.AllowedCallsSpanWindow` | application/policy/access_request.go:90-108 | In every history, any maxHits+1 allowed calls of one client span at least the window |
| `RateLimiter.RefusalIsJustified` | application/policy/access_request.go:103-105 | A refused call has maxHits allowed calls of the same client strictly inside its window |
| `RateLimiter.OnlyOwnAllowedCallsCount` | application/policy/access_request.go:90-108 | Refused calls and calls of other clients never influence an answer |
| `Domains.PlainPattern` | application/policy/service.go:861-871 | A plain pattern matches exactly the name and its subdomains at label boundaries |
| `Domains.WildcardExcludesApex` | application/policy/service.go:861-871 | A wildcard pattern matches what its plain form matches, minus the apex |
| `Domains.CategoryIndex.Replace` | application/policy/category.go:205-225 | The category's set becomes the normalised non-empty names, its time is set, other categories keep theirs |
| `Domains.CategoryIndex.Contains` | application/policy/category.go:231-253 | The loop over shrinking candidates finds a listed suffix at a label boundary exactly when there is one |
| `Domains.CategoryIndex.Drop` | application/policy/category.go:268-276 | The category and its time go, everything else stays |
| `Domains.ReplaceDecidesContains` | application/policy/category.go:205-253 | After a replacement, a query is covered exactly when some listed name, normalised, is one of its parents |
| `Domains.CoversIsParent` | application/policy/category.go:231-253 | Coverage by suffixes at label boundaries is coverage by a parent domain |
| `Domains.SubdomainsAreCovered` | application/policy/category.go:231-253 | Coverage extends to every subdomain |
| `Domains.CategoryAgreesWithPattern` | application/policy/category.go:291-296 | A plain feed entry covers the same queries as the policy pattern of the same text |
| `Domains.WildcardFeedAgreesOffApex` | application/policy/category.go:291-296 | A wildcard feed entry and the wildcard pattern of the same text agree on a query if and only if the query is not the apex |
| `Domains.ApexDisagrees` | application/policy/category.go:291-296 | The failing input: the apex is covered by the feed entry and not matched by the pattern |
| `Domains.TrailingDotNeverMatches` | application/policy/service.go:861-871 | A pattern that keeps its trailing dot, as a feed entry does not, matches no name without one |
| `Domains.RootDotIsIgnored` | application/policy/service.go:861-871 | The root dot of a fully qualified query changes no answer of a pattern or a category |
| `Schedules.Atoi` | application/policy/schedule.go:61-70 | The loop yields the decimal value exactly for strings of digits |
| `Schedules.ParseTimeOfDay` | application/policy/schedule.go:44-58 | It accepts exactly the trimmed `HH:MM` forms with hour below 24 and minute below 60 and yields the minute of the day |
| `Schedules.ClockIsRead` | application/policy/schedule.go:44-58 | Every written time of day, with any space around it, is read as its minute of the day |
| `Schedules.OnlyClocksAreRead` | application/policy/schedule.go:44-70 | Nothing else is read |
| `Schedules.IsWeekdayActive` | application/policy/schedule.go:111-121 | No list means every day, otherwise membership |
| `Schedules.IsActive` | application/policy/schedule.go:129-174 | Active exactly when the minute of the week lies in the union, modulo 10080, of the half-open intervals that start on the active weekdays |
| `Schedules.OnSpelledOut` | application/policy/schedule.go:111-174 | A schedule is on exactly in the minutes that follow an opening on a listed weekday, each window for its own length, modulo the week |
| `Schedules.OpeningDay` | application/policy/schedule.go:150-172 | The same-day and after-midnight tests of one window are membership in the interval that starts on that day, Saturday wrapping to Sunday |
| `Schedules.Validate` | application/policy/schedule.go:75-107 | Accepts exactly the well-formed schedules: known zone, at least one window, proper times that differ, weekdays 0 to 6 |
| `Schedules.MinutesPerWeek` | application/policy/schedule.go:75-174 | A valid one-window schedule is on for exactly (weekdays in the list, all seven without one) times (window length) minutes of the week |
| `PolicyRules.EvaluateGroup` | application/policy/rules.go:305-384 | The outcome carries the decision of the first active clause, exactly the conditions of the narrowing rules before it, the proxy conditions DNS leaves out, and a trace whose last step agrees with the action; when nothing decides, the trace names a pause exactly when one held something back |
| `PolicyRules.VisitRule` | application/policy/rules.go:310-352 | One turn of the rule loop decides exactly when the rule applies unconditionally to this request and otherwise extends the collected conditions by exactly this rule's |
| `PolicyRules.VisitLists` | application/policy/rules.go:354-384 | The list stages decide in order allowed, blocked, categories, gateway, with pauses skipping the middle two |
| `PolicyMeaning.MeaningSpelledOut` | application/policy/rules.go:305-384 | The decision is that of the first rule that is enabled, names the domain, is in its schedule, is no paused block, knows the user and has no conditions; else of allowed domains, blocked domains, blocked categories, gateway categories in that order; with what matched and why |
| `PolicyMeaning.RuleSpelledOut` | application/policy/rules.go:310-352 | Exactly when a rule settles a request, adds conditions for the proxy, or is left to the proxy by DNS |
| `PolicyMeaning.ScheduleSwitchesRule` | application/policy/rules.go:319-322 | Inside its schedule a rule means what it means without one, outside what it means switched off |
| `PolicyMeaning.ConditionsSpelledOut` | application/policy/rules.go:336-345 | The collected conditions are those the narrowing rules carry, no more and no less |
| `PolicyMeaning.SourceIsFirst` | application/policy/rules.go:339-342 | They are traced to the first narrowing rule that has an ID |
| `PolicyMeaning.ConditionNames` | application/policy/rules.go:198-210 | Which conditions DNS reports, by name |
| `PolicyRules.AppendUnique` | application/policy/rules.go:409-416 | The old values stay in front unchanged, the result holds exactly both lists, and nothing appended repeats an earlier value |
| `PolicyRules.FirstHitIsLeast` | application/policy/rules.go:228-244 | A list match is the entry at the least matching position |
| `PolicyRules.CategoryListReportsCoverage` | application/policy/rules.go:237-244 | A category list without a blank ID, or with no feed stored under it, answers exactly when one of its categories covers the domain |
| `PolicyRules.DomainListReportsMatch` | application/policy/rules.go:228-235 | A domain list without a blank entry answers exactly when one of its patterns matches |
| `PolicyRules.ProxyIsDnsForUser` | application/policy/rules.go:305-353 | The proxy decides for a user what DNS would decide on the policy with that user's rules resolved |
| `PolicyRules.LayersAgree` | application/policy/rules.go:198-384 | For a user named by no rule, every layer returns the same action, rule, match and reason |
| `PolicyRules.ConditionsBelongToTheirLayer` | application/policy/rules.go:327-345 | DNS collects no URL or content conditions and the proxy reports none as left out |
| `PolicyRules.PauseKeepsAllows` | application/policy/rules.go:323-381 | An unpaused allow is returned unchanged under a pause |
| `PolicyRules.PausedBlocksAreGateway` | application/policy/rules.go:323-381 | A block under a pause is the gateway category's, and is a block without the pause |
| `PolicyRules.PausedClauses` | application/policy/rules.go:323-381 | A pause turns off the block clauses before the gateway's and changes no other clause |
| `PolicyRules.PausedCollectsNothing` | application/policy/rules.go:122-187 | For a normalised policy a paused evaluation collects no URL or content conditions |
| `PolicyNormal.NormalizeList` | application/policy/rules.go:50-88 | The loop accepts exactly lists whose entries are all acceptable, and returns their normal list |
| `PolicyNormal.NormalListContents` | application/policy/rules.go:50-88 | The normal list holds exactly the non-blank canonical values, without repeats where the code removes them |
| `PolicyNormal.NormalListReports` | application/policy/category.go:127-148 | Every normalised list meets that condition, so it answers exactly when something that was entered, in canonical form, hits |
| `PolicyNormal.SavedTargetKeepsMeaning` | application/policy/rules.go:138-150 | A saved rule targets exactly the domains the entered target names |
| `PolicyNormal.NormalizeRule` | application/policy/rules.go:126-184 | A rule is accepted exactly under the stated conditions and saved in normal form |
| `PolicyNormal.AcceptableSpelledOut` | application/policy/rules.go:126-184 | Exactly which rules are accepted, each test on the text as entered |
| `PolicyNormal.NormalizeGroupRules` | application/policy/rules.go:122-187 | All rules are saved in order, or one unacceptable rule rejects all |
| `PolicyNormal.SavedRulesAreNormal` | application/policy/rules.go:122-187 | A saved rule with conditions is a block, an enabled one has a target, its users are no addresses, its categories are in the catalog, its patterns compile, and the rest is as entered |
| `PolicyDecisions.Evaluate` | application/policy/service.go:759-795 | Exceptions first, with their scope as the reason, then the policy of the requester's group or the default group; a pause is named as the reason exactly when it let an otherwise undecided request through; the trace explains the action |
| `PolicyDecisions.ExceptionWins` | application/policy/service.go:759-772 | An exception that reaches the request allows it on every layer and asks for no inspection |
| `PolicyDecisions.ProxyIsTold` | application/policy/service.go:829-851 | The proxy blocks exactly on a block, inspects exactly when conditions were collected and nothing blocks, with those conditions and their source, and otherwise passes an allow on |
| `PolicyDecisions.OnlyOwnPolicyMatters` | application/policy/service.go:759-764 | The outcome depends on no policy but the requester's own, or the default one for a requester without |
| `PolicyDecisions.AdaptersAgree` | application/policy/service.go:804-851 | For a requester no rule names, the DNS answer and the proxy match never contradict each other |
| `PolicyDecisions.PausesOnlyLift` | application/policy/service.go:773-795 | With any set of pauses, a block is a block without them, and an allow without them stays the same allow |
| `Grants.SelectActive` | application/policy/pause.go:220-228 | The filtered copy holds exactly the grants in force, in order |
| `Grants.EvaluateIn` | application/policy/exception.go:342-362 | The three passes compute the most specific match |
| `Grants.LookupIsMostSpecific` | application/policy/exception.go:342-362 | The lookup answers exactly when some grant reaches the request, and none that does has a more specific scope |
| `Grants.LookupSpelledOut` | application/policy/exception.go:342-362 | Found exactly when some grant is for this device, this group or everyone and, for an exception, matches the domain; the narrowest scope and the earliest within it win |
| `Grants.ActiveSpelledOut` | application/policy/exception.go:217-228 | In force means active and not yet expired |
| `Grants.FirstInScopeIs` | application/policy/pause.go:340-360 | Within a scope the first matching grant in document order is returned |
| `Grants.PruneGrants` | application/policy/exception.go:308-333 | The loop keeps exactly the grants not past the cutoff, and kept plus pruned is the old count |
| `Grants.PrunedSpelledOut` | application/policy/exception.go:308-333 | Exactly what ended, and was revoked if at all, no later than the cutoff is removed |
| `Grants.PruningIsInvisible` | application/policy/exception.go:308-362 | At any time from the cutoff on, every lookup gives the same answer with and without the pruned grants |
| `GrantStore.Store.CreateGrant` | application/policy/exception.go:243-280 | Succeeds exactly for valid input, readable storage and a working write; then a grant with every field as requested, from now for the parsed duration, is appended to storage and memory |
| `GrantStore.MayCreateSpelledOut` | application/policy/exception.go:119-151 | Exactly what may be created, with the bounds of seven days for exceptions and one for pauses |
| `GrantStore.CreatedGrantActs` | application/policy/exception.go:243-362 | After a create, the requested identity and domain find a grant at every time before now plus the duration, and this grant at no time from then on |
| `GrantStore.Store.RevokeGrant` | application/policy/exception.go:284-303 | Succeeds exactly when the first grant with the ID is active and the write works; then that record alone is inactive, with who and when |
| `GrantStore.Store.PruneExpired` | application/policy/pause.go:307-331 | The new state and the exact number pruned |
| `GrantStore.PruneSpelledOut` | application/policy/exception.go:308-333 | Ended and revoked grants stay on record for one more maximum duration, and then go |
| `GrantStore.Store.Write` | application/policy/exception.go:372-401 | Storage changes unless the write fails, memory changes only after a good read-back |
| `GrantStore.RunIsGood` | application/policy/exception.go:119-333 | In every run, lifetimes lie between the minimum and maximum and IDs stay unique, in storage and in memory |
| `GrantStore.RunIsSynced` | application/policy/exception.go:372-401 | With working read-backs, memory equals the stored document after every operation of every run |
| `GrantStore.MemoryIsAnEarlierDocument` | application/policy/exception.go:204-213 | Whatever fails, in every run memory is a document that storage held, and since then no operation both took effect and was read back |
| `GrantStore.RefusalsAreInvisible` | application/policy/pause.go:368-396 | Dropping the refused and unwritten operations from any run gives the same storage and memory |
| `GrantStore.UnreadableIsKept` | application/policy/exception.go:162-181 | In every run, a document that cannot be parsed or is of another version is neither overwritten nor read |
| `GrantStore.UnreadResultIsStored` | application/policy/exception.go:372-401 | A result that cannot be read back is stored all the same; only memory waits |
| `GrantStore.RevokeEndsGrant` | application/policy/exception.go:284-303 | A successful revocation leaves no active grant with that ID |
| `GrantStore.RevokedStaysRevoked` | application/policy/exception.go:284-333 | In every later run it stays inactive |
| `GrantStore.InactiveIsNeverFound` | application/policy/exception.go:342-362 | No lookup ever returns an inactive grant |
| `GrantStore.AccessIsBounded` | application/policy/pause.go:110-139 | Nothing a lookup returns is older than the maximum duration |
| `AccessRequests.Desk.CreateAccessRequest` | application/policy/access_request.go:135-165 | Stored exactly when the limiter permits, the domain is not blank and the write works, as a pending request with the fields given; the exceptions are untouched |
| `AccessRequests.Desk.ApproveAccessRequest` | application/policy/access_request.go:182-226 | Success exactly when the exception could be created, the request is pending and the write works; then the request is approved and carries the exception's ID; the exception is created first and stays if the rest fails |
| `AccessRequests.Desk.RejectAccessRequest` | application/policy/access_request.go:230-255 | Success exactly when the request is pending and the write works, then it is rejected; failure changes nothing |
| `AccessRequests.Desk.MarkReviewed` | application/policy/access_request.go:202-218 | The loop marks the first request with the ID exactly when it is pending |
| `AccessRequests.RunKeepsLatest` | application/policy/access_request.go:153-160 | In every run the stored list is the latest at most 200 requests in creation order |
| `AccessRequests.RunKeepsLinked` | application/policy/access_request.go:182-255 | In every run exactly the approved requests carry an exception, and whoever reviewed it created that exception |
| `AccessRequests.ReviewedOnce` | application/policy/access_request.go:182-255 | Once reviewed, a record never changes again |
| `AccessRequests.RequestsGrantNothing` | application/policy/access_request.go:132-165 | No run of requests and rejections changes the exceptions |
| `AccessRequests.UnreadableIsKept` | application/policy/access_request.go:259-287 | In every run, an unreadable request document is never overwritten |
| `Decisions.Limit` | application/logger/decisions.go:43-51 | The requested limit between 1 and 500, 100 for none, never more than 500 |
| `Decisions.ResolveWindow` | application/logger/decisions.go:55-69 | The window is never inverted, a proper one is used as given, open ends are now and seven days back |
| `Decisions.QueryDecisions` | application/logger/decisions.go:104-139 | The scan that stops early returns exactly the page of the whole filtered history |
| `Decisions.MatchingSpelledOut` | application/logger/decisions.go:104-139 | The filtered history is the parsable rows that match, each once and in scan order |
| `Decisions.PageSpelledOut` | application/logger/decisions.go:43-139 | A page is the stretch of at most the limit from the offset on |
| `Decisions.PagesTile` | application/logger/decisions.go:104-139 | Successive pages put together are the history from the start, with no gap or repeat |
| `Decisions.LayOut` | application/logger/decisions.go:219-224 | Empty buckets, evenly spaced, up to and including the one that holds the end |
| `Decisions.WindowIsCovered` | application/logger/decisions.go:219-250 | Every time in the window has a bucket if and only if `from` is non-negative or a multiple of the step |
| `Decisions.ResolvedStart` | application/logger/decisions.go:55-69 | A requested window starts before 1970 exactly when the clock reads less than seven days after it, or the end is open and the clock reads before it |
| `Decisions.RequestedWindowIsCovered` | application/logger/decisions.go:55-250 | With any later clock, every moment of every requested window has a bucket |
| `Decisions.EarlyClockMissesBucket` | application/logger/decisions.go:55-250 | The failing input: a clock on the seventh day of 1970 and the default window |
| `Decisions.BucketHolds` | application/logger/decisions.go:245-250 | A time is counted in the bucket whose interval contains it |
| `Decisions.DecisionSummary` | application/logger/decisions.go:205-284 | Every count is the true count, every bucket counts exactly its entries, the buckets add up to the total and to the blocks, all five rankings are the true top ten and the distinct counts are right |
| `Decisions.SummaryCounts` | application/logger/decisions.go:237-270 | After any entries, the counters and each tally are the numbers of entries that carry the key |
| `Decisions.TalliesSpelledOut` | application/logger/decisions.go:237-270 | Each map counts, for each key, the entries with that action, layer, reason, address or host, and the blocked ones with that host or group |
| `Decisions.FailuresSpelledOut` | application/logger/decisions.go:237-270 | Inspection failures are the entries with the error action |
| `Decisions.TimelineConserves` | application/logger/decisions.go:245-250 | When every entry has a bucket, bucket totals sum to the number of entries and blocked totals to the number of blocks |
| `Decisions.SummaryConserves` | application/logger/decisions.go:205-284 | Hence for entries inside such a window the timeline adds up to the summary |
| `Rankings.TopN` | application/logger/decisions.go:288-303 | The result has min(n, size) true counts, ranked by count and then key, and no omitted key outranks a listed one |
| `Rankings.TopSpelledOut` | application/logger/decisions.go:293-298 | A top list falls in count, ties rise by key, and nothing left out counts more |
| `Rankings.KeyLessSpelledOut` | application/logger/decisions.go:293-298 | The tie-break is dictionary order |
| `Rankings.TopIsUnique` | application/logger/decisions.go:286-303 | There is only one such list, so the order of map iteration cannot show |
| `Rankings.KeyLessTotal` | application/logger/decisions.go:293-298 | The tie-break order is total and antisymmetric |
| `Backup.MapStore.ReplaceAll` | application/storage/backup_support.go:36-54 | The whole map is replaced or kept; an error after the commit is reported with the new map in place and quarantines the store |
| `Backup.QuarantineHolds` | application/storage/storage.go:204-213 | After an error behind a commit, no later write changes what the store shows |
| `Backup.WritesAreWhole` | application/storage/storage.go:386-410 | Through any writes and failures a store shows its old map or a whole map that was written |
| `Backup.MapStore.Snapshot` | application/storage/backup_support.go:12-30 | The visible map, or an error when it cannot be read or the store is quarantined |
| `Backup.ValidateArchive` | application/backup/backup.go:112-181 | Accepted exactly when it decodes, its format version is not zero and not newer, both maps are there, and the settings schema and device document are supported |
| `Backup.AcceptedSpelledOut` | application/backup/backup.go:112-181 | Exactly which archives are accepted, key by key |
| `Backup.NumbersAreRead` | application/backup/backup.go:137-143 | Every 64-bit schema number is read, with either sign |
| `Backup.OthersAreNotRead` | application/backup/backup.go:137-143 | Anything else is rejected |
| `Backup.CreateBackup` | application/backup/backup.go:68-107 | Succeeds exactly when stores and key can be read; the archive holds both maps, with the canonical empty document for missing assignments |
| `Backup.BackupContents` | application/backup/backup.go:91-101 | The archive holds the settings, the devices, the key and whether it is managed |
| `Backup.RestoreBackup` | application/backup/backup.go:187-226 | A rejected archive changes nothing; otherwise the final state of both stores, or of one store passed twice, and the recovery point for every pattern of failures; success is reported exactly when both writes worked |
| `Backup.NothingBeforeRecovery` | application/backup/backup.go:195-208 | Nothing is replaced before both stores are read and the recovery point is saved |
| `Backup.AllOrNothing` | application/backup/backup.go:209-219 | Both stores are old or both are new if and only if the failures are not of the stated tearing patterns or a map did not change |
| `Backup.AtomicReplacement` | application/backup/backup.go:209-219 | If no write fails after its commit, only a failed rollback can tear |
| `Backup.RollbackCanTear` | application/backup/backup.go:213-218 | A concrete pattern in which the rollback works and the stores disagree |
| `Backup.CanonicalIsValid` | application/backup/backup.go:80-85 | What filling in the canonical document changes, and that it makes missing assignments valid |
| `Backup.BackupIsRestorable` | application/backup/backup.go:68-154 | A backup passes validation exactly when the stores it was taken from are compatible |
| `Backup.RestoreUndoesLoss` | application/backup/backup.go:68-226 | Restoring a backup of compatible stores into any stores brings them back, devices in canonical form |
| `Backup.BackupOfRestored` | application/backup/backup.go:68-226 | A backup of restored stores holds the maps of the archive they came from |
| `Streams.PrependConn.Read` | gatesentryproxy/transparent_listener.go:286-293 | The front of what is owed moves into the front of the buffer, the rest of the buffer stays, nothing is skipped or repeated |
| `Streams.PrependConn.ReadSeveral` | gatesentryproxy/transparent_listener.go:280-293 | Any sequence of reads with any buffer sizes yields a front of buffered bytes and stream |
| `Streams.PrependConn.ReadToEnd` | gatesentryproxy/transparent_listener.go:280-293 | Reading to the end yields all of it and the stream's own end |
| `Streams.InsertingConn.Read` | gatesentryproxy/ssl.go:523-531 | The same for the connection that inserts data |
| `Streams.InsertingConn.ReadSeveral` | gatesentryproxy/ssl.go:516-531 | The same for any sequence of its reads |
| `Streams.InsertingConn.ReadToEnd` | gatesentryproxy/ssl.go:516-531 | The same for reading to its end |
| `Streams.ReadBounded` | gatesentryproxy/proxy.go:657-663 | Data is the front of the body up to limit+1 bytes, the rest stays in the body, overLimit compares data with the limit |
| `Streams.OverLimitIsExact` | gatesentryproxy/proxy.go:654-663 | overLimit holds exactly when the body is longer than the limit |
| `Streams.WithinLimitIsWhole` | gatesentryproxy/proxy.go:654-663 | A body within the limit is returned whole if and only if the limit is not the largest 64-bit number or the body is empty |
| `Streams.AccountingWriter.Write` | gatesentryproxy/proxy.go:147-162 | The reported sizes add up to the bytes written through this writer, for every pattern of short writes |
| `Streams.WriteResponseStream` | gatesentryproxy/proxy.go:668-693 | The client gets a front of prefix and body in order, and all of it on success; with a healthy client it succeeds exactly when the body ends properly |
| `Streams.Forward` | gatesentryproxy/proxy.go:519-576 | Reading for inspection and passing on emits the body unchanged, over and under the limit; a body that breaks while it is read yields the error page and nothing else; the reported sizes add up to what was emitted |
| `CertificateCache.CertificateCache.Put` | gatesentryproxy/certificatecache.go:31-70 | The call is recorded and the cache differs from the record only by expired entries; clean-up runs exactly when more than twice the TTL has passed, and then leaves no other expired entry unless it removed 100 |
| `CertificateCache.CertificateCache.Get` | gatesentryproxy/certificatecache.go:72-89 | The latest `Put` for the key exactly while its age is at most the TTL, whatever clean-up removed |
| `CertificateCache.Clean` | gatesentryproxy/certificatecache.go:43-57 | In any order at most 100 removals, only of expired entries, and of all of them if fewer were removed |
| `CertificateCache.PutKeepsRepresents` | gatesentryproxy/certificatecache.go:59-66 | Adding an entry keeps the agreement of cache and record |

## Left out

- The logger's goroutines are transitions on values, not objects on a heap: slices that are truncated in place, the reuse of the batch array and the memory model of atomics are not modelled. Timers and contexts may fire at any step, so timing is not modelled.
- The logger's unsigned counters do not wrap around in the model; a database closed from outside and a nil logger are not modelled. The random keys of entries are taken to be unique, also among the pairs the database was opened with. Expiry may strike at any step, not only after seven days; the database syncs its file every second, so "in the database" is not "on the disk".
- The key/value database, JSON, regular expressions, time zones, `time.ParseDuration` and Unicode case folding are parameters. The index scan is given as a sequence of rows; its lower bound is exclusive in the library although the comment on the window calls it inclusive.
- The free-text filter of the history, the host part of a URL and the window label are parameters or left out.
- Quarantine of a store after a failed directory sync is modelled in `Backup` only; exceptions, pauses and requests see a write that happened or did not.
- One reading of the clock serves a whole operation on grants and requests.
- The snapshots of exceptions and pauses under concurrent updates: the read-back happens outside the lock, so runs are sequential.
- Exceptions and pauses of nil services or without storage; the upgrade of older documents; templates; safe search.
- `NormalizeDomainPattern` and the compilation of regular expressions are parameters of normalisation.
- The gzip branch of response streaming, response headers, content scanners, `peekConn`, TLS and HTTP serving.
- `io.ReadAll` and `io.Copy` are modelled through the reads and writes they perform; a source that returns no bytes and no error for ever is excluded.
- Durations in the certificate cache are unbounded integers, so the doubling of the TTL does not overflow; certificate and transport are one value.
- Two map stores opened on one path.
- Legacy envelopes, encryption and the installation key file beyond its presence in a backup.
