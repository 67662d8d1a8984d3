# Incident backend: a verified model

This project models the signal debouncer and the incident lifecycle of the incident
management backend over its three stores (the in-process queue, Redis, Postgres) and
proves what they guarantee.

The system is modelled at two grains.

* **Fine** (`Debouncer.dfy`, `Handlers.dfy`): state machines with one step per `await`.
  Any number of workers run `_process_one`; any number of transition and RCA requests
  overlap. Keys may vanish between any two steps, any storage call may fail, and a run
  is any sequence of events. A call counts as one step together with its retries, and a
  failed call is assumed to have no effect, which is what `session_scope` is for;
  `Retry.dfy` proves that the nested retries around it turn a repository write into one
  effect or none.
* **Coarse** (`Site.dfy`): `_process_one` and every API handler run one after the other
  on healthy stores, with keys that live while now < expiry. Time passes inside
  `_process_one`: a signal carries the times of its claim, of its second Redis call and
  of the fallback's SET, and keys may expire in between. `Backend.dfy` and `Stores.dfy`
  hold the code itself as classes updated in place, proved against this specification.

`CoarseIsFine.dfy` ties the grains together: for every coarse run the fine debouncer has a
run that ends with the same stores (rows, links, metrics, feed and live keys; there a
transition is an arbitrary write of the API), and the fine request machine has a run that
ends with the same rows and RCAs, through requests that read, decide and write.

| file | content |
|---|---|
| `Types.dfy`, `Text.dfy` | entities, minute buckets, tallies; stripping, decimal printing, partition |
| `RcaValidator.dfy`, `States.dfy` | the RCA gate and the State pattern |
| `Ingestion.dfy`, `Retry.dfy` | bounded queue, nested retries |
| `LiveFeed.dfy`, `DedupKeys.dfy` | how feed members and dedup keys are printed and read back |
| `Debouncer.dfy`, `DebouncerInvariants.dfy`, `DebouncerGuarantees.dfy` | the fine debouncer, its invariants, its guarantees |
| `DebouncerPlaceholders.dfy`, `DebouncerFeed.dfy`, `DebouncerLinks.dfy`, `DebouncerProgress.dfy` | lost signals, the feed, the links, and progress in every run |
| `SoloWorker.dfy`, `DebouncerEndings.dfy`, `Tightness.dfy` | segments of runs, all endings complete runs can have, and runs that reach the bound on work items |
| `Handlers.dfy` | overlapping requests |
| `Windows.dfy`, `Site.dfy`, `SiteWindows.dfy`, `SiteIncidents.dfy` | the tumbling-window reference and the coarse system |
| `SiteRecords.dfy` | documents, links and metric rows of the coarse system |
| `OverTime.dfy` | runs that reach the bound on work items over time |
| `Races.dfy` | a race, a missing and a left-over feed member on concrete inputs |
| `Stores.dfy`, `Backend.dfy` | Redis, Postgres and the backend's code as objects |
| `Granularity.dfy`, `CoarseIsFine.dfy` | the two grains agree |

## Results that are not what the texts around the code say

* `ClosedState` is commented as terminal and the repository's README promises safe
  updates without race conditions. Serialised requests do keep CLOSED terminal
  (`SiteIncidents.ClosedIsTerminal`). Overlapping ones do not: `Races.ClosedRowReopens`
  is a run in which a closed row goes back to INVESTIGATING. CLOSED is final exactly
  when no request in flight read the row earlier and is on its way to another state
  (`Handlers.ClosedIsFinalIffUnthreatened`).
* "whoever wins the SET-NX races creates the work item; everyone else attaches signals to
  it" (backend/tests/test_debouncer.py:4-5) is false of the code: a loser that reads the
  winner's placeholder raises in `int`, and its signal is counted nowhere. If the key was
  never removed, a lookup is lost exactly while a worker is between its SET NX and its
  SET XX, or after a run has died there, when the placeholder stays for the rest of the
  window (`DebouncerPlaceholders.LookupIsDecided`). Over all runs, with f failed calls any
  number of signals of a component can be lost exactly if there are two or more workers or
  f > 0 (`DebouncerEndings.LossIsExact`): one worker loses every further signal of the
  window once `create_work_item` has failed for good. `DebouncerEndings.EndingsAreExact`
  says which numbers of removals, failures, counted and lost signals occur together.
  On healthy stores, signals processed one after the other are never lost
  (`SiteWindows.SequentialSignalsAreCounted`).
* The winner's work item is not the only one of its component once the key can go: with n
  workers, r removals of the key and f failed calls for the component, it gets at most
  1 + n * r + min(r, f) work items, and that many really can occur
  (`Tightness.BoundIsExact`). The losers that find the key gone make n of them per
  removal; the last term comes from losers whose SET fails after their row is inserted.
* The live feed is not always the open incidents. At the coarse grain it is, if and only
  if no close left its feed member behind and every row the fallback created is closed
  (`SiteIncidents.IndexAgreement`); `Races.OpenRowIsMissing` and `Races.ClosedRowIsListed`
  reach both failures. At the fine grain, where calls fail as well, the feed holds exactly
  the rows that were pushed and not pruned (`DebouncerFeed.FeedIsAnnouncedRows`).
* The last `else` of the attach branch (backend/app/workers.py:124-125) is dead code: a
  lookup yields nothing, an id, or an exception.
* The repository's README calls the buffer a Redis queue; the code uses an in-process
  `asyncio.Queue`, and so does the model.

## Model

| member | source | states |
|---|---|---|
| DebouncerGuarantees.WorkItemsBounded | backend/app/workers.py:44-115 | in every interleaving of n workers, with any expiries, clears and failures, c is claimed at most removals(c) + 1 times, at most n losers fall back per removal, and c has at most 1 + (n + 1) * removals(c) work items |
| Tightness.FailuresBuyRows | backend/app/workers.py:44-115 | in every run c has at most 1 + n * removals(c) + failures(c) work items, so at most 1 + n * removals(c) if no call fails |
| Tightness.BoundIsExact | backend/app/workers.py:44-115 | for every n > 0, every positive threshold and all r and f: runs with r removals and f failed calls for c give it at most 1 + n * r + min(r, f) work items, and some run gives it that many |
| DebouncerPlaceholders.LookupIsDecided | backend/app/workers.py:98-123 | in every run a loser's lookup reads a placeholder only if some worker is between SET NX and SET XX or some run died there; if the key was never removed, exactly then, and otherwise it attaches to a work item of c |
| DebouncerEndings.EndingsAreExact | backend/app/workers.py:44-123 | a complete run of n workers can end with r removals, f failed calls, m counted and k lost signals of c iff all are 0, or n > 0, threshold > 0, r <= m + f, k > 0 only with f > 0 or (n >= 2 and m > 0), and a lone worker with k > 0 and r = 0 counts at most one |
| DebouncerEndings.LossIsExact | backend/app/workers.py:44-123 | over all runs, k signals of c can be lost with f failed calls iff both are 0, or n > 0, threshold > 0, and k = 0 or n >= 2 or f > 0 |
| DebouncerEndings.PlayAll | backend/app/workers.py:44-123 | every legal list of moves (claim, read, finish, abandon, attach, clear) is a run with the sum of their effects, the poisoned window included |
| DebouncerGuarantees.ReferencesHold | backend/app/workers.py:44-136 | numeric dedup values, links and feed members always refer to an existing work item of the same component, feed scores are its severity's, even when SET XX overwrites a later claim |
| DebouncerGuarantees.SignalCountExplained | backend/app/workers.py:56-136 | signal_count = links + workers that counted but have not linked + runs that failed in between, hence never below the links |
| DebouncerGuarantees.EverySignalAccountedFor | backend/app/workers.py:42-136 | in every complete run each accepted signal was counted by exactly one work item, lost to a placeholder read, or lost to a failure before counting |
| DebouncerGuarantees.CompleteRunDebounces | backend/app/workers.py:44-123 | without removals and failures for c a complete run leaves exactly one work item of c, whose count plus the placeholder losses is the number of signals received, all counted ones linked |
| DebouncerGuarantees.SignalsConserved | backend/app/workers.py:159-174 | offers = accepted + dropped; accepted = queued + in flight + processed + failed; signals leave in accept order; one task_done per get |
| DebouncerGuarantees.QueueDepthBounded | backend/app/ingestion.py:39-62 | the depth never exceeds ceil(threshold * maxsize) for thresholds in (0, 1], and then QueueFull cannot be raised |
| DebouncerGuarantees.MetricsCountSignals | backend/app/workers.py:148-156 | metric rows exist for whole minutes only; for each minute, component and severity, the row + the signals held before their upsert + those lost = the fetched signals of that component and severity whose timestamps fall in that minute; in a complete run each accepted signal is metered once or lost; all rows together are processed + workers between upsert and increment |
| DebouncerLinks.LinksNameDocuments | backend/app/workers.py:42-136 | in every run each document is linked exactly once, or still held, or its run died; no two links name the same document; each link has its document's component, severity and timestamp |
| DebouncerFeed.FeedIsAnnouncedRows | backend/app/workers.py:56-115 | in every run each row was pushed once, or came from the fallback, or is about to be pushed, or its run died before; the feed holds exactly the pushed rows whose member was not pruned, with their scores |
| DebouncerFeed.OnlyFallbacksAreMissing | backend/app/workers.py:76-115 | in a complete run without failures for c, an unpruned row of c is missing in the feed exactly if the fallback created it, and none is if c's key was never removed |
| DebouncerProgress.NineStepsPerSignal | backend/app/workers.py:28-174 | in every run the workers take at most nine steps per accepted signal: eight awaited queue and storage calls and the counter bump (the best-effort Mongo backfill is no step) |
| DebouncerProgress.EveryScheduleIsShort | backend/app/workers.py:28-174 | whatever is scheduled without new signals, steps taken + potential left never exceed the potential at the start: no livelock |
| DebouncerProgress.StuckIsComplete | backend/app/workers.py:159-174 | with at least one worker, no worker can take a step exactly if the queue is empty and all workers are idle: no deadlock |
| DebouncerProgress.FairSchedulesComplete | backend/app/workers.py:28-174 | every schedule that gives each worker a turn per round completes within as many rounds as the potential, whatever fails or vanishes in between |
| DebouncerInvariants.EventKeepsRefs | backend/app/workers.py:44-136 | every event keeps all references valid, and rows keep component and severity |
| DebouncerInvariants.EventKeepsClaims | backend/app/workers.py:47-115 | every event keeps wins within removals + 1, misses within n per removal, and rows equal to claims that did not fail |
| DebouncerInvariants.EventKeepsItem | backend/app/storage/postgres_repo.py:57-86 | every event keeps the count of a row equal to links, pending links and orphans |
| DebouncerInvariants.EventKeepsReceived | backend/app/workers.py:42-136 | every event keeps the balance of fetched signals per component |
| DebouncerInvariants.EventKeepsFlow | backend/app/workers.py:163-174 | every event keeps the queue's balance, order and depth limit |
| DebouncerInvariants.EventKeepsMetric | backend/app/storage/postgres_repo.py:89-105 | every event keeps the balance of fetched, held, lost and metered signals of a whole minute, component and severity |
| DebouncerLinks.EventKeepsDocument | backend/app/workers.py:127-136 | every event keeps links, holders and losses of a document adding up to one |
| DebouncerPlaceholders.EventKeepsHolders | backend/app/workers.py:45-73 | while the key was never removed, every event keeps each claimer's placeholder in it, and that of an abandoned claim for good |
| DebouncerPlaceholders.EventKeepsClaimers | backend/app/workers.py:45-73 | every event keeps claims held and claims abandoned within the claims won |
| DebouncerPlaceholders.EventKeepsPending | backend/app/workers.py:45-73 | every event keeps a live claimer or an abandoned claim behind each placeholder |
| DebouncerPlaceholders.EventKeepsSource | backend/app/workers.py:45-115 | every event keeps removals, a key that is there and pending refills within wins + misses |
| Tightness.EventKeepsReserve | backend/app/workers.py:47-115 | every event keeps claims + workers that have not fallen back within 1 + n * removals + failures while the key is missing |
| SiteWindows.WorkItemsAreWindows | backend/app/workers.py:28-136 | for all times of the Redis calls the work items of each component are exactly the windows of a recursive tumbling-window group-by: start, type and severity of the first signal, count = signals that joined, windows ended by their deadline or by a close |
| SiteWindows.WorkItemsOverTime | backend/app/workers.py:47-115 | in events one after the other over time T a component gets at most floor(T / ttl) + 1 + closes work items, fallbacks included |
| OverTime.OverTimeIsExact | backend/app/workers.py:47-115 | that bound is reached for every T, every ttl and every number of closes |
| SiteWindows.SequentialSignalsAreCounted | backend/app/workers.py:44-123 | signals processed one after the other are all counted, each once, and none raises, whatever expires between the Redis calls |
| SiteRecords.SignalIsRecorded | backend/app/workers.py:127-156 | one signal: its document is inserted; unless its worker raises, one link is added, which names that document, its facts and the row whose count went up, and exactly its minute's metric row goes up |
| SiteRecords.RecordsAreKept | backend/app/workers.py:28-156 | in every coarse run documents are the signals sent, links those of the signals that did not raise, in order and each naming its own document, and each whole minute's metric row counts exactly the kept signals in it |
| SiteWindows.EventTracks | backend/app/incidents_api.py:114-118 | every event keeps rows = windows, and the key = the open window's deadline with the latest row or the unswapped placeholder |
| Windows.GroupByAppend | backend/app/workers.py:47-123 | what one more signal or close does to the window group-by: widen, be lost, open, or end |
| Windows.WindowsBounded | backend/app/workers.py:47-115 | windows are a full ttl apart or separated by a close |
| Site.DebounceLeavesItsItem | backend/app/workers.py:47-123 | whatever expires in between, the key left behind names the item the signal was counted in, one signal is counted in all, and other components' keys stay |
| SiteIncidents.IndexAgreement | backend/app/incidents_api.py:108-120 | coarse grain: the live feed is exactly the non-CLOSED items with their scores iff no close left its feed member behind and every fallback row is closed; a dedup key names a closed item exactly if its key removal was lost |
| SiteIncidents.CleanRunsLeaveNothing | backend/app/incidents_api.py:114-120 | runs whose cleanups all succeed leave no member and no key behind, and signals that look up at once never fall back |
| SiteIncidents.ClosedIncidentsAreSettled | backend/app/patterns/states.py:75-89 | serialised: end_time and mttr set iff CLOSED, mttr = end - start, every closed item has an RCA that passes the gate |
| SiteIncidents.ClosedIsTerminal | backend/app/patterns/states.py:96-98 | serialised: a closed row never changes again except for its signal count |
| SiteIncidents.ClosingTakesThreeMoves | backend/app/patterns/states.py:54-98 | serialised: forward minus backward moves equal the position, and a closed item took 3 + 2 * backward transitions |
| Handlers.RacesKeepTheGates | backend/app/incidents_api.py:85-147 | overlapping: every written state is a legal successor of an earlier one; end and MTTR come together and fit; CLOSED has both and a passing RCA; no stored RCA is ever incomplete |
| Handlers.ClosedHasAncestors | backend/app/patterns/states.py:54-98 | in any row history CLOSED is preceded by RESOLVED, that by INVESTIGATING, that by OPEN |
| Handlers.ClosedIsFinalIffUnthreatened | backend/app/incidents_api.py:85-113 | a reachable closed row can leave CLOSED iff a request in flight holds an older read of it and heads elsewhere |
| Races.ClosedRowReopens | backend/app/incidents_api.py:85-113 | a concrete race that takes a row out of CLOSED and leaves its end_time |
| Races.OpenRowIsMissing | backend/app/workers.py:98-115 | two signals, the second refused at 5 and looking up at 12 under a ttl of 10: its open row is not in the feed, without any close |
| Races.ClosedRowIsListed | backend/app/incidents_api.py:114-120 | a whole lifecycle whose last cleanup is lost: the closed row stays in the feed and its key stays |
| Granularity.TimedRunIsOneEvent | backend/app/workers.py:28-156 | a fine worker nobody interrupts, while keys expire by their times, ends with the stores of the one coarse event |
| Granularity.SoloRunIsAtomic | backend/app/workers.py:28-156 | if no time passes, that is the atomic `_process_one`, by steps of that worker only |
| CoarseIsFine.CoarseRunsAreFineRuns | backend/app/workers.py:28-156 | every coarse run of events one after the other has a run of the fine debouncer with the same rows, links, metrics, feed and live keys, for any n > 0, queue size and positive threshold |
| CoarseIsFine.CoarseRunsAreRequestRuns | backend/app/incidents_api.py:80-148 | every coarse run has a run of the fine request machine with the same rows and RCAs, its transitions read, decided and written step by step |
| Granularity.SoloRequestIsAtomic | backend/app/incidents_api.py:85-113 | a request nobody interrupts leaves the rows of the coarse transition |
| CoarseIsFine.WindowsAreRows | backend/app/workers.py:28-136 | a component's windows are its rows, their sizes the signals its rows count |
| States.TransitionIsExact | backend/app/patterns/states.py:34-132 | moves exactly along edges, into CLOSED only past the gate, end and MTTR exactly when closing, the error otherwise |
| RcaValidator.Validate | backend/app/rca_validator.py:28-49 | the loop returns the specified verdict |
| RcaValidator.JudgeIsTheGate | backend/app/rca_validator.py:28-49 | passes iff the RCA is present and complete; the missing list has exactly the absent or blank fields |
| RcaValidator.JudgeNamesTheFields | backend/app/rca_validator.py:25-49 | on the fields themselves: a backwards range is reported alone, otherwise the absent or blank ones of the five fields are named in order, and nothing else is refused |
| RcaValidator.AcceptedRcaPasses | backend/app/models.py:183-195 | submit_rca accepts exactly non-blank ordered bodies, and whatever it stores passes the validator |
| RcaValidator.AcceptedRcaIsTheBody | backend/app/incidents_api.py:140-147 | what is stored is the body: its category's name, each text in its own field with the blanks at both ends cut off, and its times |
| RcaValidator.CategoryRoundTrip | backend/app/models.py:44-53 | a category is stored under the text it came as, and distinct ones stay distinct |
| Text.StripCuts | backend/app/models.py:190-195 | strip removes blanks from both ends and leaves nothing only of a blank text |
| Text.BlankCharacters | backend/app/models.py:193 | space, tab and line ends are blank, no printable ASCII character else is |
| Types.BucketIsMinuteFloor | backend/app/workers.py:22-25 | 0 <= ts - bucket < 60 s, idempotent, same bucket iff same minute |
| Types.MetricKeyIsMinute | backend/app/workers.py:149-154 | a signal's metric key is the only whole-minute key of its component and severity whose 60 seconds hold its timestamp |
| Types.ScoresRankSeverities | backend/app/storage/redis_cache.py:12-17 | scores are 1 to 4 and rise with severity |
| Ingestion.IngestQueue.Offer | backend/app/ingestion.py:49-62 | appends and counts, or drops and counts; within the depth limit it takes the signal iff a bounded queue is below that limit, or an unbounded one has a positive threshold |
| Ingestion.AcceptsIsExact | backend/app/ingestion.py:38-62 | the same of the specification, for every threshold and size |
| Ingestion.DepthsAreExact | backend/app/ingestion.py:38-62 | a bounded queue can reach exactly the depths up to its limit; an unbounded one any depth iff the threshold is positive |
| Ingestion.FullWithoutBackpressure | backend/app/ingestion.py:53-60 | within the limit, QueueFull would be raised exactly at maxsize signals under a threshold above 1 |
| Ingestion.QueueFullReachable | backend/app/ingestion.py:56-60 | the QueueFull branch is reachable iff the queue is bounded and the threshold exceeds 1 |
| Retry.Table.SessionScope | backend/app/storage/postgres.py:40-51 | commits the whole transaction or leaves the table as it was |
| Retry.Table.AsyncRetrying | backend/app/storage/postgres_repo.py:25-54 | up to five attempts, repeated only on operational errors, effect iff committed |
| Retry.Table.RetryAsync | backend/app/utils/retry.py:8-29 | stops at the first success or after max(retries, 1) calls; effect exactly once on success, none on failure |
| Retry.Table.Persist | backend/app/workers.py:58-65 | 3 to 15 transactions before it fails, having slept 0.3 s; goes on through any 2 failures and any 14 operational errors; exactly 15 if all are operational, exactly 3 if all are other errors; succeeds iff an attempt committed; all or nothing |
| Retry.SleptIsGeometric | backend/app/utils/retry.py:28-29 | time slept s after n sleeps: s * (backoff - 1) = delay * (backoff^n - 1) |
| LiveFeed.ParseEncode | backend/app/incidents_api.py:41-45 | partition and int recover id and component, even when the component contains bars |
| LiveFeed.ParsedIsEntry | backend/app/incidents_api.py:41-45 | members without a bar are skipped, anything but digits before the first bar raises, the rest is the id and component around that bar |
| LiveFeed.EntryIsParsed | backend/app/incidents_api.py:41-45 | every such string is read as that entry |
| LiveFeed.EncodedForm | backend/app/storage/redis_cache.py:67-70 | the printed form of a member on an example |
| Text.DecimalIsCanonical | backend/app/storage/redis_cache.py:69 | ids are printed in base ten without leading zeros |
| LiveFeed.PrefixSelectsItem | backend/app/storage/redis_cache.py:73-77 | startswith("id\|") selects exactly that id's members |
| LiveFeed.PruneRepresents | backend/app/storage/redis_cache.py:73-77 | pruning the prefix is dropping the item |
| LiveFeed.ReadLiveFeed | backend/app/incidents_api.py:36-46 | the loop returns the parsed rows in order and raises exactly on a non-numeric id |
| LiveFeed.RowsOfEncoded | backend/app/incidents_api.py:41-46 | on members the backend wrote, every entry is returned in order |
| DedupKeys.ReadPrinted | backend/app/storage/redis_cache.py:57-60 | int of a stored dedup value is the id of a claimed key and raises on every placeholder; no stored value is empty |
| DedupKeys.SetStands | backend/app/workers.py:45-73 | writing the printed value under the prefixed name is setting that component's key and no other's |
| DedupKeys.PrintedForms | backend/app/workers.py:45-73 | the printed forms of a key, a placeholder and an id on examples |
| Stores.Redis.SetNx | backend/app/workers.py:47-52 | stores the placeholder string exactly if no live key is there, and the strings keep standing for the keys |
| Stores.Redis.GetOpenWorkItem | backend/app/storage/redis_cache.py:57-60 | from the stored string alone: nothing, the id, or the error on a placeholder |
| Stores.Redis.PushLiveFeed | backend/app/storage/redis_cache.py:67-70 | adds the printed entry with its severity's score, and the strings keep standing for the entries |
| Stores.Redis.RemovePrefix | backend/app/storage/redis_cache.py:73-77 | the loop deletes exactly the members with the prefix |
| Stores.Redis.RemoveFromLiveFeed | backend/app/storage/redis_cache.py:73-77 | removes exactly the entries of the item |
| Stores.Postgres.UpdateState | backend/app/storage/postgres_repo.py:129-145 | writes the state, and the times only when given |
| Backend.Backend.Debounce | backend/app/workers.py:44-125 | claim and create, attach, fall back or raise, with time passing between the Redis calls |
| Backend.Backend.ProcessOne | backend/app/workers.py:28-156 | the whole state after one signal, and exactly when it raises |
| Backend.Backend.WorkRound | backend/app/workers.py:163-174 | idle on an empty queue, otherwise one signal processed or failed, exactly by whether it raises, and one task_done |
| Backend.Backend.WorkerLoop | backend/app/workers.py:159-174 | a lone worker processes the queue in order, as the coarse run of its signals; the failed ones are exactly those that raise in it |
| Backend.Backend.TransitionIncident | backend/app/incidents_api.py:80-124 | 404, refusal or the moved row, with the whole state after the best-effort cleanup |
| Backend.Backend.CloseIncident | backend/app/incidents_api.py:151-162 | an accepted close leaves a CLOSED row ended now, with a complete RCA |
| Backend.Backend.SubmitRca | backend/app/incidents_api.py:127-148 | each of the three refusals exactly by its condition, in the code's order; otherwise the RCA stored and returned is the body with its texts trimmed, field by field |

## Left out

- Failures inside the coarse model and the store classes: calls succeed there, but for the cleanup after a close; failing calls are events of the fine machine and of `Retry.dfy`.
- Ambiguous commits, dropped connections after commit, and the waiting times of the database layer's own retry policy.
- Gaps in row ids after a rolled-back insert, and numbering from 1: an id is a position in the table.
- The payload and insertion time of Mongo documents, and the best-effort backfill of their work item id: a document is its signal, its id is its position.
- Alerting, logging, HTTP bodies and routing, rate limiting, health checks, dashboard, load scripts and deployment files.
- `_throughput_loop`, the metrics hash and its rounding: window deltas only telescope.
- Shutdown and task cancellation: a worker loop stops between two rounds.
- `claim_dedup_window`: nothing calls it.
- Time zones: times are integer microseconds, MTTR too; an MTTR may be negative because the start time comes from the client.
- The order and limit of the live feed (by score, then lexicographic), and the order of the incident list.
- LiveFeed.ReadLiveFeed: models `int` on ASCII digits only; ids with signs, blanks or underscores, which the backend never writes, raise here although Python's `int` accepts them.
- Rounding: threshold, percentage, delay and backoff are exact reals here and floats in the code, so the depth ceiling and the geometric sum hold there up to rounding.
- Handlers.RacesKeepTheGates: covers the tables; the Redis cleanup of overlapping requests appears in the fine debouncer as arbitrary key removals and feed prunes.
- Granularity.SoloRequestIsAtomic: compares rows and RCAs, since the fine request machine holds no Redis state.
