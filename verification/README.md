# RunGrid, modelled and proved

RunGrid queues jobs in PostgreSQL and lets workers run them under leases. A worker registers with a
capacity, leases the oldest queued job that fits, starts it, renews the lease by heartbeats, reports
artifacts and a result; a reaper expires leases that ran out; jobs can be cancelled and, after a
failure, retried. Every mutation leaves a receipt so that a repeated request is answered and not
executed again. This project models that protocol from the tables up to the worker process, and
proves what it promises.

The model has four levels. `Effects` says for every operation what it answers and leaves behind, decided
case by case from the request and the rows it names.

- **Atomic commands.** `Db` holds the six tables; `Apply` gives for every command the tables it leaves
  and its answer. Clock readings, drawn names and rows found locked are part of the command, so a
  sequence of commands is a run. `Inv` holds in every reachable state.
- **Statements.** `Interleaving` runs the same transactions statement by statement: row locks one at a
  time, each statement reading what is committed when it runs, writes kept private until the commit.
  `Refinement` and `Worlds` prove that every interleaving amounts to an atomic run, and `Deadlock` that
  no set of transactions waits in a circle.
- **The fleet.** `Fleet` adds workers with their own clocks behind a network that loses, delays and
  duplicates messages. `Deployment` puts them around the store run statement by statement. `Client` and
  `Execution` hold the worker's retry loop, renewal thread, uploads and reports.
- **The store as an object.** `Tables.Store` updates the tables in place, with the loops of the source;
  each method is proved to do what its atomic command says, so everything proved of runs holds of it.

Beside them stand the ranking metrics and the negative sampling of the link prediction study
(`Ranking`, `Precision`, `Sampling`).

Times are integer milliseconds. Assumed: clocks never go back and the worker's monotonic clock runs at
the rate of the server's; drawn ids are fresh; payload hashes and advisory lock hashes are injective;
encoding a definition or a response as JSON and reading it back is the identity; rows get strictly
increasing insertion times; scores are exact numbers. A lease time of at least two seconds is what the
server accepts.

Where the documents and the code differ the model follows the code. The design note says that a worker
kills its process group before its lease expires; the code believes in the lease until half a second
before that, counted from the first send, and reports a failure before it kills, so exclusivity is
claimed up to the worker's own final report. It also says that a heartbeat can never revive an expired
attempt. That holds of attempts the reaper has marked; a lease that has merely run out can come back,
because the fence and the update behind it read the clock apart, and `Revival` says exactly when.

Checking the project: `dafny verify dfyconfig.toml`.

## Model

| member | source | states |
|---|---|---|
| Runs.StepKeeps | internal/store/workers.go:64-267 | every command of the store, in any circumstances the database and its clock can produce (`Legal`), keeps the whole invariant of the tables, only lets rows evolve (identities fixed, leases growing, ended rows frozen, receipts kept) and never runs into a constraint of the schema |
| Runs.RunKeeps | internal/store/workers.go:64-267 | the same over every run, however long |
| Guarantees.OneLiveAttempt | migrations/001_initial.sql:28 | in every reachable state a job is LEASED or RUNNING exactly when it has exactly one live attempt, in the same state and with the highest number; the partial unique index has nothing to reject |
| Guarantees.NumberedWithinBudget | internal/store/workers.go:139-147 | the attempts of a job are numbered 1..n without gap or repetition, n within its budget, less than it when QUEUED and equal to it when FAILED, over any mix of failures, expiries and retries |
| Guarantees.GuardsNeverFire | internal/store/workers.go:142-147 | no command in a reachable state is refused by a unique index, a primary key or the budget check |
| Guarantees.FencedOrReapable | internal/store/workers.go:186-192 | at every instant a live attempt either passes the two time tests of the fence or can be reaped, never both, and from its deadline on it can be reaped |
| Guarantees.NeverRevived | internal/store/workers.go:186-197 | once its lease has run out, commands whose fences read the clock no earlier leave an attempt unchanged, expired or cancelled, over every run |
| Revival.LapsedForGoodExactly | internal/store/workers.go:186-197 | under interleaving: an attempt whose lease has run out stays unchanged, expired or cancelled in every continuation exactly when no transaction has passed its fence with a call that writes the row (a renewal short of the deadline, a first start, a final report whose artifacts stand) |
| Revival.HeartbeatRevives | internal/store/workers.go:194-197 | otherwise it can come back: a heartbeat that passed the fence in time and commits after the lease ran out makes it good again |
| Guarantees.ResultsAreFinal | internal/store/store.go:231-252 | success and cancellation are absorbing, failure is left only by a manual retry, the row of an ended attempt never changes again |
| Guarantees.SucceededOnce | internal/store/workers.go:246-263 | a job has succeeded exactly when it has a successful attempt; there is one such, its last |
| Guarantees.AvailableNeverNegative | internal/store/workers.go:45-49 | in every reachable state what the worker listing shows as available is not negative in any resource |
| Guarantees.NeverOvercommitted | internal/store/workers.go:125-148 | in every reachable state, however one lists attempts that a worker has leased or runs, their jobs together need no more cpu, memory or gpu than it registered |
| Effects.FenceExactly | internal/store/workers.go:167-192 | a call on an attempt is invalid, not found or a conflict exactly when its ids are malformed, the attempt is unknown, or the caller is not its holder, the attempt has ended, or its lease or deadline has passed; the holder of a good lease always gets through |
| Effects.HeartbeatRenews | internal/store/workers.go:194-197 | past the fence a heartbeat sets the lease to a lease time from now, at most the deadline, and answers with it; nothing else changes |
| Effects.StartRuns | internal/store/workers.go:198-208 | past the fence a start leaves attempt and job RUNNING and is recorded |
| Effects.ReportDecides | internal/store/workers.go:209-266 | past the fence a report is refused exactly when the attempt is not running, it exceeds a limit, its artifacts cannot be filed, or it completes with a nonzero exit code; otherwise the row carries exit code and reason, the job is done, queued again or failed, and one row per new object key is added |
| Effects.LeaseGrants | internal/store/workers.go:138-161 | what a granted lease says and leaves: the next number, a lease of the lease time or the timeout in seconds, whichever is shorter, the deadline a timeout away, the job LEASED |
| Effects.RegisterDecides | internal/store/workers.go:69-87 | a capable new worker comes in ACTIVE; a known one is confirmed exactly in its session with its capacity |
| Effects.ReleaseDrains | internal/store/workers.go:111-113 | a released worker is DRAINING |
| Effects.DrainingGetsNoLease | internal/store/workers.go:106-109 | a draining worker is refused a lease |
| Effects.OtherCallDecides | internal/store/workers.go:114-121 | a bare heartbeat only shows that the worker lives; an unknown method is invalid |
| Effects.StrangersRefused | internal/store/workers.go:89-100 | a call of an unregistered worker is not found, one in another session a conflict |
| Effects.NamelessRefused | internal/store/workers.go:65-67 | requests without names of admissible length are invalid and change nothing |
| Effects.CancelDecides | internal/store/store.go:231-252 | a cancellation is refused exactly for an unknown job or one that has succeeded or failed; otherwise job and live attempt end CANCELLED, no other row changes, and the answer shows the job |
| Effects.RetryDecides | internal/store/store.go:243-248 | a retry queues a failed job, and no other, with one more attempt allowed |
| Rank.StepSpends | internal/scheduler/model.go:73-78 | every command other than a manual retry lowers a job's rank if it changes its state, and never raises it |
| Rank.FewChanges | internal/scheduler/model.go:73-78 | in any run a job changes state at most three times per allowed attempt and four times more per manual retry |
| Causes.StepAccounts | internal/store/workers.go:183-192 | an attempt's row changes only while it is live and only at the hand of the holder of its lease in its session before expiry, of the reaper after expiry, or of a cancellation of its job |
| Causes.StepOnlyLeases | internal/store/workers.go:138-148 | an attempt that appears has just been leased |
| Moves.LawfulCapacity | internal/store/workers.go:125-148 | no lawful change overcommits a worker in cpu, memory or gpu |
| Receipts.RefusedChangesNothing | internal/store/store.go:211-214 | a refused command leaves every table as it was, receipts included |
| Receipts.ReplayAnswers | internal/store/store.go:205-210 | a repeated request gets the recorded response and changes nothing |
| Receipts.ReplayIsInvisible | internal/store/store.go:181-224 | a replay can be inserted into or removed from any run without changing its final tables or any other answer |
| Receipts.StripSame | internal/store/store.go:181-224 | all replays of a run can be dropped at once: the final tables are the same and every other command gets the answer it got |
| Receipts.OneEffectPerRequest | internal/store/store.go:205-210 | after a request was answered every later command under its key leaves the tables alone and gets the same answer, or a conflict if its payload differs |
| Worlds.EndsAtomically | internal/store/workers.go:68-123 | a transaction run statement by statement among others ends with the answer and the tables of one atomic command at its commit, with all its clock readings between its beginning and its commit |
| Worlds.InterleavingRefines | internal/store/workers.go:68-123 | every interleaved run is an atomic run of the same commits |
| Worlds.InterleavedIsReachable | internal/store/workers.go:88-91 | every state an interleaving reaches from empty tables is reachable atomically, so what is proved of reachable states holds under interleaving |
| Worlds.CapacityUnderInterleaving | internal/store/workers.go:125-148 | although usage is read before the job is picked and the attempt inserted, no interleaving overcommits a worker |
| Knowledge.KnowsStable | internal/store/workers.go:88-91 | what a transaction has read under its locks stays true, and its worker's reservations can only fall, whatever other transactions commit |
| Refinement.GrantTurn | internal/store/workers.go:139-161 | the commit of a placement is the atomic lease of the job it had picked |
| Refinement.ReportTurn | internal/store/workers.go:209-266 | the commit of a report checked against an older artifacts table is the atomic report, unless an object key was taken meanwhile, and then nothing changes |
| Refinement.RecheckEnds | internal/store/reaper.go:26-49 | the commit of a sweep is the atomic sweep at the readings of its rechecks |
| Deadlock.WaitsInOrder | internal/store/workers.go:88-91 | a waiting transaction wants a lock that comes after every lock it holds in the order request, worker, job; batch keys in sorted order |
| Deadlock.NeverWaits | internal/store/workers.go:131 | the scans of lease and reaper, and every statement after the job's lock, wait for nobody |
| Deadlock.AttemptFree | internal/store/workers.go:179-186 | who holds a job's lock finds its attempts' rows free |
| Deadlock.NoDeadlock | internal/store/store.go:121-131 | in no world that satisfies the invariant does every transaction of a nonempty set wait for another of the set |
| Deadlock.NeverDeadlocked | internal/store/store.go:121-131 | the same of every interleaving from empty tables |
| Deployment.NeverReplacedWhileAlive | worker/python/rungrid_worker/main.py:54-69 | in every history of the whole system, with the store run statement by statement, over a network that loses, delays and duplicates, with any clock skews: while a worker is alive on an attempt whose end it has not itself reported, whatever anybody else sends in its name, the server's lease has more than half a second left, no later attempt of the job exists and no other worker is alive on the job |
| Deployment.EndIsEvent | internal/store/workers.go:68-123 | the end of every transaction is an event the fleet allows, with readings after the call was sent and no lease shortened |
| Deployment.HappeningKeeps | worker/python/rungrid_worker/rpc.py:27-44 | every statement, message and belief keeps the invariant of the whole |
| Fleet.NeverReplacedWhileAlive | worker/python/rungrid_worker/main.py:54-69 | the same with the store's commands taken as atomic |
| Fleet.AliveIsExclusive | worker/python/rungrid_worker/rpc.py:34-38 | the same of every state that satisfies the fleet's invariant |
| Fleet.EventKeeps | worker/python/rungrid_worker/rpc.py:27-44 | every event keeps it that a worker's deadline never reaches past the lease it was told of and that attempts end only for cause; that renewals do not shorten leases is part of the event here and proved of the store in Deployment |
| Fleet.BelievesExactly | worker/python/rungrid_worker/rpc.py:34-38 | a worker just told of a lease, new or renewed, is alive on it exactly while less time has passed since it sent the call than the server's clock left to the lease, less half a second |
| Checkpoints.CheckpointIsNewest | internal/store/workers.go:153-159 | the checkpoint a lease is given was committed by the highest-numbered attempt that committed one and is the last that attempt reported |
| Checkpoints.LeaseResumes | internal/store/workers.go:153-159 | at any later time it is still the last checkpoint of any earlier attempt |
| Checkpoints.ResumeNeverGoesBack | examples/checkpoint_counter.py:6-12 | for a program that checkpoints increasing steps from where it resumed, the resume step never falls over any run |
| Reaping.ReapIsTogether | internal/store/reaper.go:26-48 | a sweep equals the simultaneous expiry of its jobs, given independently as a map over the tables |
| Reaping.ReapInAnyOrder | internal/store/reaper.go:26-48 | the order in which a sweep visits its jobs changes neither tables nor count, nor the events but for their order |
| Reaping.ReapCounts | internal/store/reaper.go:47-49 | the number a sweep returns is the number of attempts it turned to EXPIRED |
| Reaping.SweepsClear | internal/store/reaper.go:17 | undisturbed sweeps clear n overdue leases in k calls exactly when 100 k reaches n |
| Reaping.ReaperHonoursRenewals | internal/store/reaper.go:29-32 | run among other transactions, a sweep expires only attempts whose lease, as committed when it commits, has run out: a renewal between scan and lock is honoured |
| Overtaking.OvertakenExactly | internal/store/workers.go:131-148 | from the scan of a placement to its commit, whatever others do: an older queued job that needs no more is overtaken exactly when it is queued and unlocked at the commit and was not queued, unlocked and fitting at the scan |
| Overtaking.OvertakingHappens | internal/store/workers.go:131-148 | it does happen: a job running on a lapsed lease at the scan, requeued by a reaper before the commit, is overtaken |
| Placement.NoOvertaking | internal/store/workers.go:131 | given the jobs a scan skipped, a lease goes to a queued job that fits, and an older queued job that needs no more was passed over only if skipped |
| Placement.ScanTakesOldest | internal/store/workers.go:131 | at the scan, among other transactions: every unlocked queued job that fits is on offer, none that is older and needs no more is passed over, and the scan gives up only if no unlocked queued job fits |
| Placement.IdleExactlyWhenNothingFits | internal/store/workers.go:127-134 | an undisturbed lease call answers idle exactly when no queued job fits in what the worker has left, and otherwise grants |
| QueueOrder.EarlierGoesFirst | internal/store/workers.go:131 | of two fitting jobs submitted at different times an undisturbed lease never takes the later, whatever their ids and whatever happened in between; with no others it takes the earlier |
| QueueOrder.KeepsItsPlace | migrations/001_initial.sql:8 | a job keeps the creation time and the definition of its submission over every run |
| Collections.LessIsDictionary | internal/store/workers.go:131 | the order of ids is the dictionary order |
| Submission.SubmitIsAllOrNothing | internal/store/store.go:106-155 | a batch is invalid, or conflicts and changes nothing exactly when a key stands for two definitions, or goes through: every entry answered in order by the job with its definition, one event and one new job per new key, queued with its definition, its attempts and the time it came |
| Submission.SubmitGoes | internal/store/store.go:139-146 | both directions of the conflict condition, for every table and batch |
| Submission.AnswersByKey | internal/store/store.go:132-153 | two entries of a batch get the same job exactly when they have the same key |
| Submission.ResubmissionIsInvisible | internal/store/store.go:132-154 | submitting the same definitions again, after any run, creates nothing and names the same jobs |
| Announcements.StepAnnounces | internal/store/store.go:147-151 | every command announces exactly the jobs it adds |
| Announcements.AnnouncedOnce | internal/store/store.go:147-151 | in every reachable state each job has exactly one event of its submission and nothing else has any |
| Catalogue.WorkerKeyHasPrefix | worker/python/rungrid_worker/artifacts.py:30-32 | for every artifact prefix the worker's key is the server's prefix followed by kind, id and file name |
| Catalogue.WorkerKeyAccepted | internal/store/workers.go:222-229 | the server accepts a worker's key exactly when the file name has no two dots in a row |
| Catalogue.AttemptsApart | internal/store/workers.go:222-227 | under one artifact prefix a key accepted from two attempts means the same job and attempt |
| Catalogue.ShareExactly | internal/store/workers.go:222-227 | in general two attempts can report a common key exactly when the prefix of one begins with the other's |
| Catalogue.NestedShares | internal/store/workers.go:222-227 | that does happen: a job whose artifact prefix leads into another job's files shares keys with it |
| Catalogue.ReportFiles | internal/store/workers.go:221-245 | the artifacts of a report go in exactly when all are well formed and one key stands for one artifact throughout list and table; then one row is added for each key they bring, in order |
| Catalogue.UuidIsGroups | internal/store/workers.go:165 | an id is five groups of 8, 4, 4, 4 and 12 hexadecimal digits in either case |
| Catalogue.SameAttemptExactly | internal/store/workers.go:172 | two texts name the same attempt exactly when they differ at most in case |
| Catalogue.RunCatalogued | migrations/001_initial.sql:31-36 | in every run each object key stands for one artifact, which passed the checks for its job and attempt, and stays |
| Catalogue.ReportAgainAddsNothing | internal/store/workers.go:230-240 | artifacts once reported can be reported again at any later time and add nothing |
| Tables.Store.Reserved | internal/store/workers.go:127 | the sum over a worker's live attempts, independent of the order of the rows |
| Tables.Store.Available | internal/store/workers.go:45-49 | capacity less reservations, never negative |
| Tables.Store.LastNumber | internal/store/workers.go:140 | the highest attempt number of a job, 0 if it has none |
| Tables.Store.Oldest | internal/store/workers.go:131 | the first fitting queued job by creation time and id that is not locked, if any |
| Tables.Store.Owner | internal/store/store.go:139 | the job with a key, if there is one |
| Tables.Store.Expired | internal/store/reaper.go:29 | the live attempt of a job whose lease ran out, if there is one |
| Tables.Store.Rejected | migrations/001_initial.sql:26-28 | whether a new attempt would break a key or a unique index |
| Tables.Store.Enrol | internal/store/workers.go:69-87 | registration as the atomic command has it, conflicts included |
| Tables.Store.Grant | internal/store/workers.go:138-161 | the insertion of the attempt, its budget check, the job's update and the lease returned |
| Tables.Store.LeaseJob | internal/store/workers.go:125-162 | a placement from the reservations it reads itself |
| Tables.Store.StoreArtifacts | internal/store/workers.go:221-245 | the loop over reported artifacts gives the rows or the refusal of the specification |
| Tables.Store.LinesTooLong | internal/store/workers.go:216-220 | whether some log line exceeds the limit |
| Tables.Store.ReportOn | internal/store/workers.go:209-266 | progress, completion and failure of a running attempt |
| Tables.Store.Fenced | internal/store/workers.go:167-267 | the fence with all its refusals, then heartbeat, start or report |
| Tables.Store.Dispatched | internal/store/workers.go:105-122 | the switch over the methods |
| Tables.Store.DispatchedLease | internal/store/workers.go:106-110 | a lease only for a worker that is not draining |
| Tables.Store.DispatchedOther | internal/store/workers.go:111-122 | release, the bare heartbeat and the calls on an attempt |
| Tables.Store.Serve | internal/store/workers.go:68-123 | the body of a worker call, from the worker's row on |
| Tables.Store.Claim | internal/store/store.go:182-210 | a request is answered at once exactly as the receipts say, or its key is claimed |
| Tables.Store.Rpc | internal/store/workers.go:64-124 | a whole worker call is its atomic command; a refusal restores every table |
| Tables.Store.Act | internal/store/store.go:225-261 | a whole cancel or retry is its atomic command |
| Tables.Store.Acted | internal/store/store.go:226-260 | the updates of cancel and retry |
| Validation.Admits | internal/scheduler/model.go:36-63 | the checks with their loops admit a definition exactly when it is valid |
| Validation.HasBadVariable | internal/scheduler/model.go:54-58 | finds a variable with a bad or reserved name or a NUL in its value |
| Validation.CommandHasNul | internal/scheduler/model.go:43-47 | finds a NUL in the command |
| Tables.Store.Malformed | internal/store/store.go:107-114 | whether a batch is empty, too long or holds an invalid definition |
| Tables.Store.SubmitOne | internal/store/store.go:132-153 | one entry: inserted unless its key is there, read back, accepted exactly when no other definition has its key |
| Tables.Store.SubmitEach | internal/store/store.go:132-153 | the loop over a batch, rolled back at the first conflict |
| Tables.Store.Submit | internal/store/store.go:106-155 | a whole submission is its atomic command |
| Tables.Store.ScanOverdue | internal/store/reaper.go:17-24 | the first hundred overdue unlocked jobs by id, all of them if fewer |
| Tables.FirstIds | internal/store/reaper.go:17 | the least ids of a set in order, as many as the limit allows, none smaller left behind |
| Tables.Least | internal/store/reaper.go:17 | the least id of a set, as ORDER BY takes them |
| Tables.Store.ExpireNow | internal/store/reaper.go:27-47 | one expiry after the recheck, or nothing |
| Tables.Store.ExpireEach | internal/store/reaper.go:25-48 | the loop is the atomic sweep and returns its count |
| Tables.Store.Reap | internal/store/reaper.go:11-50 | a whole sweep is its atomic command on what the scan found: overdue unlocked jobs, a hundred or all of them; with nothing locked it is an undisturbed sweep |
| Tables.Store.SweepTimes | cmd/server/main.go:63-76 | k ticks that meet no lock, with no lease running out between them, leave n overdue leases cleared exactly when 100 k reaches n |
| Tables.Store.Perform | internal/store/workers.go:64-124 | any command on the object: the tables and answer of its atomic command, and the invariant kept |
| Client.Rpc.Call | worker/python/rungrid_worker/rpc.py:22-44 | all sends carry one request; the call ends with the first send that is answered, refused for good or too late to repeat; a returned lease has the deadline send time plus time left less half a second, any other response none; what it returns is the response the receipt holds |
| Client.DelayIs | worker/python/rungrid_worker/rpc.py:29-44 | the pauses are 100, 200, 400, 800 and then 1000 milliseconds |
| Client.FewSends | worker/python/rungrid_worker/rpc.py:28-44 | the pauses of a call stay below its timeout, so it sends at most once per second of it and a few times more |
| Client.AtMostOneExecution | internal/store/store.go:195-223 | in any run a request is executed at most once, and exactly once if its receipt is new |
| Client.CopiesAgree | internal/store/store.go:205-210 | any two answered copies of a call got the same answer, and the later changed nothing |
| Client.CallReturnsItsExecution | worker/python/rungrid_worker/rpc.py:30-39 | a new call that is answered was executed exactly once in the run, and its answer is the response of that execution, kept in the receipt |
| Client.AnswerOfOneExecution | worker/python/rungrid_worker/rpc.py:30-39 | in every run of the fleet an answered call was executed exactly once and every answer to it is the response of that execution |
| Execution.Lease.Renew | worker/python/rungrid_worker/main.py:57-69 | the renewal loop ends in the state its wake-ups lead to, and has killed the command exactly when one of them found the lease gone |
| Execution.Lease.WakeUp | worker/python/rungrid_worker/main.py:58-69 | one wake-up: it leaves exactly when the lease is lost or past its deadline |
| Execution.LostForGood | worker/python/rungrid_worker/main.py:57-69 | a lease once found lost is never believed in again |
| Execution.KeptMeansInTime | worker/python/rungrid_worker/main.py:54-69 | a lease not lost was renewed at every wake-up before the deadline then in force and never refused |
| Execution.WakeIsEvent | worker/python/rungrid_worker/main.py:58-69 | every wake-up is an event of the fleet or none: a renewal is a received answer, a refusal or a lease found gone is a loss, an unanswered heartbeat changes nothing |
| Execution.Artifacts.Upload | worker/python/rungrid_worker/artifacts.py:27-46 | at most five puts under one key; the outcome is that of the first try that is not a failed put; failures counted; the pauses between them add up as written out |
| Execution.ReportInBatches | worker/python/rungrid_worker/main.py:131-133 | every report has one to a hundred entries, in order, a prefix of them all, and all of them unless a report fails |
| Ranking.ArgsortTwiceIsInverse | examples/heterosplit/research.py:94 | argsort of argsort takes every element to its place in the order |
| Ranking.RanksFollowScores | examples/heterosplit/research.py:94 | a higher score has a higher rank, for every order the sort may give to ties |
| Ranking.AucIsShareOfPairs | examples/heterosplit/research.py:95-96 | for all scores the rank formula is the share of positive and negative pairs that the sort put in the right order |
| Ranking.AucAgainstPairCounting | examples/heterosplit/research.py:90-96 | the formula never falls short of pair counting and equals it exactly when the sort lost no tie |
| Ranking.AucCountsPairsExactly | examples/heterosplit/research.py:90-96 | the formula is pair counting for every result of the sort exactly when no positive ties with a negative |
| Precision.AveragePrecisionBounds | examples/heterosplit/research.py:99-106 | average precision is missing exactly without positives, otherwise in (0, 1], and 1 exactly when the positives come first |
| Precision.AveragePrecisionIsMean | examples/heterosplit/research.py:99-106 | for distinct scores and every descending sort, average precision is the mean over the positives of the share of positives among all that score at least as high |
| Precision.PerfectRanking | examples/heterosplit/research.py:90-106 | for distinct scores it is 1 exactly when the area under the curve is 1, exactly when every positive outscores every negative |
| Sampling.SamplePairs | examples/heterosplit/research.py:151-179 | the loops with early exit return what a filter of all forty rounds would have found first |
| Sampling.KeptIsExact | examples/heterosplit/research.py:167-174 | a draw is kept exactly when it is a negative pair |
| Sampling.NegativesAreNonEdges | examples/heterosplit/research.py:144-148 | a pair is negative exactly when the data has no such edge, in neither direction and no loop for a relation of a type with itself |

## Left out

- HTTP and gRPC plumbing, long polling, error code mapping, pagination, telemetry, the command line, deployment files and benchmarks: wrappers around the modelled operations.
- Event payloads and log texts beyond kind, job, attempt and request; registration times; the listing of events and artifacts.
- Cancel and expiry read the clock more than once; the model gives all writes of one such update the same reading.
- Hashes, JSON text and S3 are taken as the identities named above; ids are a source of fresh names and their bit layout is not modelled.
- The wait for a unique object key held by another transaction's uncommitted row: the model lets the loser of that race fail at its commit.
- In the interleaved model the insertions of a batch are one step once all its keys are locked; the locks on its keys are taken one by one.
- Placement.NoOvertaking: takes the jobs that the scan skipped as given; Placement.ScanTakesOldest and Overtaking.OvertakenExactly say which those are and what follows.
- The time-out of a single send within a call: only what came back from it, and when, is modelled.
- Worker slots, draining on a signal, process groups and the moment at which a command is actually killed: only what the worker believes and sends is modelled.
- Execution.Artifacts.Upload: whether a put works and whether the lease is still believed in are inputs of the model; the stored bytes and the digest are not modelled.
- Regular expressions for environment names, ids and checksums are written out as predicates; validation is used only through the bounds the invariants need.
- Training, the graph encoder, dataset loading and the splitter of the study; floating point rounding of the metrics.
