# Open ASPM: job queue, import lifecycle and evidence store

A Dafny model of five parts of the Open ASPM server and proofs of what they
promise together: the lease-fenced job queue and its worker, the import
lifecycle across the database and the blob store, the replay-safe import
processor, the bounded and verified streams with the filesystem commit
protocol, and the bounded JSON validator with the SARIF record checks.

Each store method is one database transaction, so it is one atomic step over
maps that stand for tables. For each there is a step function, which is the
specification, and a method that runs the same statements on fields it updates
in place. What holds over many steps is proved by induction over runs: any
operations, by any number of workers and callers, in any order, stopped
anywhere.

| file | holds |
|---|---|
| Base, Text, Order, Sorting | optional values, text rules, lexicographic order, sorting with ties |
| JobQueue, JobRecovery, JobRuns | queue steps, recovery order, runs |
| JobLedger, JobFencing | attempts ledger, budget and cancellation; fencing tokens |
| JobEffects | who is served first, when a holder is heard, and every column an event writes; leases protect |
| JobFairness, JobDraining | caps and fairness; recovery inside whole runs |
| JobTables, Worker | the queue updated in place; backoff and one leased job |
| Streams, FileStore, FileAnswers, FileDirectory | readers; the stage, rename and link protocol and its answers; Put in place as a run of it |
| JsonTokens, Sarif | token-stream validation; SARIF record checks and warnings |
| Finding, Correlation, Scans, Mapping, Records | canonical records, mappings and back, insert-if-absent stores |
| RecordEffects, TableChecks | the stores from the outside, times in order; the constraints of their tables |
| ImportPlan, Importer | planned rows; the processor's transactions over the record and the import tables |
| ImportStages, ImportInvariant, ImportRuns, ImportProcess | each transaction; what every event keeps; runs; the handler's nested loops in place |
| ImportContents, DocumentFits, ImportRange | what the stored records say of the document; which documents can be recorded; numbers that parse and validate but fit no column |
| Ingestion, Lifecycle, Uploads, IngestionTables | lifecycle steps; runs of them; uploads across two stores; both in place |
| LifecycleEffects, UploadEffects, UploadLeases | what each transaction and each step of an upload answers and writes; upload leases exclude |
| Delivery, Settlement, Stranding | what the processor reports; what the end of a job says about its operation; two runs that leave one open |
| EndToEnd | the queue and the import over the same tables |

Modelling choices:

- A fencing token hash and SHA-256 are injective constructors; a record
  fingerprint is the canonical record it digests. Fencing tokens are never
  drawn twice, and generated storage keys are new to the blob store.
- Text is a sequence of UTF-8 bytes; code points are counted by leading bytes.
- Database instants are whole microseconds. Processor instants are nanoseconds
  since the zero time, so that cutting to microseconds is visible.
- A transaction whose rows break a table constraint changes nothing and is
  reported as `Backend`, and so is a number too large for its column. The column
  defaults `queued` and zero attempts are
  taken for new jobs. The recovery update is keyed by id alone, so the expiry
  test is taken to hold when the row is updated.
- A write or commit that takes effect although its caller sees an error is an
  event of the upload runs and of the file operations of Put; a crash is a call
  that takes no further step. A
  stream hands out its bytes in chunks of any size and may fail at any read.

Some promises do not hold as they stand, and the exact condition is proved:

- The parser and validation bound the numbers of a report from below only, and
  the columns that keep them are 32 bits wide. A record transaction of an
  execution is refused, at every clock and with every unused id, exactly when
  one of the numbers it writes does not fit (`ImportStages.TransactRefusedIff`),
  so every retry stops at the same place and such a report is never imported
  (`ImportRuns.SuccessIsInRange`). A result on line three billion is one
  (`ImportRange.LargeLineIsNeverImported`).

- The processor raises every record time to the instant it must not precede,
  but the start of the operation not at all and its completion only to the
  evidence. A worker clock behind the operation's rows or its start is refused
  there, and nowhere else (`ImportRuns.ArrivalIff`, `ImportRuns.CompletionIff`,
  `Lifecycle.EarlyClockIsRefused`).
- A job can end while its operation stays open: exactly when none of its
  executions published at an instant the rows accept
  (`Settlement.JobEndsOpenIff`). It then ended by a cancellation, the expiry of
  the last lease, a worker without a handler, a panic or an interruption of the
  execution, a retry of a job the worker takes as too old or under a code the
  queue does not take, or a failure that the tables refused because the clock
  was behind or could not be reached to record. Whole runs show it for a
  cancelled job and for a panic on the last attempt (`Stranding`), and
  `Settlement.StrandedForGood` that nothing repairs it afterwards.
- A hard link that takes effect and still reports an error is taken for a lost
  race: Put answers that the object already exists and removes the data under
  its own manifest. A published key loses its data exactly this way
  (`FileStore.OpenIsGenuine`, `FileStore.NoSlipNoOrphan`), and any Put can
  (`FileDirectory.SlippedLinkOrphans`).
- Scan validation allows parser names and analysis kinds of 128 characters, and
  their columns hold 64; a longer one passes validation and is refused by the
  table (`RecordEffects.ScanIsStored`). With that and the number ranges, the
  stores never hold a row that breaks a constraint
  (`TableChecks.RecordsSatisfyChecks`).
- Raising a clock reading is safe exactly for bounds in whole microseconds
  (`Importer.TimestampNeverEarlyIff`); stored instants are.
- A worker takes a job as too old when it is, and also when its creation lies
  so far ahead of the worker's clock that the 64-bit subtraction wraps around
  (`Worker.ScheduleRetry`).
- A report with an unmapped member whose name is empty parses, but its warning
  can never be recorded (`Scans.EmptyMemberNameIsRefused`). A document's
  warnings are recordable exactly when the 64 least unmapped names of each of
  its first thousand such objects are (`Importer.ParseFitsIff`).

The decision record for job leasing has waiting jobs return to `queued` before
they are acquired; the code acquires `retry_wait` jobs directly, and the model
follows the code.

`dafny verify dfyconfig.toml` checks the whole project.

## Model

| member | source | states |
|---|---|---|
| `JobLedger.RunKeepsStore` | internal/jobqueue/queue.go:286-310 | in every reachable state every job satisfies the table constraints, the attempts ledger is exactly rows 1..attempt_count, a row is open only if it is the last of an active job, and a success outcome stands exactly at the end of a succeeded job |
| `JobLedger.ChangeKeepsRow` | internal/database/migrations/00002_job_queue.sql:60-89 | no queue operation can break a constraint of the jobs table or the ledger |
| `JobLedger.FinishedRowsStayFrozen` | internal/jobqueue/queue.go:473-507 | a finished attempt row never changes again in any continuation |
| `JobLedger.BudgetFalls` | internal/jobqueue/queue.go:461-472 | a measure over attempts left and state falls strictly with every state change of a row |
| `JobLedger.StateChangesBounded` | internal/jobqueue/queue.go:261-295 | attempts never exceed max_attempts although Acquire does not test it, and a job changes state at most 3 times max_attempts in any run |
| `JobLedger.CancellationIsFinal` | internal/jobqueue/queue.go:516-545 | once requested, cancellation stays and cancelled is the only terminal state any continuation can reach |
| `JobLedger.CancellationForbids` | internal/jobqueue/queue.go:328-341 | no later event acquires, starts, heartbeats or succeeds a job whose cancellation was requested |
| `JobFencing.RunKeepsGrants` | internal/jobqueue/queue.go:286-310 | a fencing token belongs to exactly one attempt of one job, and a leased job holds the token of its current attempt |
| `JobFencing.DeadIffReleasedOrExpired` | internal/jobqueue/queue.go:975-999 | a token is of no use exactly when its job no longer holds it or the lease has expired |
| `JobFencing.DeadIsRefused` | internal/jobqueue/queue.go:754-768 | every operation that presents a dead token is refused and leaves all tables unchanged |
| `JobFencing.FencedForever` | internal/jobqueue/queue.go:375-389 | from the moment a lease expires or is released, every later use of its token is refused and changes nothing |
| `JobFencing.TerminalStays` | internal/jobqueue/queue.go:754-768 | no event changes a terminal job |
| `JobFencing.AtMostOneSuccess` | internal/jobqueue/queue.go:406-422 | at most one success is ever acknowledged for a job |
| `JobEffects.AcquireServesFirst` | internal/jobqueue/queue.go:261-285 | the leased row is ready, below its cap and of a workspace no busier than that of any other ready row; among equally busy ones its priority is highest, then its availability earliest, then its creation |
| `JobEffects.NoWorkMeansCapped` | internal/jobqueue/queue.go:261-285 | there is no work only when every ready row is of a workspace at its cap |
| `JobEffects.WorkCanBeLeased` | internal/jobqueue/queue.go:261-285 | whenever a ready row is of a workspace below its cap some lease can be granted |
| `JobEffects.AcquireRefusal` | internal/jobqueue/queue.go:231-243 | an acquisition is refused exactly for a queue, owner, lease or cap out of bounds |
| `JobEffects.LeaseIsWritten` | internal/jobqueue/queue.go:286-310 | a new lease is one attempt more under the drawn token until now plus the lease, with its attempt row, and touches nothing else |
| `JobEffects.StartIff` | internal/jobqueue/queue.go:318-355 | a start is heard exactly from the holder of a live, unflagged lease of a leased job, a flagged one is told so, and the first start time is kept |
| `JobEffects.HeartbeatIff` | internal/jobqueue/queue.go:358-403 | a heartbeat is heard exactly from the holder of a live, unflagged lease and moves its end to now plus the lease |
| `JobEffects.FinishIff` | internal/jobqueue/queue.go:740-781 | a success is heard exactly from the holder of a live, unflagged lease of a running job, a cancellation from any live holder, and the job is then over and released |
| `JobEffects.FailIff` | internal/jobqueue/queue.go:426-512 | a failure is heard exactly from the holder of a live lease of a running job; flagged it cancels, retryable with attempts left it waits for the given instant, and else the job is dead |
| `JobEffects.FailedRow` | internal/jobqueue/queue.go:473-507 | the attempt row of a failure: finished now, with the outcome of the state and the code unless cancelled |
| `JobEffects.CancellationIff` | internal/jobqueue/queue.go:516-545 | a request is heard exactly for a job that is not over; it flags an active one once and ends a waiting one |
| `JobEffects.RecoveryEffect` | internal/jobqueue/queue.go:611-662 | each row of a batch: flagged is cancelled, out of attempts dead, running waits for the delay, leased is queued at once, each with its error class and code and its attempt row; no other row changes |
| `JobEffects.EveryExpiredRecovered` | internal/jobqueue/queue.go:568-583 | a call below its limit leaves no expired lease of its queue |
| `JobEffects.EarliestRecoveredFirst` | internal/jobqueue/queue.go:568-583 | within a workspace the leases that ended first are recovered first |
| `JobEffects.EnqueueRefusal` | internal/jobqueue/queue.go:180-185 | a request is invalid exactly for a field out of bounds, and no refusal changes a table |
| `JobEffects.EnqueueTells` | internal/jobqueue/queue.go:196-227 | the caller is told that it made the job exactly when no job has its key, and else which job has |
| `JobEffects.FirstEnqueue` | internal/jobqueue/queue.go:196-213 | a first request is stored as it is, queued, to be available when it says or at once |
| `JobEffects.RepeatedEnqueue` | internal/jobqueue/queue.go:214-227 | a repeated key succeeds exactly for an equal request, conflicts otherwise and changes nothing |
| `JobEffects.RunKeepsKeys` | internal/jobqueue/queue.go:196-207 | in every run no two jobs share workspace, queue, kind and idempotency key |
| `JobEffects.LeaseProtects` | internal/jobqueue/queue.go:358-403 | in every run whoever acquires a job or beats its heart holds it for the whole lease: until it calls again no other worker, recovery or request takes the job or starts another attempt |
| `JobFairness.CapHolds` | internal/jobqueue/queue.go:254-280 | with a common cap no workspace and queue ever has more active jobs than the cap |
| `JobFairness.AcquireKeepsBalance` | internal/jobqueue/queue.go:261-285 | one acquisition keeps the active counts of workspaces with eligible jobs within one of each other |
| `JobFairness.AcquisitionsStayBalanced` | internal/jobqueue/queue.go:261-285 | any number of acquisitions does |
| `JobFairness.RecoveryIsFair` | internal/jobqueue/queue.go:568-583 | if one workspace had k jobs recovered, every other had at least min(k - 1, its expired count) |
| `JobFairness.RecoveryStartsEarliest` | internal/jobqueue/queue.go:568-583 | whatever the workspaces, the first lease a recovery takes ran out before or with every other expired one |
| `JobFairness.RecoverShrinks` | internal/jobqueue/queue.go:611-662 | a recovery takes min(limit, expired) leases, all of them expired, and the expired set shrinks by exactly these |
| `JobFairness.RecoveryDrains` | internal/jobqueue/queue.go:554-663 | consecutive recoveries leave no lease that was expired when they began |
| `JobDraining.RecoveryReachesEveryLease` | internal/jobqueue/queue.go:554-663 | in any run, with any other events in between, recovery calls that were together allowed as many leases as were held or granted since have recovered every lease expired at the start |
| `JobRecovery.BeforeStrictOrder` | internal/jobqueue/queue.go:568-583 | the recovery order by rank within a workspace is irreflexive, transitive and total on expired rows |
| `JobRecovery.RecoverAllPointwise` | internal/jobqueue/queue.go:611-658 | a batch changes each of its rows once, from its original value, and no other row |
| `JobRuns.NextRow` | internal/jobqueue/queue.go:318-355 | every event leaves an existing row alone or applies one enabled change to it; rows are never deleted |
| `JobTables.Queue.Enqueue` | internal/jobqueue/queue.go:180-227 | one job per idempotency key; a repeated equal request returns the first job, an unequal one conflicts, and a schema version beyond 32 bits is refused |
| `JobTables.Queue.SelectCandidate` | internal/jobqueue/queue.go:261-285 | the scan finds a row exactly when a ready one is of a workspace below its cap, and then one that comes first: by busy jobs of the workspace, priority, availability and age |
| `JobTables.Queue.Acquire` | internal/jobqueue/queue.go:231-315 | leases that row under the drawn token until now plus the lease, as one attempt more, or nothing when every ready row is capped, and refuses invalid arguments |
| `JobTables.Queue.Start` | internal/jobqueue/queue.go:318-355 | the in-place update is the start step |
| `JobTables.Queue.Heartbeat` | internal/jobqueue/queue.go:358-403 | the in-place update is the heartbeat step |
| `JobTables.Queue.Finish` | internal/jobqueue/queue.go:740-781 | the in-place update is the finish step for success and cancellation |
| `JobTables.Queue.Fail` | internal/jobqueue/queue.go:426-512 | the in-place update is the failure step with its three targets |
| `JobTables.Queue.RequestCancellation` | internal/jobqueue/queue.go:516-545 | the in-place update is the cancellation request step |
| `JobTables.Queue.SelectExpired` | internal/jobqueue/queue.go:568-583 | the query loop returns exactly the first expired rows of the recovery order, up to the limit |
| `JobTables.Queue.RecoverBatch` | internal/jobqueue/queue.go:611-658 | the row loop is the recovery of the whole batch: flagged rows are cancelled, exhausted ones dead, running ones wait the delay and leased ones are queued at once |
| `JobTables.Queue.RecoverExpired` | internal/jobqueue/queue.go:554-663 | selection and recovery together are one recovery step with exactly that effect on each row of the batch and none on any other |
| `Worker.BackoffSaturates` | internal/jobqueue/worker.go:295-310 | once doubling passes the maximum the delay stays there |
| `Worker.RetryDelay` | internal/jobqueue/worker.go:295-310 | the doubling loop computes min(maximum, minimum times 2^(attempt - 1)) without 64-bit overflow |
| `Worker.JitteredRetryDelay` | internal/jobqueue/worker.go:312-324 | jitter stays between half and the whole of the delay |
| `Worker.ScheduleRetry` | internal/jobqueue/worker.go:228-263 | no retry is scheduled exactly when the job is too old or its creation is so far ahead that the 64-bit age wraps around; a scheduled retry lies strictly after now, no later than now plus the maximum and creation plus the maximum age, and no sooner than asked within these |
| `Worker.WhileHandling` | internal/jobqueue/worker.go:153-215 | heartbeats and cancellation requests are the queue's steps in order up to the first failed heartbeat; they keep the attempt, and a cancellation is seen only if it was requested |
| `Worker.BeatsKeepLease` | internal/jobqueue/worker.go:153-215 | a worker whose heartbeats each come before the lease of the last has ended never loses its job |
| `Worker.FlagIsSeen` | internal/jobqueue/worker.go:193-215 | a heartbeat in time after a cancellation request tells the worker of it |
| `Worker.ReportRetry` | internal/jobqueue/worker.go:228-263 | the one queue call of a retry: scheduled when the code is valid and the job young enough, no sooner than half the backoff and the time asked for and no later than the longest delay and the age limit allow, and given up otherwise |
| `Worker.Report` | internal/jobqueue/worker.go:216-276 | the outcome switch makes exactly the one queue call that the result, the attempt, the age of the job and the clock call for, a retry within its bounds, and a success refused by a cancellation is acknowledged as a cancellation |
| `Worker.AcknowledgedSettles` | internal/jobqueue/worker.go:216-276 | an acknowledged report leaves the job released and in the state its handler's outcome, the attempt budget and cancellation call for, a retry available between the two bounds of its instant |
| `Worker.Process` | internal/jobqueue/worker.go:153-276 | processing one lease makes the start, the heartbeats and one last call, in this order and no other; acknowledged, the row is the one its handler's result, its age and its flag call for, with the retry instant within its bounds |
| `Streams.BoundedReader.Read` | internal/blobstore/stream.go:34-71 | however the source chunks and the caller reads, delivered bytes are a prefix of the source within the limit, and a too-large error means the source is too large |
| `Streams.BoundedReader.Result` | internal/blobstore/stream.go:74-82 | succeeds only with the size and digest of the whole source, and never past the limit |
| `Streams.CopyAll` | internal/blobstore/filesystem/filesystem.go:99-107 | copying to end of stream yields exactly the source, and a source that does not fail is copied to its end or the limit |
| `Streams.VerifiedReader.Read` | internal/blobstore/stream.go:126-150 | end of stream is first reported only for content with the committed size and digest |
| `Streams.ReadPastRejection` | internal/blobstore/stream.go:126-150 | a reader that reported an integrity error reports end of stream on the next read, so only its first verdict counts |
| `Streams.ReadReport` | internal/parsing/sarif/parser.go:50-86 | a report read in full has exactly the committed size and digest; the extra byte forces true end of stream or a too-large error |
| `FileStore.RunKeeps` | internal/blobstore/filesystem/filesystem.go:66-149 | every state reachable by interleaved and crashed Puts, with operations that fail or take effect and report an error, keeps each call's own files and names the one publisher of every manifest |
| `FileStore.StreamEndIff` | internal/blobstore/filesystem/filesystem.go:102-114 | a stream is kept exactly within its limit and of the announced size and digest, and else refused as too large or as mismatched |
| `FileStore.OpensIff` | internal/blobstore/filesystem/filesystem.go:152-174 | in any directory an object opens exactly when its manifest is about it and the data file it names is there |
| `FileStore.OpenIsGenuine` | internal/blobstore/filesystem/filesystem.go:152-174 | in every such state a key without a manifest is not found, one whose publisher removed its data under it is an integrity error, exactly then, and every other opens to data of the manifest's size and digest |
| `FileStore.NoSlipNoOrphan` | internal/blobstore/filesystem/filesystem.go:249-253 | a key none of whose links took effect and reported an error never loses its data |
| `FileStore.ManifestIsWriteOnce` | internal/blobstore/filesystem/filesystem.go:226-256 | a published manifest is never removed or replaced |
| `FileStore.PublishedContentIsPermanent` | internal/blobstore/filesystem/filesystem.go:126-149 | what Open returns for a published key stays exactly unless its own publisher, misled by its link, removes the data; no other call's cleanup changes it |
| `FileStore.AtMostOneWinner` | internal/blobstore/filesystem/filesystem.go:226-256 | at most one Put of a key ever succeeds |
| `FileStore.WinnerPublishes` | internal/blobstore/filesystem/filesystem.go:134-149 | a successful Put's own content is what Open returns from then on |
| `FileAnswers.FailureIsTrue` | internal/blobstore/filesystem/filesystem.go:66-149 | in every interleaving with failures, slips and crashes: who is told that the object exists, is too large or is mismatched is told the truth |
| `FileAnswers.UnharmedPutAnswers` | internal/blobstore/filesystem/filesystem.go:66-149 | a call none of whose own operations fail publishes announced content, finds another call's object, or is told which limit or announcement its content misses; it never reports a failure of the backend |
| `FileAnswers.OneOfThemWins` | internal/blobstore/filesystem/filesystem.go:226-256 | of any number of such calls racing for one key exactly one publishes, what it wrote is what opens, and every other is told that the object exists |
| `FileDirectory.Directory.CommitManifest` | internal/blobstore/filesystem/filesystem.go:226-256 | succeeds exactly when no manifest exists and no operation up to the link fails, publishes also when the link slips, leaves no temporary file unless its removal fails, and is a stretch of the protocol |
| `FileDirectory.Directory.Put` | internal/blobstore/filesystem/filesystem.go:66-149 | whatever operations fail, cleanup included, one Put is a run of the protocol by one call among any others; it publishes a data file and its manifest exactly when none exists, the stream is as expected and nothing fails up to the link, and else leaves the directory as it was, unless a removal fails or the link takes effect and reports an error, when its manifest stays without data |
| `FileDirectory.SlippedLinkOrphans` | internal/blobstore/filesystem/filesystem.go:129-134 | any Put whose stream is as expected can, alone in an empty directory, answer that the object exists and leave a key that opens to an integrity error |
| `JsonTokens.CheckIffConforms` | internal/parsing/sarif/parser.go:123-201 | no violation is found exactly when all limits hold and member names are distinct |
| `JsonTokens.ValidateTree` | internal/parsing/sarif/parser.go:123-201 | on the tokens of any tree the descent reports the first violation or consumes exactly the tree's tokens |
| `JsonTokens.AcceptedTree` | internal/parsing/sarif/parser.go:123-201 | every accepted stream begins with the tokens of one tree |
| `JsonTokens.AcceptsExactlyConformingTrees` | internal/parsing/sarif/parser.go:110-121 | a stream is accepted exactly when it is the tokens of one conforming tree and nothing else |
| `JsonTokens.ConformsIff` | internal/parsing/sarif/parser.go:123-201 | a tree conforms exactly when no object has a name twice and no depth, count or length exceeds its limit |
| `JsonTokens.ErrorsMean` | internal/parsing/sarif/parser.go:123-201 | a tree is malformed only for a repeated name, and over a limit only if it exceeds one |
| `JsonTokens.DocumentVerdict` | internal/parsing/sarif/parser.go:110-121 | a tree followed by anything is rejected |
| `JsonTokens.ValidateValue` | internal/parsing/sarif/parser.go:123-201 | the recursive methods over a decoder follow the descent and never recurse deeper than the limit |
| `JsonTokens.ValidateObject` | internal/parsing/sarif/parser.go:145-177 | the member loop with its seen set and counter is the member descent |
| `JsonTokens.ValidateArray` | internal/parsing/sarif/parser.go:178-196 | the element loop is the element descent |
| `JsonTokens.ValidateJson` | internal/parsing/sarif/parser.go:110-121 | accepts exactly conforming documents and rejects trailing tokens |
| `Sarif.CheckRegion` | internal/parsing/sarif/parser.go:690-704 | accepts exactly regions with positive positions whose end does not precede their start |
| `Sarif.ListsUnique` | internal/parsing/sarif/parser.go:657-671 | the list of named values does not depend on map iteration order |
| `Sarif.NamedValues` | internal/parsing/sarif/parser.go:657-671 | every entry once, in strictly increasing name order |
| `Sarif.ParseState.ParseLocation` | internal/parsing/sarif/parser.go:574-623 | accepts exactly locations with a valid artifact index and region, shows every field under its pointer, and notes the unmapped members of each nested object in reading order |
| `Sarif.ParseState.ParseResult` | internal/parsing/sarif/parser.go:460-512 | accepts exactly decoded results with known level, kind and baseline, a message and valid locations within the limits; the result shows every field, its locations are positional, its fingerprints sorted and unique, and the unmapped members of every object in it are noted |
| `Sarif.PointersDiffer` | internal/parsing/sarif/parser.go:706-708 | elements of one array have different pointers |
| `Sarif.ParseState.RecordUnsupported` | internal/parsing/sarif/parser.go:625-655 | the warnings are those of the first objects with unmapped members, one each, up to the limit, and truncation is flagged exactly past it |
| `Sarif.ListsTheLeast` | internal/parsing/sarif/parser.go:640-653 | a warning lists exactly the least unmapped names |
| `Sorting.UniqueArrangement` | internal/finding/types.go:137-156 | distinct keys have one sorted order, so an unstable sort is harmless |
| `Sorting.SortIsOrderIndependent` | internal/finding/types.go:137-156 | the duplicate verdict and, without duplicates, the sorted list do not depend on the input order |
| `Finding.CanonicalizeObservation` | internal/finding/types.go:115-169 | accepts exactly valid observations and produces their canonical record |
| `Finding.ObservationOrderIndependent` | internal/finding/types.go:137-156 | verdict and record do not depend on the order of locations and fingerprints |
| `Correlation.CanonicalizeUncorrelated` | internal/correlation/types.go:92-125 | accepts exactly outcomes with listed, unrepeated reasons and orders them |
| `Correlation.OutcomeOrderIndependent` | internal/correlation/types.go:103-116 | verdict and record do not depend on the order of the reasons |
| `Correlation.GatherReasons` | internal/correlation/dispatch.go:35-66 | the appended reasons and the version are those of the dispatch rule, and none are gathered exactly when it is refused |
| `Correlation.NewDispatchUncorrelated` | internal/correlation/dispatch.go:35-78 | succeeds exactly for accepted dispatches with valid outcomes |
| `Correlation.ImportDispatchIsValid` | internal/correlation/dispatch.go:35-78 | an import's dispatch is always recordable: version 1 with the identity reasons or version 2 with the family and context reasons |
| `Scans.WarningRecordableIff` | internal/ingestion/processing.go:104-146 | a warning is recordable exactly when its path is and the 64 least of the object's unmapped names are non-empty, bounded and free of NUL |
| `Scans.EmptyMemberNameIsRefused` | internal/ingestion/processing.go:104-146 | whatever its other members, an object with an unmapped empty name has a warning that is refused |
| `Scans.ParseOutputRecordableIff` | internal/ingestion/processing.go:104-146 | the parser output of a document is recordable exactly when the first thousand objects with unmapped members are |
| `Importer.ParseFitsIff` | internal/processing/importjob/processor.go:195-204 | a document passes the first record stage exactly under that condition |
| `Scans.ScanResultOf` | internal/processing/importjob/processor.go:454-501 | a run succeeded only if it reports invocations and none failed |
| `Scans.RunTimes` | internal/processing/importjob/processor.go:454-501 | kept scan times are in order |
| `Scans.MappedInOrder` | internal/processing/importjob/processor.go:503-548 | locations and fingerprints mapped from an accepted result come strictly in key order and never collide |
| `Mapping.MapResult` | internal/processing/importjob/processor.go:503-548 | the filling loops compute the mapped observation |
| `Mapping.StoredRecordKeepsResult` | internal/processing/importjob/processor.go:503-548 | the stored record of an accepted result gives the parsed result back: no field, location or fingerprint is lost, merged or exchanged |
| `Mapping.EqualRecordsEqualResults` | internal/finding/types.go:157-169 | records are equal only for equal results, so comparing fingerprints never hides a difference |
| `Scans.PrimaryArtifactLocation` | internal/normalization/sarif/normalizer.go:66-84 | the loop finds the first location of least ordinal |
| `Scans.PrimaryOrderIndependent` | internal/normalization/sarif/normalizer.go:66-84 | with distinct ordinals the chosen location does not depend on order |
| `Scans.AcceptedResultNormalizes` | internal/normalization/sarif/normalizer.go:26-49 | a result the parser and observation validation accept normalizes to a record normalization validation accepts; what it says is `ImportContents.ResultIsNormalized` |
| `Scans.AcceptedResultDispatches` | internal/processing/importjob/processor.go:253-267 | its dispatch always yields a valid outcome of the right version |
| `Records.RecordStore.AddParseOutput` | internal/ingestion/processing_postgres.go:163-228 | insert-if-absent: an equal record repeats the success, an unequal one conflicts, and a field count out of range is refused |
| `Records.RecordStore.AddScan` | internal/ingestion/scan_postgres.go:15-117 | insert-if-absent for scans with their scope, against the committed evidence of the import tables; the stored id comes back, and a run index or schema version out of range is refused |
| `Records.RecordStore.AddObservation` | internal/finding/postgres.go:27-139 | insert-if-absent for observations of a recorded scan; a number that fits no column of the observation row, or of a location row to be inserted, is refused |
| `Records.RecordStore.AddNormalization` | internal/finding/normalization_postgres.go:14-107 | insert-if-absent for normalizations of a recorded observation; a position out of range is refused |
| `Records.RecordStore.AddOutcome` | internal/correlation/postgres.go:27-102 | insert-if-absent for outcomes of a recorded normalization |
| `RecordEffects.ParseIsStored` | internal/ingestion/processing_postgres.go:163-228 | first diagnostics are stored if their counts fit, and later ones succeed exactly when every field is the same |
| `RecordEffects.ScanIsStored` | internal/ingestion/scan_postgres.go:15-117 | a first scan is stored exactly over committed evidence, not before it, within its columns and under an unused id |
| `RecordEffects.ScanRepeats` | internal/ingestion/scan_postgres.go:77-92 | a later scan of the run is told the first id and time exactly for the same record and scope |
| `RecordEffects.ObservationIsStored` | internal/finding/postgres.go:51-139 | a first observation of a recorded scan is stored exactly when it is not before the evidence, fits its columns and has an unused id |
| `RecordEffects.ObservationRepeats` | internal/finding/postgres.go:88-102 | a later one is told the first id and time exactly for the same canonical record |
| `RecordEffects.NormalizationIsStored` | internal/finding/normalization_postgres.go:41-107 | a normalization not before its observation is stored once, and the same again is told the first time |
| `RecordEffects.OutcomeIsStored` | internal/correlation/postgres.go:55-102 | an outcome not before its normalization is stored once |
| `RecordEffects.RecordsStayInOrder` | internal/database/migrations/00006_scan_observations.sql:82-82 | after any sequence of record calls every record hangs from one that is there and was recorded no later, down from the evidence |
| `TableChecks.RecordsSatisfyChecks` | internal/database/migrations/00006_scan_observations.sql:47-83 | after any sequence of record calls every row satisfies every CHECK constraint of its table |
| `Importer.TimestampNeverEarlyIff` | internal/processing/importjob/processor.go:413-419 | a raised clock is never early exactly when the bound is in whole microseconds |
| `Importer.TimestampMeans` | internal/processing/importjob/processor.go:413-419 | a raised clock is the later of the bound and the whole microsecond at or before the reading |
| `Importer.InstantsMean` | internal/processing/importjob/processor.go:133-141 | an operation starts at the clock in whole microseconds and completes at the later of that and the evidence |
| `Importer.ScanIsPut` | internal/processing/importjob/processor.go:206-220 | recording a mapped scan stores the planned row or finds it, and is refused for a run index out of range |
| `Importer.ObservationIsPut` | internal/processing/importjob/processor.go:221-236 | recording a mapped observation stores the planned row or finds it, and is refused when a number of it fits no column |
| `Importer.NormalizationIsPut` | internal/processing/importjob/processor.go:237-252 | recording a normalization stores the planned row or finds it, and is refused for a position out of range |
| `Importer.OutcomeIsPut` | internal/processing/importjob/processor.go:253-275 | recording a dispatch outcome stores the planned row or finds it |
| `ImportPlan.ScanKeepsTables` | internal/ingestion/scan_postgres.go:43-91 | storing a planned scan keeps unique ids, foreign keys and everything planned |
| `ImportPlan.ObservationKeepsTables` | internal/finding/postgres.go:51-102 | storing a planned observation does |
| `ImportPlan.NormalizationKeepsTables` | internal/finding/normalization_postgres.go:41-98 | storing a planned normalization does |
| `ImportPlan.OutcomeKeepsTables` | internal/correlation/postgres.go:55-92 | storing a planned outcome does |
| `ImportStages.TransactRefusedIff` | internal/finding/postgres.go:106-139 | at any clock and with any unused id, a record transaction of an execution is refused exactly when a number of the parsed document that it writes does not fit its column |
| `ImportRuns.RunKeeps` | internal/processing/importjob/processor.go:111-289 | every run of executions, other lifecycle transactions and other imports keeps the plan: whatever is stored for this import is what its evidence determines, and the operation agrees with the place of every execution |
| `ImportRuns.TraceIsRun` | internal/processing/importjob/processor.go:111-289 | the states computed event by event form a run, so what holds of runs holds of the handler below |
| `ImportRuns.ExecutionsNeverConflict` | internal/processing/importjob/processor.go:111-289 | any interleaving of stopped and repeated executions, under any clocks, meets no conflict, no time-order rejection, no invalid record and no missing parent in the record stores: what they refuse is a clash of ids or a number out of range; an execution is held up only by a clock behind the operation and turned away only after a failure or by a zero clock |
| `ImportRuns.ArrivalIff` | internal/processing/importjob/processor.go:133-147 | an execution starts, is held up, sees success or is turned away exactly by the state of the operation and whether the clock is behind its rows |
| `ImportRuns.CompletionIff` | internal/processing/importjob/processor.go:280-289 | success is published, held up or denied exactly by the state of the operation and whether the clock is behind its rows or its start |
| `ImportRuns.SuccessIsExact` | internal/processing/importjob/processor.go:277-289 | once success is published the tables hold one scan for each run, one observation, normalization and outcome for each result with determined contents, and nothing else of this import |
| `ImportContents.ResultIsNormalized` | internal/normalization/sarif/normalizer.go:26-84 | the normalization of a result: each level its own severity and back, the rule exactly when the result names one, the first location exactly when it names an artifact |
| `ImportContents.NormalizesOnlyItsParser` | internal/normalization/sarif/normalizer.go:29-33 | observations of another parser, or of another version of it, are not normalized |
| `ImportContents.RunIsRecorded` | internal/processing/importjob/processor.go:454-501 | the scan of a run: its tool, automation and times, failed exactly when an invocation failed, unknown exactly without one |
| `ImportContents.ResultIsObserved` | internal/processing/importjob/processor.go:503-548 | the observation of a result gives the parsed result back, under its scan and evidence |
| `ImportContents.ResultIsCorrelated` | internal/correlation/dispatch.go:35-78 | the outcome of a result: the unknown target and kind without an analysis context, the unknown family and source context with one |
| `ImportContents.SuccessShowsDocument` | internal/processing/importjob/processor.go:277-289 | whenever success is published, in any run, the rows of every run and result say what the document says, each under the generated id of the one before |
| `ImportRuns.PublishedIsFinal` | internal/ingestion/processing_postgres.go:275-285 | after success is published no late execution and no other import changes the operation or a row of this import |
| `ImportRuns.ProcessingIsDeterministic` | internal/processing/importjob/processor.go:434-548 | any two successful processings of the same evidence store the same records up to generated ids and times |
| `ImportRuns.RetriesMakeProgress` | internal/processing/importjob/processor.go:195-289 | whatever earlier executions left, each record transaction of an execution with an unused id brings it exactly one nearer the end at any clock if the numbers it writes fit their columns, and is refused if one does not; the completion publishes exactly when the clock is not behind the operation |
| `ImportRuns.SuccessIsInRange` | internal/database/migrations/00006_scan_observations.sql:206-214 | in every run success is published only for a document all of whose numbers fit their columns |
| `DocumentFits.ScanFitsIff` | internal/ingestion/scan.go:131-183 | a run is recorded as a scan, under any generated id and at any instant, exactly when its tool, automation and pointer texts are within the limits; its times never stand in the way |
| `DocumentFits.ResultFitsIff` | internal/finding/types.go:115-169 | an accepted result is recorded as an observation exactly when its texts, places, fingerprints and arguments are within the limits; keys never collide |
| `DocumentFits.DocumentOkIff` | internal/finding/types.go:115-169 | the documents that the import results are about are exactly those with recordable warnings whose runs and results are within these limits |
| `ImportRange.EveryLineParses` | internal/parsing/sarif/parser.go:690-704 | the parser accepts a result on any positive line |
| `ImportRange.EveryLineIsValid` | internal/finding/types.go:115-169 | validation accepts a report on any positive line, and it is in range exactly up to 2^31 - 1 |
| `ImportRange.LargeLineIsNeverImported` | internal/finding/postgres.go:106-114 | a report with a result on line three billion parses and validates, and in no run is it imported |
| `ImportRange.LargeLineIsRefused` | internal/processing/importjob/processor.go:221-236 | every attempt of every run to record that result is refused |
| `ImportProcess.StoreResults` | internal/processing/importjob/processor.go:221-275 | the inner loop is the sequence of transactions of the run model |
| `ImportProcess.StoreDocument` | internal/processing/importjob/processor.go:195-276 | the nested loops are, stopping at the first refusal or ready to complete |
| `ImportProcess.LoopsAreARun` | internal/processing/importjob/processor.go:136-276 | started where the operation can start, the loops are the run model's single uninterrupted execution |
| `ImportProcess.Process` | internal/processing/importjob/processor.go:111-289 | the whole handler over both stores, from the start to the completion, leaves what a run of one execution leaves |
| `Lifecycle.RunKeeps` | internal/ingestion/postgres.go:243-343 | import, artifact and operation states stay in lock-step through every run |
| `Lifecycle.ReachableIsOk` | internal/ingestion/postgres.go:243-343 | every state reached from empty tables is in lock-step |
| `Lifecycle.RunStable` | internal/ingestion/postgres.go:358-445 | committed evidence, terminal operations, the start of an operation, reservation terms and claims never change in any continuation |
| `Lifecycle.ReservationReplays` | internal/ingestion/postgres.go:491-599 | a reservation repeated at any later time returns the first import with its reserved terms, in the state it then has, and changes nothing |
| `Lifecycle.CompletionReplays` | internal/ingestion/postgres.go:31-188 | a completion repeated at any later time returns the first operation field for field and changes nothing |
| `Lifecycle.OneOperationOneJob` | internal/ingestion/postgres.go:114-147 | each import has at most one operation and one job, and has them exactly once it is past completion |
| `Lifecycle.BeginProcessingIff` | internal/ingestion/processing_postgres.go:114-157 | processing starts exactly when the clock is not behind the operation and the import |
| `Lifecycle.CompleteProcessingIff` | internal/ingestion/processing_postgres.go:275-305 | success is published exactly when the clock is also not behind the start |
| `Lifecycle.FailProcessingIff` | internal/ingestion/processing_postgres.go:349-376 | a failure is published exactly under the same condition |
| `Lifecycle.EarlyClockIsRefused` | internal/database/migrations/00005_import_operations.sql:49-57 | of any import, a history from empty tables reaches a queued operation that an early clock can neither start nor fail, and a started one that a clock behind its start can neither complete nor fail |
| `LifecycleEffects.FirstReservationIff` | internal/ingestion/postgres.go:491-599 | a first reservation is accepted exactly for a declared size within the limit, consistent terms and unused ids, with the rows it writes |
| `LifecycleEffects.RepeatedReservationIff` | internal/ingestion/postgres.go:505-540 | a repeated one reads the first import back exactly for the same application, size and digest |
| `LifecycleEffects.BeginUploadTurnsAway` | internal/ingestion/postgres.go:192-262 | strangers are told there is no such import, other states conflict, and a completed upload answers with its receipt |
| `LifecycleEffects.LateUploadAbandons` | internal/ingestion/postgres.go:263-300 | after the deadline an import that took uploads is abandoned with its artifact |
| `LifecycleEffects.TakeoverIff` | internal/ingestion/postgres.go:303-343 | an attempt is told that the upload is in progress, and changes nothing, exactly while another holds the artifact under a lease that ends later; else it takes the artifact over in its place |
| `LifecycleEffects.FreeArtifactIsLeased` | internal/ingestion/postgres.go:303-343 | an artifact nobody holds goes to the first attempt that comes, and one that is missing is made |
| `LifecycleEffects.CommitIff` | internal/ingestion/postgres.go:347-396 | evidence is committed exactly by the attempt that holds the artifact and until its lease ends, with the rows it writes |
| `LifecycleEffects.EndIff` | internal/ingestion/postgres.go:401-445 | an attempt is ended exactly by itself: released without a code, rejected for good with one |
| `LifecycleEffects.FirstCompletionIff` | internal/ingestion/postgres.go:31-188 | a first completion is accepted exactly of an uploaded import by its owner, and makes one operation and one job |
| `LifecycleEffects.RepeatedCompletionIff` | internal/ingestion/postgres.go:31-80 | a repeated one gives the first response again exactly for the same import by its owner |
| `LifecycleEffects.ProcessingRefusal` | internal/ingestion/processing_postgres.go:51-381 | invalid ids, counts and codes are told before any row is read, and an operation that is not the named import's and principal's is not found |
| `LifecycleEffects.StartIsWritten` | internal/ingestion/processing_postgres.go:51-159 | the rows of a started operation with its first start time, and the evidence and state the processor is told |
| `LifecycleEffects.SuccessIsWritten` | internal/ingestion/processing_postgres.go:232-310 | the rows of a published success; a repeated one is accepted exactly for the same number of scans |
| `LifecycleEffects.FailureIsWritten` | internal/ingestion/processing_postgres.go:314-381 | the rows of a published failure; a repeated one is accepted exactly for the same code |
| `LifecycleEffects.OperationsAreConsistent` | internal/database/migrations/00005_import_operations.sql:26-60 | in every reached state the columns of an operation follow its state and its times are in order |
| `LifecycleEffects.ArtifactsAreConsistent` | internal/database/migrations/00004_raw_artifact_uploads.sql:27-60 | in every reached state an attempt, evidence or rejection code is there exactly in the artifact state it belongs to, in step with the import |
| `Uploads.RunKeeps` | internal/ingestion/service.go:239-336 | every run of interleaved uploads keeps committed metadata equal to the blob and every blob within its import's terms |
| `Uploads.ReceiptsAgree` | internal/ingestion/service.go:263-336 | all successful receipts of one import are equal, describe the one blob under the reserved key and every succeeding caller's own bytes, within max_bytes and equal to the reserved expectations |
| `Uploads.VerdictIff` | internal/ingestion/service.go:352-384 | against metadata of a fitting blob exactly its own bytes pass |
| `Uploads.ReplayAcceptsExactly` | internal/ingestion/service.go:338-350 | a repeated upload succeeds exactly for the committed bytes, with the first receipt |
| `UploadLeases.LeaseExcludes` | internal/ingestion/postgres.go:303-343 | in every run of uploads, as long as the attempt that holds an artifact does not end or commit and whoever asks comes while its lease is live and before the deadline, no other attempt holds the artifact |
| `UploadLeases.SecondCallIsTold` | internal/ingestion/postgres.go:308-311 | such a call is told that the upload is in progress and changes nothing |
| `UploadLeases.LateCallTakesOver` | internal/ingestion/postgres.go:312-343 | a call after the lease has ended takes the artifact over in its place |
| `UploadEffects.VerdictMeans` | internal/ingestion/service.go:352-384 | which content passes against committed metadata, and which refusal is a mismatch with the reservation |
| `UploadEffects.PutErrorMeans` | internal/ingestion/service.go:301-320 | content is written exactly within the limit, of the size announced or reserved and of the reserved digest |
| `UploadEffects.SessionLeads` | internal/ingestion/service.go:263-300 | a session leads back to its receipt, out with its reason, or on to the object |
| `UploadEffects.InspectMeans` | internal/ingestion/service.go:290-300 | an absent object is to be written, the own one committed, and any other releases the attempt |
| `UploadEffects.WriteMeans` | internal/ingestion/service.go:301-336 | an object is written once; content too large or unexpected is rejected for good with its code |
| `UploadEffects.CommitMeans` | internal/ingestion/service.go:320-336 | a commit takes effect unless it is lost and is answered unless it is silent |
| `UploadEffects.ReplayMeans` | internal/ingestion/service.go:274-279 | a completed upload gives its receipt again exactly to readable content of the same size and digest, and a conflict to any other |
| `UploadEffects.LoneUploadDelivers` | internal/ingestion/service.go:239-336 | a call that is alone, in time and meets no fault gets the receipt of its own content, and the object, the artifact and the import say so |
| `IngestionTables.Database.Reserve` | internal/ingestion/postgres.go:491-599 | one import for each idempotency key; a repeat returns its row, an unequal request conflicts |
| `IngestionTables.Database.BeginUpload` | internal/ingestion/postgres.go:192-343 | the in-place transaction is the begin step, whose answers and rows the `LifecycleEffects` members on it state: replay, expiry, lease and takeover |
| `IngestionTables.Database.CommitUpload` | internal/ingestion/postgres.go:347-396 | the in-place transaction is the fenced commit step |
| `IngestionTables.Database.EndUpload` | internal/ingestion/postgres.go:401-445 | the in-place transaction is the fenced release or rejection step |
| `IngestionTables.Database.Complete` | internal/ingestion/postgres.go:31-188 | the in-place transaction is the completion step with its replay |
| `IngestionTables.Database.BeginProcessing` | internal/ingestion/processing_postgres.go:51-159 | the in-place transaction is the processing start step |
| `IngestionTables.Database.CompleteProcessing` | internal/ingestion/processing_postgres.go:232-310 | the in-place transaction is the success step |
| `IngestionTables.Database.FailProcessing` | internal/ingestion/processing_postgres.go:314-381 | the in-place transaction is the failure step |
| `IngestionTables.VerifyContent` | internal/ingestion/service.go:352-384 | streaming verification passes only content the rule accepts, any other verdict than a read failure is the rule's, and a stream that does not fail is never a read failure |
| `IngestionTables.CopyContent` | internal/blobstore/filesystem/filesystem.go:99-114 | the bounded copy of a write yields the whole content exactly when it is within the limit and as expected, for a stream that does not fail |
| `IngestionTables.Service.WriteBlob` | internal/ingestion/service.go:301-336 | the write of the caller's stream, its failures, and writes or commits that fail or take effect with an error, follow the upload steps |
| `IngestionTables.Service.InspectBlob` | internal/ingestion/service.go:290-336 | the inspection checks the caller's own stream against the object, and what follows are the upload steps |
| `IngestionTables.Service.VerifyReplay` | internal/ingestion/service.go:338-350 | the replay checks the caller's own stream against the receipt and is the replay step |
| `IngestionTables.Service.Upload` | internal/ingestion/service.go:239-336 | a whole call over a stream, under any faults, is its upload steps in order; content that does not fail to read counts as readable |
| `IngestionTables.CallIsRun` | internal/ingestion/service.go:239-336 | those steps are a run of the upload model |
| `Delivery.Permanent` | internal/processing/importjob/processor.go:345-360 | publishing a failure decides between giving up and retrying |
| `Delivery.RetryOrGiveUp` | internal/processing/importjob/processor.go:331-343 | the last attempt or an old job gives up, others retry |
| `Delivery.RetryMeans` | internal/processing/importjob/processor.go:331-343 | a retry is asked for exactly while attempts are left and the job is young enough |
| `Delivery.PermanentMeans` | internal/processing/importjob/processor.go:345-360 | the job is given up unless the tables refused the failure for another reason than its state |
| `Delivery.TerminalMeans` | internal/processing/importjob/processor.go:312-329 | what a delivery of a finished operation is told, by its state and failure code |
| `Delivery.PermanentIff` | internal/processing/importjob/processor.go:345-360 | a job is given up exactly when its operation is then terminal, and that fails exactly for an early clock on an open operation |
| `Settlement.RunKeeps` | internal/jobqueue/worker.go:153-293 | in every run of the queue and the import tables side by side, an execution that reported success had it published, one that gave up had its operation settled, one that asked for a retry was not on its last attempt, and an unpublished failure was refused for its instant |
| `Settlement.ReportIsEvents` | internal/jobqueue/worker.go:216-293 | the worker's report is one report event of these runs, or a refused one followed by the acknowledgement of a cancellation |
| `Settlement.SettledSince` | internal/processing/importjob/processor.go:277-360 | between any two states of a run the operation becomes settled exactly when an execution of its job publishes at an instant the rows accept |
| `Settlement.JobEndsOpenIff` | internal/jobqueue/worker.go:153-293 | in every such run a job that ends leaves its operation open exactly when it was open at the start and no execution has published since at an instant the rows accept; the ending is then one of those listed above, and a job that succeeds has its success published |
| `Settlement.LastAttemptSettlesIff` | internal/processing/importjob/processor.go:331-360 | in every run, with any events between the end of the last attempt's execution and its accepted report, the report ends the job however the execution ended, and the operation is then settled exactly when that execution, or a stale one in between, published at an instant the rows accept |
| `Settlement.StrandedForGood` | internal/jobqueue/queue.go:611-662 | an operation left open when its job and all executions of it have ended stays open in every continuation |
| `Stranding.CancelledJobStrandsImport` | internal/jobqueue/queue.go:516-545 | a run from empty tables in which a queued job is cancelled and its import is left open for good |
| `Stranding.PanicStrandsImport` | internal/jobqueue/worker.go:286-293 | a run from empty tables in which the only attempt is leased, started, panics and is reported, and the import is left open for good |
| `EndToEnd.SucceededJobIsImported` | internal/processing/importjob/processor.go:277-289 | when the queue and the import run over the same tables, a job that has succeeded has its success published, and the record tables hold exactly the records of its document, every number in range |
| `EndToEnd.ImportedForGood` | internal/jobqueue/queue.go:406-422 | from then on the job stays succeeded and no event changes a row of the import |
| `Delivery.RedeliveryRepeats` | internal/processing/importjob/processor.go:312-329 | once an operation is terminal every later delivery sees the same result and changes nothing |
| `Delivery.EvidenceAlwaysMatches` | internal/processing/importjob/processor.go:400-403 | in every run, an import that can be processed has its blob and the blob matches its committed metadata |

## Left out

- SQL text, connection handling, isolation anomalies and row locks: each store method is one atomic step; an advisory lock that is not obtained is not a step.
- The S3 blob store: uploads use a write-once map of objects instead; the filesystem store is modelled on its own.
- Filesystem Delete: it removes bytes before the manifest, so manifest-implies-data is stated for runs of Put and Open.
- Hard links in the filesystem protocol are copies by content, since linked files are never written again.
- SHA-256, HMAC, random ids, regular expressions and UTF-8 validity: injective constructors, fresh values and byte predicates.
- Decoding JSON text into tokens and objects, and the canonical JSON form of job payloads and scan coverage.
- Context cancellation inside the JSON validator and the SARIF parser; the readers' context polls are modelled.
- The SARIF document, run, rule and invocation objects above a result, which only copy decoded fields and note unmapped members the same way.
- Goroutines, the heartbeat ticker and polling of the worker: heartbeats are steps between the start and the outcome.
- The decoding of a job's payload into the identity of its operation: a job is bound to the operation it was enqueued for.
- Size limits of an import at the top of 64 bits, where the bounded reader's own count would wrap around.
- Authentication, authorization, catalog, bootstrap, HTTP server, command line, queue metrics.
- Failure titles and details, report format names and analysis context columns of the import tables: written once and never branched on by the modelled steps.
- The analysis-target lookup before a reservation.
- Expiry of idempotency claims: claims are never removed by the modelled code.
- Records.RecordStore.AddScan: an instant before the evidence is reported as its own error although the code returns its general invalid error.
- JobTables.Queue.Enqueue: the job id and the database clock are parameters.
- Uploads.ReceiptsAgree: a Put is one atomic write-once step here, whose object stays; its file operations, and a link that takes effect and reports an error, are the subject of FileStore.
- FileDirectory.Directory.Put: of operations that take effect and report an error only the link is among its faults; the protocol has all of them.
- EndToEnd.SucceededJobIsImported: the two sides share the import tables; that an execution of the import runs under a lease of the job is not part of it.
