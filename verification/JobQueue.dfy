/**
 The lease-fenced job queue. Every queue operation is one database transaction,
 so it is one atomic step over two tables: the jobs and their attempt rows.
 The step functions are the specification; class Queue runs the same statements
 on fields that it updates in place.
 */
module JobQueue {
  import opened Base
  import opened Text

  const MIN_LEASE: int := 1_000_000
  const MAX_LEASE: int := 3_600_000_000
  const MAX_PAYLOAD_BYTES: int := 60 * 1024

  datatype State = Queued | Leased | Running | RetryWait | Succeeded | DeadLetter | Cancelled

  datatype ErrorClass = Retryable | Permanent | WorkerError

  datatype AttemptOutcome = OutSucceeded | OutRetry | OutDeadLetter | OutCancelled | OutLeaseExpired

  datatype Error = Conflict | CancellationRequested | Invalid | LeaseLost | NotFound | NotCancellable | Backend

  /** The stored hash of a fencing token. The constructor is injective, as the hash is taken to be. */
  datatype TokenHash = TokenHash(token: string)

  /** The immutable request; payload is its canonical JSON text. */
  datatype Spec = Spec(
    workspace: string, operation: string, principal: string, capability: string,
    queue: string, kind: string, schemaVersion: int, payload: string, idempotencyKey: string,
    priority: int, availableAt: Option<Time>, maxAttempts: int)

  datatype Job = Job(
    request: Spec, state: State, availableAt: Time, attemptCount: nat,
    leaseOwner: Option<string>, leaseToken: Option<TokenHash>,
    leaseExpiresAt: Option<Time>, heartbeatAt: Option<Time>,
    cancelRequestedAt: Option<Time>,
    lastErrorClass: Option<ErrorClass>, lastErrorCode: Option<string>,
    createdAt: Time, startedAt: Option<Time>, completedAt: Option<Time>)

  datatype Attempt = Attempt(
    owner: string, leasedAt: Time, startedAt: Option<Time>, lastHeartbeatAt: Time,
    finishedAt: Option<Time>, outcome: Option<AttemptOutcome>, safeErrorCode: Option<string>)

  /** Attempt rows are keyed by job and attempt number. */
  type Rows = map<nat, Attempt>

  datatype Store = Store(jobs: map<string, Job>, attempts: map<string, Rows>)

  datatype Outcome<T> = Outcome(store: Store, result: Result<T, Error>)

  datatype Failure = Failure(class_: ErrorClass, code: string)

  function RowsOf(s: Store, id: string): Rows {
    if id in s.attempts then s.attempts[id] else map[]
  }

  predicate Active(state: State) { state == Leased || state == Running }

  predicate Waiting(state: State) { state == Queued || state == RetryWait }

  predicate Terminal(state: State) { state == Succeeded || state == DeadLetter || state == Cancelled }

  /** lease_expires_at > now() */
  predicate Live(job: Job, now: Time) {
    job.leaseExpiresAt.Some? && job.leaseExpiresAt.value > now
  }

  /** lease_expires_at <= now() on an active job */
  predicate LeaseExpired(job: Job, now: Time) {
    Active(job.state) && job.leaseExpiresAt.Some? && job.leaseExpiresAt.value <= now
  }

  predicate Holds(s: Store, ws: string, id: string, token: string) {
    && id in s.jobs
    && s.jobs[id].request.workspace == ws
    && s.jobs[id].leaseToken == Some(TokenHash(token))
  }

  predicate ValidLeaseIdentity(ws: string, id: string, token: string) {
    && ValidQueueId(ws) && ValidQueueId(id)
    && |token| == 58 && token[..6] == "lease_"
  }

  predicate ValidCode(code: string) { ValidDomainName(code, 63) }

  predicate ValidSpec(spec: Spec) {
    && ValidQueueId(spec.workspace)
    && (spec.operation == "" || ValidQueueId(spec.operation))
    && ValidQueueId(spec.principal)
    && ValidCapability(spec.capability)
    && ValidDomainName(spec.queue, 63) && ValidDomainName(spec.kind, 63)
    && spec.schemaVersion > 0
    && ValidIdempotencyKey(spec.idempotencyKey)
    && -1000 <= spec.priority <= 1000
    && 1 <= spec.maxAttempts <= 100
    && 1 <= |spec.payload| <= MAX_PAYLOAD_BYTES
  }

  // ---------------------------------------------------------------------
  // What one step may do to one job row and its attempt rows
  // ---------------------------------------------------------------------

  datatype Change =
    | Granted(owner: string, token: TokenHash, expiresAt: Time)
    | Started
    | Beaten(expiresAt: Time)
    | Finished(to: State)
    | Failing(failure: Failure, retryAt: Time)
    | CancelAsked
    | Recovered(clock: Time, delay: int)

  predicate Enabled(job: Job, c: Change, now: Time) {
    match c
    case Granted(_, _, _) => Waiting(job.state) && job.availableAt <= now && job.cancelRequestedAt.None?
    case Started => job.state == Leased && Live(job, now) && job.cancelRequestedAt.None?
    case Beaten(_) => Active(job.state) && Live(job, now) && job.cancelRequestedAt.None?
    case Finished(to) =>
      && Live(job, now)
      && ((to == Succeeded && job.state == Running && job.cancelRequestedAt.None?)
          || (to == Cancelled && Active(job.state)))
    case Failing(_, _) => job.state == Running && Live(job, now)
    case CancelAsked => !Terminal(job.state)
    case Recovered(_, _) => LeaseExpired(job, now)
  }

  function FailTarget(job: Job, failure: Failure): State {
    if job.cancelRequestedAt.Some? then Cancelled
    else if failure.class_ == Retryable && job.attemptCount < job.request.maxAttempts then RetryWait
    else DeadLetter
  }

  function RecoverTarget(job: Job): State {
    if job.cancelRequestedAt.Some? then Cancelled
    else if job.attemptCount >= job.request.maxAttempts then DeadLetter
    else if job.state == Running then RetryWait
    else Queued
  }

  function Released(job: Job): Job {
    job.(leaseOwner := None, leaseToken := None, leaseExpiresAt := None, heartbeatAt := None)
  }

  function ChangeJob(job: Job, c: Change, now: Time): Job {
    match c
    case Granted(owner, token, expiresAt) =>
      job.(state := Leased, attemptCount := job.attemptCount + 1, leaseOwner := Some(owner),
           leaseToken := Some(token), leaseExpiresAt := Some(expiresAt), heartbeatAt := Some(now))
    case Started => job.(state := Running, startedAt := Coalesce(job.startedAt, now))
    case Beaten(expiresAt) => job.(heartbeatAt := Some(now), leaseExpiresAt := Some(expiresAt))
    case Finished(to) => Released(job).(state := to, completedAt := Some(now))
    case Failing(failure, retryAt) =>
      var to := FailTarget(job, failure);
      Released(job).(
      state := to,
      availableAt := if to == RetryWait then retryAt else job.availableAt,
      lastErrorClass := if to == Cancelled then job.lastErrorClass else Some(failure.class_),
      lastErrorCode := if to == Cancelled then job.lastErrorCode else Some(failure.code),
      completedAt := if to == RetryWait then None else Some(now))
    case CancelAsked =>
      job.(cancelRequestedAt := Coalesce(job.cancelRequestedAt, now),
           state := if Waiting(job.state) then Cancelled else job.state,
           completedAt := if Waiting(job.state) then Some(now) else job.completedAt)
    case Recovered(clock, delay) =>
      var to := RecoverTarget(job);
      Released(job).(
      state := to,
      availableAt := if to == RetryWait then clock + delay else clock,
      lastErrorClass := if to == Cancelled then job.lastErrorClass
      else if to == DeadLetter then Some(WorkerError) else Some(Retryable),
      lastErrorCode := if to == Cancelled then job.lastErrorCode else Some("lease_expired"),
      completedAt := if Terminal(to) then Some(now) else None)
  }

  function FinishRow(rows: Rows, n: nat, now: Time, outcome: AttemptOutcome, code: Option<string>): Rows {
    if n in rows then rows[n := rows[n].(finishedAt := Some(now), outcome := Some(outcome), safeErrorCode := code)]
    else rows
  }

  /** The attempt outcome written when an active job moves to the given state. */
  function OutcomeOf(to: State, expired: bool): AttemptOutcome {
    match to
    case Succeeded => OutSucceeded
    case DeadLetter => OutDeadLetter
    case Cancelled => OutCancelled
    case _ => if expired then OutLeaseExpired else OutRetry
  }

  function ChangeRows(job: Job, rows: Rows, c: Change, now: Time): Rows {
    var n := job.attemptCount;
    match c
    case Granted(owner, _, _) => rows[n + 1 := Attempt(owner, now, None, now, None, None, None)]
    case Started => if n in rows then rows[n := rows[n].(startedAt := Coalesce(rows[n].startedAt, now))] else rows
    case Beaten(_) => if n in rows then rows[n := rows[n].(lastHeartbeatAt := now)] else rows
    case Finished(to) =>
      FinishRow(rows, n, now, OutcomeOf(to, false), if n in rows then rows[n].safeErrorCode else None)
    case Failing(failure, _) =>
      var to := FailTarget(job, failure);
      FinishRow(rows, n, now, OutcomeOf(to, false), if to == Cancelled then None else Some(failure.code))
    case CancelAsked => rows
    case Recovered(_, _) =>
      var to := RecoverTarget(job);
      FinishRow(rows, n, now, OutcomeOf(to, true), if to == Cancelled then None else Some("lease_expired"))
  }

  function Apply(s: Store, id: string, c: Change, now: Time): Store
    requires id in s.jobs
  {
    Store(s.jobs[id := ChangeJob(s.jobs[id], c, now)],
          s.attempts[id := ChangeRows(s.jobs[id], RowsOf(s, id), c, now)])
  }

  // ---------------------------------------------------------------------
  // The queue operations
  // ---------------------------------------------------------------------

  predicate SameKey(a: Spec, b: Spec) {
    a.workspace == b.workspace && a.queue == b.queue && a.kind == b.kind && a.idempotencyKey == b.idempotencyKey
  }

  /** The request fingerprint covers every field except the idempotency key. */
  function Fingerprint(spec: Spec): Spec {
    spec.(idempotencyKey := "")
  }

  function NewJob(spec: Spec, clock: Time): Job {
    Job(spec, Queued, Coalesce(spec.availableAt, clock).value, 0, None, None, None, None, None, None, None,
        clock, None, None)
  }

  /** The unique constraint on (workspace, queue, kind, idempotency key). */
  ghost predicate UniqueKeys(s: Store) {
    forall a, b :: a in s.jobs && b in s.jobs && SameKey(s.jobs[a].request, s.jobs[b].request) ==> a == b
  }

  /** Result of an enqueue: the job's id and whether this call created it. */
  ghost function EnqueueStep(s: Store, id: string, spec: Spec, clock: Time): Outcome<(string, bool)> {
    if !ValidSpec(spec) then Outcome(s, Err(Invalid))
    else if !InRange(spec.schemaVersion) then Outcome(s, Err(Backend))
    else if exists e :: e in s.jobs && SameKey(s.jobs[e].request, spec) then
      var e :| e in s.jobs && SameKey(s.jobs[e].request, spec);
      if Fingerprint(s.jobs[e].request) == Fingerprint(spec) then Outcome(s, Ok((e, false)))
      else Outcome(s, Err(Conflict))
    else if id in s.jobs then Outcome(s, Err(Backend))
    else Outcome(Store(s.jobs[id := NewJob(spec, clock)], s.attempts[id := map[]]), Ok((id, true)))
  }

  /** The active jobs of one workspace in one queue. */
  function ActiveIn(s: Store, ws: string, queue: string): set<string> {
    set id | id in s.jobs && s.jobs[id].request.workspace == ws && s.jobs[id].request.queue == queue
             && Active(s.jobs[id].state)
  }

  predicate Eligible(s: Store, id: string, queue: string, cap: int, now: Time) {
    && id in s.jobs
    && s.jobs[id].request.queue == queue
    && Waiting(s.jobs[id].state)
    && s.jobs[id].availableAt <= now
    && s.jobs[id].cancelRequestedAt.None?
    && |ActiveIn(s, s.jobs[id].request.workspace, queue)| < cap
  }

  /** The acquisition order: fewest active jobs of the workspace, then priority, availability and age. */
  predicate NotAfter(s: Store, queue: string, a: string, b: string)
    requires a in s.jobs && b in s.jobs
  {
    var ja, jb := s.jobs[a], s.jobs[b];
    var na, nb := |ActiveIn(s, ja.request.workspace, queue)|, |ActiveIn(s, jb.request.workspace, queue)|;
    || na < nb
    || (na == nb
        && (|| ja.request.priority > jb.request.priority
            || (ja.request.priority == jb.request.priority
                && (|| ja.availableAt < jb.availableAt
                    || (ja.availableAt == jb.availableAt && ja.createdAt <= jb.createdAt)))))
  }

  /** A row the acquisition query may return: ties in the order are broken arbitrarily. */
  ghost predicate Candidate(s: Store, id: string, queue: string, cap: int, now: Time) {
    && Eligible(s, id, queue, cap, now)
    && forall other :: Eligible(s, other, queue, cap, now) ==> NotAfter(s, queue, id, other)
  }

  predicate ValidAcquire(queue: string, owner: string, lease: int, cap: int) {
    && ValidDomainName(queue, 63)
    && Trimmed(owner) && owner != "" && NoNul(owner) && |owner| <= 128
    && MIN_LEASE <= lease <= MAX_LEASE
    && 1 <= cap <= 100
  }

  function ClassifyLeaseMiss(s: Store, ws: string, id: string, token: string, now: Time): Error {
    if Holds(s, ws, id, token) && Active(s.jobs[id].state) && Live(s.jobs[id], now)
       && s.jobs[id].cancelRequestedAt.Some?
    then CancellationRequested else LeaseLost
  }

  function StartStep(s: Store, ws: string, id: string, token: string, now: Time): Outcome<()> {
    if !ValidLeaseIdentity(ws, id, token) then Outcome(s, Err(Invalid))
    else if Holds(s, ws, id, token) && Enabled(s.jobs[id], Started, now) then
      Outcome(Apply(s, id, Started, now), Ok(()))
    else Outcome(s, Err(ClassifyLeaseMiss(s, ws, id, token, now)))
  }

  function HeartbeatStep(s: Store, ws: string, id: string, token: string, lease: int, now: Time): Outcome<()> {
    if !(MIN_LEASE <= lease <= MAX_LEASE) || !ValidLeaseIdentity(ws, id, token) then Outcome(s, Err(Invalid))
    else if Holds(s, ws, id, token) && Enabled(s.jobs[id], Beaten(now + lease), now) then
      Outcome(Apply(s, id, Beaten(now + lease), now), Ok(()))
    else Outcome(s, Err(ClassifyLeaseMiss(s, ws, id, token, now)))
  }

  /** Succeed and CancelActive share one completion statement. */
  function FinishStep(s: Store, ws: string, id: string, token: string, to: State, now: Time): Outcome<()> {
    if (to != Succeeded && to != Cancelled) || !ValidLeaseIdentity(ws, id, token) then Outcome(s, Err(Invalid))
    else if Holds(s, ws, id, token) && Enabled(s.jobs[id], Finished(to), now) then
      Outcome(Apply(s, id, Finished(to), now), Ok(()))
    else Outcome(s, Err(if to == Succeeded then ClassifyLeaseMiss(s, ws, id, token, now) else LeaseLost))
  }

  function FailStep(s: Store, ws: string, id: string, token: string, failure: Failure, retryAt: Option<Time>,
                    now: Time): Outcome<State>
  {
    if failure.class_ == WorkerError || !ValidCode(failure.code) || !ValidLeaseIdentity(ws, id, token) then
      Outcome(s, Err(Invalid))
    else if !Holds(s, ws, id, token) || s.jobs[id].state != Running || !Live(s.jobs[id], now) then
      Outcome(s, Err(LeaseLost))
    else
      var to := FailTarget(s.jobs[id], failure);
      if to == RetryWait && retryAt.None? then Outcome(s, Err(Invalid))
      else
        var c := Failing(failure, Coalesce(retryAt, 0).value);
        Outcome(Apply(s, id, c, now), Ok(to))
  }

  function RequestCancellationStep(s: Store, ws: string, id: string, now: Time): Outcome<State> {
    if !ValidQueueId(ws) || !ValidQueueId(id) then Outcome(s, Err(Invalid))
    else if id !in s.jobs || s.jobs[id].request.workspace != ws then Outcome(s, Err(NotFound))
    else if Terminal(s.jobs[id].state) then Outcome(s, Err(NotCancellable))
    else
      var s' := Apply(s, id, CancelAsked, now);
      Outcome(s', Ok(s'.jobs[id].state))
  }
}
