/**
 What the end of a job says about the operation it was enqueued for. The queue
 and the import tables run side by side; the executions of the job connect
 them, each under the fencing token of its lease.
 */
module Settlement {
  import opened Base
  import opened Ingestion
  import Lifecycle
  import opened Delivery
  import JobQueue
  import JobRecovery
  import JobRuns
  import JobLedger
  import JobFencing
  import Worker

  /** The job, the operation it was enqueued for, the age at which the processor gives up, and the worker's own. */
  datatype Binding = Binding(job: string, id: Identity, maximumAge: int, config: Worker.Config)

  /** How an execution ends; `at` is the instant it would publish. */
  datatype Ending =
    | Complete(scans: nat, at: Time)
    | Fail(code: string, at: Time)
    | TryLater(code: string, now: Time, at: Time)
    | SeesTerminal
    | Interrupted
    | Unreachable
    | Panics

  /** What an execution leaves for the worker to report. */
  datatype Verdict =
    | Told(outcome: Outcome)
    | Unpublished(at: Time)  // the tables refused the failure at this instant
    | Unreached              // the tables could not be reached to publish the failure
    | Crashed

  /** The queue, the import tables, and as history the verdict of each lease of the job. */
  datatype World = World(queue: JobRuns.World, store: Store, verdicts: map<JobQueue.TokenHash, Verdict>)

  datatype Event =
    | Queue(e: JobRuns.Event)
    | Elsewhere(command: Lifecycle.Command)
    | Handle(lease: JobQueue.TokenHash, ending: Ending)
    | Report(token: string, clock: int, e: JobRuns.Event)
    | AckCancel(token: string, e: JobRuns.Event)
    | Unsupported(token: string, e: JobRuns.Event)

  // ---------------------------------------------------------------------
  // Steps
  // ---------------------------------------------------------------------

  function FailWith(s: Store, id: Identity, code: string, at: Time): (Store, Verdict) {
    var r := PermanentStep(s, id, code, at);
    (r.0, if r.1.Retry? then Unpublished(at) else Told(r.1))
  }

  /** The last transaction of an execution; none when the transaction does not end it. */
  function HandleStep(s: Store, id: Identity, ending: Ending, a: Attempt): Option<(Store, Verdict)> {
    match ending
    case Complete(scans, at) =>
      var r := CompleteProcessingStep(s, id, scans, at);
      if r.1.Ok? then Some((r.0, Told(Done))) else None
    case Fail(code, at) => Some(FailWith(s, id, code, at))
    case TryLater(code, _, at) => Some(if LastAttempt(a) then FailWith(s, id, code, at) else (s, Told(Retry(code))))
    case SeesTerminal =>
      if OperationKey(id) !in s.operations then None
      else
        var op := s.operations[OperationKey(id)];
        var o := TerminalOutcome(op.state, if op.failureCode.Some? then op.failureCode.value else "");
        if o.Some? then Some((s, Told(o.value))) else None
    case Interrupted => Some((s, Told(Stop)))
    case Unreachable => Some((s, Unreached))
    case Panics => Some((s, Crashed))
  }

  /** The outcome the worker sees. */
  function OutcomeOf(v: Verdict): Outcome {
    match v
    case Told(outcome) => outcome
    case Unpublished(_) => Retry("state-persistence-failed")
    case Unreached => Retry("state-persistence-failed")
    case Crashed => Retry("handler_panic")
  }

  /** Ending by a retry is the processor's own retry step. */
  lemma TryLaterIsRetry(s: Store, id: Identity, code: string, a: Attempt, at: Time)
    ensures var r := HandleStep(s, id, TryLater(code, a.now, at), a);
            r.Some? && (r.value.0, OutcomeOf(r.value.1)) == RetryStep(s, id, code, a, at)
  {
  }

  const NO_HANDLER: JobQueue.Failure := JobQueue.Failure(JobQueue.Permanent, "unsupported_job_kind")

  /** The same as a result of the worker's handler. */
  function ResultOf(v: Verdict): Worker.HandlerResult {
    if v.Crashed? then Worker.Panicked
    else
      match OutcomeOf(v)
      case Done => Worker.Returned(Worker.HandlerSucceeded, "", 0)
      case Retry(code) => Worker.Returned(Worker.HandlerRetryable, code, 0)
      case GiveUp(code) => Worker.Returned(Worker.HandlerPermanent, code, 0)
      case Stop => Worker.Returned(Worker.HandlerCancelled, "", 0)
  }

  function OpOf(ws: string, job: string, token: string, call: Worker.QueueCall): JobRuns.Op {
    match call
    case EndAs(to) => JobRuns.FinishOp(ws, job, token, to)
    case FailAs(failure, retryAt) => JobRuns.FailOp(ws, job, token, failure, retryAt)
  }

  function CallOf(op: JobRuns.Op): Option<Worker.QueueCall> {
    match op
    case FinishOp(_, _, _, to) => Some(Worker.EndAs(to))
    case FailOp(_, _, _, failure, retryAt) => Some(Worker.FailAs(failure, retryAt))
    case _ => None
  }

  /** The queue call the worker makes for a verdict at one reading of its clock. */
  predicate Reports(b: Binding, v: Verdict, row: JobQueue.Job, token: string, clock: int, op: JobRuns.Op) {
    && CallOf(op).Some? && op == OpOf(row.request.workspace, b.job, token, CallOf(op).value)
    && Worker.Calls(b.config, row.attemptCount, row.createdAt, ResultOf(v), clock, CallOf(op).value)
  }

  /** Calls that report on this job are made by its own executions. */
  predicate NoReport(job: string, op: JobRuns.Op) {
    && (op.FinishOp? ==> op.id != job)
    && (op.FailOp? ==> op.id != job)
  }

  /** Only executions of its job publish the end of an operation. */
  predicate AllowedElsewhere(id: Identity, command: Lifecycle.Command) {
    && (command.CompleteProcessing? ==> OperationKey(command.id) != OperationKey(id))
    && (command.FailProcessing? ==> OperationKey(command.id) != OperationKey(id))
  }

  predicate HasJob(b: Binding, w: World) { b.job in w.queue.store.jobs }

  function JobOf(b: Binding, w: World): JobQueue.Job
    requires HasJob(b, w)
  {
    w.queue.store.jobs[b.job]
  }

  predicate LeaseOf(b: Binding, w: World, lease: JobQueue.TokenHash) {
    HasJob(b, w) && lease in w.queue.grants && w.queue.grants[lease].job == b.job
  }

  /** The job as the execution under one lease sees it. */
  function AttemptOf(b: Binding, w: World, lease: JobQueue.TokenHash, now: Time): Attempt
    requires LeaseOf(b, w, lease)
  {
    Attempt(w.queue.grants[lease].attempt, JobOf(b, w).request.maxAttempts, JobOf(b, w).createdAt, now, b.maximumAge)
  }

  function NowOf(ending: Ending): Time { if ending.TryLater? then ending.now else 0 }

  ghost predicate QueueNext(w: World, e: JobRuns.Event, w': World) {
    JobRuns.Next(w.queue, e, w'.queue) && w'.store == w.store && w'.verdicts == w.verdicts
  }

  ghost predicate Next(b: Binding, w: World, e: Event, w': World) {
    match e
    case Queue(q) => NoReport(b.job, q.op) && QueueNext(w, q, w')
    case Elsewhere(command) =>
      AllowedElsewhere(b.id, command) && w' == w.(store := Lifecycle.Next(w.store, command))
    case Handle(lease, ending) =>
      && LeaseOf(b, w, lease) && lease !in w.verdicts && CodeOk(ending)
      && var r := HandleStep(w.store, b.id, ending, AttemptOf(b, w, lease, NowOf(ending)));
         r.Some? && w' == w.(store := r.value.0, verdicts := w.verdicts[lease := r.value.1])
    case Report(token, clock, q) =>
      && HasJob(b, w) && JobQueue.TokenHash(token) in w.verdicts
      && Reports(b, w.verdicts[JobQueue.TokenHash(token)], JobOf(b, w), token, clock, q.op)
      && QueueNext(w, q, w')
    case AckCancel(token, q) =>
      && HasJob(b, w) && JobOf(b, w).cancelRequestedAt.Some?
      && q.op == JobRuns.FinishOp(JobOf(b, w).request.workspace, b.job, token, JobQueue.Cancelled)
      && QueueNext(w, q, w')
    case Unsupported(token, q) =>
      && HasJob(b, w) && q.op == JobRuns.FailOp(JobOf(b, w).request.workspace, b.job, token, NO_HANDLER, None)
      && QueueNext(w, q, w')
  }

  predicate CodeOk(ending: Ending) {
    ending.Fail? || ending.TryLater? ==> ValidFailureCode(ending.code)
  }

  function WithJobs(w: World, jobs: JobQueue.Store): World { w.(queue := w.queue.(store := jobs)) }

  /** The event of a call, answered as the tables answer it. */
  function CallEvent(s: JobQueue.Store, ws: string, job: string, token: string, call: Worker.QueueCall, at: Time)
    : JobRuns.Event
  {
    match call
    case EndAs(to) =>
      JobRuns.Event(OpOf(ws, job, token, call), at,
                    JobRuns.ReplyOf(JobQueue.FinishStep(s, ws, job, token, to, at).result))
    case FailAs(failure, retryAt) =>
      JobRuns.Event(OpOf(ws, job, token, call), at,
                    JobRuns.ReplyState(JobQueue.FailStep(s, ws, job, token, failure, retryAt, at).result))
  }

  lemma CallIsNext(w: JobRuns.World, ws: string, job: string, token: string, call: Worker.QueueCall, at: Time)
    ensures JobRuns.Next(w, CallEvent(w.store, ws, job, token, call, at),
                         w.(store := Worker.CallStep(w.store, ws, job, token, call, at).0))
  {
  }

  lemma RefusedSuccess(s: JobQueue.Store, ws: string, job: string, token: string, at: Time)
    requires Worker.CallStep(s, ws, job, token, Worker.EndAs(JobQueue.Succeeded), at).1
             == Worker.Failed(JobQueue.CancellationRequested)
    ensures Worker.CallStep(s, ws, job, token, Worker.EndAs(JobQueue.Succeeded), at).0 == s
    ensures job in s.jobs && s.jobs[job].cancelRequestedAt.Some?
  {
  }

  lemma ReportIsEvent(b: Binding, w: World, token: string, clock: int, call: Worker.QueueCall, at: Time)
    requires HasJob(b, w) && JobQueue.TokenHash(token) in w.verdicts
    requires Worker.Calls(b.config, JobOf(b, w).attemptCount, JobOf(b, w).createdAt,
                          ResultOf(w.verdicts[JobQueue.TokenHash(token)]), clock, call)
    ensures var q, ws := w.queue.store, JobOf(b, w).request.workspace;
            Next(b, w, Report(token, clock, CallEvent(q, ws, b.job, token, call, at)),
                 WithJobs(w, Worker.CallStep(q, ws, b.job, token, call, at).0))
  {
    CallIsNext(w.queue, JobOf(b, w).request.workspace, b.job, token, call, at);
  }

  lemma AckIsEvent(b: Binding, w: World, token: string, at: Time)
    requires HasJob(b, w) && JobOf(b, w).cancelRequestedAt.Some?
    ensures var q, ws, call := w.queue.store, JobOf(b, w).request.workspace, Worker.EndAs(JobQueue.Cancelled);
            Next(b, w, AckCancel(token, CallEvent(q, ws, b.job, token, call, at)),
                 WithJobs(w, Worker.CallStep(q, ws, b.job, token, call, at).0))
  {
    CallIsNext(w.queue, JobOf(b, w).request.workspace, b.job, token, Worker.EndAs(JobQueue.Cancelled), at);
  }

  /**
   What the worker's report does is one report event, or a refused one
   followed by the acknowledgement of a cancellation.
   */
  lemma ReportIsEvents(b: Binding, w: World, token: string, clock: int, call: Worker.QueueCall, at: Time)
    requires HasJob(b, w) && JobQueue.TokenHash(token) in w.verdicts
    requires Worker.Calls(b.config, JobOf(b, w).attemptCount, JobOf(b, w).createdAt,
                          ResultOf(w.verdicts[JobQueue.TokenHash(token)]), clock, call)
    ensures var q, ws := w.queue.store, JobOf(b, w).request.workspace;
            var after := WithJobs(w, Worker.ReportStep(q, ws, b.job, token, call, at).0);
            var first := Report(token, clock, CallEvent(q, ws, b.job, token, call, at));
            var second := AckCancel(token, CallEvent(q, ws, b.job, token, Worker.EndAs(JobQueue.Cancelled), at));
            Next(b, w, first, after) || (Next(b, w, first, w) && Next(b, w, second, after))
  {
    var q, ws := w.queue.store, JobOf(b, w).request.workspace;
    ReportIsEvent(b, w, token, clock, call, at);
    if Worker.ReportStep(q, ws, b.job, token, call, at) != Worker.CallStep(q, ws, b.job, token, call, at) {
      RefusedSuccess(q, ws, b.job, token, at);
      assert WithJobs(w, q) == w;
      AckIsEvent(b, w, token, at);
    }
  }

  // ---------------------------------------------------------------------
  // What every event keeps
  // ---------------------------------------------------------------------

  /** The end of the operation cannot be written at this instant. */
  predicate Refused(s: Store, id: Identity, at: Time)
    requires Found(s, id)
  {
    at == 0 || !Lifecycle.Writable(s, id, at)
  }

  /** Success is published. */
  predicate Published(s: Store, id: Identity)
    requires Found(s, id)
  {
    s.operations[OperationKey(id)].state == OpSucceeded
  }

  predicate VerdictOk(b: Binding, w: World, lease: JobQueue.TokenHash)
    requires Found(w.store, b.id) && lease in w.verdicts
  {
    && LeaseOf(b, w, lease)
    && match w.verdicts[lease]
       case Told(outcome) =>
         && (outcome.Done? ==> Published(w.store, b.id))
         && (outcome.GiveUp? ==> Settled(w.store, b.id))
         && (outcome.Retry? ==> w.queue.grants[lease].attempt < JobOf(b, w).request.maxAttempts)
       case Unpublished(at) => Settled(w.store, b.id) || Refused(w.store, b.id, at)
       case _ => true
  }

  ghost predicate Kept(b: Binding, w: World) {
    && HasJob(b, w) && JobOf(b, w).request.maxAttempts > 0
    && Found(w.store, b.id)
    && (forall lease :: lease in w.verdicts ==> VerdictOk(b, w, lease))
  }

  ghost predicate Inv(b: Binding, w: World) {
    Lifecycle.Reached(w.store) && JobFencing.GrantInv(w.queue) && Kept(b, w)
  }

  lemma RefusedStays(s: Store, u: Store, id: Identity, at: Time)
    requires Found(s, id) && Lifecycle.RowsStable(s, u, id)
    ensures Settled(s, id) ==> Settled(u, id)
    ensures Refused(s, id, at) ==> Refused(u, id, at)
  {
    if at != 0 && Refused(s, id, at) {
      Lifecycle.BehindStays(s, u, id, at);
    }
  }

  /** The lifecycle transaction an event is, if it is one. */
  function CommandOf(b: Binding, w: World, e: Event): Option<Lifecycle.Command> {
    match e
    case Elsewhere(command) => Some(command)
    case Handle(lease, ending) =>
      (match ending
       case Complete(scans, at) => Some(Lifecycle.CompleteProcessing(b.id, scans, at))
       case Fail(code, at) => Some(Lifecycle.FailProcessing(b.id, code, at))
       case TryLater(code, now, at) =>
         if LeaseOf(b, w, lease) && LastAttempt(AttemptOf(b, w, lease, now))
         then Some(Lifecycle.FailProcessing(b.id, code, at)) else None
       case _ => None)
    case _ => None
  }

  lemma StoreCommand(b: Binding, w: World, e: Event, w': World)
    requires Next(b, w, e, w')
    ensures var command := CommandOf(b, w, e);
            w'.store == if command.Some? then Lifecycle.Next(w.store, command.value) else w.store
  {
    if e.Handle? {
      HandleCommand(w.store, b.id, e.ending, AttemptOf(b, w, e.lease, NowOf(e.ending)));
    }
  }

  lemma HandleCommand(s: Store, id: Identity, ending: Ending, a: Attempt)
    requires HandleStep(s, id, ending, a).Some?
    ensures var u := HandleStep(s, id, ending, a).value.0;
            match ending
            case Complete(scans, at) => u == Lifecycle.Next(s, Lifecycle.CompleteProcessing(id, scans, at))
            case Fail(code, at) => u == Lifecycle.Next(s, Lifecycle.FailProcessing(id, code, at))
            case TryLater(code, _, at) =>
              u == if LastAttempt(a) then Lifecycle.Next(s, Lifecycle.FailProcessing(id, code, at)) else s
            case _ => u == s
  {
  }

  lemma StoreMoves(b: Binding, s: Store, u: Store, command: Option<Lifecycle.Command>)
    requires Lifecycle.Reached(s) && Found(s, b.id)
    requires u == if command.Some? then Lifecycle.Next(s, command.value) else s
    ensures Lifecycle.Reached(u) && Lifecycle.RowsStable(s, u, b.id)
  {
    if command.Some? {
      Lifecycle.ReachedGoesOn(s, command.value);
      Lifecycle.ReachedStable(s, command.value);
      Lifecycle.StableRows(s, u, b.id);
    }
  }

  /** A row keeps its request. */
  lemma RequestStays(w: JobRuns.World, e: JobRuns.Event, w': JobRuns.World, job: string)
    requires JobRuns.Next(w, e, w') && job in w.store.jobs
    ensures job in w'.store.jobs && w'.store.jobs[job].request == w.store.jobs[job].request
  {
    JobRuns.NextRow(w, e, w', job);
  }

  lemma QueueMoves(b: Binding, w: World, e: JobRuns.Event, w': World)
    requires JobFencing.GrantInv(w.queue) && Kept(b, w) && QueueNext(w, e, w')
    ensures JobFencing.GrantInv(w'.queue) && Kept(b, w')
  {
    JobFencing.NextKeepsGrants(w.queue, e, w'.queue);
    RequestStays(w.queue, e, w'.queue, b.job);
    forall lease | lease in w'.verdicts ensures VerdictOk(b, w', lease) {
      assert VerdictOk(b, w, lease);
    }
  }

  lemma StoreKeepsVerdicts(b: Binding, w: World, u: Store)
    requires Kept(b, w) && Lifecycle.RowsStable(w.store, u, b.id)
    ensures Kept(b, w.(store := u))
  {
    forall lease | lease in w.verdicts ensures VerdictOk(b, w.(store := u), lease) {
      assert VerdictOk(b, w, lease);
      if w.verdicts[lease].Unpublished? {
        RefusedStays(w.store, u, b.id, w.verdicts[lease].at);
      }
    }
  }

  /** A published failure ends the operation, and one that is not published was refused for its instant. */
  lemma FailWithOk(s: Store, id: Identity, code: string, at: Time)
    requires Lifecycle.RowsOk(s, id) && ValidIdentity(id) && ValidFailureCode(code)
    ensures var r := FailWith(s, id, code, at);
            && Found(r.0, id)
            && (Settled(r.0, id) <==> Settled(s, id) || !Refused(s, id, at))
            && (if r.1.Told? then r.1.outcome.GiveUp? && Settled(r.0, id)
                else r.1 == Unpublished(at) && Refused(r.0, id, at))
  {
    if at != 0 {
      PermanentIff(s, id, code, at);
    }
  }

  lemma HandledOk(s: Store, id: Identity, ending: Ending, a: Attempt)
    requires Lifecycle.RowsOk(s, id) && ValidIdentity(id) && CodeOk(ending) && HandleStep(s, id, ending, a).Some?
    requires a.maximum > 0
    ensures var (u, v) := HandleStep(s, id, ending, a).value;
            && Found(u, id)
            && match v
               case Told(outcome) =>
                 && (outcome.Done? ==> Published(u, id))
                 && (outcome.GiveUp? ==> Settled(u, id))
                 && (outcome.Retry? ==> a.count < a.maximum)
               case Unpublished(at) => Refused(u, id, at)
               case _ => true
  {
    match ending
    case Fail(code, at) => FailWithOk(s, id, code, at);
    case TryLater(code, _, at) => FailWithOk(s, id, code, at);
    case _ =>
  }

  lemma HandleKeeps(b: Binding, w: World, lease: JobQueue.TokenHash, ending: Ending, w': World)
    requires Kept(b, w) && Lifecycle.RowsOk(w.store, b.id) && ValidIdentity(b.id)
    requires Next(b, w, Handle(lease, ending), w') && Lifecycle.RowsStable(w.store, w'.store, b.id)
    ensures Kept(b, w')
  {
    HandledOk(w.store, b.id, ending, AttemptOf(b, w, lease, NowOf(ending)));
    StoreKeepsVerdicts(b, w, w'.store);
    forall other | other in w'.verdicts ensures VerdictOk(b, w', other) {
      if other != lease {
        assert VerdictOk(b, w.(store := w'.store), other);
      }
    }
  }

  lemma NextKept(b: Binding, w: World, e: Event, w': World)
    requires Kept(b, w) && JobFencing.GrantInv(w.queue) && Lifecycle.RowsOk(w.store, b.id) && ValidIdentity(b.id)
    requires Next(b, w, e, w') && Lifecycle.RowsStable(w.store, w'.store, b.id)
    ensures Kept(b, w') && JobFencing.GrantInv(w'.queue)
  {
    match e
    case Elsewhere(_) => StoreKeepsVerdicts(b, w, w'.store);
    case Handle(lease, ending) => HandleKeeps(b, w, lease, ending, w');
    case _ => QueueMoves(b, w, e.e, w');
  }

  lemma NextKeeps(b: Binding, w: World, e: Event, w': World)
    requires Inv(b, w) && ValidIdentity(b.id) && Next(b, w, e, w')
    ensures Inv(b, w') && Lifecycle.RowsStable(w.store, w'.store, b.id)
  {
    StoreCommand(b, w, e, w');
    StoreMoves(b, w.store, w'.store, CommandOf(b, w, e));
    Lifecycle.ReachedRows(w.store, b.id);
    NextKept(b, w, e, w');
  }

  // ---------------------------------------------------------------------
  // The end of the job
  // ---------------------------------------------------------------------

  predicate Ends(b: Binding, w: World, w': World) {
    HasJob(b, w) && HasJob(b, w') && !JobQueue.Terminal(JobOf(b, w).state) && JobQueue.Terminal(JobOf(b, w').state)
  }

  /**
   The ways a job can end without its operation: cancelled, its last lease
   expired, no handler, or a report of an execution that panicked, was
   interrupted, could not publish its failure because the clock was behind or
   the tables out of reach, or asked for a retry of a job the worker takes as
   too old or under a code the queue does not take.
   */
  predicate OpenEnding(b: Binding, w: World, e: Event)
    requires HasJob(b, w) && Found(w.store, b.id)
  {
    var job := JobOf(b, w);
    match e
    case Queue(q) =>
      || (q.op.RequestCancellationOp? && q.op.id == b.job && JobQueue.Waiting(job.state))
      || (q.op.RecoverOp? && b.job in q.op.batch
          && (job.cancelRequestedAt.Some? || job.attemptCount >= job.request.maxAttempts))
    case Report(token, clock, _) =>
      JobQueue.TokenHash(token) in w.verdicts
      && (match w.verdicts[JobQueue.TokenHash(token)]
          case Told(outcome) =>
            || outcome.Stop?
            || (outcome.Retry?
                && (|| job.cancelRequestedAt.Some? || !JobQueue.ValidCode(outcome.code)
                    || Worker.TooOld(b.config, clock, 1000 * job.createdAt)))
          case Unpublished(at) => Refused(w.store, b.id, at)
          case _ => true)
    case AckCancel(_, _) => true
    case Unsupported(_, _) => true
    case _ => false
  }

  lemma FailEffect(w: JobRuns.World, e: JobRuns.Event, w': JobRuns.World, job: string)
    requires JobRuns.Next(w, e, w') && e.op.FailOp? && e.op.id == job && job in w.store.jobs && job in w'.store.jobs
    requires w'.store.jobs[job].state != w.store.jobs[job].state
    ensures JobQueue.Holds(w.store, e.op.ws, job, e.op.token)
    ensures w'.store.jobs[job].state == JobQueue.FailTarget(w.store.jobs[job], e.op.failure)
  {
  }

  lemma FinishEffect(w: JobRuns.World, e: JobRuns.Event, w': JobRuns.World, job: string)
    requires JobRuns.Next(w, e, w') && e.op.FinishOp? && e.op.id == job && job in w.store.jobs && job in w'.store.jobs
    requires w'.store.jobs[job].state != w.store.jobs[job].state
    ensures w'.store.jobs[job].state == e.op.to
  {
  }

  lemma ChangedEffect(w: JobRuns.World, e: JobRuns.Event, w': JobRuns.World, job: string)
    requires JobRuns.Next(w, e, w') && JobRuns.EffectOf(e).Changed? && NoReport(job, e.op) && job in w.store.jobs
    requires job in w'.store.jobs && JobQueue.Terminal(w'.store.jobs[job].state)
    requires !JobQueue.Terminal(w.store.jobs[job].state)
    ensures e.op.RequestCancellationOp? && e.op.id == job && JobQueue.Waiting(w.store.jobs[job].state)
    ensures w'.store.jobs[job].state == JobQueue.Cancelled
  {
    JobRuns.NextChanged(w, e, w');
    JobRuns.ApplyRow(w.store, JobRuns.EffectOf(e).id, JobRuns.EffectOf(e).change, e.now, job);
  }

  lemma BatchedEffect(w: JobRuns.World, e: JobRuns.Event, w': JobRuns.World, job: string)
    requires JobRuns.Next(w, e, w') && JobRuns.EffectOf(e).Batched? && job in w.store.jobs
    requires job in w'.store.jobs && JobQueue.Terminal(w'.store.jobs[job].state)
    requires !JobQueue.Terminal(w.store.jobs[job].state)
    ensures e.op.RecoverOp? && job in e.op.batch && w'.store.jobs[job].state != JobQueue.Succeeded
    ensures var row := w.store.jobs[job];
            row.cancelRequestedAt.Some? || row.attemptCount >= row.request.maxAttempts
  {
    JobRuns.NextBatched(w, e, w');
    RecoveredState(w.store, e.op.queue, e.op.limit, e.op.delay, e.now, e.op.batch, e.op.clocks, w'.store, job);
  }

  /** What a recovery does to the state of one row. */
  lemma RecoveredState(s: JobQueue.Store, queue: string, limit: int, delay: int, now: Time, batch: seq<string>,
                       clocks: seq<Time>, s': JobQueue.Store, job: string)
    requires JobRecovery.RecoverNext(s, queue, limit, delay, now, batch, clocks, s') && job in s.jobs
    ensures job in s'.jobs
    ensures s'.jobs[job].state == if job in batch then JobQueue.RecoverTarget(s.jobs[job]) else s.jobs[job].state
  {
    JobRuns.RecoverRow(s, queue, limit, delay, now, batch, clocks, s', job);
    if job in batch {
      var i :| 0 <= i < |batch| && batch[i] == job;
    }
  }

  /** Without a report, only a cancellation request or an expired lease ends a job. */
  lemma QuietEnding(b: Binding, w: World, q: JobRuns.Event, w': World)
    requires Next(b, w, Queue(q), w') && Ends(b, w, w') && Found(w.store, b.id)
    ensures OpenEnding(b, w, Queue(q)) && JobOf(b, w').state != JobQueue.Succeeded
  {
    match JobRuns.EffectOf(q)
    case Nothing => JobRuns.NextNothing(w.queue, q, w'.queue);
    case Inserted(_, _) => JobRuns.NextInserted(w.queue, q, w'.queue);
    case Changed(_, _) => ChangedEffect(w.queue, q, w'.queue, b.job);
    case Batched => BatchedEffect(w.queue, q, w'.queue, b.job);
  }

  /** Only an execution that is done is reported as a success. */
  lemma ReportedSuccess(b: Binding, v: Verdict, row: JobQueue.Job, token: string, clock: int, op: JobRuns.Op)
    requires Reports(b, v, row, token, clock, op) && op.FinishOp? && op.to == JobQueue.Succeeded
    ensures v == Told(Done)
  {
  }

  /** A reported retry ends the job only when it was cancelled, is too old or gives no proper code. */
  lemma ReportedRetry(b: Binding, v: Verdict, row: JobQueue.Job, token: string, clock: int, op: JobRuns.Op)
    requires Reports(b, v, row, token, clock, op) && v.Told? && v.outcome.Retry?
    requires row.attemptCount < row.request.maxAttempts
    ensures op.FailOp?
    ensures JobQueue.Terminal(JobQueue.FailTarget(row, op.failure)) ==>
              || row.cancelRequestedAt.Some? || !JobQueue.ValidCode(v.outcome.code)
              || Worker.TooOld(b.config, clock, 1000 * row.createdAt)
  {
  }

  lemma RetryEnding(b: Binding, w: World, token: string, clock: int, q: JobRuns.Event, w': World)
    requires Kept(b, w) && JobFencing.GrantInv(w.queue) && Next(b, w, Report(token, clock, q), w') && Ends(b, w, w')
    requires w.verdicts[JobQueue.TokenHash(token)].Told? && w.verdicts[JobQueue.TokenHash(token)].outcome.Retry?
    ensures OpenEnding(b, w, Report(token, clock, q)) && q.op.FailOp?
  {
    assert VerdictOk(b, w, JobQueue.TokenHash(token));
    assert q.op.FailOp? && q.op.token == token;
    FailEffect(w.queue, q, w'.queue, b.job);
    ReportedRetry(b, w.verdicts[JobQueue.TokenHash(token)], JobOf(b, w), token, clock, q.op);
  }

  lemma ReportedState(b: Binding, w: World, token: string, clock: int, q: JobRuns.Event, w': World)
    requires Next(b, w, Report(token, clock, q), w') && Ends(b, w, w') && JobOf(b, w').state == JobQueue.Succeeded
    ensures w.verdicts[JobQueue.TokenHash(token)] == Told(Done)
  {
    if q.op.FailOp? {
      FailEffect(w.queue, q, w'.queue, b.job);
    } else {
      FinishEffect(w.queue, q, w'.queue, b.job);
      ReportedSuccess(b, w.verdicts[JobQueue.TokenHash(token)], JobOf(b, w), token, clock, q.op);
    }
  }

  /** A job that ends by a report says so truly: its operation is settled, or the report is one of the open endings. */
  lemma ReportEnding(b: Binding, w: World, token: string, clock: int, q: JobRuns.Event, w': World)
    requires Kept(b, w) && JobFencing.GrantInv(w.queue) && Next(b, w, Report(token, clock, q), w') && Ends(b, w, w')
    ensures Settled(w.store, b.id) || OpenEnding(b, w, Report(token, clock, q))
    ensures JobOf(b, w').state == JobQueue.Succeeded ==> Published(w.store, b.id)
  {
    var v := w.verdicts[JobQueue.TokenHash(token)];
    assert VerdictOk(b, w, JobQueue.TokenHash(token));
    if v.Told? && v.outcome.Retry? {
      RetryEnding(b, w, token, clock, q, w');
    }
    if JobOf(b, w').state == JobQueue.Succeeded {
      ReportedState(b, w, token, clock, q, w');
    }
  }

  lemma OtherEnding(b: Binding, w: World, e: Event, w': World)
    requires Kept(b, w) && Next(b, w, e, w') && Ends(b, w, w') && (e.AckCancel? || e.Unsupported?)
    ensures OpenEnding(b, w, e) && JobOf(b, w').state != JobQueue.Succeeded
  {
    if e.AckCancel? {
      FinishEffect(w.queue, e.e, w'.queue, b.job);
    } else {
      FailEffect(w.queue, e.e, w'.queue, b.job);
    }
  }

  /** The event that ends the job leaves the tables alone, and it is an open ending if the operation is open. */
  lemma EndingOk(b: Binding, w: World, e: Event, w': World)
    requires Kept(b, w) && JobFencing.GrantInv(w.queue) && Next(b, w, e, w') && Ends(b, w, w')
    ensures w'.store == w.store && (Settled(w.store, b.id) || OpenEnding(b, w, e))
    ensures JobOf(b, w').state == JobQueue.Succeeded ==> Published(w'.store, b.id)
  {
    match e
    case Queue(q) => QuietEnding(b, w, q, w');
    case Report(token, clock, q) => ReportEnding(b, w, token, clock, q, w');
    case AckCancel(_, _) => OtherEnding(b, w, e, w');
    case Unsupported(_, _) => OtherEnding(b, w, e, w');
    case _ =>
  }

  // ---------------------------------------------------------------------
  // Whole runs
  // ---------------------------------------------------------------------

  /** The job is enqueued, its operation exists and none of its executions has ended. */
  ghost predicate Begins(b: Binding, w: World) {
    && Lifecycle.Reached(w.store) && QueueReached(w.queue) && ValidIdentity(b.id)
    && HasJob(b, w) && Found(w.store, b.id) && w.verdicts == map[]
  }

  ghost predicate QueueReached(q: JobRuns.World) {
    exists ws, es :: JobRuns.IsRun(ws, es) && ws[|es|] == q
  }

  lemma BeginsIsOk(b: Binding, w: World)
    requires Begins(b, w)
    ensures Inv(b, w)
  {
    var ws, es :| JobRuns.IsRun(ws, es) && ws[|es|] == w.queue;
    JobFencing.RunKeepsGrants(ws, es, |es|);
    JobLedger.RunKeepsStore(ws, es, |es|);
    assert JobLedger.RowInv(JobOf(b, w), JobQueue.RowsOf(w.queue.store, b.job));
  }

  ghost predicate StepAt(b: Binding, ws: seq<World>, es: seq<Event>, i: nat)
    requires |ws| == |es| + 1
  {
    i < |es| && Next(b, ws[i], es[i], ws[i + 1])
  }

  ghost predicate IsRun(b: Binding, ws: seq<World>, es: seq<Event>) {
    && |ws| == |es| + 1 && Begins(b, ws[0])
    && (forall i {:trigger StepAt(b, ws, es, i)} :: 0 <= i < |es| ==> StepAt(b, ws, es, i))
  }

  lemma RunStep(b: Binding, ws: seq<World>, es: seq<Event>, i: nat)
    requires IsRun(b, ws, es) && i < |es|
    ensures Next(b, ws[i], es[i], ws[i + 1])
  {
    assert StepAt(b, ws, es, i);
  }

  /** A run goes on with any event that is possible in its last state. */
  lemma RunExtends(b: Binding, ws: seq<World>, es: seq<Event>, e: Event, w': World)
    requires IsRun(b, ws, es) && Next(b, ws[|es|], e, w')
    ensures IsRun(b, ws + [w'], es + [e])
  {
    var vs, fs := ws + [w'], es + [e];
    forall i | 0 <= i < |fs| ensures StepAt(b, vs, fs, i) {
      if i < |es| {
        assert StepAt(b, ws, es, i);
      }
    }
  }

  lemma RunStart(b: Binding, ws: seq<World>, es: seq<Event>)
    requires IsRun(b, ws, es)
    ensures Inv(b, ws[0]) && ValidIdentity(b.id)
  {
    BeginsIsOk(b, ws[0]);
  }

  lemma RunGoesOn(b: Binding, ws: seq<World>, es: seq<Event>, i: nat)
    requires IsRun(b, ws, es) && i < |es| && ValidIdentity(b.id) && Inv(b, ws[i])
    ensures Inv(b, ws[i + 1])
  {
    RunStep(b, ws, es, i);
    NextKeeps(b, ws[i], es[i], ws[i + 1]);
  }

  lemma RunKeeps(b: Binding, ws: seq<World>, es: seq<Event>, k: nat)
    requires IsRun(b, ws, es) && k < |ws|
    ensures Inv(b, ws[k])
  {
    RunStart(b, ws, es);
    for i := 0 to k
      invariant Inv(b, ws[i])
    {
      RunGoesOn(b, ws, es, i);
    }
  }

  lemma ElsewhereLeavesOpen(s: Store, id: Identity, command: Lifecycle.Command)
    requires Found(s, id) && AllowedElsewhere(id, command) && !Settled(s, id)
    ensures !Settled(Lifecycle.Next(s, command), id)
  {
    if command.Complete? || command.CompleteProcessing? {
      Lifecycle.OtherCompletions(s, OperationKey(id), command);
    } else if command.BeginProcessing? || command.FailProcessing? {
      ProcessingLeavesOpen(s, id, command);
    } else {
      Lifecycle.UploadsTouchNoOperation(s, command);
    }
  }

  lemma ProcessingLeavesOpen(s: Store, id: Identity, command: Lifecycle.Command)
    requires Found(s, id) && AllowedElsewhere(id, command) && !Settled(s, id)
    requires command.BeginProcessing? || command.FailProcessing?
    ensures !Settled(Lifecycle.Next(s, command), id)
  {
  }

  // The end of the operation is written by an execution and by nothing else

  predicate Publishes(ending: Ending, a: Attempt) {
    ending.Complete? || ending.Fail? || (ending.TryLater? && LastAttempt(a))
  }

  /** An execution publishes, at an instant the rows accept. */
  predicate Writes(b: Binding, w: World, e: Event)
    requires Found(w.store, b.id)
  {
    && e.Handle? && LeaseOf(b, w, e.lease)
    && Publishes(e.ending, AttemptOf(b, w, e.lease, NowOf(e.ending))) && !Refused(w.store, b.id, e.ending.at)
  }

  lemma HandledSettles(s: Store, id: Identity, ending: Ending, a: Attempt)
    requires Lifecycle.RowsOk(s, id) && ValidIdentity(id) && CodeOk(ending) && HandleStep(s, id, ending, a).Some?
    requires !Settled(s, id)
    ensures Settled(HandleStep(s, id, ending, a).value.0, id) <==> Publishes(ending, a) && !Refused(s, id, ending.at)
  {
    match ending
    case Complete(scans, at) => Lifecycle.CompleteProcessingIff(s, id, scans, at);
    case Fail(code, at) => FailWithOk(s, id, code, at);
    case TryLater(code, _, at) => FailWithOk(s, id, code, at);
    case _ =>
  }

  /** One event settles the operation exactly when it is such a publication. */
  lemma NextSettlesIff(b: Binding, w: World, e: Event, w': World)
    requires Inv(b, w) && ValidIdentity(b.id) && Next(b, w, e, w')
    ensures Settled(w'.store, b.id) <==> Settled(w.store, b.id) || Writes(b, w, e)
  {
    NextKeeps(b, w, e, w');
    if !Settled(w.store, b.id) {
      OpenSettlesIff(b, w, e, w');
    }
  }

  lemma OpenSettlesIff(b: Binding, w: World, e: Event, w': World)
    requires Lifecycle.Reached(w.store) && Found(w.store, b.id) && ValidIdentity(b.id) && Next(b, w, e, w')
    requires !Settled(w.store, b.id)
    ensures Settled(w'.store, b.id) <==> Writes(b, w, e)
  {
    if e.Elsewhere? {
      ElsewhereLeavesOpen(w.store, b.id, e.command);
    } else if e.Handle? {
      Lifecycle.ReachedRows(w.store, b.id);
      HandledSettles(w.store, b.id, e.ending, AttemptOf(b, w, e.lease, NowOf(e.ending)));
    }
  }

  predicate WritesAt(b: Binding, ws: seq<World>, es: seq<Event>, j: nat) {
    j < |ws| && j < |es| && Found(ws[j].store, b.id) && Writes(b, ws[j], es[j])
  }

  /** Some execution wrote the end of the operation at an event from i on and before k. */
  ghost predicate Written(b: Binding, ws: seq<World>, es: seq<Event>, i: nat, k: nat) {
    exists j: nat :: i <= j < k && WritesAt(b, ws, es, j)
  }

  lemma SettledGoesOn(b: Binding, ws: seq<World>, es: seq<Event>, i: nat)
    requires IsRun(b, ws, es) && i < |es|
    ensures Settled(ws[i + 1].store, b.id) <==> Settled(ws[i].store, b.id) || WritesAt(b, ws, es, i)
  {
    RunStart(b, ws, es);
    RunKeeps(b, ws, es, i);
    RunStep(b, ws, es, i);
    NextSettlesIff(b, ws[i], es[i], ws[i + 1]);
  }

  /** In every run, the operation is settled exactly when it was, or an execution has written its end since. */
  lemma SettledSince(b: Binding, ws: seq<World>, es: seq<Event>, i: nat, k: nat)
    requires IsRun(b, ws, es) && i <= k < |ws|
    ensures Settled(ws[k].store, b.id) <==> Settled(ws[i].store, b.id) || Written(b, ws, es, i, k)
  {
    for m := i to k
      invariant Settled(ws[m].store, b.id) <==> Settled(ws[i].store, b.id) || Written(b, ws, es, i, m)
    {
      SettledGoesOn(b, ws, es, m);
      WrittenGoesOn(b, ws, es, i, m);
    }
  }

  lemma WrittenGoesOn(b: Binding, ws: seq<World>, es: seq<Event>, i: nat, m: nat)
    requires i <= m
    ensures Written(b, ws, es, i, m + 1) <==> Written(b, ws, es, i, m) || WritesAt(b, ws, es, m)
  {
    if Written(b, ws, es, i, m + 1) && !Written(b, ws, es, i, m) {
      var j: nat :| i <= j < m + 1 && WritesAt(b, ws, es, j);
      assert j == m;
    }
  }

  /**
   In every run, a job that ends leaves its operation open exactly when it was
   open at the start and none of the job's executions published at an instant
   the rows accept. It then ended by one of the open endings; a job that
   succeeds never does, and its operation has succeeded.
   */
  lemma JobEndsOpenIff(b: Binding, ws: seq<World>, es: seq<Event>, i: nat)
    requires IsRun(b, ws, es) && i < |es| && Ends(b, ws[i], ws[i + 1])
    ensures Found(ws[i].store, b.id) && Found(ws[i + 1].store, b.id)
    ensures !Settled(ws[i + 1].store, b.id) <==> !Settled(ws[0].store, b.id) && !Written(b, ws, es, 0, i)
    ensures !Settled(ws[i + 1].store, b.id) ==> OpenEnding(b, ws[i], es[i])
    ensures JobOf(b, ws[i + 1]).state == JobQueue.Succeeded ==> Published(ws[i + 1].store, b.id)
  {
    RunKeeps(b, ws, es, i);
    RunStep(b, ws, es, i);
    EndingOk(b, ws[i], es[i], ws[i + 1]);
    SettledSince(b, ws, es, 0, i);
  }

  /** The job is over, every execution of it has ended, and the operation is open. */
  ghost predicate Stranded(b: Binding, w: World) {
    && HasJob(b, w) && JobQueue.Terminal(JobOf(b, w).state) && !Settled(w.store, b.id)
    && (forall lease :: LeaseOf(b, w, lease) ==> lease in w.verdicts)
  }

  lemma TerminalRowStays(w: JobRuns.World, e: JobRuns.Event, w': JobRuns.World, job: string)
    requires JobRuns.Next(w, e, w') && job in w.store.jobs && JobQueue.Terminal(w.store.jobs[job].state)
    ensures job in w'.store.jobs && w'.store.jobs[job].state == w.store.jobs[job].state
    ensures forall lease :: lease in w'.grants && w'.grants[lease].job == job ==>
                              lease in w.grants && w.grants[lease].job == job
  {
    JobRuns.NextRow(w, e, w', job);
    if e.reply.Leasing? {
      JobFencing.GrantEvent(w, e, w');
    } else {
      JobFencing.QuietSameGrants(w, e, w');
    }
  }

  lemma StrandedNext(b: Binding, w: World, e: Event, w': World)
    requires Kept(b, w) && Next(b, w, e, w') && Stranded(b, w)
    ensures Stranded(b, w')
  {
    match e
    case Elsewhere(command) => ElsewhereLeavesOpen(w.store, b.id, command);
    case Handle(_, _) =>
    case _ => TerminalRowStays(w.queue, e.e, w'.queue, b.job);
  }

  ghost predicate StrandedAt(b: Binding, ws: seq<World>, k: nat) {
    k < |ws| && Stranded(b, ws[k])
  }

  lemma StrandedGoesOn(b: Binding, ws: seq<World>, es: seq<Event>, i: nat)
    requires IsRun(b, ws, es) && i < |es|
    ensures StrandedAt(b, ws, i) ==> StrandedAt(b, ws, i + 1)
  {
    if StrandedAt(b, ws, i) {
      RunKeeps(b, ws, es, i);
      RunStep(b, ws, es, i);
      StrandedNext(b, ws[i], es[i], ws[i + 1]);
    }
  }

  /** An operation left open when the last execution of its job has ended stays open in every continuation. */
  lemma StrandedForGood(b: Binding, ws: seq<World>, es: seq<Event>, i: nat, j: nat)
    requires IsRun(b, ws, es) && i <= j < |ws| && StrandedAt(b, ws, i)
    ensures StrandedAt(b, ws, j)
  {
    for k := i to j
      invariant StrandedAt(b, ws, k)
    {
      StrandedGoesOn(b, ws, es, k);
    }
  }

  // ---------------------------------------------------------------------
  // The last attempt
  // ---------------------------------------------------------------------

  predicate LastLease(b: Binding, w: World, lease: JobQueue.TokenHash) {
    LeaseOf(b, w, lease) && w.queue.grants[lease].attempt >= JobOf(b, w).request.maxAttempts
  }

  lemma LastLeaseNext(b: Binding, w: World, e: Event, w': World, lease: JobQueue.TokenHash)
    requires JobFencing.GrantInv(w.queue) && Next(b, w, e, w') && LastLease(b, w, lease)
    ensures LastLease(b, w', lease)
  {
    if !e.Elsewhere? && !e.Handle? {
      JobFencing.NextKeepsGrants(w.queue, e.e, w'.queue);
      RequestStays(w.queue, e.e, w'.queue, b.job);
    }
  }

  lemma LastLeaseGoesOn(b: Binding, ws: seq<World>, es: seq<Event>, i: nat, lease: JobQueue.TokenHash)
    requires IsRun(b, ws, es) && i < |es| && LastLease(b, ws[i], lease)
    ensures LastLease(b, ws[i + 1], lease)
  {
    RunKeeps(b, ws, es, i);
    RunStep(b, ws, es, i);
    LastLeaseNext(b, ws[i], es[i], ws[i + 1], lease);
  }

  lemma LastLeaseStays(b: Binding, ws: seq<World>, es: seq<Event>, i: nat, k: nat, lease: JobQueue.TokenHash)
    requires IsRun(b, ws, es) && i <= k < |ws| && LastLease(b, ws[i], lease)
    ensures LastLease(b, ws[k], lease)
  {
    for m := i to k
      invariant LastLease(b, ws[m], lease)
    {
      LastLeaseGoesOn(b, ws, es, m, lease);
    }
  }

  lemma AcceptedFail(w: JobRuns.World, e: JobRuns.Event, w': JobRuns.World)
    requires JobRuns.Next(w, e, w') && e.op.FailOp? && !e.reply.Refused?
    ensures var job := e.op.id;
            && JobQueue.Holds(w.store, e.op.ws, job, e.op.token) && job in w'.store.jobs
            && w'.store.jobs[job].state == JobQueue.FailTarget(w.store.jobs[job], e.op.failure)
  {
  }

  lemma AcceptedFinish(w: JobRuns.World, e: JobRuns.Event, w': JobRuns.World)
    requires JobRuns.Next(w, e, w') && e.op.FinishOp? && !e.reply.Refused?
    ensures e.op.id in w'.store.jobs && JobQueue.Terminal(w'.store.jobs[e.op.id].state)
  {
  }

  /** An accepted call under the token of the last attempt ends the job. */
  lemma LastCallEnds(w: JobRuns.World, e: JobRuns.Event, w': JobRuns.World, job: string, token: string)
    requires JobFencing.GrantInv(w) && JobRuns.Next(w, e, w') && !e.reply.Refused?
    requires (e.op.FailOp? || e.op.FinishOp?) && e.op.id == job && e.op.token == token && job in w.store.jobs
    requires JobQueue.TokenHash(token) in w.grants
    requires w.grants[JobQueue.TokenHash(token)].attempt >= w.store.jobs[job].request.maxAttempts
    ensures job in w'.store.jobs && JobQueue.Terminal(w'.store.jobs[job].state)
  {
    if e.op.FailOp? {
      AcceptedFail(w, e, w');
    } else {
      AcceptedFinish(w, e, w');
    }
  }

  lemma LastReportEnds(b: Binding, w: World, token: string, clock: int, q: JobRuns.Event, w': World)
    requires JobFencing.GrantInv(w.queue) && Next(b, w, Report(token, clock, q), w') && !q.reply.Refused?
    requires LastLease(b, w, JobQueue.TokenHash(token))
    ensures HasJob(b, w') && JobQueue.Terminal(JobOf(b, w').state)
  {
    LastCallEnds(w.queue, q, w'.queue, b.job, token);
  }

  /** Whatever happens between the end of the execution and its report. */
  predicate LastExecution(b: Binding, ws: seq<World>, es: seq<Event>, k: nat, m: nat) {
    && k < m < |es| < |ws| && es[k].Handle? && es[m].Report? && !es[m].e.reply.Refused?
    && es[k].lease == JobQueue.TokenHash(es[m].token) && LastLease(b, ws[k], es[k].lease)
  }

  lemma LastPublication(b: Binding, w: World, e: Event)
    requires Kept(b, w) && e.Handle? && LastLease(b, w, e.lease)
    ensures Writes(b, w, e) <==>
            (e.ending.Complete? || e.ending.Fail? || e.ending.TryLater?) && !Refused(w.store, b.id, e.ending.at)
  {
  }

  /**
   The last attempt of a job whose operation is open: however its execution
   ends and whatever happens before its report is accepted, the report ends
   the job, and the operation is then settled exactly when the execution
   published at an instant the rows accept, or a stale execution of an earlier
   attempt did so in between.
   */
  lemma LastAttemptSettlesIff(b: Binding, ws: seq<World>, es: seq<Event>, k: nat, m: nat)
    requires IsRun(b, ws, es) && LastExecution(b, ws, es, k, m) && !Settled(ws[k].store, b.id)
    ensures HasJob(b, ws[m + 1]) && JobQueue.Terminal(JobOf(b, ws[m + 1]).state) && Found(ws[k].store, b.id)
    ensures var ending := es[k].ending;
            Settled(ws[m + 1].store, b.id) <==>
            || ((ending.Complete? || ending.Fail? || ending.TryLater?) && !Refused(ws[k].store, b.id, ending.at))
            || Written(b, ws, es, k + 1, m)
  {
    RunKeeps(b, ws, es, k);
    LastPublication(b, ws[k], es[k]);
    LastReport(b, ws, es, k, m);
    LastWriting(b, ws, es, k, m);
  }

  lemma LastWriting(b: Binding, ws: seq<World>, es: seq<Event>, k: nat, m: nat)
    requires IsRun(b, ws, es) && LastExecution(b, ws, es, k, m) && !Settled(ws[k].store, b.id)
    ensures Settled(ws[m + 1].store, b.id) <==> WritesAt(b, ws, es, k) || Written(b, ws, es, k + 1, m)
  {
    SettledGoesOn(b, ws, es, k);
    SettledSince(b, ws, es, k + 1, m);
    SettledGoesOn(b, ws, es, m);
  }

  lemma LastReport(b: Binding, ws: seq<World>, es: seq<Event>, k: nat, m: nat)
    requires IsRun(b, ws, es) && LastExecution(b, ws, es, k, m)
    ensures HasJob(b, ws[m + 1]) && JobQueue.Terminal(JobOf(b, ws[m + 1]).state)
  {
    LastLeaseStays(b, ws, es, k, m, es[k].lease);
    RunKeeps(b, ws, es, m);
    RunStep(b, ws, es, m);
    LastReportEnds(b, ws[m], es[m].token, es[m].clock, es[m].e, ws[m + 1]);
  }
}
