/**
 What the queue's events do to the rows of the two tables, column by column:
 who is served first, when a holder of a lease is heard, and what a row says
 afterwards.
 */
module JobEffects {
  import opened Base
  import opened Text
  import opened JobQueue
  import opened JobRecovery
  import opened JobRuns
  import opened JobLedger
  import opened JobFencing

  /** The leased and running jobs of one workspace in one queue. */
  function Busy(jobs: map<string, Job>, ws: string, queue: string): set<string> {
    set id | id in jobs && jobs[id].request.workspace == ws && jobs[id].request.queue == queue
             && jobs[id].state in {Leased, Running}
  }

  /** The row waits in this queue and may be leased at this instant. */
  predicate Ready(job: Job, queue: string, now: Time) {
    && job.request.queue == queue && job.state in {State.Queued, RetryWait}
    && job.availableAt <= now && job.cancelRequestedAt.None?
  }

  /** Only these two rows differ between the tables. */
  ghost predicate OnlyRow(s: Store, s': Store, id: string) {
    && id in s.jobs && id in s'.jobs && s'.jobs == s.jobs[id := s'.jobs[id]]
    && (forall other :: other != id ==> RowsOf(s', other) == RowsOf(s, other))
  }

  // ---------------------------------------------------------------------
  // Acquisition
  // ---------------------------------------------------------------------

  lemma BusyIsActive(s: Store, ws: string, queue: string)
    ensures Busy(s.jobs, ws, queue) == ActiveIn(s, ws, queue)
  {
  }

  lemma CandidateIsFirst(s: Store, id: string, queue: string, cap: int, now: Time, other: string)
    requires Candidate(s, id, queue, cap, now) && other in s.jobs && Ready(s.jobs[other], queue, now)
    ensures var mine, theirs := s.jobs[id], s.jobs[other];
            var a, b := |Busy(s.jobs, mine.request.workspace, queue)|, |Busy(s.jobs, theirs.request.workspace, queue)|;
            && Ready(mine, queue, now) && a < cap && (b < cap ==> a <= b)
            && (a == b ==> mine.request.priority >= theirs.request.priority)
            && (a == b && mine.request.priority == theirs.request.priority ==> mine.availableAt <= theirs.availableAt)
            && (a == b && mine.request.priority == theirs.request.priority && mine.availableAt == theirs.availableAt ==>
                  mine.createdAt <= theirs.createdAt)
  {
    BusyIsActive(s, s.jobs[id].request.workspace, queue);
    BusyIsActive(s, s.jobs[other].request.workspace, queue);
    if |Busy(s.jobs, s.jobs[other].request.workspace, queue)| < cap {
      assert Eligible(s, other, queue, cap, now);
    }
  }

  /** No ready row comes before this one: by busy jobs of its workspace, priority, availability and age. */
  ghost predicate ComesFirst(jobs: map<string, Job>, id: string, queue: string, cap: int, now: Time) {
    && id in jobs && Ready(jobs[id], queue, now) && |Busy(jobs, jobs[id].request.workspace, queue)| < cap
    && forall other :: other in jobs && Ready(jobs[other], queue, now) ==>
                         var mine, theirs := jobs[id], jobs[other];
                         var a := |Busy(jobs, mine.request.workspace, queue)|;
                         var b := |Busy(jobs, theirs.request.workspace, queue)|;
                         && (b < cap ==> a <= b)
                         && (a == b ==> mine.request.priority >= theirs.request.priority)
                         && (a == b && mine.request.priority == theirs.request.priority ==>
                               && mine.availableAt <= theirs.availableAt
                               && (mine.availableAt == theirs.availableAt ==> mine.createdAt <= theirs.createdAt))
  }

  lemma CandidateComesFirst(s: Store, id: string, queue: string, cap: int, now: Time)
    requires Candidate(s, id, queue, cap, now)
    ensures ComesFirst(s.jobs, id, queue, cap, now)
  {
    BusyIsActive(s, s.jobs[id].request.workspace, queue);
    forall other | other in s.jobs && Ready(s.jobs[other], queue, now)
      ensures var mine, theirs := s.jobs[id], s.jobs[other];
              var a := |Busy(s.jobs, mine.request.workspace, queue)|;
              var b := |Busy(s.jobs, theirs.request.workspace, queue)|;
              && (b < cap ==> a <= b)
              && (a == b ==> mine.request.priority >= theirs.request.priority)
              && (a == b && mine.request.priority == theirs.request.priority ==>
                    && mine.availableAt <= theirs.availableAt
                    && (mine.availableAt == theirs.availableAt ==> mine.createdAt <= theirs.createdAt))
    {
      CandidateIsFirst(s, id, queue, cap, now, other);
    }
  }

  /** Every ready row is of a workspace at its cap. */
  ghost predicate AllCapped(jobs: map<string, Job>, queue: string, cap: int, now: Time) {
    forall id :: id in jobs && Ready(jobs[id], queue, now) ==> |Busy(jobs, jobs[id].request.workspace, queue)| >= cap
  }

  lemma NoneEligibleIsCapped(s: Store, queue: string, cap: int, now: Time)
    requires forall id :: !Eligible(s, id, queue, cap, now)
    ensures AllCapped(s.jobs, queue, cap, now)
  {
    forall id | id in s.jobs && Ready(s.jobs[id], queue, now)
      ensures |Busy(s.jobs, s.jobs[id].request.workspace, queue)| >= cap
    {
      BusyIsActive(s, s.jobs[id].request.workspace, queue);
      assert !Eligible(s, id, queue, cap, now);
    }
  }

  /**
   A lease is granted to a row that is ready, in a workspace below its cap and
   with no more busy jobs than that of any other ready row below its cap; among
   equally busy workspaces, to one of the highest priority, of these to one
   available first, and of these to one created first.
   */
  lemma AcquireServesFirst(w: World, e: Event, w': World, other: string)
    requires Next(w, e, w') && e.op.AcquireOp? && e.reply.Leasing?
    requires other in w.store.jobs && Ready(w.store.jobs[other], e.op.queue, e.now)
    ensures e.reply.job in w.store.jobs
    ensures var jobs, queue := w.store.jobs, e.op.queue;
            var mine, theirs := jobs[e.reply.job], jobs[other];
            var a, b := |Busy(jobs, mine.request.workspace, queue)|, |Busy(jobs, theirs.request.workspace, queue)|;
            && Ready(mine, queue, e.now) && a < e.op.cap && (b < e.op.cap ==> a <= b)
            && (a == b ==> mine.request.priority >= theirs.request.priority)
            && (a == b && mine.request.priority == theirs.request.priority ==> mine.availableAt <= theirs.availableAt)
            && (a == b && mine.request.priority == theirs.request.priority && mine.availableAt == theirs.availableAt ==>
                  mine.createdAt <= theirs.createdAt)
  {
    CandidateIsFirst(w.store, e.reply.job, e.op.queue, e.op.cap, e.now, other);
  }

  /** There is no work only when every ready row is of a workspace at its cap. */
  lemma NoWorkMeansCapped(w: World, e: Event, w': World, id: string)
    requires Next(w, e, w') && e.op.AcquireOp? && e.reply.NoWork?
    requires id in w.store.jobs && Ready(w.store.jobs[id], e.op.queue, e.now)
    ensures |Busy(w.store.jobs, w.store.jobs[id].request.workspace, e.op.queue)| >= e.op.cap && w' == w
  {
    BusyIsActive(w.store, w.store.jobs[id].request.workspace, e.op.queue);
    assert !Eligible(w.store, id, e.op.queue, e.op.cap, e.now);
  }

  /** A request for work is refused exactly for what it asks: a queue, an owner, a lease or a cap out of bounds. */
  lemma AcquireRefusal(w: World, e: Event, w': World)
    requires Next(w, e, w') && e.op.AcquireOp?
    ensures e.reply.Refused? <==>
            || !ValidDomainName(e.op.queue, 63)
            || e.op.owner == "" || |e.op.owner| > 128 || !Trimmed(e.op.owner) || !NoNul(e.op.owner)
            || e.op.lease < 1_000_000 || e.op.lease > 3_600_000_000 || e.op.cap < 1 || e.op.cap > 100
    ensures e.reply.Refused? ==> e.reply.error == Invalid && w' == w
  {
  }

  lemma NotAfterOrder(s: Store, queue: string, a: string, b: string, c: string)
    requires a in s.jobs && b in s.jobs && c in s.jobs
    ensures NotAfter(s, queue, a, a) && (NotAfter(s, queue, a, b) || NotAfter(s, queue, b, a))
    ensures NotAfter(s, queue, a, b) && NotAfter(s, queue, b, c) ==> NotAfter(s, queue, a, c)
  {
  }

  /** Among the rows of a nonempty set one comes first. */
  lemma {:induction false} FirstOfSet(s: Store, queue: string, ids: set<string>) returns (first: string)
    requires ids != {} && ids <= s.jobs.Keys
    ensures first in ids && forall id :: id in ids ==> NotAfter(s, queue, first, id)
    decreases |ids|
  {
    var x :| x in ids;
    var rest := ids - {x};
    NotAfterOrder(s, queue, x, x, x);
    if rest == {} {
      first := x;
      assert ids == {x};
    } else {
      var other := FirstOfSet(s, queue, rest);
      first := if NotAfter(s, queue, x, other) then x else other;
      forall id | id in ids ensures NotAfter(s, queue, first, id) {
        NotAfterOrder(s, queue, x, other, id);
        assert id == x || id in rest;
      }
    }
  }

  /** Whenever some row is ready in a workspace below its cap, a lease can be granted. */
  lemma WorkCanBeLeased(w: World, e: Event, id: string) returns (job: string, w': World)
    requires e.op.AcquireOp? && ValidAcquire(e.op.queue, e.op.owner, e.op.lease, e.op.cap)
    requires TokenHash(e.op.drawn) !in w.grants
    requires id in w.store.jobs && Ready(w.store.jobs[id], e.op.queue, e.now)
    requires |Busy(w.store.jobs, w.store.jobs[id].request.workspace, e.op.queue)| < e.op.cap
    ensures Next(w, e.(reply := JobRuns.Leasing(job)), w')
  {
    var ready := set x | x in w.store.jobs && Eligible(w.store, x, e.op.queue, e.op.cap, e.now);
    BusyIsActive(w.store, w.store.jobs[id].request.workspace, e.op.queue);
    assert id in ready;
    job := FirstOfSet(w.store, e.op.queue, ready);
    assert Candidate(w.store, job, e.op.queue, e.op.cap, e.now);
    w' := World(Apply(w.store, job, Granted(e.op.owner, TokenHash(e.op.drawn), e.now + e.op.lease), e.now),
                w.grants[TokenHash(e.op.drawn) := Grant(job, w.store.jobs[job].attemptCount + 1)]);
  }

  /** The row of a new lease: one attempt more, held under the drawn token for the asked time, and its attempt row. */
  lemma LeaseIsWritten(w: World, e: Event, w': World)
    requires Next(w, e, w') && e.reply.Leasing?
    ensures e.op.AcquireOp? && e.reply.job in w.store.jobs && OnlyRow(w.store, w'.store, e.reply.job)
    ensures var id := e.reply.job;
            var job, job' := w.store.jobs[id], w'.store.jobs[id];
            && job' == job.(state := Leased, attemptCount := job.attemptCount + 1, leaseOwner := Some(e.op.owner),
                            leaseToken := Some(TokenHash(e.op.drawn)), leaseExpiresAt := Some(e.now + e.op.lease),
                            heartbeatAt := Some(e.now))
            && RowsOf(w'.store, id) == RowsOf(w.store, id)[
               job.attemptCount + 1 := Attempt(e.op.owner, e.now, None, e.now, None, None, None)]
  {
  }

  // ---------------------------------------------------------------------
  // The holder of a lease
  // ---------------------------------------------------------------------

  /** The job is leased or running under this token and its lease has not run out. */
  predicate Held(s: Store, ws: string, id: string, token: string, now: Time) {
    && id in s.jobs && s.jobs[id].request.workspace == ws && s.jobs[id].leaseToken == Some(TokenHash(token))
    && s.jobs[id].leaseExpiresAt.Some? && now < s.jobs[id].leaseExpiresAt.value
  }

  predicate ValidHolder(ws: string, id: string, token: string) {
    ValidQueueId(ws) && ValidQueueId(id) && |token| == 58 && "lease_" <= token
  }

  lemma HolderIsIdentified(ws: string, id: string, token: string)
    ensures ValidHolder(ws, id, token) <==> ValidLeaseIdentity(ws, id, token)
  {
    if "lease_" <= token {
      assert token[..6] == "lease_";
    }
    if |token| == 58 && token[..6] == "lease_" {
      assert forall i :: 0 <= i < 6 ==> token[i] == token[..6][i];
    }
  }

  /**
   A start is heard exactly from the holder of a live lease of a leased job
   that is not flagged; a flagged job's holder is told so.
   */
  lemma StartIff(w: World, e: Event, w': World)
    requires Next(w, e, w') && e.op.StartOp?
    ensures var (ws, id, token) := (e.op.ws, e.op.id, e.op.token);
            var live := ValidHolder(ws, id, token) && Held(w.store, ws, id, token, e.now);
            && (e.reply == Done <==>
                  live && w.store.jobs[id].state == Leased && w.store.jobs[id].cancelRequestedAt.None?)
            && (e.reply == Refused(CancellationRequested) <==>
                  live && w.store.jobs[id].state in {Leased, Running} && w.store.jobs[id].cancelRequestedAt.Some?)
            && (e.reply == Refused(Invalid) <==> !ValidHolder(ws, id, token))
            && e.reply in {Done, Refused(Invalid), Refused(CancellationRequested), Refused(LeaseLost)}
            && (e.reply != Done ==> w' == w)
            && (e.reply == Done ==>
                  var job := w.store.jobs[id];
                  && OnlyRow(w.store, w'.store, id) && w'.grants == w.grants
                  && w'.store.jobs[id]
                     == job.(state := Running, startedAt := if job.startedAt.Some? then job.startedAt else Some(e.now))
                  && var n, rows := job.attemptCount, RowsOf(w.store, id);
                     n in rows ==> RowsOf(w'.store, id) == rows[n := rows[n].(
                                                                startedAt := if rows[n].startedAt.Some?
                                                                then rows[n].startedAt else Some(e.now))])
  {
    HolderIsIdentified(e.op.ws, e.op.id, e.op.token);
  }

  /** A heartbeat is heard exactly from the holder of a live, unflagged lease, and moves its end to now + lease. */
  lemma HeartbeatIff(w: World, e: Event, w': World)
    requires Next(w, e, w') && e.op.HeartbeatOp?
    ensures var (ws, id, token) := (e.op.ws, e.op.id, e.op.token);
            var live := ValidHolder(ws, id, token) && 1_000_000 <= e.op.lease <= 3_600_000_000
                        && Held(w.store, ws, id, token, e.now) && w.store.jobs[id].state in {Leased, Running};
            && (e.reply == Done <==> live && w.store.jobs[id].cancelRequestedAt.None?)
            && (e.reply == Refused(CancellationRequested) <==> live && w.store.jobs[id].cancelRequestedAt.Some?)
            && (e.reply == Refused(Invalid) <==>
                  !ValidHolder(ws, id, token) || !(1_000_000 <= e.op.lease <= 3_600_000_000))
            && e.reply in {Done, Refused(Invalid), Refused(CancellationRequested), Refused(LeaseLost)}
            && (e.reply != Done ==> w' == w)
            && (e.reply == Done ==>
                  && OnlyRow(w.store, w'.store, id) && w'.grants == w.grants
                  && w'.store.jobs[id] == w.store.jobs[id].(heartbeatAt := Some(e.now),
                                                           leaseExpiresAt := Some(e.now + e.op.lease))
                  && var n, rows := w.store.jobs[id].attemptCount, RowsOf(w.store, id);
                     n in rows ==> RowsOf(w'.store, id) == rows[n := rows[n].(lastHeartbeatAt := e.now)])
  {
    HolderIsIdentified(e.op.ws, e.op.id, e.op.token);
  }

  /**
   A success is heard exactly from the holder of a live lease of a running job
   that is not flagged, a cancellation from the holder of any live lease; the
   job is then over and free of its lease.
   */
  lemma FinishIff(w: World, e: Event, w': World)
    requires Next(w, e, w') && e.op.FinishOp?
    ensures var (ws, id, token, to) := (e.op.ws, e.op.id, e.op.token, e.op.to);
            var live := ValidHolder(ws, id, token) && Held(w.store, ws, id, token, e.now);
            && (e.reply == Done <==>
                  live && ((to == Succeeded && w.store.jobs[id].state == Running
                            && w.store.jobs[id].cancelRequestedAt.None?)
                           || (to == Cancelled && w.store.jobs[id].state in {Leased, Running})))
            && (e.reply == Refused(CancellationRequested) <==>
                  && live && to == Succeeded && w.store.jobs[id].state in {Leased, Running}
                  && w.store.jobs[id].cancelRequestedAt.Some?)
            && (e.reply == Refused(Invalid) <==> !ValidHolder(ws, id, token) || to !in {Succeeded, Cancelled})
            && e.reply in {Done, Refused(Invalid), Refused(CancellationRequested), Refused(LeaseLost)}
            && (e.reply != Done ==> w' == w)
            && (e.reply == Done ==>
                  && OnlyRow(w.store, w'.store, id) && w'.grants == w.grants
                  && w'.store.jobs[id] == w.store.jobs[id].(state := to, completedAt := Some(e.now), leaseOwner := None,
                                                           leaseToken := None, leaseExpiresAt := None,
                                                           heartbeatAt := None)
                  && var n, rows := w.store.jobs[id].attemptCount, RowsOf(w.store, id);
                     var outcome := if to == Succeeded then OutSucceeded else OutCancelled;
                     n in rows ==> RowsOf(w'.store, id)
                                   == rows[n := rows[n].(finishedAt := Some(e.now), outcome := Some(outcome))])
  {
    HolderIsIdentified(e.op.ws, e.op.id, e.op.token);
  }

  /**
   A failure is heard exactly from the holder of a live lease of a running job.
   It cancels a flagged job; else a retryable one with attempts left waits for
   the given instant; and else the job is dead.
   */
  lemma FailIff(w: World, e: Event, w': World)
    requires Next(w, e, w') && e.op.FailOp?
    ensures var (id, failure) := (e.op.id, e.op.failure);
            var valid := && ValidHolder(e.op.ws, id, e.op.token) && failure.class_ in {Retryable, Permanent}
                         && ValidDomainName(failure.code, 63);
            var heard := && valid && Held(w.store, e.op.ws, id, e.op.token, e.now)
                         && w.store.jobs[id].state == Running;
            && (!valid ==> e.reply == Refused(Invalid)) && (valid && !heard ==> e.reply == Refused(LeaseLost))
            && (!heard ==> w' == w)
            && (heard ==>
                  var job := w.store.jobs[id];
                  var retries := job.cancelRequestedAt.None? && failure.class_ == Retryable
                                 && job.attemptCount < job.request.maxAttempts;
                  && (e.reply.Refused? <==> retries && e.op.retryAt.None?)
                  && (e.reply.Refused? ==> w' == w && e.reply.error == Invalid)
                  && (!e.reply.Refused? ==> FailedAs(w, e, w')))
  {
    HolderIsIdentified(e.op.ws, e.op.id, e.op.token);
  }

  /** The row of a failed attempt. */
  ghost predicate FailedAs(w: World, e: Event, w': World)
    requires e.op.FailOp? && e.op.id in w.store.jobs
  {
    var (id, failure) := (e.op.id, e.op.failure);
    var job := w.store.jobs[id];
    var free := job.(leaseOwner := None, leaseToken := None, leaseExpiresAt := None, heartbeatAt := None);
    var blamed := free.(lastErrorClass := Some(failure.class_), lastErrorCode := Some(failure.code));
    && OnlyRow(w.store, w'.store, id) && w'.grants == w.grants && w'.store.jobs[id].state != Running
    && e.reply == Moved(w'.store.jobs[id].state)
    && w'.store.jobs[id] ==
       (if job.cancelRequestedAt.Some? then free.(state := Cancelled, completedAt := Some(e.now))
        else if failure.class_ == Retryable && job.attemptCount < job.request.maxAttempts && e.op.retryAt.Some?
        then blamed.(state := RetryWait, availableAt := e.op.retryAt.value, completedAt := None)
        else blamed.(state := DeadLetter, completedAt := Some(e.now)))
  }

  lemma FailedRow(w: World, e: Event, w': World)
    requires Next(w, e, w') && e.op.FailOp? && !e.reply.Refused?
    ensures var id := e.op.id;
            && id in w.store.jobs && id in w'.store.jobs
            && var n, rows := w.store.jobs[id].attemptCount, RowsOf(w.store, id);
               var to := w'.store.jobs[id].state;
               n in rows ==> RowsOf(w'.store, id) == rows[n := rows[n].(
                                                          finishedAt := Some(e.now),
                                                          outcome := Some(if to == Cancelled then OutCancelled
                                                                          else if to == RetryWait then OutRetry
                                                                          else OutDeadLetter),
                                                          safeErrorCode := if to == Cancelled then None
                                                          else Some(e.op.failure.code))]
  {
  }

  /** A cancellation request flags a job that is not over, and ends one that waits. */
  lemma CancellationIff(w: World, e: Event, w': World)
    requires Next(w, e, w') && e.op.RequestCancellationOp?
    ensures var (ws, id) := (e.op.ws, e.op.id);
            var heard := && ValidQueueId(ws) && ValidQueueId(id) && id in w.store.jobs
                         && w.store.jobs[id].request.workspace == ws
                         && w.store.jobs[id].state in {State.Queued, RetryWait, Leased, Running};
            && (!heard <==> e.reply.Refused?) && (!heard ==> w' == w)
            && (e.reply == Refused(Invalid) <==> !ValidQueueId(ws) || !ValidQueueId(id))
            && (e.reply == Refused(NotCancellable) <==>
                  && ValidQueueId(ws) && ValidQueueId(id) && id in w.store.jobs
                  && w.store.jobs[id].request.workspace == ws
                  && w.store.jobs[id].state in {Succeeded, DeadLetter, Cancelled})
            && (e.reply.Refused? ==> e.reply.error in {Invalid, NotFound, NotCancellable})
            && (heard ==>
                  var job := w.store.jobs[id];
                  var flagged := job.(cancelRequestedAt := if job.cancelRequestedAt.Some? then job.cancelRequestedAt
                                      else Some(e.now));
                  && OnlyRow(w.store, w'.store, id) && w'.grants == w.grants
                  && RowsOf(w'.store, id) == RowsOf(w.store, id)
                  && e.reply == Moved(w'.store.jobs[id].state)
                  && w'.store.jobs[id] == if job.state in {Leased, Running} then flagged
                                          else flagged.(state := Cancelled, completedAt := Some(e.now)))
  {
  }

  // ---------------------------------------------------------------------
  // Recovery
  // ---------------------------------------------------------------------

  /** A recovered row by what it was: flagged, out of attempts, running, or only leased. */
  predicate RecoveredAs(job: Job, after: Job, clock: Time, delay: int, now: Time) {
    var free := job.(leaseOwner := None, leaseToken := None, leaseExpiresAt := None, heartbeatAt := None);
    after ==
    (if job.cancelRequestedAt.Some? then free.(state := Cancelled, availableAt := clock, completedAt := Some(now))
     else if job.attemptCount >= job.request.maxAttempts
     then free.(state := DeadLetter, availableAt := clock, completedAt := Some(now),
                lastErrorClass := Some(WorkerError), lastErrorCode := Some("lease_expired"))
     else if job.state == Running
     then free.(state := RetryWait, availableAt := clock + delay, completedAt := None,
                lastErrorClass := Some(Retryable), lastErrorCode := Some("lease_expired"))
     else free.(state := State.Queued, availableAt := clock, completedAt := None,
                lastErrorClass := Some(Retryable), lastErrorCode := Some("lease_expired")))
  }

  predicate RecoveredRow(rows: Rows, after: Rows, n: nat, to: State, now: Time) {
    n in rows ==>
      after == rows[n := rows[n].(
                    finishedAt := Some(now),
                    outcome := Some(if to == Cancelled then OutCancelled
                                    else if to == DeadLetter then OutDeadLetter else OutLeaseExpired),
                    safeErrorCode := if to == Cancelled then None else Some("lease_expired"))]
  }

  /** Each row of the batch is recovered by what it was, and no other row is touched. */
  ghost predicate BatchRecovered(jobs: map<string, Job>, after: map<string, Job>, batch: seq<string>,
                                 clocks: seq<Time>, delay: int, now: Time)
    requires |clocks| >= |batch|
  {
    && after.Keys == jobs.Keys
    && (forall id :: id in jobs && id !in batch ==> after[id] == jobs[id])
    && (forall i :: 0 <= i < |batch| ==>
          batch[i] in jobs && RecoveredAs(jobs[batch[i]], after[batch[i]], clocks[i], delay, now))
  }

  lemma BatchIsRecovered(s: Store, batch: seq<string>, clocks: seq<Time>, delay: int, now: Time)
    requires |clocks| == |batch| && (forall i :: 0 <= i < |batch| ==> batch[i] in s.jobs)
    requires forall i, j :: 0 <= i < j < |batch| ==> batch[i] != batch[j]
    ensures BatchRecovered(s.jobs, RecoverAll(s, batch, clocks, delay, now).jobs, batch, clocks, delay, now)
  {
    forall id | id in s.jobs
      ensures id !in batch ==> RecoverAll(s, batch, clocks, delay, now).jobs[id] == s.jobs[id]
      ensures forall i :: 0 <= i < |batch| && batch[i] == id ==>
                            RecoveredAs(s.jobs[id], RecoverAll(s, batch, clocks, delay, now).jobs[id], clocks[i],
                                        delay, now)
    {
      RecoverAllPointwise(s, batch, clocks, delay, now, id);
    }
  }

  lemma OrderedIsDistinct(s: Store, queue: string, now: Time, batch: seq<string>)
    requires Ordered(s, queue, now, batch)
    ensures forall i, j :: 0 <= i < j < |batch| ==> batch[i] != batch[j]
  {
    BatchDistinct(s, queue, now, batch);
  }

  /** What a recovery call does to each row of its batch, and that it touches no other. */
  lemma RecoveryEffect(s: Store, queue: string, limit: int, delay: int, now: Time, batch: seq<string>,
                       clocks: seq<Time>, s': Store, id: string)
    requires RecoverNext(s, queue, limit, delay, now, batch, clocks, s') && id in s.jobs
    ensures id in s'.jobs
    ensures id !in batch ==> s'.jobs[id] == s.jobs[id] && RowsOf(s', id) == RowsOf(s, id)
    ensures forall i :: 0 <= i < |batch| && batch[i] == id ==>
                          && RecoveredAs(s.jobs[id], s'.jobs[id], clocks[i], delay, now)
                          && RecoveredRow(RowsOf(s, id), RowsOf(s', id), s.jobs[id].attemptCount, s'.jobs[id].state,
                                          now)
  {
    RecoverRow(s, queue, limit, delay, now, batch, clocks, s', id);
    forall i | 0 <= i < |batch| && batch[i] == id
      ensures && RecoveredAs(s.jobs[id], s'.jobs[id], clocks[i], delay, now)
              && RecoveredRow(RowsOf(s, id), RowsOf(s', id), s.jobs[id].attemptCount, s'.jobs[id].state, now)
    {
      RecoveryRow(s, s', id, clocks[i], delay, now);
    }
  }

  lemma RecoveryRow(s: Store, s': Store, id: string, clock: Time, delay: int, now: Time)
    requires id in s.jobs && id in s'.jobs
    requires RowStep(s.jobs[id], RowsOf(s, id), Recovered(clock, delay), now, s'.jobs[id], RowsOf(s', id))
    ensures RecoveredAs(s.jobs[id], s'.jobs[id], clock, delay, now)
    ensures RecoveredRow(RowsOf(s, id), RowsOf(s', id), s.jobs[id].attemptCount, s'.jobs[id].state, now)
  {
  }

  /** A recovery takes only leased or running jobs of its queue whose lease has run out. */
  lemma OnlyExpiredRecovered(s: Store, queue: string, limit: int, delay: int, now: Time, batch: seq<string>,
                             clocks: seq<Time>, s': Store, i: nat)
    requires RecoverNext(s, queue, limit, delay, now, batch, clocks, s') && i < |batch|
    ensures batch[i] in s.jobs && now <= clocks[i]
    ensures var job := s.jobs[batch[i]];
            && job.request.queue == queue && job.state in {Leased, Running}
            && job.leaseExpiresAt.Some? && job.leaseExpiresAt.value <= now
  {
    assert batch[i] in Expired(s, queue, now);
  }

  /** A call that does not reach its limit leaves no expired lease of its queue behind. */
  lemma EveryExpiredRecovered(s: Store, queue: string, limit: int, delay: int, now: Time, batch: seq<string>,
                              clocks: seq<Time>, s': Store, id: string)
    requires RecoverNext(s, queue, limit, delay, now, batch, clocks, s') && |batch| < limit
    requires id in s.jobs && s.jobs[id].request.queue == queue && s.jobs[id].state in {Leased, Running}
    requires s.jobs[id].leaseExpiresAt.Some? && s.jobs[id].leaseExpiresAt.value <= now
    ensures id in batch
  {
    var expired, taken := Expired(s, queue, now), set x | x in batch;
    assert id in expired;
    BatchDistinct(s, queue, now, batch);
    SeqOfDistinct(batch);
    assert taken <= expired;
    if id !in taken {
      SubsetCardinality(taken, expired - {id});
    }
  }

  lemma {:induction false} SeqOfDistinct(batch: seq<string>)
    requires forall i, j :: 0 <= i < j < |batch| ==> batch[i] != batch[j]
    ensures |set x | x in batch| == |batch|
  {
    if batch != [] {
      var front, last := batch[..|batch| - 1], batch[|batch| - 1];
      SeqOfDistinct(front);
      assert last !in front;
      assert (set x | x in batch) == (set x | x in front) + {last};
    }
  }

  /** Of one workspace, the leases that ran out first are recovered first. */
  lemma EarliestRecoveredFirst(s: Store, queue: string, limit: int, delay: int, now: Time, batch: seq<string>,
                               clocks: seq<Time>, s': Store, i: nat, id: string)
    requires RecoverNext(s, queue, limit, delay, now, batch, clocks, s') && i < |batch|
    requires id in s.jobs && id !in batch && id in Expired(s, queue, now)
    requires batch[i] in s.jobs && s.jobs[batch[i]].request.workspace == s.jobs[id].request.workspace
    requires s.jobs[id].leaseExpiresAt.Some? && s.jobs[batch[i]].leaseExpiresAt.Some?
    ensures s.jobs[batch[i]].leaseExpiresAt.value <= s.jobs[id].leaseExpiresAt.value
  {
    assert Before(s, queue, now, batch[i], id);
    SoonerStrictOrder(s, id, batch[i], id);
    if Sooner(s, id, batch[i]) {
      RankFollowsEnd(s, queue, now, id, batch[i]);
    }
  }

  /** Within a workspace, the sooner a lease ended the lower its rank. */
  lemma RankFollowsEnd(s: Store, queue: string, now: Time, a: string, b: string)
    requires a in Expired(s, queue, now) && b in Expired(s, queue, now) && Sooner(s, a, b)
    requires s.jobs[a].request.workspace == s.jobs[b].request.workspace
    ensures Rank(s, queue, now, a) < Rank(s, queue, now, b)
  {
    var ahead, behind := Ahead(s, queue, now, a), Ahead(s, queue, now, b);
    forall x | x in ahead ensures x in behind {
      SoonerStrictOrder(s, x, a, b);
    }
    SoonerStrictOrder(s, a, a, a);
    assert a in behind && a !in ahead;
    SubsetCardinality(ahead, behind - {a});
  }

  // ---------------------------------------------------------------------
  // Enqueueing
  // ---------------------------------------------------------------------

  /** The same workspace, queue, kind and idempotency key. */
  predicate SameRequestKey(a: Spec, b: Spec) {
    (a.workspace, a.queue, a.kind, a.idempotencyKey) == (b.workspace, b.queue, b.kind, b.idempotencyKey)
  }

  /** A request is refused as invalid exactly for a field out of bounds. */
  lemma EnqueueRefusal(s: Store, newId: string, spec: Spec, now: Time)
    ensures EnqueueStep(s, newId, spec, now).result == Err(Invalid) <==>
            || !ValidQueueId(spec.workspace) || (spec.operation != "" && !ValidQueueId(spec.operation))
            || !ValidQueueId(spec.principal) || !ValidCapability(spec.capability)
            || !ValidDomainName(spec.queue, 63) || !ValidDomainName(spec.kind, 63) || spec.schemaVersion < 1
            || !ValidIdempotencyKey(spec.idempotencyKey) || spec.priority < -1000 || spec.priority > 1000
            || spec.maxAttempts < 1 || spec.maxAttempts > 100 || spec.payload == "" || |spec.payload| > 61440
    ensures ValidSpec(spec) && spec.schemaVersion > 0x7FFF_FFFF ==>
              EnqueueStep(s, newId, spec, now) == Outcome(s, Err(Backend))
    ensures EnqueueStep(s, newId, spec, now).result.Err? ==> EnqueueStep(s, newId, spec, now).store == s
  {
  }

  /** The caller is told whether its request made the job, and which job it is. */
  lemma EnqueueTells(s: Store, newId: string, spec: Spec, now: Time)
    requires ValidSpec(spec) && InRange(spec.schemaVersion)
    ensures var o := EnqueueStep(s, newId, spec, now);
            && (o.result.Ok? && o.result.value.1 <==>
                  newId !in s.jobs && forall x :: x in s.jobs ==> !SameRequestKey(s.jobs[x].request, spec))
            && (o.result.Ok? && o.result.value.1 ==> o.result.value.0 == newId && newId in o.store.jobs)
            && (o.result.Ok? && !o.result.value.1 ==>
                  o.store == s && o.result.value.0 in s.jobs && s.jobs[o.result.value.0].request == spec)
            && (o.result == Err(Conflict) ==> exists x :: x in s.jobs && SameRequestKey(s.jobs[x].request, spec))
            && (o.result.Err? ==> o.result.error in {Conflict, Backend})
            && (newId in s.jobs && (forall x :: x in s.jobs ==> !SameRequestKey(s.jobs[x].request, spec)) ==>
                  o.result == Err(Backend))
  {
    if exists x :: x in s.jobs && SameKey(s.jobs[x].request, spec) {
      var x :| x in s.jobs && SameKey(s.jobs[x].request, spec);
      assert SameRequestKey(s.jobs[x].request, spec);
      forall y | y in s.jobs && SameKey(s.jobs[y].request, spec)
        ensures Fingerprint(s.jobs[y].request) == Fingerprint(spec) <==> s.jobs[y].request == spec
      {
        FingerprintTells(s.jobs[y].request, spec);
      }
    }
  }

  /** A first request is stored as it is, to be available when it says or at once. */
  lemma FirstEnqueue(w: World, e: Event, w': World)
    requires Next(w, e, w') && e.op.EnqueueOp? && ValidSpec(e.op.spec) && InRange(e.op.spec.schemaVersion)
    requires forall id :: id in w.store.jobs ==> !SameRequestKey(w.store.jobs[id].request, e.op.spec)
    requires e.op.newId !in w.store.jobs
    ensures e.reply == Done && w'.grants == w.grants
    ensures w'.store.jobs == w.store.jobs[
                             e.op.newId := Job(e.op.spec, State.Queued,
                                               if e.op.spec.availableAt.Some? then e.op.spec.availableAt.value
                                               else e.now, 0, None, None, None, None, None, None, None, e.now, None,
                                               None)]
    ensures w'.store.attempts == w.store.attempts[e.op.newId := map[]]
  {
    assert !exists id :: id in w.store.jobs && SameKey(w.store.jobs[id].request, e.op.spec);
  }

  /** A repeated key is answered by its first request: equal ones succeed, unequal ones conflict. */
  lemma RepeatedEnqueue(w: World, e: Event, w': World, id: string)
    requires Next(w, e, w') && e.op.EnqueueOp? && ValidSpec(e.op.spec) && InRange(e.op.spec.schemaVersion)
    requires UniqueKeys(w.store) && id in w.store.jobs && SameRequestKey(w.store.jobs[id].request, e.op.spec)
    ensures w' == w && e.reply == if w.store.jobs[id].request == e.op.spec then Done else Refused(Conflict)
  {
    assert SameKey(w.store.jobs[id].request, e.op.spec);
    forall x | x in w.store.jobs && SameKey(w.store.jobs[x].request, e.op.spec) ensures x == id {
      assert SameKey(w.store.jobs[x].request, w.store.jobs[id].request);
    }
    FingerprintTells(w.store.jobs[id].request, e.op.spec);
  }

  lemma FingerprintTells(a: Spec, b: Spec)
    requires SameRequestKey(a, b)
    ensures Fingerprint(a) == Fingerprint(b) <==> a == b
  {
    if Fingerprint(a) == Fingerprint(b) {
      assert a == Fingerprint(a).(idempotencyKey := a.idempotencyKey);
      assert b == Fingerprint(b).(idempotencyKey := b.idempotencyKey);
    }
  }

  lemma NextKeepsKeys(w: World, e: Event, w': World)
    requires UniqueKeys(w.store) && Next(w, e, w')
    ensures UniqueKeys(w'.store)
  {
    var jobs := w'.store.jobs;
    forall a, b | a in jobs && b in jobs && SameKey(jobs[a].request, jobs[b].request)
      ensures a == b
    {
      RequestKept(w, e, w', a);
      RequestKept(w, e, w', b);
    }
  }

  lemma RequestKept(w: World, e: Event, w': World, id: string)
    requires Next(w, e, w') && id in w'.store.jobs
    ensures if id in w.store.jobs then w'.store.jobs[id].request == w.store.jobs[id].request
            else e.op.EnqueueOp? && id == e.op.newId && w'.store.jobs[id].request == e.op.spec
                 && (forall x :: x in w.store.jobs ==> !SameKey(w.store.jobs[x].request, e.op.spec))
  {
    if id in w.store.jobs {
      NextRow(w, e, w', id);
    } else {
      NextNewRow(w, e, w', id);
    }
  }

  /** In every run no two jobs share workspace, queue, kind and idempotency key. */
  lemma {:induction false} RunKeepsKeys(ws: seq<World>, es: seq<Event>, k: nat)
    requires IsRun(ws, es) && k < |ws|
    ensures UniqueKeys(ws[k].store)
  {
    if k > 0 {
      RunKeepsKeys(ws, es, k - 1);
      RunStep(ws, es, k - 1);
      NextKeepsKeys(ws[k - 1], es[k - 1], ws[k]);
    }
  }

  // ---------------------------------------------------------------------
  // A lease protects its holder
  // ---------------------------------------------------------------------

  /** The job is leased or running under this token until the given instant. */
  predicate HeldUntil(s: Store, id: string, h: TokenHash, until: Time) {
    && id in s.jobs && s.jobs[id].leaseToken == Some(h) && s.jobs[id].leaseExpiresAt == Some(until)
    && s.jobs[id].state in {Leased, Running}
  }

  /** No one but the holder ends a lease before its time. */
  lemma OthersLeaveLease(w: World, e: Event, w': World, id: string, h: TokenHash, until: Time)
    requires Next(w, e, w') && HeldUntil(w.store, id, h, until) && e.now < until && !Presents(e.op, h)
    ensures HeldUntil(w'.store, id, h, until) && w'.store.jobs[id].attemptCount == w.store.jobs[id].attemptCount
  {
    match EffectOf(e)
    case Nothing => NextNothing(w, e, w');
    case Inserted(_, _) => NextInserted(w, e, w');
    case Changed(_, _) => OtherChanges(w, e, w', id, h, until);
    case Batched =>
      NextBatched(w, e, w');
      RecoverRow(w.store, e.op.queue, e.op.limit, e.op.delay, e.now, e.op.batch, e.op.clocks, w'.store, id);
      LiveIsNotRecovered(w.store, e.op.queue, e.op.limit, e.op.delay, e.now, e.op.batch, e.op.clocks, w'.store, id);
  }

  lemma LiveIsNotRecovered(s: Store, queue: string, limit: int, delay: int, now: Time, batch: seq<string>,
                           clocks: seq<Time>, s': Store, id: string)
    requires RecoverNext(s, queue, limit, delay, now, batch, clocks, s') && id in s.jobs
    requires s.jobs[id].leaseExpiresAt.Some? && now < s.jobs[id].leaseExpiresAt.value
    ensures id !in batch
  {
    forall i | 0 <= i < |batch| ensures batch[i] != id {
      OnlyExpiredRecovered(s, queue, limit, delay, now, batch, clocks, s', i);
    }
  }

  lemma OtherChanges(w: World, e: Event, w': World, id: string, h: TokenHash, until: Time)
    requires Next(w, e, w') && HeldUntil(w.store, id, h, until) && !Presents(e.op, h) && EffectOf(e).Changed?
    ensures HeldUntil(w'.store, id, h, until) && w'.store.jobs[id].attemptCount == w.store.jobs[id].attemptCount
  {
    NextChanged(w, e, w');
    ApplyRow(w.store, EffectOf(e).id, EffectOf(e).change, e.now, id);
    if EffectOf(e).id == id && !e.op.RequestCancellationOp? {
      PresentedToken(w, e, w');
    }
  }

  /** A call that names a lease is heard only under the token the row holds. */
  lemma PresentedToken(w: World, e: Event, w': World)
    requires Next(w, e, w') && EffectOf(e).Changed? && !e.op.RequestCancellationOp?
    ensures EffectOf(e).id in w.store.jobs
    ensures var job := w.store.jobs[EffectOf(e).id];
            if e.op.AcquireOp? then job.state in {State.Queued, RetryWait}
            else job.leaseToken.Some? && Presents(e.op, job.leaseToken.value)
  {
  }

  /** The events from i on and before k come before the given instant, and none of them is the holder's. */
  ghost predicate Undisturbed(es: seq<Event>, i: nat, k: nat, h: TokenHash, until: Time) {
    k <= |es| && forall j :: i <= j < k ==> es[j].now < until && !Presents(es[j].op, h)
  }

  lemma {:induction false} LeaseStays(ws: seq<World>, es: seq<Event>, i: nat, k: nat, id: string, h: TokenHash,
                                      until: Time)
    requires IsRun(ws, es) && i <= k < |ws| && HeldUntil(ws[i].store, id, h, until) && Undisturbed(es, i, k, h, until)
    ensures HeldUntil(ws[k].store, id, h, until)
    ensures ws[k].store.jobs[id].attemptCount == ws[i].store.jobs[id].attemptCount
    decreases k
  {
    if i < k {
      LeaseStays(ws, es, i, k - 1, id, h, until);
      RunStep(ws, es, k - 1);
      OthersLeaveLease(ws[k - 1], es[k - 1], ws[k], id, h, until);
    }
  }

  /** The event gives its caller a lease of this job, by acquisition or heartbeat. */
  predicate GivesLease(e: Event, id: string, token: string) {
    || (e.op.AcquireOp? && e.reply == JobRuns.Leasing(id) && e.op.drawn == token)
    || (e.op.HeartbeatOp? && e.reply == Done && e.op.id == id && e.op.token == token)
  }

  lemma LeaseIsGiven(w: World, e: Event, w': World, id: string, token: string)
    requires Next(w, e, w') && GivesLease(e, id, token)
    ensures HeldUntil(w'.store, id, TokenHash(token), e.now + e.op.lease)
  {
    if e.op.AcquireOp? {
      LeaseIsWritten(w, e, w');
    } else {
      HeartbeatIff(w, e, w');
    }
  }

  /**
   In every run, whoever acquires a job or beats its heart holds it for the
   whole lease from then on: until it calls again or the time is up, no other
   worker, recovery or request takes the job or starts another attempt of it.
   */
  lemma LeaseProtects(ws: seq<World>, es: seq<Event>, i: nat, k: nat, id: string, token: string)
    requires IsRun(ws, es) && i < k < |ws| && GivesLease(es[i], id, token)
    requires Undisturbed(es, i + 1, k, TokenHash(token), es[i].now + es[i].op.lease)
    ensures HeldUntil(ws[k].store, id, TokenHash(token), es[i].now + es[i].op.lease)
    ensures id in ws[i + 1].store.jobs && ws[k].store.jobs[id].attemptCount == ws[i + 1].store.jobs[id].attemptCount
  {
    RunStep(ws, es, i);
    LeaseIsGiven(ws[i], es[i], ws[i + 1], id, token);
    LeaseStays(ws, es, i + 1, k, id, TokenHash(token), es[i].now + es[i].op.lease);
  }
}
