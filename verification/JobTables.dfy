/** The job queue's tables, updated in place, one method a queue operation. */
module JobTables {
  import opened Base
  import opened Text
  import opened JobQueue
  import opened JobRecovery
  import JobEffects

  class Queue {
    var jobs: map<string, Job>
    var attempts: map<string, Rows>

    constructor ()
      ensures View() == Store(map[], map[])
    {
      jobs, attempts := map[], map[];
    }

    function View(): Store
      reads this
    {
      Store(jobs, attempts)
    }

    /** Insert-if-absent on the idempotency key, then compare with the stored request. */
    method Enqueue(id: string, spec: Spec, clock: Time) returns (r: Result<(string, bool), Error>)
      requires UniqueKeys(View())
      modifies this
      ensures UniqueKeys(View())
      ensures r == EnqueueStep(old(View()), id, spec, clock).result
      ensures View() == EnqueueStep(old(View()), id, spec, clock).store
    {
      if !ValidSpec(spec) {
        return Err(Invalid);
      }
      if !InRange(spec.schemaVersion) {
        return Err(Backend);
      }
      var todo := jobs.Keys;
      while todo != {}
        invariant todo <= jobs.Keys && View() == old(View())
        invariant forall e :: e in jobs && e !in todo ==> !SameKey(jobs[e].request, spec)
        decreases todo
      {
        var e :| e in todo;
        if SameKey(jobs[e].request, spec) {
          if Fingerprint(jobs[e].request) != Fingerprint(spec) {
            return Err(Conflict);
          }
          return Ok((e, false));
        }
        todo := todo - {e};
      }
      if id in jobs {
        return Err(Backend);
      }
      jobs := jobs[id := NewJob(spec, clock)];
      attempts := attempts[id := map[]];
      r := Ok((id, true));
    }

    /** The acquisition query: scan for an eligible job that no eligible job precedes. */
    method SelectCandidate(queue: string, cap: int, now: Time) returns (best: Option<string>)
      ensures best.None? ==> forall id :: !Eligible(View(), id, queue, cap, now)
      ensures best.Some? ==> Candidate(View(), best.value, queue, cap, now)
      ensures if best.None? then JobEffects.AllCapped(jobs, queue, cap, now)
              else JobEffects.ComesFirst(jobs, best.value, queue, cap, now)
    {
      best := None;
      var todo := jobs.Keys;
      while todo != {}
        invariant todo <= jobs.Keys
        invariant best.None? ==> forall id :: id !in todo ==> !Eligible(View(), id, queue, cap, now)
        invariant best.Some? ==> Eligible(View(), best.value, queue, cap, now)
        invariant best.Some? ==> forall id :: id !in todo && Eligible(View(), id, queue, cap, now)
                                              ==> NotAfter(View(), queue, best.value, id)
        decreases todo
      {
        var id :| id in todo;
        todo := todo - {id};
        if Eligible(View(), id, queue, cap, now) {
          if best.None? || !NotAfter(View(), queue, best.value, id) {
            best := Some(id);
          }
        }
      }
      if best.None? {
        JobEffects.NoneEligibleIsCapped(View(), queue, cap, now);
      } else {
        JobEffects.CandidateComesFirst(View(), best.value, queue, cap, now);
      }
    }

    method Acquire(queue: string, owner: string, token: string, lease: int, cap: int, now: Time)
      returns (r: Result<Option<string>, Error>)
      modifies this
      ensures !ValidAcquire(queue, owner, lease, cap) ==> r == Err(Invalid)
      ensures ValidAcquire(queue, owner, lease, cap) ==> r.Ok?
      ensures r.Err? || r.value.None? ==> View() == old(View())
      ensures r == Ok(None) ==> forall id :: !Eligible(old(View()), id, queue, cap, now)
      ensures r.Ok? && r.value.Some? ==>
                && Candidate(old(View()), r.value.value, queue, cap, now)
                && View() == Apply(old(View()), r.value.value, Granted(owner, TokenHash(token), now + lease), now)
      ensures r == Ok(None) ==> JobEffects.AllCapped(old(jobs), queue, cap, now)
      ensures r.Ok? && r.value.Some? ==>
                var id := r.value.value;
                && JobEffects.ComesFirst(old(jobs), id, queue, cap, now)
                && jobs == old(jobs)[id := old(jobs)[id].(
                                     state := Leased, attemptCount := old(jobs)[id].attemptCount + 1,
                                     leaseOwner := Some(owner), leaseToken := Some(TokenHash(token)),
                                     leaseExpiresAt := Some(now + lease), heartbeatAt := Some(now))]
    {
      if !ValidAcquire(queue, owner, lease, cap) {
        return Err(Invalid);
      }
      var candidate := SelectCandidate(queue, cap, now);
      if candidate.None? {
        return Ok(None);
      }
      var id := candidate.value;
      var job := jobs[id].(
          state := Leased, attemptCount := jobs[id].attemptCount + 1,
          leaseOwner := Some(owner), leaseToken := Some(TokenHash(token)),
          leaseExpiresAt := Some(now + lease), heartbeatAt := Some(now));
      var rows := RowsOf(View(), id);
      jobs := jobs[id := job];
      attempts := attempts[id := rows[job.attemptCount := Attempt(owner, now, None, now, None, None, None)]];
      r := Ok(Some(id));
    }

    method Start(ws: string, id: string, token: string, now: Time) returns (r: Result<(), Error>)
      modifies this
      ensures Outcome(View(), r) == StartStep(old(View()), ws, id, token, now)
    {
      if !ValidLeaseIdentity(ws, id, token) {
        return Err(Invalid);
      }
      if !Holds(View(), ws, id, token) || jobs[id].state != Leased || !Live(jobs[id], now)
         || jobs[id].cancelRequestedAt.Some?
      {
        return Err(ClassifyLeaseMiss(View(), ws, id, token, now));
      }
      var n, rows := jobs[id].attemptCount, RowsOf(View(), id);
      jobs := jobs[id := jobs[id].(state := Running, startedAt := Coalesce(jobs[id].startedAt, now))];
      if n in rows {
        rows := rows[n := rows[n].(startedAt := Coalesce(rows[n].startedAt, now))];
      }
      attempts := attempts[id := rows];
      r := Ok(());
    }

    method Heartbeat(ws: string, id: string, token: string, lease: int, now: Time) returns (r: Result<(), Error>)
      modifies this
      ensures Outcome(View(), r) == HeartbeatStep(old(View()), ws, id, token, lease, now)
    {
      if !(MIN_LEASE <= lease <= MAX_LEASE) || !ValidLeaseIdentity(ws, id, token) {
        return Err(Invalid);
      }
      if !Holds(View(), ws, id, token) || !Active(jobs[id].state) || !Live(jobs[id], now)
         || jobs[id].cancelRequestedAt.Some?
      {
        return Err(ClassifyLeaseMiss(View(), ws, id, token, now));
      }
      var n, rows := jobs[id].attemptCount, RowsOf(View(), id);
      jobs := jobs[id := jobs[id].(heartbeatAt := Some(now), leaseExpiresAt := Some(now + lease))];
      if n in rows {
        rows := rows[n := rows[n].(lastHeartbeatAt := now)];
      }
      attempts := attempts[id := rows];
      r := Ok(());
    }

    method Finish(ws: string, id: string, token: string, to: State, now: Time) returns (r: Result<(), Error>)
      modifies this
      ensures Outcome(View(), r) == FinishStep(old(View()), ws, id, token, to, now)
    {
      if (to != Succeeded && to != Cancelled) || !ValidLeaseIdentity(ws, id, token) {
        return Err(Invalid);
      }
      if !Holds(View(), ws, id, token)
         || !(jobs[id].state == Running || (to == Cancelled && jobs[id].state == Leased))
         || !Live(jobs[id], now)
         || !(to == Cancelled || jobs[id].cancelRequestedAt.None?)
      {
        return Err(if to == Succeeded then ClassifyLeaseMiss(View(), ws, id, token, now) else LeaseLost);
      }
      var n, rows := jobs[id].attemptCount, RowsOf(View(), id);
      jobs := jobs[id := jobs[id].(state := to, leaseOwner := None, leaseToken := None, leaseExpiresAt := None,
          heartbeatAt := None, completedAt := Some(now))];
      if n in rows {
        rows := rows[n := rows[n].(finishedAt := Some(now),
            outcome := Some(if to == Succeeded then OutSucceeded else OutCancelled))];
      }
      attempts := attempts[id := rows];
      r := Ok(());
    }

    method Fail(ws: string, id: string, token: string, failure: Failure, retryAt: Option<Time>, now: Time)
      returns (r: Result<State, Error>)
      modifies this
      ensures Outcome(View(), r) == FailStep(old(View()), ws, id, token, failure, retryAt, now)
    {
      if failure.class_ == WorkerError || !ValidCode(failure.code) || !ValidLeaseIdentity(ws, id, token) {
        return Err(Invalid);
      }
      if !Holds(View(), ws, id, token) || jobs[id].state != Running || !Live(jobs[id], now) {
        return Err(LeaseLost);
      }
      var job := jobs[id];
      var state, outcome := DeadLetter, OutDeadLetter;
      if job.cancelRequestedAt.Some? {
        state, outcome := Cancelled, OutCancelled;
      } else if failure.class_ == Retryable && job.attemptCount < job.request.maxAttempts {
        state, outcome := RetryWait, OutRetry;
        if retryAt.None? {
          return Err(Invalid);
        }
      }
      WriteFailure(id, state, outcome, failure, retryAt, now);
      r := Ok(state);
    }

    /** The two updates of a failed attempt: the job row and its attempt row. */
    method WriteFailure(id: string, state: State, outcome: AttemptOutcome, failure: Failure, retryAt: Option<Time>,
                        now: Time)
      requires id in jobs && state == FailTarget(jobs[id], failure) && outcome == OutcomeOf(state, false)
      requires state == RetryWait ==> retryAt.Some?
      modifies this
      ensures View() == Apply(old(View()), id, Failing(failure, Coalesce(retryAt, 0).value), now)
    {
      var job := jobs[id];
      if state == RetryWait {
        job := job.(availableAt := retryAt.value);
      }
      if state != Cancelled {
        job := job.(lastErrorClass := Some(failure.class_), lastErrorCode := Some(failure.code));
      }
      job := job.(state := state, leaseOwner := None, leaseToken := None, leaseExpiresAt := None, heartbeatAt := None,
          completedAt := if state == RetryWait then None else Some(now));
      var n, rows := job.attemptCount, RowsOf(View(), id);
      jobs := jobs[id := job];
      if n in rows {
        rows := rows[n := rows[n].(finishedAt := Some(now), outcome := Some(outcome),
            safeErrorCode := if state == Cancelled then None else Some(failure.code))];
      }
      attempts := attempts[id := rows];
    }

    method RequestCancellation(ws: string, id: string, now: Time) returns (r: Result<State, Error>)
      modifies this
      ensures Outcome(View(), r) == RequestCancellationStep(old(View()), ws, id, now)
    {
      if !ValidQueueId(ws) || !ValidQueueId(id) {
        return Err(Invalid);
      }
      if id !in jobs || jobs[id].request.workspace != ws {
        return Err(NotFound);
      }
      if Terminal(jobs[id].state) {
        return Err(NotCancellable);
      }
      var rows := RowsOf(View(), id);
      var job := jobs[id].(cancelRequestedAt := Coalesce(jobs[id].cancelRequestedAt, now));
      if Waiting(job.state) {
        job := job.(state := Cancelled, completedAt := Some(now));
      }
      jobs := jobs[id := job];
      attempts := attempts[id := rows];
      r := Ok(job.state);
    }

    /** The row of a set that comes first in the recovery order. */
    method FirstExpired(rows: set<string>, queue: string, now: Time) returns (first: string)
      requires rows != {} && rows <= jobs.Keys
      ensures first in rows
      ensures forall id :: id in rows && id != first ==> Before(View(), queue, now, first, id)
    {
      first :| first in rows;
      var todo := rows - {first};
      while todo != {}
        invariant todo <= rows && first in rows && first !in todo
        invariant forall id :: id in rows && id !in todo && id != first ==> Before(View(), queue, now, first, id)
        decreases todo
      {
        var id :| id in todo;
        todo := todo - {id};
        BeforeStrictOrder(View(), queue, now, first, id, id);
        if Before(View(), queue, now, id, first) {
          forall other | other in rows && other !in todo && other != id
            ensures Before(View(), queue, now, id, other)
          {
            if other != first {
              BeforeStrictOrder(View(), queue, now, id, first, other);
            }
          }
          first := id;
        }
      }
    }

    /** The recovery query: the first `limit` expired rows of the order. */
    method SelectExpired(queue: string, limit: nat, now: Time) returns (batch: seq<string>)
      ensures IsBatch(View(), queue, limit, now, batch)
    {
      batch := [];
      var expired := Expired(View(), queue, now);
      var rest := expired;
      while |batch| < limit && rest != {}
        invariant rest <= expired && |batch| <= limit && |rest| + |batch| == |expired|
        invariant Ordered(View(), queue, now, batch)
        invariant forall id :: id in expired && id !in batch ==> id in rest
        invariant forall id, i :: id in rest && 0 <= i < |batch| ==> Before(View(), queue, now, batch[i], id)
        decreases rest
      {
        var first := FirstExpired(rest, queue, now);
        rest := rest - {first};
        batch := batch + [first];
      }
    }

    /** The body of the recovery loop: one expired row. */
    method RecoverOne(id: string, clock: Time, delay: int, now: Time)
      requires id in jobs
      modifies this
      ensures View() == Apply(old(View()), id, Recovered(clock, delay), now)
      ensures id in jobs && JobEffects.RecoveredAs(old(jobs[id]), jobs[id], clock, delay, now)
    {
      var job, rows := jobs[id], RowsOf(View(), id);
      var state, outcome, completed, availableAt := Queued, OutLeaseExpired, false, clock;
      if job.cancelRequestedAt.Some? {
        state, outcome, completed := Cancelled, OutCancelled, true;
      } else if job.attemptCount >= job.request.maxAttempts {
        state, outcome, completed := DeadLetter, OutDeadLetter, true;
      } else if job.state == Running {
        state, availableAt := RetryWait, availableAt + delay;
      }
      jobs := jobs[id := job.(state := state, availableAt := availableAt,
          leaseOwner := None, leaseToken := None, leaseExpiresAt := None, heartbeatAt := None,
          lastErrorClass := if state == Cancelled then job.lastErrorClass
                            else if state == DeadLetter then Some(WorkerError) else Some(Retryable),
          lastErrorCode := if state == Cancelled then job.lastErrorCode else Some("lease_expired"),
          completedAt := if completed then Some(now) else None)];
      var n := job.attemptCount;
      if n in rows {
        rows := rows[n := rows[n].(finishedAt := Some(now), outcome := Some(outcome),
            safeErrorCode := if state == Cancelled then None else Some("lease_expired"))];
      }
      attempts := attempts[id := rows];
    }

    method RecoverBatch(batch: seq<string>, clocks: seq<Time>, delay: int, now: Time)
      requires |clocks| == |batch|
      requires forall i :: 0 <= i < |batch| ==> batch[i] in jobs
      modifies this
      ensures View() == RecoverAll(old(View()), batch, clocks, delay, now)
      ensures (forall i, j :: 0 <= i < j < |batch| ==> batch[i] != batch[j]) ==>
                JobEffects.BatchRecovered(old(jobs), jobs, batch, clocks, delay, now)
    {
      var k := 0;
      while k < |batch|
        invariant 0 <= k <= |batch|
        invariant View() == RecoverAll(old(View()), batch[..k], clocks, delay, now)
      {
        RecoverOne(batch[k], clocks[k], delay, now);
        assert batch[..k + 1][..k] == batch[..k];
        k := k + 1;
      }
      assert batch[..k] == batch;
      if forall i, j :: 0 <= i < j < |batch| ==> batch[i] != batch[j] {
        JobEffects.BatchIsRecovered(old(View()), batch, clocks, delay, now);
      }
    }

    /** Recovers a bounded batch; clocks[i] is the clock reading for the i-th row, never before `now`. */
    method RecoverExpired(queue: string, limit: int, delay: int, now: Time, clocks: seq<Time>)
      returns (r: Result<nat, Error>, batch: seq<string>)
      requires forall i :: 0 <= i < |clocks| ==> now <= clocks[i]
      requires |clocks| >= limit
      modifies this
      ensures !ValidRecover(queue, limit, delay) ==> r == Err(Invalid) && View() == old(View())
      ensures ValidRecover(queue, limit, delay) ==>
                && r == Ok(|batch|) && |batch| <= |clocks|
                && RecoverNext(old(View()), queue, limit, delay, now, batch, clocks[..|batch|], View())
                && JobEffects.BatchRecovered(old(jobs), jobs, batch, clocks[..|batch|], delay, now)
    {
      if !ValidRecover(queue, limit, delay) {
        return Err(Invalid), [];
      }
      batch := SelectExpired(queue, limit, now);
      JobEffects.OrderedIsDistinct(View(), queue, now, batch);
      RecoverBatch(batch, clocks[..|batch|], delay, now);
      r := Ok(|batch|);
    }
  }
}
