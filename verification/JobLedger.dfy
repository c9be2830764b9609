/**
 What every reachable state of the job queue keeps: the table constraints, the
 attempt budget that Acquire never tests, and the attempts ledger.
 */
module JobLedger {
  import opened Base
  import opened JobQueue
  import opened JobRuns

  /** The CHECK constraints of the jobs table. */
  predicate TableChecks(job: Job) {
    && 1 <= job.request.maxAttempts <= 100
    && job.attemptCount <= job.request.maxAttempts
    && (Waiting(job.state) ==> job.attemptCount < job.request.maxAttempts)
    && (Active(job.state) ==> job.attemptCount > 0)
    && (Active(job.state) <==> job.leaseOwner.Some?)
    && (Active(job.state) <==> job.leaseToken.Some?)
    && (Active(job.state) <==> job.leaseExpiresAt.Some?)
    && (Active(job.state) <==> job.heartbeatAt.Some?)
    && (job.state == Running ==> job.startedAt.Some?)
    && (Terminal(job.state) <==> job.completedAt.Some?)
  }

  /** Only an active or a cancelled job carries the cancellation flag. */
  predicate FlagInv(job: Job) {
    job.cancelRequestedAt.Some? ==> Active(job.state) || job.state == Cancelled
  }

  /** One attempt row, the last one or an earlier one, of a job in the given state. */
  predicate LedgerRow(state: State, last: bool, row: Attempt) {
    && (row.finishedAt.None? <==> row.outcome.None?)
    && (row.outcome.None? <==> (last && Active(state)))
    && (row.outcome == Some(OutSucceeded) <==> (last && state == Succeeded))
    && (row.outcome == Some(OutDeadLetter) <==> (last && state == DeadLetter))
    && (row.outcome == Some(OutCancelled) ==> (last && state == Cancelled))
  }

  /** The ledger is exactly rows 1..attempt_count, open only at the end of an active job. */
  predicate LedgerInv(job: Job, rows: Rows) {
    && rows.Keys == UpTo(job.attemptCount)
    && forall n :: n in rows ==> LedgerRow(job.state, n == job.attemptCount, rows[n])
  }

  /** The row invariant without the ledger. */
  predicate JobInv(job: Job) {
    && TableChecks(job) && FlagInv(job)
    && ((job.state == Succeeded || job.state == DeadLetter) ==> job.attemptCount > 0)
  }

  predicate RowInv(job: Job, rows: Rows) { JobInv(job) && LedgerInv(job, rows) }

  lemma HoldingKeepsJob(job: Job, c: Change, now: Time)
    requires JobInv(job) && Enabled(job, c, now) && (c.Granted? || c.Started? || c.Beaten?)
    ensures JobInv(ChangeJob(job, c, now))
  {
  }

  lemma EndingKeepsJob(job: Job, c: Change, now: Time)
    requires JobInv(job) && Enabled(job, c, now) && (c.Finished? || c.Failing? || c.CancelAsked?)
    ensures JobInv(ChangeJob(job, c, now))
  {
  }

  lemma RecoveryKeepsJob(job: Job, c: Change, now: Time)
    requires JobInv(job) && Enabled(job, c, now) && c.Recovered?
    ensures JobInv(ChangeJob(job, c, now))
  {
  }

  lemma ChangeKeepsJob(job: Job, c: Change, now: Time)
    requires JobInv(job) && Enabled(job, c, now)
    ensures JobInv(ChangeJob(job, c, now))
  {
    match c
    case Granted(_, _, _) => HoldingKeepsJob(job, c, now);
    case Started => HoldingKeepsJob(job, c, now);
    case Beaten(_) => HoldingKeepsJob(job, c, now);
    case Recovered(_, _) => RecoveryKeepsJob(job, c, now);
    case _ => EndingKeepsJob(job, c, now);
  }

  lemma FinishKeepsLedger(job: Job, rows: Rows, now: Time, to: State, expired: bool, code: Option<string>, job': Job)
    requires RowInv(job, rows) && Active(job.state) && !Active(to)
    requires job'.state == to && job'.attemptCount == job.attemptCount
    ensures LedgerInv(job', FinishRow(rows, job.attemptCount, now, OutcomeOf(to, expired), code))
  {
    var rows' := FinishRow(rows, job.attemptCount, now, OutcomeOf(to, expired), code);
    assert rows'.Keys == rows.Keys;
    forall n | n in rows' ensures LedgerRow(to, n == job.attemptCount, rows'[n]) {
      assert LedgerRow(job.state, n == job.attemptCount, rows[n]);
    }
  }

  lemma TouchKeepsLedger(job: Job, rows: Rows, job': Job, rows': Rows)
    requires LedgerInv(job, rows)
    requires job'.attemptCount == job.attemptCount
    requires Active(job.state) <==> Active(job'.state)
    requires !Active(job.state) ==> job'.state == job.state
    requires rows'.Keys == rows.Keys
    requires forall n :: n in rows ==> rows'[n].outcome == rows[n].outcome && rows'[n].finishedAt == rows[n].finishedAt
    ensures LedgerInv(job', rows')
  {
    forall n | n in rows' ensures LedgerRow(job'.state, n == job.attemptCount, rows'[n]) {
      assert LedgerRow(job.state, n == job.attemptCount, rows[n]);
    }
  }

  lemma GrantKeepsLedger(job: Job, rows: Rows, c: Change, now: Time)
    requires RowInv(job, rows) && Enabled(job, c, now) && c.Granted?
    ensures LedgerInv(ChangeJob(job, c, now), ChangeRows(job, rows, c, now))
  {
    var n := job.attemptCount;
    var rows' := ChangeRows(job, rows, c, now);
    assert rows'.Keys == rows.Keys + {n + 1};
    assert rows'.Keys == UpTo(n + 1);
    forall k | k in rows' ensures LedgerRow(Leased, k == n + 1, rows'[k]) {
      if k != n + 1 {
        assert LedgerRow(job.state, k == n, rows[k]);
      }
    }
  }

  lemma CancelKeepsLedger(job: Job, rows: Rows, now: Time)
    requires RowInv(job, rows) && Enabled(job, CancelAsked, now)
    ensures LedgerInv(ChangeJob(job, CancelAsked, now), rows)
  {
    forall n | n in rows ensures LedgerRow(ChangeJob(job, CancelAsked, now).state, n == job.attemptCount, rows[n]) {
      assert LedgerRow(job.state, n == job.attemptCount, rows[n]);
    }
  }

  lemma ChangeKeepsLedger(job: Job, rows: Rows, c: Change, now: Time)
    requires RowInv(job, rows) && Enabled(job, c, now)
    ensures LedgerInv(ChangeJob(job, c, now), ChangeRows(job, rows, c, now))
  {
    var job', rows' := ChangeJob(job, c, now), ChangeRows(job, rows, c, now);
    match c
    case Granted(_, _, _) => GrantKeepsLedger(job, rows, c, now);
    case Started => TouchKeepsLedger(job, rows, job', rows');
    case Beaten(_) => TouchKeepsLedger(job, rows, job', rows');
    case Finished(to) =>
      FinishKeepsLedger(job, rows, now, to, false, rows[job.attemptCount].safeErrorCode, job');
    case Failing(failure, _) =>
      var to := FailTarget(job, failure);
      FinishKeepsLedger(job, rows, now, to, false, if to == Cancelled then None else Some(failure.code), job');
    case CancelAsked => CancelKeepsLedger(job, rows, now);
    case Recovered(_, _) =>
      var to := RecoverTarget(job);
      FinishKeepsLedger(job, rows, now, to, true, if to == Cancelled then None else Some("lease_expired"), job');
  }

  /** Every change keeps the row invariant; none is refused by a table constraint. */
  lemma ChangeKeepsRow(job: Job, rows: Rows, c: Change, now: Time)
    requires RowInv(job, rows) && Enabled(job, c, now)
    ensures RowInv(ChangeJob(job, c, now), ChangeRows(job, rows, c, now))
  {
    ChangeKeepsJob(job, c, now);
    ChangeKeepsLedger(job, rows, c, now);
  }

  ghost predicate StoreInv(s: Store) {
    forall id :: id in s.jobs ==> RowInv(s.jobs[id], RowsOf(s, id))
  }

  lemma NewJobRow(spec: Spec, clock: Time)
    requires ValidSpec(spec)
    ensures RowInv(NewJob(spec, clock), map[])
  {
    var rows: Rows := map[];
    assert rows.Keys == UpTo(0);
  }

  lemma NextKeepsStore(w: World, e: Event, w': World)
    requires StoreInv(w.store) && Next(w, e, w')
    ensures StoreInv(w'.store)
  {
    forall id | id in w'.store.jobs ensures RowInv(w'.store.jobs[id], RowsOf(w'.store, id)) {
      if id in w.store.jobs {
        NextRow(w, e, w', id);
        if !RowSame(w.store, w'.store, id) {
          var c :| RowStep(w.store.jobs[id], RowsOf(w.store, id), c, e.now,
                           w'.store.jobs[id], RowsOf(w'.store, id));
          ChangeKeepsRow(w.store.jobs[id], RowsOf(w.store, id), c, e.now);
        }
      } else {
        NextNewRow(w, e, w', id);
        NewJobRow(e.op.spec, e.now);
      }
    }
  }

  /** In every reachable state every row satisfies the table constraints and its ledger is exact. */
  lemma {:induction false} RunKeepsStore(ws: seq<World>, es: seq<Event>, k: nat)
    requires IsRun(ws, es) && k < |ws|
    ensures StoreInv(ws[k].store)
  {
    if k > 0 {
      RunKeepsStore(ws, es, k - 1);
      RunStep(ws, es, k - 1);
      NextKeepsStore(ws[k - 1], es[k - 1], ws[k]);
    }
  }

  /** What one event may do to one existing row, without saying which event. */
  ghost predicate RowMove(s: Store, s': Store, id: string, now: Time) {
    && id in s.jobs && id in s'.jobs
    && (RowSame(s, s', id)
        || exists c :: RowStep(s.jobs[id], RowsOf(s, id), c, now, s'.jobs[id], RowsOf(s', id)))
  }

  lemma RunRow(ws: seq<World>, es: seq<Event>, k: nat, id: string)
    requires IsRun(ws, es) && k < |es| && id in ws[k].store.jobs
    ensures RowMove(ws[k].store, ws[k + 1].store, id, es[k].now)
    ensures RowInv(ws[k].store.jobs[id], RowsOf(ws[k].store, id))
  {
    RunStep(ws, es, k);
    RunKeepsStore(ws, es, k);
    NextRow(ws[k], es[k], ws[k + 1], id);
  }

  lemma FinishedRowFrozen(job: Job, rows: Rows, c: Change, now: Time, n: nat)
    requires RowInv(job, rows) && Enabled(job, c, now) && n in rows && rows[n].outcome.Some?
    ensures n in ChangeRows(job, rows, c, now) && ChangeRows(job, rows, c, now)[n] == rows[n]
  {
    assert LedgerRow(job.state, n == job.attemptCount, rows[n]);
  }

  ghost predicate FinishedWith(s: Store, id: string, n: nat, row: Attempt) {
    id in s.jobs && n in RowsOf(s, id) && RowsOf(s, id)[n] == row && row.outcome.Some?
  }

  lemma FinishedRowMoves(s: Store, s': Store, id: string, now: Time, n: nat, row: Attempt)
    requires FinishedWith(s, id, n, row) && RowMove(s, s', id, now) && RowInv(s.jobs[id], RowsOf(s, id))
    ensures FinishedWith(s', id, n, row)
  {
    if !RowSame(s, s', id) {
      var c :| RowStep(s.jobs[id], RowsOf(s, id), c, now, s'.jobs[id], RowsOf(s', id));
      FinishedRowFrozen(s.jobs[id], RowsOf(s, id), c, now, n);
    }
  }

  lemma FinishedRowAt(ws: seq<World>, es: seq<Event>, k: nat, id: string, n: nat, row: Attempt)
    requires IsRun(ws, es) && k < |es| && FinishedWith(ws[k].store, id, n, row)
    ensures FinishedWith(ws[k + 1].store, id, n, row)
  {
    RunRow(ws, es, k, id);
    FinishedRowMoves(ws[k].store, ws[k + 1].store, id, es[k].now, n, row);
  }

  /** Each attempt outcome is written once: a finished attempt row never changes again. */
  lemma FinishedRowsStayFrozen(ws: seq<World>, es: seq<Event>, i: nat, j: nat, id: string, n: nat, row: Attempt)
    requires IsRun(ws, es) && i <= j < |ws| && FinishedWith(ws[i].store, id, n, row)
    ensures FinishedWith(ws[j].store, id, n, row)
  {
    for k := i to j
      invariant FinishedWith(ws[k].store, id, n, row)
    {
      FinishedRowAt(ws, es, k, id, n, row);
    }
  }

  // ---------------------------------------------------------------------
  // The attempt budget bounds the whole life of a job
  // ---------------------------------------------------------------------

  function Phase(state: State): nat {
    match state
    case Leased => 2
    case Running => 1
    case _ => 0
  }

  /** Strictly falls on every state change. */
  function Budget(job: Job): int {
    if Terminal(job.state) then 0 else 3 * (job.request.maxAttempts - job.attemptCount) + Phase(job.state)
  }

  lemma BudgetFalls(job: Job, rows: Rows, c: Change, now: Time)
    requires RowInv(job, rows) && Enabled(job, c, now)
    ensures var job' := ChangeJob(job, c, now);
            && job'.request == job.request
            && 0 <= Budget(job') <= Budget(job) <= 3 * job.request.maxAttempts
            && (job'.state != job.state ==> Budget(job') < Budget(job))
  {
  }

  /** How often the job's state changed among the first k + 1 states of a run. */
  ghost function StateChanges(ws: seq<World>, id: string, k: nat): nat
    requires k < |ws|
  {
    if k == 0 then 0
    else
      StateChanges(ws, id, k - 1)
      + (if id in ws[k - 1].store.jobs && id in ws[k].store.jobs
            && ws[k - 1].store.jobs[id].state != ws[k].store.jobs[id].state then 1 else 0)
  }

  /** The budget covers the state changes so far. */
  ghost predicate WithinBudget(s: Store, id: string, changes: nat) {
    if id in s.jobs then 0 <= Budget(s.jobs[id]) && changes + Budget(s.jobs[id]) <= 3 * s.jobs[id].request.maxAttempts
    else changes == 0
  }

  lemma BudgetMoves(s: Store, s': Store, id: string, now: Time, changes: nat)
    requires WithinBudget(s, id, changes) && RowMove(s, s', id, now) && RowInv(s.jobs[id], RowsOf(s, id))
    ensures WithinBudget(s', id, changes + if s.jobs[id].state != s'.jobs[id].state then 1 else 0)
  {
    if !RowSame(s, s', id) {
      var c :| RowStep(s.jobs[id], RowsOf(s, id), c, now, s'.jobs[id], RowsOf(s', id));
      BudgetFalls(s.jobs[id], RowsOf(s, id), c, now);
    }
  }

  lemma BudgetStarts(ws: seq<World>, es: seq<Event>, k: nat, id: string)
    requires IsRun(ws, es) && k < |es| && id !in ws[k].store.jobs
    ensures WithinBudget(ws[k + 1].store, id, 0)
  {
    RunStep(ws, es, k);
    if id in ws[k + 1].store.jobs {
      NextNewRow(ws[k], es[k], ws[k + 1], id);
    }
  }

  lemma BudgetAt(ws: seq<World>, es: seq<Event>, k: nat, id: string)
    requires IsRun(ws, es) && k < |es| && WithinBudget(ws[k].store, id, StateChanges(ws, id, k))
    ensures WithinBudget(ws[k + 1].store, id, StateChanges(ws, id, k + 1))
  {
    if id in ws[k].store.jobs {
      RunRow(ws, es, k, id);
      BudgetMoves(ws[k].store, ws[k + 1].store, id, es[k].now, StateChanges(ws, id, k));
    } else {
      BudgetStarts(ws, es, k, id);
    }
  }

  lemma ChangesWithinBudget(ws: seq<World>, es: seq<Event>, id: string, n: nat)
    requires IsRun(ws, es) && n < |ws|
    ensures WithinBudget(ws[n].store, id, StateChanges(ws, id, n))
  {
    for k := 0 to n
      invariant WithinBudget(ws[k].store, id, StateChanges(ws, id, k))
    {
      BudgetAt(ws, es, k, id);
    }
  }

  /** A job changes state at most 3 * max_attempts times in any run, and never exceeds its attempt budget. */
  lemma StateChangesBounded(ws: seq<World>, es: seq<Event>, id: string)
    requires IsRun(ws, es) && id in ws[|es|].store.jobs
    ensures var job := ws[|es|].store.jobs[id];
            && job.attemptCount <= job.request.maxAttempts
            && StateChanges(ws, id, |es|) <= 3 * job.request.maxAttempts
  {
    ChangesWithinBudget(ws, es, id, |es|);
    RunKeepsStore(ws, es, |es|);
  }

  // ---------------------------------------------------------------------
  // Cancellation
  // ---------------------------------------------------------------------

  ghost predicate CancelPending(s: Store, id: string) {
    id in s.jobs && s.jobs[id].cancelRequestedAt.Some?
  }

  /** The changes a job with a pending cancellation can still undergo. */
  predicate Forbidden(c: Change) {
    c.Granted? || c.Started? || c.Beaten? || c == Finished(Succeeded)
  }

  lemma CancellationChange(job: Job, rows: Rows, c: Change, now: Time)
    requires RowInv(job, rows) && Enabled(job, c, now) && job.cancelRequestedAt.Some?
    ensures !Forbidden(c)
    ensures var job' := ChangeJob(job, c, now);
            job'.cancelRequestedAt.Some? && (job'.state == job.state || job'.state == Cancelled)
  {
  }

  /** A pending cancellation leaves no terminal state but cancelled. */
  ghost predicate Cancelling(s: Store, id: string) {
    CancelPending(s, id) && (Terminal(s.jobs[id].state) ==> s.jobs[id].state == Cancelled)
  }

  lemma CancellationMoves(s: Store, s': Store, id: string, now: Time)
    requires Cancelling(s, id) && RowMove(s, s', id, now) && RowInv(s.jobs[id], RowsOf(s, id))
    ensures Cancelling(s', id)
  {
    if !RowSame(s, s', id) {
      var c :| RowStep(s.jobs[id], RowsOf(s, id), c, now, s'.jobs[id], RowsOf(s', id));
      CancellationChange(s.jobs[id], RowsOf(s, id), c, now);
    }
  }

  lemma PendingIsCancelling(ws: seq<World>, es: seq<Event>, i: nat, id: string)
    requires IsRun(ws, es) && i < |ws| && CancelPending(ws[i].store, id)
    ensures Cancelling(ws[i].store, id)
  {
    RunKeepsStore(ws, es, i);
    assert RowInv(ws[i].store.jobs[id], RowsOf(ws[i].store, id));
  }

  lemma CancellingAt(ws: seq<World>, es: seq<Event>, k: nat, id: string)
    requires IsRun(ws, es) && k < |es| && Cancelling(ws[k].store, id)
    ensures Cancelling(ws[k + 1].store, id)
  {
    RunRow(ws, es, k, id);
    CancellationMoves(ws[k].store, ws[k + 1].store, id, es[k].now);
  }

  /** Once requested, cancellation stays, and the only terminal state left is cancelled. */
  lemma CancellationIsFinal(ws: seq<World>, es: seq<Event>, i: nat, j: nat, id: string)
    requires IsRun(ws, es) && i <= j < |ws| && CancelPending(ws[i].store, id)
    ensures Cancelling(ws[j].store, id)
  {
    PendingIsCancelling(ws, es, i, id);
    for k := i to j
      invariant Cancelling(ws[k].store, id)
    {
      CancellingAt(ws, es, k, id);
    }
  }

  /** No event of any continuation grants, starts, extends or succeeds a job whose cancellation was requested. */
  lemma CancellationForbids(ws: seq<World>, es: seq<Event>, i: nat, j: nat, id: string)
    requires IsRun(ws, es) && i <= j < |es| && CancelPending(ws[i].store, id)
    requires EffectOf(es[j]).Changed? && EffectOf(es[j]).id == id
    ensures !Forbidden(EffectOf(es[j]).change)
  {
    CancellationIsFinal(ws, es, i, j, id);
    RunKeepsStore(ws, es, j);
    RunStep(ws, es, j);
    NextChanged(ws[j], es[j], ws[j + 1]);
    CancellationChange(ws[j].store.jobs[id], RowsOf(ws[j].store, id), EffectOf(es[j]).change, es[j].now);
  }
}
