/**
 Whole runs of the job queue: every operation, in any order, by any number of
 workers and with a database clock that never goes back.
 */
module JobRuns {
  import opened Base
  import opened JobQueue
  import opened JobRecovery

  datatype Op =
    | EnqueueOp(newId: string, spec: Spec)
    | AcquireOp(queue: string, owner: string, drawn: string, lease: int, cap: int)
    | StartOp(ws: string, id: string, token: string)
    | HeartbeatOp(ws: string, id: string, token: string, lease: int)
    | FinishOp(ws: string, id: string, token: string, to: State)
    | FailOp(ws: string, id: string, token: string, failure: Failure, retryAt: Option<Time>)
    | RequestCancellationOp(ws: string, id: string)
    | RecoverOp(queue: string, limit: int, delay: int, batch: seq<string>, clocks: seq<Time>)

  datatype Reply = Done | Moved(state: State) | Refused(error: Error) | Leasing(job: string) | NoWork

  datatype Event = Event(op: Op, now: Time, reply: Reply)

  /** A fencing token is granted for one attempt of one job. */
  datatype Grant = Grant(job: string, attempt: nat)

  /** The tables, and as history the tokens drawn so far. */
  datatype World = World(store: Store, grants: map<TokenHash, Grant>)

  function ReplyOf<T>(r: Result<T, Error>): Reply {
    if r.Ok? then Done else Refused(r.error)
  }

  function ReplyState(r: Result<State, Error>): Reply {
    if r.Ok? then Moved(r.value) else Refused(r.error)
  }

  ghost predicate AcquireNext(w: World, e: Event, w': World)
    requires e.op.AcquireOp?
  {
    var AcquireOp(queue, owner, drawn, lease, cap) := e.op;
    match e.reply
    case Refused(error) => !ValidAcquire(queue, owner, lease, cap) && error == Invalid && w' == w
    case NoWork =>
      && ValidAcquire(queue, owner, lease, cap)
      && (forall id :: !Eligible(w.store, id, queue, cap, e.now))
      && w' == w
    case Leasing(id) =>
      && ValidAcquire(queue, owner, lease, cap)
      && Candidate(w.store, id, queue, cap, e.now)
         // the random source never repeats a token
      && TokenHash(drawn) !in w.grants
      && w' == World(Apply(w.store, id, Granted(owner, TokenHash(drawn), e.now + lease), e.now),
                     w.grants[TokenHash(drawn) := Grant(id, w.store.jobs[id].attemptCount + 1)])
    case _ => false
  }

  ghost predicate Next(w: World, e: Event, w': World) {
    match e.op
    case EnqueueOp(newId, spec) =>
      var o := EnqueueStep(w.store, newId, spec, e.now);
      e.reply == ReplyOf(o.result) && w' == w.(store := o.store)
    case AcquireOp(_, _, _, _, _) => AcquireNext(w, e, w')
    case StartOp(ws, id, token) =>
      var o := StartStep(w.store, ws, id, token, e.now);
      e.reply == ReplyOf(o.result) && w' == w.(store := o.store)
    case HeartbeatOp(ws, id, token, lease) =>
      var o := HeartbeatStep(w.store, ws, id, token, lease, e.now);
      e.reply == ReplyOf(o.result) && w' == w.(store := o.store)
    case FinishOp(ws, id, token, to) =>
      var o := FinishStep(w.store, ws, id, token, to, e.now);
      e.reply == ReplyOf(o.result) && w' == w.(store := o.store)
    case FailOp(ws, id, token, failure, retryAt) =>
      var o := FailStep(w.store, ws, id, token, failure, retryAt, e.now);
      e.reply == ReplyState(o.result) && w' == w.(store := o.store)
    case RequestCancellationOp(ws, id) =>
      var o := RequestCancellationStep(w.store, ws, id, e.now);
      e.reply == ReplyState(o.result) && w' == w.(store := o.store)
    case RecoverOp(queue, limit, delay, batch, clocks) =>
      && w'.grants == w.grants
      && ((e.reply == Refused(Invalid) && !ValidRecover(queue, limit, delay) && w'.store == w.store)
          || (e.reply == Done && RecoverNext(w.store, queue, limit, delay, e.now, batch, clocks, w'.store)))
  }

  ghost predicate Initial(w: World) { w == World(Store(map[], map[]), map[]) }

  ghost predicate StepAt(ws: seq<World>, es: seq<Event>, i: nat)
    requires |ws| == |es| + 1
  {
    i < |es| && Next(ws[i], es[i], ws[i + 1])
  }

  ghost predicate Forward(es: seq<Event>) {
    forall i, j :: 0 <= i <= j < |es| ==> es[i].now <= es[j].now
  }

  /** ws[i] is the state before event i and the clock never goes back. */
  ghost predicate IsRun(ws: seq<World>, es: seq<Event>) {
    && |ws| == |es| + 1
    && Initial(ws[0])
    && (forall i {:trigger StepAt(ws, es, i)} :: 0 <= i < |es| ==> StepAt(ws, es, i))
    && Forward(es)
  }

  lemma RunStep(ws: seq<World>, es: seq<Event>, i: nat)
    requires IsRun(ws, es) && i < |es|
    ensures Next(ws[i], es[i], ws[i + 1])
  {
    assert StepAt(ws, es, i);
  }

  // ---------------------------------------------------------------------
  // One step seen from one job row
  // ---------------------------------------------------------------------

  /** What one event may do to one existing row: nothing, or one enabled change. */
  ghost predicate RowStep(job: Job, rows: Rows, c: Change, now: Time, job': Job, rows': Rows) {
    Enabled(job, c, now) && job' == ChangeJob(job, c, now) && rows' == ChangeRows(job, rows, c, now)
  }

  ghost predicate RowSame(s: Store, s': Store, id: string)
    requires id in s.jobs && id in s'.jobs
  {
    s'.jobs[id] == s.jobs[id] && RowsOf(s', id) == RowsOf(s, id)
  }

  /** The effect of one event on the tables. */
  datatype Effect =
    | Nothing
    | Inserted(id: string, spec: Spec)
    | Changed(id: string, change: Change)
    | Batched

  function EffectOf(e: Event): Effect {
    if e.reply.Refused? || e.reply.NoWork? then Nothing
    else
      match e.op
      case EnqueueOp(newId, spec) => Inserted(newId, spec)
      case AcquireOp(_, owner, drawn, lease, _) =>
        if e.reply.Leasing? then Changed(e.reply.job, Granted(owner, TokenHash(drawn), e.now + lease)) else Nothing
      case StartOp(_, id, _) => Changed(id, Started)
      case HeartbeatOp(_, id, _, lease) => Changed(id, Beaten(e.now + lease))
      case FinishOp(_, id, _, to) => Changed(id, Finished(to))
      case FailOp(_, id, _, failure, retryAt) => Changed(id, Failing(failure, Coalesce(retryAt, 0).value))
      case RequestCancellationOp(_, id) => Changed(id, CancelAsked)
      case RecoverOp(_, _, _, _, _) => Batched
  }

  lemma NextNothing(w: World, e: Event, w': World)
    requires Next(w, e, w') && EffectOf(e).Nothing?
    ensures w' == w
  {
  }

  lemma NextInserted(w: World, e: Event, w': World)
    requires Next(w, e, w') && EffectOf(e).Inserted?
    ensures w' == w
            || var Inserted(id, spec) := EffectOf(e);
               && ValidSpec(spec) && id !in w.store.jobs
               && w' == w.(store := Store(w.store.jobs[id := NewJob(spec, e.now)], w.store.attempts[id := map[]]))
  {
  }

  lemma NextChanged(w: World, e: Event, w': World)
    requires Next(w, e, w') && EffectOf(e).Changed?
    ensures var Changed(id, c) := EffectOf(e);
            && id in w.store.jobs && Enabled(w.store.jobs[id], c, e.now)
            && w'.store == Apply(w.store, id, c, e.now)
            && (!c.Granted? ==> w'.grants == w.grants)
  {
  }

  lemma NextBatched(w: World, e: Event, w': World)
    requires Next(w, e, w') && EffectOf(e).Batched?
    ensures var RecoverOp(queue, limit, delay, batch, clocks) := e.op;
            RecoverNext(w.store, queue, limit, delay, e.now, batch, clocks, w'.store)
    ensures w'.grants == w.grants
  {
  }

  lemma ApplyRow(s: Store, other: string, c: Change, now: Time, id: string)
    requires id in s.jobs && other in s.jobs && Enabled(s.jobs[other], c, now)
    ensures id != other ==> RowSame(s, Apply(s, other, c, now), id)
    ensures id == other ==> RowStep(s.jobs[id], RowsOf(s, id), c, now,
                                    Apply(s, other, c, now).jobs[id], RowsOf(Apply(s, other, c, now), id))
  {
  }

  /** Every event leaves every existing row alone or applies one enabled change to it; rows are never deleted. */
  lemma NextRow(w: World, e: Event, w': World, id: string)
    requires Next(w, e, w') && id in w.store.jobs
    ensures id in w'.store.jobs
    ensures RowSame(w.store, w'.store, id)
            || exists c :: RowStep(w.store.jobs[id], RowsOf(w.store, id), c, e.now,
                                   w'.store.jobs[id], RowsOf(w'.store, id))
  {
    match EffectOf(e)
    case Nothing => NextNothing(w, e, w');
    case Inserted(_, _) => NextInserted(w, e, w');
    case Changed(other, c) =>
      NextChanged(w, e, w');
      ApplyRow(w.store, other, c, e.now, id);
    case Batched =>
      NextBatched(w, e, w');
      RecoverRow(w.store, e.op.queue, e.op.limit, e.op.delay, e.now, e.op.batch, e.op.clocks, w'.store, id);
      if id in e.op.batch {
        var i :| 0 <= i < |e.op.batch| && e.op.batch[i] == id;
      }
  }

  lemma BatchDistinct(s: Store, queue: string, now: Time, batch: seq<string>)
    requires Ordered(s, queue, now, batch)
    ensures forall i, j :: 0 <= i < j < |batch| ==> batch[i] != batch[j]
  {
    forall i, j | 0 <= i < j < |batch| ensures batch[i] != batch[j] {
      BeforeStrictOrder(s, queue, now, batch[i], batch[j], batch[j]);
    }
  }

  lemma RecoverRow(s: Store, queue: string, limit: int, delay: int, now: Time,
                   batch: seq<string>, clocks: seq<Time>, s': Store, id: string)
    requires RecoverNext(s, queue, limit, delay, now, batch, clocks, s') && id in s.jobs
    ensures id in s'.jobs
    ensures id !in batch ==> RowSame(s, s', id)
    ensures forall i :: 0 <= i < |batch| && batch[i] == id ==>
                          RowStep(s.jobs[id], RowsOf(s, id), Recovered(clocks[i], delay), now,
                                  s'.jobs[id], RowsOf(s', id))
  {
    BatchDistinct(s, queue, now, batch);
    RecoverAllPointwise(s, batch, clocks, delay, now, id);
  }

  /** A row that did not exist before an event is a freshly enqueued, valid request. */
  lemma NextNewRow(w: World, e: Event, w': World, id: string)
    requires Next(w, e, w') && id !in w.store.jobs && id in w'.store.jobs
    ensures e.op.EnqueueOp? && ValidSpec(e.op.spec)
    ensures w'.store.jobs[id] == NewJob(e.op.spec, e.now) && RowsOf(w'.store, id) == map[]
  {
    match EffectOf(e)
    case Nothing => NextNothing(w, e, w');
    case Inserted(_, _) => NextInserted(w, e, w');
    case Changed(_, _) => NextChanged(w, e, w');
    case Batched => NextBatched(w, e, w');
  }
}
