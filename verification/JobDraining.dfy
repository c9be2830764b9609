/**
 Recovery inside whole runs: whatever other events come in between, enough
 recovery calls on a queue reach every lease that has expired there.
 */
module JobDraining {
  import opened Base
  import opened JobQueue
  import opened JobRecovery
  import opened JobRuns
  import opened JobFairness

  /** The jobs of a queue under some lease. */
  function Held(s: Store, queue: string): set<string> {
    set id | id in s.jobs && s.jobs[id].request.queue == queue && Active(s.jobs[id].state)
  }

  predicate Recovers(e: Event, queue: string) { e.op.RecoverOp? && e.op.queue == queue && e.reply == Done }

  /** The event recovers the lease of this job. */
  predicate Reaches(e: Event, queue: string, id: string) { Recovers(e, queue) && id in e.op.batch }

  /** The batch sizes that the recovery calls of a stretch of events were allowed, in all. */
  function Allowed(es: seq<Event>, queue: string, i: nat, j: nat): int
    requires i <= j <= |es|
  {
    if i == j then 0
    else Allowed(es, queue, i, j - 1) + if Recovers(es[j - 1], queue) then es[j - 1].op.limit else 0
  }

  predicate Leases(e: Event, queue: string) { e.op.AcquireOp? && e.op.queue == queue && e.reply.Leasing? }

  /** The leases granted on a queue in a stretch of events. */
  function Grants(es: seq<Event>, queue: string, i: nat, j: nat): nat
    requires i <= j <= |es|
  {
    if i == j then 0 else Grants(es, queue, i, j - 1) + if Leases(es[j - 1], queue) then 1 else 0
  }

  // An expired lease stays as it is until it is recovered

  lemma ExpiredChange(job: Job, c: Change, now: Time, t: Time)
    requires LeaseExpired(job, t) && t <= now && Enabled(job, c, now) && !c.Recovered?
    ensures LeaseExpired(ChangeJob(job, c, now), t) && ChangeJob(job, c, now).request == job.request
  {
  }

  lemma ExpiredStays(w: World, e: Event, w': World, queue: string, id: string, t: Time)
    requires Next(w, e, w') && IsExpired(w.store, id, queue, t) && t <= e.now && !Reaches(e, queue, id)
    ensures IsExpired(w'.store, id, queue, t)
  {
    match EffectOf(e)
    case Nothing => NextNothing(w, e, w');
    case Inserted(_, _) => NextInserted(w, e, w');
    case Changed(other, c) =>
      NextChanged(w, e, w');
      ApplyRow(w.store, other, c, e.now, id);
      ChangedIsNoRecovery(e);
      if id == other {
        ExpiredChange(w.store.jobs[id], c, e.now, t);
      }
    case Batched =>
      NextBatched(w, e, w');
      RecoverRow(w.store, e.op.queue, e.op.limit, e.op.delay, e.now, e.op.batch, e.op.clocks, w'.store, id);
      if id in e.op.batch {
        BatchInQueue(w.store, e, w'.store, id);
      }
  }

  lemma ChangedIsNoRecovery(e: Event)
    requires EffectOf(e).Changed?
    ensures !EffectOf(e).change.Recovered?
  {
  }

  lemma BatchInQueue(s: Store, e: Event, s': Store, id: string)
    requires e.op.RecoverOp? && id in e.op.batch
    requires RecoverNext(s, e.op.queue, e.op.limit, e.op.delay, e.now, e.op.batch, e.op.clocks, s')
    ensures id in s.jobs && s.jobs[id].request.queue == e.op.queue
  {
    RecoverShrinks(s, e.op.queue, e.op.limit, e.op.delay, e.now, e.op.batch, e.op.clocks, s', e.now);
    assert id in BatchSet(e.op.batch);
  }

  // The number of leases falls with every recovery that passes over an expired one

  lemma HeldChange(s: Store, id: string, c: Change, now: Time, queue: string)
    requires id in s.jobs && Enabled(s.jobs[id], c, now)
    ensures Held(Apply(s, id, c, now), queue)
            <= Held(s, queue) + if c.Granted? && s.jobs[id].request.queue == queue then {id} else {}
  {
  }

  lemma RecoveredInactive(job: Job, clock: Time, delay: int, now: Time)
    requires LeaseExpired(job, now)
    ensures !Active(ChangeJob(job, Recovered(clock, delay), now).state)
    ensures ChangeJob(job, Recovered(clock, delay), now).request == job.request
  {
  }

  lemma HeldRecovered(s: Store, q: string, limit: int, delay: int, now: Time, batch: seq<string>, clocks: seq<Time>,
                      s': Store, queue: string)
    requires RecoverNext(s, q, limit, delay, now, batch, clocks, s')
    ensures Held(s', queue) <= Held(s, queue) - BatchSet(batch)
  {
    forall id | id in Held(s', queue) ensures id in Held(s, queue) - BatchSet(batch) {
      if id in s.jobs {
        RecoverRow(s, q, limit, delay, now, batch, clocks, s', id);
        if id in batch {
          var i :| 0 <= i < |batch| && batch[i] == id;
          RecoveredInactive(s.jobs[id], clocks[i], delay, now);
        }
      } else {
        RecoverAddsNoRow(s, q, limit, delay, now, batch, clocks, s', id);
      }
    }
  }

  lemma RecoverAddsNoRow(s: Store, q: string, limit: int, delay: int, now: Time, batch: seq<string>,
                         clocks: seq<Time>, s': Store, id: string)
    requires RecoverNext(s, q, limit, delay, now, batch, clocks, s') && id !in s.jobs
    ensures id !in s'.jobs
  {
    var w, w' := World(s, map[]), World(s', map[]);
    var e := Event(RecoverOp(q, limit, delay, batch, clocks), now, Done);
    if id in s'.jobs {
      NextNewRow(w, e, w', id);
    }
  }

  /** A recovery that passes over an expired lease takes a full batch of others. */
  lemma PassedOver(s: Store, queue: string, limit: int, delay: int, now: Time, batch: seq<string>, clocks: seq<Time>,
                   s': Store, id: string)
    requires RecoverNext(s, queue, limit, delay, now, batch, clocks, s')
    requires IsExpired(s, id, queue, now) && id !in batch
    ensures |Held(s', queue)| + limit <= |Held(s, queue)|
  {
    RecoverShrinks(s, queue, limit, delay, now, batch, clocks, s', now);
    var taken := BatchSet(batch);
    assert id in Expired(s, queue, now) - taken;
    SubsetCardinality(taken + {id}, Expired(s, queue, now));
    HeldRecovered(s, queue, limit, delay, now, batch, clocks, s', queue);
    SubsetCardinality(Held(s', queue), Held(s, queue) - taken);
    assert taken <= Expired(s, queue, now) <= Held(s, queue);
    assert |Held(s, queue) - taken| == |Held(s, queue)| - |taken|;
  }

  lemma BatchedHeld(w: World, e: Event, w': World, queue: string, id: string)
    requires Next(w, e, w') && EffectOf(e).Batched?
    requires IsExpired(w.store, id, queue, e.now) && !Reaches(e, queue, id)
    ensures |Held(w'.store, queue)| + (if Recovers(e, queue) then e.op.limit else 0) <= |Held(w.store, queue)|
  {
    NextBatched(w, e, w');
    if Recovers(e, queue) {
      PassedOver(w.store, queue, e.op.limit, e.op.delay, e.now, e.op.batch, e.op.clocks, w'.store, id);
    } else {
      HeldRecovered(w.store, e.op.queue, e.op.limit, e.op.delay, e.now, e.op.batch, e.op.clocks, w'.store, queue);
      SubsetCardinality(Held(w'.store, queue), Held(w.store, queue));
    }
  }

  lemma GrantInQueue(w: World, e: Event, w': World)
    requires Next(w, e, w') && EffectOf(e).Changed? && EffectOf(e).change.Granted?
    ensures EffectOf(e).id in w.store.jobs && Leases(e, w.store.jobs[EffectOf(e).id].request.queue)
  {
  }

  lemma ChangedHeld(w: World, e: Event, w': World, queue: string)
    requires Next(w, e, w') && EffectOf(e).Changed?
    ensures |Held(w'.store, queue)| <= |Held(w.store, queue)| + (if Leases(e, queue) then 1 else 0)
  {
    var Changed(other, c) := EffectOf(e);
    NextChanged(w, e, w');
    HeldChange(w.store, other, c, e.now, queue);
    if c.Granted? {
      GrantInQueue(w, e, w');
    }
    var more := if Leases(e, queue) then {other} else {};
    SubsetCardinality(Held(w'.store, queue), Held(w.store, queue) + more);
  }

  lemma OtherHeld(w: World, e: Event, w': World, queue: string)
    requires Next(w, e, w') && !EffectOf(e).Batched?
    ensures |Held(w'.store, queue)| <= |Held(w.store, queue)| + (if Leases(e, queue) then 1 else 0)
    ensures !Recovers(e, queue)
  {
    match EffectOf(e)
    case Nothing => NextNothing(w, e, w');
    case Inserted(_, _) =>
      NextInserted(w, e, w');
      assert Held(w'.store, queue) == Held(w.store, queue);
    case Changed(_, _) => ChangedHeld(w, e, w', queue);
  }

  lemma HeldMoves(w: World, e: Event, w': World, queue: string, id: string, t: Time)
    requires Next(w, e, w') && IsExpired(w.store, id, queue, t) && t <= e.now && !Reaches(e, queue, id)
    ensures |Held(w'.store, queue)| + (if Recovers(e, queue) then e.op.limit else 0)
            <= |Held(w.store, queue)| + (if Leases(e, queue) then 1 else 0)
  {
    if EffectOf(e).Batched? {
      BatchedHeld(w, e, w', queue, id);
    } else {
      OtherHeld(w, e, w', queue);
    }
  }

  ghost predicate NotReached(es: seq<Event>, queue: string, id: string, i: nat, j: nat)
    requires j <= |es|
  {
    forall k :: i <= k < j ==> !Reaches(es[k], queue, id)
  }

  /** As long as an expired lease is passed over, it stays expired and every recovery has taken a full batch. */
  lemma {:induction false} PassedOverSoFar(ws: seq<World>, es: seq<Event>, queue: string, id: string, i: nat, j: nat)
    requires IsRun(ws, es) && i <= j <= |es| && i < |es|
    requires IsExpired(ws[i].store, id, queue, es[i].now) && NotReached(es, queue, id, i, j)
    ensures IsExpired(ws[j].store, id, queue, es[i].now)
    ensures |Held(ws[j].store, queue)| + Allowed(es, queue, i, j)
            <= |Held(ws[i].store, queue)| + Grants(es, queue, i, j)
  {
    if i < j {
      PassedOverSoFar(ws, es, queue, id, i, j - 1);
      RunStep(ws, es, j - 1);
      ExpiredStays(ws[j - 1], es[j - 1], ws[j], queue, id, es[i].now);
      HeldMoves(ws[j - 1], es[j - 1], ws[j], queue, id, es[i].now);
    }
  }

  lemma HeldAtLeastOne(s: Store, queue: string, id: string, t: Time)
    requires IsExpired(s, id, queue, t)
    ensures |Held(s, queue)| >= 1
  {
    assert id in Held(s, queue);
  }

  /**
   In any run, recovery calls that were together allowed as many leases as
   were held when the lease expired or granted since have recovered it,
   whatever other events came in between.
   */
  lemma RecoveryReachesEveryLease(ws: seq<World>, es: seq<Event>, queue: string, id: string, i: nat, j: nat)
    requires IsRun(ws, es) && i < j <= |es|
    requires IsExpired(ws[i].store, id, queue, es[i].now)
    requires Allowed(es, queue, i, j) >= |Held(ws[i].store, queue)| + Grants(es, queue, i, j)
    ensures exists k :: i <= k < j && Reaches(es[k], queue, id)
  {
    if NotReached(es, queue, id, i, j) {
      PassedOverSoFar(ws, es, queue, id, i, j);
      HeldAtLeastOne(ws[j].store, queue, id, es[i].now);
    }
  }
}
