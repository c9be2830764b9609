/**
 Fairness between workspaces: the in-flight cap, balanced acquisition, and
 round-robin recovery of expired leases.
 */
module JobFairness {
  import opened Base
  import opened JobQueue
  import opened JobRecovery
  import opened JobRuns

  // ---------------------------------------------------------------------
  // The in-flight cap
  // ---------------------------------------------------------------------

  ghost predicate Capped(s: Store, cap: int) {
    forall ws, queue :: |ActiveIn(s, ws, queue)| <= cap
  }

  lemma QuietActive(w: World, e: Event, w': World, ws: string, queue: string)
    requires Next(w, e, w') && !e.reply.Leasing?
    ensures ActiveIn(w'.store, ws, queue) <= ActiveIn(w.store, ws, queue)
  {
    forall id | id in ActiveIn(w'.store, ws, queue) ensures id in ActiveIn(w.store, ws, queue) {
      if id !in w.store.jobs {
        NextNewRow(w, e, w', id);
      } else {
        QuietRowActive(w, e, w', id);
      }
    }
  }

  lemma QuietRowActive(w: World, e: Event, w': World, id: string)
    requires Next(w, e, w') && !e.reply.Leasing? && id in w.store.jobs
    ensures id in w'.store.jobs && w'.store.jobs[id].request == w.store.jobs[id].request
    ensures Active(w'.store.jobs[id].state) ==> Active(w.store.jobs[id].state)
  {
    match EffectOf(e)
    case Nothing => NextNothing(w, e, w');
    case Inserted(_, _) => NextInserted(w, e, w');
    case Changed(other, c) =>
      NextChanged(w, e, w');
      ApplyRow(w.store, other, c, e.now, id);
    case Batched =>
      NextBatched(w, e, w');
      RecoverRow(w.store, e.op.queue, e.op.limit, e.op.delay, e.now, e.op.batch, e.op.clocks, w'.store, id);
  }

  /** A grant adds one active job to the granted job's own workspace and queue, and to no other. */
  lemma GrantActive(s: Store, id: string, c: Change, now: Time, ws: string, queue: string)
    requires id in s.jobs && c.Granted? && Enabled(s.jobs[id], c, now)
    ensures var mine := s.jobs[id].request.workspace == ws && s.jobs[id].request.queue == queue;
            |ActiveIn(Apply(s, id, c, now), ws, queue)| == |ActiveIn(s, ws, queue)| + (if mine then 1 else 0)
  {
    GrantActiveSet(s, id, ChangeJob(s.jobs[id], c, now), Apply(s, id, c, now), ws, queue);
  }

  lemma GrantActiveSet(s: Store, id: string, job: Job, s': Store, ws: string, queue: string)
    requires id in s.jobs && !Active(s.jobs[id].state) && s'.jobs == s.jobs[id := job]
    requires Active(job.state) && job.request == s.jobs[id].request
    ensures var mine := s.jobs[id].request.workspace == ws && s.jobs[id].request.queue == queue;
            |ActiveIn(s', ws, queue)| == |ActiveIn(s, ws, queue)| + (if mine then 1 else 0)
  {
    var a, b := ActiveIn(s, ws, queue), ActiveIn(s', ws, queue);
    if s.jobs[id].request.workspace == ws && s.jobs[id].request.queue == queue {
      assert id !in a && b == a + {id};
    } else {
      assert b == a;
    }
  }

  lemma AcquireGrants(w: World, e: Event, w': World)
    requires Next(w, e, w') && e.reply.Leasing?
    ensures e.op.AcquireOp? && Candidate(w.store, e.reply.job, e.op.queue, e.op.cap, e.now)
    ensures var c := Granted(e.op.owner, TokenHash(e.op.drawn), e.now + e.op.lease);
            Enabled(w.store.jobs[e.reply.job], c, e.now) && w'.store == Apply(w.store, e.reply.job, c, e.now)
  {
  }

  lemma NextKeepsCap(w: World, e: Event, w': World, cap: int)
    requires Next(w, e, w') && Capped(w.store, cap)
    requires e.op.AcquireOp? ==> e.op.cap <= cap
    ensures Capped(w'.store, cap)
  {
    forall ws, queue ensures |ActiveIn(w'.store, ws, queue)| <= cap {
      if e.reply.Leasing? {
        AcquireGrants(w, e, w');
        var c := Granted(e.op.owner, TokenHash(e.op.drawn), e.now + e.op.lease);
        GrantActive(w.store, e.reply.job, c, e.now, ws, queue);
      } else {
        QuietActive(w, e, w', ws, queue);
        SubsetCardinality(ActiveIn(w'.store, ws, queue), ActiveIn(w.store, ws, queue));
      }
    }
  }

  /** With a common cap, no workspace ever has more active jobs in a queue than the cap. */
  lemma {:induction false} CapHolds(ws: seq<World>, es: seq<Event>, cap: nat, k: nat)
    requires IsRun(ws, es) && k < |ws|
    requires forall i :: 0 <= i < |es| && es[i].op.AcquireOp? ==> es[i].op.cap <= cap
    ensures Capped(ws[k].store, cap)
  {
    if k > 0 {
      CapHolds(ws, es, cap, k - 1);
      RunStep(ws, es, k - 1);
      NextKeepsCap(ws[k - 1], es[k - 1], ws[k], cap);
    } else {
      forall w, q ensures |ActiveIn(ws[0].store, w, q)| <= cap {
        assert ActiveIn(ws[0].store, w, q) == {};
      }
    }
  }

  // ---------------------------------------------------------------------
  // Balanced acquisition
  // ---------------------------------------------------------------------

  ghost predicate HasEligible(s: Store, ws: string, queue: string, cap: int, now: Time) {
    exists id :: Eligible(s, id, queue, cap, now) && s.jobs[id].request.workspace == ws
  }

  /** Active counts of the given workspaces are within one of each other. */
  ghost predicate Balanced(s: Store, group: set<string>, queue: string) {
    forall a, b :: a in group && b in group ==> |ActiveIn(s, a, queue)| <= |ActiveIn(s, b, queue)| + 1
  }

  lemma AcquireKeepsBalance(w: World, e: Event, w': World, group: set<string>)
    requires Next(w, e, w') && e.op.AcquireOp?
    requires Balanced(w.store, group, e.op.queue)
    requires forall ws :: ws in group ==> HasEligible(w.store, ws, e.op.queue, e.op.cap, e.now)
    ensures Balanced(w'.store, group, e.op.queue)
  {
    if e.reply.Leasing? {
      AcquireGrants(w, e, w');
      var queue, id := e.op.queue, e.reply.job;
      var own := w.store.jobs[id].request.workspace;
      forall b | b in group ensures |ActiveIn(w.store, own, queue)| <= |ActiveIn(w.store, b, queue)| {
        var other :| Eligible(w.store, other, queue, e.op.cap, e.now) && w.store.jobs[other].request.workspace == b;
        assert NotAfter(w.store, queue, id, other);
      }
      var c := Granted(e.op.owner, TokenHash(e.op.drawn), e.now + e.op.lease);
      forall a, b | a in group && b in group
        ensures |ActiveIn(w'.store, a, queue)| <= |ActiveIn(w'.store, b, queue)| + 1
      {
        GrantActive(w.store, id, c, e.now, a, queue);
        GrantActive(w.store, id, c, e.now, b, queue);
      }
    } else {
      assert EffectOf(e).Nothing?;
      NextNothing(w, e, w');
    }
  }

  /**
   While a group of workspaces all keep having eligible jobs, any number of
   acquisitions from balanced active counts keeps them balanced.
   */
  lemma {:induction false} AcquisitionsStayBalanced(ws: seq<World>, es: seq<Event>, group: set<string>, queue: string)
    requires |ws| == |es| + 1
    requires forall i {:trigger StepAt(ws, es, i)} :: 0 <= i < |es| ==> StepAt(ws, es, i)
    requires forall i :: 0 <= i < |es| ==> es[i].op.AcquireOp? && es[i].op.queue == queue
    requires forall i, w :: 0 <= i < |es| && w in group ==>
                              HasEligible(ws[i].store, w, queue, es[i].op.cap, es[i].now)
    requires Balanced(ws[0].store, group, queue)
    ensures Balanced(ws[|es|].store, group, queue)
  {
    if es != [] {
      var n := |es| - 1;
      var ws', es' := ws[..n + 1], es[..n];
      forall i | 0 <= i < n ensures StepAt(ws', es', i) {
        assert StepAt(ws, es, i);
      }
      AcquisitionsStayBalanced(ws', es', group, queue);
      assert StepAt(ws, es, n);
      AcquireKeepsBalance(ws[n], es[n], ws[n + 1], group);
    }
  }

  // ---------------------------------------------------------------------
  // Round-robin recovery
  // ---------------------------------------------------------------------

  /** A finite non-empty set of rows has a first and a last row. */
  lemma {:induction false} Extremes(s: Store, rows: set<string>) returns (first: string, last: string)
    requires rows != {} && rows <= s.jobs.Keys
    ensures first in rows && last in rows
    ensures forall id :: id in rows ==> id == first || Sooner(s, first, id)
    ensures forall id :: id in rows ==> id == last || Sooner(s, id, last)
    decreases |rows|
  {
    var x :| x in rows;
    var rest := rows - {x};
    if rest == {} {
      first, last := x, x;
      assert rows == {x};
    } else {
      var f, l := Extremes(s, rest);
      first := if Sooner(s, x, f) then x else f;
      last := if Sooner(s, l, x) then x else l;
      forall id | id in rows ensures (id == first || Sooner(s, first, id)) && (id == last || Sooner(s, id, last)) {
        SoonerStrictOrder(s, x, f, id);
        SoonerStrictOrder(s, f, x, id);
        SoonerStrictOrder(s, id, l, x);
        SoonerStrictOrder(s, x, l, x);
      }
    }
  }

  ghost function Taken(s: Store, batch: seq<string>, ws: string): set<string> {
    set id | id in batch && id in s.jobs && s.jobs[id].request.workspace == ws
  }

  /** Among k recovered rows of one workspace, the last has rank at least k. */
  lemma TakenRank(s: Store, queue: string, limit: nat, now: Time, batch: seq<string>, ws: string) returns (a: string)
    requires IsBatch(s, queue, limit, now, batch) && Taken(s, batch, ws) != {}
    ensures a in Taken(s, batch, ws) && Rank(s, queue, now, a) >= |Taken(s, batch, ws)|
  {
    var taken := Taken(s, batch, ws);
    var first;
    first, a := Extremes(s, taken);
    assert taken - {a} <= Ahead(s, queue, now, a);
    SubsetCardinality(taken - {a}, Ahead(s, queue, now, a));
  }

  /**
   If one workspace had k jobs recovered, every other had at least k - 1
   recovered, or all of its expired jobs.
   */
  lemma RecoveryIsFair(s: Store, queue: string, limit: nat, now: Time, batch: seq<string>, ws: string, other: string)
    requires IsBatch(s, queue, limit, now, batch)
    ensures |Taken(s, batch, other)| >= Min(|Taken(s, batch, ws)| - 1, |ExpiredOf(s, queue, now, other)|)
  {
    var missed := ExpiredOf(s, queue, now, other) - Taken(s, batch, other);
    if missed == {} {
      assert ExpiredOf(s, queue, now, other) <= Taken(s, batch, other) by {
        assert forall id :: id in ExpiredOf(s, queue, now, other) && id !in Taken(s, batch, other) ==> id in missed;
      }
      SubsetCardinality(ExpiredOf(s, queue, now, other), Taken(s, batch, other));
    } else if Taken(s, batch, ws) != {} {
      var a := TakenRank(s, queue, limit, now, batch, ws);
      var m, last := Extremes(s, missed);
      assert m !in batch;
      var i :| 0 <= i < |batch| && batch[i] == a;
      assert Before(s, queue, now, batch[i], m);
      forall id | id in Ahead(s, queue, now, m) ensures id in Taken(s, batch, other) {
        if id in missed {
          SoonerStrictOrder(s, m, id, m);
        }
      }
      SubsetCardinality(Ahead(s, queue, now, m), Taken(s, batch, other));
    }
  }

  /** Whatever the workspaces, the first lease recovered is one that ran out before or with every other. */
  lemma RecoveryStartsEarliest(s: Store, queue: string, limit: nat, now: Time, batch: seq<string>, id: string)
    requires IsBatch(s, queue, limit, now, batch) && batch != [] && id in Expired(s, queue, now)
    ensures batch[0] in s.jobs && s.jobs[batch[0]].leaseExpiresAt.Some? && s.jobs[id].leaseExpiresAt.Some?
    ensures s.jobs[batch[0]].leaseExpiresAt.value <= s.jobs[id].leaseExpiresAt.value
  {
    var rows := ExpiredOf(s, queue, now, s.jobs[id].request.workspace);
    assert id in rows;
    var first, last := Extremes(s, rows);
    assert Rank(s, queue, now, first) == 1 by {
      forall x | x in Ahead(s, queue, now, first) ensures false {
        SoonerStrictOrder(s, first, x, first);
      }
      assert Ahead(s, queue, now, first) == {};
    }
    if first in batch {
      var i :| 0 <= i < |batch| && batch[i] == first;
      assert i > 0 ==> Before(s, queue, now, batch[0], batch[i]);
    } else {
      assert Before(s, queue, now, batch[0], first);
    }
  }

  // ---------------------------------------------------------------------
  // Draining
  // ---------------------------------------------------------------------

  ghost function BatchSet(batch: seq<string>): set<string> {
    set id | id in batch
  }

  lemma {:induction false} DistinctCardinality(batch: seq<string>)
    requires forall i, j :: 0 <= i < j < |batch| ==> batch[i] != batch[j]
    ensures |BatchSet(batch)| == |batch|
  {
    if batch != [] {
      var front := batch[..|batch| - 1];
      DistinctCardinality(front);
      assert BatchSet(batch) == BatchSet(front) + {batch[|batch| - 1]};
      assert batch[|batch| - 1] !in BatchSet(front);
    }
  }

  /** One call recovers min(limit, expired) leases, only expired ones, and each stays out of every later batch. */
  lemma RecoverShrinks(s: Store, queue: string, limit: int, delay: int, now: Time,
                       batch: seq<string>, clocks: seq<Time>, s': Store, t: Time)
    requires RecoverNext(s, queue, limit, delay, now, batch, clocks, s') && now <= t
    ensures BatchSet(batch) <= Expired(s, queue, now)
    ensures |BatchSet(batch)| == Min(limit, |Expired(s, queue, now)|)
    ensures Expired(s', queue, t) == Expired(s, queue, t) - BatchSet(batch)
  {
    BatchDistinct(s, queue, now, batch);
    DistinctCardinality(batch);
    forall id | id in s.jobs
      ensures id in s'.jobs
      ensures IsExpired(s', id, queue, t) <==> IsExpired(s, id, queue, t) && id !in batch
    {
      RecoverRow(s, queue, limit, delay, now, batch, clocks, s', id);
      if id in batch {
        var i :| 0 <= i < |batch| && batch[i] == id;
      }
    }
  }

  ghost predicate Recovery(s: Store, queue: string, limit: int, delay: int, now: Time, s': Store) {
    exists batch, clocks :: RecoverNext(s, queue, limit, delay, now, batch, clocks, s')
  }

  ghost predicate RecoverCall(ss: seq<Store>, queue: string, limit: int, delay: int, nows: seq<Time>, i: nat)
    requires |ss| == |nows| + 1
  {
    i < |nows| && Recovery(ss[i], queue, limit, delay, nows[i], ss[i + 1])
  }

  /** A sequence of recovery calls on one queue with the same limit. */
  ghost predicate RecoverCalls(ss: seq<Store>, queue: string, limit: int, delay: int, nows: seq<Time>) {
    && |ss| == |nows| + 1
    && (forall i, j :: 0 <= i <= j < |nows| ==> nows[i] <= nows[j])
    && forall i {:trigger RecoverCall(ss, queue, limit, delay, nows, i)} ::
         0 <= i < |nows| ==> RecoverCall(ss, queue, limit, delay, nows, i)
  }

  /** A call that leaves a lease over which was already expired at t0 recovered a full batch. */
  lemma FullBatch(s: Store, queue: string, limit: int, delay: int, now: Time, s': Store, id: string, t0: Time, t: Time)
    requires Recovery(s, queue, limit, delay, now, s') && t0 <= now <= t
    requires id in Expired(s, queue, t0) && id in Expired(s', queue, t)
    ensures |Expired(s', queue, t)| + limit == |Expired(s, queue, t)|
    ensures id in Expired(s', queue, t0)
  {
    var batch, clocks :| RecoverNext(s, queue, limit, delay, now, batch, clocks, s');
    RecoverShrinks(s, queue, limit, delay, now, batch, clocks, s', t);
    RecoverRow(s, queue, limit, delay, now, batch, clocks, s', id);
    var taken := BatchSet(batch);
    assert id !in taken && id in Expired(s, queue, now);
    SubsetCardinality(taken, Expired(s, queue, now));
    assert taken <= Expired(s, queue, t);
    assert Expired(s, queue, t) == Expired(s', queue, t) + taken;
  }

  lemma LeftOverBefore(s: Store, queue: string, limit: int, delay: int, now: Time, s': Store, id: string, t: Time)
    requires Recovery(s, queue, limit, delay, now, s') && now <= t && id in Expired(s', queue, t)
    ensures id in Expired(s, queue, t)
  {
    var batch, clocks :| RecoverNext(s, queue, limit, delay, now, batch, clocks, s');
    RecoverShrinks(s, queue, limit, delay, now, batch, clocks, s', t);
  }

  lemma OneBatchMore(k: int, limit: int)
    ensures k * limit == (k - 1) * limit + limit
  {
  }

  /** As long as one lease that was expired at the start is left over, every call recovered a full batch. */
  lemma {:induction false} LeftOverMeansFull(ss: seq<Store>, queue: string, limit: int, delay: int, nows: seq<Time>,
                                             k: nat, t: Time, id: string)
    requires RecoverCalls(ss, queue, limit, delay, nows) && 0 < |nows| && k <= |nows| && nows[|nows| - 1] <= t
    requires id in Expired(ss[0], queue, nows[0]) && id in Expired(ss[k], queue, t)
    ensures |Expired(ss[k], queue, t)| + k * limit == |Expired(ss[0], queue, t)|
    ensures id in Expired(ss[k], queue, nows[0])
  {
    if k > 0 {
      assert RecoverCall(ss, queue, limit, delay, nows, k - 1);
      LeftOverBefore(ss[k - 1], queue, limit, delay, nows[k - 1], ss[k], id, t);
      LeftOverMeansFull(ss, queue, limit, delay, nows, k - 1, t, id);
      FullBatch(ss[k - 1], queue, limit, delay, nows[k - 1], ss[k], id, nows[0], t);
      OneBatchMore(k, limit);
    }
  }

  /** Enough repeated calls recover every lease that was expired when the first call ran. */
  lemma RecoveryDrains(ss: seq<Store>, queue: string, limit: int, delay: int, nows: seq<Time>, id: string)
    requires RecoverCalls(ss, queue, limit, delay, nows) && |nows| > 0
    requires |nows| * limit >= |Expired(ss[0], queue, nows[|nows| - 1])|
    requires id in Expired(ss[0], queue, nows[0])
    ensures id !in Expired(ss[|nows|], queue, nows[|nows| - 1])
  {
    var t := nows[|nows| - 1];
    if id in Expired(ss[|nows|], queue, t) {
      LeftOverMeansFull(ss, queue, limit, delay, nows, |nows|, t, id);
    }
  }
}
