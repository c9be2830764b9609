/**
 Batched recovery of expired leases: which rows one call selects, in which
 order, and what it does to each. Rows are ranked within their workspace and
 taken rank by rank, so no workspace can crowd out another.
 */
module JobRecovery {
  import opened Base
  import opened Text
  import opened JobQueue
  import Order

  predicate IsExpired(s: Store, id: string, queue: string, now: Time) {
    id in s.jobs && s.jobs[id].request.queue == queue && LeaseExpired(s.jobs[id], now)
  }

  function Expired(s: Store, queue: string, now: Time): set<string> {
    set id | id in s.jobs && IsExpired(s, id, queue, now)
  }

  function ExpiredOf(s: Store, queue: string, now: Time, ws: string): set<string> {
    set id | id in Expired(s, queue, now) && s.jobs[id].request.workspace == ws
  }

  /** ORDER BY lease_expires_at, id within a workspace. */
  predicate Sooner(s: Store, a: string, b: string)
    requires a in s.jobs && b in s.jobs
  {
    var ea, eb := Coalesce(s.jobs[a].leaseExpiresAt, 0).value, Coalesce(s.jobs[b].leaseExpiresAt, 0).value;
    ea < eb || (ea == eb && Order.Less(a, b))
  }

  /** row_number() OVER (PARTITION BY workspace_id ORDER BY lease_expires_at, id) */
  function Ahead(s: Store, queue: string, now: Time, id: string): set<string>
    requires id in s.jobs
  {
    set other | other in ExpiredOf(s, queue, now, s.jobs[id].request.workspace) && Sooner(s, other, id)
  }

  function Rank(s: Store, queue: string, now: Time, id: string): nat
    requires id in s.jobs
  {
    |Ahead(s, queue, now, id)| + 1
  }

  /** ORDER BY workspace_rank, lease_expires_at, workspace_id, id */
  predicate Before(s: Store, queue: string, now: Time, a: string, b: string)
    requires a in s.jobs && b in s.jobs
  {
    var ra, rb := Rank(s, queue, now, a), Rank(s, queue, now, b);
    var ea, eb := Coalesce(s.jobs[a].leaseExpiresAt, 0).value, Coalesce(s.jobs[b].leaseExpiresAt, 0).value;
    var wa, wb := s.jobs[a].request.workspace, s.jobs[b].request.workspace;
    || ra < rb
    || (ra == rb
        && (|| ea < eb
            || (ea == eb && (Order.Less(wa, wb) || (wa == wb && Order.Less(a, b))))))
  }

  lemma SoonerStrictOrder(s: Store, a: string, b: string, c: string)
    requires a in s.jobs && b in s.jobs && c in s.jobs
    ensures !Sooner(s, a, a)
    ensures Sooner(s, a, b) || a == b || Sooner(s, b, a)
    ensures Sooner(s, a, b) && Sooner(s, b, c) ==> Sooner(s, a, c)
  {
    Order.LessIrreflexive(a);
    Order.LessTotal(a, b);
    if Order.Less(a, b) && Order.Less(b, c) {
      Order.LessTransitive(a, b, c);
    }
  }

  lemma BeforeStrictOrder(s: Store, queue: string, now: Time, a: string, b: string, c: string)
    requires a in s.jobs && b in s.jobs && c in s.jobs
    ensures !Before(s, queue, now, a, a)
    ensures Before(s, queue, now, a, b) || a == b || Before(s, queue, now, b, a)
    ensures Before(s, queue, now, a, b) && Before(s, queue, now, b, c) ==> Before(s, queue, now, a, c)
  {
    var wa, wb, wc := s.jobs[a].request.workspace, s.jobs[b].request.workspace, s.jobs[c].request.workspace;
    Order.LessIrreflexive(a);
    Order.LessIrreflexive(wa);
    Order.LessTotal(a, b);
    Order.LessTotal(wa, wb);
    if Order.Less(a, b) && Order.Less(b, c) {
      Order.LessTransitive(a, b, c);
    }
    if Order.Less(wa, wb) && Order.Less(wb, wc) {
      Order.LessTransitive(wa, wb, wc);
    }
  }

  ghost predicate Ordered(s: Store, queue: string, now: Time, batch: seq<string>)
  {
    && (forall i :: 0 <= i < |batch| ==> batch[i] in Expired(s, queue, now))
    && (forall i, j :: 0 <= i < j < |batch| ==> Before(s, queue, now, batch[i], batch[j]))
  }

  /** The rows the recovery query returns: the first `limit` expired rows of the order. */
  ghost predicate IsBatch(s: Store, queue: string, limit: nat, now: Time, batch: seq<string>) {
    && Ordered(s, queue, now, batch)
    && |batch| == Min(limit, |Expired(s, queue, now)|)
    && forall id, i :: id in Expired(s, queue, now) && id !in batch && 0 <= i < |batch|
                       ==> Before(s, queue, now, batch[i], id)
  }

  /** Recovery of a batch, row by row; clocks[i] is the database clock read for row i. */
  ghost function RecoverAll(s: Store, batch: seq<string>, clocks: seq<Time>, delay: int, now: Time): (r: Store)
    requires |clocks| >= |batch|
    requires forall i :: 0 <= i < |batch| ==> batch[i] in s.jobs
    ensures r.jobs.Keys == s.jobs.Keys
    decreases |batch|
  {
    if batch == [] then s
    else
      Apply(RecoverAll(s, batch[..|batch| - 1], clocks, delay, now), batch[|batch| - 1],
            Recovered(clocks[|batch| - 1], delay), now)
  }

  predicate ValidRecover(queue: string, limit: int, delay: int) {
    ValidDomainName(queue, 63) && 1 <= limit <= 1000 && delay >= 0
  }

  ghost predicate RecoverNext(s: Store, queue: string, limit: int, delay: int, now: Time,
                              batch: seq<string>, clocks: seq<Time>, s': Store)
  {
    && ValidRecover(queue, limit, delay)
    && IsBatch(s, queue, limit, now, batch)
    && |clocks| == |batch|
    && (forall i :: 0 <= i < |clocks| ==> now <= clocks[i])
    && s' == RecoverAll(s, batch, clocks, delay, now)
  }

  lemma AppliedRow(s: Store, other: string, c: Change, now: Time, id: string)
    requires id in s.jobs && other in s.jobs
    ensures var r := Apply(s, other, c, now);
            && r.jobs[id] == (if id == other then ChangeJob(s.jobs[id], c, now) else s.jobs[id])
            && RowsOf(r, id) == if id == other then ChangeRows(s.jobs[id], RowsOf(s, id), c, now) else RowsOf(s, id)
  {
  }

  /** A batch without repeats changes each of its rows once, from its original value, and no other row. */
  lemma {:induction false} RecoverAllPointwise(s: Store, batch: seq<string>, clocks: seq<Time>, delay: int, now: Time,
                                               id: string)
    requires |clocks| >= |batch|
    requires forall i :: 0 <= i < |batch| ==> batch[i] in s.jobs
    requires forall i, j :: 0 <= i < j < |batch| ==> batch[i] != batch[j]
    requires id in s.jobs
    ensures var r := RecoverAll(s, batch, clocks, delay, now);
            && (id !in batch ==> r.jobs[id] == s.jobs[id] && RowsOf(r, id) == RowsOf(s, id))
            && (forall i :: 0 <= i < |batch| && batch[i] == id ==>
                              var c := Recovered(clocks[i], delay);
                              && r.jobs[id] == ChangeJob(s.jobs[id], c, now)
                              && RowsOf(r, id) == ChangeRows(s.jobs[id], RowsOf(s, id), c, now))
    decreases |batch|
  {
    if batch != [] {
      var front := batch[..|batch| - 1];
      RecoverAllPointwise(s, front, clocks, delay, now, id);
      AppliedRow(RecoverAll(s, front, clocks, delay, now), batch[|front|], Recovered(clocks[|front|], delay), now, id);
      assert forall i :: 0 <= i < |front| ==> front[i] == batch[i];
      assert batch == front + [batch[|front|]];
    }
  }
}
