/**
 Fencing: a token belongs to one attempt of one job, and once its lease has
 expired or been released it is refused for the rest of the run.
 */
module JobFencing {
  import opened Base
  import opened JobQueue
  import opened JobRecovery
  import opened JobRuns
  import opened JobLedger

  predicate Usable(grant: Grant, jobs: map<string, Job>) {
    grant.job in jobs && 1 <= grant.attempt <= jobs[grant.job].attemptCount
  }

  /** Tokens name attempts that exist, no two name the same attempt, and a held token names its own row. */
  ghost predicate GrantInv(w: World) {
    && (forall h :: h in w.grants ==> Usable(w.grants[h], w.store.jobs))
    && (forall h, k :: h in w.grants && k in w.grants && w.grants[h] == w.grants[k] ==> h == k)
    && (forall id :: id in w.store.jobs && w.store.jobs[id].leaseToken.Some? ==>
                       var h := w.store.jobs[id].leaseToken.value;
                       h in w.grants && w.grants[h] == Grant(id, w.store.jobs[id].attemptCount))
  }

  /** What a change that draws no token does to the fields fencing looks at. */
  lemma QuietChange(job: Job, c: Change, now: Time)
    requires Enabled(job, c, now) && !c.Granted?
    ensures var job' := ChangeJob(job, c, now);
            && job'.attemptCount == job.attemptCount
            && (job'.leaseToken == job.leaseToken || job'.leaseToken == None)
            && (Live(job', now) ==> Live(job, now) && job'.leaseToken == job.leaseToken)
            && (job'.leaseToken.Some? && job'.leaseExpiresAt != job.leaseExpiresAt ==> Live(job, now))
  {
  }

  ghost predicate QuietRow(s: Store, s': Store, id: string, now: Time)
    requires id in s.jobs && id in s'.jobs
  {
    var job, job' := s.jobs[id], s'.jobs[id];
    && job'.attemptCount == job.attemptCount
    && (job'.leaseToken == job.leaseToken || job'.leaseToken == None)
    && (job'.leaseToken.Some? && job'.leaseExpiresAt != job.leaseExpiresAt ==> Live(job, now))
  }

  /** An event that grants no lease keeps every existing row's attempt and at most drops its token. */
  lemma QuietEvent(w: World, e: Event, w': World, id: string)
    requires Next(w, e, w') && !e.reply.Leasing? && id in w.store.jobs
    ensures id in w'.store.jobs && w'.grants == w.grants && QuietRow(w.store, w'.store, id, e.now)
  {
    match EffectOf(e)
    case Nothing => NextNothing(w, e, w');
    case Inserted(_, _) => NextInserted(w, e, w');
    case Changed(other, c) =>
      NextChanged(w, e, w');
      ApplyRow(w.store, other, c, e.now, id);
      QuietChange(w.store.jobs[other], c, e.now);
    case Batched =>
      NextBatched(w, e, w');
      RecoverRow(w.store, e.op.queue, e.op.limit, e.op.delay, e.now, e.op.batch, e.op.clocks, w'.store, id);
      if id in e.op.batch {
        var i :| 0 <= i < |e.op.batch| && e.op.batch[i] == id;
        QuietChange(w.store.jobs[id], Recovered(e.op.clocks[i], e.op.delay), e.now);
      }
  }

  lemma NewRowHasNoToken(w: World, e: Event, w': World, id: string)
    requires Next(w, e, w') && id !in w.store.jobs && id in w'.store.jobs
    ensures w'.store.jobs[id].leaseToken.None?
  {
    NextNewRow(w, e, w', id);
  }

  /** The granting event: one row takes the drawn token as its next attempt, every other row is untouched. */
  lemma GrantEvent(w: World, e: Event, w': World)
    requires Next(w, e, w') && e.reply.Leasing?
    ensures e.op.AcquireOp? && e.reply.job in w.store.jobs
    ensures var id, h := e.reply.job, TokenHash(e.op.drawn);
            && h !in w.grants
            && w'.grants == w.grants[h := Grant(id, w.store.jobs[id].attemptCount + 1)]
            && w'.store.jobs.Keys == w.store.jobs.Keys
            && w'.store.jobs[id].attemptCount == w.store.jobs[id].attemptCount + 1
            && w'.store.jobs[id].leaseToken == Some(h)
            && forall other :: other in w.store.jobs && other != id ==> w'.store.jobs[other] == w.store.jobs[other]
  {
  }

  lemma GrantKeepsGrants(w: World, w': World, id: string, h: TokenHash)
    requires GrantInv(w) && id in w.store.jobs && h !in w.grants
    requires w'.grants == w.grants[h := Grant(id, w.store.jobs[id].attemptCount + 1)]
    requires w'.store.jobs.Keys == w.store.jobs.Keys
    requires w'.store.jobs[id].attemptCount == w.store.jobs[id].attemptCount + 1
    requires w'.store.jobs[id].leaseToken == Some(h)
    requires forall other :: other in w.store.jobs && other != id ==> w'.store.jobs[other] == w.store.jobs[other]
    ensures GrantInv(w')
  {
    forall k | k in w'.grants ensures Usable(w'.grants[k], w'.store.jobs) {
      if k != h {
        assert Usable(w.grants[k], w.store.jobs);
      }
    }
    forall a, b | a in w'.grants && b in w'.grants && w'.grants[a] == w'.grants[b] ensures a == b {
      if a != h {
        assert Usable(w.grants[a], w.store.jobs);
      }
      if b != h {
        assert Usable(w.grants[b], w.store.jobs);
      }
    }
  }

  lemma QuietKeepsGrants(w: World, e: Event, w': World)
    requires GrantInv(w) && Next(w, e, w') && !e.reply.Leasing?
    requires w'.grants == w.grants
    ensures GrantInv(w')
  {
    forall k | k in w'.grants ensures Usable(w'.grants[k], w'.store.jobs) {
      assert Usable(w.grants[k], w.store.jobs);
      QuietEvent(w, e, w', w.grants[k].job);
    }
    forall id | id in w'.store.jobs && w'.store.jobs[id].leaseToken.Some?
      ensures var h := w'.store.jobs[id].leaseToken.value;
              h in w'.grants && w'.grants[h] == Grant(id, w'.store.jobs[id].attemptCount)
    {
      if id in w.store.jobs {
        QuietEvent(w, e, w', id);
      } else {
        NewRowHasNoToken(w, e, w', id);
      }
    }
  }

  lemma QuietSameGrants(w: World, e: Event, w': World)
    requires Next(w, e, w') && !e.reply.Leasing?
    ensures w'.grants == w.grants
  {
    match EffectOf(e)
    case Nothing => NextNothing(w, e, w');
    case Inserted(_, _) => NextInserted(w, e, w');
    case Changed(_, _) => NextChanged(w, e, w');
    case Batched => NextBatched(w, e, w');
  }

  lemma NextKeepsGrants(w: World, e: Event, w': World)
    requires GrantInv(w) && Next(w, e, w')
    ensures GrantInv(w')
    ensures forall h :: h in w.grants ==> h in w'.grants && w'.grants[h] == w.grants[h]
  {
    if e.reply.Leasing? {
      GrantEvent(w, e, w');
      GrantKeepsGrants(w, w', e.reply.job, TokenHash(e.op.drawn));
    } else {
      QuietSameGrants(w, e, w');
      QuietKeepsGrants(w, e, w');
    }
  }

  /** A token belongs to exactly one (job, attempt), in every reachable state. */
  lemma {:induction false} RunKeepsGrants(ws: seq<World>, es: seq<Event>, k: nat)
    requires IsRun(ws, es) && k < |ws|
    ensures GrantInv(ws[k])
  {
    if k > 0 {
      RunKeepsGrants(ws, es, k - 1);
      RunStep(ws, es, k - 1);
      NextKeepsGrants(ws[k - 1], es[k - 1], ws[k]);
    }
  }

  // ---------------------------------------------------------------------
  // Dead tokens
  // ---------------------------------------------------------------------

  /** A granted token that no row still holds under a live lease at the given instant. */
  ghost predicate Dead(w: World, h: TokenHash, t: Time) {
    && h in w.grants
    && forall id :: id in w.store.jobs && w.store.jobs[id].leaseToken == Some(h) ==> !Live(w.store.jobs[id], t)
  }

  /** A token is dead exactly when its own job no longer holds it or its lease has expired. */
  lemma DeadIffReleasedOrExpired(w: World, h: TokenHash, t: Time)
    requires GrantInv(w) && h in w.grants
    ensures var job := w.store.jobs[w.grants[h].job];
            Dead(w, h, t) <==> (job.leaseToken != Some(h) || !Live(job, t))
  {
    assert Usable(w.grants[h], w.store.jobs);
    var own := w.grants[h].job;
    forall id | id in w.store.jobs && w.store.jobs[id].leaseToken == Some(h) ensures id == own {
    }
  }

  lemma NextKeepsDead(w: World, e: Event, w': World, h: TokenHash, t: Time)
    requires GrantInv(w) && Next(w, e, w') && Dead(w, h, t) && t <= e.now
    ensures Dead(w', h, e.now)
  {
    NextKeepsGrants(w, e, w');
    forall id | id in w'.store.jobs && w'.store.jobs[id].leaseToken == Some(h) ensures !Live(w'.store.jobs[id], e.now) {
      if id !in w.store.jobs {
        NewRowHasNoToken(w, e, w', id);
      } else if e.reply.Leasing? {
        GrantEvent(w, e, w');
      } else {
        QuietEvent(w, e, w', id);
      }
    }
  }

  /** The operations that present a fencing token. */
  predicate Presents(op: Op, h: TokenHash) {
    && (op.StartOp? || op.HeartbeatOp? || op.FinishOp? || op.FailOp?)
    && TokenHash(op.token) == h
  }

  /** Presenting a dead token is refused and changes nothing. */
  lemma DeadIsRefused(w: World, e: Event, w': World, h: TokenHash, t: Time)
    requires Next(w, e, w') && Dead(w, h, t) && t <= e.now && Presents(e.op, h)
    ensures e.reply.Refused? && w' == w
  {
    var id := e.op.id;
    if Holds(w.store, e.op.ws, id, e.op.token) {
      assert !Live(w.store.jobs[id], t);
      assert !Live(w.store.jobs[id], e.now);
    }
  }

  lemma {:induction false} DeadStaysDead(ws: seq<World>, es: seq<Event>, i: nat, j: nat, h: TokenHash, t: Time)
    requires IsRun(ws, es) && i <= j < |es| && t <= es[i].now && Dead(ws[i], h, t)
    ensures exists t' :: t' <= es[j].now && Dead(ws[j], h, t')
  {
    if i < j {
      DeadStaysDead(ws, es, i, j - 1, h, t);
      var t' :| t' <= es[j - 1].now && Dead(ws[j - 1], h, t');
      RunStep(ws, es, j - 1);
      RunKeepsGrants(ws, es, j - 1);
      NextKeepsDead(ws[j - 1], es[j - 1], ws[j], h, t');
      assert es[j - 1].now <= es[j].now;
    }
  }

  /**
   From the moment a token's lease has expired or been released, every later
   event that presents it is refused and leaves all tables unchanged.
   */
  lemma FencedForever(ws: seq<World>, es: seq<Event>, i: nat, j: nat, h: TokenHash, t: Time)
    requires IsRun(ws, es) && i <= j < |es| && t <= es[i].now
    requires h in ws[i].grants && ws[i].grants[h].job in ws[i].store.jobs
    requires var job := ws[i].store.jobs[ws[i].grants[h].job]; job.leaseToken != Some(h) || !Live(job, t)
    requires Presents(es[j].op, h)
    ensures es[j].reply.Refused? && ws[j + 1] == ws[j]
  {
    RunKeepsGrants(ws, es, i);
    DeadIffReleasedOrExpired(ws[i], h, t);
    DeadStaysDead(ws, es, i, j, h, t);
    var t' :| t' <= es[j].now && Dead(ws[j], h, t');
    RunStep(ws, es, j);
    DeadIsRefused(ws[j], es[j], ws[j + 1], h, t');
  }

  // ---------------------------------------------------------------------
  // Acknowledged successes
  // ---------------------------------------------------------------------

  predicate Succeeds(e: Event, id: string) {
    e.op.FinishOp? && e.op.id == id && e.op.to == Succeeded && e.reply == Done
  }

  function Successes(es: seq<Event>, id: string, k: nat): nat
    requires k <= |es|
  {
    if k == 0 then 0 else Successes(es, id, k - 1) + (if Succeeds(es[k - 1], id) then 1 else 0)
  }

  lemma TerminalStays(w: World, e: Event, w': World, id: string)
    requires StoreInv(w.store) && Next(w, e, w') && id in w.store.jobs && Terminal(w.store.jobs[id].state)
    ensures id in w'.store.jobs && w'.store.jobs[id] == w.store.jobs[id]
  {
    NextRow(w, e, w', id);
  }

  lemma SuccessMoves(w: World, e: Event, w': World, id: string)
    requires Next(w, e, w') && Succeeds(e, id)
    ensures id in w.store.jobs && w.store.jobs[id].state == Running
    ensures id in w'.store.jobs && w'.store.jobs[id].state == Succeeded
  {
    NextChanged(w, e, w');
  }

  lemma {:induction false} SuccessesCounted(ws: seq<World>, es: seq<Event>, id: string, k: nat)
    requires IsRun(ws, es) && k <= |es|
    ensures Successes(es, id, k) <= 1
    ensures Successes(es, id, k) == 1 ==> id in ws[k].store.jobs && ws[k].store.jobs[id].state == Succeeded
  {
    if k > 0 {
      SuccessesCounted(ws, es, id, k - 1);
      RunStep(ws, es, k - 1);
      RunKeepsStore(ws, es, k - 1);
      if Succeeds(es[k - 1], id) {
        SuccessMoves(ws[k - 1], es[k - 1], ws[k], id);
      }
      if Successes(es, id, k - 1) == 1 {
        TerminalStays(ws[k - 1], es[k - 1], ws[k], id);
      }
    }
  }

  /** At most one success is ever acknowledged for a job. */
  lemma AtMostOneSuccess(ws: seq<World>, es: seq<Event>, id: string)
    requires IsRun(ws, es)
    ensures Successes(es, id, |es|) <= 1
  {
    SuccessesCounted(ws, es, id, |es|);
  }
}
