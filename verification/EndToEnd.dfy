/**
 The queue and the record stores together. A run of the job's queue and a run
 of its import proceed in step over one set of import tables, so whatever one
 of them does to the operation the other does too; a side with nothing to do
 makes a call that is refused.
 */
module EndToEnd {
  import opened Base
  import opened Text
  import opened Ingestion
  import JobQueue
  import JobRuns
  import Settlement
  import opened Scans
  import opened ImportPlan
  import opened Importer
  import opened ImportInvariant
  import opened ImportRuns

  type Binding = Settlement.Binding

  ghost predicate InStep(ws: seq<Settlement.World>, vs: seq<World>, i: nat) {
    i < |ws| && i < |vs| && ws[i].store == vs[i].store
  }

  /** ws and vs are the states of the queue's side and of the import's side before each pair of events. */
  ghost predicate IsJointRun(b: Binding, task: Task, ws: seq<Settlement.World>, es: seq<Settlement.Event>,
                             vs: seq<World>, fs: seq<Event>)
  {
    && Settlement.IsRun(b, ws, es) && IsRun(task, vs, fs) && |ws| == |vs| && b.id == task.id
    && (forall i :: 0 <= i < |ws| ==> InStep(ws, vs, i))
  }

  predicate JobSucceeded(b: Binding, w: Settlement.World) {
    Settlement.HasJob(b, w) && Settlement.JobOf(b, w).state == JobQueue.Succeeded
  }

  /** A job has succeeded only over a published success. */
  ghost predicate Backed(b: Binding, w: Settlement.World) {
    JobSucceeded(b, w) ==> Found(w.store, b.id) && Settlement.Published(w.store, b.id)
  }

  lemma PublishedStays(b: Binding, w: Settlement.World, e: Settlement.Event, w': Settlement.World)
    requires Settlement.Inv(b, w) && ValidIdentity(b.id) && Settlement.Next(b, w, e, w')
    requires Settlement.Published(w.store, b.id)
    ensures Found(w'.store, b.id) && Settlement.Published(w'.store, b.id)
  {
    Settlement.NextKeeps(b, w, e, w');
  }

  lemma SucceedsNow(b: Binding, w: Settlement.World, e: Settlement.Event, w': Settlement.World)
    requires Settlement.Inv(b, w) && Settlement.Next(b, w, e, w') && !JobSucceeded(b, w) && JobSucceeded(b, w')
    ensures Settlement.Ends(b, w, w')
  {
    if JobQueue.Terminal(Settlement.JobOf(b, w).state) && !e.Elsewhere? && !e.Handle? {
      Settlement.TerminalRowStays(w.queue, e.e, w'.queue, b.job);
    }
  }

  lemma BackedNext(b: Binding, w: Settlement.World, e: Settlement.Event, w': Settlement.World)
    requires Settlement.Inv(b, w) && ValidIdentity(b.id) && Settlement.Next(b, w, e, w') && Backed(b, w)
    ensures Backed(b, w')
  {
    if JobSucceeded(b, w) {
      PublishedStays(b, w, e, w');
    } else if JobSucceeded(b, w') {
      SucceedsNow(b, w, e, w');
      Settlement.EndingOk(b, w, e, w');
    }
  }

  lemma BackedGoesOn(b: Binding, ws: seq<Settlement.World>, es: seq<Settlement.Event>, i: nat)
    requires Settlement.IsRun(b, ws, es) && i < |es| && Backed(b, ws[i])
    ensures Backed(b, ws[i + 1])
  {
    Settlement.RunStart(b, ws, es);
    Settlement.RunKeeps(b, ws, es, i);
    Settlement.RunStep(b, ws, es, i);
    BackedNext(b, ws[i], es[i], ws[i + 1]);
  }

  lemma RunIsBacked(b: Binding, ws: seq<Settlement.World>, es: seq<Settlement.Event>, k: nat)
    requires Settlement.IsRun(b, ws, es) && k < |ws| && !JobSucceeded(b, ws[0])
    ensures Backed(b, ws[k])
  {
    for i := 0 to k
      invariant Backed(b, ws[i])
    {
      BackedGoesOn(b, ws, es, i);
    }
  }

  /**
   Whenever a job has succeeded, its tables hold exactly the records of the
   document it was to import, every number of it in range, under a published
   success with the right number of scans.
   */
  lemma SucceededJobIsImported(b: Binding, task: Task, ws: seq<Settlement.World>, es: seq<Settlement.Event>,
                               vs: seq<World>, fs: seq<Event>, k: nat)
    requires IsJointRun(b, task, ws, es, vs, fs) && k < |ws| && !JobSucceeded(b, ws[0]) && JobSucceeded(b, ws[k])
    ensures Found(vs[k].store, task.id) && StateOf(vs[k].store, task.id) == OpSucceeded
    ensures HoldsDocument(task.src, task.doc, vs[0].tables, vs[k].tables) && DocumentInRange(task.doc)
    ensures vs[k].store.operations[OperationKey(task.id)].scans == Some(|task.doc.runs|)
  {
    assert InStep(ws, vs, k);
    RunIsBacked(b, ws, es, k);
    SuccessIsExact(task, vs, fs, k);
    SuccessIsInRange(task, vs, fs, k);
  }

  /** And they hold them for good. */
  lemma ImportedForGood(b: Binding, task: Task, ws: seq<Settlement.World>, es: seq<Settlement.Event>,
                        vs: seq<World>, fs: seq<Event>, k: nat, m: nat)
    requires IsJointRun(b, task, ws, es, vs, fs) && k <= m < |ws| && !JobSucceeded(b, ws[0]) && JobSucceeded(b, ws[k])
    ensures JobSucceeded(b, ws[m])
    ensures Ours(PlanOf(task.src, task.doc), vs[m].tables) == Ours(PlanOf(task.src, task.doc), vs[k].tables)
  {
    assert InStep(ws, vs, k);
    RunIsBacked(b, ws, es, k);
    PublishedIsFinal(task, vs, fs, k, m);
    SuccessStays(b, ws, es, k, m);
  }

  lemma SuccessGoesOn(b: Binding, ws: seq<Settlement.World>, es: seq<Settlement.Event>, i: nat)
    requires Settlement.IsRun(b, ws, es) && i < |es| && JobSucceeded(b, ws[i])
    ensures JobSucceeded(b, ws[i + 1])
  {
    Settlement.RunStep(b, ws, es, i);
    if !es[i].Elsewhere? && !es[i].Handle? {
      Settlement.TerminalRowStays(ws[i].queue, es[i].e, ws[i + 1].queue, b.job);
    }
  }

  lemma SuccessStays(b: Binding, ws: seq<Settlement.World>, es: seq<Settlement.Event>, k: nat, m: nat)
    requires Settlement.IsRun(b, ws, es) && k <= m < |ws| && JobSucceeded(b, ws[k])
    ensures JobSucceeded(b, ws[m])
  {
    for i := k to m
      invariant JobSucceeded(b, ws[i])
    {
      SuccessGoesOn(b, ws, es, i);
    }
  }

  // Either side can wait for the other

  const NO_JOB: JobQueue.Spec := JobQueue.Spec("", "", "", "", "", "", 0, "", "", 0, None, 0)
  const WAIT: JobRuns.Event := JobRuns.Event(JobRuns.EnqueueOp("", NO_JOB), 0, JobRuns.Refused(JobQueue.Invalid))

  lemma QueueWaits(b: Binding, w: Settlement.World)
    ensures Settlement.Next(b, w, Settlement.Queue(WAIT), w)
  {
    assert !JobQueue.ValidSpec(NO_JOB);
    assert w.(queue := w.queue.(store := w.queue.store)) == w;
  }

  lemma ImportWaits(task: Task, v: World)
    ensures Next(task, v, Step(0, "", 0)) == v
  {
    assert Runes("") == 0;
  }
}
