/**
 Safety and progress over every run of the import processor: whatever the
 interleaving, the retries and the clocks, no execution meets a conflict or a
 record out of time order; a clock behind the operation delays its start or
 its completion and nothing else; and once success is published the tables
 hold exactly the planned records, for good.
 */
module ImportRuns {
  import opened Base
  import opened Text
  import Sarif
  import Finding
  import Correlation
  import opened Scans
  import opened Records
  import opened ImportPlan
  import opened Ingestion
  import opened Importer
  import opened ImportStages
  import opened ImportInvariant
  import Lifecycle

  // ---------------------------------------------------------------------
  // Whole runs
  // ---------------------------------------------------------------------

  /** No parse and no scan of this import. */
  predicate HoldsNone(src: Source, t0: Tables) {
    && ParseKey(src.workspace, src.import_) !in t0.parses
    && (forall k :: k in t0.scans ==> (k.workspace, k.import_) != (src.workspace, src.import_))
  }

  /** Record tables that hold nothing of this import. */
  ghost predicate Fresh(src: Source, t0: Tables) {
    UniqueIds(t0) && ForeignKeys(t0) && ColumnsInRange(t0) && HoldsNone(src, t0)
  }

  /** Where the runs of one job begin: its evidence committed, nothing recorded and no success published. */
  ghost predicate Begins(task: Task, w: World) {
    && TaskOk(task) && DocumentOk(task.src, task.doc) && Fresh(task.src, w.tables)
    && Lifecycle.Reached(w.store) && Rooted(task, w.store) && StateOf(w.store, task.id) != OpSucceeded
    && w.handlers == map[]
  }

  ghost predicate StepAt(task: Task, ws: seq<World>, es: seq<Event>, i: nat)
    requires |ws| == |es| + 1
  {
    i < |es| && ws[i + 1] == Next(task, ws[i], es[i])
  }

  /** ws[i] is the state before event i. */
  ghost predicate IsRun(task: Task, ws: seq<World>, es: seq<Event>) {
    && |ws| == |es| + 1 && Begins(task, ws[0])
    && (forall i {:trigger StepAt(task, ws, es, i)} :: 0 <= i < |es| ==> StepAt(task, ws, es, i))
  }

  lemma FreshIsOk(src: Source, doc: Sarif.Document, t0: Tables)
    requires Fresh(src, t0)
    ensures RecordsOk(PlanOf(src, doc), t0, t0)
  {
    NothingOurs(PlanOf(src, doc), src, t0);
  }

  lemma NothingOurs(p: Plan, src: Source, t0: Tables)
    requires ForeignKeys(t0) && HoldsNone(src, t0) && p.workspace == src.workspace && p.import_ == src.import_
    ensures OnlyPlanned(p, t0)
  {
    forall id ensures !OurScanId(p, t0, id) && !OurObservationId(p, t0, id) {}
  }

  lemma BeginsIsOk(task: Task, w: World)
    requires Begins(task, w)
    ensures Inv(task, w.tables, w)
  {
    FreshIsOk(task.src, task.doc, w.tables);
  }

  lemma RunStep(task: Task, ws: seq<World>, es: seq<Event>, i: nat)
    requires IsRun(task, ws, es) && i < |es|
    ensures ws[i + 1] == Next(task, ws[i], es[i])
  {
    assert StepAt(task, ws, es, i);
  }

  lemma RunStart(task: Task, ws: seq<World>, es: seq<Event>)
    requires IsRun(task, ws, es)
    ensures Inv(task, ws[0].tables, ws[0]) && ColumnsInRange(ws[0].tables)
    ensures TaskOk(task) && DocumentOk(task.src, task.doc)
  {
    BeginsIsOk(task, ws[0]);
  }

  lemma RunGoesOn(task: Task, ws: seq<World>, es: seq<Event>, t0: Tables, i: nat)
    requires IsRun(task, ws, es) && i < |es| && Inv(task, t0, ws[i])
    ensures Inv(task, t0, ws[i + 1])
  {
    RunStart(task, ws, es);
    RunStep(task, ws, es, i);
    NextKeeps(task, t0, ws[i], es[i]);
  }

  /** The states of a run, computed from its start. */
  ghost function TraceOf(task: Task, t0: Tables, s0: Store, es: seq<Event>): (ws: seq<World>)
    ensures |ws| == |es| + 1 && ws[|es|] == Run(task, t0, s0, es)
  {
    if es == [] then [Run(task, t0, s0, [])]
    else TraceOf(task, t0, s0, es[..|es| - 1]) + [Run(task, t0, s0, es)]
  }

  lemma {:induction false} TraceAt(task: Task, t0: Tables, s0: Store, es: seq<Event>, i: nat)
    requires i <= |es|
    ensures TraceOf(task, t0, s0, es)[i] == Run(task, t0, s0, es[..i])
  {
    if i == |es| {
      assert es[..i] == es;
    } else {
      TraceAt(task, t0, s0, es[..|es| - 1], i);
      assert es[..|es| - 1][..i] == es[..i];
    }
  }

  /** Every sequence of events has its run, so what holds of all runs holds of the handler's own. */
  lemma TraceIsRun(task: Task, t0: Tables, s0: Store, es: seq<Event>)
    requires Begins(task, World(t0, s0, map[]))
    ensures IsRun(task, TraceOf(task, t0, s0, es), es)
  {
    var ws := TraceOf(task, t0, s0, es);
    TraceAt(task, t0, s0, es, 0);
    forall i | 0 <= i < |es| ensures StepAt(task, ws, es, i) {
      TraceStep(task, t0, s0, es, i);
    }
  }

  lemma TraceStep(task: Task, t0: Tables, s0: Store, es: seq<Event>, i: nat)
    requires i < |es|
    ensures var ws := TraceOf(task, t0, s0, es); ws[i + 1] == Next(task, ws[i], es[i])
  {
    TraceAt(task, t0, s0, es, i);
    TraceAt(task, t0, s0, es, i + 1);
    assert es[..i + 1][..i] == es[..i];
  }

  /** In every state of every run, what is recorded is planned, and the operation agrees with every execution. */
  lemma RunKeeps(task: Task, ws: seq<World>, es: seq<Event>, k: nat)
    requires IsRun(task, ws, es) && k < |ws|
    ensures TaskOk(task) && DocumentOk(task.src, task.doc) && Inv(task, ws[0].tables, ws[k])
  {
    RunStart(task, ws, es);
    for i := 0 to k
      invariant Inv(task, ws[0].tables, ws[i])
    {
      RunGoesOn(task, ws, es, ws[0].tables, i);
    }
  }

  lemma NextKeepsRange(task: Task, w: World, e: Event)
    requires ColumnsInRange(w.tables)
    ensures ColumnsInRange(Next(task, w, e).tables)
  {
    if e.Step? && e.h in w.handlers && InDocument(task.doc, w.handlers[e.h].pc) {
      TransactKeepsRange(task.src, task.doc, w.tables, w.store, w.handlers[e.h], e.candidate, e.clock);
    }
  }

  lemma RangeGoesOn(task: Task, ws: seq<World>, es: seq<Event>, i: nat)
    requires IsRun(task, ws, es) && i < |es| && ColumnsInRange(ws[i].tables)
    ensures ColumnsInRange(ws[i + 1].tables)
  {
    RunStep(task, ws, es, i);
    NextKeepsRange(task, ws[i], es[i]);
  }

  lemma RunInRange(task: Task, ws: seq<World>, es: seq<Event>, k: nat)
    requires IsRun(task, ws, es) && k < |ws|
    ensures ColumnsInRange(ws[k].tables)
  {
    RunStart(task, ws, es);
    for i := 0 to k
      invariant ColumnsInRange(ws[i].tables)
    {
      RangeGoesOn(task, ws, es, i);
    }
  }

  // ---------------------------------------------------------------------
  // What every run guarantees
  // ---------------------------------------------------------------------

  /** What the place of an execution means. */
  ghost predicate Accounted(task: Task, s: Store, pc: Pc)
    requires Found(s, task.id)
  {
    match pc
    case Stopped(error) => error == Records.Backend
    case Delayed(at) => Behind(s, task.id, at)
    case Denied(at) => StateOf(s, task.id) == OpFailed || at == 0
    case Published =>
      StateOf(s, task.id) == OpSucceeded && s.operations[OperationKey(task.id)].scans == Some(|task.doc.runs|)
    case _ => StateOf(s, task.id) != OpQueued
  }

  lemma HandlersAccounted(task: Task, t0: Tables, w: World, h: nat)
    requires Kept(task, t0, w) && h in w.handlers
    ensures Accounted(task, w.store, w.handlers[h].pc)
  {
    assert HandlerOk(PlanOf(task.src, task.doc), w.tables, w.handlers[h]) && Agrees(w.store, task.id, w.handlers[h].pc);
  }

  /**
   However executions interleave, whatever the clocks do, and wherever they
   stop, no execution ever meets a conflict, an ordering violation, an invalid
   record or a missing parent in the record stores: what they refuse there is
   a clash of generated ids or a number that fits no column. An execution is
   held up only behind a clock that is too early, is turned away only after a
   published failure or by a clock at the zero instant, and reports success
   only when it is published.
   */
  lemma ExecutionsNeverConflict(task: Task, ws: seq<World>, es: seq<Event>, k: nat, h: nat)
    requires IsRun(task, ws, es) && k < |ws| && h in ws[k].handlers
    ensures Found(ws[k].store, task.id) && Accounted(task, ws[k].store, ws[k].handlers[h].pc)
  {
    RunKeeps(task, ws, es, k);
    HandlersAccounted(task, ws[0].tables, ws[k], h);
  }

  lemma ArrivalOutcome(task: Task, w: World, h: nat, clock: Instant, later: Instant)
    requires TaskOk(task) && Lifecycle.RowsOk(w.store, task.id) && StartAt(clock) != 0
    ensures var state, pc, at := StateOf(w.store, task.id), Arrived(task, w, h, clock, later).handlers[h].pc,
                                 StartAt(clock);
            && (pc == Parsing <==> !TerminalOp(state) && Lifecycle.NotEarly(w.store, task.id, at))
            && (pc == Delayed(at) <==> !TerminalOp(state) && !Lifecycle.NotEarly(w.store, task.id, at))
            && (pc == Published <==> state == OpSucceeded)
            && (pc == Denied(at) <==> state == OpFailed)
  {
    StartAgrees(w.store, task.id, StartAt(clock));
  }

  lemma ArrivingStep(task: Task, w: World, h: nat, clock: Instant, later: Instant)
    requires h !in w.handlers
    ensures Next(task, w, Arrive(h, clock, later)) == Arrived(task, w, h, clock, later)
  {
  }

  /** Where an arriving execution goes, exactly: the clock alone can hold up an open operation. */
  lemma ArrivalIff(task: Task, ws: seq<World>, es: seq<Event>, k: nat)
    requires IsRun(task, ws, es) && k < |es| && es[k].Arrive? && es[k].h !in ws[k].handlers
    requires StartAt(es[k].clock) != 0
    ensures Found(ws[k].store, task.id) && es[k].h in ws[k + 1].handlers
    ensures var state, pc, at := StateOf(ws[k].store, task.id), ws[k + 1].handlers[es[k].h].pc, StartAt(es[k].clock);
            && (pc == Parsing <==> !TerminalOp(state) && Lifecycle.NotEarly(ws[k].store, task.id, at))
            && (pc == Delayed(at) <==> !TerminalOp(state) && !Lifecycle.NotEarly(ws[k].store, task.id, at))
            && (pc == Published <==> state == OpSucceeded)
            && (pc == Denied(at) <==> state == OpFailed)
  {
    RunKeeps(task, ws, es, k);
    RunStep(task, ws, es, k);
    ArrivingStep(task, ws[k], es[k].h, es[k].clock, es[k].later);
    Lifecycle.ReachedRows(ws[k].store, task.id);
    ArrivalOutcome(task, ws[k], es[k].h, es[k].clock, es[k].later);
  }

  /** The event is the last transaction of an execution that recorded everything. */
  predicate Completes(w: World, e: Event) {
    e.Step? && e.h in w.handlers && w.handlers[e.h].pc.Completing? && ValidOpaqueId(e.candidate)
  }

  /**
   Where an execution that recorded everything goes, exactly. The completion
   instant is raised to the evidence and not to the rows or to the start, so a
   clock behind either of them holds the completion up.
   */
  lemma CompletionIff(task: Task, ws: seq<World>, es: seq<Event>, k: nat)
    requires IsRun(task, ws, es) && k < |es| && Completes(ws[k], es[k])
    ensures Found(ws[k].store, task.id) && es[k].h in ws[k + 1].handlers
    ensures var state, pc, at := StateOf(ws[k].store, task.id), ws[k + 1].handlers[es[k].h].pc,
                                 FinishAt(task.src, es[k].clock);
            && (pc == Published <==>
                  state == OpSucceeded || (state == OpRunning && !Behind(ws[k].store, task.id, at)))
            && (pc == Delayed(at) <==> state == OpRunning && Behind(ws[k].store, task.id, at))
            && (pc == Denied(at) <==> state == OpFailed)
            && state != OpQueued
  {
    RunKeeps(task, ws, es, k);
    RunStep(task, ws, es, k);
    CompletionFacts(task, ws[0].tables, ws[k], es[k].h);
    CompletingStep(task, ws[k], es[k].h, es[k].candidate, es[k].clock);
    CompletionOutcome(task, ws[k], es[k].h, es[k].clock);
  }

  lemma CompletionFacts(task: Task, t0: Tables, w: World, h: nat)
    requires TaskOk(task) && Inv(task, t0, w) && h in w.handlers && w.handlers[h].pc.Completing?
    ensures Lifecycle.RowsOk(w.store, task.id) && StateOf(w.store, task.id) != OpQueued
    ensures StateOf(w.store, task.id) == OpSucceeded ==>
              w.store.operations[OperationKey(task.id)].scans == Some(|task.doc.runs|)
  {
    assert Agrees(w.store, task.id, w.handlers[h].pc);
    Lifecycle.ReachedRows(w.store, task.id);
  }

  lemma CompletionOutcome(task: Task, w: World, h: nat, clock: Instant)
    requires TaskOk(task) && h in w.handlers
    requires Lifecycle.RowsOk(w.store, task.id) && StateOf(w.store, task.id) != OpQueued
    requires StateOf(w.store, task.id) == OpSucceeded ==>
               w.store.operations[OperationKey(task.id)].scans == Some(|task.doc.runs|)
    ensures var v, at, state := Finished(task, w, h, clock), FinishAt(task.src, clock), StateOf(w.store, task.id);
            && h in v.handlers
            && (v.handlers[h].pc == Published <==>
                  (state == OpSucceeded || (state == OpRunning && !Behind(w.store, task.id, at))))
            && (v.handlers[h].pc == Delayed(at) <==> state == OpRunning && Behind(w.store, task.id, at))
            && (v.handlers[h].pc == Denied(at) <==> state == OpFailed)
            && (v.handlers[h].pc.Published? || v.handlers[h].pc.Delayed? || v.handlers[h].pc.Denied?)
  {
    TimestampStorable(clock, task.src.receivedAt);
    FinishAgrees(w.store, task.id, |task.doc.runs|, FinishAt(task.src, clock));
  }

  // ---------------------------------------------------------------------
  // What is published
  // ---------------------------------------------------------------------

  predicate ScanHeld(src: Source, doc: Sarif.Document, t: Tables, i: nat)
    requires i < |doc.runs|
  {
    var key := ScanKey(src.workspace, src.import_, i);
    && key in t.scans
    && t.scans[key].record == ScanRecord(MapScan(src, doc.runs[i], "", 0))
    && t.scans[key].scope == ScopeRecord(MapScan(src, doc.runs[i], "", 0))
  }

  /** The observation, the normalization and the outcome of one result are stored with its contents. */
  ghost predicate ResultHeld(src: Source, doc: Sarif.Document, t: Tables, i: nat, j: nat)
    requires i < |doc.runs| && j < |doc.runs[i].results|
  {
    var p, result := PlanOf(src, doc), doc.runs[i].results[j];
    && ScanSlot(p, i) in t.scans
    && var scan := t.scans[ScanSlot(p, i)].id;
       && ObservationSlot(p, scan, j) in t.observations
       && t.observations[ObservationSlot(p, scan, j)].record == ObservationContent(src, result, scan)
       && var observation := t.observations[ObservationSlot(p, scan, j)].id;
          && NormalizationSlot(p, observation) in t.normalizations && OutcomeSlot(p, observation) in t.outcomes
          && t.normalizations[NormalizationSlot(p, observation)].record
             == NormalizationContent(src, result, observation)
          && t.outcomes[OutcomeSlot(p, observation)].record == OutcomeContent(src, observation)
  }

  /**
   The records of the document and, of this import, nothing else: one scan for
   each run, one observation, normalization and outcome for each result, and
   the tables as they were before.
   */
  ghost predicate HoldsDocument(src: Source, doc: Sarif.Document, t0: Tables, t: Tables) {
    && (forall i :: 0 <= i < |doc.runs| ==> ScanHeld(src, doc, t, i))
    && (forall i, j :: 0 <= i < |doc.runs| && 0 <= j < |doc.runs[i].results| ==> ResultHeld(src, doc, t, i, j))
    && ParseKey(src.workspace, src.import_) in t.parses
    && t.parses[ParseKey(src.workspace, src.import_)].(recordedAt := 0) == MapParseOutput(src, doc, 0)
    && UniqueIds(t) && Grows(t0, t) && OnlyPlanned(PlanOf(src, doc), t)
  }

  lemma DoneResultIsHeld(src: Source, doc: Sarif.Document, t: Tables, i: nat, j: nat)
    requires i < |doc.runs| && j < |doc.runs[i].results|
    requires ResultDone(PlanOf(src, doc), t, i, j) && ResultOk(PlanOf(src, doc), t, i, j)
    ensures ResultHeld(src, doc, t, i, j)
  {
  }

  lemma DoneScanIsHeld(src: Source, doc: Sarif.Document, t: Tables, i: nat)
    requires i < |doc.runs| && ScanSlot(PlanOf(src, doc), i) in t.scans && ScanOk(PlanOf(src, doc), t, i)
    ensures ScanHeld(src, doc, t, i)
  {
  }

  lemma PlanIsHeld(src: Source, doc: Sarif.Document, t0: Tables, t: Tables)
    requires RecordsOk(PlanOf(src, doc), t0, t) && AllDone(PlanOf(src, doc), t)
    ensures HoldsDocument(src, doc, t0, t)
  {
    var p := PlanOf(src, doc);
    forall i | 0 <= i < |doc.runs| ensures ScanHeld(src, doc, t, i) {
      assert ScanOk(p, t, i);
      DoneScanIsHeld(src, doc, t, i);
    }
    forall i, j | 0 <= i < |doc.runs| && 0 <= j < |doc.runs[i].results| ensures ResultHeld(src, doc, t, i, j) {
      assert InPlan(p, i, j) && Earlier(i, j, |p.results|, 0);
      DoneResultIsHeld(src, doc, t, i, j);
    }
  }

  /** Success is published exactly over the records of the document. */
  lemma SuccessIsExact(task: Task, ws: seq<World>, es: seq<Event>, k: nat)
    requires IsRun(task, ws, es) && k < |ws|
    ensures Found(ws[k].store, task.id)
    ensures StateOf(ws[k].store, task.id) == OpSucceeded ==>
              && HoldsDocument(task.src, task.doc, ws[0].tables, ws[k].tables)
              && ws[k].store.operations[OperationKey(task.id)].scans == Some(|task.doc.runs|)
  {
    RunKeeps(task, ws, es, k);
    if StateOf(ws[k].store, task.id) == OpSucceeded {
      PlanIsHeld(task.src, task.doc, ws[0].tables, ws[k].tables);
    }
  }

  lemma StepGrows(task: Task, t0: Tables, w: World, h: nat, id: string, clock: Instant)
    requires TaskOk(task) && DocumentOk(task.src, task.doc) && Kept(task, t0, w)
    requires h in w.handlers && InDocument(task.doc, w.handlers[h].pc) && ValidOpaqueId(id)
    ensures Grows(w.tables, Transact(task.src, task.doc, w.tables, w.store, w.handlers[h], id, clock).tables)
  {
    assert HandlerOk(PlanOf(task.src, task.doc), w.tables, w.handlers[h]);
    TransactSound(task.src, task.doc, w.tables, w.store, w.handlers[h], id, clock);
  }

  lemma OtherTables(task: Task, w: World, e: Event)
    ensures var u := Next(task, w, e).tables;
            || Grows(w.tables, u)
            || (e.Step? && e.h in w.handlers && InDocument(task.doc, w.handlers[e.h].pc) && ValidOpaqueId(e.candidate)
                && u == Transact(task.src, task.doc, w.tables, w.store, w.handlers[e.h], e.candidate, e.clock).tables)
  {
    ReflexiveGrows(w.tables);
  }

  /** One more event adds rows and moves the store on; it takes nothing back. */
  lemma NextGrows(task: Task, t0: Tables, w: World, e: Event)
    requires TaskOk(task) && DocumentOk(task.src, task.doc) && Kept(task, t0, w)
    ensures Grows(w.tables, Next(task, w, e).tables)
  {
    OtherTables(task, w, e);
    if e.Step? && e.h in w.handlers && InDocument(task.doc, w.handlers[e.h].pc) && ValidOpaqueId(e.candidate) {
      StepGrows(task, t0, w, e.h, e.candidate, e.clock);
    }
  }

  ghost predicate Later(v: World, w: World) {
    Grows(v.tables, w.tables) && Lifecycle.Stable(v.store, w.store)
  }

  lemma GoOn(task: Task, t0: Tables, v: World, w: World, e: Event)
    requires TaskOk(task) && DocumentOk(task.src, task.doc) && Inv(task, t0, w) && Later(v, w)
    ensures Later(v, Next(task, w, e))
  {
    NextGrows(task, t0, w, e);
    NextKeeps(task, t0, w, e);
    GrowsTransitive(v.tables, w.tables, Next(task, w, e).tables);
    Lifecycle.StableTransitive(v.store, w.store, Next(task, w, e).store);
  }

  lemma LaterReflexive(w: World)
    ensures Later(w, w)
  {
    Lifecycle.StableReflexive(w.store);
  }

  lemma LaterGoesOn(task: Task, ws: seq<World>, es: seq<Event>, v: World, i: nat)
    requires IsRun(task, ws, es) && i < |es| && Later(v, ws[i])
    ensures Later(v, ws[i + 1])
  {
    RunKeeps(task, ws, es, i);
    RunStep(task, ws, es, i);
    GoOn(task, ws[0].tables, v, ws[i], es[i]);
  }

  lemma RunsGrow(task: Task, ws: seq<World>, es: seq<Event>, i: nat, j: nat)
    requires IsRun(task, ws, es) && i <= j < |ws|
    ensures Later(ws[i], ws[j])
  {
    LaterReflexive(ws[i]);
    for k := i to j
      invariant Later(ws[i], ws[k])
    {
      LaterGoesOn(task, ws, es, ws[i], k);
    }
  }

  /**
   After success is published, nothing changes the operation or any row of
   this import: no late or repeated execution, and no other import.
   */
  lemma PublishedIsFinal(task: Task, ws: seq<World>, es: seq<Event>, i: nat, j: nat)
    requires IsRun(task, ws, es) && i <= j < |ws|
    ensures Found(ws[i].store, task.id)
    ensures StateOf(ws[i].store, task.id) == OpSucceeded ==>
              && Ours(PlanOf(task.src, task.doc), ws[j].tables) == Ours(PlanOf(task.src, task.doc), ws[i].tables)
              && OperationKey(task.id) in ws[j].store.operations
              && ws[j].store.operations[OperationKey(task.id)] == ws[i].store.operations[OperationKey(task.id)]
  {
    RunKeeps(task, ws, es, i);
    RunKeeps(task, ws, es, j);
    RunsGrow(task, ws, es, i, j);
    if StateOf(ws[i].store, task.id) == OpSucceeded {
      OursFixed(PlanOf(task.src, task.doc), ws[i].tables, ws[j].tables);
      assert Lifecycle.OperationStable(ws[i].store, ws[j].store, OperationKey(task.id));
    }
  }

  // ---------------------------------------------------------------------
  // Progress
  // ---------------------------------------------------------------------

  /** The place after a transaction, one nearer the end; the last one is published unless the clock is behind. */
  ghost predicate Advanced(task: Task, s: Store, before: Pc, after: Pc, clock: Instant) {
    && Found(s, task.id) && InDocument(task.doc, before) && InDocument(task.doc, after)
    && Left(task.doc, after) == Left(task.doc, before) - 1
    && (!before.Completing? ==> Working(after))
    && (before.Completing? ==>
          (after.Published? <==>
             (StateOf(s, task.id) == OpSucceeded
              || (StateOf(s, task.id) == OpRunning && !Behind(s, task.id, FinishAt(task.src, clock))))))
  }

  lemma ExecutionAdvances(task: Task, t0: Tables, w: World, h: nat, id: string, clock: Instant)
    requires TaskOk(task) && DocumentOk(task.src, task.doc) && Kept(task, t0, w) && ValidOpaqueId(id)
    requires h in w.handlers && Working(w.handlers[h].pc) && !w.handlers[h].pc.Completing?
    requires !ScanIdUsed(w.tables, task.src.workspace, id) && !ObservationIdUsed(w.tables, task.src.workspace, id)
    requires ColumnsInRange(w.tables)
    ensures InDocument(task.doc, w.handlers[h].pc)
    ensures var after := Transact(task.src, task.doc, w.tables, w.store, w.handlers[h], id, clock).pc;
            if StageInRange(task.doc, w.handlers[h].pc) then Advanced(task, w.store, w.handlers[h].pc, after, clock)
            else after.Stopped?
  {
    assert HandlerOk(PlanOf(task.src, task.doc), w.tables, w.handlers[h]);
    PcInDocument(task.src, task.doc, w.tables, w.handlers[h].pc);
    StepAdvances(task.src, task.doc, w.tables, w.store, w.handlers[h], id, clock);
  }

  lemma CompletionAdvances(task: Task, s: Store, after: Pc, clock: Instant)
    requires Found(s, task.id) && (after.Published? || after.Delayed? || after.Denied?)
    requires after.Published? <==>
             (StateOf(s, task.id) == OpSucceeded
              || (StateOf(s, task.id) == OpRunning && !Behind(s, task.id, FinishAt(task.src, clock))))
    ensures Advanced(task, s, Completing, after, clock)
  {
  }

  /** The event is a transaction of a working execution, with an id that is in use nowhere. */
  predicate Works(task: Task, w: World, e: Event) {
    && e.Step? && e.h in w.handlers && Working(w.handlers[e.h].pc) && ValidOpaqueId(e.candidate)
    && !ScanIdUsed(w.tables, task.src.workspace, e.candidate)
    && !ObservationIdUsed(w.tables, task.src.workspace, e.candidate)
  }

  lemma RecordingStep(task: Task, w: World, h: nat, id: string, clock: Instant)
    requires h in w.handlers && InDocument(task.doc, w.handlers[h].pc) && ValidOpaqueId(id)
    requires !w.handlers[h].pc.Completing?
    ensures var v := Next(task, w, Step(h, id, clock));
            && h in v.handlers
            && v.handlers[h].pc == Transact(task.src, task.doc, w.tables, w.store, w.handlers[h], id, clock).pc
  {
  }

  /**
   Whatever earlier executions left behind, an execution that draws an unused
   id advances with every record transaction, at any clock, exactly when the
   numbers it writes fit their columns, so a retry of a document in range
   reaches its completion after exactly 1 + RunsLeft(doc, 0) of them, and one
   out of range is refused at the same place for good. The completion itself
   advances exactly when the clock is not behind the operation.
   */
  lemma RetriesMakeProgress(task: Task, ws: seq<World>, es: seq<Event>, k: nat)
    requires IsRun(task, ws, es) && k < |es| && Works(task, ws[k], es[k])
    ensures es[k].h in ws[k + 1].handlers && InDocument(task.doc, ws[k].handlers[es[k].h].pc)
    ensures var before, after := ws[k].handlers[es[k].h].pc, ws[k + 1].handlers[es[k].h].pc;
            if StageInRange(task.doc, before) then Advanced(task, ws[k].store, before, after, es[k].clock)
            else after.Stopped?
  {
    RunKeeps(task, ws, es, k);
    RunInRange(task, ws, es, k);
    RunStep(task, ws, es, k);
    WorkAdvances(task, ws[0].tables, ws[k], es[k]);
  }

  lemma WorkAdvances(task: Task, t0: Tables, w: World, e: Event)
    requires TaskOk(task) && DocumentOk(task.src, task.doc) && Inv(task, t0, w) && ColumnsInRange(w.tables)
    requires Works(task, w, e)
    ensures e.h in Next(task, w, e).handlers && InDocument(task.doc, w.handlers[e.h].pc)
    ensures var before, after := w.handlers[e.h].pc, Next(task, w, e).handlers[e.h].pc;
            if StageInRange(task.doc, before) then Advanced(task, w.store, before, after, e.clock) else after.Stopped?
  {
    if w.handlers[e.h].pc.Completing? {
      CompletionFacts(task, t0, w, e.h);
      CompletingStep(task, w, e.h, e.candidate, e.clock);
      CompletionOutcome(task, w, e.h, e.clock);
      CompletionAdvances(task, w.store, Finished(task, w, e.h, e.clock).handlers[e.h].pc, e.clock);
    } else {
      ExecutionAdvances(task, t0, w, e.h, e.candidate, e.clock);
      RecordingStep(task, w, e.h, e.candidate, e.clock);
    }
  }

  lemma DoneIsInRange(src: Source, doc: Sarif.Document, t: Tables, i: nat, j: nat)
    requires TablesOk(PlanOf(src, doc), t) && AllDone(PlanOf(src, doc), t) && ColumnsInRange(t)
    requires i < |doc.runs| && j < |doc.runs[i].results|
    ensures ResultInRange(doc.runs[i].results[j])
  {
    var p := PlanOf(src, doc);
    assert InPlan(p, i, j) && Earlier(i, j, |p.results|, 0);
    assert ResultDone(p, t, i, j);
    StoredIsInRange(src, doc, t, i, j, t.scans[ScanSlot(p, i)].id);
  }

  lemma HeldIsInRange(src: Source, doc: Sarif.Document, t: Tables)
    requires DocumentOk(src, doc) && TablesOk(PlanOf(src, doc), t) && AllDone(PlanOf(src, doc), t) && ColumnsInRange(t)
    ensures DocumentInRange(doc)
  {
    forall i | 0 <= i < |doc.runs| ensures InRange(doc.runs[i].index) {
      assert ScanOk(PlanOf(src, doc), t, i);
    }
    forall i, j | 0 <= i < |doc.runs| && 0 <= j < |doc.runs[i].results|
      ensures ResultInRange(doc.runs[i].results[j])
    {
      DoneIsInRange(src, doc, t, i, j);
    }
  }

  /** A document with a number that fits no column is never published, in any run. */
  lemma SuccessIsInRange(task: Task, ws: seq<World>, es: seq<Event>, k: nat)
    requires IsRun(task, ws, es) && k < |ws|
    ensures Found(ws[k].store, task.id)
    ensures StateOf(ws[k].store, task.id) == OpSucceeded ==> DocumentInRange(task.doc)
  {
    RunKeeps(task, ws, es, k);
    RunInRange(task, ws, es, k);
    if StateOf(ws[k].store, task.id) == OpSucceeded {
      HeldIsInRange(task.src, task.doc, ws[k].tables);
    }
  }

  // ---------------------------------------------------------------------
  // Two processings of the same evidence
  // ---------------------------------------------------------------------

  /** The stored records of one result, without generated ids. */
  datatype ResultView = ResultView(
    observation: Finding.CanonicalObservation, normalization: Finding.CanonicalNormalization,
    outcome: Correlation.CanonicalOutcome)

  ghost function ViewOf(src: Source, doc: Sarif.Document, t: Tables, i: nat, j: nat): ResultView
    requires i < |doc.runs| && j < |doc.runs[i].results| && ResultHeld(src, doc, t, i, j)
  {
    var p := PlanOf(src, doc);
    var row := t.observations[ObservationSlot(p, t.scans[ScanSlot(p, i)].id, j)];
    ResultView(row.record.(scan := ""), t.normalizations[NormalizationSlot(p, row.id)].record.(observation := ""),
               t.outcomes[OutcomeSlot(p, row.id)].record.(observation := ""))
  }

  /** Contents depend on generated ids only in the fields that name them. */
  lemma ContentsWithoutIds(src: Source, result: Sarif.SourceResult, scan: string, observation: string)
    ensures ObservationContent(src, result, scan).(scan := "") == ObservationContent(src, result, "")
    ensures NormalizationContent(src, result, observation).(observation := "") == NormalizationContent(src, result, "")
    ensures OutcomeContent(src, observation).(observation := "") == OutcomeContent(src, "")
  {
  }

  ghost function PlannedView(src: Source, result: Sarif.SourceResult): ResultView {
    ResultView(ObservationContent(src, result, ""), NormalizationContent(src, result, ""), OutcomeContent(src, ""))
  }

  lemma ViewIsPlanned(src: Source, doc: Sarif.Document, t: Tables, i: nat, j: nat)
    requires i < |doc.runs| && j < |doc.runs[i].results| && ResultHeld(src, doc, t, i, j)
    ensures ViewOf(src, doc, t, i, j) == PlannedView(src, doc.runs[i].results[j])
  {
    var p := PlanOf(src, doc);
    var scan := t.scans[ScanSlot(p, i)].id;
    ContentsWithoutIds(src, doc.runs[i].results[j], scan, t.observations[ObservationSlot(p, scan, j)].id);
  }

  lemma HeldView(src: Source, doc: Sarif.Document, t0: Tables, t: Tables, i: nat, j: nat)
    requires i < |doc.runs| && j < |doc.runs[i].results| && HoldsDocument(src, doc, t0, t)
    ensures ScanHeld(src, doc, t, i) && ResultHeld(src, doc, t, i, j)
    ensures ViewOf(src, doc, t, i, j) == PlannedView(src, doc.runs[i].results[j])
  {
    ViewIsPlanned(src, doc, t, i, j);
  }

  lemma RunView(task: Task, ws: seq<World>, es: seq<Event>, k: nat, i: nat, j: nat)
    requires IsRun(task, ws, es) && k < |ws| && i < |task.doc.runs| && j < |task.doc.runs[i].results|
    requires Found(ws[k].store, task.id) && StateOf(ws[k].store, task.id) == OpSucceeded
    ensures ScanHeld(task.src, task.doc, ws[k].tables, i) && ResultHeld(task.src, task.doc, ws[k].tables, i, j)
    ensures ViewOf(task.src, task.doc, ws[k].tables, i, j) == PlannedView(task.src, task.doc.runs[i].results[j])
  {
    SuccessIsExact(task, ws, es, k);
    HeldView(task.src, task.doc, ws[0].tables, ws[k].tables, i, j);
  }

  /**
   Any two processings of the same evidence that publish success, from any two
   stores and by any interleavings, store the same records up to generated ids
   and times.
   */
  lemma ProcessingIsDeterministic(task: Task, ws: seq<World>, es: seq<Event>, vs: seq<World>, fs: seq<Event>, k: nat,
                                  m: nat, i: nat, j: nat)
    requires IsRun(task, ws, es) && IsRun(task, vs, fs) && k < |ws| && m < |vs|
    requires i < |task.doc.runs| && j < |task.doc.runs[i].results|
    requires Found(ws[k].store, task.id) && StateOf(ws[k].store, task.id) == OpSucceeded
    requires Found(vs[m].store, task.id) && StateOf(vs[m].store, task.id) == OpSucceeded
    ensures var a, b := ws[k].tables, vs[m].tables;
            && ScanHeld(task.src, task.doc, a, i) && ScanHeld(task.src, task.doc, b, i)
            && ResultHeld(task.src, task.doc, a, i, j) && ResultHeld(task.src, task.doc, b, i, j)
            && ViewOf(task.src, task.doc, a, i, j) == ViewOf(task.src, task.doc, b, i, j)
  {
    RunView(task, ws, es, k, i, j);
    RunView(task, vs, fs, m, i, j);
  }
}
