/**
 What every event of the import processor keeps: the record tables carry out
 the plan and hold nothing else of this import, the operation and the place of
 every execution agree, and success stands only over a finished plan.
 */
module ImportInvariant {
  import opened Base
  import opened Text
  import Sarif
  import Finding
  import Correlation
  import opened Scans
  import opened Records
  import opened ImportPlan
  import opened Ingestion
  import opened Importer
  import opened ImportStages
  import Lifecycle

  // ---------------------------------------------------------------------
  // The operation
  // ---------------------------------------------------------------------

  /** The operation cannot be written at this instant: it is before the rows or before the start. */
  predicate Behind(s: Store, id: Identity, at: Time)
    requires Found(s, id)
  {
    !Lifecycle.Writable(s, id, at)
  }

  function StateOf(s: Store, id: Identity): OperationState
    requires Found(s, id)
  {
    s.operations[OperationKey(id)].state
  }

  /** What the place of an execution says about the operation. */
  predicate Agrees(s: Store, id: Identity, pc: Pc)
    requires Found(s, id)
  {
    match pc
    case Published => StateOf(s, id) == OpSucceeded
    case Delayed(at) => Behind(s, id, at)
    case Denied(at) => StateOf(s, id) == OpFailed || at == 0
    case Stopped(_) => true
    case _ => StateOf(s, id) != OpQueued
  }

  lemma AgreesStays(s: Store, u: Store, id: Identity, pc: Pc)
    requires Found(s, id) && Agrees(s, id, pc) && Lifecycle.RowsStable(s, u, id)
    ensures Agrees(u, id, pc)
  {
  }

  /** What starting the operation leaves, and where it sends the execution. */
  lemma StartAgrees(s: Store, id: Identity, at: Time)
    requires Lifecycle.RowsOk(s, id) && ValidIdentity(id)
    ensures var r := BeginProcessingStep(s, id, at);
            && Lifecycle.RowsStable(s, r.0, id) && Found(r.0, id) && Agrees(r.0, id, Started(r.1, at))
            && (StateOf(r.0, id) == OpSucceeded ==> r.0 == s)
            && (at != 0 ==>
                  && (Started(r.1, at) == Parsing <==> !TerminalOp(StateOf(s, id)) && Lifecycle.NotEarly(s, id, at))
                  && (Started(r.1, at) == Delayed(at) <==>
                        !TerminalOp(StateOf(s, id)) && !Lifecycle.NotEarly(s, id, at))
                  && (Started(r.1, at) == Published <==> StateOf(s, id) == OpSucceeded)
                  && (Started(r.1, at) == Denied(at) <==> StateOf(s, id) == OpFailed))
  {
    if at != 0 && Lifecycle.Unfinished(s, id) {
      Lifecycle.BeginProcessingIff(s, id, at);
    }
  }

  /** What publishing success leaves, and where it sends the execution. */
  lemma FinishAgrees(s: Store, id: Identity, scans: nat, at: Time)
    requires Lifecycle.RowsOk(s, id) && ValidIdentity(id) && at != 0 && StateOf(s, id) != OpQueued
    requires StateOf(s, id) == OpSucceeded ==> s.operations[OperationKey(id)].scans == Some(scans)
    ensures var r := CompleteProcessingStep(s, id, scans, at);
            && Lifecycle.RowsStable(s, r.0, id) && Found(r.0, id) && Agrees(r.0, id, Completed(r.1, at))
            && (StateOf(r.0, id) == OpSucceeded ==> r.0.operations[OperationKey(id)].scans == Some(scans))
            && (Completed(r.1, at) == Published <==>
                  StateOf(s, id) == OpSucceeded || (StateOf(s, id) == OpRunning && !Behind(s, id, at)))
            && (Completed(r.1, at) == Delayed(at) <==> StateOf(s, id) == OpRunning && Behind(s, id, at))
            && (Completed(r.1, at) == Denied(at) <==> StateOf(s, id) == OpFailed)
  {
    if StateOf(s, id) == OpRunning {
      Lifecycle.CompleteProcessingIff(s, id, scans, at);
    }
  }

  lemma ProcessingTouchesOne(s: Store, o: Key, command: Lifecycle.Command)
    requires o in s.operations && (command.BeginProcessing? || command.FailProcessing?)
    ensures var u := Lifecycle.Next(s, command);
            o in u.operations && (u.operations[o].state == OpSucceeded ==> u.operations[o] == s.operations[o])
  {
  }

  /** No other transaction publishes success of this operation. */
  lemma ElsewhereNeverSucceeds(s: Store, id: Identity, command: Lifecycle.Command)
    requires Found(s, id) && AllowedElsewhere(id, command)
    ensures var u, o := Lifecycle.Next(s, command), OperationKey(id);
            o in u.operations && (u.operations[o].state == OpSucceeded ==> u.operations[o] == s.operations[o])
  {
    if command.Complete? || command.CompleteProcessing? {
      Lifecycle.OtherCompletions(s, OperationKey(id), command);
    } else if command.BeginProcessing? || command.FailProcessing? {
      ProcessingTouchesOne(s, OperationKey(id), command);
    } else {
      Lifecycle.UploadsTouchNoOperation(s, command);
    }
  }

  // ---------------------------------------------------------------------
  // What every event keeps
  // ---------------------------------------------------------------------

  ghost predicate HandlersOk(p: Plan, t: Tables, handlers: map<nat, Handler>) {
    forall h :: h in handlers ==> HandlerOk(p, t, handlers[h])
  }

  /** The record tables carry out the plan of this import and hold nothing else of it. */
  ghost predicate RecordsOk(p: Plan, t0: Tables, t: Tables) {
    TablesOk(p, t) && Grows(t0, t) && OnlyPlanned(p, t)
  }

  /** The import tables name this job and hold its evidence. */
  predicate Rooted(task: Task, s: Store) {
    Found(s, task.id) && EvidenceHeld(task.src, s)
  }

  ghost predicate AllAgree(s: Store, id: Identity, handlers: map<nat, Handler>)
    requires Found(s, id)
  {
    forall h :: h in handlers ==> Agrees(s, id, handlers[h].pc)
  }

  /** Success is published only over a finished plan. */
  ghost predicate SuccessOk(task: Task, t: Tables, s: Store)
    requires Found(s, task.id)
  {
    StateOf(s, task.id) == OpSucceeded ==>
      s.operations[OperationKey(task.id)].scans == Some(|task.doc.runs|) && AllDone(PlanOf(task.src, task.doc), t)
  }

  ghost predicate Kept(task: Task, t0: Tables, w: World) {
    && RecordsOk(PlanOf(task.src, task.doc), t0, w.tables)
    && HandlersOk(PlanOf(task.src, task.doc), w.tables, w.handlers)
    && Rooted(task, w.store)
    && AllAgree(w.store, task.id, w.handlers)
    && SuccessOk(task, w.tables, w.store)
  }

  ghost predicate Inv(task: Task, t0: Tables, w: World) {
    Lifecycle.Reached(w.store) && Kept(task, t0, w)
  }

  predicate TaskOk(task: Task) {
    && SourceOk(task.src) && ValidIdentity(task.id)
    && task.id.workspace == task.src.workspace && task.id.import_ == task.src.import_
  }

  lemma HandlersMove(p: Plan, t: Tables, u: Tables, handlers: map<nat, Handler>, h: nat, handler: Handler)
    requires HandlersOk(p, t, handlers) && Grows(t, u) && HandlerOk(p, u, handler)
    ensures HandlersOk(p, u, handlers[h := handler])
  {
    forall g | g in handlers && g != h ensures HandlerOk(p, u, handlers[g]) {
      HandlerGrows(p, t, u, handlers[g]);
    }
  }

  lemma HandlersGrow(p: Plan, t: Tables, u: Tables, handlers: map<nat, Handler>)
    requires HandlersOk(p, t, handlers) && Grows(t, u)
    ensures HandlersOk(p, u, handlers)
  {
    forall g | g in handlers ensures HandlerOk(p, u, handlers[g]) {
      HandlerGrows(p, t, u, handlers[g]);
    }
  }

  lemma AgreementMoves(s: Store, u: Store, id: Identity, handlers: map<nat, Handler>, h: nat, handler: Handler)
    requires Found(s, id) && AllAgree(s, id, handlers) && Lifecycle.RowsStable(s, u, id)
    requires Found(u, id) && Agrees(u, id, handler.pc)
    ensures AllAgree(u, id, handlers[h := handler])
  {
    forall g | g in handlers && g != h ensures Agrees(u, id, handlers[g].pc) {
      AgreesStays(s, u, id, handlers[g].pc);
    }
  }

  lemma AgreementStays(s: Store, u: Store, id: Identity, handlers: map<nat, Handler>)
    requires Found(s, id) && AllAgree(s, id, handlers) && Lifecycle.RowsStable(s, u, id) && Found(u, id)
    ensures AllAgree(u, id, handlers)
  {
    forall g | g in handlers ensures Agrees(u, id, handlers[g].pc) {
      AgreesStays(s, u, id, handlers[g].pc);
    }
  }

  // The events

  /** The store moves under an execution that goes on soundly. */
  lemma StoreMoves(task: Task, t0: Tables, w: World, u: Store, h: nat, handler: Handler)
    requires Kept(task, t0, w) && Rooted(task, u) && Lifecycle.RowsStable(w.store, u, task.id)
    requires Agrees(u, task.id, handler.pc) && HandlerOk(PlanOf(task.src, task.doc), w.tables, handler)
    requires SuccessOk(task, w.tables, u)
    ensures Kept(task, t0, w.(store := u, handlers := w.handlers[h := handler]))
  {
    AgreementMoves(w.store, u, task.id, w.handlers, h, handler);
    ReflexiveGrows(w.tables);
    HandlersMove(PlanOf(task.src, task.doc), w.tables, w.tables, w.handlers, h, handler);
  }

  lemma ReflexiveGrows(t: Tables)
    ensures Grows(t, t)
  {
  }

  /** A published operation the execution finds was published over a finished plan. */
  lemma ArrivedHandler(task: Task, t: Tables, u: Store, pc: Pc, later: Instant)
    requires TaskOk(task) && Found(u, task.id) && SuccessOk(task, t, u) && Agrees(u, task.id, pc)
    requires pc.Parsing? || pc.Published? || pc.Delayed? || pc.Denied?
    ensures HandlerOk(PlanOf(task.src, task.doc), t, Handler(pc, Timestamp(later, task.src.receivedAt)))
  {
    TimestampStorable(later, task.src.receivedAt);
  }

  lemma ArriveKeeps(task: Task, t0: Tables, w: World, h: nat, clock: Instant, later: Instant)
    requires TaskOk(task) && Kept(task, t0, w) && Lifecycle.RowsOk(w.store, task.id)
    requires Rooted(task, Arrived(task, w, h, clock, later).store)
    ensures Kept(task, t0, Arrived(task, w, h, clock, later))
  {
    var at := StartAt(clock);
    var r := BeginProcessingStep(w.store, task.id, at);
    StartAgrees(w.store, task.id, at);
    ArrivedHandler(task, w.tables, r.0, Started(r.1, at), later);
    StoreMoves(task, t0, w, r.0, h, Handler(Started(r.1, at), Timestamp(later, task.src.receivedAt)));
  }

  lemma FinishKeeps(task: Task, t0: Tables, w: World, h: nat, clock: Instant)
    requires TaskOk(task) && Kept(task, t0, w) && Lifecycle.RowsOk(w.store, task.id)
    requires h in w.handlers && w.handlers[h].pc.Completing? && Rooted(task, Finished(task, w, h, clock).store)
    ensures Kept(task, t0, Finished(task, w, h, clock))
  {
    var at, n := FinishAt(task.src, clock), |task.doc.runs|;
    var r := CompleteProcessingStep(w.store, task.id, n, at);
    assert Agrees(w.store, task.id, w.handlers[h].pc);
    assert HandlerOk(PlanOf(task.src, task.doc), w.tables, w.handlers[h]);
    TimestampStorable(clock, task.src.receivedAt);
    FinishAgrees(w.store, task.id, n, at);
    StoreMoves(task, t0, w, r.0, h, w.handlers[h].(pc := Completed(r.1, at)));
  }

  lemma RecordsGrow(task: Task, t0: Tables, w: World, u: Tables)
    requires RecordsOk(PlanOf(task.src, task.doc), t0, w.tables) && TablesOk(PlanOf(task.src, task.doc), u)
    requires Grows(w.tables, u)
    requires || AddsPlanned(PlanOf(task.src, task.doc), w.tables, u)
             || AddsForeign(PlanOf(task.src, task.doc), w.tables, u)
    ensures RecordsOk(PlanOf(task.src, task.doc), t0, u)
  {
    GrowsTransitive(t0, w.tables, u);
    OnlyPlannedStays(PlanOf(task.src, task.doc), w.tables, u);
  }

  lemma SuccessGrows(task: Task, t: Tables, u: Tables, s: Store)
    requires Found(s, task.id) && SuccessOk(task, t, s) && Grows(t, u)
    ensures SuccessOk(task, u, s)
  {
    if StateOf(s, task.id) == OpSucceeded {
      DoneBeforeGrows(PlanOf(task.src, task.doc), t, u, |task.doc.runs|, 0);
    }
  }

  lemma TransactKeeps(task: Task, t0: Tables, w: World, h: nat, r: Effect)
    requires Kept(task, t0, w) && h in w.handlers && Sound(PlanOf(task.src, task.doc), w.tables, r)
    requires Agrees(w.store, task.id, r.pc)
    ensures Kept(task, t0, w.(tables := r.tables, handlers := w.handlers[h := w.handlers[h].(pc := r.pc)]))
  {
    var p := PlanOf(task.src, task.doc);
    RecordsGrow(task, t0, w, r.tables);
    HandlersMove(p, w.tables, r.tables, w.handlers, h, w.handlers[h].(pc := r.pc));
    SuccessGrows(task, w.tables, r.tables, w.store);
  }

  /** A record transaction says no more about the operation than the execution already knew. */
  lemma TransactAgrees(task: Task, w: World, h: Handler, id: string, clock: Instant)
    requires InDocument(task.doc, h.pc) && Found(w.store, task.id) && Agrees(w.store, task.id, h.pc)
    ensures Agrees(w.store, task.id, Transact(task.src, task.doc, w.tables, w.store, h, id, clock).pc)
  {
    TransactNeverEnds(task.src, task.doc, w.tables, w.store, h, id, clock);
  }

  lemma StepKeeps(task: Task, t0: Tables, w: World, h: nat, id: string, clock: Instant)
    requires TaskOk(task) && DocumentOk(task.src, task.doc) && Kept(task, t0, w)
    requires h in w.handlers && InDocument(task.doc, w.handlers[h].pc) && ValidOpaqueId(id)
    ensures var r := Transact(task.src, task.doc, w.tables, w.store, w.handlers[h], id, clock);
            Kept(task, t0, w.(tables := r.tables, handlers := w.handlers[h := w.handlers[h].(pc := r.pc)]))
  {
    var r := Transact(task.src, task.doc, w.tables, w.store, w.handlers[h], id, clock);
    TransactSound(task.src, task.doc, w.tables, w.store, w.handlers[h], id, clock);
    TransactAgrees(task, w, w.handlers[h], id, clock);
    TransactKeeps(task, t0, w, h, r);
  }

  lemma ElsewhereKeeps(task: Task, t0: Tables, w: World, command: Lifecycle.Command)
    requires Kept(task, t0, w) && AllowedElsewhere(task.id, command)
    requires Rooted(task, Lifecycle.Next(w.store, command))
    requires Lifecycle.RowsStable(w.store, Lifecycle.Next(w.store, command), task.id)
    ensures Kept(task, t0, w.(store := Lifecycle.Next(w.store, command)))
  {
    ElsewhereNeverSucceeds(w.store, task.id, command);
    AgreementStays(w.store, Lifecycle.Next(w.store, command), task.id, w.handlers);
  }

  lemma OthersKeep(task: Task, t0: Tables, w: World, u: Tables)
    requires Kept(task, t0, w) && Foreign(PlanOf(task.src, task.doc), w.tables, u)
    ensures Kept(task, t0, w.(tables := u))
  {
    ForeignKeepsTables(PlanOf(task.src, task.doc), w.tables, u);
    RecordsGrow(task, t0, w, u);
    HandlersGrow(PlanOf(task.src, task.doc), w.tables, u, w.handlers);
    SuccessGrows(task, w.tables, u, w.store);
  }

  lemma NextKept(task: Task, t0: Tables, w: World, e: Event)
    requires TaskOk(task) && DocumentOk(task.src, task.doc) && Kept(task, t0, w)
    requires Lifecycle.RowsOk(w.store, task.id)
    requires Rooted(task, Next(task, w, e).store) && Lifecycle.RowsStable(w.store, Next(task, w, e).store, task.id)
    ensures Kept(task, t0, Next(task, w, e))
  {
    match e
    case Arrive(h, clock, later) =>
      if h !in w.handlers {
        ArriveKeeps(task, t0, w, h, clock, later);
      }
    case Elsewhere(command) =>
      if AllowedElsewhere(task.id, command) {
        ElsewhereKeeps(task, t0, w, command);
      }
    case Others(tables) =>
      if Foreign(PlanOf(task.src, task.doc), w.tables, tables) {
        OthersKeep(task, t0, w, tables);
      }
    case Step(h, candidate, clock) =>
      if h in w.handlers && InDocument(task.doc, w.handlers[h].pc) && ValidOpaqueId(candidate) {
        if w.handlers[h].pc.Completing? {
          FinishKeeps(task, t0, w, h, clock);
        } else {
          StepKeeps(task, t0, w, h, candidate, clock);
        }
      }
  }

  /** The lifecycle transaction an event is, if it is one. */
  function CommandOf(task: Task, w: World, e: Event): Option<Lifecycle.Command> {
    match e
    case Arrive(h, clock, _) =>
      if h in w.handlers then None else Some(Lifecycle.BeginProcessing(task.id, StartAt(clock)))
    case Elsewhere(command) => if AllowedElsewhere(task.id, command) then Some(command) else None
    case Others(_) => None
    case Step(h, candidate, clock) =>
      if h in w.handlers && w.handlers[h].pc.Completing? && ValidOpaqueId(candidate)
      then Some(Lifecycle.CompleteProcessing(task.id, |task.doc.runs|, FinishAt(task.src, clock))) else None
  }

  lemma StartIsCommand(s: Store, id: Identity, at: Time)
    ensures BeginProcessingStep(s, id, at).0 == Lifecycle.Next(s, Lifecycle.BeginProcessing(id, at))
  {
  }

  lemma FinishIsCommand(s: Store, id: Identity, scans: nat, at: Time)
    ensures CompleteProcessingStep(s, id, scans, at).0
            == Lifecycle.Next(s, Lifecycle.CompleteProcessing(id, scans, at))
  {
  }

  lemma StoreCommand(task: Task, w: World, e: Event)
    ensures var u, command := Next(task, w, e).store, CommandOf(task, w, e);
            u == if command.Some? then Lifecycle.Next(w.store, command.value) else w.store
  {
    match e
    case Arrive(h, clock, _) => StartIsCommand(w.store, task.id, StartAt(clock));
    case Step(h, candidate, clock) =>
      FinishIsCommand(w.store, task.id, |task.doc.runs|, FinishAt(task.src, clock));
    case _ =>
  }

  /** Every event is a lifecycle transaction or none, and keeps rows stable. */
  lemma StoreKeeps(s: Store, u: Store, command: Option<Lifecycle.Command>)
    requires Lifecycle.Reached(s) && u == if command.Some? then Lifecycle.Next(s, command.value) else s
    ensures Lifecycle.Reached(u) && Lifecycle.Stable(s, u)
  {
    if command.Some? {
      Lifecycle.ReachedGoesOn(s, command.value);
      Lifecycle.ReachedStable(s, command.value);
    } else {
      Lifecycle.StableReflexive(s);
    }
  }

  lemma StableEvidence(task: Task, s: Store, u: Store)
    requires Rooted(task, s) && Lifecycle.Stable(s, u)
    ensures Rooted(task, u) && Lifecycle.RowsStable(s, u, task.id)
  {
    Lifecycle.StableRows(s, u, task.id);
    assert Lifecycle.ArtifactStable(s, u, Key(task.src.workspace, task.src.import_));
  }

  lemma NextKeeps(task: Task, t0: Tables, w: World, e: Event)
    requires TaskOk(task) && DocumentOk(task.src, task.doc) && Inv(task, t0, w)
    ensures Inv(task, t0, Next(task, w, e)) && Lifecycle.Stable(w.store, Next(task, w, e).store)
  {
    StoreCommand(task, w, e);
    StoreKeeps(w.store, Next(task, w, e).store, CommandOf(task, w, e));
    StableEvidence(task, w.store, Next(task, w, e).store);
    Lifecycle.ReachedRows(w.store, task.id);
    NextKept(task, t0, w, e);
  }
}
