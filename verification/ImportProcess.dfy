/** The nested loops of the processor over a record store, step for step the execution of the run model. */
module ImportProcess {
  import opened Base
  import opened Text
  import Sarif
  import Finding
  import Correlation
  import opened Scans
  import opened Records
  import opened Importer
  import opened Ingestion
  import IngestionTables

  /** The first n transactions of an execution that begins after parsing; the k-th draws ids(k) and reads clock(k). */
  ghost function Steps(src: Source, doc: Sarif.Document, t: Tables, s: Store, at: Instant, ids: nat -> string,
                       clock: nat -> Instant, n: nat): Effect
  {
    if n == 0 then Effect(t, Parsing)
    else
      var r := Steps(src, doc, t, s, at, ids, clock, n - 1);
      if !InDocument(doc, r.pc) then r
      else Transact(src, doc, r.tables, s, Handler(r.pc, at), ids(n - 1), clock(n - 1))
  }

  method StoreScan(store: RecordStore, src: Source, doc: Sarif.Document, s: Store, i: nat, id: string, at: Instant)
    returns (pc: Pc, scan: string)
    requires i < |doc.runs| && UniqueIds(store.View())
    modifies store
    ensures Effect(store.View(), pc) == ScanStep(src, doc, old(store.View()), s, i, id, at)
    ensures UniqueIds(store.View())
    ensures pc.Stopped? || pc == AfterScan(doc, i, scan)
  {
    var r := store.AddScan(MapScan(src, doc.runs[i], id, at), s);
    if r.Err? {
      return Stopped(r.error), "";
    }
    scan := r.value.id;
    pc := AfterScan(doc, i, scan);
  }

  method StoreObservation(store: RecordStore, src: Source, doc: Sarif.Document, i: nat, j: nat, scan: string,
                          id: string, at: Instant) returns (pc: Pc)
    requires i < |doc.runs| && j < |doc.runs[i].results| && UniqueIds(store.View())
    modifies store
    ensures Effect(store.View(), pc) == ObservationStep(src, doc, old(store.View()), i, j, scan, id, at)
    ensures UniqueIds(store.View())
    ensures pc.Stopped? || (pc.Normalizing? && pc.i == i && pc.j == j && pc.scan == scan)
  {
    var r := store.AddObservation(MapObservation(src, scan, doc.runs[i].results[j], id, at));
    if r.Err? {
      return Stopped(r.error);
    }
    pc := Normalizing(i, j, scan, r.value);
  }

  method StoreNormalization(store: RecordStore, src: Source, doc: Sarif.Document, i: nat, j: nat, scan: string,
                            stored: Stored, at: Instant, clock: Instant) returns (pc: Pc)
    requires i < |doc.runs| && j < |doc.runs[i].results| && UniqueIds(store.View())
    modifies store
    ensures Effect(store.View(), pc) == NormalizationStep(src, doc, old(store.View()), i, j, scan, stored, at, clock)
    ensures UniqueIds(store.View())
    ensures pc.Stopped? || (pc.Correlating? && pc.i == i && pc.j == j && pc.scan == scan)
  {
    var n := Normalize(MapObservation(src, scan, doc.runs[i].results[j], stored.id, at), Timestamp(clock, stored.at));
    if n.None? {
      return Stopped(Records.Invalid);
    }
    var r := store.AddNormalization(n.value);
    if r.Err? {
      return Stopped(r.error);
    }
    pc := Correlating(i, j, scan, stored.id, r.value.at);
  }

  method StoreOutcome(store: RecordStore, src: Source, doc: Sarif.Document, i: nat, j: nat, scan: string,
                      observation: string, normalizedAt: Instant, clock: Instant) returns (pc: Pc)
    requires i < |doc.runs| && UniqueIds(store.View())
    modifies store
    ensures Effect(store.View(), pc)
            == OutcomeStep(src, doc, old(store.View()), i, j, scan, observation, normalizedAt, clock)
    ensures UniqueIds(store.View())
    ensures pc.Stopped? || pc == AfterResult(doc, i, j, scan)
  {
    var d := DispatchOf(src, observation, Timestamp(clock, normalizedAt));
    if Correlation.DispatchRefused(d) {
      return Stopped(Records.Invalid);
    }
    var r := store.AddOutcome(Correlation.DispatchOutcome(d));
    pc := if r.Err? then Stopped(r.error) else AfterResult(doc, i, j, scan);
  }

  lemma NextStep(src: Source, doc: Sarif.Document, t: Tables, s: Store, at: Instant, ids: nat -> string,
                 clock: nat -> Instant, n: nat, r: Effect)
    requires Steps(src, doc, t, s, at, ids, clock, n) == r && InDocument(doc, r.pc)
    ensures Steps(src, doc, t, s, at, ids, clock, n + 1)
            == Transact(src, doc, r.tables, s, Handler(r.pc, at), ids(n), clock(n))
  {
  }

  /** The results of one run. */
  method StoreResults(store: RecordStore, src: Source, doc: Sarif.Document, i: nat, scan: string, at: Instant,
                      ids: nat -> string, clock: nat -> Instant, ghost t: Tables, s: Store, first: nat)
    returns (pc: Pc, n: nat)
    requires i < |doc.runs| && UniqueIds(store.View())
    requires Steps(src, doc, t, s, at, ids, clock, first) == Effect(store.View(), AfterScan(doc, i, scan))
    modifies store
    ensures UniqueIds(store.View())
    ensures Effect(store.View(), pc) == Steps(src, doc, t, s, at, ids, clock, n)
    ensures pc.Stopped? || pc == AfterRun(doc, i)
  {
    n := first;
    pc := AfterScan(doc, i, scan);
    for j := 0 to |doc.runs[i].results|
      invariant UniqueIds(store.View())
      invariant Steps(src, doc, t, s, at, ids, clock, n) == Effect(store.View(), pc)
      invariant pc == if j < |doc.runs[i].results| then Observing(i, j, scan) else AfterRun(doc, i)
    {
      NextStep(src, doc, t, s, at, ids, clock, n, Effect(store.View(), pc));
      pc := StoreObservation(store, src, doc, i, j, scan, ids(n), at);
      n := n + 1;
      if pc.Stopped? {
        return;
      }
      NextStep(src, doc, t, s, at, ids, clock, n, Effect(store.View(), pc));
      pc := StoreNormalization(store, src, doc, i, j, scan, pc.stored, at, clock(n));
      n := n + 1;
      if pc.Stopped? {
        return;
      }
      NextStep(src, doc, t, s, at, ids, clock, n, Effect(store.View(), pc));
      pc := StoreOutcome(store, src, doc, i, j, scan, pc.observation, pc.normalizedAt, clock(n));
      n := n + 1;
      if pc.Stopped? {
        return;
      }
    }
  }

  /** The whole recording part of the handler: it stops at the first refusal or is ready to complete. */
  method StoreDocument(store: RecordStore, src: Source, doc: Sarif.Document, s: Store, at: Instant, ids: nat -> string,
                       clock: nat -> Instant) returns (pc: Pc, n: nat)
    requires UniqueIds(store.View())
    modifies store
    ensures UniqueIds(store.View())
    ensures Effect(store.View(), pc) == Steps(src, doc, old(store.View()), s, at, ids, clock, n)
    ensures pc.Stopped? || pc.Completing?
  {
    ghost var t := store.View();
    var scan: string;
    NextStep(src, doc, t, s, at, ids, clock, 0, Effect(t, Parsing));
    var r := store.AddParseOutput(MapParseOutput(src, doc, at));
    n := 1;
    if r.Err? {
      return Stopped(r.error), n;
    }
    pc := if doc.runs == [] then Completing else Scanning(0);
    for i := 0 to |doc.runs|
      invariant UniqueIds(store.View())
      invariant Steps(src, doc, t, s, at, ids, clock, n) == Effect(store.View(), pc)
      invariant pc == if i < |doc.runs| then Scanning(i) else Completing
    {
      NextStep(src, doc, t, s, at, ids, clock, n, Effect(store.View(), pc));
      pc, scan := StoreScan(store, src, doc, s, i, ids(n), at);
      n := n + 1;
      if pc.Stopped? {
        return;
      }
      pc, n := StoreResults(store, src, doc, i, scan, at, ids, clock, t, s, n);
      if pc.Stopped? {
        return;
      }
    }
  }

  // ---------------------------------------------------------------------
  // The loops are a run
  // ---------------------------------------------------------------------

  /** One execution alone: it starts and performs n transactions. */
  function Alone(start: Instant, arrival: Instant, ids: nat -> string, clock: nat -> Instant, n: nat): (es: seq<Event>)
    ensures |es| == n + 1
  {
    if n == 0 then [Arrive(0, start, arrival)]
    else Alone(start, arrival, ids, clock, n - 1) + [Step(0, ids(n - 1), clock(n - 1))]
  }

  /** Nothing but the transactions of one execution. */
  predicate OneHandler(es: seq<Event>, start: Instant, arrival: Instant) {
    && es != [] && es[0] == Arrive(0, start, arrival)
    && (forall k :: 0 < k < |es| ==> es[k].Step? && es[k].h == 0)
  }

  lemma {:induction false} AloneIsOneHandler(start: Instant, arrival: Instant, ids: nat -> string,
                                             clock: nat -> Instant, n: nat)
    ensures OneHandler(Alone(start, arrival, ids, clock, n), start, arrival)
  {
    if n > 0 {
      AloneIsOneHandler(start, arrival, ids, clock, n - 1);
    }
  }

  ghost function OneExecution(s: Store, r: Effect, at: Instant): World {
    World(r.tables, s, map[0 := Handler(r.pc, at)])
  }

  ghost function StepOf(task: Task, s: Store, r: Effect, at: Instant, id: string, clock: Instant): Effect {
    if InDocument(task.doc, r.pc) then Transact(task.src, task.doc, r.tables, s, Handler(r.pc, at), id, clock) else r
  }

  lemma NextAlone(task: Task, s: Store, r: Effect, at: Instant, id: string, clock: Instant)
    requires !r.pc.Completing? && ValidOpaqueId(id)
    ensures Next(task, OneExecution(s, r, at), Step(0, id, clock))
            == OneExecution(s, StepOf(task, s, r, at, id, clock), at)
  {
    var w := OneExecution(s, r, at);
    var v := StepOf(task, s, r, at, id, clock);
    assert w.handlers[0 := Handler(v.pc, at)] == map[0 := Handler(v.pc, at)];
  }

  lemma FinishedAlone(task: Task, s: Store, r: Effect, at: Instant, clock: Instant)
    ensures var c := CompleteProcessingStep(s, task.id, |task.doc.runs|, FinishAt(task.src, clock));
            Finished(task, OneExecution(s, r, at), 0, clock)
            == OneExecution(c.0, Effect(r.tables, Completed(c.1, FinishAt(task.src, clock))), at)
  {
    var v := Finished(task, OneExecution(s, r, at), 0, clock);
    assert v.handlers == map[0 := v.handlers[0]];
  }

  lemma NextEnds(task: Task, s: Store, r: Effect, at: Instant, id: string, clock: Instant)
    requires r.pc.Completing? && ValidOpaqueId(id)
    ensures var c := CompleteProcessingStep(s, task.id, |task.doc.runs|, FinishAt(task.src, clock));
            Next(task, OneExecution(s, r, at), Step(0, id, clock))
            == OneExecution(c.0, Effect(r.tables, Completed(c.1, FinishAt(task.src, clock))), at)
  {
    CompletingStep(task, OneExecution(s, r, at), 0, id, clock);
    FinishedAlone(task, s, r, at, clock);
  }

  lemma RunLast(task: Task, t: Tables, s: Store, es: seq<Event>, e: Event)
    ensures Run(task, t, s, es + [e]) == Next(task, Run(task, t, s, es), e)
  {
    assert (es + [e])[..|es + [e]| - 1] == es;
  }

  lemma StepsLast(task: Task, t: Tables, s: Store, at: Instant, ids: nat -> string, clock: nat -> Instant, n: nat)
    ensures Steps(task.src, task.doc, t, s, at, ids, clock, n + 1)
            == StepOf(task, s, Steps(task.src, task.doc, t, s, at, ids, clock, n), at, ids(n), clock(n))
  {
  }

  lemma AloneStarts(task: Task, t: Tables, s0: Store, start: Instant, arrival: Instant)
    ensures var r := BeginProcessingStep(s0, task.id, StartAt(start));
            Run(task, t, s0, [Arrive(0, start, arrival)])
            == OneExecution(r.0, Effect(t, Started(r.1, StartAt(start))), Timestamp(arrival, task.src.receivedAt))
  {
    RunLast(task, t, s0, [], Arrive(0, start, arrival));
    assert [] + [Arrive(0, start, arrival)] == [Arrive(0, start, arrival)];
  }

  lemma AloneGoesOn(task: Task, t: Tables, s0: Store, s: Store, es: seq<Event>, r: Effect, at: Instant, id: string,
                    clock: Instant)
    requires ValidOpaqueId(id) && !r.pc.Completing? && Run(task, t, s0, es) == OneExecution(s, r, at)
    ensures Run(task, t, s0, es + [Step(0, id, clock)]) == OneExecution(s, StepOf(task, s, r, at, id, clock), at)
  {
    RunLast(task, t, s0, es, Step(0, id, clock));
    NextAlone(task, s, r, at, id, clock);
  }

  lemma AloneEnds(task: Task, t: Tables, s0: Store, s: Store, es: seq<Event>, r: Effect, at: Instant, id: string,
                  clock: Instant)
    requires ValidOpaqueId(id) && r.pc.Completing? && Run(task, t, s0, es) == OneExecution(s, r, at)
    ensures var c := CompleteProcessingStep(s, task.id, |task.doc.runs|, FinishAt(task.src, clock));
            Run(task, t, s0, es + [Step(0, id, clock)])
            == OneExecution(c.0, Effect(r.tables, Completed(c.1, FinishAt(task.src, clock))), at)
  {
    RunLast(task, t, s0, es, Step(0, id, clock));
    NextEnds(task, s, r, at, id, clock);
  }

  ghost predicate IdsOk(ids: nat -> string) {
    forall k :: ValidOpaqueId(ids(k))
  }

  /** What n steps of the loops do is what m transactions of a lone execution do; m is n unless the loops ended. */
  ghost predicate IsAlone(task: Task, t: Tables, s0: Store, s: Store, start: Instant, arrival: Instant,
                          ids: nat -> string, clock: nat -> Instant, n: nat, m: nat)
  {
    var at := Timestamp(arrival, task.src.receivedAt);
    var r := Steps(task.src, task.doc, t, s, at, ids, clock, n);
    Run(task, t, s0, Alone(start, arrival, ids, clock, m)) == OneExecution(s, r, at) && (m == n || r.pc.Completing?)
  }

  lemma CompletingStays(task: Task, t: Tables, s: Store, at: Instant, ids: nat -> string, clock: nat -> Instant, n: nat)
    requires Steps(task.src, task.doc, t, s, at, ids, clock, n).pc.Completing?
    ensures Steps(task.src, task.doc, t, s, at, ids, clock, n + 1) == Steps(task.src, task.doc, t, s, at, ids, clock, n)
  {
  }

  lemma StillAlone(task: Task, t: Tables, s0: Store, s: Store, start: Instant, arrival: Instant, ids: nat -> string,
                   clock: nat -> Instant, n: nat, m: nat)
    requires IsAlone(task, t, s0, s, start, arrival, ids, clock, n, m)
    requires Steps(task.src, task.doc, t, s, Timestamp(arrival, task.src.receivedAt), ids, clock, n).pc.Completing?
    ensures IsAlone(task, t, s0, s, start, arrival, ids, clock, n + 1, m)
  {
    CompletingStays(task, t, s, Timestamp(arrival, task.src.receivedAt), ids, clock, n);
  }

  ghost function LoopState(task: Task, t: Tables, s: Store, arrival: Instant, ids: nat -> string,
                           clock: nat -> Instant, n: nat): Effect
  {
    Steps(task.src, task.doc, t, s, Timestamp(arrival, task.src.receivedAt), ids, clock, n)
  }

  lemma StepsGoOn(task: Task, t: Tables, s0: Store, s: Store, start: Instant, arrival: Instant, ids: nat -> string,
                  clock: nat -> Instant, n: nat)
    requires ValidOpaqueId(ids(n)) && IsAlone(task, t, s0, s, start, arrival, ids, clock, n, n)
    requires !LoopState(task, t, s, arrival, ids, clock, n).pc.Completing?
    ensures IsAlone(task, t, s0, s, start, arrival, ids, clock, n + 1, n + 1)
  {
    var r := LoopState(task, t, s, arrival, ids, clock, n);
    StepsLast(task, t, s, Timestamp(arrival, task.src.receivedAt), ids, clock, n);
    AloneGoesOn(task, t, s0, s, Alone(start, arrival, ids, clock, n), r, Timestamp(arrival, task.src.receivedAt),
                ids(n), clock(n));
  }

  lemma AloneExactly(task: Task, t: Tables, s0: Store, s: Store, start: Instant, arrival: Instant, ids: nat -> string,
                     clock: nat -> Instant, n: nat, m: nat)
    requires IsAlone(task, t, s0, s, start, arrival, ids, clock, n, m)
    ensures m == n || LoopState(task, t, s, arrival, ids, clock, n).pc.Completing?
  {
  }

  lemma OneMoreStep(task: Task, t: Tables, s0: Store, s: Store, start: Instant, arrival: Instant, ids: nat -> string,
                    clock: nat -> Instant, n: nat, m: nat)
    requires ValidOpaqueId(ids(n)) && IsAlone(task, t, s0, s, start, arrival, ids, clock, n, m)
    ensures || IsAlone(task, t, s0, s, start, arrival, ids, clock, n + 1, m)
            || IsAlone(task, t, s0, s, start, arrival, ids, clock, n + 1, n + 1)
  {
    AloneExactly(task, t, s0, s, start, arrival, ids, clock, n, m);
    if LoopState(task, t, s, arrival, ids, clock, n).pc.Completing? {
      StillAlone(task, t, s0, s, start, arrival, ids, clock, n, m);
    } else {
      StepsGoOn(task, t, s0, s, start, arrival, ids, clock, n);
    }
  }

  /** What one more step keeps in some way, any number of steps does. */
  lemma {:induction false} AnyNumber(holds: (nat, nat) -> bool, n: nat) returns (m: nat)
    requires holds(0, 0) && forall k: nat, m: nat :: holds(k, m) ==> holds(k + 1, m) || holds(k + 1, k + 1)
    ensures holds(n, m)
  {
    if n == 0 {
      m := 0;
    } else {
      m := AnyNumber(holds, n - 1);
      m := if holds(n, m) then m else n;
    }
  }

  /** The loops are the run model's single uninterrupted execution, from the start to the completion. */
  lemma LoopsAreARun(task: Task, t: Tables, s0: Store, start: Instant, arrival: Instant, ids: nat -> string,
                     clock: nat -> Instant, n: nat) returns (m: nat)
    requires IdsOk(ids) && Started(BeginProcessingStep(s0, task.id, StartAt(start)).1, StartAt(start)) == Parsing
    ensures IsAlone(task, t, s0, BeginProcessingStep(s0, task.id, StartAt(start)).0, start, arrival, ids, clock, n, m)
  {
    var s := BeginProcessingStep(s0, task.id, StartAt(start)).0;
    AloneStarts(task, t, s0, start, arrival);
    AloneAtFirst(task, t, s0, s, start, arrival, ids, clock);
    m := AloneThroughout(task, t, s0, s, start, arrival, ids, clock, n);
  }

  lemma AloneAtFirst(task: Task, t: Tables, s0: Store, s: Store, start: Instant, arrival: Instant, ids: nat -> string,
                     clock: nat -> Instant)
    requires Run(task, t, s0, [Arrive(0, start, arrival)])
             == OneExecution(s, Effect(t, Parsing), Timestamp(arrival, task.src.receivedAt))
    ensures IsAlone(task, t, s0, s, start, arrival, ids, clock, 0, 0)
  {
  }

  lemma AloneThroughout(task: Task, t: Tables, s0: Store, s: Store, start: Instant, arrival: Instant,
                        ids: nat -> string, clock: nat -> Instant, n: nat) returns (m: nat)
    requires IdsOk(ids) && IsAlone(task, t, s0, s, start, arrival, ids, clock, 0, 0)
    ensures IsAlone(task, t, s0, s, start, arrival, ids, clock, n, m)
  {
    var holds := (k: nat, m: nat) => IsAlone(task, t, s0, s, start, arrival, ids, clock, k, m);
    forall k: nat, m: nat | holds(k, m) ensures holds(k + 1, m) || holds(k + 1, k + 1) {
      OneMoreStep(task, t, s0, s, start, arrival, ids, clock, k, m);
    }
    m := AnyNumber(holds, n);
  }

  /** What the loops leave after a start is a run of one execution. */
  lemma LoopsAlone(task: Task, t: Tables, s0: Store, start: Instant, arrival: Instant, ids: nat -> string,
                   clock: nat -> Instant, n: nat, r: Effect) returns (es: seq<Event>)
    requires IdsOk(ids) && Started(BeginProcessingStep(s0, task.id, StartAt(start)).1, StartAt(start)) == Parsing
    requires r == Steps(task.src, task.doc, t, BeginProcessingStep(s0, task.id, StartAt(start)).0,
                        Timestamp(arrival, task.src.receivedAt), ids, clock, n)
    ensures OneHandler(es, start, arrival)
    ensures Run(task, t, s0, es) == OneExecution(BeginProcessingStep(s0, task.id, StartAt(start)).0, r,
                                                 Timestamp(arrival, task.src.receivedAt))
  {
    var m := LoopsAreARun(task, t, s0, start, arrival, ids, clock, n);
    es := Alone(start, arrival, ids, clock, m);
    AloneIsOneHandler(start, arrival, ids, clock, m);
  }

  /** Publishing success after the loops. */
  method Publish(db: IngestionTables.Database, task: Task, ghost t: Tables, ghost s0: Store, ghost r: Effect,
                 ghost at: Instant, ghost es: seq<Event>, ghost id: string, finish: Instant) returns (pc: Pc)
    requires ValidOpaqueId(id) && r.pc.Completing? && Run(task, t, s0, es) == OneExecution(db.View(), r, at)
    modifies db
    ensures Run(task, t, s0, es + [Step(0, id, finish)]) == OneExecution(db.View(), Effect(r.tables, pc), at)
    ensures pc.Published? || pc.Delayed? || pc.Denied?
  {
    AloneEnds(task, t, s0, db.View(), es, r, at, id, finish);
    var c := db.CompleteProcessing(task.id, |task.doc.runs|, FinishAt(task.src, finish));
    pc := Completed(c, FinishAt(task.src, finish));
  }

  /** The handler once the operation is started: record, then publish. */
  method RecordAndPublish(db: IngestionTables.Database, store: RecordStore, task: Task, ghost s0: Store,
                          ghost start: Instant, arrival: Instant, ids: nat -> string, clock: nat -> Instant,
                          finish: Instant) returns (pc: Pc, ghost es: seq<Event>)
    requires UniqueIds(store.View()) && IdsOk(ids)
    requires Started(BeginProcessingStep(s0, task.id, StartAt(start)).1, StartAt(start)) == Parsing
    requires db.View() == BeginProcessingStep(s0, task.id, StartAt(start)).0
    modifies db, store
    ensures UniqueIds(store.View()) && OneHandler(es, start, arrival)
    ensures Run(task, old(store.View()), s0, es)
            == OneExecution(db.View(), Effect(store.View(), pc), Timestamp(arrival, task.src.receivedAt))
    ensures pc.Stopped? || pc.Published? || pc.Delayed? || pc.Denied?
  {
    ghost var t := store.View();
    var at, n := Timestamp(arrival, task.src.receivedAt), 0;
    pc, n := StoreDocument(store, task.src, task.doc, db.View(), at, ids, clock);
    ghost var r := Effect(store.View(), pc);
    es := LoopsAlone(task, t, s0, start, arrival, ids, clock, n, r);
    if !pc.Stopped? {
      pc := Publish(db, task, t, s0, r, at, es, ids(n), finish);
      es := es + [Step(0, ids(n), finish)];
    }
  }

  /** The start of the handler. */
  method Begin(db: IngestionTables.Database, task: Task, ghost t: Tables, start: Instant, ghost arrival: Instant)
    returns (pc: Pc)
    modifies db
    ensures db.View() == BeginProcessingStep(old(db.View()), task.id, StartAt(start)).0
    ensures pc == Started(BeginProcessingStep(old(db.View()), task.id, StartAt(start)).1, StartAt(start))
    ensures Run(task, t, old(db.View()), [Arrive(0, start, arrival)])
            == OneExecution(db.View(), Effect(t, pc), Timestamp(arrival, task.src.receivedAt))
    ensures pc.Parsing? || pc.Published? || pc.Delayed? || pc.Denied?
  {
    AloneStarts(task, t, db.View(), start, arrival);
    var r := db.BeginProcessing(task.id, StartAt(start));
    pc := Started(r, StartAt(start));
  }

  /** The whole handler over both stores: start, record, publish. What it leaves is a run of one execution. */
  method Process(db: IngestionTables.Database, store: RecordStore, task: Task, start: Instant, arrival: Instant,
                 ids: nat -> string, clock: nat -> Instant, finish: Instant) returns (pc: Pc, ghost es: seq<Event>)
    requires UniqueIds(store.View()) && IdsOk(ids)
    modifies db, store
    ensures UniqueIds(store.View()) && OneHandler(es, start, arrival)
    ensures Run(task, old(store.View()), old(db.View()), es)
            == OneExecution(db.View(), Effect(store.View(), pc), Timestamp(arrival, task.src.receivedAt))
    ensures pc.Stopped? || pc.Published? || pc.Delayed? || pc.Denied?
  {
    ghost var s0 := db.View();
    es := [Arrive(0, start, arrival)];
    pc := Begin(db, task, store.View(), start, arrival);
    if pc.Parsing? {
      pc, es := RecordAndPublish(db, store, task, s0, start, arrival, ids, clock, finish);
    }
  }
}
