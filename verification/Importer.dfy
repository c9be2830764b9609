/**
 The replay-safe import processor. Delivery is at least once: any number of
 handler executions of one import run at once, each a sequence of single store
 transactions, interleaved in any order, with a process clock that may run
 backwards. An execution that crashes, or whose transaction fails, takes no
 further step; its retry is another execution.
 */
module Importer {
  import opened Base
  import opened Text
  import Sarif
  import Finding
  import Correlation
  import opened Scans
  import opened Records
  import opened ImportPlan
  import opened Ingestion
  import Lifecycle

  // ---------------------------------------------------------------------
  // Timestamps
  // ---------------------------------------------------------------------

  /** The process clock, cut to microseconds and raised to the given instant unless that is the zero time. */
  function Timestamp(clock: Instant, notBefore: Instant): Instant {
    var value := clock - clock % 1000;
    if notBefore != 0 && value < notBefore then notBefore - notBefore % 1000 else value
  }

  /** The raised clock is never early exactly when the bound is in whole microseconds, as stored instants are. */
  lemma TimestampNeverEarlyIff(notBefore: Instant)
    requires notBefore != 0
    ensures (forall clock :: Timestamp(clock, notBefore) >= notBefore) <==> WholeMicros(notBefore)
  {
    if !WholeMicros(notBefore) {
      assert Timestamp(notBefore, notBefore) < notBefore;
    }
  }

  /** The whole microsecond at or before the clock, or the bound if that is later. */
  lemma TimestampMeans(clock: Instant, notBefore: Instant, cut: Instant)
    requires cut % 1000 == 0 && cut <= clock < cut + 1000 && notBefore % 1000 == 0
    ensures Timestamp(clock, notBefore) == if notBefore == 0 then cut else Max(cut, notBefore)
  {
  }

  lemma TimestampStorable(clock: Instant, notBefore: Instant)
    requires Storable(notBefore)
    ensures Timestamp(clock, notBefore) >= notBefore && Storable(Timestamp(clock, notBefore))
  {
  }

  // ---------------------------------------------------------------------
  // The handler as a sequence of store transactions
  // ---------------------------------------------------------------------

  datatype Pc =
    | Parsing
    | Scanning(i: nat)
    | Observing(i: nat, j: nat, scan: string)
    | Normalizing(i: nat, j: nat, scan: string, stored: Stored)
    | Correlating(i: nat, j: nat, scan: string, observation: string, normalizedAt: Instant)
    | Completing
    | Published
    // a record store refused
    | Stopped(error: Records.Error)
    // the operation could not be written at this instant; the job is retried
    | Delayed(at: Time)
    // the operation is terminal with another result, or the clock read the zero time
    | Denied(at: Time)

  datatype Handler = Handler(pc: Pc, recordedAt: Instant)

  /** The record tables, the import tables, and the executions begun so far. */
  datatype World = World(tables: Tables, store: Store, handlers: map<nat, Handler>)

  /**
   An execution begins, reading the clock before and after it parses; it
   performs its next transaction; any other lifecycle transaction happens; or
   other imports add rows.
   */
  datatype Event =
    | Arrive(h: nat, clock: Instant, later: Instant)
    | Step(h: nat, candidate: string, clock: Instant)
    | Elsewhere(command: Lifecycle.Command)
    | Others(tables: Tables)

  /** What is processed: the evidence, its parsed document, and the job's identity. */
  datatype Task = Task(src: Source, doc: Sarif.Document, id: Identity)

  function AfterRun(doc: Sarif.Document, i: nat): Pc {
    if i + 1 < |doc.runs| then Scanning(i + 1) else Completing
  }

  function AfterScan(doc: Sarif.Document, i: nat, scan: string): Pc
    requires i < |doc.runs|
  {
    if doc.runs[i].results == [] then AfterRun(doc, i) else Observing(i, 0, scan)
  }

  function AfterResult(doc: Sarif.Document, i: nat, j: nat, scan: string): Pc
    requires i < |doc.runs|
  {
    if j + 1 < |doc.runs[i].results| then Observing(i, j + 1, scan) else AfterRun(doc, i)
  }

  predicate InDocument(doc: Sarif.Document, pc: Pc) {
    match pc
    case Scanning(i) => i < |doc.runs|
    case Observing(i, j, _) => i < |doc.runs| && j < |doc.runs[i].results|
    case Normalizing(i, j, _, _) => i < |doc.runs| && j < |doc.runs[i].results|
    case Correlating(i, j, _, _, _) => i < |doc.runs| && j < |doc.runs[i].results|
    case _ => true
  }

  datatype Effect = Effect(tables: Tables, pc: Pc)

  function ParseStep(src: Source, doc: Sarif.Document, t: Tables, at: Instant): Effect {
    var o := RecordParseOutput(t, MapParseOutput(src, doc, at));
    Effect(o.tables, if o.result.Err? then Stopped(o.result.error)
                     else if doc.runs == [] then Completing else Scanning(0))
  }

  function ScanStep(src: Source, doc: Sarif.Document, t: Tables, s: Store, i: nat, id: string, at: Instant): Effect
    requires i < |doc.runs|
  {
    var o := RecordScan(t, s, MapScan(src, doc.runs[i], id, at));
    Effect(o.tables, if o.result.Err? then Stopped(o.result.error) else AfterScan(doc, i, o.result.value.id))
  }

  ghost function ObservationStep(src: Source, doc: Sarif.Document, t: Tables, i: nat, j: nat, scan: string,
                                 id: string, at: Instant): Effect
    requires i < |doc.runs| && j < |doc.runs[i].results|
  {
    var o := RecordObservation(t, MapObservation(src, scan, doc.runs[i].results[j], id, at));
    Effect(o.tables, if o.result.Err? then Stopped(o.result.error) else Normalizing(i, j, scan, o.result.value))
  }

  ghost function NormalizationStep(src: Source, doc: Sarif.Document, t: Tables, i: nat, j: nat, scan: string,
                                   stored: Stored, at: Instant, clock: Instant): Effect
    requires i < |doc.runs| && j < |doc.runs[i].results|
  {
    var observation := MapObservation(src, scan, doc.runs[i].results[j], stored.id, at);
    var n := Normalize(observation, Timestamp(clock, stored.at));
    if n.None? then Effect(t, Stopped(Records.Invalid))
    else
      var o := RecordNormalization(t, n.value);
      Effect(o.tables, if o.result.Err? then Stopped(o.result.error)
                       else Correlating(i, j, scan, stored.id, o.result.value.at))
  }

  ghost function OutcomeStep(src: Source, doc: Sarif.Document, t: Tables, i: nat, j: nat, scan: string,
                             observation: string, normalizedAt: Instant, clock: Instant): Effect
    requires i < |doc.runs|
  {
    var d := DispatchOf(src, observation, Timestamp(clock, normalizedAt));
    if Correlation.DispatchRefused(d) then Effect(t, Stopped(Records.Invalid))
    else
      var o := RecordUncorrelated(t, Correlation.DispatchOutcome(d));
      Effect(o.tables, if o.result.Err? then Stopped(o.result.error) else AfterResult(doc, i, j, scan))
  }

  /** The next record transaction of an execution. */
  ghost function Transact(src: Source, doc: Sarif.Document, t: Tables, s: Store, h: Handler, id: string,
                          clock: Instant): Effect
    requires InDocument(doc, h.pc)
  {
    match h.pc
    case Parsing => ParseStep(src, doc, t, h.recordedAt)
    case Scanning(i) => ScanStep(src, doc, t, s, i, id, h.recordedAt)
    case Observing(i, j, scan) => ObservationStep(src, doc, t, i, j, scan, id, h.recordedAt)
    case Normalizing(i, j, scan, stored) => NormalizationStep(src, doc, t, i, j, scan, stored, h.recordedAt, clock)
    case Correlating(i, j, scan, observation, normalizedAt) =>
      OutcomeStep(src, doc, t, i, j, scan, observation, normalizedAt, clock)
    case _ => Effect(t, h.pc)
  }

  function Micros(t: Instant): Time { t / 1000 }

  /** The instant an execution writes as the start: the clock as it is. */
  function StartAt(clock: Instant): Time { Micros(Timestamp(clock, 0)) }

  /** The instant an execution writes as the completion: the clock raised to the evidence, not to the start. */
  function FinishAt(src: Source, clock: Instant): Time { Micros(Timestamp(clock, src.receivedAt)) }

  /** The start is the clock in whole microseconds, the completion the later of that and the evidence. */
  lemma InstantsMean(src: Source, clock: Instant)
    requires Storable(src.receivedAt)
    ensures 1000 * StartAt(clock) <= clock < 1000 * StartAt(clock) + 1000
    ensures 1000 * FinishAt(src, clock) == Max(1000 * StartAt(clock), src.receivedAt)
  {
    TimestampMeans(clock, 0, clock - clock % 1000);
    TimestampMeans(clock, src.receivedAt, clock - clock % 1000);
  }

  /** Where an execution goes after starting the operation at the given instant. */
  function Started(r: Result<ProcessingSource, Ingestion.Error>, at: Time): Pc {
    match r
    case Ok(source) =>
      (match source.state case OpRunning => Parsing case OpSucceeded => Published case _ => Denied(at))
    case Err(error) => if error == Ingestion.Backend then Delayed(at) else Denied(at)
  }

  /** Where an execution goes after publishing success at the given instant. */
  function Completed(r: Result<(), Ingestion.Error>, at: Time): Pc {
    match r
    case Ok(_) => Published
    case Err(error) => if error == Ingestion.Backend then Delayed(at) else Denied(at)
  }

  /** Success of this operation is published by executions alone. */
  predicate AllowedElsewhere(id: Identity, command: Lifecycle.Command) {
    command.CompleteProcessing? ==> OperationKey(command.id) != OperationKey(id)
  }

  function Arrived(task: Task, w: World, h: nat, clock: Instant, later: Instant): World {
    var r := BeginProcessingStep(w.store, task.id, StartAt(clock));
    var handler := Handler(Started(r.1, StartAt(clock)), Timestamp(later, task.src.receivedAt));
    w.(store := r.0, handlers := w.handlers[h := handler])
  }

  function Finished(task: Task, w: World, h: nat, clock: Instant): World
    requires h in w.handlers
  {
    var at := FinishAt(task.src, clock);
    var r := CompleteProcessingStep(w.store, task.id, |task.doc.runs|, at);
    w.(store := r.0, handlers := w.handlers[h := w.handlers[h].(pc := Completed(r.1, at))])
  }

  ghost function Next(task: Task, w: World, e: Event): World {
    match e
    case Arrive(h, clock, later) => if h in w.handlers then w else Arrived(task, w, h, clock, later)
    case Step(h, candidate, clock) =>
      if h !in w.handlers || !InDocument(task.doc, w.handlers[h].pc) || !ValidOpaqueId(candidate) then w
      else if w.handlers[h].pc.Completing? then Finished(task, w, h, clock)
      else
        var r := Transact(task.src, task.doc, w.tables, w.store, w.handlers[h], candidate, clock);
        w.(tables := r.tables, handlers := w.handlers[h := w.handlers[h].(pc := r.pc)])
    case Elsewhere(command) =>
      if AllowedElsewhere(task.id, command) then w.(store := Lifecycle.Next(w.store, command)) else w
    case Others(tables) => if Foreign(PlanOf(task.src, task.doc), w.tables, tables) then w.(tables := tables) else w
  }

  lemma CompletingStep(task: Task, w: World, h: nat, id: string, clock: Instant)
    requires h in w.handlers && w.handlers[h].pc.Completing? && ValidOpaqueId(id)
    ensures Next(task, w, Step(h, id, clock)) == Finished(task, w, h, clock)
  {
  }

  ghost function Run(task: Task, t0: Tables, s0: Store, es: seq<Event>): World {
    if es == [] then World(t0, s0, map[]) else Next(task, Run(task, t0, s0, es[..|es| - 1]), es[|es| - 1])
  }

  // ---------------------------------------------------------------------
  // The records a document stands for
  // ---------------------------------------------------------------------

  predicate SourceOk(src: Source) {
    && ValidOpaqueId(src.workspace) && ValidOpaqueId(src.import_) && ValidOpaqueId(src.application)
    && ValidOpaqueId(src.rawArtifact) && Storable(src.receivedAt)
  }

  ghost predicate ParseFits(src: Source, doc: Sarif.Document) {
    forall at :: at != 0 ==> ValidParseOutput(MapParseOutput(src, doc, at))
  }

  /**
   The parser output of a document passes validation exactly when, of each of
   the first thousand objects with unmapped members, the 64 least names are
   recordable.
   */
  lemma ParseFitsIff(src: Source, doc: Sarif.Document, limits: Sarif.Limits, notes: seq<Sarif.Note>)
    requires SourceOk(src) && DefaultWarnings(limits)
    requires Sarif.Shown(notes, limits, doc.warnings, doc.warningsTruncated)
    ensures ParseFits(src, doc) <==> forall k :: 0 <= k < |notes| && k < 1000 ==> Recordable(notes[k])
  {
    forall at | at != 0
      ensures ValidParseOutput(MapParseOutput(src, doc, at))
              <==> forall k :: 0 <= k < |notes| && k < 1000 ==> Recordable(notes[k])
    {
      ParseOutputRecordableIff(src, doc, limits, notes, at);
    }
    assert ParseFits(src, doc) ==> ValidParseOutput(MapParseOutput(src, doc, 1));
  }

  ghost predicate ScanFits(src: Source, run: Sarif.Run) {
    forall id, at :: ValidOpaqueId(id) && at != 0 ==> ValidScan(MapScan(src, run, id, at))
  }

  ghost predicate ResultFits(src: Source, result: Sarif.SourceResult) {
    && Sarif.ResultAccepted(result)
    && (forall scan, id, at :: ValidOpaqueId(scan) && ValidOpaqueId(id) && at != 0 ==>
          Finding.ValidObservation(MapObservation(src, scan, result, id, at)))
  }

  /** A parsed document whose records pass validation under any well-formed generated ids. */
  ghost predicate DocumentOk(src: Source, doc: Sarif.Document) {
    && ParseFits(src, doc)
    && (forall i :: 0 <= i < |doc.runs| ==> doc.runs[i].index == i && ScanFits(src, doc.runs[i]))
    && (forall i, j :: 0 <= i < |doc.runs| && 0 <= j < |doc.runs[i].results| ==>
          doc.runs[i].results[j].index == j && ResultFits(src, doc.runs[i].results[j]))
  }

  function ScanContentOf(src: Source, run: Sarif.Run): ScanContent {
    ScanContent(ScanRecord(MapScan(src, run, "", 0)), ScopeRecord(MapScan(src, run, "", 0)))
  }

  ghost function ObservationContent(src: Source, result: Sarif.SourceResult, scan: string)
    : Finding.CanonicalObservation
  {
    Finding.CanonicalOf(MapObservation(src, scan, result, "", 0))
  }

  function NormalizationContent(src: Source, result: Sarif.SourceResult, observation: string)
    : Finding.CanonicalNormalization
  {
    Finding.NormalizationRecord(Normalize(MapObservation(src, "", result, observation, 0), 0).value)
  }

  ghost function OutcomeContent(src: Source, observation: string): Correlation.CanonicalOutcome {
    Correlation.OutcomeRecord(Correlation.DispatchOutcome(DispatchOf(src, observation, 0)))
  }

  function RunAt(doc: Sarif.Document, i: nat): Sarif.Run {
    if i < |doc.runs| then doc.runs[i] else Sarif.Run(i, "", Sarif.Tool("", "", "", ""), None, [], [])
  }

  function ResultAt(doc: Sarif.Document, i: nat, j: nat): Sarif.SourceResult {
    if j < |RunAt(doc, i).results| then RunAt(doc, i).results[j]
    else Sarif.SourceResult(j, "", "", "", "", None, "", "", "", Sarif.Message("", "", "", []), [], [], [])
  }

  ghost function PlanOf(src: Source, doc: Sarif.Document): Plan {
    Plan(src.workspace, src.import_, Sarif.FORMAT, Sarif.PARSER_VERSION, NORMALIZER_NAME, NORMALIZER_VERSION,
         Correlation.DISPATCH_ALGORITHM,
         if src.hasContext then Correlation.DISPATCH_MAPPED_VERSION else Correlation.DISPATCH_VERSION,
         src.receivedAt,
         seq(|doc.runs|, i requires 0 <= i < |doc.runs| => |doc.runs[i].results|),
         MapParseOutput(src, doc, 0),
         (i: nat) => ScanContentOf(src, RunAt(doc, i)),
         (i: nat, j: nat, scan: string) => ObservationContent(src, ResultAt(doc, i, j), scan),
         (i: nat, j: nat, observation: string) => NormalizationContent(src, ResultAt(doc, i, j), observation),
         (observation: string) => OutcomeContent(src, observation),
         (id: string) => ValidOpaqueId(id))
  }

  lemma PlanOfOk(src: Source, doc: Sarif.Document)
    ensures PlanOk(PlanOf(src, doc))
  {
  }

  // ---------------------------------------------------------------------
  // Each transaction is a stage of the plan
  // ---------------------------------------------------------------------

  lemma ParseIsPut(src: Source, doc: Sarif.Document, t: Tables, at: Instant)
    requires ParseFits(src, doc) && at != 0
    ensures RecordParseOutput(t, MapParseOutput(src, doc, at))
            == if ParseKey(src.workspace, src.import_) !in t.parses && !WarningsInRange(doc.warnings)
               then Outcome(t, Err(Records.Backend)) else PutParse(PlanOf(src, doc), t, at)
  {
    var spec := MapParseOutput(src, doc, at);
    assert ValidParseOutput(spec);
    var key := ParseKey(src.workspace, src.import_);
    if key in t.parses {
      assert t.parses[key].(recordedAt := at) == spec <==> t.parses[key].(recordedAt := 0) == spec.(recordedAt := 0);
    }
  }

  /** The committed evidence is the one processed. */
  predicate EvidenceHeld(src: Source, s: Store) {
    var k := Key(src.workspace, src.import_);
    && k in s.imports && s.imports[k].terms.application == src.application
    && k in s.artifacts && s.artifacts[k].id == src.rawArtifact && s.artifacts[k].state == Committed
    && s.artifacts[k].evidence.Some? && src.receivedAt == 1000 * s.artifacts[k].evidence.value.committedAt
  }

  /** Recording a scan against known evidence. */
  lemma ScanRecorded(p: Plan, t: Tables, s: Store, i: nat, spec: ScanSpec)
    requires ValidScan(spec) && EvidenceAt(s, spec) == Some(p.receivedAt) && spec.recordedAt >= p.receivedAt
    requires ScanKeyOf(spec) == ScanSlot(p, i) && spec.workspace == p.workspace
    requires ScanRecord(spec) == p.scan(i).record && ScopeRecord(spec) == p.scan(i).scope
    requires ScopeFits(spec.scope) && |spec.parserName| <= 64
    ensures var o, q := RecordScan(t, s, spec), PutScan(p, t, i, spec.id, spec.recordedAt);
            if !InRange(spec.runIndex) then o == Outcome(t, Err(Records.Backend))
            else
              && o.tables == q.tables && o.result.Err? == q.result.Err?
              && (o.result.Err? ==> o.result.error == q.result.error)
              && (o.result.Ok? ==> o.result.value.id == q.result.value)
  {
  }

  lemma ScanIsPut(src: Source, doc: Sarif.Document, t: Tables, s: Store, i: nat, id: string, at: Instant)
    requires i < |doc.runs| && doc.runs[i].index == i && ScanFits(src, doc.runs[i]) && EvidenceHeld(src, s)
    requires ValidOpaqueId(id) && at >= src.receivedAt && at != 0
    ensures var o := RecordScan(t, s, MapScan(src, doc.runs[i], id, at));
            var q := PutScan(PlanOf(src, doc), t, i, id, at);
            if !InRange(i) then o == Outcome(t, Err(Records.Backend))
            else
              && o.tables == q.tables && o.result.Err? == q.result.Err?
              && (o.result.Err? ==> o.result.error == q.result.error)
              && (o.result.Ok? ==> o.result.value.id == q.result.value)
  {
    assert ValidScan(MapScan(src, doc.runs[i], id, at));
    ScanRecorded(PlanOf(src, doc), t, s, i, MapScan(src, doc.runs[i], id, at));
  }

  /** The stored scan an observation names is the one it was mapped for. */
  lemma NamedScanIsOurs(p: Plan, t: Tables, i: nat, scan: string, spec: Finding.ObservationSpec, k: ScanKey)
    requires UniqueIds(t) && HasScan(p, t, i, scan) && spec.workspace == p.workspace && spec.scan == scan
    requires k in t.scans && NamesScan(t.scans[k], spec)
    ensures k == ScanSlot(p, i)
  {
  }

  /** A number of the statement fits no column: of its own row, or of a location row that is to be inserted. */
  predicate OutOfRange(t: Tables, spec: Finding.ObservationSpec) {
    || !Finding.HeadInRange(spec.resultIndex, spec.facts)
    || (ObservationKeyOf(spec) !in t.observations && !Finding.LocationsInRange(spec.locations))
  }

  /** Recording an observation, once the scan it names is known. */
  lemma ObservationRecorded(p: Plan, t: Tables, i: nat, j: nat, scan: string, spec: Finding.ObservationSpec)
    requires UniqueIds(t) && HasScan(p, t, i, scan) && Finding.ValidObservation(spec)
    requires NamesScan(t.scans[ScanSlot(p, i)], spec) && spec.workspace == p.workspace
    requires t.scans[ScanSlot(p, i)].receivedAt == p.receivedAt <= spec.recordedAt
    requires ObservationKeyOf(spec) == ObservationSlot(p, scan, j)
    requires Finding.CanonicalOf(spec) == p.observation(i, j, scan)
    ensures RecordObservation(t, spec)
            == if OutOfRange(t, spec) then Outcome(t, Err(Records.Backend))
               else PutObservation(p, t, i, j, scan, spec.id, spec.recordedAt)
  {
    assert exists k :: k in t.scans && NamesScan(t.scans[k], spec);
    forall k | k in t.scans && NamesScan(t.scans[k], spec) ensures k == ScanSlot(p, i) {
      NamedScanIsOurs(p, t, i, scan, spec, k);
    }
  }

  /** A mapped result is the planned statement of its place. */
  lemma ObservationIsPlanned(src: Source, doc: Sarif.Document, i: nat, j: nat, scan: string, id: string, at: Instant)
    requires InDocument(doc, Observing(i, j, scan)) && doc.runs[i].results[j].index == j
    ensures var spec := MapObservation(src, scan, doc.runs[i].results[j], id, at);
            && ObservationKeyOf(spec) == ObservationSlot(PlanOf(src, doc), scan, j)
            && Finding.CanonicalOf(spec) == PlanOf(src, doc).observation(i, j, scan)
  {
  }

  lemma ObservationIsPut(src: Source, doc: Sarif.Document, t: Tables, i: nat, j: nat, scan: string, id: string,
                         at: Instant)
    requires InDocument(doc, Observing(i, j, scan))
    requires doc.runs[i].results[j].index == j && ResultFits(src, doc.runs[i].results[j])
    requires UniqueIds(t) && HasScan(PlanOf(src, doc), t, i, scan) && ScanOk(PlanOf(src, doc), t, i)
    requires ValidOpaqueId(id) && at >= src.receivedAt && at != 0
    ensures var spec := MapObservation(src, scan, doc.runs[i].results[j], id, at);
            RecordObservation(t, spec) == if OutOfRange(t, spec) then Outcome(t, Err(Records.Backend))
                                          else PutObservation(PlanOf(src, doc), t, i, j, scan, id, at)
  {
    var spec := MapObservation(src, scan, doc.runs[i].results[j], id, at);
    assert Finding.ValidObservation(spec);
    ObservationIsPlanned(src, doc, i, j, scan, id, at);
    ObservationRecorded(PlanOf(src, doc), t, i, j, scan, spec);
  }

  lemma NamedObservationIsOurs(p: Plan, t: Tables, scan: string, j: nat, spec: Finding.NormalizationSpec,
                               k: ObservationKey)
    requires UniqueIds(t) && Owns(p, t, scan, j, spec.observation) && spec.workspace == p.workspace
    requires k in t.observations && NamesObservation(t.observations[k], spec)
    ensures k == ObservationSlot(p, scan, j)
  {
  }

  /** Recording the normalization, once the observation it names is known. */
  lemma NormalizationIsPut(p: Plan, t: Tables, i: nat, j: nat, scan: string, spec: Finding.NormalizationSpec)
    requires UniqueIds(t) && Finding.ValidNormalization(spec) && Owns(p, t, scan, j, spec.observation)
    requires NormalizationKeyOf(spec) == NormalizationSlot(p, spec.observation)
    requires Finding.NormalizationRecord(spec) == p.normalization(i, j, spec.observation)
    requires t.observations[ObservationSlot(p, scan, j)].record.workspace == spec.workspace
    requires spec.normalizedAt >= t.observations[ObservationSlot(p, scan, j)].recordedAt
    ensures var o := RecordNormalization(t, spec);
            var q := PutNormalization(p, t, i, j, spec.observation, spec.normalizedAt);
            if !Finding.NormalizedInRange(spec.location) then o == Outcome(t, Err(Records.Backend))
            else
              && o.tables == q.tables && o.result.Err? == q.result.Err?
              && (o.result.Ok? ==> o.result.value == Stored(spec.observation, q.result.value))
  {
    assert NamesObservation(t.observations[ObservationSlot(p, scan, j)], spec);
    assert exists k :: k in t.observations && NamesObservation(t.observations[k], spec);
    forall k | k in t.observations && NamesObservation(t.observations[k], spec)
      ensures k == ObservationSlot(p, scan, j)
    {
      NamedObservationIsOurs(p, t, scan, j, spec, k);
    }
  }

  lemma NormalizeFits(src: Source, doc: Sarif.Document, i: nat, j: nat, scan: string, observation: string,
                      at: Instant, normalizedAt: Instant)
    requires InDocument(doc, Observing(i, j, scan)) && ResultFits(src, doc.runs[i].results[j])
    requires ValidOpaqueId(scan) && ValidOpaqueId(observation) && at != 0 && normalizedAt != 0
    ensures var n := Normalize(MapObservation(src, scan, doc.runs[i].results[j], observation, at), normalizedAt);
            && n.Some? && Finding.ValidNormalization(n.value) && n.value.observation == observation
            && n.value.normalizedAt == normalizedAt && n.value.workspace == src.workspace
            && NormalizationKeyOf(n.value) == NormalizationSlot(PlanOf(src, doc), observation)
            && Finding.NormalizationRecord(n.value) == PlanOf(src, doc).normalization(i, j, observation)
  {
    var result := doc.runs[i].results[j];
    assert Finding.ValidObservation(MapObservation(src, scan, result, observation, at));
    AcceptedResultNormalizes(src, scan, result, observation, at, observation, normalizedAt);
  }

  /** Recording an outcome, once the normalization it names is known. */
  lemma OutcomeRecorded(p: Plan, t: Tables, spec: Correlation.UncorrelatedSpec)
    requires Correlation.ValidOutcome(spec) && NormalizationSlot(p, spec.observation) in t.normalizations
    requires spec.evaluatedAt >= t.normalizations[NormalizationSlot(p, spec.observation)].normalizedAt
    requires spec.workspace == p.workspace && spec.normalizerName == p.normalizer
    requires spec.normalizerVersion == p.normalizerVersion
    requires spec.algorithm == p.algorithm && spec.algorithmVersion == p.algorithmVersion
    requires Correlation.OutcomeRecord(spec) == p.outcome(spec.observation)
    ensures RecordUncorrelated(t, spec) == PutOutcome(p, t, spec.observation, spec.evaluatedAt)
  {
  }

  lemma OutcomeIsPut(src: Source, doc: Sarif.Document, t: Tables, observation: string, normalizedAt: Instant,
                     at: Instant)
    requires ValidOpaqueId(src.workspace) && ValidOpaqueId(observation) && at >= normalizedAt && at != 0
    requires HasNormalization(PlanOf(src, doc), t, observation, normalizedAt)
    ensures !Correlation.DispatchRefused(DispatchOf(src, observation, at))
    ensures RecordUncorrelated(t, Correlation.DispatchOutcome(DispatchOf(src, observation, at)))
            == PutOutcome(PlanOf(src, doc), t, observation, at)
  {
    AcceptedResultDispatches(src, observation, at);
    OutcomeParts(src, observation, at);
    OutcomeRecorded(PlanOf(src, doc), t, Correlation.DispatchOutcome(DispatchOf(src, observation, at)));
  }

  /** The recorded outcome does not depend on the evaluation time. */
  lemma OutcomeParts(src: Source, observation: string, at: Instant)
    ensures var spec := Correlation.DispatchOutcome(DispatchOf(src, observation, at));
            && Correlation.OutcomeRecord(spec) == OutcomeContent(src, observation)
            && spec.workspace == src.workspace && spec.observation == observation
            && spec.normalizerName == NORMALIZER_NAME && spec.normalizerVersion == NORMALIZER_VERSION
            && spec.evaluatedAt == at && spec.algorithm == Correlation.DISPATCH_ALGORITHM
            && spec.algorithmVersion
               == (if src.hasContext then Correlation.DISPATCH_MAPPED_VERSION else Correlation.DISPATCH_VERSION)
  {
    assert Correlation.Mapped(DispatchOf(src, observation, at)) == src.hasContext;
  }
}
