/** Every record transaction of an execution is a stage of the plan and brings the execution nearer its end. */
module ImportStages {
  import opened Base
  import opened Text
  import Sarif
  import Finding
  import Correlation
  import opened Scans
  import opened Records
  import opened ImportPlan
  import opened Importer
  import Ingestion

  // ---------------------------------------------------------------------
  // Executions
  // ---------------------------------------------------------------------

  ghost predicate PcOk(p: Plan, t: Tables, pc: Pc) {
    match pc
    case Parsing => true
    case Scanning(i) => i < |p.results| && DoneBefore(p, t, i, 0)
    case Observing(i, j, scan) => InPlan(p, i, j) && HasScan(p, t, i, scan) && DoneBefore(p, t, i, j)
    case Normalizing(i, j, scan, stored) =>
      InPlan(p, i, j) && HasScan(p, t, i, scan) && DoneBefore(p, t, i, j) && HasObservation(p, t, scan, j, stored)
    case Correlating(i, j, scan, observation, normalizedAt) =>
      && InPlan(p, i, j) && HasScan(p, t, i, scan) && DoneBefore(p, t, i, j)
      && Owns(p, t, scan, j, observation) && HasNormalization(p, t, observation, normalizedAt)
    case Completing => AllDone(p, t)
    case Published => AllDone(p, t)
    case Stopped(error) => error == Backend
    case _ => true
  }

  ghost predicate HandlerOk(p: Plan, t: Tables, h: Handler) {
    PcOk(p, t, h.pc) && h.recordedAt >= p.receivedAt && Storable(h.recordedAt)
  }

  lemma HandlerGrows(p: Plan, t: Tables, u: Tables, h: Handler)
    requires HandlerOk(p, t, h) && Grows(t, u)
    ensures HandlerOk(p, u, h)
  {
    match h.pc
    case Scanning(i) => DoneBeforeGrows(p, t, u, i, 0);
    case Observing(i, j, _) => DoneBeforeGrows(p, t, u, i, j);
    case Normalizing(i, j, _, _) => DoneBeforeGrows(p, t, u, i, j);
    case Correlating(i, j, _, _, _) => DoneBeforeGrows(p, t, u, i, j);
    case Completing => DoneBeforeGrows(p, t, u, |p.results|, 0);
    case Published => DoneBeforeGrows(p, t, u, |p.results|, 0);
    case _ =>
  }

  lemma GrowsTransitive(t: Tables, u: Tables, v: Tables)
    requires Grows(t, u) && Grows(u, v)
    ensures Grows(t, v)
  {
  }

  // ---------------------------------------------------------------------
  // Where a successful transaction leads
  // ---------------------------------------------------------------------

  lemma AfterRunOk(src: Source, doc: Sarif.Document, t: Tables, i: nat)
    requires i < |doc.runs| && DoneBefore(PlanOf(src, doc), t, i + 1, 0)
    ensures PcOk(PlanOf(src, doc), t, AfterRun(doc, i))
  {
  }

  lemma AfterScanOk(src: Source, doc: Sarif.Document, t: Tables, i: nat, scan: string)
    requires i < |doc.runs| && DoneBefore(PlanOf(src, doc), t, i, 0) && HasScan(PlanOf(src, doc), t, i, scan)
    ensures PcOk(PlanOf(src, doc), t, AfterScan(doc, i, scan))
  {
    if doc.runs[i].results == [] {
      RunDone(PlanOf(src, doc), t, i);
      AfterRunOk(src, doc, t, i);
    }
  }

  lemma AfterResultOk(src: Source, doc: Sarif.Document, t: Tables, i: nat, j: nat, scan: string)
    requires InDocument(doc, Observing(i, j, scan)) && DoneBefore(PlanOf(src, doc), t, i, j)
    requires HasScan(PlanOf(src, doc), t, i, scan) && ResultDone(PlanOf(src, doc), t, i, j)
    ensures PcOk(PlanOf(src, doc), t, AfterResult(doc, i, j, scan))
  {
    var p := PlanOf(src, doc);
    OneMoreDone(p, t, i, j);
    if j + 1 == |doc.runs[i].results| {
      RunDone(p, t, i);
      AfterRunOk(src, doc, t, i);
    }
  }

  // ---------------------------------------------------------------------
  // Every transaction keeps the plan
  // ---------------------------------------------------------------------

  /** A transaction adds planned rows only, and the execution goes on soundly. */
  ghost predicate Sound(p: Plan, t: Tables, r: Effect) {
    TablesOk(p, r.tables) && Grows(t, r.tables) && AddsPlanned(p, t, r.tables) && PcOk(p, r.tables, r.pc)
  }

  /** A refused transaction changes nothing. */
  lemma RefusalSound(p: Plan, t: Tables)
    requires TablesOk(p, t)
    ensures Sound(p, t, Effect(t, Stopped(Backend)))
  {
  }

  lemma ParseSound(src: Source, doc: Sarif.Document, t: Tables, at: Instant)
    requires DocumentOk(src, doc) && TablesOk(PlanOf(src, doc), t) && Storable(at)
    ensures Sound(PlanOf(src, doc), t, ParseStep(src, doc, t, at))
  {
    var p := PlanOf(src, doc);
    PlanOfOk(src, doc);
    ParseIsPut(src, doc, t, at);
    RefusalSound(p, t);
    ParseGrows(p, t, at);
    ParseKeepsTables(p, t, at);
    ParseAddsPlanned(p, t, at);
    ParseStored(p, t, at);
  }

  lemma ScanStageSound(p: Plan, t: Tables, i: nat, id: string, at: Instant)
    requires PlanOk(p) && TablesOk(p, t) && i < |p.results| && DoneBefore(p, t, i, 0) && p.validId(id)
    ensures var q := PutScan(p, t, i, id, at);
            && TablesOk(p, q.tables) && Grows(t, q.tables) && AddsPlanned(p, t, q.tables)
            && DoneBefore(p, q.tables, i, 0) && (q.result.Err? ==> q.result.error == Backend)
            && (q.result.Ok? ==> HasScan(p, q.tables, i, q.result.value))
  {
    assert ScanOk(p, t, i);
    ScanGrows(p, t, i, id, at);
    ScanKeepsTables(p, t, i, id, at);
    ScanAddsPlanned(p, t, i, id, at);
    ScanStored(p, t, i, id, at);
    DoneBeforeGrows(p, t, PutScan(p, t, i, id, at).tables, i, 0);
  }

  lemma ScanSound(src: Source, doc: Sarif.Document, t: Tables, s: Ingestion.Store, i: nat, id: string, at: Instant)
    requires SourceOk(src) && DocumentOk(src, doc) && TablesOk(PlanOf(src, doc), t) && EvidenceHeld(src, s)
    requires i < |doc.runs| && DoneBefore(PlanOf(src, doc), t, i, 0)
    requires ValidOpaqueId(id) && Storable(at) && at >= src.receivedAt
    ensures Sound(PlanOf(src, doc), t, ScanStep(src, doc, t, s, i, id, at))
  {
    var q := PutScan(PlanOf(src, doc), t, i, id, at);
    PlanOfOk(src, doc);
    ScanIsPut(src, doc, t, s, i, id, at);
    ScanStageSound(PlanOf(src, doc), t, i, id, at);
    RefusalSound(PlanOf(src, doc), t);
    if InRange(i) && q.result.Ok? {
      AfterScanOk(src, doc, q.tables, i, q.result.value);
    }
  }

  lemma ObservationSound(src: Source, doc: Sarif.Document, t: Tables, i: nat, j: nat, scan: string, id: string,
                         at: Instant)
    requires SourceOk(src) && DocumentOk(src, doc) && TablesOk(PlanOf(src, doc), t)
    requires InDocument(doc, Observing(i, j, scan)) && PcOk(PlanOf(src, doc), t, Observing(i, j, scan))
    requires ValidOpaqueId(id) && Storable(at) && at >= src.receivedAt
    ensures Sound(PlanOf(src, doc), t, ObservationStep(src, doc, t, i, j, scan, id, at))
  {
    var p := PlanOf(src, doc);
    PlanOfOk(src, doc);
    assert ScanOk(p, t, i) && ResultOk(p, t, i, j);
    ObservationIsPut(src, doc, t, i, j, scan, id, at);
    RefusalSound(p, t);
    ObservationGrows(p, t, i, j, scan, id, at);
    ObservationKeepsTables(p, t, i, j, scan, id, at);
    ObservationAddsPlanned(p, t, i, j, scan, id, at);
    ObservationStored(p, t, i, j, scan, id, at);
    DoneBeforeGrows(p, t, PutObservation(p, t, i, j, scan, id, at).tables, i, j);
  }

  lemma StoredObservation(p: Plan, t: Tables, i: nat, j: nat, scan: string, stored: Stored)
    requires PlanOk(p) && PcOk(p, t, Normalizing(i, j, scan, stored)) && ScanOk(p, t, i) && ResultOk(p, t, i, j)
    ensures Owns(p, t, scan, j, stored.id) && p.validId(scan) && p.validId(stored.id) && Storable(stored.at)
    ensures t.observations[ObservationSlot(p, scan, j)].record.workspace == p.workspace
    ensures t.observations[ObservationSlot(p, scan, j)].recordedAt == stored.at
  {
  }

  /** The location a normalization of one result states, whatever its ids and times. */
  function NormalizedOf(src: Source, doc: Sarif.Document, i: nat, j: nat): Finding.NormalizedLocation
    requires i < |doc.runs| && j < |doc.runs[i].results|
  {
    Normalize(MapObservation(src, "", doc.runs[i].results[j], "", 0), 0).value.location
  }

  lemma NormalizationIsStage(src: Source, doc: Sarif.Document, t: Tables, i: nat, j: nat, scan: string,
                             stored: Stored, at: Instant, clock: Instant)
    requires UniqueIds(t) && Storable(at) && InDocument(doc, Normalizing(i, j, scan, stored))
    requires ResultFits(src, doc.runs[i].results[j])
    requires Owns(PlanOf(src, doc), t, scan, j, stored.id) && ValidOpaqueId(scan) && ValidOpaqueId(stored.id)
    requires t.observations[ObservationSlot(PlanOf(src, doc), scan, j)].record.workspace == src.workspace
    requires t.observations[ObservationSlot(PlanOf(src, doc), scan, j)].recordedAt == stored.at && Storable(stored.at)
    ensures Storable(Timestamp(clock, stored.at))
    ensures var q := PutNormalization(PlanOf(src, doc), t, i, j, stored.id, Timestamp(clock, stored.at));
            q.result.Ok? ==> NormalizationStep(src, doc, t, i, j, scan, stored, at, clock)
                             == if Finding.NormalizedInRange(NormalizedOf(src, doc, i, j))
                                then Effect(q.tables, Correlating(i, j, scan, stored.id, q.result.value))
                                else Effect(t, Stopped(Backend))
  {
    var when := Timestamp(clock, stored.at);
    TimestampStorable(clock, stored.at);
    NormalizeFits(src, doc, i, j, scan, stored.id, at, when);
    var n := Normalize(MapObservation(src, scan, doc.runs[i].results[j], stored.id, at), when).value;
    NormalizationIsPut(PlanOf(src, doc), t, i, j, scan, n);
  }

  lemma NormalizationStageSound(p: Plan, t: Tables, i: nat, j: nat, scan: string, stored: Stored, when: Instant)
    requires TablesOk(p, t) && PcOk(p, t, Normalizing(i, j, scan, stored)) && Storable(when)
    ensures var q := PutNormalization(p, t, i, j, stored.id, when);
            q.result.Ok? && Sound(p, t, Effect(q.tables, Correlating(i, j, scan, stored.id, q.result.value)))
  {
    assert ResultOk(p, t, i, j);
    NormalizationGrows(p, t, i, j, stored.id, when);
    NormalizationKeepsTables(p, t, i, j, scan, stored.id, when);
    OwnedIsPlanned(p, t, i, j, scan, stored.id);
    NormalizationAddsPlanned(p, t, i, j, stored.id, when);
    NormalizationStored(p, t, i, j, scan, stored.id, when);
    DoneBeforeGrows(p, t, PutNormalization(p, t, i, j, stored.id, when).tables, i, j);
  }

  lemma NormalizationSound(src: Source, doc: Sarif.Document, t: Tables, i: nat, j: nat, scan: string, stored: Stored,
                           at: Instant, clock: Instant)
    requires SourceOk(src) && DocumentOk(src, doc) && TablesOk(PlanOf(src, doc), t) && Storable(at)
    requires InDocument(doc, Normalizing(i, j, scan, stored))
    requires PcOk(PlanOf(src, doc), t, Normalizing(i, j, scan, stored))
    ensures Sound(PlanOf(src, doc), t, NormalizationStep(src, doc, t, i, j, scan, stored, at, clock))
  {
    PlanOfOk(src, doc);
    StoredObservation(PlanOf(src, doc), t, i, j, scan, stored);
    NormalizationIsStage(src, doc, t, i, j, scan, stored, at, clock);
    RefusalSound(PlanOf(src, doc), t);
    NormalizationStageSound(PlanOf(src, doc), t, i, j, scan, stored, Timestamp(clock, stored.at));
  }

  lemma OutcomeIsStage(src: Source, doc: Sarif.Document, t: Tables, i: nat, j: nat, scan: string,
                       observation: string, normalizedAt: Instant, clock: Instant)
    requires SourceOk(src) && InDocument(doc, Correlating(i, j, scan, observation, normalizedAt))
    requires PcOk(PlanOf(src, doc), t, Correlating(i, j, scan, observation, normalizedAt))
    requires ResultOk(PlanOf(src, doc), t, i, j)
    ensures var q := PutOutcome(PlanOf(src, doc), t, observation, Timestamp(clock, normalizedAt));
            q.result.Ok? ==> OutcomeStep(src, doc, t, i, j, scan, observation, normalizedAt, clock)
                             == Effect(q.tables, AfterResult(doc, i, j, scan))
  {
    TimestampStorable(clock, normalizedAt);
    OutcomeIsPut(src, doc, t, observation, normalizedAt, Timestamp(clock, normalizedAt));
  }

  lemma OutcomeStageSound(p: Plan, t: Tables, i: nat, j: nat, scan: string, observation: string,
                          normalizedAt: Instant, when: Instant)
    requires TablesOk(p, t) && PcOk(p, t, Correlating(i, j, scan, observation, normalizedAt))
    ensures var q := PutOutcome(p, t, observation, when);
            && q.result.Ok? && TablesOk(p, q.tables) && Grows(t, q.tables) && AddsPlanned(p, t, q.tables)
            && DoneBefore(p, q.tables, i, j) && HasScan(p, q.tables, i, scan) && ResultDone(p, q.tables, i, j)
  {
    assert ResultOk(p, t, i, j);
    OutcomeGrows(p, t, observation, when);
    OutcomeKeepsTables(p, t, scan, j, observation, when);
    OwnedIsPlanned(p, t, i, j, scan, observation);
    OutcomeAddsPlanned(p, t, observation, when);
    OutcomeStored(p, t, i, j, scan, observation, when);
    DoneBeforeGrows(p, t, PutOutcome(p, t, observation, when).tables, i, j);
  }

  lemma OutcomeSound(src: Source, doc: Sarif.Document, t: Tables, i: nat, j: nat, scan: string, observation: string,
                     normalizedAt: Instant, clock: Instant)
    requires SourceOk(src) && DocumentOk(src, doc) && TablesOk(PlanOf(src, doc), t)
    requires InDocument(doc, Correlating(i, j, scan, observation, normalizedAt))
    requires PcOk(PlanOf(src, doc), t, Correlating(i, j, scan, observation, normalizedAt))
    ensures Sound(PlanOf(src, doc), t, OutcomeStep(src, doc, t, i, j, scan, observation, normalizedAt, clock))
  {
    var p, when := PlanOf(src, doc), Timestamp(clock, normalizedAt);
    OutcomeIsStage(src, doc, t, i, j, scan, observation, normalizedAt, clock);
    OutcomeStageSound(p, t, i, j, scan, observation, normalizedAt, when);
    AfterResultOk(src, doc, PutOutcome(p, t, observation, when).tables, i, j, scan);
  }

  lemma FirstStagesSound(src: Source, doc: Sarif.Document, t: Tables, s: Ingestion.Store, h: Handler, id: string,
                         clock: Instant)
    requires SourceOk(src) && DocumentOk(src, doc) && TablesOk(PlanOf(src, doc), t) && EvidenceHeld(src, s)
    requires InDocument(doc, h.pc) && HandlerOk(PlanOf(src, doc), t, h) && ValidOpaqueId(id)
    requires h.pc.Parsing? || h.pc.Scanning? || h.pc.Observing?
    ensures Sound(PlanOf(src, doc), t, Transact(src, doc, t, s, h, id, clock))
  {
    match h.pc
    case Parsing => ParseSound(src, doc, t, h.recordedAt);
    case Scanning(i) => ScanSound(src, doc, t, s, i, id, h.recordedAt);
    case Observing(i, j, scan) => ObservationSound(src, doc, t, i, j, scan, id, h.recordedAt);
  }

  lemma LaterStagesSound(src: Source, doc: Sarif.Document, t: Tables, s: Ingestion.Store, h: Handler, id: string,
                         clock: Instant)
    requires SourceOk(src) && DocumentOk(src, doc) && TablesOk(PlanOf(src, doc), t) && EvidenceHeld(src, s)
    requires InDocument(doc, h.pc) && HandlerOk(PlanOf(src, doc), t, h) && ValidOpaqueId(id)
    requires h.pc.Normalizing? || h.pc.Correlating?
    ensures Sound(PlanOf(src, doc), t, Transact(src, doc, t, s, h, id, clock))
  {
    match h.pc
    case Normalizing(i, j, scan, stored) =>
      NormalizationSound(src, doc, t, i, j, scan, stored, h.recordedAt, clock);
    case Correlating(i, j, scan, observation, normalizedAt) =>
      OutcomeSound(src, doc, t, i, j, scan, observation, normalizedAt, clock);
  }

  lemma TransactSound(src: Source, doc: Sarif.Document, t: Tables, s: Ingestion.Store, h: Handler, id: string,
                      clock: Instant)
    requires SourceOk(src) && DocumentOk(src, doc) && TablesOk(PlanOf(src, doc), t) && EvidenceHeld(src, s)
    requires InDocument(doc, h.pc) && HandlerOk(PlanOf(src, doc), t, h) && ValidOpaqueId(id)
    ensures Sound(PlanOf(src, doc), t, Transact(src, doc, t, s, h, id, clock))
  {
    if h.pc.Parsing? || h.pc.Scanning? || h.pc.Observing? {
      FirstStagesSound(src, doc, t, s, h, id, clock);
    } else if h.pc.Normalizing? || h.pc.Correlating? {
      LaterStagesSound(src, doc, t, s, h, id, clock);
    }
  }

  /** Record transactions never end an execution but by stopping it. */
  lemma TransactNeverEnds(src: Source, doc: Sarif.Document, t: Tables, s: Ingestion.Store, h: Handler, id: string,
                          clock: Instant)
    requires InDocument(doc, h.pc)
    ensures var pc := Transact(src, doc, t, s, h, id, clock).pc;
            pc.Published? || pc.Delayed? || pc.Denied? ==> pc == h.pc
  {
  }

  // ---------------------------------------------------------------------
  // Progress
  // ---------------------------------------------------------------------

  predicate Working(pc: Pc) { !pc.Stopped? && !pc.Delayed? && !pc.Denied? && !pc.Published? }

  /** The transactions of runs i and later. */
  function RunsLeft(doc: Sarif.Document, i: nat): nat
    decreases |doc.runs| - i
  {
    if i >= |doc.runs| then 0 else 1 + 3 * |doc.runs[i].results| + RunsLeft(doc, i + 1)
  }

  function ResultsLeft(doc: Sarif.Document, i: nat, j: nat): int
    requires i < |doc.runs|
  {
    3 * (|doc.runs[i].results| - j) + RunsLeft(doc, i + 1) + 1
  }

  /** The transactions an execution still has before it. */
  function Left(doc: Sarif.Document, pc: Pc): int
    requires InDocument(doc, pc)
  {
    match pc
    case Parsing => 2 + RunsLeft(doc, 0)
    case Scanning(i) => 1 + RunsLeft(doc, i)
    case Observing(i, j, _) => ResultsLeft(doc, i, j)
    case Normalizing(i, j, _, _) => ResultsLeft(doc, i, j) - 1
    case Correlating(i, j, _, _, _) => ResultsLeft(doc, i, j) - 2
    case Completing => 1
    case _ => 0
  }

  lemma LeftAfterRun(doc: Sarif.Document, i: nat)
    requires i < |doc.runs|
    ensures InDocument(doc, AfterRun(doc, i)) && Left(doc, AfterRun(doc, i)) == 1 + RunsLeft(doc, i + 1)
  {
  }

  lemma LeftAfterScan(doc: Sarif.Document, i: nat, scan: string)
    requires i < |doc.runs|
    ensures InDocument(doc, AfterScan(doc, i, scan)) && Left(doc, AfterScan(doc, i, scan)) == RunsLeft(doc, i)
  {
    LeftAfterRun(doc, i);
  }

  lemma LeftAfterResult(doc: Sarif.Document, i: nat, j: nat, scan: string)
    requires i < |doc.runs| && j < |doc.runs[i].results|
    ensures InDocument(doc, AfterResult(doc, i, j, scan))
    ensures Left(doc, AfterResult(doc, i, j, scan)) == ResultsLeft(doc, i, j) - 3
  {
    LeftAfterRun(doc, i);
  }

  predicate OneLess(doc: Sarif.Document, before: Pc, after: Pc)
    requires InDocument(doc, before)
  {
    after.Stopped? || (InDocument(doc, after) && Left(doc, after) == Left(doc, before) - 1)
  }

  lemma ScanAdvances(src: Source, doc: Sarif.Document, t: Tables, s: Ingestion.Store, i: nat, id: string, at: Instant)
    requires i < |doc.runs|
    ensures OneLess(doc, Scanning(i), ScanStep(src, doc, t, s, i, id, at).pc)
  {
    var o := RecordScan(t, s, MapScan(src, doc.runs[i], id, at));
    if o.result.Ok? {
      LeftAfterScan(doc, i, o.result.value.id);
    }
  }

  lemma OutcomeAdvances(src: Source, doc: Sarif.Document, t: Tables, i: nat, j: nat, scan: string,
                        observation: string, normalizedAt: Instant, clock: Instant)
    requires InDocument(doc, Observing(i, j, scan))
    ensures OneLess(doc, Correlating(i, j, scan, observation, normalizedAt),
                    OutcomeStep(src, doc, t, i, j, scan, observation, normalizedAt, clock).pc)
  {
    LeftAfterResult(doc, i, j, scan);
  }

  lemma ParseAdvances(src: Source, doc: Sarif.Document, t: Tables, at: Instant)
    ensures OneLess(doc, Parsing, ParseStep(src, doc, t, at).pc)
  {
  }

  lemma ObservationAdvances(src: Source, doc: Sarif.Document, t: Tables, i: nat, j: nat, scan: string, id: string,
                            at: Instant)
    requires InDocument(doc, Observing(i, j, scan))
    ensures OneLess(doc, Observing(i, j, scan), ObservationStep(src, doc, t, i, j, scan, id, at).pc)
  {
  }

  lemma NormalizationAdvances(src: Source, doc: Sarif.Document, t: Tables, i: nat, j: nat, scan: string,
                              stored: Stored, at: Instant, clock: Instant)
    requires InDocument(doc, Observing(i, j, scan))
    ensures OneLess(doc, Normalizing(i, j, scan, stored),
                    NormalizationStep(src, doc, t, i, j, scan, stored, at, clock).pc)
  {
  }

  /** A record transaction either stops its execution or brings it exactly one transaction nearer the end. */
  lemma TransactAdvances(src: Source, doc: Sarif.Document, t: Tables, s: Ingestion.Store, h: Handler, id: string,
                         clock: Instant)
    requires InDocument(doc, h.pc) && Working(h.pc) && !h.pc.Completing?
    ensures OneLess(doc, h.pc, Transact(src, doc, t, s, h, id, clock).pc)
  {
    match h.pc
    case Parsing => ParseAdvances(src, doc, t, h.recordedAt);
    case Scanning(i) => ScanAdvances(src, doc, t, s, i, id, h.recordedAt);
    case Observing(i, j, scan) => ObservationAdvances(src, doc, t, i, j, scan, id, h.recordedAt);
    case Normalizing(i, j, scan, stored) =>
      NormalizationAdvances(src, doc, t, i, j, scan, stored, h.recordedAt, clock);
    case Correlating(i, j, scan, observation, normalizedAt) =>
      OutcomeAdvances(src, doc, t, i, j, scan, observation, normalizedAt, clock);
  }

  // What refuses a transaction

  /** The numbers that the next record transaction writes for the first time fit their columns. */
  predicate StageInRange(doc: Sarif.Document, pc: Pc)
    requires InDocument(doc, pc)
  {
    match pc
    case Parsing => WarningsInRange(doc.warnings)
    case Scanning(i) => InRange(i)
    case Observing(i, j, _) => ResultInRange(doc.runs[i].results[j])
    case _ => true
  }

  lemma ParseRefusedIff(src: Source, doc: Sarif.Document, t: Tables, at: Instant)
    requires DocumentOk(src, doc) && TablesOk(PlanOf(src, doc), t) && ColumnsInRange(t) && at != 0
    ensures ParseStep(src, doc, t, at).pc.Stopped? <==> !WarningsInRange(doc.warnings)
  {
    PlanOfOk(src, doc);
    ParseIsPut(src, doc, t, at);
    ParseStored(PlanOf(src, doc), t, at);
  }

  lemma ScanRefusedIff(src: Source, doc: Sarif.Document, t: Tables, s: Ingestion.Store, i: nat, id: string, at: Instant)
    requires i < |doc.runs| && doc.runs[i].index == i && ScanFits(src, doc.runs[i]) && EvidenceHeld(src, s)
    requires ScanOk(PlanOf(src, doc), t, i) && ValidOpaqueId(id) && at != 0 && at >= src.receivedAt
    requires !ScanIdUsed(t, src.workspace, id)
    ensures ScanStep(src, doc, t, s, i, id, at).pc.Stopped? <==> !InRange(i)
  {
    ScanIsPut(src, doc, t, s, i, id, at);
    ScanPutOk(PlanOf(src, doc), t, i, id, at);
  }

  lemma ScanPutOk(p: Plan, t: Tables, i: nat, id: string, at: Instant)
    requires ScanOk(p, t, i) && !ScanIdUsed(t, p.workspace, id)
    ensures PutScan(p, t, i, id, at).result.Ok?
  {
  }

  lemma StoredContent(p: Plan, t: Tables, i: nat, j: nat, scan: string)
    requires ResultOk(p, t, i, j) && HasScan(p, t, i, scan) && ObservationSlot(p, scan, j) in t.observations
    ensures t.observations[ObservationSlot(p, scan, j)].record == p.observation(i, j, scan)
  {
  }

  /** A stored observation of this import fits, so its result does. */
  lemma StoredIsInRange(src: Source, doc: Sarif.Document, t: Tables, i: nat, j: nat, scan: string)
    requires InDocument(doc, Observing(i, j, scan)) && ResultOk(PlanOf(src, doc), t, i, j)
    requires HasScan(PlanOf(src, doc), t, i, scan)
    requires ObservationSlot(PlanOf(src, doc), scan, j) in t.observations
    requires Finding.RecordInRange(t.observations[ObservationSlot(PlanOf(src, doc), scan, j)].record)
    ensures ResultInRange(doc.runs[i].results[j])
  {
    StoredContent(PlanOf(src, doc), t, i, j, scan);
    ObservationInRangeIff(src, scan, doc.runs[i].results[j], "", 0);
  }

  lemma ObservationPutOk(p: Plan, t: Tables, i: nat, j: nat, scan: string, id: string, at: Instant)
    requires ResultOk(p, t, i, j) && HasScan(p, t, i, scan) && !ObservationIdUsed(t, p.workspace, id)
    ensures PutObservation(p, t, i, j, scan, id, at).result.Ok?
  {
  }

  lemma OutOfRangeIff(src: Source, doc: Sarif.Document, t: Tables, i: nat, j: nat, scan: string, id: string,
                      at: Instant)
    requires InDocument(doc, Observing(i, j, scan)) && TablesOk(PlanOf(src, doc), t) && ColumnsInRange(t)
    requires HasScan(PlanOf(src, doc), t, i, scan) && doc.runs[i].results[j].index == j
    ensures OutOfRange(t, MapObservation(src, scan, doc.runs[i].results[j], id, at))
            <==> !ResultInRange(doc.runs[i].results[j])
  {
    ObservationInRangeIff(src, scan, doc.runs[i].results[j], id, at);
    if ObservationSlot(PlanOf(src, doc), scan, j) in t.observations {
      StoredIsInRange(src, doc, t, i, j, scan);
    }
  }

  lemma ObservationRefusedIff(src: Source, doc: Sarif.Document, t: Tables, i: nat, j: nat, scan: string, id: string,
                              at: Instant)
    requires InDocument(doc, Observing(i, j, scan)) && doc.runs[i].results[j].index == j
    requires ResultFits(src, doc.runs[i].results[j]) && UniqueIds(t) && HasScan(PlanOf(src, doc), t, i, scan)
    requires ScanOk(PlanOf(src, doc), t, i) && ResultOk(PlanOf(src, doc), t, i, j)
    requires ValidOpaqueId(id) && at != 0 && at >= src.receivedAt && !ObservationIdUsed(t, src.workspace, id)
    ensures ObservationStep(src, doc, t, i, j, scan, id, at).pc.Stopped?
            <==> OutOfRange(t, MapObservation(src, scan, doc.runs[i].results[j], id, at))
  {
    ObservationIsPut(src, doc, t, i, j, scan, id, at);
    ObservationPutOk(PlanOf(src, doc), t, i, j, scan, id, at);
  }

  lemma NormalizedIsInRange(src: Source, doc: Sarif.Document, i: nat, j: nat)
    requires i < |doc.runs| && j < |doc.runs[i].results| && ResultInRange(doc.runs[i].results[j])
    ensures Finding.NormalizedInRange(NormalizedOf(src, doc, i, j))
  {
    ObservationInRangeIff(src, "", doc.runs[i].results[j], "", 0);
    NormalizationInRange(MapObservation(src, "", doc.runs[i].results[j], "", 0), 0);
  }

  lemma NormalizationNeverRefused(src: Source, doc: Sarif.Document, t: Tables, i: nat, j: nat, scan: string,
                                  stored: Stored, at: Instant, clock: Instant)
    requires SourceOk(src) && DocumentOk(src, doc) && TablesOk(PlanOf(src, doc), t) && ColumnsInRange(t)
    requires Storable(at) && InDocument(doc, Normalizing(i, j, scan, stored))
    requires PcOk(PlanOf(src, doc), t, Normalizing(i, j, scan, stored))
    ensures !NormalizationStep(src, doc, t, i, j, scan, stored, at, clock).pc.Stopped?
  {
    PlanOfOk(src, doc);
    StoredIsInRange(src, doc, t, i, j, scan);
    NormalizedIsInRange(src, doc, i, j);
    StoredObservation(PlanOf(src, doc), t, i, j, scan, stored);
    NormalizationIsStage(src, doc, t, i, j, scan, stored, at, clock);
    NormalizationStageSound(PlanOf(src, doc), t, i, j, scan, stored, Timestamp(clock, stored.at));
  }

  lemma OutcomePutOk(p: Plan, t: Tables, i: nat, j: nat, scan: string, observation: string, at: Instant)
    requires ResultOk(p, t, i, j) && HasScan(p, t, i, scan) && Owns(p, t, scan, j, observation)
    ensures PutOutcome(p, t, observation, at).result.Ok?
  {
  }

  lemma OutcomeNeverRefused(src: Source, doc: Sarif.Document, t: Tables, i: nat, j: nat, scan: string,
                            observation: string, normalizedAt: Instant, clock: Instant)
    requires InDocument(doc, Observing(i, j, scan)) && ResultOk(PlanOf(src, doc), t, i, j)
    requires HasScan(PlanOf(src, doc), t, i, scan) && Owns(PlanOf(src, doc), t, scan, j, observation)
    requires HasNormalization(PlanOf(src, doc), t, observation, normalizedAt) && Storable(normalizedAt)
    requires ValidOpaqueId(src.workspace) && ValidOpaqueId(observation)
    ensures !OutcomeStep(src, doc, t, i, j, scan, observation, normalizedAt, clock).pc.Stopped?
  {
    TimestampStorable(clock, normalizedAt);
    OutcomeStoredAt(src, doc, t, i, j, scan, observation, normalizedAt, Timestamp(clock, normalizedAt));
    OutcomeGoesOn(src, doc, t, i, j, scan, observation, normalizedAt, clock);
  }

  lemma OutcomeGoesOn(src: Source, doc: Sarif.Document, t: Tables, i: nat, j: nat, scan: string,
                      observation: string, normalizedAt: Instant, clock: Instant)
    requires i < |doc.runs|
    requires var d := DispatchOf(src, observation, Timestamp(clock, normalizedAt));
             !Correlation.DispatchRefused(d) && RecordUncorrelated(t, Correlation.DispatchOutcome(d)).result.Ok?
    ensures !OutcomeStep(src, doc, t, i, j, scan, observation, normalizedAt, clock).pc.Stopped?
  {
  }

  lemma OutcomeStoredAt(src: Source, doc: Sarif.Document, t: Tables, i: nat, j: nat, scan: string,
                        observation: string, normalizedAt: Instant, at: Instant)
    requires ResultOk(PlanOf(src, doc), t, i, j)
    requires HasScan(PlanOf(src, doc), t, i, scan) && Owns(PlanOf(src, doc), t, scan, j, observation)
    requires HasNormalization(PlanOf(src, doc), t, observation, normalizedAt) && at >= normalizedAt && at != 0
    requires ValidOpaqueId(src.workspace) && ValidOpaqueId(observation)
    ensures var d := DispatchOf(src, observation, at);
            !Correlation.DispatchRefused(d) && RecordUncorrelated(t, Correlation.DispatchOutcome(d)).result.Ok?
  {
    OutcomeIsPut(src, doc, t, observation, normalizedAt, at);
    OutcomePutOk(PlanOf(src, doc), t, i, j, scan, observation, at);
  }

  lemma StoredNormalization(p: Plan, t: Tables, i: nat, j: nat, scan: string, observation: string,
                            normalizedAt: Instant)
    requires TablesOk(p, t) && PcOk(p, t, Correlating(i, j, scan, observation, normalizedAt))
    ensures ResultOk(p, t, i, j) && Storable(normalizedAt) && p.validId(observation)
  {
    assert ResultOk(p, t, i, j);
  }

  lemma FirstRefusedIff(src: Source, doc: Sarif.Document, t: Tables, s: Ingestion.Store, h: Handler, id: string,
                        clock: Instant)
    requires SourceOk(src) && DocumentOk(src, doc) && TablesOk(PlanOf(src, doc), t) && EvidenceHeld(src, s)
    requires ColumnsInRange(t) && InDocument(doc, h.pc) && HandlerOk(PlanOf(src, doc), t, h) && ValidOpaqueId(id)
    requires h.pc.Parsing? || h.pc.Scanning? || h.pc.Observing?
    requires !ScanIdUsed(t, src.workspace, id) && !ObservationIdUsed(t, src.workspace, id)
    ensures Transact(src, doc, t, s, h, id, clock).pc.Stopped? <==> !StageInRange(doc, h.pc)
  {
    match h.pc
    case Parsing => ParseRefusedIff(src, doc, t, h.recordedAt);
    case Scanning(i) => ScanRefusedIff(src, doc, t, s, i, id, h.recordedAt);
    case Observing(i, j, scan) =>
      assert ScanOk(PlanOf(src, doc), t, i) && ResultOk(PlanOf(src, doc), t, i, j);
      OutOfRangeIff(src, doc, t, i, j, scan, id, h.recordedAt);
      ObservationRefusedIff(src, doc, t, i, j, scan, id, h.recordedAt);
  }

  lemma LaterNeverRefused(src: Source, doc: Sarif.Document, t: Tables, s: Ingestion.Store, h: Handler, id: string,
                          clock: Instant)
    requires SourceOk(src) && DocumentOk(src, doc) && TablesOk(PlanOf(src, doc), t) && ColumnsInRange(t)
    requires InDocument(doc, h.pc) && HandlerOk(PlanOf(src, doc), t, h)
    requires h.pc.Normalizing? || h.pc.Correlating?
    ensures !Transact(src, doc, t, s, h, id, clock).pc.Stopped?
  {
    match h.pc
    case Normalizing(i, j, scan, stored) =>
      NormalizationNeverRefused(src, doc, t, i, j, scan, stored, h.recordedAt, clock);
    case Correlating(i, j, scan, observation, normalizedAt) =>
      StoredNormalization(PlanOf(src, doc), t, i, j, scan, observation, normalizedAt);
      OutcomeNeverRefused(src, doc, t, i, j, scan, observation, normalizedAt, clock);
  }

  /** At any clock and with any unused id, a record transaction is refused exactly when a number does not fit. */
  lemma TransactRefusedIff(src: Source, doc: Sarif.Document, t: Tables, s: Ingestion.Store, h: Handler, id: string,
                           clock: Instant)
    requires SourceOk(src) && DocumentOk(src, doc) && TablesOk(PlanOf(src, doc), t) && EvidenceHeld(src, s)
    requires ColumnsInRange(t) && InDocument(doc, h.pc) && HandlerOk(PlanOf(src, doc), t, h) && ValidOpaqueId(id)
    requires Working(h.pc) && !h.pc.Completing?
    requires !ScanIdUsed(t, src.workspace, id) && !ObservationIdUsed(t, src.workspace, id)
    ensures Transact(src, doc, t, s, h, id, clock).pc.Stopped? <==> !StageInRange(doc, h.pc)
  {
    if h.pc.Parsing? || h.pc.Scanning? || h.pc.Observing? {
      FirstRefusedIff(src, doc, t, s, h, id, clock);
    } else {
      LaterNeverRefused(src, doc, t, s, h, id, clock);
    }
  }

  lemma PcInDocument(src: Source, doc: Sarif.Document, t: Tables, pc: Pc)
    requires PcOk(PlanOf(src, doc), t, pc)
    ensures InDocument(doc, pc)
  {
  }

  /** With an unused id, a record transaction stops at a number out of range and else brings one nearer the end. */
  lemma StepAdvances(src: Source, doc: Sarif.Document, t: Tables, s: Ingestion.Store, h: Handler, id: string,
                     clock: Instant)
    requires SourceOk(src) && DocumentOk(src, doc) && TablesOk(PlanOf(src, doc), t) && EvidenceHeld(src, s)
    requires ColumnsInRange(t) && InDocument(doc, h.pc) && HandlerOk(PlanOf(src, doc), t, h) && ValidOpaqueId(id)
    requires Working(h.pc) && !h.pc.Completing?
    requires !ScanIdUsed(t, src.workspace, id) && !ObservationIdUsed(t, src.workspace, id)
    ensures var pc := Transact(src, doc, t, s, h, id, clock).pc;
            if StageInRange(doc, h.pc) then InDocument(doc, pc) && Left(doc, pc) == Left(doc, h.pc) - 1 && Working(pc)
            else pc.Stopped?
  {
    TransactNeverEnds(src, doc, t, s, h, id, clock);
    TransactAdvances(src, doc, t, s, h, id, clock);
    TransactRefusedIff(src, doc, t, s, h, id, clock);
  }

  // ---------------------------------------------------------------------
  // Columns
  // ---------------------------------------------------------------------

  lemma ParseKeepsRange(t: Tables, spec: ParseOutputSpec)
    requires ColumnsInRange(t)
    ensures ColumnsInRange(RecordParseOutput(t, spec).tables)
  {
  }

  lemma ScanKeepsRange(t: Tables, s: Ingestion.Store, spec: ScanSpec)
    requires ColumnsInRange(t)
    ensures ColumnsInRange(RecordScan(t, s, spec).tables)
  {
  }

  lemma ObservationKeepsRange(t: Tables, spec: Finding.ObservationSpec)
    requires ColumnsInRange(t)
    ensures ColumnsInRange(RecordObservation(t, spec).tables)
  {
    Finding.CanonicalInRangeIff(spec);
  }

  lemma NormalizationKeepsRange(t: Tables, spec: Finding.NormalizationSpec)
    requires ColumnsInRange(t)
    ensures ColumnsInRange(RecordNormalization(t, spec).tables)
  {
  }

  lemma OutcomeKeepsRange(t: Tables, spec: Correlation.UncorrelatedSpec)
    requires ColumnsInRange(t)
    ensures ColumnsInRange(RecordUncorrelated(t, spec).tables)
  {
  }

  /** Every record transaction keeps the columns in range. */
  lemma TransactKeepsRange(src: Source, doc: Sarif.Document, t: Tables, s: Ingestion.Store, h: Handler, id: string,
                           clock: Instant)
    requires ColumnsInRange(t) && InDocument(doc, h.pc)
    ensures ColumnsInRange(Transact(src, doc, t, s, h, id, clock).tables)
  {
    match h.pc
    case Parsing => ParseKeepsRange(t, MapParseOutput(src, doc, h.recordedAt));
    case Scanning(i) => ScanKeepsRange(t, s, MapScan(src, doc.runs[i], id, h.recordedAt));
    case Observing(i, j, scan) =>
      ObservationKeepsRange(t, MapObservation(src, scan, doc.runs[i].results[j], id, h.recordedAt));
    case Normalizing(i, j, scan, stored) =>
      var n := Normalize(MapObservation(src, scan, doc.runs[i].results[j], stored.id, h.recordedAt),
                         Timestamp(clock, stored.at));
      if n.Some? {
        NormalizationKeepsRange(t, n.value);
      }
    case Correlating(i, j, scan, observation, normalizedAt) =>
      var d := DispatchOf(src, observation, Timestamp(clock, normalizedAt));
      if !Correlation.DispatchRefused(d) {
        OutcomeKeepsRange(t, Correlation.DispatchOutcome(d));
      }
    case _ =>
  }
}
