/**
 What the stored records of an import say, column by column, in terms of the
 parsed document: the scan of a run, and the observation, the normalization
 and the correlation outcome of a result.
 */
module ImportContents {
  import opened Base
  import opened Text
  import opened Sorting
  import Sarif
  import Finding
  import Correlation
  import Mapping
  import opened Scans
  import opened Records
  import opened ImportPlan
  import opened Ingestion
  import opened Importer
  import opened ImportInvariant
  import opened ImportRuns

  // ---------------------------------------------------------------------
  // Normalizations
  // ---------------------------------------------------------------------

  /** Each level has its own severity, and an absent one is unknown. */
  predicate SeverityShows(level: string, severity: string) {
    && (severity == "high" <==> level == "error") && (severity == "medium" <==> level == "warning")
    && (severity == "low" <==> level == "note") && (severity == "not_applicable" <==> level == "none")
    && (severity == "unknown" <==> level == "")
  }

  predicate RuleShows(ruleId: string, kind: string, id: string) {
    && (kind == "source" <==> ruleId != "") && (kind == "unknown" <==> ruleId == "")
    && id == ruleId
  }

  /** The first location of the result, if it names an artifact. */
  predicate PlaceShows(locations: seq<Sarif.Location>, place: Finding.NormalizedLocation) {
    if locations == [] || locations[0].uri == ""
    then place == Finding.NormalizedLocation("unknown", "", "", None, None, None, None)
    else
      && place.kind == "artifact" && place.uri == locations[0].uri && place.uriBaseId == locations[0].uriBaseId
      && RegionShows(locations[0].region, place.startLine, place.startColumn, place.endLine, place.endColumn)
  }

  predicate RegionShows(region: Option<Sarif.Region>, startLine: Option<int>, startColumn: Option<int>,
                        endLine: Option<int>, endColumn: Option<int>)
  {
    if region.None? then startLine.None? && startColumn.None? && endLine.None? && endColumn.None?
    else
      && startLine == region.value.startLine && startColumn == region.value.startColumn
      && endLine == region.value.endLine && endColumn == region.value.endColumn
  }

  predicate NormalizationShows(src: Source, result: Sarif.SourceResult, observation: string,
                               n: Finding.CanonicalNormalization)
  {
    && n.workspace == src.workspace && n.observation == observation
    && n.normalizerName == "sarif" && n.normalizerVersion == "1" && n.category == "unknown"
    && SeverityShows(result.level, n.severity) && RuleShows(result.ruleId, n.ruleKind, n.ruleId)
    && PlaceShows(result.locations, n.location)
  }

  lemma LevelHasSeverity(level: string)
    requires level == "" || Sarif.ValidLevel(level)
    ensures SeverityShows(level, NormalizeSeverity(level))
  {
    assert |"none"| == 4 && |"note"| == 4 && |"warning"| == 7 && |"error"| == 5 && "none"[2] != "note"[2];
    assert |"high"| == 4 && |"medium"| == 6 && |"low"| == 3 && |"not_applicable"| == 14 && |"unknown"| == 7;
  }

  lemma FirstIsPrimary(locations: seq<Sarif.Location>)
    requires locations != [] && forall i :: 0 <= i < |locations| ==> locations[i].index == i
    ensures Primary(MapLocations(locations)) == MapLocation(locations[0])
  {
    var mapped := MapLocations(locations);
    assert mapped[0] in mapped;
    var p := Primary(mapped);
    var i :| 0 <= i < |mapped| && mapped[i] == p;
    assert p.ordinal == i;
  }

  lemma PlaceIsShown(locations: seq<Sarif.Location>)
    requires forall i :: 0 <= i < |locations| ==> locations[i].index == i
    ensures var place := PrimaryLocation(MapLocations(locations));
            PlaceShows(locations, if place.Some? then place.value
                       else Finding.NormalizedLocation("unknown", "", "", None, None, None, None))
  {
    if locations != [] {
      FirstIsPrimary(locations);
    }
  }

  /** The normalization of an accepted result says what the result says. */
  lemma ResultIsNormalized(src: Source, result: Sarif.SourceResult, observation: string)
    requires Sarif.ResultAccepted(result)
    ensures NormalizationShows(src, result, observation, NormalizationContent(src, result, observation))
  {
    LevelHasSeverity(result.level);
    PlaceIsShown(result.locations);
  }

  /** Observations of any other parser, or of another version of this one, are not normalized. */
  lemma NormalizesOnlyItsParser(o: Finding.ObservationSpec, at: Instant)
    ensures Normalize(o, at).Some? <==> o.parserName == "sarif" && o.parserVersion == "1"
  {
  }

  // ---------------------------------------------------------------------
  // Scans
  // ---------------------------------------------------------------------

  /** A run failed if an invocation did, succeeded if it reports some and none failed, and else is unknown. */
  predicate RunShows(invocations: seq<Sarif.Invocation>, result: ScanResult) {
    && (result == ResultUnknown <==> |invocations| == 0)
    && (result == ResultFailed <==> exists i :: 0 <= i < |invocations| && !invocations[i].executionSuccessful)
    && (result == ResultSucceeded <==>
          |invocations| > 0 && forall i :: 0 <= i < |invocations| ==> invocations[i].executionSuccessful)
  }

  /** The times of a single invocation, unless they contradict each other. */
  predicate TimesShow(invocations: seq<Sarif.Invocation>, startedAt: Option<Instant>, endedAt: Option<Instant>) {
    if |invocations| == 1
       && !(invocations[0].startTime.Some? && invocations[0].endTime.Some?
            && invocations[0].endTime.value < invocations[0].startTime.value)
    then startedAt == invocations[0].startTime && endedAt == invocations[0].endTime
    else startedAt.None? && endedAt.None?
  }

  predicate ScanShows(src: Source, run: Sarif.Run, record: CanonicalScan, scope: CanonicalScope) {
    && record.workspace == src.workspace && record.import_ == src.import_ && record.application == src.application
    && record.rawArtifact == src.rawArtifact && record.runIndex == run.index
    && record.completeness == CompletenessUnknown
    && record.contextImport == (if src.hasContext then src.import_ else "")
    && record.tool == run.tool && record.sourcePointer == run.sourcePointer
    && record.automation == (if run.automation.Some? then run.automation.value else Sarif.Automation("", "", ""))
    && record.parserName == "sarif" && record.parserVersion == "1"
    && RunShows(run.invocations, record.result) && TimesShow(run.invocations, record.startedAt, record.endedAt)
    && scope.application == src.application
    && scope.scope == Scans.Scope(1, "unknown", "", "", "", if src.hasContext then "sast" else "unknown", "{}")
  }

  lemma RunIsRecorded(src: Source, run: Sarif.Run)
    ensures ScanShows(src, run, ScanContentOf(src, run).record, ScanContentOf(src, run).scope)
  {
  }

  // ---------------------------------------------------------------------
  // Observations and outcomes
  // ---------------------------------------------------------------------

  /** The statement gives the parsed result back, under the scan and the evidence it belongs to. */
  predicate ObservationShows(src: Source, result: Sarif.SourceResult, scan: string, o: Finding.CanonicalObservation) {
    && o.workspace == src.workspace && o.scan == scan && o.rawArtifact == src.rawArtifact
    && o.parserName == "sarif" && o.parserVersion == "1" && o.facts.observedAt.None?
    && Mapping.ResultBack(o) == Mapping.Plain(result)
  }

  lemma ResultIsObserved(src: Source, result: Sarif.SourceResult, scan: string)
    requires Sarif.ResultAccepted(result)
    ensures ObservationShows(src, result, scan, ObservationContent(src, result, scan))
  {
    Mapping.StoredRecordKeepsResult(src, scan, result, "", 0);
  }

  /** Without an analysis context the target and the kind are unknown, with one the family and the source context. */
  predicate OutcomeShows(src: Source, observation: string, o: Correlation.CanonicalOutcome) {
    && o.workspace == src.workspace && o.observation == observation
    && o.normalizerName == "sarif" && o.normalizerVersion == "1" && o.algorithm == "correlation-dispatch"
    && o.algorithmVersion == (if src.hasContext then "2" else "1")
    && o.reasons == if src.hasContext then [Correlation.ScannerFamilyUnknown, Correlation.SourceContextUnknown]
                    else [Correlation.TargetIdentityUnknown, Correlation.AnalysisKindUnknown]
  }

  lemma TwoInOrder(a: Correlation.Reason, b: Correlation.Reason)
    requires Correlation.ReasonOrder(a) < Correlation.ReasonOrder(b)
    ensures (Correlation.ReasonsOrdered(); Arranged(Correlation.ReasonLess, [a, b]) == [a, b])
  {
    Correlation.ReasonsOrdered();
    Mapping.ArrangedStays(Correlation.ReasonLess, [a, b]);
  }

  lemma ResultIsCorrelated(src: Source, observation: string)
    ensures OutcomeShows(src, observation, OutcomeContent(src, observation))
  {
    TwoInOrder(Correlation.ScannerFamilyUnknown, Correlation.SourceContextUnknown);
    TwoInOrder(Correlation.TargetIdentityUnknown, Correlation.AnalysisKindUnknown);
    assert Correlation.DispatchReasons(DispatchOf(src, observation, 0))
        == if src.hasContext then [Correlation.ScannerFamilyUnknown, Correlation.SourceContextUnknown]
           else [Correlation.TargetIdentityUnknown, Correlation.AnalysisKindUnknown];
  }

  // ---------------------------------------------------------------------
  // What the tables hold
  // ---------------------------------------------------------------------

  /** The row of a run. */
  predicate ScanStored(src: Source, run: Sarif.Run, t: Tables, i: nat) {
    var key := ScanKey(src.workspace, src.import_, i);
    key in t.scans && ScanShows(src, run, t.scans[key].record, t.scans[key].scope)
  }

  /** The three rows of a result, each under the generated id of the one before. */
  predicate ResultStored(src: Source, result: Sarif.SourceResult, t: Tables, i: nat, j: nat) {
    && ScanKey(src.workspace, src.import_, i) in t.scans
    && var scan := t.scans[ScanKey(src.workspace, src.import_, i)].id;
       var key := ObservationKey(src.workspace, scan, "sarif", "1", j);
       && key in t.observations && ObservationShows(src, result, scan, t.observations[key].record)
       && var id := t.observations[key].id;
          var (n, c) := (NormalizationKey(src.workspace, id, "sarif", "1"),
                         OutcomeKey(src.workspace, id, "correlation-dispatch", if src.hasContext then "2" else "1"));
          && n in t.normalizations && NormalizationShows(src, result, id, t.normalizations[n].record)
          && c in t.outcomes && OutcomeShows(src, id, t.outcomes[c].record)
  }

  lemma HeldScanIsStored(src: Source, doc: Sarif.Document, t: Tables, i: nat)
    requires i < |doc.runs| && ScanHeld(src, doc, t, i)
    ensures ScanStored(src, doc.runs[i], t, i)
  {
    RunIsRecorded(src, doc.runs[i]);
  }

  lemma HeldResultIsStored(src: Source, doc: Sarif.Document, t: Tables, i: nat, j: nat)
    requires i < |doc.runs| && j < |doc.runs[i].results| && ResultHeld(src, doc, t, i, j)
    requires Sarif.ResultAccepted(doc.runs[i].results[j])
    ensures ResultStored(src, doc.runs[i].results[j], t, i, j)
  {
    var p := PlanOf(src, doc);
    var scan := t.scans[ScanSlot(p, i)].id;
    var id := t.observations[ObservationSlot(p, scan, j)].id;
    ResultIsObserved(src, doc.runs[i].results[j], scan);
    ResultIsNormalized(src, doc.runs[i].results[j], id);
    ResultIsCorrelated(src, id);
  }

  /** The diagnostics of the parser. */
  predicate WarningsStored(src: Source, doc: Sarif.Document, t: Tables) {
    var key := ParseKey(src.workspace, src.import_);
    && key in t.parses && t.parses[key].workspace == src.workspace && t.parses[key].import_ == src.import_
    && t.parses[key].rawArtifact == src.rawArtifact && t.parses[key].warnings == doc.warnings
    && t.parses[key].truncated == doc.warningsTruncated
  }

  /**
   Whenever success is published, the row of every run and the rows of every
   result say what the document says: nothing is lost, merged, exchanged or
   misread on the way into the tables.
   */
  lemma SuccessShowsDocument(task: Task, ws: seq<World>, es: seq<Event>, k: nat, i: nat)
    requires IsRun(task, ws, es) && k < |ws| && i < |task.doc.runs|
    requires Found(ws[k].store, task.id) && StateOf(ws[k].store, task.id) == OpSucceeded
    ensures WarningsStored(task.src, task.doc, ws[k].tables)
    ensures ScanStored(task.src, task.doc.runs[i], ws[k].tables, i)
    ensures forall j: nat :: j < |task.doc.runs[i].results| ==>
                               ResultStored(task.src, task.doc.runs[i].results[j], ws[k].tables, i, j)
  {
    RunStart(task, ws, es);
    SuccessIsExact(task, ws, es, k);
    HeldScanIsStored(task.src, task.doc, ws[k].tables, i);
    forall j: nat | j < |task.doc.runs[i].results|
      ensures ResultStored(task.src, task.doc.runs[i].results[j], ws[k].tables, i, j)
    {
      assert ResultFits(task.src, task.doc.runs[i].results[j]);
      HeldResultIsStored(task.src, task.doc, ws[k].tables, i, j);
    }
  }
}
