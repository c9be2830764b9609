/** Scan records, parser output records, and the mapping of a parsed report onto domain records. */
module Scans {
  import opened Base
  import opened Text
  import Order
  import Sorting
  import Finding
  import Sarif
  import Correlation

  datatype ScanResult = ResultSucceeded | ResultFailed | ResultCancelled | ResultTimedOut | ResultUnknown

  datatype Completeness = Full | Partial | Incremental | CompletenessUnknown

  /** The scope of a scan; coverage is its canonical JSON object. */
  datatype Scope = Scope(
    schemaVersion: int, scannerFamily: string, instanceId: string, configurationId: string, configurationHash: string,
    analysisKind: string, coverage: string)

  datatype ScanSpec = ScanSpec(
    id: string, workspace: string, import_: string, application: string, rawArtifact: string,
    contextImport: string, runIndex: int, result: ScanResult, completeness: Completeness,
    tool: Sarif.Tool, automation: Sarif.Automation,
    parserName: string, parserVersion: string, sourcePointer: string,
    startedAt: Option<Instant>, endedAt: Option<Instant>, recordedAt: Instant, scope: Scope)

  /** What the scan fingerprint covers; neither the candidate id nor the recording time is part of it. */
  datatype CanonicalScan = CanonicalScan(
    workspace: string, import_: string, application: string, rawArtifact: string,
    contextImport: string, runIndex: int, result: ScanResult, completeness: Completeness,
    tool: Sarif.Tool, automation: Sarif.Automation,
    parserName: string, parserVersion: string, sourcePointer: string,
    startedAt: Option<Instant>, endedAt: Option<Instant>)

  /** What the scope fingerprint covers. */
  datatype CanonicalScope = CanonicalScope(application: string, scope: Scope)

  predicate ValidScan(spec: ScanSpec) {
    && ValidOpaqueId(spec.id) && ValidOpaqueId(spec.workspace) && ValidOpaqueId(spec.import_)
    && ValidOpaqueId(spec.application) && ValidOpaqueId(spec.rawArtifact)
    && spec.runIndex >= 0 && spec.recordedAt != 0
    && (spec.contextImport == "" || spec.contextImport == spec.import_)
    && ValidText(spec.tool.name, 1, 255) && ValidOptionalText(spec.tool.fullName, 512)
    && ValidOptionalText(spec.tool.version, 128) && ValidOptionalText(spec.tool.semanticVersion, 128)
    && ValidOptionalText(spec.automation.id, 512) && ValidOptionalText(spec.automation.guid, 128)
    && ValidOptionalText(spec.automation.correlationGuid, 128)
    && ValidDomainName(spec.parserName, 128) && ValidText(spec.parserVersion, 1, 64)
    && ValidText(spec.sourcePointer, 1, 1024)
    && (spec.startedAt.Some? && spec.endedAt.Some? ==> spec.startedAt.value <= spec.endedAt.value)
    && spec.scope.schemaVersion > 0
    && ValidDomainName(spec.scope.scannerFamily, 128) && ValidDomainName(spec.scope.analysisKind, 128)
    && ValidOptionalText(spec.scope.instanceId, 128) && ValidOptionalText(spec.scope.configurationId, 128)
    && ValidOptionalText(spec.scope.configurationHash, 128)
  }

  function ScanRecord(spec: ScanSpec): CanonicalScan {
    CanonicalScan(spec.workspace, spec.import_, spec.application, spec.rawArtifact, spec.contextImport, spec.runIndex,
                  spec.result, spec.completeness, spec.tool, spec.automation, spec.parserName, spec.parserVersion,
                  spec.sourcePointer, spec.startedAt, spec.endedAt)
  }

  function ScopeRecord(spec: ScanSpec): CanonicalScope {
    CanonicalScope(spec.application, spec.scope)
  }

  // ---------------------------------------------------------------------
  // Parser output
  // ---------------------------------------------------------------------

  datatype ParseOutputSpec = ParseOutputSpec(
    workspace: string, import_: string, rawArtifact: string, warnings: seq<Sarif.Warning>, truncated: bool,
    recordedAt: Instant)

  predicate ValidField(field: string) {
    field != "" && |field| <= Finding.MEBIBYTE && NoNul(field)
  }

  predicate ValidWarning(w: Sarif.Warning) {
    && ValidText(w.path, 0, 1024)
    && w.fieldCount > 0 && |w.fields| <= 64 && |w.fields| <= w.fieldCount
    && forall f :: f in w.fields ==> ValidField(f)
  }

  predicate WarningsInRange(warnings: seq<Sarif.Warning>) {
    forall w :: w in warnings ==> InRange(w.fieldCount)
  }

  predicate ValidParseOutput(spec: ParseOutputSpec) {
    && ValidOpaqueId(spec.workspace) && ValidOpaqueId(spec.import_) && ValidOpaqueId(spec.rawArtifact)
    && spec.recordedAt != 0
    && |spec.warnings| <= 1000
    && forall w :: w in spec.warnings ==> ValidWarning(w)
  }

  /** The parser's default limits on warnings. */
  predicate DefaultWarnings(limits: Sarif.Limits) { limits.maxWarnings == 1000 && limits.maxUnsupportedFields == 64 }

  /** The warning for these unmapped members passes validation. */
  predicate Recordable(note: Sarif.Note) {
    ValidText(note.path, 0, 1024) && forall f :: f in note.names && Sarif.Listed(note.names, 64, f) ==> ValidField(f)
  }

  /**
   A warning under the default limits is recordable exactly when the 64 least
   of the unmapped names are: none empty, none with a NUL byte, none over a
   mebibyte.
   */
  lemma WarningRecordableIff(note: Sarif.Note, w: Sarif.Warning)
    requires note.names != {} && Sarif.WarningFor(note.names, note.path, 64, w)
    ensures ValidWarning(w) <==> Recordable(note)
  {
    forall f ensures f in w.fields <==> Sarif.Listed(note.names, 64, f) {
      Sarif.ListsTheLeast(note.names, note.path, 64, w, f);
    }
    assert |note.names| > 0;
  }

  /** The empty name is the least of all, so an object with an unmapped empty name is never recordable. */
  lemma EmptyMemberNameIsRefused(note: Sarif.Note, w: Sarif.Warning)
    requires "" in note.names && Sarif.WarningFor(note.names, note.path, 64, w)
    ensures !ValidWarning(w)
  {
    assert Sarif.Lesser(note.names, "") == {};
    Sarif.ListsTheLeast(note.names, note.path, 64, w, "");
    assert !ValidField("");
  }

  // ---------------------------------------------------------------------
  // Mapping
  // ---------------------------------------------------------------------

  /** The committed evidence of one import. */
  datatype Source = Source(
    workspace: string, import_: string, application: string, rawArtifact: string,
    receivedAt: Instant, hasContext: bool)

  predicate SomeFailed(invocations: seq<Sarif.Invocation>) {
    exists i :: 0 <= i < |invocations| && !invocations[i].executionSuccessful
  }

  /** A run succeeded only if it reports invocations and none of them failed. */
  function RunResult(invocations: seq<Sarif.Invocation>): ScanResult {
    if invocations == [] then ResultUnknown
    else if SomeFailed(invocations) then ResultFailed
    else ResultSucceeded
  }

  method ScanResultOf(invocations: seq<Sarif.Invocation>) returns (result: ScanResult)
    ensures result == RunResult(invocations)
  {
    result := ResultUnknown;
    if |invocations| > 0 {
      result := ResultSucceeded;
      for i := 0 to |invocations|
        invariant result == ResultSucceeded
        invariant forall j :: 0 <= j < i ==> invocations[j].executionSuccessful
      {
        if !invocations[i].executionSuccessful {
          result := ResultFailed;
          break;
        }
      }
    }
  }

  /** Times are kept only for a single invocation, and only when they are in order. */
  function RunTimes(invocations: seq<Sarif.Invocation>): (r: (Option<Instant>, Option<Instant>))
    ensures r.0.Some? && r.1.Some? ==> r.0.value <= r.1.value
  {
    if |invocations| != 1 then (None, None)
    else
      var started, ended := invocations[0].startTime, invocations[0].endTime;
      if started.Some? && ended.Some? && ended.value < started.value then (None, None) else (started, ended)
  }

  function MapScan(source: Source, run: Sarif.Run, id: string, recordedAt: Instant): ScanSpec {
    var times := RunTimes(run.invocations);
    ScanSpec(id, source.workspace, source.import_, source.application, source.rawArtifact,
             if source.hasContext then source.import_ else "", run.index, RunResult(run.invocations),
             CompletenessUnknown, run.tool,
             if run.automation.Some? then run.automation.value else Sarif.Automation("", "", ""),
             Sarif.FORMAT, Sarif.PARSER_VERSION, run.sourcePointer, times.0, times.1, recordedAt,
             Scope(1, "unknown", "", "", "", if source.hasContext then "sast" else "unknown", "{}"))
  }

  function MapLocation(location: Sarif.Location): Finding.Location {
    var region := if location.region.Some? then location.region.value else Sarif.Region(None, None, None, None);
    Finding.Location(location.index, location.sourcePointer, location.uri, location.uriBaseId, location.artifactIndex,
                     region.startLine, region.startColumn, region.endLine, region.endColumn)
  }

  function MapFingerprint(kind: string, value: Sarif.NamedValue): Finding.SourceFingerprint {
    Finding.SourceFingerprint(kind, value.name, value.value)
  }

  function MapLocations(locations: seq<Sarif.Location>): seq<Finding.Location> {
    seq(|locations|, i requires 0 <= i < |locations| => MapLocation(locations[i]))
  }

  function MapFingerprints(result: Sarif.SourceResult): seq<Finding.SourceFingerprint> {
    var complete, partial := result.fingerprints, result.partialFingerprints;
    seq(|complete|, i requires 0 <= i < |complete| => MapFingerprint("complete", complete[i]))
    + seq(|partial|, i requires 0 <= i < |partial| => MapFingerprint("partial", partial[i]))
  }

  function MapFacts(result: Sarif.SourceResult): Finding.Facts {
    Finding.Facts(result.guid, result.correlationGuid, result.ruleId, result.ruleIndex, result.level, result.kind,
                  result.baselineState, result.message.id, result.message.text, result.message.markdown,
                  result.message.arguments, None)
  }

  function MapObservation(source: Source, scan: string, result: Sarif.SourceResult, id: string, recordedAt: Instant)
    : Finding.ObservationSpec
  {
    Finding.ObservationSpec(id, source.workspace, scan, source.rawArtifact, result.index,
                            Sarif.FORMAT, Sarif.PARSER_VERSION, result.sourcePointer, MapFacts(result),
                            MapLocations(result.locations), MapFingerprints(result), recordedAt)
  }

  function MapParseOutput(source: Source, doc: Sarif.Document, recordedAt: Instant): ParseOutputSpec {
    ParseOutputSpec(source.workspace, source.import_, source.rawArtifact, doc.warnings, doc.warningsTruncated,
                    recordedAt)
  }

  /**
   The parser output of a document is recordable exactly when each of the
   first thousand objects with unmapped members is; its other objects, however
   many, only set the flag.
   */
  lemma ParseOutputRecordableIff(source: Source, doc: Sarif.Document, limits: Sarif.Limits, notes: seq<Sarif.Note>,
                                 at: Instant)
    requires ValidOpaqueId(source.workspace) && ValidOpaqueId(source.import_) && ValidOpaqueId(source.rawArtifact)
    requires DefaultWarnings(limits) && Sarif.Shown(notes, limits, doc.warnings, doc.warningsTruncated) && at != 0
    ensures ValidParseOutput(MapParseOutput(source, doc, at))
            <==> forall k :: 0 <= k < |notes| && k < 1000 ==> Recordable(notes[k])
  {
    var n := |doc.warnings|;
    forall k | 0 <= k < n ensures ValidWarning(doc.warnings[k]) <==> Recordable(notes[k]) {
      WarningRecordableIff(notes[k], doc.warnings[k]);
    }
    assert forall k :: 0 <= k < n ==> doc.warnings[k] in doc.warnings;
  }

  // Numbers too large for their columns pass the parser and validation

  predicate PlaceInRange(l: Sarif.Location) {
    && InRange(l.index) && OptionInRange(l.artifactIndex)
    && (l.region.Some? ==>
          && OptionInRange(l.region.value.startLine) && OptionInRange(l.region.value.startColumn)
          && OptionInRange(l.region.value.endLine) && OptionInRange(l.region.value.endColumn))
  }

  /** Every number of a parsed result fits 32 bits. */
  predicate ResultInRange(result: Sarif.SourceResult) {
    && InRange(result.index) && OptionInRange(result.ruleIndex)
    && (forall i :: 0 <= i < |result.locations| ==> PlaceInRange(result.locations[i]))
  }

  predicate DocumentInRange(doc: Sarif.Document) {
    && WarningsInRange(doc.warnings)
    && (forall i :: 0 <= i < |doc.runs| ==> InRange(doc.runs[i].index))
    && (forall i, j :: 0 <= i < |doc.runs| && 0 <= j < |doc.runs[i].results| ==>
          ResultInRange(doc.runs[i].results[j]))
  }

  lemma MappedLocationsInRange(locations: seq<Sarif.Location>)
    ensures Finding.LocationsInRange(MapLocations(locations)) <==>
            forall i :: 0 <= i < |locations| ==> PlaceInRange(locations[i])
  {
    var mapped := MapLocations(locations);
    forall i | 0 <= i < |locations| ensures Finding.LocationInRange(mapped[i]) <==> PlaceInRange(locations[i]) {
    }
    if Finding.LocationsInRange(mapped) {
      forall i | 0 <= i < |locations| ensures PlaceInRange(locations[i]) {
        assert mapped[i] in mapped;
      }
    }
  }

  /** The stored record fits its columns exactly when the parsed result does. */
  lemma ObservationInRangeIff(source: Source, scan: string, result: Sarif.SourceResult, id: string, at: Instant)
    ensures var spec := MapObservation(source, scan, result, id, at);
            && (Finding.HeadInRange(spec.resultIndex, spec.facts) && Finding.LocationsInRange(spec.locations)
                <==> ResultInRange(result))
            && (Finding.RecordInRange(Finding.CanonicalOf(spec)) <==> ResultInRange(result))
  {
    MappedLocationsInRange(result.locations);
    Finding.CanonicalInRangeIff(MapObservation(source, scan, result, id, at));
  }

  lemma FirstKindDiffers(a: string, b: string)
    ensures Finding.FingerprintLess(MapFingerprint("complete", Sarif.NamedValue(a, "")),
                                    MapFingerprint("partial", Sarif.NamedValue(b, "")))
  {
    assert "complete"[0] < "partial"[0];
  }

  /** Mapped locations and fingerprints come strictly in key order, so their keys never collide. */
  lemma MappedInOrder(result: Sarif.SourceResult)
    requires Sarif.ResultAccepted(result)
    ensures var ls, fs := MapLocations(result.locations), MapFingerprints(result);
            && (forall i, j :: 0 <= i < j < |ls| ==> Finding.OrdinalLess(ls[i], ls[j]))
            && (forall i, j :: 0 <= i < j < |fs| ==> Finding.FingerprintLess(fs[i], fs[j]))
  {
    var fs, n := MapFingerprints(result), |result.fingerprints|;
    forall i, j | 0 <= i < j < |fs| ensures Finding.FingerprintLess(fs[i], fs[j]) {
      if j < n {
        assert Order.Less(result.fingerprints[i].name, result.fingerprints[j].name);
      } else if i < n {
        FirstKindDiffers(fs[i].name, fs[j].name);
        assert fs[i].kind == "complete" && fs[j].kind == "partial";
      } else {
        assert Order.Less(result.partialFingerprints[i - n].name, result.partialFingerprints[j - n].name);
      }
    }
  }

  // ---------------------------------------------------------------------
  // Normalization
  // ---------------------------------------------------------------------

  const NORMALIZER_NAME: string := "sarif"
  const NORMALIZER_VERSION: string := "1"

  function NormalizeSeverity(source: string): string {
    match source
    case "none" => "not_applicable"
    case "note" => "low"
    case "warning" => "medium"
    case "error" => "high"
    case _ => "unknown"
  }

  /** The first location of least ordinal. */
  function Primary(locations: seq<Finding.Location>): (p: Finding.Location)
    requires locations != []
    ensures p in locations
    ensures forall l :: l in locations ==> p.ordinal <= l.ordinal
  {
    var n := |locations| - 1;
    if n == 0 then locations[0]
    else
      var p := Primary(locations[..n]);
      assert locations == locations[..n] + [locations[n]];
      if locations[n].ordinal < p.ordinal then locations[n] else p
  }

  function PrimaryLocation(locations: seq<Finding.Location>): Option<Finding.NormalizedLocation> {
    if locations == [] || Primary(locations).uri == "" then None
    else
      var p := Primary(locations);
      Some(Finding.NormalizedLocation("artifact", p.uri, p.uriBaseId, p.startLine, p.startColumn, p.endLine,
                                      p.endColumn))
  }

  /** The minimum-finding loop. */
  method PrimaryArtifactLocation(locations: seq<Finding.Location>) returns (r: Option<Finding.NormalizedLocation>)
    ensures r == PrimaryLocation(locations)
  {
    if |locations| == 0 {
      return None;
    }
    var primary := locations[0];
    for i := 1 to |locations|
      invariant primary == Primary(locations[..i])
    {
      assert locations[..i + 1][..i] == locations[..i];
      if locations[i].ordinal < primary.ordinal {
        primary := locations[i];
      }
    }
    assert locations[..|locations|] == locations;
    if primary.uri == "" {
      return None;
    }
    r := Some(Finding.NormalizedLocation("artifact", primary.uri, primary.uriBaseId, primary.startLine,
                                         primary.startColumn, primary.endLine, primary.endColumn));
  }

  /** With distinct ordinals the chosen location does not depend on the order of the locations. */
  lemma PrimaryOrderIndependent(a: seq<Finding.Location>, b: seq<Finding.Location>)
    requires multiset(a) == multiset(b) && Sorting.Distinct(Finding.OrdinalLess, a)
    ensures PrimaryLocation(a) == PrimaryLocation(b)
  {
    assert |a| == |multiset(a)| == |multiset(b)| == |b|;
    if a != [] {
      var p, q := Primary(a), Primary(b);
      assert p in multiset(b) && q in multiset(a);
      var i :| 0 <= i < |a| && a[i] == p;
      var j :| 0 <= j < |a| && a[j] == q;
      assert p.ordinal == q.ordinal;
    }
  }

  /** Normalize; refused only for observations of another parser. */
  function Normalize(o: Finding.ObservationSpec, at: Instant): Option<Finding.NormalizationSpec> {
    if o.parserName != Sarif.FORMAT || o.parserVersion != Sarif.PARSER_VERSION then None
    else
      var location := PrimaryLocation(o.locations);
      Some(Finding.NormalizationSpec(
             o.workspace, o.id, NORMALIZER_NAME, NORMALIZER_VERSION, "unknown", NormalizeSeverity(o.facts.severity),
             if o.facts.ruleId != "" then "source" else "unknown", o.facts.ruleId,
             if location.Some? then location.value
             else Finding.NormalizedLocation("unknown", "", "", None, None, None, None),
             at))
  }

  /** A normalization repeats numbers of its observation only. */
  lemma NormalizationInRange(o: Finding.ObservationSpec, at: Instant)
    requires Finding.LocationsInRange(o.locations) && Normalize(o, at).Some?
    ensures Finding.NormalizedInRange(Normalize(o, at).value.location)
  {
    if o.locations != [] {
      assert Finding.LocationInRange(Primary(o.locations));
    }
  }

  lemma FixedNames()
    ensures ValidDomainName(NORMALIZER_NAME, 64) && ValidText(NORMALIZER_VERSION, 1, 64)
    ensures ValidDomainName(Sarif.FORMAT, 128) && ValidText(Sarif.PARSER_VERSION, 1, 64)
  {
    assert Runes("1"[1..]) == 0;
  }

  /** A mapped location keeps the order the parser checked. */
  lemma MappedRegionOrder(locations: seq<Sarif.Location>, l: Finding.Location)
    requires forall i :: 0 <= i < |locations| ==> Sarif.LocationAccepted(locations[i])
    requires l in MapLocations(locations)
    ensures Finding.ValidRegionOrder(l.startLine, l.startColumn, l.endLine, l.endColumn)
  {
    var i :| 0 <= i < |locations| && MapLocations(locations)[i] == l;
    assert Sarif.LocationAccepted(locations[i]);
  }

  /**
   Every result the parser accepts and observation validation accepts
   normalizes to a record that normalization validation accepts.
   */
  lemma AcceptedResultNormalizes(source: Source, scan: string, result: Sarif.SourceResult, id: string,
                                 recordedAt: Instant, storedId: string, at: Instant)
    requires Sarif.ResultAccepted(result)
    requires Finding.ValidObservation(MapObservation(source, scan, result, id, recordedAt))
    requires ValidOpaqueId(storedId) && at != 0
    ensures var n := Normalize(MapObservation(source, scan, result, id, recordedAt).(id := storedId), at);
            n.Some? && Finding.ValidNormalization(n.value) && n.value.observation == storedId
  {
    var o := MapObservation(source, scan, result, id, recordedAt);
    FixedNames();
    if o.locations != [] {
      MappedRegionOrder(result.locations, Primary(o.locations));
      assert Finding.ValidLocation(Primary(o.locations));
    }
  }

  /** The dispatch of one normalized observation of an import. */
  function DispatchOf(source: Source, observation: string, at: Instant): Correlation.DispatchSpec {
    Correlation.DispatchSpec(source.workspace, observation, NORMALIZER_NAME, NORMALIZER_VERSION, source.hasContext,
                             if source.hasContext then "sast" else "unknown", "unknown", false, false, at)
  }

  /** Its outcome is always valid: version 1 without an analysis context, version 2 with one. */
  lemma AcceptedResultDispatches(source: Source, observation: string, at: Instant)
    requires ValidOpaqueId(source.workspace) && ValidOpaqueId(observation) && at != 0
    ensures var d := DispatchOf(source, observation, at);
            && !Correlation.DispatchRefused(d)
            && Correlation.ValidOutcome(Correlation.DispatchOutcome(d))
            && Correlation.DispatchOutcome(d).algorithmVersion == (if source.hasContext then "2" else "1")
  {
    FixedNames();
    Correlation.ImportDispatchIsValid(DispatchOf(source, observation, at));
  }
}
