/**
 The CHECK constraints of the record tables, and that no sequence of record
 calls ever stores a row that breaks one. A length is counted in code points,
 an octet length in bytes, and an empty optional text is stored as NULL.
 */
module TableChecks {
  import opened Base
  import opened Text
  import opened Sorting
  import Sarif
  import Finding
  import Correlation
  import Scans
  import Ingestion
  import opened Records
  import opened RecordEffects

  predicate LengthOrNull(s: string, most: nat) { s == "" || 1 <= Runes(s) <= most }

  predicate OctetsOrNull(s: string, most: nat) { s == "" || |s| <= most }

  /** A lower-case letter, then at most `more` letters, digits, dots, underscores and hyphens. */
  predicate NameFormat(s: string, more: nat) {
    && 1 <= |s| <= more + 1 && 'a' <= s[0] <= 'z'
    && forall i :: 0 <= i < |s| ==> 'a' <= s[i] <= 'z' || '0' <= s[i] <= '9' || s[i] in {'.', '_', '-'}
  }

  predicate PositiveOrNull(n: Option<int>) { n.Some? ==> n.value > 0 }

  // ---------------------------------------------------------------------
  // The tables
  // ---------------------------------------------------------------------

  predicate ScanChecks(row: ScanRow) {
    var r := row.record;
    && 3 <= Runes(row.id) <= 128 && 0 <= r.runIndex <= 0x7FFF_FFFF
    && 1 <= Runes(r.tool.name) <= 255 && LengthOrNull(r.tool.fullName, 512) && LengthOrNull(r.tool.version, 128)
    && LengthOrNull(r.tool.semanticVersion, 128) && LengthOrNull(r.automation.id, 512)
    && LengthOrNull(r.automation.guid, 128) && LengthOrNull(r.automation.correlationGuid, 128)
    && NameFormat(r.parserName, 63) && 1 <= Runes(r.parserVersion) <= 64 && 1 <= Runes(r.sourcePointer) <= 1024
    && (r.startedAt.Some? && r.endedAt.Some? ==> r.endedAt.value >= r.startedAt.value)
    && row.recordedAt >= row.receivedAt
  }

  predicate ScopeChecks(scope: Scans.Scope) {
    && 0 < scope.schemaVersion <= 0x7FFF && NameFormat(scope.scannerFamily, 127) && NameFormat(scope.analysisKind, 63)
    && LengthOrNull(scope.instanceId, 128) && LengthOrNull(scope.configurationId, 128)
    && LengthOrNull(scope.configurationHash, 128)
  }

  predicate ObservationChecks(row: ObservationRow) {
    var (r, f) := (row.record, row.record.facts);
    && 3 <= Runes(row.id) <= 128 && r.resultIndex >= 0
    && NameFormat(r.parserName, 63) && 1 <= Runes(r.parserVersion) <= 64 && 1 <= Runes(r.sourcePointer) <= 1024
    && LengthOrNull(f.guid, 128) && LengthOrNull(f.correlationGuid, 128) && LengthOrNull(f.ruleId, 512)
    && (f.ruleIndex.Some? ==> f.ruleIndex.value >= 0)
    && LengthOrNull(f.severity, 64) && LengthOrNull(f.kind, 64) && LengthOrNull(f.baselineState, 64)
    && LengthOrNull(f.messageId, 512) && OctetsOrNull(f.messageText, 1048576)
    && OctetsOrNull(f.messageMarkdown, 1048576) && |f.messageArguments| <= 1000 && row.recordedAt >= row.receivedAt
  }

  predicate LocationChecks(l: Finding.Location) {
    && l.ordinal >= 0 && 1 <= Runes(l.sourcePointer) <= 1024 && OctetsOrNull(l.uri, 1048576)
    && LengthOrNull(l.uriBaseId, 512) && (l.artifactIndex.Some? ==> l.artifactIndex.value >= 0)
    && PositiveOrNull(l.startLine) && PositiveOrNull(l.startColumn)
    && PositiveOrNull(l.endLine) && PositiveOrNull(l.endColumn)
  }

  predicate FingerprintChecks(f: Finding.SourceFingerprint) {
    f.kind in {"complete", "partial"} && 1 <= Runes(f.name) <= 512 && 1 <= |f.value| <= 1048576
  }

  predicate NormalizationChecks(n: Finding.CanonicalNormalization) {
    var l := n.location;
    && NameFormat(n.normalizerName, 63) && 1 <= Runes(n.normalizerVersion) <= 64 && n.category == "unknown"
    && n.severity in {"unknown", "not_applicable", "informational", "low", "medium", "high", "critical"}
    && n.ruleKind in {"unknown", "source"} && (n.ruleKind == "unknown" <==> n.ruleId == "")
    && LengthOrNull(n.ruleId, 512)
    && l.kind in {"unknown", "artifact"} && (l.kind == "artifact" ==> l.uri != "")
    && (l.kind == "unknown" ==>
          && l.uri == "" && l.uriBaseId == "" && l.startLine.None? && l.startColumn.None? && l.endLine.None?
          && l.endColumn.None?)
    && OctetsOrNull(l.uri, 1048576) && LengthOrNull(l.uriBaseId, 512)
    && PositiveOrNull(l.startLine) && PositiveOrNull(l.startColumn)
    && PositiveOrNull(l.endLine) && PositiveOrNull(l.endColumn)
    && (l.startLine.Some? && l.endLine.Some? ==>
          || l.endLine.value > l.startLine.value
          || (&& l.endLine.value == l.startLine.value
              && (l.startColumn.Some? && l.endColumn.Some? ==> l.endColumn.value >= l.startColumn.value)))
  }

  /** At least one and at most nine listed reasons, in the persistence order and none twice. */
  predicate OutcomeChecks(o: Correlation.CanonicalOutcome) {
    && NameFormat(o.algorithm, 63) && 1 <= Runes(o.algorithmVersion) <= 64
    && 1 <= |o.reasons| <= 9
    && (forall i :: 0 <= i < |o.reasons| ==> 0 <= Correlation.ReasonOrder(o.reasons[i]) <= 8)
    && (forall i, j :: 0 <= i < j < |o.reasons| ==>
          Correlation.ReasonOrder(o.reasons[i]) < Correlation.ReasonOrder(o.reasons[j]))
  }

  predicate WarningChecks(w: Sarif.Warning) {
    Runes(w.path) <= 1024 && 0 < w.fieldCount <= 0x7FFF_FFFF && |w.fields| <= 64
  }

  ghost predicate ParsesOk(parses: map<ParseKey, Scans.ParseOutputSpec>) {
    forall k, w :: k in parses && w in parses[k].warnings ==> WarningChecks(w)
  }

  predicate ScansOk(scans: map<ScanKey, ScanRow>) {
    forall k :: k in scans ==> ScanChecks(scans[k]) && ScopeChecks(scans[k].scope.scope)
  }

  ghost predicate ObservationsOk(observations: map<ObservationKey, ObservationRow>) {
    && (forall k :: k in observations ==> ObservationChecks(observations[k]))
    && (forall k, l :: k in observations && l in observations[k].record.locations ==> LocationChecks(l))
    && (forall k, f :: k in observations && f in observations[k].record.fingerprints ==> FingerprintChecks(f))
  }

  predicate NormalizationsOk(normalizations: map<NormalizationKey, NormalizationRow>) {
    forall k :: k in normalizations ==> NormalizationChecks(normalizations[k].record)
  }

  predicate OutcomesOk(outcomes: map<OutcomeKey, OutcomeRow>) {
    forall k :: k in outcomes ==> OutcomeChecks(outcomes[k].record)
  }

  /** Every row satisfies the constraints of its table. */
  ghost predicate Satisfied(t: Tables) {
    && ParsesOk(t.parses) && ScansOk(t.scans) && ObservationsOk(t.observations) && NormalizationsOk(t.normalizations)
    && OutcomesOk(t.outcomes)
  }

  // ---------------------------------------------------------------------
  // Validation implies them
  // ---------------------------------------------------------------------

  lemma NamesFit(s: string, most: nat)
    requires most >= 1 && ValidDomainName(s, most)
    ensures NameFormat(s, most - 1)
  {
  }

  lemma ValidScanFits(spec: Scans.ScanSpec, receivedAt: Instant)
    requires Scans.ValidScan(spec) && spec.recordedAt >= receivedAt && spec.runIndex <= 0x7FFF_FFFF
    requires |spec.parserName| <= 64 && spec.scope.schemaVersion <= 0x7FFF && |spec.scope.analysisKind| <= 64
    ensures ScanChecks(ScanRow(spec.id, Scans.ScanRecord(spec), Scans.ScopeRecord(spec), receivedAt, spec.recordedAt))
    ensures ScopeChecks(Scans.ScopeRecord(spec).scope)
  {
    NamesFit(spec.parserName, 64);
    NamesFit(spec.scope.scannerFamily, 128);
    NamesFit(spec.scope.analysisKind, 64);
  }

  lemma ValidObservationFits(spec: Finding.ObservationSpec, receivedAt: Instant)
    requires Finding.ValidObservation(spec) && spec.recordedAt >= receivedAt
    ensures var row := ObservationRow(spec.id, Finding.CanonicalOf(spec), receivedAt, spec.recordedAt);
            && ObservationChecks(row)
            && (forall l :: l in row.record.locations ==> LocationChecks(l))
            && (forall f :: f in row.record.fingerprints ==> FingerprintChecks(f))
  {
    NamesFit(spec.parserName, 64);
    Finding.OrdinalOrder();
    Finding.FingerprintOrder();
    var locations := Arranged(Finding.OrdinalLess, spec.locations);
    var fingerprints := Arranged(Finding.FingerprintLess, spec.fingerprints);
    forall l | l in locations ensures LocationChecks(l) {
      assert l in multiset(spec.locations);
      assert Finding.ValidLocation(l);
    }
    forall f | f in fingerprints ensures FingerprintChecks(f) {
      assert f in multiset(spec.fingerprints);
      assert Finding.ValidFingerprint(f);
    }
  }

  lemma ValidNormalizationFits(spec: Finding.NormalizationSpec)
    requires Finding.ValidNormalization(spec)
    ensures NormalizationChecks(Finding.NormalizationRecord(spec))
  {
    NamesFit(spec.normalizerName, 64);
    assert "unknown" != "source" && "unknown" != "artifact" by {
      assert |"unknown"| == 7 && |"source"| == 6 && |"artifact"| == 8;
    }
  }

  lemma ValidOutcomeFits(spec: Correlation.UncorrelatedSpec)
    requires Correlation.ValidOutcome(spec)
    ensures OutcomeChecks(Correlation.OutcomeRecord(spec))
  {
    NamesFit(spec.algorithm, 64);
    Correlation.ReasonsOrdered();
    var reasons := Arranged(Correlation.ReasonLess, spec.reasons);
    Correlation.SortedListed(spec.reasons, reasons);
    assert |reasons| == |multiset(reasons)| == |multiset(spec.reasons)| == |spec.reasons|;
    NoTiesMeansStrict(reasons);
  }

  lemma NoTiesMeansStrict(reasons: seq<Correlation.Reason>)
    requires Sorted(Correlation.ReasonLess, reasons) && !HasTie(Correlation.ReasonLess, reasons)
    requires Correlation.AllListed(reasons)
    ensures forall i, j :: 0 <= i < j < |reasons| ==>
                             Correlation.ReasonOrder(reasons[i]) < Correlation.ReasonOrder(reasons[j])
  {
    forall i, j | 0 <= i < j < |reasons|
      ensures Correlation.ReasonOrder(reasons[i]) < Correlation.ReasonOrder(reasons[j])
    {
      assert !TieAt(Correlation.ReasonLess, reasons, j);
      assert !Correlation.ReasonLess(reasons[j], reasons[j - 1]);
    }
  }

  // ---------------------------------------------------------------------
  // Over any sequence of records
  // ---------------------------------------------------------------------

  lemma ParseRowKeepsChecks(parses: map<ParseKey, Scans.ParseOutputSpec>, key: ParseKey, row: Scans.ParseOutputSpec)
    requires ParsesOk(parses) && forall w :: w in row.warnings ==> WarningChecks(w)
    ensures ParsesOk(parses[key := row])
  {
  }

  lemma ParseChanges(t: Tables, spec: Scans.ParseOutputSpec)
    requires RecordParseOutput(t, spec).tables != t
    ensures Scans.ValidParseOutput(spec) && Scans.WarningsInRange(spec.warnings)
    ensures RecordParseOutput(t, spec).tables
            == t.(parses := t.parses[ParseKey(spec.workspace, spec.import_) := spec])
  {
  }

  lemma ParseKeepsChecks(t: Tables, spec: Scans.ParseOutputSpec)
    requires Satisfied(t)
    ensures Satisfied(RecordParseOutput(t, spec).tables)
  {
    if RecordParseOutput(t, spec).tables != t {
      ParseChanges(t, spec);
      forall w | w in spec.warnings ensures WarningChecks(w) {
        assert Scans.ValidWarning(w) && InRange(w.fieldCount);
      }
      ParseRowKeepsChecks(t.parses, ParseKey(spec.workspace, spec.import_), spec);
    }
  }

  lemma ScanRowKeepsChecks(scans: map<ScanKey, ScanRow>, key: ScanKey, row: ScanRow)
    requires ScansOk(scans) && ScanChecks(row) && ScopeChecks(row.scope.scope)
    ensures ScansOk(scans[key := row])
  {
  }

  lemma ScanKeepsChecks(t: Tables, s: Ingestion.Store, spec: Scans.ScanSpec)
    requires Satisfied(t)
    ensures Satisfied(RecordScan(t, s, spec).tables)
  {
    if RecordScan(t, s, spec).tables != t {
      ScanChanges(t, s, spec);
      ScanIsStored(t, s, spec);
      ValidScanFits(spec, CommittedAt(s, spec));
      ScanRowKeepsChecks(t.scans, ScanKeyOf(spec), ScanRow(spec.id, Scans.ScanRecord(spec), Scans.ScopeRecord(spec),
                                                     CommittedAt(s, spec), spec.recordedAt));
    }
  }

  lemma ObservationRowKeepsChecks(observations: map<ObservationKey, ObservationRow>, key: ObservationKey,
                                  row: ObservationRow)
    requires ObservationsOk(observations) && ObservationChecks(row)
    requires forall l :: l in row.record.locations ==> LocationChecks(l)
    requires forall f :: f in row.record.fingerprints ==> FingerprintChecks(f)
    ensures ObservationsOk(observations[key := row])
  {
  }

  lemma ObservationKeepsChecks(t: Tables, spec: Finding.ObservationSpec)
    requires Satisfied(t) && UniqueIds(t)
    ensures Satisfied(RecordObservation(t, spec).tables)
  {
    if RecordObservation(t, spec).tables != t {
      var k := ObservationChanges(t, spec);
      ObservationIsStored(t, spec, k);
      ValidObservationFits(spec, t.scans[k].receivedAt);
      ObservationRowKeepsChecks(t.observations, KeyOf(spec),
                                ObservationRow(spec.id, Finding.CanonicalOf(spec), t.scans[k].receivedAt,
                                               spec.recordedAt));
    }
  }

  lemma NormalizationRowKeepsChecks(normalizations: map<NormalizationKey, NormalizationRow>, key: NormalizationKey,
                                    row: NormalizationRow)
    requires NormalizationsOk(normalizations) && NormalizationChecks(row.record)
    ensures NormalizationsOk(normalizations[key := row])
  {
  }

  lemma NormalizationKeepsChecks(t: Tables, spec: Finding.NormalizationSpec)
    requires Satisfied(t) && UniqueIds(t)
    ensures Satisfied(RecordNormalization(t, spec).tables)
  {
    if RecordNormalization(t, spec).tables != t {
      var k := NormalizationChanges(t, spec);
      NormalizationIsStored(t, spec, k);
      ValidNormalizationFits(spec);
      NormalizationRowKeepsChecks(t.normalizations, NormalizationKeyOf(spec),
                                  NormalizationRow(Finding.NormalizationRecord(spec), spec.normalizedAt));
    }
  }

  lemma OutcomeKeepsChecks(t: Tables, spec: Correlation.UncorrelatedSpec)
    requires Satisfied(t)
    ensures Satisfied(RecordUncorrelated(t, spec).tables)
  {
    if RecordUncorrelated(t, spec).tables != t {
      OutcomeChanges(t, spec);
      OutcomeIsStored(t, spec);
      ValidOutcomeFits(spec);
    }
  }

  lemma CallKeepsChecks(t: Tables, c: Call)
    requires Satisfied(t) && UniqueIds(t)
    ensures Satisfied(After(t, c))
  {
    match c.record
    case Parse(spec) => ParseKeepsChecks(t, spec);
    case Scan(spec) => ScanKeepsChecks(t, c.store, spec);
    case Observation(spec) => ObservationKeepsChecks(t, spec);
    case Normalization(spec) => NormalizationKeepsChecks(t, spec);
    case Uncorrelated(spec) => OutcomeKeepsChecks(t, spec);
  }

  /** Validation and the range tests of the stores cover every constraint: no call ever stores a row that breaks one. */
  lemma {:induction false} RecordsSatisfyChecks(cs: seq<Call>)
    ensures Satisfied(AfterAll(Tables(map[], map[], map[], map[], map[]), cs))
  {
    if cs != [] {
      var front := cs[..|cs| - 1];
      RecordsSatisfyChecks(front);
      RecordsStayInOrder(front);
      CallKeepsChecks(AfterAll(Tables(map[], map[], map[], map[], map[]), front), cs[|cs| - 1]);
    }
  }
}
