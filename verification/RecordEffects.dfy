/**
 The insert-if-absent stores from the outside: what a first record needs and
 leaves, and what a later record under the same key is told.
 */
module RecordEffects {
  import opened Base
  import Finding
  import Correlation
  import Scans
  import Ingestion
  import opened Records

  // ---------------------------------------------------------------------
  // Parser output and scans
  // ---------------------------------------------------------------------

  lemma ParseIsStored(t: Tables, spec: Scans.ParseOutputSpec)
    requires Scans.ValidParseOutput(spec)
    ensures var o, key := RecordParseOutput(t, spec), ParseKey(spec.workspace, spec.import_);
            if key !in t.parses then
              if forall w :: w in spec.warnings ==> w.fieldCount <= 0x7FFF_FFFF
              then o == Outcome(t.(parses := t.parses[key := spec]), Ok(()))
              else o == Outcome(t, Err(Backend))
            else
              var old_ := t.parses[key];
              && o.tables == t
              && (o.result.Ok? <==>
                    && old_.workspace == spec.workspace && old_.import_ == spec.import_
                    && old_.rawArtifact == spec.rawArtifact && old_.warnings == spec.warnings
                    && old_.truncated == spec.truncated)
              && (o.result.Err? ==> o.result.error == Conflict)
  {
  }

  /** The committed evidence of an import, as a scan names it. */
  predicate Evidence(s: Ingestion.Store, spec: Scans.ScanSpec) {
    var k := Ingestion.Key(spec.workspace, spec.import_);
    && k in s.imports && s.imports[k].terms.application == spec.application
    && k in s.artifacts && s.artifacts[k].id == spec.rawArtifact
    && s.artifacts[k].state == Ingestion.Committed && s.artifacts[k].evidence.Some?
  }

  function CommittedAt(s: Ingestion.Store, spec: Scans.ScanSpec): Instant
    requires Evidence(s, spec)
  {
    1000 * s.artifacts[Ingestion.Key(spec.workspace, spec.import_)].evidence.value.committedAt
  }

  /** A first scan of a run is stored exactly over committed evidence, not before it, under an unused id. */
  lemma ScanIsStored(t: Tables, s: Ingestion.Store, spec: Scans.ScanSpec)
    requires Scans.ValidScan(spec) && ScanKey(spec.workspace, spec.import_, spec.runIndex) !in t.scans
    ensures var o := RecordScan(t, s, spec);
            && (o.result.Ok? <==>
                  && Evidence(s, spec) && spec.recordedAt >= CommittedAt(s, spec)
                  && spec.runIndex <= 0x7FFF_FFFF && spec.scope.schemaVersion <= 0x7FFF
                  && |spec.parserName| <= 64 && |spec.scope.analysisKind| <= 64
                  && (forall k :: k in t.scans ==> k.workspace != spec.workspace || t.scans[k].id != spec.id))
            && (o.result == Err(NotFound) <==> !Evidence(s, spec))
            && (o.result == Err(TimeOrder) <==> Evidence(s, spec) && spec.recordedAt < CommittedAt(s, spec))
            && (o.result.Err? ==> o.tables == t && o.result.error in {NotFound, TimeOrder, Backend})
            && (o.result.Ok? ==>
                  && o.result.value == Stored(spec.id, spec.recordedAt)
                  && o.tables == t.(scans := t.scans[
                                    ScanKey(spec.workspace, spec.import_, spec.runIndex) :=
                                      ScanRow(spec.id, Scans.ScanRecord(spec), Scans.ScopeRecord(spec),
                                              CommittedAt(s, spec), spec.recordedAt)]))
  {
  }

  /** A later one is told the first id and time exactly when its record and scope are the same. */
  lemma ScanRepeats(t: Tables, s: Ingestion.Store, spec: Scans.ScanSpec)
    requires Scans.ValidScan(spec) && ScanKey(spec.workspace, spec.import_, spec.runIndex) in t.scans
    requires Evidence(s, spec) && spec.recordedAt >= CommittedAt(s, spec) && spec.runIndex <= 0x7FFF_FFFF
    requires |spec.parserName| <= 64
    ensures var o := RecordScan(t, s, spec);
            var row := t.scans[ScanKey(spec.workspace, spec.import_, spec.runIndex)];
            && o.tables == t
            && o.result == if row.record == Scans.ScanRecord(spec) && row.scope == Scans.ScopeRecord(spec)
                           then Ok(Stored(row.id, row.recordedAt)) else Err(Conflict)
  {
  }

  // ---------------------------------------------------------------------
  // Observations
  // ---------------------------------------------------------------------

  /** The scan an observation names: by id, in its workspace, over its evidence. */
  predicate IsItsScan(t: Tables, k: ScanKey, spec: Finding.ObservationSpec) {
    && k in t.scans && t.scans[k].id == spec.scan && t.scans[k].record.workspace == spec.workspace
    && t.scans[k].record.rawArtifact == spec.rawArtifact
  }

  lemma OneScan(t: Tables, k: ScanKey, spec: Finding.ObservationSpec)
    requires UniqueIds(t) && IsItsScan(t, k, spec)
    ensures forall j :: j in t.scans && NamesScan(t.scans[j], spec) ==> j == k
  {
  }

  lemma ObservationNeedsScan(t: Tables, spec: Finding.ObservationSpec)
    requires Finding.ValidObservation(spec) && forall k :: !IsItsScan(t, k, spec)
    ensures RecordObservation(t, spec) == Outcome(t, Err(NotFound))
  {
    forall k | k in t.scans ensures !NamesScan(t.scans[k], spec) {
      assert !IsItsScan(t, k, spec);
    }
  }

  function KeyOf(spec: Finding.ObservationSpec): ObservationKey {
    ObservationKey(spec.workspace, spec.scan, spec.parserName, spec.parserVersion, spec.resultIndex)
  }

  predicate Fits32(n: int) { n <= 0x7FFF_FFFF }

  predicate Fits32Option(n: Option<int>) { n.Some? ==> n.value <= 0x7FFF_FFFF }

  /** A first statement of a result is stored exactly when it is not before the evidence, fits, and has an unused id. */
  lemma ObservationIsStored(t: Tables, spec: Finding.ObservationSpec, k: ScanKey)
    requires Finding.ValidObservation(spec) && UniqueIds(t) && IsItsScan(t, k, spec) && KeyOf(spec) !in t.observations
    ensures var o := RecordObservation(t, spec);
            var fits := && Fits32(spec.resultIndex) && Fits32Option(spec.facts.ruleIndex)
                        && Finding.LocationsInRange(spec.locations);
            && (o.result.Ok? <==>
                  && spec.recordedAt >= t.scans[k].receivedAt && fits
                  && (forall j :: j in t.observations ==>
                        j.workspace != spec.workspace || t.observations[j].id != spec.id))
            && (o.result == Err(TimeOrder) <==> spec.recordedAt < t.scans[k].receivedAt)
            && (o.result.Err? ==> o.tables == t && o.result.error in {TimeOrder, Backend})
            && (o.result.Ok? ==>
                  && o.result.value == Stored(spec.id, spec.recordedAt)
                  && o.tables == t.(observations := t.observations[
                                    KeyOf(spec) := ObservationRow(spec.id, Finding.CanonicalOf(spec),
                                                                  t.scans[k].receivedAt, spec.recordedAt)]))
  {
    OneScan(t, k, spec);
    assert NamesScan(t.scans[k], spec);
  }

  lemma ObservationRepeats(t: Tables, spec: Finding.ObservationSpec, k: ScanKey)
    requires Finding.ValidObservation(spec) && UniqueIds(t) && IsItsScan(t, k, spec) && KeyOf(spec) in t.observations
    requires spec.recordedAt >= t.scans[k].receivedAt && Fits32(spec.resultIndex) && Fits32Option(spec.facts.ruleIndex)
    ensures var o, row := RecordObservation(t, spec), t.observations[KeyOf(spec)];
            && o.tables == t
            && o.result == if row.record == Finding.CanonicalOf(spec) then Ok(Stored(row.id, row.recordedAt))
                           else Err(Conflict)
  {
    OneScan(t, k, spec);
    assert NamesScan(t.scans[k], spec);
  }

  // ---------------------------------------------------------------------
  // Normalizations and outcomes
  // ---------------------------------------------------------------------

  predicate IsItsObservation(t: Tables, k: ObservationKey, spec: Finding.NormalizationSpec) {
    k in t.observations && t.observations[k].id == spec.observation
    && t.observations[k].record.workspace == spec.workspace
  }

  lemma OneObservation(t: Tables, k: ObservationKey, spec: Finding.NormalizationSpec)
    requires UniqueIds(t) && IsItsObservation(t, k, spec)
    ensures forall j :: j in t.observations && NamesObservation(t.observations[j], spec) ==> j == k
  {
  }

  lemma NormalizationNeedsObservation(t: Tables, spec: Finding.NormalizationSpec)
    requires Finding.ValidNormalization(spec) && forall k :: !IsItsObservation(t, k, spec)
    ensures RecordNormalization(t, spec) == Outcome(t, Err(NotFound))
  {
    forall k | k in t.observations ensures !NamesObservation(t.observations[k], spec) {
      assert !IsItsObservation(t, k, spec);
    }
  }

  /** A normalization not before its observation is stored once; the same again is told the first time. */
  lemma NormalizationIsStored(t: Tables, spec: Finding.NormalizationSpec, k: ObservationKey)
    requires Finding.ValidNormalization(spec) && UniqueIds(t) && IsItsObservation(t, k, spec)
    ensures var o := RecordNormalization(t, spec);
            var key := NormalizationKey(spec.workspace, spec.observation, spec.normalizerName, spec.normalizerVersion);
            var record := Finding.CanonicalNormalization(
                            spec.workspace, spec.observation, spec.normalizerName, spec.normalizerVersion,
                            spec.category, spec.severity, spec.ruleKind, spec.ruleId, spec.location);
            if spec.normalizedAt < t.observations[k].recordedAt then o == Outcome(t, Err(TimeOrder))
            else if !Finding.NormalizedInRange(spec.location) then o == Outcome(t, Err(Backend))
            else if key !in t.normalizations then
              o == Outcome(t.(normalizations := t.normalizations[key := NormalizationRow(record, spec.normalizedAt)]),
                           Ok(Stored(spec.observation, spec.normalizedAt)))
            else
              o == Outcome(t, if t.normalizations[key].record == record
                              then Ok(Stored(spec.observation, t.normalizations[key].normalizedAt))
                              else Err(Conflict))
  {
    OneObservation(t, k, spec);
    assert NamesObservation(t.observations[k], spec);
  }

  /** An outcome not before its normalization is stored once; the same again succeeds. */
  lemma OutcomeIsStored(t: Tables, spec: Correlation.UncorrelatedSpec)
    requires Correlation.ValidOutcome(spec)
    ensures var o := RecordUncorrelated(t, spec);
            var from := NormalizationKey(spec.workspace, spec.observation, spec.normalizerName, spec.normalizerVersion);
            var key := OutcomeKey(spec.workspace, spec.observation, spec.algorithm, spec.algorithmVersion);
            if from !in t.normalizations then o == Outcome(t, Err(NotFound))
            else if spec.evaluatedAt < t.normalizations[from].normalizedAt then o == Outcome(t, Err(TimeOrder))
            else if key !in t.outcomes then
              o == Outcome(t.(outcomes := t.outcomes[
                              key := OutcomeRow(Correlation.OutcomeRecord(spec), spec.evaluatedAt)]), Ok(()))
            else
              o == Outcome(t, if t.outcomes[key].record == Correlation.OutcomeRecord(spec) then Ok(())
                              else Err(Conflict))
  {
  }

  /** Nothing that validation refuses is stored. */
  lemma InvalidIsRefused(t: Tables, s: Ingestion.Store, p: Scans.ParseOutputSpec, c: Scans.ScanSpec,
                         o: Finding.ObservationSpec, n: Finding.NormalizationSpec, u: Correlation.UncorrelatedSpec)
    ensures !Scans.ValidParseOutput(p) ==> RecordParseOutput(t, p) == Outcome(t, Err(Invalid))
    ensures !Scans.ValidScan(c) ==> RecordScan(t, s, c) == Outcome(t, Err(Invalid))
    ensures !Finding.ValidObservation(o) ==> RecordObservation(t, o) == Outcome(t, Err(Invalid))
    ensures !Finding.ValidNormalization(n) ==> RecordNormalization(t, n) == Outcome(t, Err(Invalid))
    ensures !Correlation.ValidOutcome(u) ==> RecordUncorrelated(t, u) == Outcome(t, Err(Invalid))
  {
  }

  // ---------------------------------------------------------------------
  // Times in order, over any sequence of records
  // ---------------------------------------------------------------------

  /** The scan behind an observation, recorded over the same evidence. */
  ghost predicate HasScanBefore(t: Tables, k: ObservationKey)
    requires k in t.observations
  {
    exists s :: s in t.scans && s.workspace == k.workspace && t.scans[s].id == k.scan
                && t.scans[s].receivedAt == t.observations[k].receivedAt
  }

  ghost predicate HasObservationBefore(t: Tables, k: NormalizationKey)
    requires k in t.normalizations
  {
    exists o :: o in t.observations && o.workspace == k.workspace && t.observations[o].id == k.observation
                && t.observations[o].recordedAt <= t.normalizations[k].normalizedAt
  }

  ghost predicate HasNormalizationBefore(t: Tables, k: OutcomeKey)
    requires k in t.outcomes
  {
    exists n :: n in t.normalizations && n.workspace == k.workspace && n.observation == k.observation
                && t.normalizations[n].normalizedAt <= t.outcomes[k].evaluatedAt
  }

  /** Every record hangs from one that is there and was recorded no later, down from the committed evidence. */
  ghost predicate InOrder(t: Tables) {
    && (forall k :: k in t.scans ==> t.scans[k].receivedAt <= t.scans[k].recordedAt)
    && (forall k :: k in t.observations ==>
          t.observations[k].receivedAt <= t.observations[k].recordedAt && HasScanBefore(t, k))
    && (forall k :: k in t.normalizations ==> HasObservationBefore(t, k))
    && (forall k :: k in t.outcomes ==> HasNormalizationBefore(t, k))
  }

  // One more row of each kind

  lemma ScanAdded(t: Tables, key: ScanKey, row: ScanRow)
    requires InOrder(t) && key !in t.scans && row.receivedAt <= row.recordedAt
    ensures InOrder(t.(scans := t.scans[key := row]))
  {
    var u := t.(scans := t.scans[key := row]);
    forall k | k in u.observations ensures HasScanBefore(u, k) {
      var s :| s in t.scans && s.workspace == k.workspace && t.scans[s].id == k.scan
               && t.scans[s].receivedAt == t.observations[k].receivedAt;
      assert s in u.scans && u.scans[s] == t.scans[s];
    }
    forall k | k in u.normalizations ensures HasObservationBefore(u, k) { assert HasObservationBefore(t, k); }
    forall k | k in u.outcomes ensures HasNormalizationBefore(u, k) { assert HasNormalizationBefore(t, k); }
  }

  lemma ObservationAdded(t: Tables, key: ObservationKey, row: ObservationRow, s: ScanKey)
    requires InOrder(t) && key !in t.observations && row.receivedAt <= row.recordedAt
    requires s in t.scans && s.workspace == key.workspace && t.scans[s].id == key.scan
    requires t.scans[s].receivedAt == row.receivedAt
    ensures InOrder(t.(observations := t.observations[key := row]))
  {
    var u := t.(observations := t.observations[key := row]);
    assert HasScanBefore(u, key);
    forall k | k in u.observations && k != key ensures HasScanBefore(u, k) { assert HasScanBefore(t, k); }
    forall k | k in u.normalizations ensures HasObservationBefore(u, k) {
      var o :| o in t.observations && o.workspace == k.workspace && t.observations[o].id == k.observation
               && t.observations[o].recordedAt <= t.normalizations[k].normalizedAt;
      assert o in u.observations && u.observations[o] == t.observations[o];
    }
    forall k | k in u.outcomes ensures HasNormalizationBefore(u, k) { assert HasNormalizationBefore(t, k); }
  }

  lemma NormalizationAdded(t: Tables, key: NormalizationKey, row: NormalizationRow, o: ObservationKey)
    requires InOrder(t) && key !in t.normalizations
    requires o in t.observations && o.workspace == key.workspace && t.observations[o].id == key.observation
    requires t.observations[o].recordedAt <= row.normalizedAt
    ensures InOrder(t.(normalizations := t.normalizations[key := row]))
  {
    var u := t.(normalizations := t.normalizations[key := row]);
    forall k | k in u.observations ensures HasScanBefore(u, k) { assert HasScanBefore(t, k); }
    assert HasObservationBefore(u, key);
    forall k | k in u.normalizations && k != key ensures HasObservationBefore(u, k) {
      assert HasObservationBefore(t, k);
    }
    forall k | k in u.outcomes ensures HasNormalizationBefore(u, k) {
      var n :| n in t.normalizations && n.workspace == k.workspace && n.observation == k.observation
               && t.normalizations[n].normalizedAt <= t.outcomes[k].evaluatedAt;
      assert n in u.normalizations && u.normalizations[n] == t.normalizations[n];
    }
  }

  lemma OutcomeAdded(t: Tables, key: OutcomeKey, row: OutcomeRow, n: NormalizationKey)
    requires InOrder(t) && key !in t.outcomes
    requires n in t.normalizations && n.workspace == key.workspace && n.observation == key.observation
    requires t.normalizations[n].normalizedAt <= row.evaluatedAt
    ensures InOrder(t.(outcomes := t.outcomes[key := row]))
  {
    var u := t.(outcomes := t.outcomes[key := row]);
    forall k | k in u.observations ensures HasScanBefore(u, k) { assert HasScanBefore(t, k); }
    forall k | k in u.normalizations ensures HasObservationBefore(u, k) { assert HasObservationBefore(t, k); }
    assert HasNormalizationBefore(u, key);
    forall k | k in u.outcomes && k != key ensures HasNormalizationBefore(u, k) { assert HasNormalizationBefore(t, k); }
  }

  lemma ScanIdsUnique(t: Tables, key: ScanKey, row: ScanRow)
    requires UniqueIds(t) && row.record.workspace == key.workspace
    requires forall k :: k in t.scans ==> k.workspace != key.workspace || t.scans[k].id != row.id
    ensures UniqueIds(t.(scans := t.scans[key := row]))
  {
  }

  lemma ObservationIdsUnique(t: Tables, key: ObservationKey, row: ObservationRow)
    requires UniqueIds(t) && row.record.workspace == key.workspace
    requires forall k :: k in t.observations ==> k.workspace != key.workspace || t.observations[k].id != row.id
    ensures UniqueIds(t.(observations := t.observations[key := row]))
  {
  }

  datatype Record =
    | Parse(parse: Scans.ParseOutputSpec)
    | Scan(scan: Scans.ScanSpec)
    | Observation(observation: Finding.ObservationSpec)
    | Normalization(normalization: Finding.NormalizationSpec)
    | Uncorrelated(outcome: Correlation.UncorrelatedSpec)

  /** One record call, against the import tables as they are then. */
  datatype Call = Call(store: Ingestion.Store, record: Record)

  ghost function After(t: Tables, c: Call): Tables {
    match c.record
    case Parse(spec) => RecordParseOutput(t, spec).tables
    case Scan(spec) => RecordScan(t, c.store, spec).tables
    case Observation(spec) => RecordObservation(t, spec).tables
    case Normalization(spec) => RecordNormalization(t, spec).tables
    case Uncorrelated(spec) => RecordUncorrelated(t, spec).tables
  }

  lemma ScanChanges(t: Tables, s: Ingestion.Store, spec: Scans.ScanSpec)
    requires RecordScan(t, s, spec).tables != t
    ensures Scans.ValidScan(spec) && ScanKeyOf(spec) !in t.scans && RecordScan(t, s, spec).result.Ok?
  {
  }

  lemma ScanStaysInOrder(t: Tables, s: Ingestion.Store, spec: Scans.ScanSpec)
    requires InOrder(t) && UniqueIds(t)
    ensures InOrder(RecordScan(t, s, spec).tables) && UniqueIds(RecordScan(t, s, spec).tables)
  {
    if RecordScan(t, s, spec).tables != t {
      ScanChanges(t, s, spec);
      ScanIsStored(t, s, spec);
      var row := ScanRow(spec.id, Scans.ScanRecord(spec), Scans.ScopeRecord(spec), CommittedAt(s, spec),
                         spec.recordedAt);
      ScanAdded(t, ScanKeyOf(spec), row);
      ScanIdsUnique(t, ScanKeyOf(spec), row);
    }
  }

  lemma ObservationChanges(t: Tables, spec: Finding.ObservationSpec) returns (k: ScanKey)
    requires RecordObservation(t, spec).tables != t
    ensures Finding.ValidObservation(spec) && KeyOf(spec) !in t.observations && IsItsScan(t, k, spec)
    ensures RecordObservation(t, spec).result.Ok?
  {
    k :| k in t.scans && NamesScan(t.scans[k], spec);
  }

  lemma ObservationStaysInOrder(t: Tables, spec: Finding.ObservationSpec)
    requires InOrder(t) && UniqueIds(t)
    ensures InOrder(RecordObservation(t, spec).tables) && UniqueIds(RecordObservation(t, spec).tables)
  {
    if RecordObservation(t, spec).tables != t {
      var k := ObservationChanges(t, spec);
      ObservationIsStored(t, spec, k);
      var row := ObservationRow(spec.id, Finding.CanonicalOf(spec), t.scans[k].receivedAt, spec.recordedAt);
      ObservationAdded(t, KeyOf(spec), row, k);
      ObservationIdsUnique(t, KeyOf(spec), row);
    }
  }

  lemma NormalizationChanges(t: Tables, spec: Finding.NormalizationSpec) returns (k: ObservationKey)
    requires RecordNormalization(t, spec).tables != t
    ensures Finding.ValidNormalization(spec) && NormalizationKeyOf(spec) !in t.normalizations
    ensures IsItsObservation(t, k, spec) && Finding.NormalizedInRange(spec.location)
  {
    k :| k in t.observations && NamesObservation(t.observations[k], spec);
  }

  lemma NormalizationStaysInOrder(t: Tables, spec: Finding.NormalizationSpec)
    requires InOrder(t) && UniqueIds(t)
    ensures InOrder(RecordNormalization(t, spec).tables) && UniqueIds(RecordNormalization(t, spec).tables)
  {
    if RecordNormalization(t, spec).tables != t {
      var k := NormalizationChanges(t, spec);
      NormalizationIsStored(t, spec, k);
      NormalizationAdded(t, NormalizationKeyOf(spec),
                         NormalizationRow(Finding.NormalizationRecord(spec), spec.normalizedAt), k);
    }
  }

  lemma OutcomeChanges(t: Tables, spec: Correlation.UncorrelatedSpec)
    requires RecordUncorrelated(t, spec).tables != t
    ensures Correlation.ValidOutcome(spec) && OutcomeKeyOf(spec) !in t.outcomes
  {
  }

  lemma OutcomeStaysInOrder(t: Tables, spec: Correlation.UncorrelatedSpec)
    requires InOrder(t) && UniqueIds(t)
    ensures InOrder(RecordUncorrelated(t, spec).tables) && UniqueIds(RecordUncorrelated(t, spec).tables)
  {
    if RecordUncorrelated(t, spec).tables != t {
      OutcomeChanges(t, spec);
      OutcomeIsStored(t, spec);
      OutcomeAdded(t, OutcomeKeyOf(spec), OutcomeRow(Correlation.OutcomeRecord(spec), spec.evaluatedAt),
                   NormalizationKey(spec.workspace, spec.observation, spec.normalizerName, spec.normalizerVersion));
    }
  }

  lemma ParseStaysInOrder(t: Tables, spec: Scans.ParseOutputSpec)
    requires InOrder(t) && UniqueIds(t)
    ensures InOrder(RecordParseOutput(t, spec).tables) && UniqueIds(RecordParseOutput(t, spec).tables)
  {
    SameRowsInOrder(t, RecordParseOutput(t, spec).tables);
  }

  lemma SameRowsInOrder(t: Tables, u: Tables)
    requires InOrder(t) && UniqueIds(t) && u == t.(parses := u.parses)
    ensures InOrder(u) && UniqueIds(u)
  {
    forall k | k in u.observations ensures HasScanBefore(u, k) { assert HasScanBefore(t, k); }
    forall k | k in u.normalizations ensures HasObservationBefore(u, k) { assert HasObservationBefore(t, k); }
    forall k | k in u.outcomes ensures HasNormalizationBefore(u, k) { assert HasNormalizationBefore(t, k); }
  }

  lemma CallStaysInOrder(t: Tables, c: Call)
    requires InOrder(t) && UniqueIds(t)
    ensures InOrder(After(t, c)) && UniqueIds(After(t, c))
  {
    match c.record
    case Parse(spec) => ParseStaysInOrder(t, spec);
    case Scan(spec) => ScanStaysInOrder(t, c.store, spec);
    case Observation(spec) => ObservationStaysInOrder(t, spec);
    case Normalization(spec) => NormalizationStaysInOrder(t, spec);
    case Uncorrelated(spec) => OutcomeStaysInOrder(t, spec);
  }

  ghost function AfterAll(t: Tables, cs: seq<Call>): Tables {
    if cs == [] then t else After(AfterAll(t, cs[..|cs| - 1]), cs[|cs| - 1])
  }

  /** Whatever is recorded, by whom and at what times, records are never out of order or without their ground. */
  lemma {:induction false} RecordsStayInOrder(cs: seq<Call>)
    ensures var t := AfterAll(Tables(map[], map[], map[], map[], map[]), cs);
            InOrder(t) && UniqueIds(t)
  {
    if cs != [] {
      RecordsStayInOrder(cs[..|cs| - 1]);
      CallStaysInOrder(AfterAll(Tables(map[], map[], map[], map[], map[]), cs[..|cs| - 1]), cs[|cs| - 1]);
    }
  }
}
