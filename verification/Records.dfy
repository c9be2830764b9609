/**
 The insert-if-absent record stores: scans, observations, normalizations and
 correlation outcomes. Each row keeps the canonical record its fingerprint
 covers; a second insert under the same key must carry an equal record.
 */
module Records {
  import opened Base
  import Finding
  import Correlation
  import Scans
  import Ingestion

  datatype Error = Invalid | TimeOrder | Conflict | NotFound | Backend

  datatype ScanKey = ScanKey(workspace: string, import_: string, runIndex: int)

  datatype ScanRow = ScanRow(id: string, record: Scans.CanonicalScan, scope: Scans.CanonicalScope,
                             receivedAt: Instant, recordedAt: Instant)

  datatype ObservationKey = ObservationKey(workspace: string, scan: string, parserName: string, parserVersion: string,
                                           resultIndex: int)

  datatype ObservationRow = ObservationRow(id: string, record: Finding.CanonicalObservation,
                                           receivedAt: Instant, recordedAt: Instant)

  datatype NormalizationKey = NormalizationKey(workspace: string, observation: string, name: string, version: string)

  datatype NormalizationRow = NormalizationRow(record: Finding.CanonicalNormalization, normalizedAt: Instant)

  datatype OutcomeKey = OutcomeKey(workspace: string, observation: string, algorithm: string, version: string)

  datatype OutcomeRow = OutcomeRow(record: Correlation.CanonicalOutcome, evaluatedAt: Instant)

  datatype ParseKey = ParseKey(workspace: string, import_: string)

  datatype Tables = Tables(
    parses: map<ParseKey, Scans.ParseOutputSpec>,
    scans: map<ScanKey, ScanRow>,
    observations: map<ObservationKey, ObservationRow>,
    normalizations: map<NormalizationKey, NormalizationRow>,
    outcomes: map<OutcomeKey, OutcomeRow>)

  datatype Stored = Stored(id: string, at: Instant)

  datatype Outcome<T> = Outcome(tables: Tables, result: Result<T, Error>)

  function ScanKeyOf(spec: Scans.ScanSpec): ScanKey {
    ScanKey(spec.workspace, spec.import_, spec.runIndex)
  }

  function ObservationKeyOf(spec: Finding.ObservationSpec): ObservationKey {
    ObservationKey(spec.workspace, spec.scan, spec.parserName, spec.parserVersion, spec.resultIndex)
  }

  function NormalizationKeyOf(spec: Finding.NormalizationSpec): NormalizationKey {
    NormalizationKey(spec.workspace, spec.observation, spec.normalizerName, spec.normalizerVersion)
  }

  function OutcomeKeyOf(spec: Correlation.UncorrelatedSpec): OutcomeKey {
    OutcomeKey(spec.workspace, spec.observation, spec.algorithm, spec.algorithmVersion)
  }

  predicate ScanIdUsed(t: Tables, ws: string, id: string) {
    exists k :: k in t.scans && k.workspace == ws && t.scans[k].id == id
  }

  predicate ObservationIdUsed(t: Tables, ws: string, id: string) {
    exists k :: k in t.observations && k.workspace == ws && t.observations[k].id == id
  }

  /** The parser diagnostics of one import; the fingerprint leaves out the recording time. */
  function RecordParseOutput(t: Tables, spec: Scans.ParseOutputSpec): Outcome<()> {
    var key := ParseKey(spec.workspace, spec.import_);
    if !Scans.ValidParseOutput(spec) then Outcome(t, Err(Invalid))
    else if key in t.parses then
      if t.parses[key].(recordedAt := spec.recordedAt) == spec then Outcome(t, Ok(())) else Outcome(t, Err(Conflict))
    else if !Scans.WarningsInRange(spec.warnings) then Outcome(t, Err(Backend))
    else Outcome(t.(parses := t.parses[key := spec]), Ok(()))
  }

  /** When the evidence a scan names was committed. */
  function EvidenceAt(s: Ingestion.Store, spec: Scans.ScanSpec): Option<Instant> {
    var k := Ingestion.Key(spec.workspace, spec.import_);
    if && k in s.imports && s.imports[k].terms.application == spec.application
       && k in s.artifacts && s.artifacts[k].id == spec.rawArtifact
       && s.artifacts[k].state == Ingestion.Committed && s.artifacts[k].evidence.Some?
    then Some(1000 * s.artifacts[k].evidence.value.committedAt) else None
  }

  /** Two columns of a scope are narrower than validation allows. */
  predicate ScopeFits(scope: Scans.Scope) { SmallInRange(scope.schemaVersion) && |scope.analysisKind| <= 64 }

  /** One source run of committed evidence. */
  function RecordScan(t: Tables, s: Ingestion.Store, spec: Scans.ScanSpec): Outcome<Stored> {
    var key := ScanKeyOf(spec);
    var receivedAt := EvidenceAt(s, spec);
    if !Scans.ValidScan(spec) then Outcome(t, Err(Invalid))
    else if receivedAt.None? then Outcome(t, Err(NotFound))
    else if spec.recordedAt < receivedAt.value then Outcome(t, Err(TimeOrder))
    else if !InRange(spec.runIndex) || |spec.parserName| > 64 then Outcome(t, Err(Backend))
    else if key in t.scans then
      if t.scans[key].record == Scans.ScanRecord(spec) && t.scans[key].scope == Scans.ScopeRecord(spec)
      then Outcome(t, Ok(Stored(t.scans[key].id, t.scans[key].recordedAt)))
      else Outcome(t, Err(Conflict))
    else if ScanIdUsed(t, spec.workspace, spec.id) || !ScopeFits(spec.scope)
    then Outcome(t, Err(Backend))
    else
      var row := ScanRow(spec.id, Scans.ScanRecord(spec), Scans.ScopeRecord(spec), receivedAt.value, spec.recordedAt);
      Outcome(t.(scans := t.scans[key := row]), Ok(Stored(spec.id, spec.recordedAt)))
  }

  predicate NamesScan(row: ScanRow, spec: Finding.ObservationSpec) {
    && row.id == spec.scan && row.record.workspace == spec.workspace
    && row.record.rawArtifact == spec.rawArtifact
  }

  /** One scanner statement of a recorded scan. */
  ghost function RecordObservation(t: Tables, spec: Finding.ObservationSpec): Outcome<Stored> {
    var key := ObservationKeyOf(spec);
    if !Finding.ValidObservation(spec) then Outcome(t, Err(Invalid))
    else if !exists k :: k in t.scans && NamesScan(t.scans[k], spec) then Outcome(t, Err(NotFound))
    else
      var k :| k in t.scans && NamesScan(t.scans[k], spec);
      var receivedAt := t.scans[k].receivedAt;
      if spec.recordedAt < receivedAt then Outcome(t, Err(TimeOrder))
      else if !Finding.HeadInRange(spec.resultIndex, spec.facts) then Outcome(t, Err(Backend))
      else if key in t.observations then
        if t.observations[key].record == Finding.CanonicalOf(spec)
        then Outcome(t, Ok(Stored(t.observations[key].id, t.observations[key].recordedAt)))
        else Outcome(t, Err(Conflict))
      else if ObservationIdUsed(t, spec.workspace, spec.id) || !Finding.LocationsInRange(spec.locations)
      then Outcome(t, Err(Backend))
      else
        var row := ObservationRow(spec.id, Finding.CanonicalOf(spec), receivedAt, spec.recordedAt);
        Outcome(t.(observations := t.observations[key := row]), Ok(Stored(spec.id, spec.recordedAt)))
  }

  predicate NamesObservation(row: ObservationRow, spec: Finding.NormalizationSpec) {
    row.id == spec.observation && row.record.workspace == spec.workspace
  }

  /** One versioned interpretation of a recorded observation. */
  ghost function RecordNormalization(t: Tables, spec: Finding.NormalizationSpec): Outcome<Stored> {
    var key := NormalizationKeyOf(spec);
    if !Finding.ValidNormalization(spec) then Outcome(t, Err(Invalid))
    else if !exists k :: k in t.observations && NamesObservation(t.observations[k], spec) then Outcome(t, Err(NotFound))
    else
      var k :| k in t.observations && NamesObservation(t.observations[k], spec);
      if spec.normalizedAt < t.observations[k].recordedAt then Outcome(t, Err(TimeOrder))
      else if !Finding.NormalizedInRange(spec.location) then Outcome(t, Err(Backend))
      else if key in t.normalizations then
        if t.normalizations[key].record == Finding.NormalizationRecord(spec)
        then Outcome(t, Ok(Stored(spec.observation, t.normalizations[key].normalizedAt)))
        else Outcome(t, Err(Conflict))
      else
        var row := NormalizationRow(Finding.NormalizationRecord(spec), spec.normalizedAt);
        Outcome(t.(normalizations := t.normalizations[key := row]), Ok(Stored(spec.observation, spec.normalizedAt)))
  }

  /** Why one algorithm version could not correlate a normalized observation. */
  ghost function RecordUncorrelated(t: Tables, spec: Correlation.UncorrelatedSpec): Outcome<()> {
    var key := OutcomeKeyOf(spec);
    var source := NormalizationKey(spec.workspace, spec.observation, spec.normalizerName, spec.normalizerVersion);
    if !Correlation.ValidOutcome(spec) then Outcome(t, Err(Invalid))
    else if source !in t.normalizations then Outcome(t, Err(NotFound))
    else if spec.evaluatedAt < t.normalizations[source].normalizedAt then Outcome(t, Err(TimeOrder))
    else if key in t.outcomes then
      if t.outcomes[key].record == Correlation.OutcomeRecord(spec) then Outcome(t, Ok(()))
      else Outcome(t, Err(Conflict))
    else
      var row := OutcomeRow(Correlation.OutcomeRecord(spec), spec.evaluatedAt);
      Outcome(t.(outcomes := t.outcomes[key := row]), Ok(()))
  }

  /** (workspace, id) is a primary key of scans and of observations, and rows repeat their key's workspace. */
  ghost predicate UniqueIds(t: Tables) {
    && (forall k :: k in t.scans ==> t.scans[k].record.workspace == k.workspace)
    && (forall k :: k in t.observations ==> t.observations[k].record.workspace == k.workspace)
    && (forall a, b | a in t.scans && b in t.scans ::
          a.workspace == b.workspace && t.scans[a].id == t.scans[b].id ==> a == b)
    && (forall a, b | a in t.observations && b in t.observations ::
          a.workspace == b.workspace && t.observations[a].id == t.observations[b].id ==> a == b)
  }

  /** Integer columns hold 32 bits. */
  ghost predicate ColumnsInRange(t: Tables) {
    && (forall k :: k in t.parses ==> Scans.WarningsInRange(t.parses[k].warnings))
    && (forall k :: k in t.scans ==> InRange(t.scans[k].record.runIndex))
    && (forall k :: k in t.observations ==> Finding.RecordInRange(t.observations[k].record))
    && (forall k :: k in t.normalizations ==> Finding.NormalizedInRange(t.normalizations[k].record.location))
  }

  lemma ArrangedInRange(spec: Finding.ObservationSpec, record: Finding.CanonicalObservation)
    requires record == Finding.CanonicalOf(spec) && Finding.HeadInRange(spec.resultIndex, spec.facts)
    ensures Finding.LocationsInRange(record.locations) <==> Finding.LocationsInRange(spec.locations)
  {
    Finding.CanonicalInRangeIff(spec);
  }

  /** The row-by-row inserts of the locations: all of them or, with the first that does not fit, none. */
  method CheckRange(locations: seq<Finding.Location>) returns (ok: bool)
    ensures ok <==> Finding.LocationsInRange(locations)
  {
    for i := 0 to |locations|
      invariant forall j :: 0 <= j < i ==> Finding.LocationInRange(locations[j])
    {
      if !Finding.LocationInRange(locations[i]) {
        return false;
      }
    }
    ok := true;
  }

  // ---------------------------------------------------------------------
  // The tables updated in place
  // ---------------------------------------------------------------------

  class RecordStore {
    var parses: map<ParseKey, Scans.ParseOutputSpec>
    var scans: map<ScanKey, ScanRow>
    var observations: map<ObservationKey, ObservationRow>
    var normalizations: map<NormalizationKey, NormalizationRow>
    var outcomes: map<OutcomeKey, OutcomeRow>

    constructor ()
      ensures View() == Tables(map[], map[], map[], map[], map[])
    {
      parses, scans, observations, normalizations, outcomes := map[], map[], map[], map[], map[];
    }

    function View(): Tables
      reads this
    {
      Tables(parses, scans, observations, normalizations, outcomes)
    }

    method AddParseOutput(spec: Scans.ParseOutputSpec) returns (r: Result<(), Error>)
      modifies this`parses
      ensures Outcome(View(), r) == RecordParseOutput(old(View()), spec)
    {
      if !Scans.ValidParseOutput(spec) {
        return Err(Invalid);
      }
      var key := ParseKey(spec.workspace, spec.import_);
      if key in parses {
        return if parses[key].(recordedAt := spec.recordedAt) == spec then Ok(()) else Err(Conflict);
      }
      if !Scans.WarningsInRange(spec.warnings) {
        return Err(Backend);
      }
      parses := parses[key := spec];
      r := Ok(());
    }

    /** The import tables are read in the same transaction. */
    method AddScan(spec: Scans.ScanSpec, s: Ingestion.Store) returns (r: Result<Stored, Error>)
      requires UniqueIds(View())
      modifies this`scans
      ensures Outcome(View(), r) == RecordScan(old(View()), s, spec)
      ensures UniqueIds(View())
    {
      if !Scans.ValidScan(spec) {
        return Err(Invalid);
      }
      var receivedAt := EvidenceAt(s, spec);
      if receivedAt.None? {
        return Err(NotFound);
      }
      if spec.recordedAt < receivedAt.value {
        return Err(TimeOrder);
      }
      if !InRange(spec.runIndex) || |spec.parserName| > 64 {
        return Err(Backend);
      }
      var key := ScanKeyOf(spec);
      if key in scans {
        var existing := scans[key];
        if existing.record != Scans.ScanRecord(spec) || existing.scope != Scans.ScopeRecord(spec) {
          return Err(Conflict);
        }
        return Ok(Stored(existing.id, existing.recordedAt));
      }
      if ScanIdUsed(View(), spec.workspace, spec.id) || !ScopeFits(spec.scope) {
        return Err(Backend);
      }
      var row := ScanRow(spec.id, Scans.ScanRecord(spec), Scans.ScopeRecord(spec), receivedAt.value, spec.recordedAt);
      scans := scans[key := row];
      r := Ok(Stored(spec.id, spec.recordedAt));
    }

    method FindScan(spec: Finding.ObservationSpec) returns (row: Option<ScanRow>)
      requires UniqueIds(View())
      ensures row.None? <==> !exists k :: k in scans && NamesScan(scans[k], spec)
      ensures row.Some? ==> forall k :: k in scans && NamesScan(scans[k], spec) ==> scans[k] == row.value
    {
      var todo := scans.Keys;
      while todo != {}
        invariant todo <= scans.Keys
        invariant forall k :: k in scans && k !in todo ==> !NamesScan(scans[k], spec)
        decreases todo
      {
        var k :| k in todo;
        if NamesScan(scans[k], spec) {
          return Some(scans[k]);
        }
        todo := todo - {k};
      }
      row := None;
    }

    method AddObservation(spec: Finding.ObservationSpec) returns (r: Result<Stored, Error>)
      requires UniqueIds(View())
      modifies this`observations
      ensures Outcome(View(), r) == RecordObservation(old(View()), spec)
      ensures UniqueIds(View())
    {
      var canonical := Finding.CanonicalizeObservation(spec);
      if canonical.Err? {
        return Err(Invalid);
      }
      var scan := FindScan(spec);
      if scan.None? {
        return Err(NotFound);
      }
      if spec.recordedAt < scan.value.receivedAt {
        return Err(TimeOrder);
      }
      if !Finding.HeadInRange(spec.resultIndex, spec.facts) {
        return Err(Backend);
      }
      var key := ObservationKeyOf(spec);
      if key in observations {
        if observations[key].record != canonical.value {
          return Err(Conflict);
        }
        return Ok(Stored(observations[key].id, observations[key].recordedAt));
      }
      if ObservationIdUsed(View(), spec.workspace, spec.id) {
        return Err(Backend);
      }
      var rowsFit := CheckRange(canonical.value.locations);
      ArrangedInRange(spec, canonical.value);
      if !rowsFit {
        return Err(Backend);
      }
      var row := ObservationRow(spec.id, canonical.value, scan.value.receivedAt, spec.recordedAt);
      observations := observations[key := row];
      r := Ok(Stored(spec.id, spec.recordedAt));
    }

    method FindObservation(spec: Finding.NormalizationSpec) returns (row: Option<ObservationRow>)
      requires UniqueIds(View())
      ensures row.None? <==> !exists k :: k in observations && NamesObservation(observations[k], spec)
      ensures row.Some? ==> forall k :: k in observations && NamesObservation(observations[k], spec)
                                        ==> observations[k] == row.value
    {
      var todo := observations.Keys;
      while todo != {}
        invariant todo <= observations.Keys
        invariant forall k :: k in observations && k !in todo ==> !NamesObservation(observations[k], spec)
        decreases todo
      {
        var k :| k in todo;
        if NamesObservation(observations[k], spec) {
          return Some(observations[k]);
        }
        todo := todo - {k};
      }
      row := None;
    }

    method AddNormalization(spec: Finding.NormalizationSpec) returns (r: Result<Stored, Error>)
      requires UniqueIds(View())
      modifies this`normalizations
      ensures Outcome(View(), r) == RecordNormalization(old(View()), spec)
    {
      if !Finding.ValidNormalization(spec) {
        return Err(Invalid);
      }
      var observation := FindObservation(spec);
      if observation.None? {
        return Err(NotFound);
      }
      if spec.normalizedAt < observation.value.recordedAt {
        return Err(TimeOrder);
      }
      if !Finding.NormalizedInRange(spec.location) {
        return Err(Backend);
      }
      var key := NormalizationKeyOf(spec);
      if key in normalizations {
        if normalizations[key].record != Finding.NormalizationRecord(spec) {
          return Err(Conflict);
        }
        return Ok(Stored(spec.observation, normalizations[key].normalizedAt));
      }
      normalizations := normalizations[key := NormalizationRow(Finding.NormalizationRecord(spec), spec.normalizedAt)];
      r := Ok(Stored(spec.observation, spec.normalizedAt));
    }

    method AddOutcome(spec: Correlation.UncorrelatedSpec) returns (r: Result<(), Error>)
      modifies this`outcomes
      ensures Outcome(View(), r) == RecordUncorrelated(old(View()), spec)
    {
      var canonical := Correlation.CanonicalizeUncorrelated(spec);
      if canonical.Err? {
        return Err(Invalid);
      }
      var source := NormalizationKey(spec.workspace, spec.observation, spec.normalizerName, spec.normalizerVersion);
      if source !in normalizations {
        return Err(NotFound);
      }
      if spec.evaluatedAt < normalizations[source].normalizedAt {
        return Err(TimeOrder);
      }
      var key := OutcomeKeyOf(spec);
      if key in outcomes {
        return if outcomes[key].record == canonical.value then Ok(()) else Err(Conflict);
      }
      outcomes := outcomes[key := OutcomeRow(canonical.value, spec.evaluatedAt)];
      r := Ok(());
    }
  }
}
