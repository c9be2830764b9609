/**
 What one import must leave in the record tables: a plan of keys and contents,
 fixed by the evidence, in which only generated ids and recording times are
 open. Each stage stores one planned row unless it is there already; the lemmas
 say what every stage keeps, whoever runs it and in whatever order.
 */
module ImportPlan {
  import opened Base
  import opened Records
  import Finding
  import Correlation
  import Scans

  datatype ScanContent = ScanContent(record: Scans.CanonicalScan, scope: Scans.CanonicalScope)

  datatype Plan = Plan(
    workspace: string, import_: string,
    parser: string, parserVersion: string,
    normalizer: string, normalizerVersion: string,
    algorithm: string, algorithmVersion: string,
    receivedAt: Instant,
    // the number of results of each run
    results: seq<nat>,
    parse: Scans.ParseOutputSpec,
    scan: nat -> ScanContent,
    // contents depend on the generated id of the row they hang from
    observation: (nat, nat, string) -> Finding.CanonicalObservation,
    normalization: (nat, nat, string) -> Finding.CanonicalNormalization,
    outcome: string -> Correlation.CanonicalOutcome,
    validId: string -> bool)

  predicate WholeMicros(t: Instant) { t % 1000 == 0 }

  predicate Storable(t: Instant) { t > 0 && WholeMicros(t) }

  function ScanSlot(p: Plan, i: nat): ScanKey { ScanKey(p.workspace, p.import_, i) }

  function ObservationSlot(p: Plan, scan: string, j: nat): ObservationKey {
    ObservationKey(p.workspace, scan, p.parser, p.parserVersion, j)
  }

  function NormalizationSlot(p: Plan, observation: string): NormalizationKey {
    NormalizationKey(p.workspace, observation, p.normalizer, p.normalizerVersion)
  }

  function OutcomeSlot(p: Plan, observation: string): OutcomeKey {
    OutcomeKey(p.workspace, observation, p.algorithm, p.algorithmVersion)
  }

  predicate InPlan(p: Plan, i: int, j: int) { 0 <= i < |p.results| && 0 <= j < p.results[i] }

  ghost predicate PlanOk(p: Plan) {
    && p.parse.recordedAt == 0
    && (forall i: nat :: p.scan(i).record.workspace == p.workspace)
    && (forall i: nat, j: nat, scan :: p.observation(i, j, scan).workspace == p.workspace)
  }

  // ---------------------------------------------------------------------
  // Storing one planned row
  // ---------------------------------------------------------------------

  function PutParse(p: Plan, t: Tables, at: Instant): Outcome<()> {
    var key := ParseKey(p.workspace, p.import_);
    if key in t.parses then
      if t.parses[key].(recordedAt := 0) == p.parse then Outcome(t, Ok(())) else Outcome(t, Err(Conflict))
    else Outcome(t.(parses := t.parses[key := p.parse.(recordedAt := at)]), Ok(()))
  }

  function PutScan(p: Plan, t: Tables, i: nat, id: string, at: Instant): Outcome<string> {
    var key := ScanSlot(p, i);
    if key in t.scans then
      if t.scans[key].record == p.scan(i).record && t.scans[key].scope == p.scan(i).scope
      then Outcome(t, Ok(t.scans[key].id)) else Outcome(t, Err(Conflict))
    else if ScanIdUsed(t, p.workspace, id) then Outcome(t, Err(Backend))
    else
      Outcome(t.(scans := t.scans[key := ScanRow(id, p.scan(i).record, p.scan(i).scope, p.receivedAt, at)]), Ok(id))
  }

  function PutObservation(p: Plan, t: Tables, i: nat, j: nat, scan: string, id: string, at: Instant): Outcome<Stored> {
    var key := ObservationSlot(p, scan, j);
    if key in t.observations then
      if t.observations[key].record == p.observation(i, j, scan)
      then Outcome(t, Ok(Stored(t.observations[key].id, t.observations[key].recordedAt)))
      else Outcome(t, Err(Conflict))
    else if ObservationIdUsed(t, p.workspace, id) then Outcome(t, Err(Backend))
    else
      var row := ObservationRow(id, p.observation(i, j, scan), p.receivedAt, at);
      Outcome(t.(observations := t.observations[key := row]), Ok(Stored(id, at)))
  }

  function PutNormalization(p: Plan, t: Tables, i: nat, j: nat, observation: string, at: Instant): Outcome<Instant> {
    var key := NormalizationSlot(p, observation);
    if key in t.normalizations then
      if t.normalizations[key].record == p.normalization(i, j, observation)
      then Outcome(t, Ok(t.normalizations[key].normalizedAt)) else Outcome(t, Err(Conflict))
    else
      var row := NormalizationRow(p.normalization(i, j, observation), at);
      Outcome(t.(normalizations := t.normalizations[key := row]), Ok(at))
  }

  function PutOutcome(p: Plan, t: Tables, observation: string, at: Instant): Outcome<()> {
    var key := OutcomeSlot(p, observation);
    if key in t.outcomes then
      if t.outcomes[key].record == p.outcome(observation) then Outcome(t, Ok(())) else Outcome(t, Err(Conflict))
    else Outcome(t.(outcomes := t.outcomes[key := OutcomeRow(p.outcome(observation), at)]), Ok(()))
  }

  // ---------------------------------------------------------------------
  // What the tables keep
  // ---------------------------------------------------------------------

  predicate ParseOk(p: Plan, t: Tables) {
    var key := ParseKey(p.workspace, p.import_);
    key in t.parses ==> t.parses[key].(recordedAt := 0) == p.parse
  }

  predicate ScanRowOk(p: Plan, i: nat, row: ScanRow) {
    && row.record == p.scan(i).record && row.scope == p.scan(i).scope
    && row.receivedAt == p.receivedAt && p.validId(row.id)
  }

  predicate ScanOk(p: Plan, t: Tables, i: nat) {
    ScanSlot(p, i) in t.scans ==> ScanRowOk(p, i, t.scans[ScanSlot(p, i)])
  }

  predicate ObservationRowOk(p: Plan, i: nat, j: nat, scan: string, row: ObservationRow) {
    row.record == p.observation(i, j, scan) && p.validId(row.id) && Storable(row.recordedAt)
  }

  predicate NormalizationRowOk(p: Plan, i: nat, j: nat, observation: string, row: NormalizationRow) {
    row.record == p.normalization(i, j, observation) && Storable(row.normalizedAt)
  }

  predicate ResultRowsOk(p: Plan, t: Tables, i: nat, j: nat, scan: string, row: ObservationRow) {
    && ObservationRowOk(p, i, j, scan, row)
    && (NormalizationSlot(p, row.id) in t.normalizations ==>
          NormalizationRowOk(p, i, j, row.id, t.normalizations[NormalizationSlot(p, row.id)]))
    && (OutcomeSlot(p, row.id) in t.outcomes ==> t.outcomes[OutcomeSlot(p, row.id)].record == p.outcome(row.id))
  }

  /** Whatever is stored for result j of run i is what is planned for it. */
  predicate ResultOk(p: Plan, t: Tables, i: nat, j: nat) {
    ScanSlot(p, i) in t.scans ==>
      var scan := t.scans[ScanSlot(p, i)].id;
      var key := ObservationSlot(p, scan, j);
      key in t.observations ==> ResultRowsOk(p, t, i, j, scan, t.observations[key])
  }

  /** The foreign keys of the tables. */
  ghost predicate ForeignKeys(t: Tables) {
    && (forall k :: k in t.observations ==> ScanIdUsed(t, k.workspace, k.scan))
    && ObservationsNamed(t)
  }

  ghost predicate ObservationsNamed(t: Tables) {
    && (forall k :: k in t.normalizations ==> ObservationIdUsed(t, k.workspace, k.observation))
    && (forall k :: k in t.outcomes ==> ObservationIdUsed(t, k.workspace, k.observation))
  }

  ghost predicate PlanKept(p: Plan, t: Tables) {
    && ParseOk(p, t)
    && (forall i :: 0 <= i < |p.results| ==> ScanOk(p, t, i))
    && (forall i, j :: InPlan(p, i, j) ==> ResultOk(p, t, i, j))
  }

  ghost predicate TablesOk(p: Plan, t: Tables) {
    UniqueIds(t) && ForeignKeys(t) && PlanKept(p, t)
  }

  /** Rows are only added. */
  ghost predicate Grows(t: Tables, u: Tables) {
    && (forall k :: k in t.parses ==> k in u.parses && u.parses[k] == t.parses[k])
    && (forall k :: k in t.scans ==> k in u.scans && u.scans[k] == t.scans[k])
    && (forall k :: k in t.observations ==> k in u.observations && u.observations[k] == t.observations[k])
    && (forall k :: k in t.normalizations ==> k in u.normalizations && u.normalizations[k] == t.normalizations[k])
    && (forall k :: k in t.outcomes ==> k in u.outcomes && u.outcomes[k] == t.outcomes[k])
  }

  predicate HasScan(p: Plan, t: Tables, i: nat, scan: string) {
    ScanSlot(p, i) in t.scans && t.scans[ScanSlot(p, i)].id == scan
  }

  predicate HasObservation(p: Plan, t: Tables, scan: string, j: nat, stored: Stored) {
    && ObservationSlot(p, scan, j) in t.observations
    && t.observations[ObservationSlot(p, scan, j)].id == stored.id
    && t.observations[ObservationSlot(p, scan, j)].recordedAt == stored.at
  }

  predicate HasNormalization(p: Plan, t: Tables, observation: string, at: Instant) {
    var key := NormalizationSlot(p, observation);
    key in t.normalizations && t.normalizations[key].normalizedAt == at
  }

  // ---------------------------------------------------------------------
  // Every stage keeps it
  // ---------------------------------------------------------------------

  lemma UsedIdsStay(t: Tables, u: Tables, ws: string, id: string)
    requires forall k :: k in t.scans ==> k in u.scans && u.scans[k] == t.scans[k]
    requires forall k :: k in t.observations ==> k in u.observations && u.observations[k] == t.observations[k]
    ensures ScanIdUsed(t, ws, id) ==> ScanIdUsed(u, ws, id)
    ensures ObservationIdUsed(t, ws, id) ==> ObservationIdUsed(u, ws, id)
  {
    if ScanIdUsed(t, ws, id) {
      var k :| k in t.scans && k.workspace == ws && t.scans[k].id == id;
      assert k in u.scans;
    }
    if ObservationIdUsed(t, ws, id) {
      var k :| k in t.observations && k.workspace == ws && t.observations[k].id == id;
      assert k in u.observations;
    }
  }

  lemma ForeignKeysWithScan(t: Tables, key: ScanKey, row: ScanRow)
    requires ForeignKeys(t) && key !in t.scans
    ensures ForeignKeys(t.(scans := t.scans[key := row]))
  {
    var u := t.(scans := t.scans[key := row]);
    forall k | k in u.observations ensures ScanIdUsed(u, k.workspace, k.scan) {
      UsedIdsStay(t, u, k.workspace, k.scan);
    }
    NamedStay(t, u);
  }

  lemma NamedStay(t: Tables, u: Tables)
    requires ObservationsNamed(t) && t.normalizations == u.normalizations && t.outcomes == u.outcomes
    requires forall k :: k in t.scans ==> k in u.scans && u.scans[k] == t.scans[k]
    requires forall k :: k in t.observations ==> k in u.observations && u.observations[k] == t.observations[k]
    ensures ObservationsNamed(u)
  {
    forall k | k in u.normalizations ensures ObservationIdUsed(u, k.workspace, k.observation) {
      UsedIdsStay(t, u, k.workspace, k.observation);
    }
    forall k | k in u.outcomes ensures ObservationIdUsed(u, k.workspace, k.observation) {
      UsedIdsStay(t, u, k.workspace, k.observation);
    }
  }

  lemma ForeignKeysWithObservation(t: Tables, key: ObservationKey, row: ObservationRow)
    requires ForeignKeys(t) && key !in t.observations && ScanIdUsed(t, key.workspace, key.scan)
    ensures ForeignKeys(t.(observations := t.observations[key := row]))
  {
    var u := t.(observations := t.observations[key := row]);
    forall k | k in u.observations ensures ScanIdUsed(u, k.workspace, k.scan) {
      UsedIdsStay(t, u, k.workspace, k.scan);
    }
    NamedStay(t, u);
  }

  /** A row whose observation is stored keeps the foreign keys. */
  lemma ForeignKeysBelow(t: Tables, u: Tables)
    requires ForeignKeys(t) && u.scans == t.scans && u.observations == t.observations
    requires forall k :: k in u.normalizations && k !in t.normalizations ==>
                           ObservationIdUsed(t, k.workspace, k.observation)
    requires forall k :: k in u.outcomes && k !in t.outcomes ==> ObservationIdUsed(t, k.workspace, k.observation)
    ensures ForeignKeys(u)
  {
    forall k | k in u.observations ensures ScanIdUsed(u, k.workspace, k.scan) {
      UsedIdsStay(t, u, k.workspace, k.scan);
    }
    forall k | k in u.normalizations ensures ObservationIdUsed(u, k.workspace, k.observation) {
      UsedIdsStay(t, u, k.workspace, k.observation);
    }
    forall k | k in u.outcomes ensures ObservationIdUsed(u, k.workspace, k.observation) {
      UsedIdsStay(t, u, k.workspace, k.observation);
    }
  }

  // Parser diagnostics

  lemma ParseGrows(p: Plan, t: Tables, at: Instant)
    ensures Grows(t, PutParse(p, t, at).tables)
  {
  }

  lemma ParseKeepsPlan(p: Plan, t: Tables, at: Instant)
    requires PlanOk(p) && PlanKept(p, t)
    ensures PlanKept(p, PutParse(p, t, at).tables)
  {
    var u := PutParse(p, t, at).tables;
    forall i | 0 <= i < |p.results| ensures ScanOk(p, u, i) { assert ScanOk(p, t, i); }
    forall i, j | InPlan(p, i, j) ensures ResultOk(p, u, i, j) { assert ResultOk(p, t, i, j); }
  }

  lemma ParseKeepsIds(p: Plan, t: Tables, at: Instant)
    requires UniqueIds(t)
    ensures UniqueIds(PutParse(p, t, at).tables)
  {
  }

  lemma ParseKeepsForeignKeys(p: Plan, t: Tables, at: Instant)
    requires ForeignKeys(t)
    ensures ForeignKeys(PutParse(p, t, at).tables)
  {
    ForeignKeysBelow(t, PutParse(p, t, at).tables);
  }

  lemma ParseKeepsTables(p: Plan, t: Tables, at: Instant)
    requires PlanOk(p) && TablesOk(p, t)
    ensures TablesOk(p, PutParse(p, t, at).tables)
  {
    ParseKeepsIds(p, t, at);
    ParseKeepsForeignKeys(p, t, at);
    ParseKeepsPlan(p, t, at);
  }

  /** Diagnostics are stored or already there. */
  lemma ParseStored(p: Plan, t: Tables, at: Instant)
    requires PlanOk(p) && TablesOk(p, t)
    ensures var o := PutParse(p, t, at);
            o.result.Ok? && ParseKey(p.workspace, p.import_) in o.tables.parses
  {
    assert ParseOk(p, t);
  }

  // Scans

  lemma ScanGrows(p: Plan, t: Tables, i: nat, id: string, at: Instant)
    ensures Grows(t, PutScan(p, t, i, id, at).tables)
  {
  }

  lemma ScanKeepsIds(p: Plan, t: Tables, i: nat, id: string, at: Instant)
    requires PlanOk(p) && UniqueIds(t)
    ensures UniqueIds(PutScan(p, t, i, id, at).tables)
  {
  }

  lemma ScanKeepsForeignKeys(p: Plan, t: Tables, i: nat, id: string, at: Instant)
    requires ForeignKeys(t)
    ensures ForeignKeys(PutScan(p, t, i, id, at).tables)
  {
    if ScanSlot(p, i) !in t.scans {
      ForeignKeysWithScan(t, ScanSlot(p, i), ScanRow(id, p.scan(i).record, p.scan(i).scope, p.receivedAt, at));
    }
  }

  /** A scan under an unused id brings no observation with it. */
  lemma ScanInserted(p: Plan, t: Tables, i: nat, row: ScanRow)
    requires PlanKept(p, t) && ForeignKeys(t) && ScanRowOk(p, i, row) && !ScanIdUsed(t, p.workspace, row.id)
    ensures PlanKept(p, t.(scans := t.scans[ScanSlot(p, i) := row]))
  {
    var u := t.(scans := t.scans[ScanSlot(p, i) := row]);
    forall a | 0 <= a < |p.results| ensures ScanOk(p, u, a) { assert ScanOk(p, t, a); }
    forall a, b | InPlan(p, a, b) ensures ResultOk(p, u, a, b) {
      assert ResultOk(p, t, a, b);
      assert ObservationSlot(p, row.id, b) !in t.observations;
    }
  }

  lemma ScanKeepsPlan(p: Plan, t: Tables, i: nat, id: string, at: Instant)
    requires ForeignKeys(t) && PlanKept(p, t) && p.validId(id)
    ensures PlanKept(p, PutScan(p, t, i, id, at).tables)
  {
    if ScanSlot(p, i) !in t.scans && !ScanIdUsed(t, p.workspace, id) {
      ScanInserted(p, t, i, ScanRow(id, p.scan(i).record, p.scan(i).scope, p.receivedAt, at));
    }
  }

  lemma ScanKeepsTables(p: Plan, t: Tables, i: nat, id: string, at: Instant)
    requires PlanOk(p) && TablesOk(p, t) && p.validId(id)
    ensures TablesOk(p, PutScan(p, t, i, id, at).tables)
  {
    ScanKeepsIds(p, t, i, id, at);
    ScanKeepsForeignKeys(p, t, i, id, at);
    ScanKeepsPlan(p, t, i, id, at);
  }

  /** The scan is stored or already there; only a clash of generated ids stops it. */
  lemma ScanStored(p: Plan, t: Tables, i: nat, id: string, at: Instant)
    requires ScanOk(p, t, i)
    ensures var o := PutScan(p, t, i, id, at);
            && (o.result.Err? ==> o.result.error == Backend)
            && (o.result.Ok? ==> HasScan(p, o.tables, i, o.result.value))
  {
  }

  // Observations

  lemma ObservationGrows(p: Plan, t: Tables, i: nat, j: nat, scan: string, id: string, at: Instant)
    ensures Grows(t, PutObservation(p, t, i, j, scan, id, at).tables)
  {
  }

  lemma ObservationKeepsIds(p: Plan, t: Tables, i: nat, j: nat, scan: string, id: string, at: Instant)
    requires PlanOk(p) && UniqueIds(t)
    ensures UniqueIds(PutObservation(p, t, i, j, scan, id, at).tables)
  {
  }

  lemma ObservationKeepsForeignKeys(p: Plan, t: Tables, i: nat, j: nat, scan: string, id: string, at: Instant)
    requires ForeignKeys(t) && HasScan(p, t, i, scan)
    ensures ForeignKeys(PutObservation(p, t, i, j, scan, id, at).tables)
  {
    assert ScanIdUsed(t, p.workspace, scan);
    if ObservationSlot(p, scan, j) !in t.observations {
      var row := ObservationRow(id, p.observation(i, j, scan), p.receivedAt, at);
      ForeignKeysWithObservation(t, ObservationSlot(p, scan, j), row);
    }
  }

  /** An observation under an unused id brings no normalization and no outcome with it. */
  lemma ObservationInserted(p: Plan, t: Tables, i: nat, j: nat, scan: string, row: ObservationRow)
    requires PlanKept(p, t) && ForeignKeys(t) && UniqueIds(t) && HasScan(p, t, i, scan)
    requires ObservationRowOk(p, i, j, scan, row) && !ObservationIdUsed(t, p.workspace, row.id)
    ensures PlanKept(p, t.(observations := t.observations[ObservationSlot(p, scan, j) := row]))
  {
    var u := t.(observations := t.observations[ObservationSlot(p, scan, j) := row]);
    assert NormalizationSlot(p, row.id) !in t.normalizations && OutcomeSlot(p, row.id) !in t.outcomes;
    forall a | 0 <= a < |p.results| ensures ScanOk(p, u, a) { assert ScanOk(p, t, a); }
    forall a, b | InPlan(p, a, b) ensures ResultOk(p, u, a, b) {
      assert ResultOk(p, t, a, b);
      if HasScan(p, t, a, scan) {
        assert ScanSlot(p, a) == ScanSlot(p, i);
      }
    }
  }

  lemma ObservationKeepsPlan(p: Plan, t: Tables, i: nat, j: nat, scan: string, id: string, at: Instant)
    requires TablesOk(p, t) && HasScan(p, t, i, scan) && p.validId(id) && Storable(at)
    ensures PlanKept(p, PutObservation(p, t, i, j, scan, id, at).tables)
  {
    if ObservationSlot(p, scan, j) !in t.observations && !ObservationIdUsed(t, p.workspace, id) {
      ObservationInserted(p, t, i, j, scan, ObservationRow(id, p.observation(i, j, scan), p.receivedAt, at));
    }
  }

  lemma ObservationKeepsTables(p: Plan, t: Tables, i: nat, j: nat, scan: string, id: string, at: Instant)
    requires PlanOk(p) && TablesOk(p, t) && HasScan(p, t, i, scan) && p.validId(id) && Storable(at)
    ensures TablesOk(p, PutObservation(p, t, i, j, scan, id, at).tables)
  {
    ObservationKeepsIds(p, t, i, j, scan, id, at);
    ObservationKeepsForeignKeys(p, t, i, j, scan, id, at);
    ObservationKeepsPlan(p, t, i, j, scan, id, at);
  }

  lemma ObservationStored(p: Plan, t: Tables, i: nat, j: nat, scan: string, id: string, at: Instant)
    requires HasScan(p, t, i, scan) && ResultOk(p, t, i, j)
    ensures var o := PutObservation(p, t, i, j, scan, id, at);
            && (o.result.Err? ==> o.result.error == Backend)
            && (o.result.Ok? ==> HasObservation(p, o.tables, scan, j, o.result.value))
  {
  }

  // Normalizations

  predicate Owns(p: Plan, t: Tables, scan: string, j: nat, observation: string) {
    ObservationSlot(p, scan, j) in t.observations && t.observations[ObservationSlot(p, scan, j)].id == observation
  }

  /** The result an observation id belongs to is unique. */
  lemma ResultOfId(p: Plan, t: Tables, i: nat, j: nat, scan: string, a: nat, b: nat, scan': string,
                   observation: string)
    requires UniqueIds(t) && HasScan(p, t, i, scan) && HasScan(p, t, a, scan')
    requires Owns(p, t, scan, j, observation) && Owns(p, t, scan', b, observation)
    ensures a == i && b == j
  {
    assert ObservationSlot(p, scan, j) == ObservationSlot(p, scan', b);
    assert ScanSlot(p, i) == ScanSlot(p, a);
  }

  lemma NormalizationGrows(p: Plan, t: Tables, i: nat, j: nat, observation: string, at: Instant)
    ensures Grows(t, PutNormalization(p, t, i, j, observation, at).tables)
  {
  }

  lemma NormalizationKeepsForeignKeys(p: Plan, t: Tables, i: nat, j: nat, scan: string, observation: string,
                                      at: Instant)
    requires ForeignKeys(t) && Owns(p, t, scan, j, observation)
    ensures ForeignKeys(PutNormalization(p, t, i, j, observation, at).tables)
  {
    assert ObservationIdUsed(t, p.workspace, observation);
    ForeignKeysBelow(t, PutNormalization(p, t, i, j, observation, at).tables);
  }

  lemma NormalizationInserted(p: Plan, t: Tables, i: nat, j: nat, scan: string, observation: string,
                              row: NormalizationRow)
    requires PlanKept(p, t) && UniqueIds(t) && HasScan(p, t, i, scan) && Owns(p, t, scan, j, observation)
    requires NormalizationRowOk(p, i, j, observation, row)
    ensures PlanKept(p, t.(normalizations := t.normalizations[NormalizationSlot(p, observation) := row]))
  {
    var u := t.(normalizations := t.normalizations[NormalizationSlot(p, observation) := row]);
    forall a | 0 <= a < |p.results| ensures ScanOk(p, u, a) { assert ScanOk(p, t, a); }
    forall a, b | InPlan(p, a, b) ensures ResultOk(p, u, a, b) {
      assert ResultOk(p, t, a, b);
      if ScanSlot(p, a) in t.scans && Owns(p, t, t.scans[ScanSlot(p, a)].id, b, observation) {
        ResultOfId(p, t, i, j, scan, a, b, t.scans[ScanSlot(p, a)].id, observation);
      }
    }
  }

  lemma NormalizationKeepsPlan(p: Plan, t: Tables, i: nat, j: nat, scan: string, observation: string, at: Instant)
    requires TablesOk(p, t) && HasScan(p, t, i, scan) && Owns(p, t, scan, j, observation) && Storable(at)
    ensures PlanKept(p, PutNormalization(p, t, i, j, observation, at).tables)
  {
    if NormalizationSlot(p, observation) !in t.normalizations {
      NormalizationInserted(p, t, i, j, scan, observation, NormalizationRow(p.normalization(i, j, observation), at));
    }
  }

  lemma NormalizationKeepsIds(p: Plan, t: Tables, i: nat, j: nat, observation: string, at: Instant)
    requires UniqueIds(t)
    ensures UniqueIds(PutNormalization(p, t, i, j, observation, at).tables)
  {
  }

  lemma NormalizationKeepsTables(p: Plan, t: Tables, i: nat, j: nat, scan: string, observation: string, at: Instant)
    requires TablesOk(p, t) && HasScan(p, t, i, scan) && Owns(p, t, scan, j, observation) && Storable(at)
    ensures TablesOk(p, PutNormalization(p, t, i, j, observation, at).tables)
  {
    NormalizationKeepsForeignKeys(p, t, i, j, scan, observation, at);
    NormalizationKeepsIds(p, t, i, j, observation, at);
    NormalizationKeepsPlan(p, t, i, j, scan, observation, at);
  }

  lemma NormalizationStored(p: Plan, t: Tables, i: nat, j: nat, scan: string, observation: string, at: Instant)
    requires HasScan(p, t, i, scan) && ResultOk(p, t, i, j) && Owns(p, t, scan, j, observation)
    ensures var o := PutNormalization(p, t, i, j, observation, at);
            o.result.Ok? && HasNormalization(p, o.tables, observation, o.result.value)
  {
  }

  // Outcomes

  lemma OutcomeGrows(p: Plan, t: Tables, observation: string, at: Instant)
    ensures Grows(t, PutOutcome(p, t, observation, at).tables)
  {
  }

  lemma OutcomeKeepsForeignKeys(p: Plan, t: Tables, scan: string, j: nat, observation: string, at: Instant)
    requires ForeignKeys(t) && Owns(p, t, scan, j, observation)
    ensures ForeignKeys(PutOutcome(p, t, observation, at).tables)
  {
    assert ObservationIdUsed(t, p.workspace, observation);
    ForeignKeysBelow(t, PutOutcome(p, t, observation, at).tables);
  }

  lemma OutcomeKeepsPlan(p: Plan, t: Tables, observation: string, at: Instant)
    requires PlanKept(p, t)
    ensures PlanKept(p, PutOutcome(p, t, observation, at).tables)
  {
    var u := PutOutcome(p, t, observation, at).tables;
    forall a | 0 <= a < |p.results| ensures ScanOk(p, u, a) { assert ScanOk(p, t, a); }
    forall a, b | InPlan(p, a, b) ensures ResultOk(p, u, a, b) { assert ResultOk(p, t, a, b); }
  }

  lemma OutcomeKeepsIds(p: Plan, t: Tables, observation: string, at: Instant)
    requires UniqueIds(t)
    ensures UniqueIds(PutOutcome(p, t, observation, at).tables)
  {
  }

  lemma OutcomeKeepsTables(p: Plan, t: Tables, scan: string, j: nat, observation: string, at: Instant)
    requires TablesOk(p, t) && Owns(p, t, scan, j, observation)
    ensures TablesOk(p, PutOutcome(p, t, observation, at).tables)
  {
    OutcomeKeepsForeignKeys(p, t, scan, j, observation, at);
    OutcomeKeepsIds(p, t, observation, at);
    OutcomeKeepsPlan(p, t, observation, at);
  }

  lemma OutcomeStored(p: Plan, t: Tables, i: nat, j: nat, scan: string, observation: string, at: Instant)
    requires HasScan(p, t, i, scan) && ResultOk(p, t, i, j) && Owns(p, t, scan, j, observation)
    ensures var o := PutOutcome(p, t, observation, at);
            o.result.Ok? && OutcomeSlot(p, observation) in o.tables.outcomes
  {
  }

  // ---------------------------------------------------------------------
  // How far the plan is carried out
  // ---------------------------------------------------------------------

  /** All records of one result are stored. */
  predicate ResultDone(p: Plan, t: Tables, i: nat, j: nat) {
    && ScanSlot(p, i) in t.scans
    && var key := ObservationSlot(p, t.scans[ScanSlot(p, i)].id, j);
       && key in t.observations
       && NormalizationSlot(p, t.observations[key].id) in t.normalizations
       && OutcomeSlot(p, t.observations[key].id) in t.outcomes
  }

  predicate Earlier(a: int, b: int, i: int, j: int) { a < i || (a == i && b < j) }

  /** Everything planned before result j of run i is stored. */
  ghost predicate DoneBefore(p: Plan, t: Tables, i: nat, j: nat) {
    && ParseKey(p.workspace, p.import_) in t.parses
    && (forall a :: 0 <= a < i && a < |p.results| ==> ScanSlot(p, a) in t.scans)
    && (forall a, b :: InPlan(p, a, b) && Earlier(a, b, i, j) ==> ResultDone(p, t, a, b))
  }

  ghost predicate AllDone(p: Plan, t: Tables) { DoneBefore(p, t, |p.results|, 0) }

  lemma DoneBeforeGrows(p: Plan, t: Tables, u: Tables, i: nat, j: nat)
    requires DoneBefore(p, t, i, j) && Grows(t, u)
    ensures DoneBefore(p, u, i, j)
  {
    forall a, b | InPlan(p, a, b) && Earlier(a, b, i, j) ensures ResultDone(p, u, a, b) {
      assert ResultDone(p, t, a, b);
    }
  }

  lemma RunDone(p: Plan, t: Tables, i: nat)
    requires i < |p.results| && DoneBefore(p, t, i, p.results[i]) && ScanSlot(p, i) in t.scans
    ensures DoneBefore(p, t, i + 1, 0)
  {
    forall a, b | InPlan(p, a, b) && Earlier(a, b, i + 1, 0) ensures ResultDone(p, t, a, b) {
      assert Earlier(a, b, i, p.results[i]);
    }
  }

  lemma OneMoreDone(p: Plan, t: Tables, i: nat, j: nat)
    requires InPlan(p, i, j) && DoneBefore(p, t, i, j) && ResultDone(p, t, i, j)
    ensures DoneBefore(p, t, i, j + 1)
  {
    forall a, b | InPlan(p, a, b) && Earlier(a, b, i, j + 1) ensures ResultDone(p, t, a, b) {
      assert Earlier(a, b, i, j) || (a == i && b == j);
    }
  }

  // ---------------------------------------------------------------------
  // Nothing else is stored
  // ---------------------------------------------------------------------

  ghost predicate PlannedScan(p: Plan, k: ScanKey) {
    exists i :: 0 <= i < |p.results| && k == ScanSlot(p, i)
  }

  ghost predicate PlannedObservation(p: Plan, t: Tables, k: ObservationKey) {
    exists i, j ::
      InPlan(p, i, j) && ScanSlot(p, i) in t.scans && k == ObservationSlot(p, t.scans[ScanSlot(p, i)].id, j)
  }

  ghost predicate PlannedId(p: Plan, t: Tables, observation: string) {
    exists k :: k in t.observations && PlannedObservation(p, t, k) && t.observations[k].id == observation
  }

  predicate OurScan(p: Plan, k: ScanKey) { k.workspace == p.workspace && k.import_ == p.import_ }

  predicate OurScanId(p: Plan, t: Tables, id: string) {
    exists k :: k in t.scans && OurScan(p, k) && t.scans[k].id == id
  }

  /** The observation hangs from a scan of this import. */
  predicate OurObservation(p: Plan, t: Tables, k: ObservationKey) {
    k.workspace == p.workspace && OurScanId(p, t, k.scan)
  }

  predicate OurObservationId(p: Plan, t: Tables, id: string) {
    exists k :: k in t.observations && OurObservation(p, t, k) && t.observations[k].id == id
  }

  predicate OurNormalization(p: Plan, t: Tables, k: NormalizationKey) {
    k.workspace == p.workspace && OurObservationId(p, t, k.observation)
  }

  predicate OurOutcome(p: Plan, t: Tables, k: OutcomeKey) {
    k.workspace == p.workspace && OurObservationId(p, t, k.observation)
  }

  /** Every row of this import is a planned one. */
  ghost predicate OnlyPlanned(p: Plan, t: Tables) {
    && (forall k :: k in t.scans && OurScan(p, k) ==> PlannedScan(p, k))
    && (forall k :: k in t.observations && OurObservation(p, t, k) ==> PlannedObservation(p, t, k))
    && (forall k :: k in t.normalizations && OurNormalization(p, t, k) ==> k == NormalizationSlot(p, k.observation))
    && (forall k :: k in t.outcomes && OurOutcome(p, t, k) ==> k == OutcomeSlot(p, k.observation))
  }

  /** The rows of this import alone. */
  function Ours(p: Plan, t: Tables): Tables {
    Tables(map k | k in t.parses && k == ParseKey(p.workspace, p.import_) :: t.parses[k],
           map k | k in t.scans && OurScan(p, k) :: t.scans[k],
           map k | k in t.observations && OurObservation(p, t, k) :: t.observations[k],
           map k | k in t.normalizations && OurNormalization(p, t, k) :: t.normalizations[k],
           map k | k in t.outcomes && OurOutcome(p, t, k) :: t.outcomes[k])
  }

  // A row that was there before hangs from this import only if it did before.

  lemma OurScanIdBefore(p: Plan, t: Tables, u: Tables, id: string)
    requires Grows(t, u) && UniqueIds(u) && ScanIdUsed(t, p.workspace, id) && OurScanId(p, u, id)
    ensures OurScanId(p, t, id)
  {
    var k :| k in t.scans && k.workspace == p.workspace && t.scans[k].id == id;
    var o :| o in u.scans && OurScan(p, o) && u.scans[o].id == id;
    assert k == o;
  }

  lemma OurObservationBefore(p: Plan, t: Tables, u: Tables, k: ObservationKey)
    requires Grows(t, u) && UniqueIds(u) && ForeignKeys(t) && k in t.observations && OurObservation(p, u, k)
    ensures OurObservation(p, t, k)
  {
    OurScanIdBefore(p, t, u, k.scan);
  }

  lemma OurObservationIdBefore(p: Plan, t: Tables, u: Tables, id: string)
    requires Grows(t, u) && UniqueIds(u) && ForeignKeys(t)
    requires ObservationIdUsed(t, p.workspace, id) && OurObservationId(p, u, id)
    ensures OurObservationId(p, t, id)
  {
    var k :| k in t.observations && k.workspace == p.workspace && t.observations[k].id == id;
    var o :| o in u.observations && OurObservation(p, u, o) && u.observations[o].id == id;
    assert k == o;
    OurObservationBefore(p, t, u, k);
  }

  lemma PlannedGrows(p: Plan, t: Tables, u: Tables, k: ObservationKey)
    requires Grows(t, u) && PlannedObservation(p, t, k)
    ensures PlannedObservation(p, u, k)
  {
    var i, j :| InPlan(p, i, j) && ScanSlot(p, i) in t.scans && k == ObservationSlot(p, t.scans[ScanSlot(p, i)].id, j);
    assert ScanSlot(p, i) in u.scans;
  }

  /** What one stage may add. */
  ghost predicate AddsPlanned(p: Plan, t: Tables, u: Tables) {
    && (forall k :: k in u.parses ==> k in t.parses || k == ParseKey(p.workspace, p.import_))
    && (forall k :: k in u.scans ==> k in t.scans || PlannedScan(p, k))
    && (forall k :: k in u.observations ==> k in t.observations || PlannedObservation(p, t, k))
    && (forall k :: k in u.normalizations ==>
          k in t.normalizations || (k == NormalizationSlot(p, k.observation) && PlannedId(p, t, k.observation)))
    && (forall k :: k in u.outcomes ==>
          k in t.outcomes || (k == OutcomeSlot(p, k.observation) && PlannedId(p, t, k.observation)))
  }

  /** What a transaction of another import may add: rows that hang from nothing of this one. */
  ghost predicate AddsForeign(p: Plan, t: Tables, u: Tables) {
    && (forall k :: k in u.parses ==> k in t.parses || k != ParseKey(p.workspace, p.import_))
    && (forall k :: k in u.scans ==> k in t.scans || !OurScan(p, k))
    && (forall k :: k in u.observations ==> k in t.observations || !OurObservation(p, u, k))
    && (forall k :: k in u.normalizations ==> k in t.normalizations || !OurNormalization(p, u, k))
    && (forall k :: k in u.outcomes ==> k in t.outcomes || !OurOutcome(p, u, k))
  }

  /** Any number of rows of other imports, within the constraints of the tables. */
  ghost predicate Foreign(p: Plan, t: Tables, u: Tables) {
    Grows(t, u) && UniqueIds(u) && ForeignKeys(u) && ColumnsInRange(u) && AddsForeign(p, t, u)
  }

  /** Scans and observations of this import stay planned under either kind of addition. */
  lemma OnlyPlannedObservations(p: Plan, t: Tables, u: Tables)
    requires OnlyPlanned(p, t) && Grows(t, u) && UniqueIds(u) && ForeignKeys(t)
    requires AddsPlanned(p, t, u) || AddsForeign(p, t, u)
    ensures forall k :: k in u.scans && OurScan(p, k) ==> PlannedScan(p, k)
    ensures forall k :: k in u.observations && OurObservation(p, u, k) ==> PlannedObservation(p, u, k)
  {
    forall k | k in u.observations && OurObservation(p, u, k) ensures PlannedObservation(p, u, k) {
      if k in t.observations {
        OurObservationBefore(p, t, u, k);
      }
      PlannedGrows(p, t, u, k);
    }
  }

  lemma OurNormalizationBefore(p: Plan, t: Tables, u: Tables, k: NormalizationKey)
    requires Grows(t, u) && UniqueIds(u) && ForeignKeys(t) && k in t.normalizations && OurNormalization(p, u, k)
    ensures OurNormalization(p, t, k)
  {
    OurObservationIdBefore(p, t, u, k.observation);
  }

  lemma OurOutcomeBefore(p: Plan, t: Tables, u: Tables, k: OutcomeKey)
    requires Grows(t, u) && UniqueIds(u) && ForeignKeys(t) && k in t.outcomes && OurOutcome(p, u, k)
    ensures OurOutcome(p, t, k)
  {
    OurObservationIdBefore(p, t, u, k.observation);
  }

  lemma OnlyPlannedNormalization(p: Plan, t: Tables, u: Tables, k: NormalizationKey)
    requires OnlyPlanned(p, t) && Grows(t, u) && UniqueIds(u) && ForeignKeys(t)
    requires k in u.normalizations && OurNormalization(p, u, k)
    requires k in t.normalizations || k == NormalizationSlot(p, k.observation)
    ensures k == NormalizationSlot(p, k.observation)
  {
    if k in t.normalizations {
      OurNormalizationBefore(p, t, u, k);
    }
  }

  lemma OnlyPlannedOutcome(p: Plan, t: Tables, u: Tables, k: OutcomeKey)
    requires OnlyPlanned(p, t) && Grows(t, u) && UniqueIds(u) && ForeignKeys(t)
    requires k in u.outcomes && OurOutcome(p, u, k)
    requires k in t.outcomes || k == OutcomeSlot(p, k.observation)
    ensures k == OutcomeSlot(p, k.observation)
  {
    if k in t.outcomes {
      OurOutcomeBefore(p, t, u, k);
    }
  }

  lemma OnlyPlannedStays(p: Plan, t: Tables, u: Tables)
    requires OnlyPlanned(p, t) && Grows(t, u) && UniqueIds(u) && ForeignKeys(t)
    requires AddsPlanned(p, t, u) || AddsForeign(p, t, u)
    ensures OnlyPlanned(p, u)
  {
    OnlyPlannedObservations(p, t, u);
    forall k | k in u.normalizations && OurNormalization(p, u, k) ensures k == NormalizationSlot(p, k.observation) {
      OnlyPlannedNormalization(p, t, u, k);
    }
    forall k | k in u.outcomes && OurOutcome(p, u, k) ensures k == OutcomeSlot(p, k.observation) {
      OnlyPlannedOutcome(p, t, u, k);
    }
  }

  /** Rows of other imports change nothing that is planned. */
  lemma ForeignKeepsResult(p: Plan, t: Tables, u: Tables, i: nat, j: nat)
    requires Grows(t, u) && AddsForeign(p, t, u) && ResultOk(p, t, i, j)
    ensures ResultOk(p, u, i, j)
  {
    if ScanSlot(p, i) in u.scans {
      var scan := u.scans[ScanSlot(p, i)].id;
      var key := ObservationSlot(p, scan, j);
      assert OurScanId(p, u, scan);
      if key in u.observations {
        assert OurObservation(p, u, key);
        assert OurObservationId(p, u, u.observations[key].id);
      }
    }
  }

  lemma ForeignKeepsTables(p: Plan, t: Tables, u: Tables)
    requires TablesOk(p, t) && Foreign(p, t, u)
    ensures TablesOk(p, u)
  {
    forall i | 0 <= i < |p.results| ensures ScanOk(p, u, i) { assert ScanOk(p, t, i); }
    forall i, j | InPlan(p, i, j) ensures ResultOk(p, u, i, j) { ForeignKeepsResult(p, t, u, i, j); }
  }

  // Once everything is stored, the rows of this import are fixed

  lemma PlannedObservationIsDone(p: Plan, t: Tables, u: Tables, k: ObservationKey)
    requires AllDone(p, t) && Grows(t, u) && PlannedObservation(p, u, k)
    ensures k in t.observations && OurObservation(p, t, k)
    ensures NormalizationSlot(p, t.observations[k].id) in t.normalizations
    ensures OutcomeSlot(p, t.observations[k].id) in t.outcomes
  {
    var i, j :| InPlan(p, i, j) && ScanSlot(p, i) in u.scans && k == ObservationSlot(p, u.scans[ScanSlot(p, i)].id, j);
    assert Earlier(i, j, |p.results|, 0);
    assert ResultDone(p, t, i, j);
    assert OurScanId(p, t, k.scan);
  }

  lemma OurIdIsDone(p: Plan, t: Tables, u: Tables, id: string)
    requires AllDone(p, t) && Grows(t, u) && OnlyPlanned(p, u) && OurObservationId(p, u, id)
    ensures OurObservationId(p, t, id)
    ensures NormalizationSlot(p, id) in t.normalizations && OutcomeSlot(p, id) in t.outcomes
  {
    var k :| k in u.observations && OurObservation(p, u, k) && u.observations[k].id == id;
    PlannedObservationIsDone(p, t, u, k);
  }

  lemma OurIdStays(p: Plan, t: Tables, u: Tables, id: string)
    requires Grows(t, u)
    ensures OurScanId(p, t, id) ==> OurScanId(p, u, id)
    ensures OurObservationId(p, t, id) ==> OurObservationId(p, u, id)
  {
    if OurScanId(p, t, id) {
      var k :| k in t.scans && OurScan(p, k) && t.scans[k].id == id;
      assert k in u.scans;
    }
    if OurObservationId(p, t, id) {
      var k :| k in t.observations && OurObservation(p, t, k) && t.observations[k].id == id;
      var o :| o in t.scans && OurScan(p, o) && t.scans[o].id == k.scan;
      assert o in u.scans && k in u.observations;
    }
  }

  lemma OurObservationFixed(p: Plan, t: Tables, u: Tables, k: ObservationKey)
    requires AllDone(p, t) && Grows(t, u) && OnlyPlanned(p, u)
    ensures k in Ours(p, u).observations <==> k in Ours(p, t).observations
    ensures k in Ours(p, t).observations ==> Ours(p, u).observations[k] == Ours(p, t).observations[k]
  {
    OurIdStays(p, t, u, k.scan);
    if k in u.observations && OurObservation(p, u, k) {
      PlannedObservationIsDone(p, t, u, k);
    }
  }

  lemma OurNormalizationFixed(p: Plan, t: Tables, u: Tables, k: NormalizationKey)
    requires AllDone(p, t) && Grows(t, u) && OnlyPlanned(p, u)
    ensures k in Ours(p, u).normalizations <==> k in Ours(p, t).normalizations
    ensures k in Ours(p, t).normalizations ==> Ours(p, u).normalizations[k] == Ours(p, t).normalizations[k]
  {
    OurIdStays(p, t, u, k.observation);
    if k in u.normalizations && OurNormalization(p, u, k) {
      OurIdIsDone(p, t, u, k.observation);
    }
  }

  lemma OurOutcomeFixed(p: Plan, t: Tables, u: Tables, k: OutcomeKey)
    requires AllDone(p, t) && Grows(t, u) && OnlyPlanned(p, u)
    ensures k in Ours(p, u).outcomes <==> k in Ours(p, t).outcomes
    ensures k in Ours(p, t).outcomes ==> Ours(p, u).outcomes[k] == Ours(p, t).outcomes[k]
  {
    OurIdStays(p, t, u, k.observation);
    if k in u.outcomes && OurOutcome(p, u, k) {
      OurIdIsDone(p, t, u, k.observation);
    }
  }

  lemma OurParsesFixed(p: Plan, t: Tables, u: Tables)
    requires ParseKey(p.workspace, p.import_) in t.parses && Grows(t, u)
    ensures Ours(p, u).parses == Ours(p, t).parses
  {
  }

  lemma OurScansFixed(p: Plan, t: Tables, u: Tables)
    requires AllDone(p, t) && Grows(t, u) && OnlyPlanned(p, u)
    ensures Ours(p, u).scans == Ours(p, t).scans
  {
    SameMap(Ours(p, u).scans, Ours(p, t).scans);
  }

  lemma SameMap<K, V>(a: map<K, V>, b: map<K, V>)
    requires forall k :: k in a <==> k in b
    requires forall k :: k in b ==> a[k] == b[k]
    ensures a == b
  {
  }

  lemma OurObservationsFixed(p: Plan, t: Tables, u: Tables)
    requires AllDone(p, t) && Grows(t, u) && OnlyPlanned(p, u)
    ensures Ours(p, u).observations == Ours(p, t).observations
  {
    var a, b := Ours(p, u).observations, Ours(p, t).observations;
    forall k ensures k in a <==> k in b ensures k in b ==> a[k] == b[k] {
      OurObservationFixed(p, t, u, k);
    }
    SameMap(a, b);
  }

  lemma OurNormalizationsFixed(p: Plan, t: Tables, u: Tables)
    requires AllDone(p, t) && Grows(t, u) && OnlyPlanned(p, u)
    ensures Ours(p, u).normalizations == Ours(p, t).normalizations
  {
    var a, b := Ours(p, u).normalizations, Ours(p, t).normalizations;
    forall k ensures k in a <==> k in b ensures k in b ==> a[k] == b[k] {
      OurNormalizationFixed(p, t, u, k);
    }
    SameMap(a, b);
  }

  lemma OurOutcomesFixed(p: Plan, t: Tables, u: Tables)
    requires AllDone(p, t) && Grows(t, u) && OnlyPlanned(p, u)
    ensures Ours(p, u).outcomes == Ours(p, t).outcomes
  {
    var a, b := Ours(p, u).outcomes, Ours(p, t).outcomes;
    forall k ensures k in a <==> k in b ensures k in b ==> a[k] == b[k] {
      OurOutcomeFixed(p, t, u, k);
    }
    SameMap(a, b);
  }

  lemma OursFixed(p: Plan, t: Tables, u: Tables)
    requires AllDone(p, t) && Grows(t, u) && OnlyPlanned(p, u)
    ensures Ours(p, u) == Ours(p, t)
  {
    OurParsesFixed(p, t, u);
    OurScansFixed(p, t, u);
    OurObservationsFixed(p, t, u);
    OurNormalizationsFixed(p, t, u);
    OurOutcomesFixed(p, t, u);
  }

  lemma ParseAddsPlanned(p: Plan, t: Tables, at: Instant)
    ensures AddsPlanned(p, t, PutParse(p, t, at).tables)
  {
  }

  lemma ScanAddsPlanned(p: Plan, t: Tables, i: nat, id: string, at: Instant)
    requires i < |p.results|
    ensures AddsPlanned(p, t, PutScan(p, t, i, id, at).tables)
  {
    assert PlannedScan(p, ScanSlot(p, i));
  }

  lemma ObservationAddsPlanned(p: Plan, t: Tables, i: nat, j: nat, scan: string, id: string, at: Instant)
    requires InPlan(p, i, j) && HasScan(p, t, i, scan)
    ensures AddsPlanned(p, t, PutObservation(p, t, i, j, scan, id, at).tables)
  {
    assert PlannedObservation(p, t, ObservationSlot(p, scan, j));
  }

  lemma OwnedIsPlanned(p: Plan, t: Tables, i: nat, j: nat, scan: string, observation: string)
    requires InPlan(p, i, j) && HasScan(p, t, i, scan) && Owns(p, t, scan, j, observation)
    ensures PlannedId(p, t, observation)
  {
    assert PlannedObservation(p, t, ObservationSlot(p, scan, j));
  }

  lemma NormalizationAddsPlanned(p: Plan, t: Tables, i: nat, j: nat, observation: string, at: Instant)
    requires PlannedId(p, t, observation)
    ensures AddsPlanned(p, t, PutNormalization(p, t, i, j, observation, at).tables)
  {
  }

  lemma OutcomeAddsPlanned(p: Plan, t: Tables, observation: string, at: Instant)
    requires PlannedId(p, t, observation)
    ensures AddsPlanned(p, t, PutOutcome(p, t, observation, at).tables)
  {
  }
}
