/** Immutable scanner observations and their versioned normalizations: validation and canonical records. */
module Finding {
  import opened Base
  import opened Text
  import opened Sorting
  import Order

  const MEBIBYTE: nat := 1024 * 1024

  datatype Location = Location(
    ordinal: int, sourcePointer: string, uri: string, uriBaseId: string, artifactIndex: Option<int>,
    startLine: Option<int>, startColumn: Option<int>, endLine: Option<int>, endColumn: Option<int>)

  datatype SourceFingerprint = SourceFingerprint(kind: string, name: string, value: string)

  /** The scanner's own statements about a result. */
  datatype Facts = Facts(
    guid: string, correlationGuid: string, ruleId: string, ruleIndex: Option<int>,
    severity: string, kind: string, baselineState: string,
    messageId: string, messageText: string, messageMarkdown: string, messageArguments: seq<string>,
    observedAt: Option<Instant>)

  datatype ObservationSpec = ObservationSpec(
    id: string, workspace: string, scan: string, rawArtifact: string, resultIndex: int,
    parserName: string, parserVersion: string, sourcePointer: string, facts: Facts,
    locations: seq<Location>, fingerprints: seq<SourceFingerprint>, recordedAt: Instant)

  /** What the record fingerprint covers: everything but the candidate id and the recording time. */
  datatype CanonicalObservation = CanonicalObservation(
    workspace: string, scan: string, rawArtifact: string, resultIndex: int,
    parserName: string, parserVersion: string, sourcePointer: string, facts: Facts,
    locations: seq<Location>, fingerprints: seq<SourceFingerprint>)

  datatype Error = Invalid

  predicate ValidIndex(value: Option<int>) { value.Some? ==> value.value >= 0 }

  predicate ValidPositive(value: Option<int>) { value.Some? ==> value.value > 0 }

  predicate ValidLocation(location: Location) {
    && location.ordinal >= 0
    && ValidText(location.sourcePointer, 1, 1024)
    && ValidOptionalBytes(location.uri, MEBIBYTE)
    && ValidOptionalText(location.uriBaseId, 512)
    && ValidIndex(location.artifactIndex)
    && ValidPositive(location.startLine) && ValidPositive(location.startColumn)
    && ValidPositive(location.endLine) && ValidPositive(location.endColumn)
  }

  predicate ValidFingerprint(fingerprint: SourceFingerprint) {
    && (fingerprint.kind == "complete" || fingerprint.kind == "partial")
    && ValidText(fingerprint.name, 1, 512)
    && fingerprint.value != "" && ValidOptionalBytes(fingerprint.value, MEBIBYTE)
  }

  predicate ValidHead(spec: ObservationSpec) {
    && ValidOpaqueId(spec.id) && ValidOpaqueId(spec.workspace) && ValidOpaqueId(spec.scan)
    && ValidOpaqueId(spec.rawArtifact)
    && spec.resultIndex >= 0 && spec.recordedAt != 0
    && ValidDomainName(spec.parserName, 64)
    && ValidText(spec.parserVersion, 1, 64)
    && ValidText(spec.sourcePointer, 1, 1024)
  }

  predicate ValidFacts(facts: Facts) {
    && ValidOptionalText(facts.guid, 128) && ValidOptionalText(facts.correlationGuid, 128)
    && ValidOptionalText(facts.ruleId, 512) && ValidIndex(facts.ruleIndex)
    && ValidOptionalText(facts.severity, 64) && ValidOptionalText(facts.kind, 64)
    && ValidOptionalText(facts.baselineState, 64) && ValidOptionalText(facts.messageId, 512)
    && ValidOptionalBytes(facts.messageText, MEBIBYTE) && ValidOptionalBytes(facts.messageMarkdown, MEBIBYTE)
    && |facts.messageArguments| <= 1000
  }

  predicate ValidArgument(argument: string) { |argument| <= MEBIBYTE && NoNul(argument) }

  predicate OrdinalLess(a: Location, b: Location) { a.ordinal < b.ordinal }

  predicate FingerprintLess(a: SourceFingerprint, b: SourceFingerprint) {
    if a.kind == b.kind then Order.Less(a.name, b.name) else Order.Less(a.kind, b.kind)
  }

  lemma OrdinalOrder()
    ensures StrictWeak(OrdinalLess)
  {
  }

  lemma LessBetween(a: string, b: string, c: string)
    ensures !Order.Less(a, a)
    ensures Order.Less(a, b) && Order.Less(b, c) ==> Order.Less(a, c)
    ensures Order.Less(a, c) ==> Order.Less(a, b) || Order.Less(b, c)
  {
    Order.LessIrreflexive(a);
    Order.LessTotal(a, b);
    if Order.Less(a, b) && Order.Less(b, c) {
      Order.LessTransitive(a, b, c);
    }
    if Order.Less(b, a) && Order.Less(a, c) {
      Order.LessTransitive(b, a, c);
    }
  }

  lemma FingerprintOrder()
    ensures StrictWeak(FingerprintLess)
  {
    forall a: SourceFingerprint, b: SourceFingerprint, c: SourceFingerprint
      ensures OrderLaws(FingerprintLess, a, b, c)
    {
      LessBetween(a.name, b.name, c.name);
      LessBetween(a.kind, b.kind, c.kind);
      LessBetween(b.kind, a.kind, c.kind);
      LessBetween(a.kind, c.kind, a.kind);
      Order.LessTotal(b.kind, c.kind);
    }
  }

  /** Accepted observations: valid fields, and no two locations or fingerprints under one key. */
  ghost predicate ValidObservation(spec: ObservationSpec) {
    && ValidHead(spec)
    && ValidFacts(spec.facts)
    && |spec.locations| <= 1000 && |spec.fingerprints| <= 2000
    && (forall a :: a in spec.facts.messageArguments ==> ValidArgument(a))
    && (forall l :: l in spec.locations ==> ValidLocation(l))
    && (forall f :: f in spec.fingerprints ==> ValidFingerprint(f))
    && Distinct(OrdinalLess, spec.locations)
    && Distinct(FingerprintLess, spec.fingerprints)
  }

  /** The numbers of a location fit their columns. */
  predicate LocationInRange(l: Location) {
    && InRange(l.ordinal) && OptionInRange(l.artifactIndex)
    && OptionInRange(l.startLine) && OptionInRange(l.startColumn)
    && OptionInRange(l.endLine) && OptionInRange(l.endColumn)
  }

  predicate LocationsInRange(locations: seq<Location>) {
    forall l :: l in locations ==> LocationInRange(l)
  }

  predicate HeadInRange(resultIndex: int, facts: Facts) { InRange(resultIndex) && OptionInRange(facts.ruleIndex) }

  /** Validation has no upper bounds; the columns of the stored record do. */
  predicate RecordInRange(record: CanonicalObservation) {
    HeadInRange(record.resultIndex, record.facts) && LocationsInRange(record.locations)
  }

  function RecordWith(spec: ObservationSpec, locations: seq<Location>, fingerprints: seq<SourceFingerprint>)
    : CanonicalObservation
  {
    CanonicalObservation(spec.workspace, spec.scan, spec.rawArtifact, spec.resultIndex, spec.parserName,
                         spec.parserVersion, spec.sourcePointer, spec.facts, locations, fingerprints)
  }

  ghost function CanonicalOf(spec: ObservationSpec): CanonicalObservation {
    OrdinalOrder();
    FingerprintOrder();
    RecordWith(spec, Arranged(OrdinalLess, spec.locations), Arranged(FingerprintLess, spec.fingerprints))
  }

  /** Arranging locations changes none of their numbers. */
  lemma CanonicalInRangeIff(spec: ObservationSpec)
    ensures RecordInRange(CanonicalOf(spec)) <==>
            HeadInRange(spec.resultIndex, spec.facts) && LocationsInRange(spec.locations)
  {
    OrdinalOrder();
    var arranged := Arranged(OrdinalLess, spec.locations);
    assert forall l :: l in arranged <==> l in multiset(arranged);
    assert forall l :: l in spec.locations <==> l in multiset(spec.locations);
  }

  method CheckArguments(arguments: seq<string>) returns (ok: bool)
    ensures ok <==> forall a :: a in arguments ==> ValidArgument(a)
  {
    for i := 0 to |arguments|
      invariant forall j :: 0 <= j < i ==> ValidArgument(arguments[j])
    {
      if !ValidArgument(arguments[i]) {
        return false;
      }
    }
    ok := true;
  }

  /** Neighbouring locations are compared, as the sorted slice is scanned. */
  method CheckLocations(sorted: seq<Location>) returns (ok: bool)
    requires Sorted(OrdinalLess, sorted)
    ensures ok <==> (forall l :: l in sorted ==> ValidLocation(l)) && !HasTie(OrdinalLess, sorted)
  {
    for i := 0 to |sorted|
      invariant forall j :: 0 <= j < i ==> ValidLocation(sorted[j])
      invariant forall j :: 0 < j < i ==> !TieAt(OrdinalLess, sorted, j)
    {
      if !ValidLocation(sorted[i]) || (i > 0 && sorted[i - 1].ordinal == sorted[i].ordinal) {
        if ValidLocation(sorted[i]) {
          assert TieAt(OrdinalLess, sorted, i);
        }
        return false;
      }
    }
    ok := true;
  }

  method CheckFingerprints(sorted: seq<SourceFingerprint>) returns (ok: bool)
    requires Sorted(FingerprintLess, sorted)
    ensures ok <==> (forall f :: f in sorted ==> ValidFingerprint(f)) && !HasTie(FingerprintLess, sorted)
  {
    for i := 0 to |sorted|
      invariant forall j :: 0 <= j < i ==> ValidFingerprint(sorted[j])
      invariant forall j :: 0 < j < i ==> !TieAt(FingerprintLess, sorted, j)
    {
      if !ValidFingerprint(sorted[i]) {
        return false;
      }
      if i > 0 {
        FingerprintTie(sorted[i - 1], sorted[i]);
        if sorted[i - 1].kind == sorted[i].kind && sorted[i - 1].name == sorted[i].name {
          assert TieAt(FingerprintLess, sorted, i);
          return false;
        }
        assert !FingerprintLess(sorted[i], sorted[i - 1]);
      }
    }
    ok := true;
  }

  /** Fingerprints tie exactly when they share kind and name. */
  lemma FingerprintTie(a: SourceFingerprint, b: SourceFingerprint)
    ensures !FingerprintLess(a, b) && !FingerprintLess(b, a) <==> a.kind == b.kind && a.name == b.name
  {
    Order.LessTotal(a.name, b.name);
    Order.LessTotal(a.kind, b.kind);
    Order.LessIrreflexive(a.name);
  }

  /** Accepts exactly the valid observations and returns the one canonical record, whatever the sort does with ties. */
  method CanonicalizeObservation(spec: ObservationSpec) returns (r: Result<CanonicalObservation, Error>)
    ensures r.Ok? <==> ValidObservation(spec)
    ensures r.Ok? ==> r.value == CanonicalOf(spec)
  {
    if !ValidHead(spec) || !ValidFacts(spec.facts) || |spec.locations| > 1000 || |spec.fingerprints| > 2000 {
      return Err(Invalid);
    }
    var argumentsOk := CheckArguments(spec.facts.messageArguments);
    if !argumentsOk {
      return Err(Invalid);
    }
    OrdinalOrder();
    var locations := Sort(OrdinalLess, spec.locations);
    SortVerdict(OrdinalLess, spec.locations, locations);
    assert forall l :: l in spec.locations <==> l in multiset(locations);
    var locationsOk := CheckLocations(locations);
    if !locationsOk {
      return Err(Invalid);
    }
    FingerprintOrder();
    var fingerprints := Sort(FingerprintLess, spec.fingerprints);
    SortVerdict(FingerprintLess, spec.fingerprints, fingerprints);
    assert forall f :: f in spec.fingerprints <==> f in multiset(fingerprints);
    var fingerprintsOk := CheckFingerprints(fingerprints);
    if !fingerprintsOk {
      return Err(Invalid);
    }
    r := Ok(RecordWith(spec, locations, fingerprints));
  }

  /** Verdict and record do not depend on the order of locations and fingerprints, the id or the recording time. */
  lemma ObservationOrderIndependent(a: ObservationSpec, b: ObservationSpec)
    requires multiset(a.locations) == multiset(b.locations) && multiset(a.fingerprints) == multiset(b.fingerprints)
    requires b.(locations := a.locations, fingerprints := a.fingerprints, id := a.id, recordedAt := a.recordedAt) == a
    requires ValidOpaqueId(b.id) && b.recordedAt != 0
    ensures ValidObservation(a) ==> ValidObservation(b) && CanonicalOf(a) == CanonicalOf(b)
    ensures ValidOpaqueId(a.id) && a.recordedAt != 0 && ValidObservation(b) ==> ValidObservation(a)
  {
    DistinctIsOrderFree(OrdinalLess, a.locations, b.locations);
    DistinctIsOrderFree(FingerprintLess, a.fingerprints, b.fingerprints);
    assert |a.locations| == |multiset(a.locations)| == |multiset(b.locations)| == |b.locations|;
    assert |a.fingerprints| == |multiset(a.fingerprints)| == |multiset(b.fingerprints)| == |b.fingerprints|;
    assert forall l :: l in a.locations <==> l in multiset(b.locations);
    assert forall f :: f in a.fingerprints <==> f in multiset(b.fingerprints);
    if ValidObservation(a) {
      OrdinalOrder();
      FingerprintOrder();
      SortVerdict(OrdinalLess, a.locations, Arranged(OrdinalLess, b.locations));
      SortVerdict(FingerprintLess, a.fingerprints, Arranged(FingerprintLess, b.fingerprints));
    }
  }

  // ---------------------------------------------------------------------
  // Normalizations
  // ---------------------------------------------------------------------

  datatype NormalizedLocation = NormalizedLocation(
    kind: string, uri: string, uriBaseId: string,
    startLine: Option<int>, startColumn: Option<int>, endLine: Option<int>, endColumn: Option<int>)

  datatype NormalizationSpec = NormalizationSpec(
    workspace: string, observation: string, normalizerName: string, normalizerVersion: string,
    category: string, severity: string, ruleKind: string, ruleId: string,
    location: NormalizedLocation, normalizedAt: Instant)

  /** What the normalization fingerprint covers: everything but the time. */
  datatype CanonicalNormalization = CanonicalNormalization(
    workspace: string, observation: string, normalizerName: string, normalizerVersion: string,
    category: string, severity: string, ruleKind: string, ruleId: string, location: NormalizedLocation)

  predicate KnownSeverity(value: string) {
    value in {"unknown", "not_applicable", "informational", "low", "medium", "high", "critical"}
  }

  predicate ValidRule(kind: string, id: string) {
    (kind == "unknown" && id == "") || (kind == "source" && ValidText(id, 1, 512))
  }

  predicate ValidRegionOrder(startLine: Option<int>, startColumn: Option<int>, endLine: Option<int>,
                             endColumn: Option<int>)
  {
    startLine.Some? && endLine.Some? ==>
      && endLine.value >= startLine.value
      && (endLine.value == startLine.value && startColumn.Some? && endColumn.Some? ==>
            endColumn.value >= startColumn.value)
  }

  predicate ValidNormalizedLocation(location: NormalizedLocation) {
    || location == NormalizedLocation("unknown", "", "", None, None, None, None)
    || (&& location.kind == "artifact"
        && location.uri != "" && ValidOptionalBytes(location.uri, MEBIBYTE)
        && ValidOptionalText(location.uriBaseId, 512)
        && ValidPositive(location.startLine) && ValidPositive(location.startColumn)
        && ValidPositive(location.endLine) && ValidPositive(location.endColumn)
        && ValidRegionOrder(location.startLine, location.startColumn, location.endLine, location.endColumn))
  }

  predicate NormalizedInRange(location: NormalizedLocation) {
    && OptionInRange(location.startLine) && OptionInRange(location.startColumn)
    && OptionInRange(location.endLine) && OptionInRange(location.endColumn)
  }

  predicate ValidNormalization(spec: NormalizationSpec) {
    && ValidOpaqueId(spec.workspace) && ValidOpaqueId(spec.observation)
    && ValidDomainName(spec.normalizerName, 64) && ValidText(spec.normalizerVersion, 1, 64)
    && spec.normalizedAt != 0
    && spec.category == "unknown" && KnownSeverity(spec.severity)
    && ValidRule(spec.ruleKind, spec.ruleId)
    && ValidNormalizedLocation(spec.location)
  }

  function NormalizationRecord(spec: NormalizationSpec): CanonicalNormalization {
    CanonicalNormalization(spec.workspace, spec.observation, spec.normalizerName, spec.normalizerVersion,
                           spec.category, spec.severity, spec.ruleKind, spec.ruleId, spec.location)
  }
}
