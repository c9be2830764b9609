/**
 SARIF records: the checks that turn decoded report objects into source
 records, and the warnings for members that are not mapped. Region checks
 follow the region object, section 3.30 of SARIF 2.1.0.
 */
module Sarif {
  import opened Base
  import opened Text
  import opened Sorting
  import Order
  import Finding

  const FORMAT: string := "sarif"
  const PARSER_VERSION: string := "1"

  datatype Error = InvalidSarif | LimitExceeded

  datatype Limits = Limits(
    maxLocationsPerResult: int, maxFingerprintsPerResult: int, maxWarnings: int, maxUnsupportedFields: int)

  datatype Region = Region(
    startLine: Option<int>, startColumn: Option<int>, endLine: Option<int>, endColumn: Option<int>)

  datatype Artifact = Artifact(uri: string, uriBaseId: string, index: Option<int>)

  /** A decoded object together with the names of all its members. */
  datatype Wire<T> = Wire(members: set<string>, value: T)

  datatype Physical = Physical(artifact: Option<Wire<Artifact>>, region: Option<Wire<Region>>)

  datatype Message = Message(id: string, text: string, markdown: string, arguments: seq<string>)

  /** A decoded result object. */
  datatype WireResult = WireResult(
    guid: string, correlationGuid: string, ruleId: string, ruleIndex: Option<int>,
    level: string, kind: string, baselineState: string, message: Option<Wire<Message>>,
    locations: seq<Wire<Option<Wire<Physical>>>>,
    fingerprints: map<string, string>, partialFingerprints: map<string, string>)

  datatype Location = Location(
    index: int, sourcePointer: string, uri: string, uriBaseId: string, artifactIndex: Option<int>,
    region: Option<Region>)

  datatype NamedValue = NamedValue(name: string, value: string)

  datatype SourceResult = SourceResult(
    index: int, sourcePointer: string, guid: string, correlationGuid: string, ruleId: string, ruleIndex: Option<int>,
    level: string, kind: string, baselineState: string, message: Message,
    locations: seq<Location>, fingerprints: seq<NamedValue>, partialFingerprints: seq<NamedValue>)

  datatype Invocation = Invocation(executionSuccessful: bool, startTime: Option<Instant>, endTime: Option<Instant>)

  datatype Tool = Tool(name: string, fullName: string, version: string, semanticVersion: string)

  datatype Automation = Automation(id: string, guid: string, correlationGuid: string)

  datatype Run = Run(
    index: int, sourcePointer: string, tool: Tool, automation: Option<Automation>,
    invocations: seq<Invocation>, results: seq<SourceResult>)

  datatype Warning = Warning(path: string, fieldCount: nat, fields: seq<string>, fieldsTruncated: bool)

  datatype Document = Document(runs: seq<Run>, warnings: seq<Warning>, warningsTruncated: bool)

  predicate ValidLevel(value: string) { value in {"none", "note", "warning", "error"} }

  predicate ValidKind(value: string) {
    value in {"notApplicable", "pass", "fail", "review", "open", "informational"}
  }

  predicate ValidBaselineState(value: string) { value in {"new", "unchanged", "updated", "absent"} }

  /** Every level, kind and baseline state that SARIF 2.1.0 lists is known. */
  lemma StandardTermsAreKnown(term: string)
    requires term in {"none", "note", "warning", "error"} || term in {"new", "unchanged", "updated", "absent"}
             || term in {"notApplicable", "pass", "fail", "review", "open", "informational"}
    ensures ValidLevel(term) <==> term == "none" || term == "note" || term == "warning" || term == "error"
    ensures ValidBaselineState(term) <==>
            term == "new" || term == "unchanged" || term == "updated" || term == "absent"
    ensures ValidKind(term) <==> || term == "notApplicable" || term == "pass" || term == "fail" || term == "review"
                                 || term == "open" || term == "informational"
  {
  }

  /** The declared positions are positive and the end does not lie before the start. */
  predicate ValidRegion(region: Region) {
    && Finding.ValidPositive(region.startLine) && Finding.ValidPositive(region.startColumn)
    && Finding.ValidPositive(region.endLine) && Finding.ValidPositive(region.endColumn)
    && Finding.ValidRegionOrder(region.startLine, region.startColumn, region.endLine, region.endColumn)
  }

  /** The loop over the four positions, then the two order tests, decide exactly a valid region. */
  method CheckRegion(region: Region) returns (ok: bool)
    ensures ok <==> ValidRegion(region)
  {
    var positions := [region.startLine, region.startColumn, region.endLine, region.endColumn];
    for i := 0 to |positions|
      invariant forall j :: 0 <= j < i ==> Finding.ValidPositive(positions[j])
    {
      if positions[i].Some? && positions[i].value < 1 {
        return false;
      }
    }
    assert Finding.ValidPositive(positions[0]) && Finding.ValidPositive(positions[1]);
    assert Finding.ValidPositive(positions[2]) && Finding.ValidPositive(positions[3]);
    if region.startLine.Some? && region.endLine.Some? && region.endLine.value < region.startLine.value {
      return false;
    }
    if region.startLine.Some? && region.endLine.Some? && region.startLine.value == region.endLine.value
       && region.startColumn.Some? && region.endColumn.Some? && region.endColumn.value < region.startColumn.value
    {
      return false;
    }
    ok := true;
  }

  // ---------------------------------------------------------------------
  // Named values
  // ---------------------------------------------------------------------

  predicate NameLess(a: string, b: string) { Order.Less(a, b) }

  lemma NameOrder()
    ensures StrictWeak(NameLess)
  {
    forall a: string, b: string, c: string ensures OrderLaws(NameLess, a, b, c) {
      Finding.LessBetween(a, b, c);
    }
  }

  /** A map's entries as a list: every entry once, in strictly increasing name order. */
  ghost predicate Lists(values: map<string, string>, out: seq<NamedValue>) {
    && (forall i, j :: 0 <= i < j < |out| ==> Order.Less(out[i].name, out[j].name))
    && (forall i :: 0 <= i < |out| ==> out[i].name in values && values[out[i].name] == out[i].value)
    && (forall name :: name in values ==> exists i :: 0 <= i < |out| && out[i].name == name)
  }

  lemma ListsHead(values: map<string, string>, a: seq<NamedValue>, b: seq<NamedValue>)
    requires Lists(values, a) && Lists(values, b) && a != []
    ensures b != [] && a[0] == b[0]
  {
    assert a[0].name in values;
    var m :| 0 <= m < |b| && b[m].name == a[0].name;
    assert b[0].name in values;
    var k :| 0 <= k < |a| && a[k].name == b[0].name;
    Order.LessIrreflexive(a[0].name);
    if k > 0 {
      Order.LessAsymmetric(a[0].name, b[0].name);
    }
  }

  lemma HeadAndTail(a: seq<NamedValue>, b: seq<NamedValue>)
    requires a != [] && b != [] && a[0] == b[0] && a[1..] == b[1..]
    ensures a == b
  {
    assert a == [a[0]] + a[1..] && b == [b[0]] + b[1..];
  }

  /** The list does not depend on the order in which the map was iterated. */
  lemma {:induction false} ListsUnique(values: map<string, string>, a: seq<NamedValue>, b: seq<NamedValue>)
    requires Lists(values, a) && Lists(values, b)
    ensures a == b
    decreases |a|
  {
    if a != [] {
      ListsHead(values, a, b);
      ListsTail(values, a);
      ListsTail(values, b);
      ListsUnique(values - {a[0].name}, a[1..], b[1..]);
      HeadAndTail(a, b);
    } else if b != [] {
      ListsHead(values, b, a);
    }
  }

  lemma ListsTail(values: map<string, string>, a: seq<NamedValue>)
    requires Lists(values, a) && a != []
    ensures Lists(values - {a[0].name}, a[1..])
  {
    var rest := values - {a[0].name};
    forall i | 0 <= i < |a[1..]| ensures a[1..][i].name in rest && rest[a[1..][i].name] == a[1..][i].value {
      Order.LessAsymmetric(a[0].name, a[i + 1].name);
    }
    forall name | name in rest ensures exists i :: 0 <= i < |a[1..]| && a[1..][i].name == name {
      var i :| 0 <= i < |a| && a[i].name == name;
      assert a[1..][i - 1].name == name;
    }
  }

  /** Names gathered in any order, sorted, then paired with their values. */
  method NamedValues(values: map<string, string>) returns (out: seq<NamedValue>)
    ensures Lists(values, out)
  {
    var names := SortedNames(values.Keys);
    out := [];
    for i := 0 to |names|
      invariant |out| == i
      invariant forall j :: 0 <= j < i ==> out[j] == NamedValue(names[j], values[names[j]])
    {
      out := out + [NamedValue(names[i], values[names[i]])];
    }
    forall name | name in values ensures exists i :: 0 <= i < |out| && out[i].name == name {
      var i :| 0 <= i < |names| && names[i] == name;
      assert out[i].name == name;
    }
  }

  /** The names of a set, each once, in increasing order. */
  method SortedNames(names: set<string>) returns (out: seq<string>)
    ensures forall name :: name in names <==> name in out
    ensures |out| == |names|
    ensures forall i, j :: 0 <= i < j < |out| ==> Order.Less(out[i], out[j])
  {
    var gathered: seq<string> := [];
    var todo := names;
    while todo != {}
      invariant todo <= names && |gathered| + |todo| == |names|
      invariant forall name :: name in gathered <==> name in names && name !in todo
      invariant forall i, j :: 0 <= i < j < |gathered| ==> gathered[i] != gathered[j]
      decreases todo
    {
      var name :| name in todo;
      todo := todo - {name};
      gathered := gathered + [name];
    }
    NameOrder();
    out := Sort(NameLess, gathered);
    assert |out| == |multiset(out)| == |multiset(gathered)| == |gathered|;
    assert forall name :: name in gathered <==> name in multiset(out);
    forall i, j | 0 <= i < j < |gathered|
      ensures NameLess(gathered[i], gathered[j]) || NameLess(gathered[j], gathered[i])
    {
      Order.LessTotal(gathered[i], gathered[j]);
    }
    DistinctIsOrderFree(NameLess, gathered, out);
    forall i, j | 0 <= i < j < |out| ensures Order.Less(out[i], out[j]) {
      assert !NameLess(out[j], out[i]);
    }
  }

  // ---------------------------------------------------------------------
  // Results
  // ---------------------------------------------------------------------

  /** A parsed location: positions passed the region check, the artifact index is not negative. */
  predicate LocationAccepted(location: Location) {
    && Finding.ValidIndex(location.artifactIndex)
    && (location.region.Some? ==> ValidRegion(location.region.value))
  }

  predicate WireLocationOk(wire: Option<Wire<Physical>>) {
    wire.Some? ==>
      var physical := wire.value.value;
      && (physical.artifact.Some? ==> Finding.ValidIndex(physical.artifact.value.value.index))
      && (physical.region.Some? ==> ValidRegion(physical.region.value.value))
  }

  /** The location says what the decoded object says, with absent parts empty. */
  predicate ShowsLocation(wire: Option<Wire<Physical>>, l: Location) {
    var physical := if wire.Some? then wire.value.value else Physical(None, None);
    && Artifact(l.uri, l.uriBaseId, l.artifactIndex)
       == (if physical.artifact.Some? then physical.artifact.value.value else Artifact("", "", None))
    && l.region == (if physical.region.Some? then Some(physical.region.value.value) else None)
  }

  /** What every result the parser returns satisfies. */
  ghost predicate ResultAccepted(result: SourceResult) {
    && Finding.ValidIndex(result.ruleIndex)
    && (result.level == "" || ValidLevel(result.level))
    && (result.kind == "" || ValidKind(result.kind))
    && (result.baselineState == "" || ValidBaselineState(result.baselineState))
    && (forall i :: 0 <= i < |result.locations| ==>
                      result.locations[i].index == i && LocationAccepted(result.locations[i]))
    && (result.message.id != "" || result.message.text != "")
    && (forall i, j :: 0 <= i < j < |result.fingerprints| ==>
                         Order.Less(result.fingerprints[i].name, result.fingerprints[j].name))
    && (forall i, j :: 0 <= i < j < |result.partialFingerprints| ==>
                         Order.Less(result.partialFingerprints[i].name, result.partialFingerprints[j].name))
  }

  /** The fields a decoded result is checked for before anything else. */
  predicate WireFieldsOk(wire: WireResult) {
    && wire.message.Some?
    && Finding.ValidIndex(wire.ruleIndex)
    && (wire.level == "" || ValidLevel(wire.level))
    && (wire.kind == "" || ValidKind(wire.kind))
    && (wire.baselineState == "" || ValidBaselineState(wire.baselineState))
  }

  /** What a decoded result must satisfy. */
  predicate WireResultOk(wire: WireResult) {
    && WireFieldsOk(wire)
    && (wire.message.value.value.id != "" || wire.message.value.value.text != "")
    && LocationsOk(wire.locations, |wire.locations|)
  }

  predicate LocationsOk(wires: seq<Wire<Option<Wire<Physical>>>>, n: nat)
    requires n <= |wires|
  {
    forall i :: 0 <= i < n ==> WireLocationOk(wires[i].value)
  }

  predicate WithinLimits(wire: WireResult, limits: Limits) {
    && |wire.locations| <= limits.maxLocationsPerResult
    && |wire.fingerprints| + |wire.partialFingerprints| <= limits.maxFingerprintsPerResult
  }

  /** The result says what the decoded object says: every field, every location in place, every fingerprint once. */
  ghost predicate ShowsResult(wire: WireResult, result: SourceResult) {
    && result.guid == wire.guid && result.correlationGuid == wire.correlationGuid
    && result.ruleId == wire.ruleId && result.ruleIndex == wire.ruleIndex
    && result.level == wire.level && result.kind == wire.kind && result.baselineState == wire.baselineState
    && wire.message.Some? && wire.message.value.value == result.message
    && |result.locations| == |wire.locations|
    && (forall i :: 0 <= i < |wire.locations| ==>
          && ShowsLocation(wire.locations[i].value, result.locations[i])
          && result.locations[i].sourcePointer == IndexPath(result.sourcePointer + "/locations", i))
    && Lists(wire.fingerprints, result.fingerprints) && Lists(wire.partialFingerprints, result.partialFingerprints)
  }

  // ---------------------------------------------------------------------
  // Pointers
  // ---------------------------------------------------------------------

  function IndexPath(parent: string, index: nat): string { parent + "/" + Decimal(index) }

  /** Elements of one array have different pointers. */
  lemma PointersDiffer(parent: string, i: nat, j: nat)
    requires i != j
    ensures IndexPath(parent, i) != IndexPath(parent, j)
  {
    var n := |parent| + 1;
    assert IndexPath(parent, i)[n..] == Decimal(i) && IndexPath(parent, j)[n..] == Decimal(j);
    if Decimal(i) == Decimal(j) {
      DecimalInjective(i, j);
    }
  }

  // ---------------------------------------------------------------------
  // Unmapped members
  // ---------------------------------------------------------------------

  const LOCATION_MEMBERS: set<string> := {"physicalLocation"}
  const PHYSICAL_MEMBERS: set<string> := {"artifactLocation", "region"}
  const ARTIFACT_MEMBERS: set<string> := {"uri", "uriBaseId", "index"}
  const REGION_MEMBERS: set<string> := {"startLine", "startColumn", "endLine", "endColumn"}
  const MESSAGE_MEMBERS: set<string> := {"id", "text", "markdown", "arguments"}
  const RESULT_MEMBERS: set<string> := {
    "guid", "correlationGuid", "ruleId", "ruleIndex", "level", "kind", "baselineState", "message", "locations",
    "fingerprints", "partialFingerprints"}

  /** The unmapped members of one object. */
  datatype Note = Note(path: string, names: set<string>)

  function NoteOf(members: set<string>, path: string, known: set<string>): seq<Note> {
    if members - known == {} then [] else [Note(path, members - known)]
  }

  function PhysicalNotes(wire: Wire<Physical>, path: string): seq<Note> {
    NoteOf(wire.members, path, PHYSICAL_MEMBERS)
    + (if wire.value.artifact.None? then []
       else NoteOf(wire.value.artifact.value.members, path + "/artifactLocation", ARTIFACT_MEMBERS))
    + (if wire.value.region.None? then []
       else NoteOf(wire.value.region.value.members, path + "/region", REGION_MEMBERS))
  }

  /** The objects with unmapped members in a location, in reading order. */
  function LocationNotes(wire: Wire<Option<Wire<Physical>>>, path: string): seq<Note> {
    NoteOf(wire.members, path, LOCATION_MEMBERS)
    + (if wire.value.None? then [] else PhysicalNotes(wire.value.value, path + "/physicalLocation"))
  }

  function LocationsNotes(wires: seq<Wire<Option<Wire<Physical>>>>, path: string, n: nat): seq<Note>
    requires n <= |wires|
  {
    if n == 0 then [] else LocationsNotes(wires, path, n - 1) + LocationNotes(wires[n - 1], IndexPath(path, n - 1))
  }

  /** The objects with unmapped members in a result, in reading order. */
  function ResultNotes(raw: Wire<WireResult>, path: string): seq<Note>
    requires raw.value.message.Some?
  {
    NoteOf(raw.members, path, RESULT_MEMBERS)
    + NoteOf(raw.value.message.value.members, path + "/message", MESSAGE_MEMBERS)
    + LocationsNotes(raw.value.locations, path + "/locations", |raw.value.locations|)
  }

  /** The warning for a set of unmapped member names: their number and the least of them, in order. */
  ghost predicate WarningFor(names: set<string>, path: string, most: int, w: Warning) {
    && w.path == path && w.fieldCount == |names|
    && |w.fields| == Min(|names|, most)
    && (w.fieldsTruncated <==> |names| > most)
    && (forall f :: f in w.fields ==> f in names)
    && (forall i, j :: 0 <= i < j < |w.fields| ==> Order.Less(w.fields[i], w.fields[j]))
    && (forall f, g :: f in w.fields && g in names && g !in w.fields ==> Order.Less(f, g))
  }

  /** The warnings for the first objects, and whether there were more. */
  ghost predicate Shown(notes: seq<Note>, limits: Limits, warnings: seq<Warning>, truncated: bool) {
    && |warnings| == Min(|notes|, limits.maxWarnings)
    && (truncated <==> |notes| > limits.maxWarnings)
    && (forall k {:trigger warnings[k]} :: 0 <= k < |warnings| ==>
          && notes[k].names != {}
          && WarningFor(notes[k].names, notes[k].path, limits.maxUnsupportedFields, warnings[k]))
  }

  lemma ShownOneMore(notes: seq<Note>, limits: Limits, warnings: seq<Warning>, truncated: bool, note: Note, w: Warning)
    requires Shown(notes, limits, warnings, truncated) && |warnings| < limits.maxWarnings
    requires note.names != {} && WarningFor(note.names, note.path, limits.maxUnsupportedFields, w)
    ensures Shown(notes + [note], limits, warnings + [w], truncated)
  {
    forall k | 0 <= k < |warnings| + 1
      ensures var n := (notes + [note])[k];
              n.names != {} && WarningFor(n.names, n.path, limits.maxUnsupportedFields, (warnings + [w])[k])
    {
      if k < |warnings| {
        assert (warnings + [w])[k] == warnings[k] && (notes + [note])[k] == notes[k];
      }
    }
  }

  lemma ShownTruncated(notes: seq<Note>, limits: Limits, warnings: seq<Warning>, truncated: bool, note: Note)
    requires Shown(notes, limits, warnings, truncated) && |warnings| >= limits.maxWarnings > 0
    ensures Shown(notes + [note], limits, warnings, true)
  {
    forall k | 0 <= k < |warnings|
      ensures var n := (notes + [note])[k];
              n.names != {} && WarningFor(n.names, n.path, limits.maxUnsupportedFields, warnings[k])
    {
      assert WarningFor(notes[k].names, notes[k].path, limits.maxUnsupportedFields, warnings[k]);
      assert (notes + [note])[k] == notes[k];
    }
  }

  function Lesser(names: set<string>, f: string): set<string> {
    set g | g in names && Order.Less(g, f)
  }

  /** One of the least names: fewer than `most` others come before it. */
  predicate Listed(names: set<string>, most: int, f: string) {
    f in names && |Lesser(names, f)| < most
  }

  lemma {:induction false} AscendingSet(fields: seq<string>)
    requires forall i, j :: 0 <= i < j < |fields| ==> Order.Less(fields[i], fields[j])
    ensures |set f | f in fields| == |fields|
  {
    if fields != [] {
      var n := |fields| - 1;
      AscendingSet(fields[..n]);
      assert fields == fields[..n] + [fields[n]];
      assert (set f | f in fields) == (set f | f in fields[..n]) + {fields[n]};
      Order.LessIrreflexive(fields[n]);
    }
  }

  lemma LessThanListed(names: set<string>, path: string, most: int, w: Warning, i: nat)
    requires WarningFor(names, path, most, w) && i < |w.fields|
    ensures Lesser(names, w.fields[i]) == set f | f in w.fields[..i]
  {
    forall g | g in Lesser(names, w.fields[i]) ensures g in w.fields[..i] {
      Order.LessAsymmetric(g, w.fields[i]);
      assert g in w.fields;
      var j :| 0 <= j < |w.fields| && w.fields[j] == g;
    }
  }

  /** A warning lists exactly the least names. */
  lemma ListsTheLeast(names: set<string>, path: string, most: int, w: Warning, f: string)
    requires WarningFor(names, path, most, w)
    ensures f in w.fields <==> Listed(names, most, f)
  {
    if f in w.fields {
      var i :| 0 <= i < |w.fields| && w.fields[i] == f;
      LessThanListed(names, path, most, w, i);
      AscendingSet(w.fields[..i]);
    } else if f in names {
      var listed := set g | g in w.fields;
      AscendingSet(w.fields);
      Subset(listed, names - {f});
      Subset(listed, Lesser(names, f));
    }
  }

  lemma Subset(a: set<string>, b: set<string>)
    requires a <= b
    ensures |a| <= |b|
  {
    if a != {} {
      var x :| x in a;
      Subset(a - {x}, b - {x});
    }
  }

  // ---------------------------------------------------------------------
  // The parser
  // ---------------------------------------------------------------------

  /** The parser's running warnings, and as history the objects they are for. */
  class ParseState {
    const limits: Limits
    var warnings: seq<Warning>
    var warningsTruncated: bool
    ghost var notes: seq<Note>

    constructor (limits: Limits)
      requires 0 < limits.maxWarnings && 0 < limits.maxUnsupportedFields
      ensures Valid() && this.limits == limits && notes == []
    {
      this.limits, warnings, warningsTruncated, notes := limits, [], false, [];
    }

    ghost predicate Valid()
      reads this
    {
      && 0 < limits.maxWarnings && 0 < limits.maxUnsupportedFields
      && Shown(notes, limits, warnings, warningsTruncated)
    }

    /** At most one warning is added; one that does not fit only sets the flag. */
    method RecordUnsupported(fields: set<string>, path: string, known: set<string>)
      requires Valid()
      modifies this
      ensures Valid() && notes == old(notes) + NoteOf(fields, path, known)
    {
      var unknown := fields - known;
      if |unknown| == 0 {
        return;
      }
      ghost var before := notes;
      notes := notes + [Note(path, unknown)];
      if |warnings| >= limits.maxWarnings {
        ShownTruncated(before, limits, warnings, warningsTruncated, Note(path, unknown));
        warningsTruncated := true;
        return;
      }
      var names := SortedNames(unknown);
      var warning := Warning(path, |names|, names, false);
      if |names| > limits.maxUnsupportedFields {
        warning := Warning(path, |names|, names[..limits.maxUnsupportedFields], true);
        CutNames(unknown, path, names, limits.maxUnsupportedFields);
      }
      ShownOneMore(before, limits, warnings, warningsTruncated, Note(path, unknown), warning);
      warnings := warnings + [warning];
    }

    method ParseLocation(wire: Wire<Option<Wire<Physical>>>, parent: string, index: nat)
      returns (r: Result<Location, Error>)
      requires Valid()
      modifies this
      ensures Valid()
      ensures r.Ok? <==> WireLocationOk(wire.value)
      ensures r.Ok? ==> ShowsLocation(wire.value, r.value) && r.value.index == index
                        && r.value.sourcePointer == IndexPath(parent, index) && LocationAccepted(r.value)
      ensures r.Ok? ==> notes == old(notes) + LocationNotes(wire, IndexPath(parent, index))
      ensures r.Err? ==> r.error == InvalidSarif
    {
      var path := IndexPath(parent, index);
      RecordUnsupported(wire.members, path, LOCATION_MEMBERS);
      var location := Location(index, path, "", "", None, None);
      if wire.value.None? {
        return Ok(location);
      }
      r := ParsePhysical(wire.value.value, path + "/physicalLocation", location);
    }

    method ParsePhysical(wire: Wire<Physical>, path: string, location: Location) returns (r: Result<Location, Error>)
      requires Valid()
      requires location.artifactIndex.None? && location.region.None? && location.uri == location.uriBaseId == ""
      modifies this
      ensures Valid()
      ensures r.Ok? <==> WireLocationOk(Some(wire))
      ensures r.Ok? ==> ShowsLocation(Some(wire), r.value) && LocationAccepted(r.value)
                        && r.value.index == location.index && r.value.sourcePointer == location.sourcePointer
      ensures r.Ok? ==> notes == old(notes) + PhysicalNotes(wire, path)
      ensures r.Err? ==> r.error == InvalidSarif
    {
      var found := location;
      RecordUnsupported(wire.members, path, PHYSICAL_MEMBERS);
      if wire.value.artifact.Some? {
        var artifact := wire.value.artifact.value;
        if artifact.value.index.Some? && artifact.value.index.value < 0 {
          return Err(InvalidSarif);
        }
        RecordUnsupported(artifact.members, path + "/artifactLocation", ARTIFACT_MEMBERS);
        found := found.(uri := artifact.value.uri, uriBaseId := artifact.value.uriBaseId,
                        artifactIndex := artifact.value.index);
      }
      if wire.value.region.Some? {
        var region := wire.value.region.value;
        var ok := CheckRegion(region.value);
        if !ok {
          return Err(InvalidSarif);
        }
        RecordUnsupported(region.members, path + "/region", REGION_MEMBERS);
        found := found.(region := Some(region.value));
      }
      r := Ok(found);
    }

    method ParseMessage(wire: Wire<Message>, path: string) returns (r: Result<Message, Error>)
      requires Valid()
      modifies this
      ensures Valid()
      ensures r.Ok? <==> wire.value.id != "" || wire.value.text != ""
      ensures r.Ok? ==> r.value == wire.value && notes == old(notes) + NoteOf(wire.members, path, MESSAGE_MEMBERS)
      ensures r.Err? ==> r.error == InvalidSarif
    {
      if wire.value.id == "" && wire.value.text == "" {
        return Err(InvalidSarif);
      }
      RecordUnsupported(wire.members, path, MESSAGE_MEMBERS);
      r := Ok(wire.value);
    }

    method ParseLocations(wires: seq<Wire<Option<Wire<Physical>>>>, path: string)
      returns (r: Result<seq<Location>, Error>)
      requires Valid()
      modifies this
      ensures Valid()
      ensures r.Ok? <==> LocationsOk(wires, |wires|)
      ensures r.Ok? ==> ParsedLocations(wires, path, r.value) && |r.value| == |wires|
      ensures r.Ok? ==> notes == old(notes) + LocationsNotes(wires, path, |wires|)
      ensures r.Err? ==> r.error == InvalidSarif
    {
      var locations: seq<Location> := [];
      for i := 0 to |wires|
        invariant Valid() && |locations| == i && ParsedLocations(wires, path, locations)
        invariant notes == old(notes) + LocationsNotes(wires, path, i)
      {
        var location := ParseLocation(wires[i], path, i);
        if location.Err? {
          return Err(location.error);
        }
        NotesOneMore(old(notes), wires, path, i);
        ParsedOneMore(wires, path, locations, location.value);
        locations := locations + [location.value];
      }
      ParsedAreOk(wires, path, locations);
      r := Ok(locations);
    }

    /** One result: accepted exactly when well-formed and within limits, shown in full, every unmapped member noted. */
    method ParseResult(raw: Wire<WireResult>, parent: string, index: nat) returns (r: Result<SourceResult, Error>)
      requires Valid()
      modifies this
      ensures Valid()
      ensures r.Ok? <==> WireResultOk(raw.value) && WithinLimits(raw.value, limits)
      ensures r.Ok? ==> ShowsResult(raw.value, r.value) && ResultAccepted(r.value)
                        && r.value.index == index && r.value.sourcePointer == IndexPath(parent, index)
      ensures r.Ok? ==> notes == old(notes) + ResultNotes(raw, IndexPath(parent, index))
      ensures r == Err(LimitExceeded) ==> !WithinLimits(raw.value, limits)
    {
      var wire, path := raw.value, IndexPath(parent, index);
      var refusal := CheckResult(wire, limits);
      if refusal.Some? {
        return Err(refusal.value);
      }
      RecordUnsupported(raw.members, path, RESULT_MEMBERS);
      var message := ParseMessage(wire.message.value, path + "/message");
      if message.Err? {
        return Err(message.error);
      }
      var locations := ParseLocations(wire.locations, path + "/locations");
      if locations.Err? {
        return Err(locations.error);
      }
      Regroup(old(notes), NoteOf(raw.members, path, RESULT_MEMBERS),
              NoteOf(wire.message.value.members, path + "/message", MESSAGE_MEMBERS),
              LocationsNotes(wire.locations, path + "/locations", |wire.locations|));
      var result := ResultOf(wire, path, index, locations.value);
      r := Ok(result);
    }
  }

  lemma Regroup(before: seq<Note>, a: seq<Note>, b: seq<Note>, c: seq<Note>)
    ensures before + a + b + c == before + (a + b + c)
  {
  }

  lemma NotesOneMore(before: seq<Note>, wires: seq<Wire<Option<Wire<Physical>>>>, path: string, i: nat)
    requires i < |wires|
    ensures before + LocationsNotes(wires, path, i) + LocationNotes(wires[i], IndexPath(path, i))
            == before + LocationsNotes(wires, path, i + 1)
  {
  }

  /** The locations of a result, each in its place. */
  predicate ParsedLocations(wires: seq<Wire<Option<Wire<Physical>>>>, path: string, locations: seq<Location>) {
    && |locations| <= |wires|
    && forall i :: 0 <= i < |locations| ==> ParsedLocation(wires[i], path, i, locations[i])
  }

  /** A location that was shown and accepted was decoded from a well-formed object. */
  lemma ParsedAreOk(wires: seq<Wire<Option<Wire<Physical>>>>, path: string, locations: seq<Location>)
    requires ParsedLocations(wires, path, locations) && |locations| == |wires|
    ensures LocationsOk(wires, |wires|)
  {
    forall i | 0 <= i < |wires| ensures WireLocationOk(wires[i].value) {
      assert ParsedLocation(wires[i], path, i, locations[i]);
    }
  }

  lemma ParsedOneMore(wires: seq<Wire<Option<Wire<Physical>>>>, path: string, locations: seq<Location>, l: Location)
    requires ParsedLocations(wires, path, locations) && |locations| < |wires|
    requires ParsedLocation(wires[|locations|], path, |locations|, l)
    ensures ParsedLocations(wires, path, locations + [l])
  {
  }

  predicate ParsedLocation(wire: Wire<Option<Wire<Physical>>>, path: string, i: nat, l: Location) {
    ShowsLocation(wire.value, l) && LocationAccepted(l) && l.index == i && l.sourcePointer == IndexPath(path, i)
  }

  /** The checks before anything is recorded, in the parser's order. */
  method CheckResult(wire: WireResult, limits: Limits) returns (refusal: Option<Error>)
    ensures refusal.None? <==> WireFieldsOk(wire) && WithinLimits(wire, limits)
    ensures refusal == Some(LimitExceeded) ==> !WithinLimits(wire, limits)
  {
    if wire.message.None? {
      return Some(InvalidSarif);
    }
    if wire.ruleIndex.Some? && wire.ruleIndex.value < 0 {
      return Some(InvalidSarif);
    }
    if wire.level != "" && !ValidLevel(wire.level) {
      return Some(InvalidSarif);
    }
    if wire.kind != "" && !ValidKind(wire.kind) {
      return Some(InvalidSarif);
    }
    if wire.baselineState != "" && !ValidBaselineState(wire.baselineState) {
      return Some(InvalidSarif);
    }
    if |wire.locations| > limits.maxLocationsPerResult {
      return Some(LimitExceeded);
    }
    if |wire.fingerprints| + |wire.partialFingerprints| > limits.maxFingerprintsPerResult {
      return Some(LimitExceeded);
    }
    refusal := None;
  }

  /** The record of an accepted result. */
  method ResultOf(wire: WireResult, path: string, index: nat, locations: seq<Location>) returns (result: SourceResult)
    requires WireResultOk(wire) && ParsedLocations(wire.locations, path + "/locations", locations)
    requires |locations| == |wire.locations|
    ensures ShowsResult(wire, result) && ResultAccepted(result)
    ensures result.index == index && result.sourcePointer == path
  {
    var fingerprints := NamedValues(wire.fingerprints);
    var partial := NamedValues(wire.partialFingerprints);
    result := SourceResult(index, path, wire.guid, wire.correlationGuid, wire.ruleId, wire.ruleIndex, wire.level,
                           wire.kind, wire.baselineState, wire.message.value.value, locations, fingerprints, partial);
    assert forall i :: 0 <= i < |locations| ==> ParsedLocation(wire.locations[i], path + "/locations", i, locations[i]);
  }

  lemma CutNames(names: set<string>, path: string, sorted: seq<string>, most: int)
    requires 0 < most < |sorted| == |names|
    requires forall name :: name in names <==> name in sorted
    requires forall i, j :: 0 <= i < j < |sorted| ==> Order.Less(sorted[i], sorted[j])
    ensures WarningFor(names, path, most, Warning(path, |sorted|, sorted[..most], true))
  {
    var fields := sorted[..most];
    assert forall k :: 0 <= k < most ==> sorted[k] == fields[k];
    forall f, g | f in fields && g in names && g !in fields ensures Order.Less(f, g) {
      var i :| 0 <= i < most && fields[i] == f;
      var j :| 0 <= j < |sorted| && sorted[j] == g;
    }
  }
}
