/** The mapping of parsed results onto observations, and that nothing the parser read is lost in the stored record. */
module Mapping {
  import opened Base
  import opened Sorting
  import Sarif
  import Finding
  import opened Scans

  /** The two filling loops. */
  method MapResult(source: Source, scan: string, result: Sarif.SourceResult, id: string, recordedAt: Instant)
    returns (spec: Finding.ObservationSpec)
    ensures spec == MapObservation(source, scan, result, id, recordedAt)
  {
    var locations: seq<Finding.Location> := [];
    for i := 0 to |result.locations|
      invariant locations == MapLocations(result.locations)[..i]
    {
      var location := result.locations[i];
      var mapped := Finding.Location(location.index, location.sourcePointer, location.uri, location.uriBaseId,
                                     location.artifactIndex, None, None, None, None);
      if location.region.Some? {
        var region := location.region.value;
        mapped := mapped.(startLine := region.startLine, startColumn := region.startColumn,
            endLine := region.endLine, endColumn := region.endColumn);
      }
      locations := locations + [mapped];
    }
    var fingerprints: seq<Finding.SourceFingerprint> := [];
    for i := 0 to |result.fingerprints|
      invariant fingerprints == MapFingerprints(result)[..i]
    {
      var value := result.fingerprints[i];
      fingerprints := fingerprints + [Finding.SourceFingerprint("complete", value.name, value.value)];
    }
    ghost var n := |result.fingerprints|;
    for i := 0 to |result.partialFingerprints|
      invariant fingerprints == MapFingerprints(result)[..n + i]
    {
      var value := result.partialFingerprints[i];
      fingerprints := fingerprints + [Finding.SourceFingerprint("partial", value.name, value.value)];
    }
    spec := Finding.ObservationSpec(id, source.workspace, scan, source.rawArtifact, result.index, Sarif.FORMAT,
                                    Sarif.PARSER_VERSION, result.sourcePointer, MapFacts(result), locations,
                                    fingerprints, recordedAt);
  }

  // ---------------------------------------------------------------------
  // Back from the stored record
  // ---------------------------------------------------------------------

  const NOWHERE: Sarif.Region := Sarif.Region(None, None, None, None)

  /** A region without positions is stored like an absent one. */
  function PlainLocation(l: Sarif.Location): Sarif.Location {
    if l.region == Some(NOWHERE) then l.(region := None) else l
  }

  function Plain(result: Sarif.SourceResult): Sarif.SourceResult {
    result.(locations := seq(|result.locations|,
                             i requires 0 <= i < |result.locations| => PlainLocation(result.locations[i])))
  }

  function LocationBack(l: Finding.Location): Sarif.Location {
    var region := Sarif.Region(l.startLine, l.startColumn, l.endLine, l.endColumn);
    Sarif.Location(l.ordinal, l.sourcePointer, l.uri, l.uriBaseId, l.artifactIndex,
                   if region == NOWHERE then None else Some(region))
  }

  function OfKind(fs: seq<Finding.SourceFingerprint>, kind: string): seq<Sarif.NamedValue> {
    if fs == [] then []
    else (if fs[0].kind == kind then [Sarif.NamedValue(fs[0].name, fs[0].value)] else []) + OfKind(fs[1..], kind)
  }

  /** The parsed result a stored record stands for. */
  function ResultBack(r: Finding.CanonicalObservation): Sarif.SourceResult {
    Sarif.SourceResult(
      r.resultIndex, r.sourcePointer, r.facts.guid, r.facts.correlationGuid, r.facts.ruleId, r.facts.ruleIndex,
      r.facts.severity, r.facts.kind, r.facts.baselineState,
      Sarif.Message(r.facts.messageId, r.facts.messageText, r.facts.messageMarkdown, r.facts.messageArguments),
      seq(|r.locations|, i requires 0 <= i < |r.locations| => LocationBack(r.locations[i])),
      OfKind(r.fingerprints, "complete"), OfKind(r.fingerprints, "partial"))
  }

  /** The records of a kind among mapped values: all of them or none. */
  lemma {:induction false} OfKindMapped(values: seq<Sarif.NamedValue>, own: string, kind: string,
                                        rest: seq<Finding.SourceFingerprint>)
    ensures var fs := seq(|values|, i requires 0 <= i < |values| => MapFingerprint(own, values[i]));
            OfKind(fs + rest, kind) == (if own == kind then values else []) + OfKind(rest, kind)
  {
    var fs := seq(|values|, i requires 0 <= i < |values| => MapFingerprint(own, values[i]));
    if values == [] {
      assert fs + rest == rest;
    } else {
      var tail := values[1..];
      var ts := seq(|tail|, i requires 0 <= i < |tail| => MapFingerprint(own, tail[i]));
      OfKindMapped(tail, own, kind, rest);
      assert (fs + rest)[1..] == ts + rest;
      assert values == [values[0]] + tail;
    }
  }

  lemma FingerprintsBack(result: Sarif.SourceResult)
    ensures OfKind(MapFingerprints(result), "complete") == result.fingerprints
    ensures OfKind(MapFingerprints(result), "partial") == result.partialFingerprints
  {
    var complete, partial := result.fingerprints, result.partialFingerprints;
    var ps := seq(|partial|, i requires 0 <= i < |partial| => MapFingerprint("partial", partial[i]));
    assert "complete"[0] != "partial"[0];
    assert ps + [] == ps;
    OfKindMapped(complete, "complete", "complete", ps);
    OfKindMapped(complete, "complete", "partial", ps);
    OfKindMapped(partial, "partial", "complete", []);
    OfKindMapped(partial, "partial", "partial", []);
  }

  /** What is already in order is left as it is. */
  lemma ArrangedStays<T(!new)>(less: (T, T) -> bool, s: seq<T>)
    requires StrictWeak(less) && forall i, j :: 0 <= i < j < |s| ==> less(s[i], s[j])
    ensures Arranged(less, s) == s
  {
    forall i, j | 0 <= i < j < |s| ensures !less(s[j], s[i]) {
      assert OrderLaws(less, s[i], s[j], s[i]);
    }
    UniqueArrangement(less, s, Arranged(less, s));
  }

  /** The stored record of an accepted result gives the result back, whatever scan and import it belongs to. */
  lemma StoredRecordKeepsResult(source: Source, scan: string, result: Sarif.SourceResult, id: string,
                                recordedAt: Instant)
    requires Sarif.ResultAccepted(result)
    ensures ResultBack(Finding.CanonicalOf(MapObservation(source, scan, result, id, recordedAt))) == Plain(result)
  {
    var record := Finding.CanonicalOf(MapObservation(source, scan, result, id, recordedAt));
    MappedInOrder(result);
    Finding.OrdinalOrder();
    Finding.FingerprintOrder();
    ArrangedStays(Finding.OrdinalLess, MapLocations(result.locations));
    ArrangedStays(Finding.FingerprintLess, MapFingerprints(result));
    FingerprintsBack(result);
    assert ResultBack(record).locations == Plain(result).locations;
  }

  /** Equal stored records come only from equal results, so a fingerprint comparison never hides a difference. */
  lemma EqualRecordsEqualResults(source: Source, scan: string, a: Sarif.SourceResult, b: Sarif.SourceResult,
                                 id: string, id': string, at: Instant, at': Instant)
    requires Sarif.ResultAccepted(a) && Sarif.ResultAccepted(b)
    requires Finding.CanonicalOf(MapObservation(source, scan, a, id, at))
             == Finding.CanonicalOf(MapObservation(source, scan, b, id', at'))
    ensures Plain(a) == Plain(b)
  {
    StoredRecordKeepsResult(source, scan, a, id, at);
    StoredRecordKeepsResult(source, scan, b, id', at');
  }
}
