/**
 Which documents can be recorded. The parser bounds a document as a whole; the
 records have limits of their own. A document passes them exactly when its
 texts and lists do, whatever ids are generated and whenever it is recorded.
 */
module DocumentFits {
  import opened Base
  import opened Text
  import Sorting
  import Sarif
  import Finding
  import opened Scans
  import opened Importer

  const ONE_MEBIBYTE: nat := 1_048_576

  predicate FitsBytes(s: string) { |s| <= ONE_MEBIBYTE && NoNul(s) }

  // ---------------------------------------------------------------------
  // Runs
  // ---------------------------------------------------------------------

  /** The texts of a run are within the limits of a scan. */
  predicate RunFits(run: Sarif.Run) {
    && run.index >= 0 && ValidText(run.sourcePointer, 1, 1024)
    && ValidText(run.tool.name, 1, 255) && ValidOptionalText(run.tool.fullName, 512)
    && ValidOptionalText(run.tool.version, 128) && ValidOptionalText(run.tool.semanticVersion, 128)
    && (run.automation.Some? ==>
          && ValidOptionalText(run.automation.value.id, 512) && ValidOptionalText(run.automation.value.guid, 128)
          && ValidOptionalText(run.automation.value.correlationGuid, 128))
  }

  lemma FixedScopes()
    ensures ValidDomainName("unknown", 128) && ValidDomainName("sast", 128)
  {
  }

  /** A run is recorded as a scan exactly when its texts are within the limits; its times never stand in the way. */
  lemma ScanFitsIff(src: Source, run: Sarif.Run)
    requires SourceOk(src)
    ensures ScanFits(src, run) <==> RunFits(run)
  {
    FixedNames();
    FixedScopes();
    if ScanFits(src, run) {
      assert ValidScan(MapScan(src, run, src.workspace, 1));
    }
  }

  // ---------------------------------------------------------------------
  // Results
  // ---------------------------------------------------------------------

  predicate PlaceFits(l: Sarif.Location) {
    ValidText(l.sourcePointer, 1, 1024) && FitsBytes(l.uri) && ValidOptionalText(l.uriBaseId, 512)
  }

  predicate PairFits(pair: Sarif.NamedValue) {
    ValidText(pair.name, 1, 512) && pair.value != "" && FitsBytes(pair.value)
  }

  predicate FactsFit(result: Sarif.SourceResult) {
    && ValidOptionalText(result.guid, 128) && ValidOptionalText(result.correlationGuid, 128)
    && ValidOptionalText(result.ruleId, 512) && ValidOptionalText(result.message.id, 512)
    && FitsBytes(result.message.text) && FitsBytes(result.message.markdown)
    && |result.message.arguments| <= 1000
  }

  /** The texts and lists of a result are within the limits of an observation. */
  ghost predicate ResultTextsFit(result: Sarif.SourceResult) {
    && result.index >= 0 && ValidText(result.sourcePointer, 1, 1024) && FactsFit(result)
    && |result.locations| <= 1000 && |result.fingerprints| + |result.partialFingerprints| <= 2000
    && (forall a :: a in result.message.arguments ==> FitsBytes(a))
    && (forall l :: l in result.locations ==> PlaceFits(l))
    && (forall f :: f in result.fingerprints ==> PairFits(f))
    && (forall f :: f in result.partialFingerprints ==> PairFits(f))
  }

  /** The terms of the standard are short. */
  lemma TermsAreShort(term: string)
    requires term == "" || Sarif.ValidLevel(term) || Sarif.ValidKind(term) || Sarif.ValidBaselineState(term)
    ensures ValidOptionalText(term, 64)
  {
    if term != "" {
      PlainText(term, 64);
    }
  }

  lemma FactsFitIff(result: Sarif.SourceResult)
    requires ValidOptionalText(result.level, 64) && ValidOptionalText(result.kind, 64)
    requires ValidOptionalText(result.baselineState, 64) && Finding.ValidIndex(result.ruleIndex)
    ensures Finding.ValidFacts(MapFacts(result)) <==> FactsFit(result)
  {
  }

  lemma PlacesFitIff(locations: seq<Sarif.Location>)
    requires forall i :: 0 <= i < |locations| ==> locations[i].index == i && Sarif.LocationAccepted(locations[i])
    ensures (forall l :: l in MapLocations(locations) ==> Finding.ValidLocation(l)) <==>
            (forall l :: l in locations ==> PlaceFits(l))
  {
    var mapped := MapLocations(locations);
    forall i | 0 <= i < |locations| ensures Finding.ValidLocation(mapped[i]) <==> PlaceFits(locations[i]) {
      assert Sarif.LocationAccepted(locations[i]);
    }
    assert forall i :: 0 <= i < |locations| ==> mapped[i] in mapped && locations[i] in locations;
  }

  lemma PairsFitIff(result: Sarif.SourceResult)
    ensures (forall f :: f in MapFingerprints(result) ==> Finding.ValidFingerprint(f)) <==>
            && (forall f :: f in result.fingerprints ==> PairFits(f))
            && (forall f :: f in result.partialFingerprints ==> PairFits(f))
  {
    var mapped, complete, partial := MapFingerprints(result), result.fingerprints, result.partialFingerprints;
    assert forall i :: 0 <= i < |complete| ==> mapped[i] == MapFingerprint("complete", complete[i]);
    assert forall i :: 0 <= i < |partial| ==> mapped[|complete| + i] == MapFingerprint("partial", partial[i]);
    assert forall i :: 0 <= i < |complete| ==> mapped[i] in mapped && complete[i] in complete;
    assert forall i :: 0 <= i < |partial| ==> mapped[|complete| + i] in mapped && partial[i] in partial;
  }

  /** An observation of an accepted result passes validation exactly when the texts and lists of the result fit. */
  lemma ObservationFitsIff(src: Source, scan: string, result: Sarif.SourceResult, id: string, at: Instant)
    requires SourceOk(src) && ValidOpaqueId(scan) && ValidOpaqueId(id) && at != 0 && Sarif.ResultAccepted(result)
    ensures Finding.ValidObservation(MapObservation(src, scan, result, id, at)) <==> ResultTextsFit(result)
  {
    FixedNames();
    TermsAreShort(result.level);
    TermsAreShort(result.kind);
    TermsAreShort(result.baselineState);
    FactsFitIff(result);
    PlacesFitIff(result.locations);
    PairsFitIff(result);
    MappedInOrder(result);
  }

  lemma ResultFitsIff(src: Source, result: Sarif.SourceResult)
    requires SourceOk(src)
    ensures ResultFits(src, result) <==> Sarif.ResultAccepted(result) && ResultTextsFit(result)
  {
    if Sarif.ResultAccepted(result) {
      forall scan, id, at | ValidOpaqueId(scan) && ValidOpaqueId(id) && at != 0
        ensures Finding.ValidObservation(MapObservation(src, scan, result, id, at)) <==> ResultTextsFit(result)
      {
        ObservationFitsIff(src, scan, result, id, at);
      }
      var id := src.workspace;
      assert ResultFits(src, result) ==> Finding.ValidObservation(MapObservation(src, id, result, id, 1));
    }
  }

  // ---------------------------------------------------------------------
  // Documents
  // ---------------------------------------------------------------------

  /** Every run and every result of a numbered document is within the limits of its records. */
  ghost predicate RecordsFit(doc: Sarif.Document) {
    && (forall i :: 0 <= i < |doc.runs| ==> doc.runs[i].index == i && RunFits(doc.runs[i]))
    && (forall i, j :: 0 <= i < |doc.runs| && 0 <= j < |doc.runs[i].results| ==>
          && doc.runs[i].results[j].index == j
          && Sarif.ResultAccepted(doc.runs[i].results[j]) && ResultTextsFit(doc.runs[i].results[j]))
  }

  /** The documents the import results are about are exactly these, with recordable warnings. */
  lemma DocumentOkIff(src: Source, doc: Sarif.Document)
    requires SourceOk(src)
    ensures DocumentOk(src, doc) <==> ParseFits(src, doc) && RecordsFit(doc)
  {
    forall i | 0 <= i < |doc.runs| ensures ScanFits(src, doc.runs[i]) <==> RunFits(doc.runs[i]) {
      ScanFitsIff(src, doc.runs[i]);
    }
    forall i, j | 0 <= i < |doc.runs| && 0 <= j < |doc.runs[i].results|
      ensures ResultFits(src, doc.runs[i].results[j]) <==>
              Sarif.ResultAccepted(doc.runs[i].results[j]) && ResultTextsFit(doc.runs[i].results[j])
    {
      ResultFitsIff(src, doc.runs[i].results[j]);
    }
  }
}
