/**
 Numbers the columns cannot hold. The parser and validation bound line
 numbers from below only; the columns are 32 bits wide.
 */
module ImportRange {
  import opened Base
  import opened Text
  import Sarif
  import Finding
  import opened Scans
  import opened Records
  import opened Ingestion
  import opened Importer
  import opened DocumentFits
  import opened ImportStages
  import opened ImportInvariant
  import opened ImportRuns

  /** A result that names one line and nothing else. */
  function WireAt(line: int): Sarif.WireResult {
    var region := Sarif.Wire({"startLine"}, Sarif.Region(Some(line), None, None, None));
    var place := Sarif.Wire({"region"}, Sarif.Physical(None, Some(region)));
    Sarif.WireResult("", "", "", None, "", "", "", Some(Sarif.Wire({"id"}, Sarif.Message("m", "", "", []))),
                     [Sarif.Wire({"physicalLocation"}, Some(place))], map[], map[])
  }

  function PlaceAt(line: int): Sarif.Location {
    Sarif.Location(0, "/runs/0/results/0/locations/0", "", "", None, Some(Sarif.Region(Some(line), None, None, None)))
  }

  function ResultOnLine(line: int): Sarif.SourceResult {
    Sarif.SourceResult(0, "/runs/0/results/0", "", "", "", None, "", "", "", Sarif.Message("m", "", "", []),
                       [PlaceAt(line)], [], [])
  }

  function ReportOn(line: int): Sarif.Document {
    Sarif.Document([Sarif.Run(0, "/runs/0", Sarif.Tool("t", "", "", ""), None, [], [ResultOnLine(line)])], [], false)
  }

  /** The parser takes every positive line number. */
  lemma EveryLineParses(line: int)
    requires line > 0
    ensures Sarif.WireResultOk(WireAt(line)) && Sarif.ShowsResult(WireAt(line), ResultOnLine(line))
    ensures Sarif.ResultAccepted(ResultOnLine(line))
  {
    assert Decimal(0) == "0";
    assert Sarif.IndexPath("/runs/0/results/0" + "/locations", 0) == "/runs/0/results/0/locations/0";
  }

  lemma PointersAreText()
    ensures ValidText("/runs/0", 1, 1024) && ValidText("/runs/0/results/0", 1, 1024)
  {
    PlainText("/runs/0", 1024);
    PlainText("/runs/0/results/0", 1024);
  }

  lemma PlaceIsText()
    ensures ValidText("/runs/0/results/0/locations/0", 1, 1024)
  {
    PlainText("/runs/0/results/0/locations/0", 1024);
  }

  lemma NamesAreText()
    ensures ValidText("t", 1, 255) && ValidText("m", 1, 512)
  {
    PlainText("t", 255);
    PlainText("m", 512);
  }

  /** A document of one run with one result in one place, and few texts. */
  lemma BareDocumentFits(pointer: string, tool: string, result: Sarif.SourceResult, place: Sarif.Location)
    requires ValidText(pointer, 1, 1024) && ValidText(tool, 1, 255) && Sarif.ResultAccepted(result)
    requires result.index == 0 && ValidText(result.sourcePointer, 1, 1024) && ValidText(result.message.id, 1, 512)
    requires result.guid == result.correlationGuid == result.ruleId == ""
    requires result.message == Sarif.Message(result.message.id, "", "", [])
    requires result.locations == [place] && ValidText(place.sourcePointer, 1, 1024)
    requires place.uri == "" && place.uriBaseId == ""
    requires result.fingerprints == [] && result.partialFingerprints == []
    ensures RecordsFit(Sarif.Document([Sarif.Run(0, pointer, Sarif.Tool(tool, "", "", ""), None, [], [result])], [],
                                      false))
  {
    assert PlaceFits(place);
    assert ResultTextsFit(result);
  }

  lemma NoWarningsFit(src: Source, doc: Sarif.Document)
    requires SourceOk(src) && doc.warnings == []
    ensures ParseFits(src, doc)
  {
  }

  /** Validation takes every positive line number, and the columns take those of 31 bits. */
  lemma EveryLineIsValid(src: Source, line: int)
    requires SourceOk(src) && line > 0
    ensures DocumentOk(src, ReportOn(line))
    ensures DocumentInRange(ReportOn(line)) <==> line <= 0x7FFF_FFFF
  {
    EveryLineParses(line);
    PointersAreText();
    PlaceIsText();
    NamesAreText();
    BareDocumentFits("/runs/0", "t", ResultOnLine(line), PlaceAt(line));
    NoWarningsFit(src, ReportOn(line));
    DocumentOkIff(src, ReportOn(line));
    LineInRangeIff(line);
  }

  lemma LineInRangeIff(line: int)
    requires line > 0
    ensures DocumentInRange(ReportOn(line)) <==> line <= 0x7FFF_FFFF
  {
    var report := ReportOn(line);
    assert report.runs[0].results[0].locations[0] == PlaceAt(line);
    assert PlaceInRange(PlaceAt(line)) <==> line <= 0x7FFF_FFFF;
  }

  /** A report with one result on line three billion parses, validates and is never imported, in any run. */
  lemma LargeLineIsNeverImported(task: Task, ws: seq<World>, es: seq<Event>, k: nat)
    requires task.doc == ReportOn(3_000_000_000)
    requires IsRun(task, ws, es) && k < |ws|
    ensures Sarif.WireResultOk(WireAt(3_000_000_000)) && DocumentOk(task.src, task.doc)
    ensures Found(ws[k].store, task.id) && StateOf(ws[k].store, task.id) != OpSucceeded
  {
    EveryLineParses(3_000_000_000);
    EveryLineIsValid(task.src, 3_000_000_000);
    SuccessIsInRange(task, ws, es, k);
  }

  /** Every attempt to record its result is refused, whatever the clock and the id. */
  lemma LargeLineIsRefused(task: Task, ws: seq<World>, es: seq<Event>, k: nat)
    requires task.doc == ReportOn(3_000_000_000)
    requires IsRun(task, ws, es) && k < |es| && Works(task, ws[k], es[k])
    requires ws[k].handlers[es[k].h].pc.Observing?
    ensures es[k].h in ws[k + 1].handlers && ws[k + 1].handlers[es[k].h].pc.Stopped?
  {
    RetriesMakeProgress(task, ws, es, k);
    OnlyPlace(ws[k].handlers[es[k].h].pc);
  }

  lemma OnlyPlace(pc: Pc)
    requires pc.Observing? && InDocument(ReportOn(3_000_000_000), pc)
    ensures !StageInRange(ReportOn(3_000_000_000), pc)
  {
    assert !PlaceInRange(ResultOnLine(3_000_000_000).locations[0]);
  }
}
