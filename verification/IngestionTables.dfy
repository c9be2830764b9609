/** The ingestion store and the upload service, updated in place. */
module IngestionTables {
  import opened Base
  import Streams
  import opened Ingestion
  import Lifecycle
  import opened Uploads

  class Database {
    var imports: map<Key, ImportRow>
    var artifacts: map<Key, ArtifactRow>
    var operations: map<Key, OperationRow>
    var creates: map<Scope, CreateClaim>
    var completes: map<Scope, CompleteClaim>
    var jobs: map<Key, JobRow>

    constructor ()
      ensures View() == Lifecycle.EMPTY
    {
      imports, artifacts, operations, creates, completes, jobs := map[], map[], map[], map[], map[], map[];
    }

    function View(): Store
      reads this
    {
      Store(imports, artifacts, operations, creates, completes, jobs)
    }

    method Reserve(spec: ReserveSpec) returns (r: Result<Reservation, Error>)
      modifies this
      ensures (View(), r) == ReserveStep(old(View()), spec)
    {
      var scope := ReserveScope(spec);
      if scope in creates {
        var k := Key(spec.k.workspace, creates[scope].import_);
        if k !in imports {
          return Err(Backend);
        }
        if creates[scope].request != RequestOf(spec.terms) {
          return Err(IdempotencyConflict);
        }
        return Ok(Reservation(k.id, imports[k], false));
      }
      if spec.exceedsLimit {
        return Err(TooLarge);
      }
      var imp := ImportRow(spec.terms, AwaitingUpload, spec.terms.createdAt);
      if spec.k in imports || spec.k in artifacts || PlaceUsed(View(), spec.place)
         || ArtifactIdUsed(View(), spec.k.workspace, spec.artifact) || !ImportChecks(imp) {
        return Err(Backend);
      }
      creates := creates[scope := CreateClaim(RequestOf(spec.terms), spec.k.id)];
      imports := imports[spec.k := imp];
      artifacts := artifacts[spec.k := ArtifactRow(spec.artifact, spec.place, Pending, None, None, None, "",
                                                   spec.terms.createdAt, spec.terms.createdAt)];
      r := Ok(Reservation(spec.k.id, imp, true));
    }

    method Abandon(k: Key, at: Time) returns (r: Result<Session, Error>)
      requires k in imports
      modifies this`imports, this`artifacts
      ensures (View(), r) == AbandonStep(old(View()), k, at)
    {
      var imp := Moved(imports[k], Abandoned, at);
      if !ImportChecks(imp) {
        return Err(Backend);
      }
      if k in artifacts {
        var art := Dropping(artifacts[k], at);
        if !ArtifactChecks(art) {
          return Err(Backend);
        }
        artifacts := artifacts[k := art];
      }
      imports := imports[k := imp];
      r := Err(UploadExpired);
    }

    method Lease(spec: BeginSpec) returns (r: Result<Session, Error>)
      requires spec.k in imports
      modifies this`imports, this`artifacts
      ensures (View(), r) == LeaseStep(old(View()), spec)
    {
      var art: ArtifactRow;
      if spec.k !in artifacts {
        if PlaceUsed(View(), spec.place) || ArtifactIdUsed(View(), spec.k.workspace, spec.artifact) {
          return Err(Backend);
        }
        art := ArtifactRow(spec.artifact, spec.place, Receiving, Some(spec.attempt), Some(spec.leaseExpiresAt), None,
            "", spec.startedAt, spec.startedAt);
      } else {
        var current := artifacts[spec.k];
        match current.state {
          case Receiving =>
            if current.leaseExpiresAt.Some? && current.leaseExpiresAt.value > spec.startedAt {
              return Err(UploadInProgress);
            }
          case Pending =>
          case _ =>
            return Err(UploadConflict);
        }
        art := current.(state := Receiving, attempt := Some(spec.attempt),
            leaseExpiresAt := Some(spec.leaseExpiresAt), updatedAt := spec.startedAt);
      }
      var imp := Moved(imports[spec.k], Uploading, spec.startedAt);
      if !ImportChecks(imp) || !ArtifactChecks(art) {
        return Err(Backend);
      }
      artifacts := artifacts[spec.k := art];
      imports := imports[spec.k := imp];
      r := Ok(Session(spec.k, art.id, art.place, spec.attempt, imp.terms, None));
    }

    method BeginUpload(spec: BeginSpec) returns (r: Result<Session, Error>)
      modifies this`imports, this`artifacts
      ensures (View(), r) == BeginUploadStep(old(View()), spec)
    {
      if !Owned(View(), spec.k, spec.application, spec.principal) {
        return Err(ImportNotFound);
      }
      var imp := imports[spec.k];
      if imp.state == Uploaded {
        if spec.k !in artifacts || artifacts[spec.k].state != Committed || artifacts[spec.k].evidence.None? {
          return Err(EvidenceBroken);
        }
        var art := artifacts[spec.k];
        return Ok(Session(spec.k, art.id, art.place, "", imp.terms, Some(ReceiptOf(art.evidence.value))));
      }
      if imp.state != AwaitingUpload && imp.state != Uploading {
        return Err(UploadConflict);
      }
      if spec.startedAt >= imp.terms.uploadExpiresAt {
        r := Abandon(spec.k, spec.startedAt);
      } else {
        r := Lease(spec);
      }
    }

    method CommitUpload(k: Key, artifact: string, attempt: string, e: Evidence) returns (r: Result<Receipt, Error>)
      modifies this`imports, this`artifacts
      ensures (View(), r) == CommitUploadStep(old(View()), k, artifact, attempt, e)
    {
      if e.size < 0 || e.version == "" || e.committedAt == 0 {
        return Err(Invalid);
      }
      if !Holds(View(), k, artifact, attempt) || artifacts[k].leaseExpiresAt.None?
         || artifacts[k].leaseExpiresAt.value < e.committedAt {
        return Err(LeaseLost);
      }
      var art := artifacts[k].(state := Committed, attempt := None, leaseExpiresAt := None, evidence := Some(e),
          updatedAt := e.committedAt);
      if !ArtifactChecks(art) {
        return Err(Backend);
      }
      if k !in imports || imports[k].state != Uploading {
        return Err(LeaseLost);
      }
      var imp := Moved(imports[k], Uploaded, e.committedAt);
      if !ImportChecks(imp) {
        return Err(Backend);
      }
      artifacts := artifacts[k := art];
      imports := imports[k := imp];
      r := Ok(ReceiptOf(e));
    }

    method EndUpload(k: Key, artifact: string, attempt: string, rejectCode: string, at: Time)
      returns (r: Result<(), Error>)
      modifies this`imports, this`artifacts
      ensures (View(), r) == EndUploadStep(old(View()), k, artifact, attempt, rejectCode, at)
    {
      var artifactState, importState := Pending, AwaitingUpload;
      if rejectCode != "" {
        artifactState, importState := Refused, Rejected;
      }
      if !Holds(View(), k, artifact, attempt) {
        return Err(LeaseLost);
      }
      var art := artifacts[k].(state := artifactState, attempt := None, leaseExpiresAt := None,
          rejection := rejectCode, updatedAt := at);
      if !ArtifactChecks(art) {
        return Err(Backend);
      }
      if k !in imports || imports[k].state != Uploading {
        return Err(LeaseLost);
      }
      var imp := Moved(imports[k], importState, at);
      if !ImportChecks(imp) {
        return Err(Backend);
      }
      artifacts := artifacts[k := art];
      imports := imports[k := imp];
      r := Ok(());
    }

    method Complete(spec: CompleteSpec) returns (r: Result<Completion, Error>)
      modifies this
      ensures (View(), r) == CompleteStep(old(View()), spec)
    {
      var scope := ScopeOf(spec);
      if scope in completes {
        var claim := completes[scope];
        var first := Key(spec.k.workspace, claim.operation);
        if first !in operations
           || !Owned(View(), Key(first.workspace, operations[first].import_), spec.application, spec.principal) {
          return Err(ImportNotFound);
        }
        if claim.import_ != spec.k.id {
          return Err(IdempotencyConflict);
        }
        var op := operations[first];
        return Ok(Completion(Operation(first.id, first.workspace, op.import_, op.principal, OpQueued, op.createdAt,
            claim.completedAt), false));
      }
      if !Owned(View(), spec.k, spec.application, spec.principal) {
        return Err(ImportNotFound);
      }
      if imports[spec.k].state != Uploaded || spec.k !in artifacts || artifacts[spec.k].state != Committed {
        return Err(CompletionConflict);
      }
      var o := Key(spec.k.workspace, spec.operation);
      var job := JobRow(spec.k.id, spec.principal, spec.maxAttempts);
      var imp := Moved(imports[spec.k], Queued, spec.now);
      if o in operations || HasOperation(View(), spec.k) || (o in jobs && jobs[o] != job) || !ImportChecks(imp) {
        return Err(Backend);
      }
      completes := completes[scope := CompleteClaim(spec.k.id, spec.operation, spec.now)];
      operations := operations[o := OperationRow(spec.k.id, spec.principal, OpQueued, None, None, spec.now, spec.now,
                                                 None, None)];
      jobs := jobs[o := job];
      imports := imports[spec.k := imp];
      r := Ok(Completion(Operation(o.id, o.workspace, spec.k.id, spec.principal, OpQueued, spec.now, spec.now), true));
    }

    method BeginProcessing(id: Identity, at: Time) returns (r: Result<ProcessingSource, Error>)
      modifies this`imports, this`operations
      ensures (View(), r) == BeginProcessingStep(old(View()), id, at)
    {
      var k, o := ImportKey(id), OperationKey(id);
      if !ValidIdentity(id) || at == 0 {
        return Err(Invalid);
      }
      if !Found(View(), id) || k !in artifacts || artifacts[k].state != Committed || artifacts[k].evidence.None? {
        return Err(ProcessingNotFound);
      }
      var imp, art, op := imports[k], artifacts[k], operations[o];
      if TerminalOp(op.state) {
        return Ok(SourceOf(imp, art, op, op.state));
      }
      if imp.state != Queued && imp.state != Processing {
        return Err(ProcessingConflict);
      }
      if !OperationChecks(Running(op, at)) || !ImportChecks(Moved(imp, Processing, at)) {
        return Err(Backend);
      }
      operations := operations[o := Running(op, at)];
      imports := imports[k := Moved(imp, Processing, at)];
      r := Ok(SourceOf(imp, art, op, OpRunning));
    }

    method CompleteProcessing(id: Identity, scans: int, at: Time) returns (r: Result<(), Error>)
      modifies this`imports, this`operations
      ensures (View(), r) == CompleteProcessingStep(old(View()), id, scans, at)
    {
      var k, o := ImportKey(id), OperationKey(id);
      if !ValidIdentity(id) || scans < 0 || at == 0 {
        return Err(Invalid);
      }
      if !Found(View(), id) {
        return Err(ProcessingNotFound);
      }
      var imp, op := imports[k], operations[o];
      if op.state == OpSucceeded {
        return if op.scans == Some(scans) && imp.state == Succeeded then Ok(()) else Err(ProcessingConflict);
      }
      if op.state != OpRunning || imp.state != Processing {
        return Err(ProcessingConflict);
      }
      var done := op.(state := OpSucceeded, scans := Some(scans), updatedAt := at, finishedAt := Some(at));
      if !ImportChecks(Moved(imp, Succeeded, at)) || !OperationChecks(done) {
        return Err(Backend);
      }
      imports := imports[k := Moved(imp, Succeeded, at)];
      operations := operations[o := done];
      r := Ok(());
    }

    method FailProcessing(id: Identity, code: string, at: Time) returns (r: Result<(), Error>)
      modifies this`imports, this`operations
      ensures (View(), r) == FailProcessingStep(old(View()), id, code, at)
    {
      var k, o := ImportKey(id), OperationKey(id);
      if !ValidIdentity(id) || !ValidFailureCode(code) || at == 0 {
        return Err(Invalid);
      }
      if !Found(View(), id) {
        return Err(ProcessingNotFound);
      }
      var imp, op := imports[k], operations[o];
      if op.state == OpFailed {
        return if op.failureCode == Some(code) && imp.state == Failed then Ok(()) else Err(ProcessingConflict);
      }
      if (op.state != OpQueued && op.state != OpRunning) || (imp.state != Queued && imp.state != Processing) {
        return Err(ProcessingConflict);
      }
      var done := op.(state := OpFailed, scans := None, failureCode := Some(code), updatedAt := at,
          finishedAt := Some(at));
      if !ImportChecks(Moved(imp, Failed, at)) || !OperationChecks(done) {
        return Err(Backend);
      }
      imports := imports[k := Moved(imp, Failed, at)];
      operations := operations[o := done];
      r := Ok(());
    }
  }

  // ---------------------------------------------------------------------
  // The upload service
  // ---------------------------------------------------------------------

  /** A stream not yet read. */
  ghost predicate Unread(content: Streams.Source, bytes: seq<Streams.byte>)
    reads content
  {
    content.Valid() && content.pos == 0 && content.content == bytes
  }

  predicate WellRead(content: Streams.Source, calls: seq<Streams.Call>)
    reads content
  {
    Streams.Cooperative(content.script, calls, |content.content|)
  }

  /**
   Streams the caller's content past the committed metadata without keeping
   it. A check that does not depend on the stream comes first; a stream that
   fails before its end or the size limit leaves the question open, and
   nothing else does.
   */
  method VerifyContent(content: Streams.Source, calls: seq<Streams.Call>, terms: Terms, declared: Option<int>,
                       size: int, digest: Streams.Digest) returns (r: Option<Error>)
    requires content.Valid() && content.pos == 0 && 0 < terms.maxBytes < Streams.MAX_INT64
    modifies content
    ensures r.None? ==> Verdict(content.content, terms, declared, size, digest).None?
    ensures r.Some? && r.value != Backend ==> r == Verdict(content.content, terms, declared, size, digest)
    ensures old(WellRead(content, calls)) ==> r != Some(Backend)
  {
    if declared.Some? && (declared.value > terms.maxBytes || declared.value != size) {
      return Some(UploadConflict);
    }
    if terms.expectedSize.Some? && terms.expectedSize.value != size {
      return Some(UploadMismatch);
    }
    if terms.expectedDigest.Some? && terms.expectedDigest.value != digest {
      return Some(UploadMismatch);
    }
    var bounded := new Streams.BoundedReader(content, terms.maxBytes);
    var _, status := Streams.CopyAll(bounded, calls);
    if status == Streams.Failed(Streams.ErrTooLarge) {
      return Some(UploadConflict);
    }
    if !status.Eof? {
      return Some(Backend);
    }
    var result := bounded.Result();
    if result.Err? {
      return Some(Backend);
    }
    if result.value.0 != size || result.value.1 != digest {
      return Some(UploadConflict);
    }
    r := None;
  }

  /**
   The bounded copy of a write: the whole content, or why it is not written. A
   stream that fails before its end or the size limit is a backend failure.
   */
  method CopyContent(content: Streams.Source, calls: seq<Streams.Call>, terms: Terms, declared: Option<int>)
    returns (r: Result<seq<Streams.byte>, Streams.Error>)
    requires content.Valid() && content.pos == 0 && 0 < terms.maxBytes < Streams.MAX_INT64
    modifies content
    ensures r.Ok? ==> r.value == content.content && PutError(content.content, terms, declared).None?
    ensures r.Err? && r.error != Streams.ErrBackend ==> PutError(content.content, terms, declared) == Some(r.error)
    ensures old(WellRead(content, calls)) ==> r != Err(Streams.ErrBackend)
  {
    var bounded := new Streams.BoundedReader(content, terms.maxBytes);
    var bytes, status := Streams.CopyAll(bounded, calls);
    if status == Streams.Failed(Streams.ErrTooLarge) {
      return Err(Streams.ErrTooLarge);
    }
    if !status.Eof? {
      return Err(Streams.ErrBackend);
    }
    var result := bounded.Result();
    if result.Err? {
      return Err(Streams.ErrBackend);
    }
    var expected := if declared.Some? then declared else terms.expectedSize;
    if !Streams.MeetsExpected(result.value.0, result.value.1, expected, terms.expectedDigest) {
      return Err(Streams.ErrIntegrity);
    }
    r := Ok(bytes);
  }

  /** What one upload call draws and meets on its way. */
  datatype Circumstances = Circumstances(
    artifact: string, key: string, attempt: string, startedAt: Time, leaseExpiresAt: Time,
    reachable: bool, version: string, backendVersion: string, writtenAt: Time, writing: Fault, committing: Fault,
    endedAt: Time)

  /** The fault of the write: content that could not be read is not written. */
  function WriteFault(x: Circumstances, readable: bool): Fault { if readable then x.writing else Lost }

  // The steps of one call, in order; a step that does not fit the call's stage does nothing.

  function FromEnd(w: World, x: Circumstances): World {
    if 0 in w.calls && w.calls[0].stage.Ending? then EndNext(w, 0, x.endedAt) else w
  }

  function FromCommit(w: World, x: Circumstances): World {
    FromEnd(if 0 in w.calls && w.calls[0].stage.Committing? then CommitNext(w, 0, x.committing) else w, x)
  }

  function FromWrite(w: World, x: Circumstances, readable: bool): World {
    FromCommit(if 0 in w.calls && w.calls[0].stage.Writing? then
                 WriteNext(w, 0, Blob(w.calls[0].request.content, x.version, x.backendVersion, x.writtenAt),
                           WriteFault(x, readable))
               else w, x)
  }

  function FromInspect(w: World, x: Circumstances, readable: bool): World {
    FromWrite(if 0 in w.calls && w.calls[0].stage.Inspecting? then InspectNext(w, 0, x.reachable, readable) else w,
              x, readable)
  }

  function FromBegin(b: string, w: World, request: UploadRequest, x: Circumstances, readable: bool): World {
    FromInspect(Next(b, Next(b, w, BeginOf(request, x)), Replay(0, readable)), x, readable)
  }

  function BeginOf(request: UploadRequest, x: Circumstances): Event {
    Begin(0, request, x.artifact, x.key, x.attempt, x.startedAt, x.leaseExpiresAt)
  }

  function WriteOf(x: Circumstances, readable: bool): Event {
    Write(0, x.version, x.backendVersion, x.writtenAt, WriteFault(x, readable))
  }

  lemma EndIsNext(b: string, w: World, x: Circumstances)
    ensures FromEnd(w, x) == Next(b, w, End(0, x.endedAt))
  {
  }

  lemma CommitIsNext(b: string, w: World, x: Circumstances)
    ensures FromCommit(w, x) == FromEnd(Next(b, w, Commit(0, x.committing)), x)
  {
  }

  lemma WriteIsNext(b: string, w: World, x: Circumstances, readable: bool)
    ensures FromWrite(w, x, readable) == FromCommit(Next(b, w, WriteOf(x, readable)), x)
  {
  }

  lemma InspectIsNext(b: string, w: World, x: Circumstances, readable: bool)
    ensures FromInspect(w, x, readable) == FromWrite(Next(b, w, Inspect(0, x.reachable, readable)), x, readable)
  {
  }

  lemma RunLast(b: string, w: World, es: seq<Event>, e: Event)
    ensures Run(b, w, es + [e]) == Next(b, Run(b, w, es), e)
  {
    assert (es + [e])[..|es|] == es;
  }

  /** The last four steps of a call, after any run. */
  lemma TailIsRun(b: string, w: World, es: seq<Event>, x: Circumstances, readable: bool)
    ensures FromInspect(Run(b, w, es), x, readable)
            == Run(b, w, es + [Inspect(0, x.reachable, readable)] + [WriteOf(x, readable)] + [Commit(0, x.committing)]
                         + [End(0, x.endedAt)])
  {
    var e1, e2, e3 := Inspect(0, x.reachable, readable), WriteOf(x, readable), Commit(0, x.committing);
    RunLast(b, w, es, e1);
    RunLast(b, w, es + [e1], e2);
    RunLast(b, w, es + [e1] + [e2], e3);
    RunLast(b, w, es + [e1] + [e2] + [e3], End(0, x.endedAt));
    InspectIsNext(b, Run(b, w, es), x, readable);
    WriteIsNext(b, Run(b, w, es + [e1]), x, readable);
    CommitIsNext(b, Run(b, w, es + [e1] + [e2]), x);
    EndIsNext(b, Run(b, w, es + [e1] + [e2] + [e3]), x);
  }

  /** One call that runs alone is a run of the model. */
  lemma CallIsRun(b: string, w: World, request: UploadRequest, x: Circumstances, readable: bool)
    ensures FromBegin(b, w, request, x, readable)
            == Run(b, w, [] + [BeginOf(request, x)] + [Replay(0, readable)] + [Inspect(0, x.reachable, readable)]
                         + [WriteOf(x, readable)] + [Commit(0, x.committing)] + [End(0, x.endedAt)])
  {
    RunLast(b, w, [], BeginOf(request, x));
    RunLast(b, w, [] + [BeginOf(request, x)], Replay(0, readable));
    TailIsRun(b, w, [] + [BeginOf(request, x)] + [Replay(0, readable)], x, readable);
  }

  lemma EndingWaits(w: World, x: Circumstances, readable: bool)
    requires 0 in w.calls && w.calls[0].stage.Ending?
    ensures FromCommit(w, x) == FromWrite(w, x, readable) == FromInspect(w, x, readable) == FromEnd(w, x)
  {
  }

  lemma OverStays(w: World, x: Circumstances, readable: bool)
    requires 0 in w.calls && (w.calls[0].stage.Received? || w.calls[0].stage.Turned?)
    ensures FromEnd(w, x) == FromCommit(w, x) == FromWrite(w, x, readable) == FromInspect(w, x, readable) == w
  {
  }

  lemma CommittingWaits(w: World, x: Circumstances, readable: bool)
    requires 0 in w.calls && w.calls[0].stage.Committing?
    ensures FromWrite(w, x, readable) == FromInspect(w, x, readable) == FromCommit(w, x)
  {
  }

  /** Size limits the bounded reader can count to. */
  ghost predicate Countable(s: Store) {
    forall k :: k in s.imports ==> 0 < s.imports[k].terms.maxBytes < Streams.MAX_INT64
  }

  lemma BegunTerms(s: Store, spec: BeginSpec)
    requires BeginUploadStep(s, spec).1.Ok?
    ensures spec.k in s.imports && BeginUploadStep(s, spec).1.value.terms == s.imports[spec.k].terms
  {
  }

  class Service {
    const db: Database
    const backend: string
    var blobs: map<string, Blob>

    constructor (db: Database, backend: string)
      ensures this.db == db && this.backend == backend && blobs == map[]
    {
      this.db, this.backend, this.blobs := db, backend, map[];
    }

    ghost function At(request: UploadRequest, stage: Stage): World
      reads this, db
    {
      World(db.View(), blobs, map[0 := Call(request, stage)])
    }

    ghost function Over(request: UploadRequest, r: Result<Receipt, Error>): World
      reads this, db
    {
      At(request, if r.Ok? then Received(r.value) else Turned(r.error))
    }

    /** Releases or rejects the attempt; the outcome of that is not looked at. */
    method EndAttempt(request: UploadRequest, session: Session, rejectCode: string, error: Error, x: Circumstances)
      returns (r: Result<Receipt, Error>)
      modifies db
      ensures Over(request, r) == FromEnd(old(At(request, Ending(session, rejectCode, error))), x)
    {
      var _ := db.EndUpload(session.k, session.artifact, session.attempt, rejectCode, x.endedAt);
      r := Err(error);
    }

    /** The commit transaction, which may be lost or take effect without its caller learning of it. */
    method TryCommit(session: Session, e: Evidence, fault: Fault) returns (r: Result<Receipt, Error>)
      modifies db
      ensures var c := CommitUploadStep(old(db.View()), session.k, session.artifact, session.attempt, e);
              && db.View() == (if fault == Lost then old(db.View()) else c.0)
              && r == (if fault == Clean then c.1 else Err(Backend))
    {
      r := Err(Backend);
      if fault != Lost {
        r := db.CommitUpload(session.k, session.artifact, session.attempt, e);
        if fault == Silent {
          r := Err(Backend);
        }
      }
    }

    method CommitMetadata(request: UploadRequest, session: Session, e: Evidence, x: Circumstances)
      returns (r: Result<Receipt, Error>)
      modifies db
      ensures Over(request, r) == FromCommit(old(At(request, Committing(session, e))), x)
    {
      ghost var w := At(request, Committing(session, e));
      r := TryCommit(session, e, x.committing);
      if r.Err? {
        assert CommitNext(w, 0, x.committing) == At(request, Ending(session, "", r.error));
        r := EndAttempt(request, session, "", r.error, x);
      } else {
        assert CommitNext(w, 0, x.committing) == Over(request, r);
        OverStays(Over(request, r), x, true);
      }
    }

    /** The write of the stage: the object under the reserved key, or the failure that ends the attempt. */
    method PutBlob(request: UploadRequest, content: Streams.Source, calls: seq<Streams.Call>, session: Session,
                   x: Circumstances) returns (failure: Option<Stage>, readable: bool)
      requires Unread(content, request.content) && 0 < session.terms.maxBytes < Streams.MAX_INT64
      requires session.place.storageKey !in blobs
      modifies this`blobs, content
      ensures failure.Some? ==> failure.value.Ending? && failure.value.session == session
      ensures var blob := Blob(request.content, x.version, x.backendVersion, x.writtenAt);
              At(request, if failure.Some? then failure.value else Committing(session, EvidenceOf(blob)))
              == WriteNext(old(At(request, Writing(session))), 0, blob, WriteFault(x, readable))
      ensures old(WellRead(content, calls)) ==> readable
    {
      var key := session.place.storageKey;
      var copied := CopyContent(content, calls, session.terms, request.declared);
      readable := copied != Err(Streams.ErrBackend);
      if !readable || x.writing == Lost {
        return Some(Ending(session, "", Backend)), readable;
      }
      if copied.Err? {
        return Some(WriteFailure(session, copied.error)), readable;
      }
      blobs := blobs[key := Blob(copied.value, x.version, x.backendVersion, x.writtenAt)];
      failure := if x.writing == Clean then None else Some(Ending(session, "", Backend));
    }

    method WriteBlob(request: UploadRequest, content: Streams.Source, calls: seq<Streams.Call>, session: Session,
                     x: Circumstances) returns (r: Result<Receipt, Error>, readable: bool)
      requires Unread(content, request.content) && 0 < session.terms.maxBytes < Streams.MAX_INT64
      modifies this`blobs, db, content
      ensures Over(request, r) == FromWrite(old(At(request, Writing(session))), x, readable)
      ensures old(WellRead(content, calls)) ==> readable
    {
      var failure: Option<Stage> := Some(Ending(session, "", UploadInProgress));
      readable := true;
      if session.place.storageKey !in blobs {
        failure, readable := PutBlob(request, content, calls, session, x);
      }
      if failure.Some? {
        EndingWaits(At(request, failure.value), x, readable);
        r := EndAttempt(request, session, failure.value.rejectCode, failure.value.error, x);
      } else {
        var blob := Blob(request.content, x.version, x.backendVersion, x.writtenAt);
        r := CommitMetadata(request, session, EvidenceOf(blob), x);
      }
    }

    /** The inspection: an object already under the key is checked against the caller's own stream. */
    method InspectBlob(request: UploadRequest, content: Streams.Source, calls: seq<Streams.Call>, session: Session,
                       x: Circumstances) returns (r: Result<Receipt, Error>, readable: bool)
      requires Unread(content, request.content) && 0 < session.terms.maxBytes < Streams.MAX_INT64
      modifies this`blobs, db, content
      ensures Over(request, r) == FromInspect(old(At(request, Inspecting(session))), x, readable)
      ensures old(WellRead(content, calls)) ==> readable
    {
      ghost var w := At(request, Inspecting(session));
      var key := session.place.storageKey;
      readable := true;
      if !x.reachable {
        assert InspectNext(w, 0, false, readable) == At(request, Ending(session, "", Backend));
        EndingWaits(At(request, Ending(session, "", Backend)), x, readable);
        r := EndAttempt(request, session, "", Backend, x);
      } else if key in blobs {
        var e := EvidenceOf(blobs[key]);
        var verdict := VerifyContent(content, calls, session.terms, request.declared, e.size, e.digest);
        readable := verdict != Some(Backend);
        ghost var v := InspectNext(w, 0, true, readable);
        if verdict.Some? {
          assert v == At(request, Ending(session, "", verdict.value));
          EndingWaits(v, x, readable);
          r := EndAttempt(request, session, "", verdict.value, x);
        } else {
          assert v == At(request, Committing(session, e));
          CommittingWaits(v, x, readable);
          r := CommitMetadata(request, session, e, x);
        }
      } else {
        assert forall b :: InspectNext(w, 0, true, b) == At(request, Writing(session));
        r, readable := WriteBlob(request, content, calls, session, x);
      }
    }

    /** A repeated upload: the caller's own stream against the receipt; any failure reads as a conflict. */
    method VerifyReplay(request: UploadRequest, content: Streams.Source, calls: seq<Streams.Call>, session: Session)
      returns (r: Result<Receipt, Error>, readable: bool)
      requires session.committed.Some?
      requires Unread(content, request.content) && 0 < session.terms.maxBytes < Streams.MAX_INT64
      modifies content
      ensures Over(request, r) == Next(backend, old(At(request, Replaying(session))), Replay(0, readable))
      ensures old(WellRead(content, calls)) ==> readable
    {
      var receipt := session.committed.value;
      var verdict := VerifyContent(content, calls, session.terms, request.declared, receipt.size, receipt.digest);
      readable := verdict != Some(Backend);
      r := if verdict.Some? then Err(UploadConflict) else Ok(receipt);
    }

    /** One upload call, alone: the steps of the model in order, under whatever faults and stream it meets. */
    method Upload(request: UploadRequest, content: Streams.Source, calls: seq<Streams.Call>, x: Circumstances)
      returns (r: Result<Receipt, Error>, readable: bool)
      requires x.key !in blobs && Unread(content, request.content) && Countable(db.View())
      modifies this`blobs, db, content
      ensures Over(request, r) == FromBegin(backend, World(old(db.View()), old(blobs), map[]), request, x, readable)
      ensures old(WellRead(content, calls)) ==> readable
    {
      ghost var w := World(db.View(), blobs, map[]);
      ghost var v := Next(backend, w, BeginOf(request, x));
      var spec := BeginSpec(request.k, request.application, request.principal, x.artifact, Place(backend, x.key),
                            x.attempt, x.startedAt, x.leaseExpiresAt);
      readable := true;
      var begun := db.BeginUpload(spec);
      if begun.Err? {
        r := Err(begun.error);
        assert v == Over(request, r);
        OverStays(v, x, readable);
        return;
      }
      var session := begun.value;
      BegunTerms(w.store, spec);
      assert v == At(request, AfterBegin(backend, request, session));
      if session.committed.Some? {
        r, readable := VerifyReplay(request, content, calls, session);
        OverStays(Over(request, r), x, readable);
        return;
      }
      assert forall b :: Next(backend, v, Replay(0, b)) == v;
      r, readable := Admit(request, content, calls, session, x);
    }

    /** The checks before the inspection. */
    method Admit(request: UploadRequest, content: Streams.Source, calls: seq<Streams.Call>, session: Session,
                 x: Circumstances) returns (r: Result<Receipt, Error>, readable: bool)
      requires session.committed.None?
      requires Unread(content, request.content) && 0 < session.terms.maxBytes < Streams.MAX_INT64
      modifies this`blobs, db, content
      ensures Over(request, r)
              == FromInspect(old(At(request, AfterBegin(backend, request, session))), x, readable)
      ensures old(WellRead(content, calls)) ==> readable
    {
      readable := true;
      ghost var v := At(request, AfterBegin(backend, request, session));
      if session.place.backend != backend {
        EndingWaits(v, x, readable);
        r := EndAttempt(request, session, "", UploadStorage, x);
      } else if request.declared.Some? && request.declared.value > session.terms.maxBytes {
        EndingWaits(v, x, readable);
        r := EndAttempt(request, session, "size_limit_exceeded", TooLarge, x);
      } else if request.declared.Some? && session.terms.expectedSize.Some?
                && request.declared.value != session.terms.expectedSize.value {
        EndingWaits(v, x, readable);
        r := EndAttempt(request, session, "size_mismatch", UploadMismatch, x);
      } else {
        r, readable := InspectBlob(request, content, calls, session, x);
      }
    }
  }
}
