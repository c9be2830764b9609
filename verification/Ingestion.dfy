/**
 The import lifecycle. Imports, raw artifacts and operations are three tables
 of coupled states; every store method is one transaction over them. A
 transaction whose rows break a table constraint is rolled back as Backend.
 */
module Ingestion {
  import opened Base
  import opened Text
  import Streams

  datatype ImportState =
    AwaitingUpload | Uploading | Uploaded | Queued | Processing | Succeeded | Failed | Rejected | Abandoned

  /** pending, uploading, committed, rejected, abandoned */
  datatype ArtifactState = Pending | Receiving | Committed | Refused | Dropped

  datatype OperationState = OpQueued | OpRunning | OpSucceeded | OpFailed | OpCancelled

  datatype Error =
    | Invalid | ImportNotFound | UploadConflict | UploadExpired | UploadInProgress | UploadMismatch | UploadStorage
    | LeaseLost | EvidenceBroken
    | CompletionConflict | IdempotencyConflict | TooLarge | ProcessingNotFound | ProcessingConflict | Backend

  datatype Key = Key(workspace: string, id: string)

  /** What is fixed when the import is reserved. */
  datatype Terms = Terms(
    application: string, principal: string, expectedSize: Option<int>, expectedDigest: Option<Streams.Digest>,
    maxBytes: int, uploadExpiresAt: Time, createdAt: Time)

  datatype ImportRow = ImportRow(terms: Terms, state: ImportState, updatedAt: Time)

  datatype Evidence = Evidence(
    size: int, digest: Streams.Digest, version: string, backendVersion: string, committedAt: Time)

  datatype Place = Place(backend: string, storageKey: string)

  datatype ArtifactRow = ArtifactRow(
    id: string, place: Place, state: ArtifactState, attempt: Option<string>, leaseExpiresAt: Option<Time>,
    evidence: Option<Evidence>, rejection: string, createdAt: Time, updatedAt: Time)

  datatype OperationRow = OperationRow(
    import_: string, principal: string, state: OperationState, scans: Option<int>, failureCode: Option<string>,
    createdAt: Time, updatedAt: Time, startedAt: Option<Time>, finishedAt: Option<Time>)

  /** An idempotency scope; the API version and the operation name are fixed. */
  datatype Scope = Scope(workspace: string, principal: string, key: string)

  /** What a create request says, as its fingerprint covers it. */
  datatype Request = Request(application: string, expectedSize: Option<int>, expectedDigest: Option<Streams.Digest>)

  datatype CreateClaim = CreateClaim(request: Request, import_: string)

  /** The fingerprint of a completion covers the import id. */
  datatype CompleteClaim = CompleteClaim(import_: string, operation: string, completedAt: Time)

  datatype JobRow = JobRow(import_: string, principal: string, maxAttempts: int)

  datatype Store = Store(
    imports: map<Key, ImportRow>,
    // by import: UNIQUE (workspace_id, import_id)
    artifacts: map<Key, ArtifactRow>,
    operations: map<Key, OperationRow>,
    creates: map<Scope, CreateClaim>,
    completes: map<Scope, CompleteClaim>,
    // by workspace and idempotency key, which is the operation id
    jobs: map<Key, JobRow>)

  // ---------------------------------------------------------------------
  // Table constraints
  // ---------------------------------------------------------------------

  predicate ImportChecks(r: ImportRow) {
    && r.terms.maxBytes > 0
    && (r.terms.expectedSize.Some? ==> 0 <= r.terms.expectedSize.value <= r.terms.maxBytes)
    && r.terms.uploadExpiresAt > r.terms.createdAt && r.updatedAt >= r.terms.createdAt
  }

  predicate ArtifactChecks(r: ArtifactRow) {
    && (r.state == Receiving <==> r.attempt.Some? && r.leaseExpiresAt.Some?)
    && (r.state == Committed <==> r.evidence.Some?)
    && (r.state == Refused <==> r.rejection != "")
    && (r.evidence.Some? ==> r.evidence.value.size >= 0 && r.evidence.value.committedAt >= r.createdAt)
    && r.updatedAt >= r.createdAt
  }

  predicate OperationChecks(r: OperationRow) {
    && (r.state == OpSucceeded <==> r.scans.Some?)
    && (r.state == OpFailed <==> r.failureCode.Some?)
    && (r.state == OpRunning ==> r.startedAt.Some?)
    && (r.state == OpSucceeded || r.state == OpFailed || r.state == OpCancelled <==> r.finishedAt.Some?)
    && r.updatedAt >= r.createdAt
    && (r.startedAt.Some? ==> r.startedAt.value >= r.createdAt)
    && (r.finishedAt.Some? ==>
          r.finishedAt.value >= r.createdAt && (r.startedAt.Some? ==> r.finishedAt.value >= r.startedAt.value))
  }

  predicate PlaceUsed(s: Store, place: Place) {
    exists k :: k in s.artifacts && s.artifacts[k].place == place
  }

  predicate ArtifactIdUsed(s: Store, ws: string, id: string) {
    exists k :: k in s.artifacts && k.workspace == ws && s.artifacts[k].id == id
  }

  predicate OperationOf(s: Store, k: Key, o: Key) {
    o in s.operations && o.workspace == k.workspace && s.operations[o].import_ == k.id
  }

  predicate HasOperation(s: Store, k: Key) {
    exists o :: o in s.operations && OperationOf(s, k, o)
  }

  function ArtifactOf(s: Store, k: Key): Option<ArtifactRow> {
    if k in s.artifacts then Some(s.artifacts[k]) else None
  }

  predicate Owned(s: Store, k: Key, application: string, principal: string) {
    k in s.imports && s.imports[k].terms.application == application && s.imports[k].terms.principal == principal
  }

  // ---------------------------------------------------------------------
  // Moves: the ways a transaction changes the tables
  // ---------------------------------------------------------------------

  /** An import and its artifact move together. */
  function Paired(s: Store, k: Key, imp: ImportRow, art: ArtifactRow): Store {
    s.(imports := s.imports[k := imp], artifacts := s.artifacts[k := art])
  }

  /** An import and its operation move together. */
  function Advanced(s: Store, k: Key, o: Key, imp: ImportRow, op: OperationRow): Store {
    s.(imports := s.imports[k := imp], operations := s.operations[o := op])
  }

  function Moved(imp: ImportRow, state: ImportState, at: Time): ImportRow { imp.(state := state, updatedAt := at) }

  // ---------------------------------------------------------------------
  // Reservation
  // ---------------------------------------------------------------------

  datatype ReserveSpec = ReserveSpec(
    k: Key, terms: Terms, key: string, exceedsLimit: bool, artifact: string, place: Place)

  function RequestOf(terms: Terms): Request {
    Request(terms.application, terms.expectedSize, terms.expectedDigest)
  }

  /** The import as it is now, and whether this call created it. */
  datatype Reservation = Reservation(id: string, row: ImportRow, created: bool)

  function ReserveScope(spec: ReserveSpec): Scope { Scope(spec.k.workspace, spec.terms.principal, spec.key) }

  /** A repeated request reads the first import back. */
  function ReserveReplay(s: Store, spec: ReserveSpec): Result<Reservation, Error>
    requires ReserveScope(spec) in s.creates
  {
    var claim := s.creates[ReserveScope(spec)];
    var k := Key(spec.k.workspace, claim.import_);
    if k !in s.imports then Err(Backend)
    else if claim.request != RequestOf(spec.terms) then Err(IdempotencyConflict)
    else Ok(Reservation(k.id, s.imports[k], false))
  }

  function ReserveStep(s: Store, spec: ReserveSpec): (Store, Result<Reservation, Error>) {
    if ReserveScope(spec) in s.creates then (s, ReserveReplay(s, spec))
    else if spec.exceedsLimit then (s, Err(TooLarge))
    else
      var imp := ImportRow(spec.terms, AwaitingUpload, spec.terms.createdAt);
      var art := ArtifactRow(spec.artifact, spec.place, Pending, None, None, None, "", spec.terms.createdAt,
                             spec.terms.createdAt);
      var claim := CreateClaim(RequestOf(spec.terms), spec.k.id);
      if spec.k in s.imports || spec.k in s.artifacts || PlaceUsed(s, spec.place)
         || ArtifactIdUsed(s, spec.k.workspace, spec.artifact) || !ImportChecks(imp)
      then (s, Err(Backend))
      else
        (Paired(s, spec.k, imp, art).(creates := s.creates[ReserveScope(spec) := claim]),
         Ok(Reservation(spec.k.id, imp, true)))
  }

  // ---------------------------------------------------------------------
  // Upload
  // ---------------------------------------------------------------------

  datatype BeginSpec = BeginSpec(
    k: Key, application: string, principal: string, artifact: string, place: Place, attempt: string,
    startedAt: Time, leaseExpiresAt: Time)

  datatype Receipt = Receipt(size: int, digest: Streams.Digest, uploadedAt: Time)

  datatype Session = Session(k: Key, artifact: string, place: Place, attempt: string, terms: Terms,
                             committed: Option<Receipt>)

  function ReceiptOf(e: Evidence): Receipt { Receipt(e.size, e.digest, e.committedAt) }

  /** The artifact row a new attempt would hold, or why there is none. */
  function LeaseRow(s: Store, spec: BeginSpec): Result<ArtifactRow, Error> {
    match ArtifactOf(s, spec.k)
    case None =>
      if PlaceUsed(s, spec.place) || ArtifactIdUsed(s, spec.k.workspace, spec.artifact) then Err(Backend)
      else Ok(ArtifactRow(spec.artifact, spec.place, Receiving, Some(spec.attempt), Some(spec.leaseExpiresAt), None, "",
                          spec.startedAt, spec.startedAt))
    case Some(art) =>
      if art.state == Receiving && art.leaseExpiresAt.Some? && art.leaseExpiresAt.value > spec.startedAt
      then Err(UploadInProgress)
      else if art.state != Receiving && art.state != Pending then Err(UploadConflict)
      else Ok(art.(state := Receiving, attempt := Some(spec.attempt), leaseExpiresAt := Some(spec.leaseExpiresAt),
                   updatedAt := spec.startedAt))
  }

  function LeaseStep(s: Store, spec: BeginSpec): (Store, Result<Session, Error>)
    requires spec.k in s.imports
  {
    var imp := Moved(s.imports[spec.k], Uploading, spec.startedAt);
    var row := LeaseRow(s, spec);
    if row.Err? then (s, Err(row.error))
    else if !ImportChecks(imp) || !ArtifactChecks(row.value) then (s, Err(Backend))
    else
      (Paired(s, spec.k, imp, row.value),
       Ok(Session(spec.k, row.value.id, row.value.place, spec.attempt, imp.terms, None)))
  }

  function Dropping(art: ArtifactRow, at: Time): ArtifactRow {
    if art.state == Committed then art
    else art.(state := Dropped, attempt := None, leaseExpiresAt := None, updatedAt := at)
  }

  function AbandonStep(s: Store, k: Key, at: Time): (Store, Result<Session, Error>)
    requires k in s.imports
  {
    var imp := Moved(s.imports[k], Abandoned, at);
    if !ImportChecks(imp) then (s, Err(Backend))
    else if k !in s.artifacts then (s.(imports := s.imports[k := imp]), Err(UploadExpired))
    else if !ArtifactChecks(Dropping(s.artifacts[k], at)) then (s, Err(Backend))
    else (Paired(s, k, imp, Dropping(s.artifacts[k], at)), Err(UploadExpired))
  }

  function BeginUploadStep(s: Store, spec: BeginSpec): (Store, Result<Session, Error>) {
    if !Owned(s, spec.k, spec.application, spec.principal) then (s, Err(ImportNotFound))
    else
      var imp := s.imports[spec.k];
      if imp.state == Uploaded then
        if spec.k !in s.artifacts || s.artifacts[spec.k].state != Committed || s.artifacts[spec.k].evidence.None?
        then (s, Err(EvidenceBroken))
        else
          var art := s.artifacts[spec.k];
          (s, Ok(Session(spec.k, art.id, art.place, "", imp.terms, Some(ReceiptOf(art.evidence.value)))))
      else if imp.state != AwaitingUpload && imp.state != Uploading then (s, Err(UploadConflict))
      else if spec.startedAt >= imp.terms.uploadExpiresAt then AbandonStep(s, spec.k, spec.startedAt)
      else LeaseStep(s, spec)
  }

  /** The artifact is held by this attempt. */
  predicate Holds(s: Store, k: Key, artifact: string, attempt: string) {
    && k in s.artifacts && s.artifacts[k].id == artifact
    && s.artifacts[k].state == Receiving && s.artifacts[k].attempt == Some(attempt)
  }

  function CommitUploadStep(s: Store, k: Key, artifact: string, attempt: string, e: Evidence)
    : (Store, Result<Receipt, Error>)
  {
    if e.size < 0 || e.version == "" || e.committedAt == 0 then (s, Err(Invalid))
    else if !Holds(s, k, artifact, attempt) || s.artifacts[k].leaseExpiresAt.None?
            || s.artifacts[k].leaseExpiresAt.value < e.committedAt then (s, Err(LeaseLost))
    else
      var art := s.artifacts[k].(state := Committed, attempt := None, leaseExpiresAt := None, evidence := Some(e),
                                 updatedAt := e.committedAt);
      if !ArtifactChecks(art) then (s, Err(Backend))
      else if k !in s.imports || s.imports[k].state != Uploading then (s, Err(LeaseLost))
      else
        var imp := Moved(s.imports[k], Uploaded, e.committedAt);
        if !ImportChecks(imp) then (s, Err(Backend)) else (Paired(s, k, imp, art), Ok(ReceiptOf(e)))
  }

  function EndUploadStep(s: Store, k: Key, artifact: string, attempt: string, rejectCode: string, at: Time)
    : (Store, Result<(), Error>)
  {
    if !Holds(s, k, artifact, attempt) then (s, Err(LeaseLost))
    else
      var art := s.artifacts[k].(state := if rejectCode == "" then Pending else Refused, attempt := None,
                                 leaseExpiresAt := None, rejection := rejectCode, updatedAt := at);
      if !ArtifactChecks(art) then (s, Err(Backend))
      else if k !in s.imports || s.imports[k].state != Uploading then (s, Err(LeaseLost))
      else
        var imp := Moved(s.imports[k], if rejectCode == "" then AwaitingUpload else Rejected, at);
        if !ImportChecks(imp) then (s, Err(Backend)) else (Paired(s, k, imp, art), Ok(()))
  }

  // ---------------------------------------------------------------------
  // Completion
  // ---------------------------------------------------------------------

  datatype CompleteSpec = CompleteSpec(
    k: Key, application: string, principal: string, key: string, operation: string, now: Time, maxAttempts: int)

  /** The public operation as a completion returns it. */
  datatype Operation = Operation(
    id: string, workspace: string, import_: string, principal: string, state: OperationState,
    createdAt: Time, updatedAt: Time)

  datatype Completion = Completion(operation: Operation, created: bool)

  function ScopeOf(spec: CompleteSpec): Scope { Scope(spec.k.workspace, spec.principal, spec.key) }

  /** The first response again, whatever the operation became since. */
  function ReplayStep(s: Store, spec: CompleteSpec): Result<Completion, Error>
    requires ScopeOf(spec) in s.completes
  {
    var claim := s.completes[ScopeOf(spec)];
    var o := Key(spec.k.workspace, claim.operation);
    if o !in s.operations then Err(ImportNotFound)
    else
      var op := s.operations[o];
      if !Owned(s, Key(o.workspace, op.import_), spec.application, spec.principal) then Err(ImportNotFound)
      else if claim.import_ != spec.k.id then Err(IdempotencyConflict)
      else Ok(Completion(Operation(o.id, o.workspace, op.import_, op.principal, OpQueued, op.createdAt,
                                   claim.completedAt), false))
  }

  function FirstCompletion(s: Store, spec: CompleteSpec): (Store, Result<Completion, Error>)
    requires spec.k in s.imports
  {
    var o := Key(spec.k.workspace, spec.operation);
    var op := OperationRow(spec.k.id, spec.principal, OpQueued, None, None, spec.now, spec.now, None, None);
    var job := JobRow(spec.k.id, spec.principal, spec.maxAttempts);
    var imp := Moved(s.imports[spec.k], Queued, spec.now);
    if o in s.operations || HasOperation(s, spec.k) || (o in s.jobs && s.jobs[o] != job) || !ImportChecks(imp)
    then (s, Err(Backend))
    else
      (Advanced(s, spec.k, o, imp, op).(
       completes := s.completes[ScopeOf(spec) := CompleteClaim(spec.k.id, spec.operation, spec.now)],
       jobs := s.jobs[o := job]),
       Ok(Completion(Operation(o.id, o.workspace, spec.k.id, spec.principal, OpQueued, spec.now, spec.now), true)))
  }

  function CompleteStep(s: Store, spec: CompleteSpec): (Store, Result<Completion, Error>) {
    if ScopeOf(spec) in s.completes then (s, ReplayStep(s, spec))
    else if !Owned(s, spec.k, spec.application, spec.principal) then (s, Err(ImportNotFound))
    else if s.imports[spec.k].state != Uploaded || spec.k !in s.artifacts || s.artifacts[spec.k].state != Committed
    then (s, Err(CompletionConflict))
    else FirstCompletion(s, spec)
  }

  // ---------------------------------------------------------------------
  // Processing
  // ---------------------------------------------------------------------

  datatype Identity = Identity(workspace: string, operation: string, import_: string, principal: string)

  predicate ValidIdentity(id: Identity) {
    && ValidOpaqueId(id.workspace) && ValidOpaqueId(id.operation)
    && ValidOpaqueId(id.import_) && ValidOpaqueId(id.principal)
  }

  function OperationKey(id: Identity): Key { Key(id.workspace, id.operation) }

  function ImportKey(id: Identity): Key { Key(id.workspace, id.import_) }

  predicate Found(s: Store, id: Identity) {
    && OperationKey(id) in s.operations && ImportKey(id) in s.imports
    && s.operations[OperationKey(id)].import_ == id.import_ && s.operations[OperationKey(id)].principal == id.principal
  }

  /** The committed evidence behind an operation, with the operation's state. */
  datatype ProcessingSource = ProcessingSource(
    state: OperationState, failureCode: string, evidence: Evidence, place: Place, maxBytes: int)

  function SourceOf(imp: ImportRow, art: ArtifactRow, op: OperationRow, state: OperationState): ProcessingSource
    requires art.evidence.Some?
  {
    ProcessingSource(state, if op.failureCode.Some? then op.failureCode.value else "", art.evidence.value, art.place,
                     imp.terms.maxBytes)
  }

  predicate TerminalOp(state: OperationState) { state == OpSucceeded || state == OpFailed || state == OpCancelled }

  function Running(op: OperationRow, at: Time): OperationRow {
    op.(state := OpRunning, startedAt := Coalesce(op.startedAt, at), updatedAt := at)
  }

  function BeginProcessingStep(s: Store, id: Identity, at: Time): (Store, Result<ProcessingSource, Error>) {
    var k, o := ImportKey(id), OperationKey(id);
    if !ValidIdentity(id) || at == 0 then (s, Err(Invalid))
    else if !Found(s, id) || k !in s.artifacts || s.artifacts[k].state != Committed
            || s.artifacts[k].evidence.None? then (s, Err(ProcessingNotFound))
    else
      var imp, art, op := s.imports[k], s.artifacts[k], s.operations[o];
      if TerminalOp(op.state) then (s, Ok(SourceOf(imp, art, op, op.state)))
      else if imp.state != Queued && imp.state != Processing then (s, Err(ProcessingConflict))
      else if !OperationChecks(Running(op, at)) || !ImportChecks(Moved(imp, Processing, at)) then (s, Err(Backend))
      else (Advanced(s, k, o, Moved(imp, Processing, at), Running(op, at)), Ok(SourceOf(imp, art, op, OpRunning)))
  }

  function CompleteProcessingStep(s: Store, id: Identity, scans: int, at: Time): (Store, Result<(), Error>) {
    var k, o := ImportKey(id), OperationKey(id);
    if !ValidIdentity(id) || scans < 0 || at == 0 then (s, Err(Invalid))
    else if !Found(s, id) then (s, Err(ProcessingNotFound))
    else
      var imp, op := s.imports[k], s.operations[o];
      if op.state == OpSucceeded then
        (s, if op.scans == Some(scans) && imp.state == Succeeded then Ok(()) else Err(ProcessingConflict))
      else if op.state != OpRunning || imp.state != Processing then (s, Err(ProcessingConflict))
      else
        var done := op.(state := OpSucceeded, scans := Some(scans), updatedAt := at, finishedAt := Some(at));
        if !ImportChecks(Moved(imp, Succeeded, at)) || !OperationChecks(done) then (s, Err(Backend))
        else (Advanced(s, k, o, Moved(imp, Succeeded, at), done), Ok(()))
  }

  predicate ValidFailureCode(code: string) { ValidDomainName(code, 128) && '_' !in code }

  function FailProcessingStep(s: Store, id: Identity, code: string, at: Time): (Store, Result<(), Error>) {
    var k, o := ImportKey(id), OperationKey(id);
    if !ValidIdentity(id) || !ValidFailureCode(code) || at == 0 then (s, Err(Invalid))
    else if !Found(s, id) then (s, Err(ProcessingNotFound))
    else
      var imp, op := s.imports[k], s.operations[o];
      if op.state == OpFailed then
        (s, if op.failureCode == Some(code) && imp.state == Failed then Ok(()) else Err(ProcessingConflict))
      else if (op.state != OpQueued && op.state != OpRunning) || (imp.state != Queued && imp.state != Processing)
      then (s, Err(ProcessingConflict))
      else
        var done := op.(state := OpFailed, scans := None, failureCode := Some(code), updatedAt := at,
                        finishedAt := Some(at));
        if !ImportChecks(Moved(imp, Failed, at)) || !OperationChecks(done) then (s, Err(Backend))
        else (Advanced(s, k, o, Moved(imp, Failed, at), done), Ok(()))
  }
}
