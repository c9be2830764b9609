/**
 What the import transactions answer and write, column by column. Rows satisfy
 the table constraints in every state that is reached (Lifecycle.ReachableIsOk);
 the lemmas ask it of the rows they are about.
 */
module LifecycleEffects {
  import opened Base
  import opened Text
  import Streams
  import opened Ingestion
  import Lifecycle

  /** The import and its artifact are in step and satisfy their constraints. */
  predicate PairAt(s: Store, k: Key) {
    k in s.imports && Lifecycle.PairOk(s.imports[k], ArtifactOf(s, k))
  }

  lemma ReachedPair(s: Store, k: Key)
    requires Lifecycle.Reached(s) && k in s.imports
    ensures PairAt(s, k)
  {
    Lifecycle.ReachedIsOk(s);
  }

  // ---------------------------------------------------------------------
  // Reservation
  // ---------------------------------------------------------------------

  /** A first reservation is accepted exactly for a declared size within the limit, consistent terms and unused ids. */
  lemma FirstReservationIff(s: Store, spec: ReserveSpec)
    requires Scope(spec.k.workspace, spec.terms.principal, spec.key) !in s.creates
    ensures var (u, r) := ReserveStep(s, spec);
            var terms := spec.terms;
            var unused := && spec.k !in s.imports && spec.k !in s.artifacts
                          && (forall j :: j in s.artifacts ==> s.artifacts[j].place != spec.place)
                          && (forall j :: j in s.artifacts ==> j.workspace != spec.k.workspace
                                                               || s.artifacts[j].id != spec.artifact);
            && (r == Err(TooLarge) <==> spec.exceedsLimit)
            && (r.Ok? <==>
                  && !spec.exceedsLimit && unused && terms.maxBytes > 0 && terms.uploadExpiresAt > terms.createdAt
                  && (terms.expectedSize.Some? ==> 0 <= terms.expectedSize.value <= terms.maxBytes))
            && (r.Err? ==> u == s && r.error in {TooLarge, Backend})
            && (r.Ok? ==> ReservedAs(s, spec, u) && r.value == Reservation(spec.k.id, u.imports[spec.k], true))
  {
  }

  predicate ReservedAs(s: Store, spec: ReserveSpec, u: Store) {
    var at := spec.terms.createdAt;
    u == s.(imports := s.imports[spec.k := ImportRow(spec.terms, AwaitingUpload, at)],
            artifacts := s.artifacts[
            spec.k := ArtifactRow(spec.artifact, spec.place, Pending, None, None, None, "", at, at)],
            creates := s.creates[
            Scope(spec.k.workspace, spec.terms.principal, spec.key) :=
              CreateClaim(Request(spec.terms.application, spec.terms.expectedSize, spec.terms.expectedDigest),
                          spec.k.id)])
  }

  /** A repeated one reads the first import back exactly for the same application, size and digest. */
  lemma RepeatedReservationIff(s: Store, spec: ReserveSpec)
    requires Scope(spec.k.workspace, spec.terms.principal, spec.key) in s.creates
    requires var claim := s.creates[Scope(spec.k.workspace, spec.terms.principal, spec.key)];
             Key(spec.k.workspace, claim.import_) in s.imports
    ensures var (u, r) := ReserveStep(s, spec);
            var claim := s.creates[Scope(spec.k.workspace, spec.terms.principal, spec.key)];
            var asked := claim.request;
            && u == s
            && (r == Ok(Reservation(claim.import_, s.imports[Key(spec.k.workspace, claim.import_)], false)) <==>
                  && asked.application == spec.terms.application && asked.expectedSize == spec.terms.expectedSize
                  && asked.expectedDigest == spec.terms.expectedDigest)
            && (r.Err? ==> r.error == IdempotencyConflict)
  {
  }

  // ---------------------------------------------------------------------
  // Beginning an upload
  // ---------------------------------------------------------------------

  predicate BelongsTo(s: Store, spec: BeginSpec) {
    && spec.k in s.imports && s.imports[spec.k].terms.application == spec.application
    && s.imports[spec.k].terms.principal == spec.principal
  }

  /** The import takes uploads at this instant. */
  predicate TakesUploads(s: Store, spec: BeginSpec)
    requires spec.k in s.imports
  {
    s.imports[spec.k].state in {AwaitingUpload, Uploading} && spec.startedAt < s.imports[spec.k].terms.uploadExpiresAt
  }

  /** Who is turned away, and what a completed upload answers. */
  lemma BeginUploadTurnsAway(s: Store, spec: BeginSpec)
    ensures var (u, r) := BeginUploadStep(s, spec);
            && (!BelongsTo(s, spec) ==> u == s && r == Err(ImportNotFound))
            && (BelongsTo(s, spec) && s.imports[spec.k].state !in {AwaitingUpload, Uploading, Uploaded} ==>
                  u == s && r == Err(UploadConflict))
            && (BelongsTo(s, spec) && s.imports[spec.k].state == Uploaded && PairAt(s, spec.k) ==>
                  && u == s && spec.k in s.artifacts && s.artifacts[spec.k].evidence.Some?
                  && var art := s.artifacts[spec.k];
                     r == Ok(Session(spec.k, art.id, art.place, "", s.imports[spec.k].terms,
                                     Some(Receipt(art.evidence.value.size, art.evidence.value.digest,
                                                  art.evidence.value.committedAt)))))
  {
  }

  /** After its deadline an import that took uploads is abandoned with its artifact. */
  lemma LateUploadAbandons(s: Store, spec: BeginSpec)
    requires BelongsTo(s, spec) && PairAt(s, spec.k) && s.imports[spec.k].state in {AwaitingUpload, Uploading}
    requires spec.startedAt >= s.imports[spec.k].terms.uploadExpiresAt
    ensures var (u, r) := BeginUploadStep(s, spec);
            var imp := s.imports[spec.k].(state := Abandoned, updatedAt := spec.startedAt);
            if spec.k in s.artifacts && spec.startedAt < s.artifacts[spec.k].createdAt then u == s && r == Err(Backend)
            else
              && r == Err(UploadExpired)
              && u == s.(imports := s.imports[spec.k := imp],
                         artifacts := if spec.k !in s.artifacts then s.artifacts
                         else s.artifacts[spec.k := s.artifacts[spec.k].(state := Dropped, attempt := None,
                                                                        leaseExpiresAt := None,
                                                                        updatedAt := spec.startedAt)])
  {
  }

  /** The artifact row of an attempt that holds the lease. */
  predicate LeasedTo(s: Store, spec: BeginSpec, u: Store, art: ArtifactRow) {
    && spec.k in s.imports
    && u == s.(imports := s.imports[spec.k := s.imports[spec.k].(state := Uploading, updatedAt := spec.startedAt)],
               artifacts := s.artifacts[spec.k := art.(state := Receiving, attempt := Some(spec.attempt),
                                                       leaseExpiresAt := Some(spec.leaseExpiresAt),
                                                       updatedAt := spec.startedAt)])
  }

  /**
   While an attempt holds the artifact under a lease that ends later, every
   other one is told so and nothing changes; an attempt that comes when the
   lease has ended takes it over, for the same artifact in the same place,
   unless its clock is behind the rows.
   */
  lemma TakeoverIff(s: Store, spec: BeginSpec)
    requires BelongsTo(s, spec) && PairAt(s, spec.k) && TakesUploads(s, spec)
    requires spec.k in s.artifacts && s.artifacts[spec.k].state == Receiving
    ensures s.artifacts[spec.k].leaseExpiresAt.Some?
    ensures var (u, r) := BeginUploadStep(s, spec);
            var imp, art := s.imports[spec.k], s.artifacts[spec.k];
            var live := art.leaseExpiresAt.value > spec.startedAt;
            var late := spec.startedAt >= imp.terms.createdAt && spec.startedAt >= art.createdAt;
            && (r == Err(UploadInProgress) <==> live)
            && (r.Ok? <==> !live && late)
            && (r.Err? ==> u == s)
            && (r.Ok? ==>
                  && LeasedTo(s, spec, u, art)
                  && r.value == Session(spec.k, art.id, art.place, spec.attempt, imp.terms, None))
  {
  }

  /** An artifact that no attempt holds goes to the first that comes; one that is missing is made in its place. */
  lemma FreeArtifactIsLeased(s: Store, spec: BeginSpec)
    requires BelongsTo(s, spec) && PairAt(s, spec.k) && s.imports[spec.k].state == AwaitingUpload
    requires spec.startedAt < s.imports[spec.k].terms.uploadExpiresAt
    ensures var (u, r) := BeginUploadStep(s, spec);
            var imp := s.imports[spec.k];
            var made := ArtifactRow(spec.artifact, spec.place, Pending, None, None, None, "", spec.startedAt,
                                    spec.startedAt);
            var art := if spec.k in s.artifacts then s.artifacts[spec.k] else made;
            var unused := spec.k in s.artifacts || (!PlaceUsed(s, spec.place)
                                                    && !ArtifactIdUsed(s, spec.k.workspace, spec.artifact));
            && (r.Ok? <==> unused && spec.startedAt >= imp.terms.createdAt && spec.startedAt >= art.createdAt)
            && (r.Err? ==> u == s && r.error == Backend)
            && (r.Ok? ==>
                  && LeasedTo(s, spec, u, art)
                  && r.value == Session(spec.k, art.id, art.place, spec.attempt, imp.terms, None))
  {
  }

  // ---------------------------------------------------------------------
  // Ending an upload
  // ---------------------------------------------------------------------

  /** The artifact is held by this attempt. */
  predicate HeldBy(s: Store, k: Key, artifact: string, attempt: string) {
    && k in s.artifacts && s.artifacts[k].id == artifact && s.artifacts[k].state == Receiving
    && s.artifacts[k].attempt == Some(attempt)
  }

  predicate LeaseIsLost(s: Store, k: Key, artifact: string, attempt: string, at: Time) {
    || !HeldBy(s, k, artifact, attempt) || s.artifacts[k].leaseExpiresAt.None?
    || at > s.artifacts[k].leaseExpiresAt.value
  }

  /** Evidence is committed exactly by the attempt that holds the artifact, until its lease ends. */
  lemma CommitIff(s: Store, k: Key, artifact: string, attempt: string, e: Evidence)
    requires k in s.imports ==> PairAt(s, k)
    ensures var (u, r) := CommitUploadStep(s, k, artifact, attempt, e);
            && (r.Ok? <==>
                  && HeldBy(s, k, artifact, attempt) && k in s.imports && s.imports[k].state == Uploading
                  && e.size >= 0 && e.version != "" && e.committedAt != 0
                  && s.artifacts[k].leaseExpiresAt.Some? && e.committedAt <= s.artifacts[k].leaseExpiresAt.value
                  && e.committedAt >= s.artifacts[k].createdAt && e.committedAt >= s.imports[k].terms.createdAt)
            && (r == Err(Invalid) <==> e.size < 0 || e.version == "" || e.committedAt == 0)
            && (e.size >= 0 && e.version != "" && e.committedAt != 0 ==>
                  (LeaseIsLost(s, k, artifact, attempt, e.committedAt) ==> r == Err(LeaseLost)))
            && (k in s.imports && !LeaseIsLost(s, k, artifact, attempt, e.committedAt) ==>
                  (r.Err? ==> r.error in {Invalid, Backend}))
            && (r.Err? ==> u == s)
            && (r.Ok? ==>
                  && r.value == Receipt(e.size, e.digest, e.committedAt)
                  && u == s.(imports := s.imports[k := s.imports[k].(state := Uploaded, updatedAt := e.committedAt)],
                             artifacts := s.artifacts[k := s.artifacts[k].(state := Committed, attempt := None,
                                                                          leaseExpiresAt := None, evidence := Some(e),
                                                                          updatedAt := e.committedAt)]))
  {
  }

  /** An attempt is ended exactly by itself: released without a code, rejected for good with one. */
  lemma EndIff(s: Store, k: Key, artifact: string, attempt: string, code: string, at: Time)
    requires k in s.imports ==> PairAt(s, k)
    ensures var (u, r) := EndUploadStep(s, k, artifact, attempt, code, at);
            && (r.Ok? <==>
                  && HeldBy(s, k, artifact, attempt) && k in s.imports && s.imports[k].state == Uploading
                  && at >= s.artifacts[k].createdAt && at >= s.imports[k].terms.createdAt)
            && (!HeldBy(s, k, artifact, attempt) ==> r == Err(LeaseLost))
            && (HeldBy(s, k, artifact, attempt) && k in s.imports && r.Err? ==> r.error == Backend)
            && (r.Err? ==> u == s)
            && (r.Ok? ==>
                  var (imp, art) := if code == "" then (AwaitingUpload, Pending) else (Rejected, Refused);
                  u == s.(imports := s.imports[k := s.imports[k].(state := imp, updatedAt := at)],
                          artifacts := s.artifacts[k := s.artifacts[k].(state := art, attempt := None,
                                                                       leaseExpiresAt := None, rejection := code,
                                                                       updatedAt := at)]))
  {
  }

  // ---------------------------------------------------------------------
  // Completion
  // ---------------------------------------------------------------------

  /** A first completion is accepted exactly of an uploaded import by its owner, and makes one operation and one job. */
  lemma FirstCompletionIff(s: Store, spec: CompleteSpec)
    requires Scope(spec.k.workspace, spec.principal, spec.key) !in s.completes
    requires spec.k in s.imports ==> PairAt(s, spec.k)
    ensures var (u, r) := CompleteStep(s, spec);
            var o := Key(spec.k.workspace, spec.operation);
            var job := JobRow(spec.k.id, spec.principal, spec.maxAttempts);
            && (r.Ok? <==>
                  && spec.k in s.imports && s.imports[spec.k].terms.application == spec.application
                  && s.imports[spec.k].terms.principal == spec.principal && s.imports[spec.k].state == Uploaded
                  && o !in s.operations && (o in s.jobs ==> s.jobs[o] == job)
                  && (forall p :: p in s.operations ==> p.workspace != spec.k.workspace
                                                        || s.operations[p].import_ != spec.k.id)
                  && spec.now >= s.imports[spec.k].terms.createdAt)
            && (r == Err(ImportNotFound) <==> !Owned(s, spec.k, spec.application, spec.principal))
            && (r == Err(CompletionConflict) <==>
                  Owned(s, spec.k, spec.application, spec.principal) && s.imports[spec.k].state != Uploaded)
            && (r.Err? ==> u == s && r.error in {ImportNotFound, CompletionConflict, Backend})
            && (r.Ok? ==>
                  && r.value == Completion(Operation(spec.operation, spec.k.workspace, spec.k.id, spec.principal,
                                                     OpQueued, spec.now, spec.now), true)
                  && u == s.(imports := s.imports[spec.k := s.imports[spec.k].(state := Queued, updatedAt := spec.now)],
                             operations := s.operations[
                             o := OperationRow(spec.k.id, spec.principal, OpQueued, None, None, spec.now, spec.now,
                                               None, None)],
                             completes := s.completes[
                             Scope(spec.k.workspace, spec.principal, spec.key) :=
                               CompleteClaim(spec.k.id, spec.operation, spec.now)],
                             jobs := s.jobs[o := job]))
  {
  }

  /** A repeated completion gives the first response again, exactly for the same import by its owner. */
  lemma RepeatedCompletionIff(s: Store, spec: CompleteSpec)
    requires var scope := Scope(spec.k.workspace, spec.principal, spec.key);
             scope in s.completes && Lifecycle.ClaimOk(s, scope, s.completes[scope])
             && Key(spec.k.workspace, s.completes[scope].import_) in s.imports
    ensures var (u, r) := CompleteStep(s, spec);
            var claim := s.completes[Scope(spec.k.workspace, spec.principal, spec.key)];
            var terms := s.imports[Key(spec.k.workspace, claim.import_)].terms;
            && u == s
            && (r == Ok(Completion(Operation(claim.operation, spec.k.workspace, claim.import_, spec.principal, OpQueued,
                                             claim.completedAt, claim.completedAt), false)) <==>
                  terms.application == spec.application && terms.principal == spec.principal
                  && claim.import_ == spec.k.id)
            && (r.Err? ==> r.error in {ImportNotFound, IdempotencyConflict})
            && (r == Err(IdempotencyConflict) <==>
                  terms.application == spec.application && terms.principal == spec.principal
                  && claim.import_ != spec.k.id)
  {
  }

  // ---------------------------------------------------------------------
  // Processing
  // ---------------------------------------------------------------------

  /** The operation a job names, for the import and the principal it names. */
  predicate IsKnown(s: Store, id: Identity) {
    var k, o := Key(id.workspace, id.import_), Key(id.workspace, id.operation);
    k in s.imports && o in s.operations && s.operations[o].import_ == k.id && s.operations[o].principal == id.principal
  }

  /** The ids of a job that processing takes: each a valid one. */
  predicate IdsValid(id: Identity) {
    forall x :: x in {id.workspace, id.operation, id.import_, id.principal} ==> ValidOpaqueId(x)
  }

  /** What processing is refused for before any row is looked at, and what it is told when the rows are missing. */
  lemma ProcessingRefusal(s: Store, id: Identity, scans: int, code: string, at: Time)
    ensures var k := Key(id.workspace, id.import_);
            var begun := BeginProcessingStep(s, id, at).1;
            var completed := CompleteProcessingStep(s, id, scans, at).1;
            var failed := FailProcessingStep(s, id, code, at).1;
            var named := IdsValid(id) && at != 0;
            var coded := ValidDomainName(code, 128) && forall i :: 0 <= i < |code| ==> code[i] != '_';
            && (begun == Err(Invalid) <==> !named)
            && (completed == Err(Invalid) <==> !named || scans < 0)
            && (failed == Err(Invalid) <==> !named || !coded)
            && (begun == Err(ProcessingNotFound) <==>
                  named && !(IsKnown(s, id) && k in s.artifacts && s.artifacts[k].state == Committed
                             && s.artifacts[k].evidence.Some?))
            && (completed == Err(ProcessingNotFound) <==> named && scans >= 0 && !IsKnown(s, id))
            && (failed == Err(ProcessingNotFound) <==> named && coded && !IsKnown(s, id))
  {
    assert IdsValid(id) <==> ValidIdentity(id) by {
      assert id.workspace in {id.workspace, id.operation, id.import_, id.principal};
    }
  }

  /** The rows of a started operation, and what the processor is told; it starts unless the clock is behind the rows. */
  lemma StartIsWritten(s: Store, id: Identity, at: Time)
    requires Lifecycle.RowsOk(s, id) && ValidIdentity(id) && at != 0
    ensures var k, o := Key(id.workspace, id.import_), Key(id.workspace, id.operation);
            var (u, r) := BeginProcessingStep(s, id, at);
            && k in s.imports && o in s.operations && k in s.artifacts && s.artifacts[k].evidence.Some?
            && var imp, art, op := s.imports[k], s.artifacts[k], s.operations[o];
               var over := op.state in {OpSucceeded, OpFailed};
               && (r.Ok? <==> over || (at >= op.createdAt && at >= imp.terms.createdAt))
               && (r.Err? ==> u == s && r.error == Backend)
               && (r.Ok? ==>
                     r.value == ProcessingSource(if over then op.state else OpRunning,
                                                 if op.failureCode.Some? then op.failureCode.value else "",
                                                 art.evidence.value, art.place, imp.terms.maxBytes))
               && (over ==> u == s)
               && (!over && r.Ok? ==>
                     u == s.(imports := s.imports[k := imp.(state := Processing, updatedAt := at)],
                             operations := s.operations[
                             o := op.(state := OpRunning, updatedAt := at,
                                      startedAt := if op.startedAt.Some? then op.startedAt else Some(at))]))
  {
  }

  /** An instant at which the end of an operation can be written: not before its rows, nor before its start. */
  predicate EndsInOrder(imp: ImportRow, op: OperationRow, at: Time) {
    at >= op.createdAt && at >= imp.terms.createdAt && (op.startedAt.Some? ==> at >= op.startedAt.value)
  }

  /** The rows of a published success; a repeated one is accepted exactly for the same number of scans. */
  lemma SuccessIsWritten(s: Store, id: Identity, scans: nat, at: Time)
    requires Lifecycle.RowsOk(s, id) && ValidIdentity(id) && at != 0
    ensures var k, o := Key(id.workspace, id.import_), Key(id.workspace, id.operation);
            var (u, r) := CompleteProcessingStep(s, id, scans, at);
            && k in s.imports && o in s.operations
            && var imp, op := s.imports[k], s.operations[o];
               && (op.state in {OpQueued, OpFailed} ==> r == Err(ProcessingConflict))
               && (op.state == OpSucceeded ==>
                     u == s && r == if op.scans == Some(scans) then Ok(()) else Err(ProcessingConflict))
               && (op.state == OpRunning ==> r == if EndsInOrder(imp, op, at) then Ok(()) else Err(Backend))
               && (op.state == OpRunning && r.Ok? ==>
                     u == s.(imports := s.imports[k := imp.(state := Succeeded, updatedAt := at)],
                             operations := s.operations[o := op.(state := OpSucceeded, scans := Some(scans),
                                                                 updatedAt := at, finishedAt := Some(at))]))
               && (r.Err? ==> u == s)
  {
  }

  /** The rows of a published failure; a repeated one is accepted exactly for the same code. */
  lemma FailureIsWritten(s: Store, id: Identity, code: string, at: Time)
    requires Lifecycle.RowsOk(s, id) && ValidIdentity(id) && ValidFailureCode(code) && at != 0
    ensures var k, o := Key(id.workspace, id.import_), Key(id.workspace, id.operation);
            var (u, r) := FailProcessingStep(s, id, code, at);
            && k in s.imports && o in s.operations
            && var imp, op := s.imports[k], s.operations[o];
               && (op.state == OpSucceeded ==> r == Err(ProcessingConflict))
               && (op.state == OpFailed ==>
                     u == s && r == if op.failureCode == Some(code) then Ok(()) else Err(ProcessingConflict))
               && (op.state in {OpQueued, OpRunning} ==>
                     r == if EndsInOrder(imp, op, at) then Ok(()) else Err(Backend))
               && (op.state in {OpQueued, OpRunning} && r.Ok? ==>
                     u == s.(imports := s.imports[k := imp.(state := Failed, updatedAt := at)],
                             operations := s.operations[o := op.(state := OpFailed, failureCode := Some(code),
                                                                 updatedAt := at, finishedAt := Some(at))]))
               && (r.Err? ==> u == s)
  {
  }

  // ---------------------------------------------------------------------
  // What the rows of a reached state say
  // ---------------------------------------------------------------------

  /** The columns of an operation follow its state, and its times are in order. */
  lemma OperationsAreConsistent(s: Store, o: Key)
    requires Lifecycle.Reached(s) && o in s.operations
    ensures var op := s.operations[o];
            && op.state in {OpQueued, OpRunning, OpSucceeded, OpFailed}
            && (op.scans.Some? <==> op.state == OpSucceeded) && (op.failureCode.Some? <==> op.state == OpFailed)
            && (op.finishedAt.Some? <==> op.state in {OpSucceeded, OpFailed})
            && (op.state == OpRunning ==> op.startedAt.Some?)
            && op.createdAt <= op.updatedAt
            && (op.startedAt.Some? ==> op.createdAt <= op.startedAt.value)
            && (op.finishedAt.Some? ==> op.createdAt <= op.finishedAt.value)
            && (op.startedAt.Some? && op.finishedAt.Some? ==> op.startedAt.value <= op.finishedAt.value)
  {
    Lifecycle.ReachedIsOk(s);
    assert Lifecycle.OperationOk(s, o);
  }

  /** An attempt and its lease, the evidence or the rejection code are there exactly in the state they belong to. */
  lemma ArtifactsAreConsistent(s: Store, k: Key)
    requires Lifecycle.Reached(s) && k in s.artifacts
    ensures k in s.imports
    ensures var imp, art := s.imports[k], s.artifacts[k];
            && (art.attempt.Some? && art.leaseExpiresAt.Some? <==> art.state == Receiving)
            && (art.evidence.Some? <==> art.state == Committed) && (art.rejection != "" <==> art.state == Refused)
            && (art.evidence.Some? ==> art.evidence.value.size >= 0 && art.createdAt <= art.evidence.value.committedAt)
            && art.createdAt <= art.updatedAt
            && (art.state == Receiving <==> imp.state == Uploading) && (art.state == Refused <==> imp.state == Rejected)
            && (art.state == Committed <==> imp.state in {Uploaded, Queued, Processing, Succeeded, Failed})
            && (art.state == Pending <==> imp.state == AwaitingUpload)
  {
    Lifecycle.ReachedIsOk(s);
    assert Lifecycle.PairOk(s.imports[k], ArtifactOf(s, k));
  }
}
