/** Safety of the import lifecycle over every run of store transactions. */
module Lifecycle {
  import opened Base
  import opened Text
  import Streams
  import opened Ingestion

  // ---------------------------------------------------------------------
  // Runs
  // ---------------------------------------------------------------------

  datatype Command =
    | Reserve(reserve: ReserveSpec)
    | BeginUpload(begin: BeginSpec)
    | CommitUpload(k: Key, artifact: string, attempt: string, evidence: Evidence)
    | EndUpload(k: Key, artifact: string, attempt: string, rejectCode: string, at: Time)
    | Complete(complete: CompleteSpec)
    | BeginProcessing(id: Identity, at: Time)
    | CompleteProcessing(id: Identity, scans: int, at: Time)
    | FailProcessing(id: Identity, code: string, at: Time)

  function Next(s: Store, c: Command): Store {
    match c
    case Reserve(spec) => ReserveStep(s, spec).0
    case BeginUpload(spec) => BeginUploadStep(s, spec).0
    case CommitUpload(k, artifact, attempt, evidence) => CommitUploadStep(s, k, artifact, attempt, evidence).0
    case EndUpload(k, artifact, attempt, rejectCode, at) => EndUploadStep(s, k, artifact, attempt, rejectCode, at).0
    case Complete(spec) => CompleteStep(s, spec).0
    case BeginProcessing(id, at) => BeginProcessingStep(s, id, at).0
    case CompleteProcessing(id, scans, at) => CompleteProcessingStep(s, id, scans, at).0
    case FailProcessing(id, code, at) => FailProcessingStep(s, id, code, at).0
  }

  function Run(s: Store, cs: seq<Command>): Store {
    if cs == [] then s else Next(Run(s, cs[..|cs| - 1]), cs[|cs| - 1])
  }

  const EMPTY: Store := Store(map[], map[], map[], map[], map[], map[])

  // ---------------------------------------------------------------------
  // Lock-step
  // ---------------------------------------------------------------------

  /** The artifact states each import state goes with. */
  predicate InStep(state: ImportState, art: Option<ArtifactRow>) {
    match state
    case AwaitingUpload => art.None? || art.value.state == Pending
    case Uploading => art.Some? && art.value.state == Receiving
    case Rejected => art.Some? && art.value.state == Refused
    case Abandoned => art.None? || art.value.state == Dropped
    case _ => art.Some? && art.value.state == Committed
  }

  predicate Completed(state: ImportState) { state in {Queued, Processing, Succeeded, Failed} }

  /** The one operation state each import state goes with. */
  predicate OperationInStep(state: ImportState, op: OperationState) {
    match state
    case Queued => op == OpQueued
    case Processing => op == OpRunning
    case Succeeded => op == OpSucceeded
    case Failed => op == OpFailed
    case _ => false
  }

  predicate PairOk(imp: ImportRow, art: Option<ArtifactRow>) {
    && InStep(imp.state, art) && ImportChecks(imp)
    && (art.Some? ==> ArtifactChecks(art.value))
  }

  ghost predicate PairsOk(s: Store) {
    && (forall k :: k in s.artifacts ==> k in s.imports)
    && (forall k :: k in s.imports ==> PairOk(s.imports[k], ArtifactOf(s, k)))
  }

  predicate OperationOk(s: Store, o: Key) {
    o in s.operations ==>
      var op := s.operations[o];
      var k := Key(o.workspace, op.import_);
      && OperationChecks(op) && k in s.imports
      && OperationInStep(s.imports[k].state, op.state) && op.principal == s.imports[k].terms.principal
  }

  ghost predicate OperationsOk(s: Store) {
    && (forall o :: o in s.operations ==> OperationOk(s, o))
    && (forall k :: k in s.imports && Completed(s.imports[k].state) ==> HasOperation(s, k))
  }

  predicate SameImport(s: Store, a: Key, b: Key) {
    a in s.operations && b in s.operations && a.workspace == b.workspace
    && s.operations[a].import_ == s.operations[b].import_
  }

  /** UNIQUE (workspace_id, import_id, kind) and the unique job per operation. */
  ghost predicate OneEach(s: Store) {
    && (forall a, b :: SameImport(s, a, b) ==> a == b)
    && (forall o :: o in s.jobs <==> o in s.operations)
    && (forall o :: o in s.operations ==> s.jobs[o].import_ == s.operations[o].import_)
  }

  predicate ClaimOk(s: Store, scope: Scope, claim: CompleteClaim) {
    var o := Key(scope.workspace, claim.operation);
    && o in s.operations && s.operations[o].import_ == claim.import_
    && s.operations[o].principal == scope.principal && s.operations[o].createdAt == claim.completedAt
  }

  ghost predicate ClaimsOk(s: Store) {
    forall c :: c in s.completes ==> ClaimOk(s, c, s.completes[c])
  }

  ghost predicate PlacesOk(s: Store) {
    forall a, b | a in s.artifacts && b in s.artifacts :: s.artifacts[a].place == s.artifacts[b].place ==> a == b
  }

  ghost predicate Inv(s: Store) {
    PairsOk(s) && OperationsOk(s) && OneEach(s) && ClaimsOk(s) && PlacesOk(s)
  }

  // ---------------------------------------------------------------------
  // Moves keep it
  // ---------------------------------------------------------------------

  /** An upload move: the import has no operation before or after. */
  ghost predicate UploadMove(s: Store, k: Key, imp: ImportRow, art: ArtifactRow) {
    && (k in s.imports ==> !Completed(s.imports[k].state))
    && !Completed(imp.state) && PairOk(imp, Some(art))
    && (if k in s.artifacts then art.place == s.artifacts[k].place else !PlaceUsed(s, art.place))
  }

  lemma UncompletedHasNone(s: Store, k: Key)
    requires OperationsOk(s) && (k in s.imports ==> !Completed(s.imports[k].state))
    ensures forall o :: o in s.operations ==> Key(o.workspace, s.operations[o].import_) != k
  {
    forall o | o in s.operations ensures Key(o.workspace, s.operations[o].import_) != k {
      assert OperationOk(s, o);
    }
  }

  lemma OperationsUntouched(s: Store, u: Store, k: Key)
    requires OperationsOk(s) && u.operations == s.operations
    requires k in s.imports ==> !Completed(s.imports[k].state)
    requires k in u.imports && !Completed(u.imports[k].state)
    requires u.imports == s.imports[k := u.imports[k]]
    ensures OperationsOk(u)
  {
    UncompletedHasNone(s, k);
    forall o | o in u.operations ensures OperationOk(u, o) {
      assert OperationOk(s, o);
    }
    forall j | j in u.imports && Completed(u.imports[j].state) ensures HasOperation(u, j) {
      assert HasOperation(s, j);
      var o :| o in s.operations && OperationOf(s, j, o);
      assert OperationOf(u, j, o);
    }
  }

  lemma OneEachUntouched(s: Store, u: Store)
    requires OneEach(s) && u.operations == s.operations && u.jobs == s.jobs
    ensures OneEach(u)
  {
    forall a, b | SameImport(u, a, b) ensures a == b {
      assert SameImport(s, a, b);
    }
  }

  lemma ClaimsUntouched(s: Store, u: Store)
    requires ClaimsOk(s) && u.operations == s.operations && u.completes == s.completes
    ensures ClaimsOk(u)
  {
    forall c | c in u.completes ensures ClaimOk(u, c, u.completes[c]) {
      assert ClaimOk(s, c, s.completes[c]);
    }
  }

  lemma UploadMoveKeepsPairs(s: Store, k: Key, imp: ImportRow, art: ArtifactRow)
    requires PairsOk(s) && UploadMove(s, k, imp, art)
    ensures PairsOk(Paired(s, k, imp, art))
  {
    var u := Paired(s, k, imp, art);
    forall j | j in u.imports ensures PairOk(u.imports[j], ArtifactOf(u, j)) {
      if j != k {
        assert PairOk(s.imports[j], ArtifactOf(s, j));
      }
    }
  }

  lemma UploadMoveKeepsPlaces(s: Store, k: Key, imp: ImportRow, art: ArtifactRow)
    requires PlacesOk(s) && UploadMove(s, k, imp, art)
    ensures PlacesOk(Paired(s, k, imp, art))
  {
  }

  lemma UploadMoveKeeps(s: Store, k: Key, imp: ImportRow, art: ArtifactRow)
    requires Inv(s) && UploadMove(s, k, imp, art)
    ensures Inv(Paired(s, k, imp, art))
  {
    var u := Paired(s, k, imp, art);
    UploadMoveKeepsPairs(s, k, imp, art);
    UploadMoveKeepsPlaces(s, k, imp, art);
    OperationsUntouched(s, u, k);
    OneEachUntouched(s, u);
    ClaimsUntouched(s, u);
  }

  /** A processing move: an operation and its import change together, keeping what identifies the operation. */
  ghost predicate ProcessingMove(s: Store, k: Key, o: Key, imp: ImportRow, op: OperationRow) {
    && k in s.imports && OperationOf(s, k, o)
    && Completed(imp.state) && OperationInStep(imp.state, op.state) && imp.terms == s.imports[k].terms
    && ImportChecks(imp) && OperationChecks(op)
    && op.import_ == s.operations[o].import_ && op.principal == s.operations[o].principal
    && op.createdAt == s.operations[o].createdAt
    && op.state != OpQueued && (s.operations[o].startedAt.Some? ==> op.startedAt == s.operations[o].startedAt)
  }

  lemma ProcessingMoveKeepsPairs(s: Store, k: Key, o: Key, imp: ImportRow, op: OperationRow)
    requires PairsOk(s) && OperationsOk(s) && ProcessingMove(s, k, o, imp, op)
    ensures PairsOk(Advanced(s, k, o, imp, op))
  {
    var u := Advanced(s, k, o, imp, op);
    assert OperationOk(s, o);
    forall j | j in u.imports ensures PairOk(u.imports[j], ArtifactOf(u, j)) {
      assert PairOk(s.imports[j], ArtifactOf(s, j));
    }
  }

  lemma ProcessingMoveKeepsRow(s: Store, k: Key, o: Key, imp: ImportRow, op: OperationRow, p: Key)
    requires ProcessingMove(s, k, o, imp, op) && OperationOk(s, o) && OperationOk(s, p)
    requires p == o || !SameImport(s, p, o)
    ensures OperationOk(Advanced(s, k, o, imp, op), p)
  {
  }

  lemma ProcessingMoveKeepsHaving(s: Store, k: Key, o: Key, imp: ImportRow, op: OperationRow, j: Key)
    requires ProcessingMove(s, k, o, imp, op) && (j != k ==> HasOperation(s, j))
    ensures HasOperation(Advanced(s, k, o, imp, op), j)
  {
    var u := Advanced(s, k, o, imp, op);
    if j == k {
      assert OperationOf(u, k, o);
    } else {
      var p :| p in s.operations && OperationOf(s, j, p);
      assert OperationOf(u, j, p);
    }
  }

  lemma ProcessingMoveKeepsOperations(s: Store, k: Key, o: Key, imp: ImportRow, op: OperationRow)
    requires OperationsOk(s) && OneEach(s) && ProcessingMove(s, k, o, imp, op)
    ensures OperationsOk(Advanced(s, k, o, imp, op))
  {
    var u := Advanced(s, k, o, imp, op);
    forall p | p in u.operations ensures OperationOk(u, p) {
      assert OperationOk(s, p) && OperationOk(s, o);
      ProcessingMoveKeepsRow(s, k, o, imp, op, p);
    }
    forall j | j in u.imports && Completed(u.imports[j].state) ensures HasOperation(u, j) {
      ProcessingMoveKeepsHaving(s, k, o, imp, op, j);
    }
  }

  lemma ProcessingMoveKeepsOneEach(s: Store, k: Key, o: Key, imp: ImportRow, op: OperationRow)
    requires OneEach(s) && o in s.operations && op.import_ == s.operations[o].import_
    ensures OneEach(Advanced(s, k, o, imp, op))
  {
    var u := Advanced(s, k, o, imp, op);
    forall a, b | SameImport(u, a, b) ensures a == b {
      assert SameImport(s, a, b);
    }
  }

  lemma ProcessingMoveKeepsClaims(s: Store, k: Key, o: Key, imp: ImportRow, op: OperationRow)
    requires ClaimsOk(s) && ProcessingMove(s, k, o, imp, op)
    ensures ClaimsOk(Advanced(s, k, o, imp, op))
  {
    var u := Advanced(s, k, o, imp, op);
    forall c | c in u.completes ensures ClaimOk(u, c, u.completes[c]) {
      assert ClaimOk(s, c, s.completes[c]);
    }
  }

  lemma ProcessingMoveKeeps(s: Store, k: Key, o: Key, imp: ImportRow, op: OperationRow)
    requires Inv(s) && ProcessingMove(s, k, o, imp, op)
    ensures Inv(Advanced(s, k, o, imp, op))
  {
    ProcessingMoveKeepsPairs(s, k, o, imp, op);
    ProcessingMoveKeepsOperations(s, k, o, imp, op);
    ProcessingMoveKeepsOneEach(s, k, o, imp, op);
    ProcessingMoveKeepsClaims(s, k, o, imp, op);
  }

  // ---------------------------------------------------------------------
  // Every transaction keeps it
  // ---------------------------------------------------------------------

  lemma ReserveKeeps(s: Store, spec: ReserveSpec)
    requires Inv(s)
    ensures Inv(ReserveStep(s, spec).0)
  {
    var u := ReserveStep(s, spec).0;
    if u != s {
      var imp := ImportRow(spec.terms, AwaitingUpload, spec.terms.createdAt);
      var art := ArtifactRow(spec.artifact, spec.place, Pending, None, None, None, "", spec.terms.createdAt,
                             spec.terms.createdAt);
      UploadMoveKeeps(s, spec.k, imp, art);
      ClaimedElsewhere(Paired(s, spec.k, imp, art), u);
    }
  }

  /** The reservation claims take no part in the invariant. */
  lemma ClaimedElsewhere(s: Store, u: Store)
    requires Inv(s) && u == s.(creates := u.creates)
    ensures Inv(u)
  {
    OneEachUntouched(s, u);
    ClaimsUntouched(s, u);
    forall k | k in u.imports ensures PairOk(u.imports[k], ArtifactOf(u, k)) {
      assert PairOk(s.imports[k], ArtifactOf(s, k));
    }
    OperationsCarried(s, u);
  }

  lemma OperationsCarried(s: Store, u: Store)
    requires OperationsOk(s) && u.operations == s.operations && u.imports == s.imports
    ensures OperationsOk(u)
  {
    forall o | o in u.operations ensures OperationOk(u, o) {
      assert OperationOk(s, o);
    }
    forall j | j in u.imports && Completed(u.imports[j].state) ensures HasOperation(u, j) {
      assert HasOperation(s, j);
      var o :| o in s.operations && OperationOf(s, j, o);
      assert OperationOf(u, j, o);
    }
  }

  lemma AbandonPairKeeps(s: Store, k: Key, at: Time)
    requires Inv(s) && k in s.imports && s.imports[k].state in {AwaitingUpload, Uploading} && k in s.artifacts
    ensures Inv(AbandonStep(s, k, at).0)
  {
    assert PairOk(s.imports[k], ArtifactOf(s, k));
    if AbandonStep(s, k, at).0 != s {
      UploadMoveKeeps(s, k, Moved(s.imports[k], Abandoned, at), Dropping(s.artifacts[k], at));
    }
  }

  lemma AbandonAloneKeeps(s: Store, u: Store, k: Key, imp: ImportRow)
    requires Inv(s) && k in s.imports && !Completed(s.imports[k].state) && k !in s.artifacts
    requires imp.state == Abandoned && ImportChecks(imp) && u == s.(imports := s.imports[k := imp])
    ensures Inv(u)
  {
    OperationsUntouched(s, u, k);
    OneEachUntouched(s, u);
    ClaimsUntouched(s, u);
    forall j | j in u.imports ensures PairOk(u.imports[j], ArtifactOf(u, j)) {
      assert j == k || PairOk(s.imports[j], ArtifactOf(s, j));
    }
  }

  lemma AbandonKeeps(s: Store, k: Key, at: Time)
    requires Inv(s) && k in s.imports && s.imports[k].state in {AwaitingUpload, Uploading}
    ensures Inv(AbandonStep(s, k, at).0)
  {
    if k in s.artifacts {
      AbandonPairKeeps(s, k, at);
    } else if AbandonStep(s, k, at).0 != s {
      AbandonAloneKeeps(s, AbandonStep(s, k, at).0, k, Moved(s.imports[k], Abandoned, at));
    }
  }

  lemma BeginUploadKeeps(s: Store, spec: BeginSpec)
    requires Inv(s)
    ensures Inv(BeginUploadStep(s, spec).0)
  {
    var u, k := BeginUploadStep(s, spec).0, spec.k;
    if k in s.imports && s.imports[k].state in {AwaitingUpload, Uploading} {
      if spec.startedAt >= s.imports[k].terms.uploadExpiresAt {
        AbandonKeeps(s, k, spec.startedAt);
      } else {
        LeaseKeeps(s, spec);
      }
    }
  }

  lemma LeaseKeeps(s: Store, spec: BeginSpec)
    requires Inv(s) && spec.k in s.imports && s.imports[spec.k].state in {AwaitingUpload, Uploading}
    ensures Inv(LeaseStep(s, spec).0)
  {
    if LeaseStep(s, spec).0 != s {
      UploadMoveKeeps(s, spec.k, Moved(s.imports[spec.k], Uploading, spec.startedAt), LeaseRow(s, spec).value);
    }
  }

  lemma CommitUploadKeeps(s: Store, k: Key, artifact: string, attempt: string, e: Evidence)
    requires Inv(s)
    ensures Inv(CommitUploadStep(s, k, artifact, attempt, e).0)
  {
    var u := CommitUploadStep(s, k, artifact, attempt, e).0;
    if u != s {
      UploadMoveKeeps(s, k, u.imports[k], u.artifacts[k]);
    }
  }

  lemma EndUploadKeeps(s: Store, k: Key, artifact: string, attempt: string, rejectCode: string, at: Time)
    requires Inv(s)
    ensures Inv(EndUploadStep(s, k, artifact, attempt, rejectCode, at).0)
  {
    var u := EndUploadStep(s, k, artifact, attempt, rejectCode, at).0;
    if u != s {
      UploadMoveKeeps(s, k, u.imports[k], u.artifacts[k]);
    }
  }

  /** The new rows of a processing transaction that changed something. */
  ghost predicate Moves(s: Store, id: Identity, u: Store) {
    var k, o := ImportKey(id), OperationKey(id);
    && k in u.imports && o in u.operations && u == Advanced(s, k, o, u.imports[k], u.operations[o])
    && ProcessingMove(s, k, o, u.imports[k], u.operations[o])
  }

  lemma BeginProcessingMoves(s: Store, id: Identity, at: Time)
    requires OperationOk(s, OperationKey(id)) && BeginProcessingStep(s, id, at).0 != s
    ensures Moves(s, id, BeginProcessingStep(s, id, at).0)
  {
  }

  lemma CompleteProcessingMoves(s: Store, id: Identity, scans: int, at: Time)
    requires OperationOk(s, OperationKey(id)) && CompleteProcessingStep(s, id, scans, at).0 != s
    ensures Moves(s, id, CompleteProcessingStep(s, id, scans, at).0)
  {
  }

  lemma FailProcessingMoves(s: Store, id: Identity, code: string, at: Time)
    requires OperationOk(s, OperationKey(id)) && FailProcessingStep(s, id, code, at).0 != s
    ensures Moves(s, id, FailProcessingStep(s, id, code, at).0)
  {
  }

  lemma MovesKeep(s: Store, id: Identity, u: Store)
    requires Inv(s) && Moves(s, id, u)
    ensures Inv(u)
  {
    ProcessingMoveKeeps(s, ImportKey(id), OperationKey(id), u.imports[ImportKey(id)], u.operations[OperationKey(id)]);
  }

  // The first completion

  ghost predicate CompletionMove(s: Store, spec: CompleteSpec, u: Store) {
    var k, o := spec.k, Key(spec.k.workspace, spec.operation);
    && k in s.imports && s.imports[k].state == Uploaded && s.imports[k].terms.principal == spec.principal
    && o !in s.operations && ScopeOf(spec) !in s.completes
    && ImportChecks(Moved(s.imports[k], Queued, spec.now))
    && u == FirstCompletion(s, spec).0 && u != s
  }

  lemma CompletionKeepsPairs(s: Store, spec: CompleteSpec, u: Store)
    requires PairsOk(s) && CompletionMove(s, spec, u)
    ensures PairsOk(u)
  {
    forall j | j in u.imports ensures PairOk(u.imports[j], ArtifactOf(u, j)) {
      assert PairOk(s.imports[j], ArtifactOf(s, j));
    }
  }

  lemma CompletionKeepsOperationRows(s: Store, spec: CompleteSpec, u: Store, p: Key)
    requires CompletionMove(s, spec, u) && p in u.operations && OperationOk(s, p)
    requires p in s.operations ==> Key(p.workspace, s.operations[p].import_) != spec.k
    ensures OperationOk(u, p)
  {
  }

  lemma CompletionKeepsHaving(s: Store, spec: CompleteSpec, u: Store, j: Key)
    requires CompletionMove(s, spec, u) && j in u.imports && (j != spec.k ==> HasOperation(s, j))
    ensures HasOperation(u, j)
  {
    if j == spec.k {
      assert OperationOf(u, j, Key(spec.k.workspace, spec.operation));
    } else {
      var p :| p in s.operations && OperationOf(s, j, p);
      assert OperationOf(u, j, p);
    }
  }

  lemma CompletionKeepsOperations(s: Store, spec: CompleteSpec, u: Store)
    requires OperationsOk(s) && CompletionMove(s, spec, u)
    ensures OperationsOk(u)
  {
    UncompletedHasNone(s, spec.k);
    forall p | p in u.operations ensures OperationOk(u, p) {
      assert OperationOk(s, p);
      CompletionKeepsOperationRows(s, spec, u, p);
    }
    forall j | j in u.imports && Completed(u.imports[j].state) ensures HasOperation(u, j) {
      CompletionKeepsHaving(s, spec, u, j);
    }
  }

  lemma CompletionKeepsOneEach(s: Store, spec: CompleteSpec, u: Store)
    requires OperationsOk(s) && OneEach(s) && CompletionMove(s, spec, u)
    ensures OneEach(u)
  {
    UncompletedHasNone(s, spec.k);
    forall a, b | SameImport(u, a, b) ensures a == b {
      assert a in s.operations && b in s.operations ==> SameImport(s, a, b);
    }
  }

  lemma CompletionKeepsClaims(s: Store, spec: CompleteSpec, u: Store)
    requires ClaimsOk(s) && CompletionMove(s, spec, u)
    ensures ClaimsOk(u)
  {
    forall c | c in u.completes ensures ClaimOk(u, c, u.completes[c]) {
      if c != ScopeOf(spec) {
        assert ClaimOk(s, c, s.completes[c]);
      }
    }
  }

  lemma CompleteKeeps(s: Store, spec: CompleteSpec)
    requires Inv(s)
    ensures Inv(CompleteStep(s, spec).0)
  {
    var u := CompleteStep(s, spec).0;
    if u != s {
      CompletionKeepsPairs(s, spec, u);
      CompletionKeepsOperations(s, spec, u);
      CompletionKeepsOneEach(s, spec, u);
      CompletionKeepsClaims(s, spec, u);
    }
  }

  predicate IsProcessing(c: Command) { c.BeginProcessing? || c.CompleteProcessing? || c.FailProcessing? }

  lemma ProcessingMoves(s: Store, c: Command)
    requires IsProcessing(c) && OperationOk(s, OperationKey(c.id)) && Next(s, c) != s
    ensures Moves(s, c.id, Next(s, c))
  {
    match c
    case BeginProcessing(id, at) => BeginProcessingMoves(s, id, at);
    case CompleteProcessing(id, scans, at) => CompleteProcessingMoves(s, id, scans, at);
    case FailProcessing(id, code, at) => FailProcessingMoves(s, id, code, at);
  }

  lemma ProcessingKeeps(s: Store, c: Command)
    requires Inv(s) && IsProcessing(c)
    ensures Inv(Next(s, c))
  {
    if Next(s, c) != s {
      assert OperationOk(s, OperationKey(c.id));
      ProcessingMoves(s, c);
      MovesKeep(s, c.id, Next(s, c));
    }
  }

  lemma NextKeeps(s: Store, c: Command)
    requires Inv(s)
    ensures Inv(Next(s, c))
  {
    match c
    case Reserve(spec) => ReserveKeeps(s, spec);
    case BeginUpload(spec) => BeginUploadKeeps(s, spec);
    case CommitUpload(k, artifact, attempt, evidence) => CommitUploadKeeps(s, k, artifact, attempt, evidence);
    case EndUpload(k, artifact, attempt, rejectCode, at) => EndUploadKeeps(s, k, artifact, attempt, rejectCode, at);
    case Complete(spec) => CompleteKeeps(s, spec);
    case _ => ProcessingKeeps(s, c);
  }

  lemma EmptyIsOk()
    ensures Inv(EMPTY)
  {
  }

  /** Import, artifact and operation states stay in lock-step in every reachable state. */
  lemma ReachableIsOk(cs: seq<Command>)
    ensures Inv(Run(EMPTY, cs))
  {
    EmptyIsOk();
    RunKeeps(EMPTY, cs);
  }

  /** Some run from empty tables ends here. */
  ghost predicate Reached(s: Store) {
    exists cs :: Run(EMPTY, cs) == s
  }

  lemma ReachedIsOk(s: Store)
    requires Reached(s)
    ensures Inv(s)
  {
    var cs :| Run(EMPTY, cs) == s;
    ReachableIsOk(cs);
  }

  lemma ReachedGoesOn(s: Store, c: Command)
    requires Reached(s)
    ensures Reached(Next(s, c))
  {
    var cs :| Run(EMPTY, cs) == s;
    assert (cs + [c])[..|cs + [c]| - 1] == cs;
    assert Run(EMPTY, cs + [c]) == Next(s, c);
  }

  /** What one transaction does to the rows of reached tables. */
  lemma ReachedStable(s: Store, c: Command)
    requires Reached(s)
    ensures Stable(s, Next(s, c))
  {
    ReachedIsOk(s);
    NextStable(s, c);
  }

  lemma ReachedRows(s: Store, id: Identity)
    requires Reached(s) && Found(s, id)
    ensures RowsOk(s, id)
  {
    ReachedIsOk(s);
    RowsAreOk(s, id);
  }

  /** Every run from a state in lock-step stays there. */
  lemma {:induction false} RunKeeps(s: Store, cs: seq<Command>)
    requires Inv(s)
    ensures Inv(Run(s, cs))
  {
    if cs != [] {
      RunKeeps(s, cs[..|cs| - 1]);
      NextKeeps(Run(s, cs[..|cs| - 1]), cs[|cs| - 1]);
    }
  }

  // ---------------------------------------------------------------------
  // What never changes
  // ---------------------------------------------------------------------

  /** What every transaction leaves alone. */
  ghost predicate Stable(s: Store, u: Store) {
    && (forall k :: k in s.imports ==> k in u.imports && u.imports[k].terms == s.imports[k].terms)
    && (forall k :: k in s.artifacts ==> ArtifactStable(s, u, k))
    && (forall o :: o in s.operations ==> OperationStable(s, u, o))
    && ClaimsStable(s, u)
  }

  ghost predicate ClaimsStable(s: Store, u: Store) {
    && (forall c :: c in s.completes ==> c in u.completes && u.completes[c] == s.completes[c])
    && (forall c :: c in s.creates ==> c in u.creates && u.creates[c] == s.creates[c])
  }

  /** An artifact keeps its place, and once committed it is fixed. */
  predicate ArtifactStable(s: Store, u: Store, k: Key)
    requires k in s.artifacts
  {
    && k in u.artifacts && u.artifacts[k].place == s.artifacts[k].place && u.artifacts[k].id == s.artifacts[k].id
    && (s.artifacts[k].state == Committed ==> u.artifacts[k] == s.artifacts[k])
  }

  /** An operation keeps what identifies it, its start once it has one, and once terminal it is fixed. */
  predicate OperationStable(s: Store, u: Store, o: Key)
    requires o in s.operations
  {
    && o in u.operations && u.operations[o].import_ == s.operations[o].import_
    && u.operations[o].principal == s.operations[o].principal
    && u.operations[o].createdAt == s.operations[o].createdAt
    && (s.operations[o].startedAt.Some? ==> u.operations[o].startedAt == s.operations[o].startedAt)
    && (s.operations[o].state != OpQueued ==> u.operations[o].state != OpQueued)
    && (TerminalOp(s.operations[o].state) ==> u.operations[o] == s.operations[o])
  }

  /** An upload transaction touches one import and one uncommitted artifact. */
  ghost predicate UploadRows(s: Store, k: Key, u: Store) {
    && k in s.imports && k in u.imports && u.imports == s.imports[k := u.imports[k]]
    && u.imports[k].terms == s.imports[k].terms
    && (u.artifacts == s.artifacts || (k in u.artifacts && u.artifacts == s.artifacts[k := u.artifacts[k]]))
    && (k in s.artifacts ==> ArtifactStable(s, u, k))
    && u.operations == s.operations && u.completes == s.completes && u.creates == s.creates
  }

  lemma AbandonRows(s: Store, k: Key, at: Time)
    requires k in s.imports && AbandonStep(s, k, at).0 != s
    ensures UploadRows(s, k, AbandonStep(s, k, at).0)
  {
  }

  lemma LeaseRows(s: Store, spec: BeginSpec)
    requires spec.k in s.imports && LeaseStep(s, spec).0 != s
    ensures UploadRows(s, spec.k, LeaseStep(s, spec).0)
  {
  }

  lemma BeginUploadRows(s: Store, spec: BeginSpec)
    requires BeginUploadStep(s, spec).0 != s
    ensures UploadRows(s, spec.k, BeginUploadStep(s, spec).0)
  {
    if spec.startedAt >= s.imports[spec.k].terms.uploadExpiresAt {
      AbandonRows(s, spec.k, spec.startedAt);
    } else {
      LeaseRows(s, spec);
    }
  }

  lemma CommitUploadRows(s: Store, k: Key, artifact: string, attempt: string, e: Evidence)
    requires CommitUploadStep(s, k, artifact, attempt, e).0 != s
    ensures UploadRows(s, k, CommitUploadStep(s, k, artifact, attempt, e).0)
  {
  }

  lemma EndUploadRows(s: Store, k: Key, artifact: string, attempt: string, rejectCode: string, at: Time)
    requires EndUploadStep(s, k, artifact, attempt, rejectCode, at).0 != s
    ensures UploadRows(s, k, EndUploadStep(s, k, artifact, attempt, rejectCode, at).0)
  {
  }

  lemma UploadRowsStable(s: Store, k: Key, u: Store)
    requires UploadRows(s, k, u)
    ensures Stable(s, u)
  {
  }

  lemma UploadStable(s: Store, c: Command)
    requires PairsOk(s) && (c.BeginUpload? || c.CommitUpload? || c.EndUpload?)
    ensures Stable(s, Next(s, c))
  {
    if Next(s, c) != s {
      match c
      case BeginUpload(spec) =>
        BeginUploadRows(s, spec);
        UploadRowsStable(s, spec.k, Next(s, c));
      case CommitUpload(k, artifact, attempt, evidence) =>
        CommitUploadRows(s, k, artifact, attempt, evidence);
        UploadRowsStable(s, k, Next(s, c));
      case EndUpload(k, artifact, attempt, rejectCode, at) =>
        EndUploadRows(s, k, artifact, attempt, rejectCode, at);
        UploadRowsStable(s, k, Next(s, c));
    }
  }

  lemma ReservedStable(s: Store, u: Store, k: Key)
    requires k !in s.imports && k !in s.artifacts && k in u.imports && k in u.artifacts
    requires u.imports == s.imports[k := u.imports[k]] && u.artifacts == s.artifacts[k := u.artifacts[k]]
    requires u.operations == s.operations && u.completes == s.completes
    requires forall c :: c in s.creates ==> c in u.creates && u.creates[c] == s.creates[c]
    ensures Stable(s, u)
  {
  }

  lemma ReserveStable(s: Store, spec: ReserveSpec)
    ensures Stable(s, ReserveStep(s, spec).0)
  {
    if ReserveStep(s, spec).0 == s {
      StableReflexive(s);
    } else {
      ReservedStable(s, ReserveStep(s, spec).0, spec.k);
    }
  }

  lemma FirstCompletionStable(s: Store, spec: CompleteSpec)
    requires spec.k in s.imports && ScopeOf(spec) !in s.completes
    ensures Stable(s, FirstCompletion(s, spec).0)
  {
    var u := FirstCompletion(s, spec).0;
    if u == s {
      StableReflexive(s);
    } else {
      var o := Key(spec.k.workspace, spec.operation);
      AddedStable(s, u, spec.k, o, ScopeOf(spec));
    }
  }

  lemma StableReflexive(s: Store)
    ensures Stable(s, s)
  {
  }

  lemma AddedStable(s: Store, u: Store, k: Key, o: Key, c: Scope)
    requires k in s.imports && k in u.imports && o in u.operations && c in u.completes
    requires u.imports == s.imports[k := u.imports[k]] && u.imports[k].terms == s.imports[k].terms
    requires u.artifacts == s.artifacts
    requires o !in s.operations && u.operations == s.operations[o := u.operations[o]]
    requires c !in s.completes && u.completes == s.completes[c := u.completes[c]] && u.creates == s.creates
    ensures Stable(s, u)
  {
  }

  lemma CompleteStable(s: Store, spec: CompleteSpec)
    ensures Stable(s, CompleteStep(s, spec).0)
  {
    if CompleteStep(s, spec).0 != s {
      FirstCompletionStable(s, spec);
    }
  }

  lemma MoveStable(s: Store, k: Key, o: Key, imp: ImportRow, op: OperationRow)
    requires ProcessingMove(s, k, o, imp, op) && !TerminalOp(s.operations[o].state)
    ensures Stable(s, Advanced(s, k, o, imp, op))
  {
  }

  lemma ProcessingStable(s: Store, c: Command)
    requires IsProcessing(c) && OperationOk(s, OperationKey(c.id))
    ensures Stable(s, Next(s, c))
  {
    var u := Next(s, c);
    if u != s {
      ProcessingMoves(s, c);
      NeverFromTerminal(s, c);
      MoveStable(s, ImportKey(c.id), OperationKey(c.id), u.imports[ImportKey(c.id)], u.operations[OperationKey(c.id)]);
    }
  }

  lemma NeverFromTerminal(s: Store, c: Command)
    requires IsProcessing(c) && OperationOk(s, OperationKey(c.id)) && Next(s, c) != s
    ensures !TerminalOp(s.operations[OperationKey(c.id)].state)
  {
  }

  lemma NextStable(s: Store, c: Command)
    requires Inv(s)
    ensures Stable(s, Next(s, c))
  {
    match c
    case Reserve(spec) => ReserveStable(s, spec);
    case Complete(spec) => CompleteStable(s, spec);
    case BeginProcessing(id, _) => ProcessingStable(s, c);
    case CompleteProcessing(id, _, _) => ProcessingStable(s, c);
    case FailProcessing(id, _, _) => ProcessingStable(s, c);
    case _ => UploadStable(s, c);
  }

  lemma StableTransitive(s: Store, t: Store, u: Store)
    requires Stable(s, t) && Stable(t, u)
    ensures Stable(s, u)
  {
    forall k | k in s.artifacts ensures ArtifactStable(s, u, k) {
      assert ArtifactStable(s, t, k) && ArtifactStable(t, u, k);
    }
    forall o | o in s.operations ensures OperationStable(s, u, o) {
      assert OperationStable(s, t, o) && OperationStable(t, u, o);
    }
  }

  /** Committed evidence and terminal operations never change, in any continuation of any run. */
  lemma {:induction false} RunStable(s: Store, cs: seq<Command>)
    requires Inv(s)
    ensures Stable(s, Run(s, cs))
  {
    if cs == [] {
      StableReflexive(s);
    } else {
      RunStable(s, cs[..|cs| - 1]);
      RunKeeps(s, cs[..|cs| - 1]);
      StableGoesOn(s, Run(s, cs[..|cs| - 1]), cs[|cs| - 1]);
    }
  }

  lemma StableGoesOn(s: Store, t: Store, c: Command)
    requires Stable(s, t) && Inv(t)
    ensures Stable(s, Next(t, c))
  {
    NextStable(t, c);
    StableTransitive(s, t, Next(t, c));
  }

  // Transactions that leave an operation alone

  lemma UploadsTouchNoOperation(s: Store, command: Command)
    requires command.Reserve? || command.BeginUpload? || command.CommitUpload? || command.EndUpload?
    ensures Next(s, command).operations == s.operations
  {
    match command
    case Reserve(spec) => assert ReserveStep(s, spec).0.operations == s.operations;
    case BeginUpload(spec) => assert BeginUploadStep(s, spec).0.operations == s.operations;
    case _ =>
  }

  lemma OtherCompletions(s: Store, o: Key, command: Command)
    requires o in s.operations
    requires command.Complete? || (command.CompleteProcessing? && OperationKey(command.id) != o)
    ensures var u := Next(s, command);
            o in u.operations && u.operations[o] == s.operations[o]
  {
  }

  // ---------------------------------------------------------------------
  // Completion
  // ---------------------------------------------------------------------

  /** The same request, with whatever candidate id, clock and policy the later call has. */
  predicate SameRequest(a: CompleteSpec, b: CompleteSpec) {
    a.k == b.k && a.application == b.application && a.principal == b.principal && a.key == b.key
  }

  /** A successful completion leaves its claim and the operation it returned. */
  ghost predicate Claimed(s: Store, spec: CompleteSpec, operation: Operation) {
    var o := Key(spec.k.workspace, operation.id);
    && ScopeOf(spec) in s.completes
    && s.completes[ScopeOf(spec)] == CompleteClaim(spec.k.id, operation.id, operation.updatedAt)
    && OperationOf(s, spec.k, o) && s.operations[o].principal == operation.principal
    && s.operations[o].createdAt == operation.createdAt
    && operation == Operation(o.id, o.workspace, spec.k.id, operation.principal, OpQueued, operation.createdAt,
                              operation.updatedAt)
    && Owned(s, spec.k, spec.application, spec.principal)
  }

  lemma CompletionClaims(s: Store, spec: CompleteSpec)
    requires CompleteStep(s, spec).1.Ok?
    requires ScopeOf(spec) in s.completes ==> ClaimOk(s, ScopeOf(spec), s.completes[ScopeOf(spec)])
    ensures Claimed(CompleteStep(s, spec).0, spec, CompleteStep(s, spec).1.value.operation)
  {
  }

  lemma ClaimLasts(s: Store, u: Store, spec: CompleteSpec, operation: Operation)
    requires Claimed(s, spec, operation) && Stable(s, u)
    ensures Claimed(u, spec, operation)
  {
    assert OperationStable(s, u, Key(spec.k.workspace, operation.id));
  }

  lemma ClaimReplays(s: Store, first: CompleteSpec, again: CompleteSpec, operation: Operation)
    requires Claimed(s, first, operation) && SameRequest(first, again)
    ensures CompleteStep(s, again) == (s, Ok(Completion(operation, false)))
  {
  }

  /**
   A completion repeated at any later time, after any transactions, returns the
   first operation field for field and changes nothing.
   */
  lemma CompletionReplays(s: Store, first: CompleteSpec, cs: seq<Command>, again: CompleteSpec)
    requires Inv(s) && CompleteStep(s, first).1.Ok? && SameRequest(first, again)
    ensures var later := Run(CompleteStep(s, first).0, cs);
            CompleteStep(later, again) == (later, Ok(CompleteStep(s, first).1.value.(created := false)))
  {
    var t, operation := CompleteStep(s, first).0, CompleteStep(s, first).1.value.operation;
    CompleteKeeps(s, first);
    CompletionClaims(s, first);
    RunStable(t, cs);
    ClaimLasts(t, Run(t, cs), first, operation);
    ClaimReplays(Run(t, cs), first, again, operation);
  }

  /** The same reservation, with whatever candidate ids, clock and policy the later call has. */
  predicate SameReservation(a: ReserveSpec, b: ReserveSpec) {
    ReserveScope(a) == ReserveScope(b) && RequestOf(a.terms) == RequestOf(b.terms)
  }

  /** The claim of a reservation and the import it stands for. */
  predicate Reserved(s: Store, spec: ReserveSpec, id: string, terms: Terms) {
    && ReserveScope(spec) in s.creates && s.creates[ReserveScope(spec)] == CreateClaim(RequestOf(spec.terms), id)
    && Key(spec.k.workspace, id) in s.imports && s.imports[Key(spec.k.workspace, id)].terms == terms
  }

  lemma ReservationClaims(s: Store, spec: ReserveSpec)
    requires ReserveStep(s, spec).1.Ok?
    ensures var r := ReserveStep(s, spec).1.value;
            Reserved(ReserveStep(s, spec).0, spec, r.id, r.row.terms)
  {
  }

  /**
   A reservation repeated at any later time returns the first import with the
   terms it was reserved with, in the state it has by then, and changes nothing.
   */
  lemma ReservationReplays(s: Store, first: ReserveSpec, cs: seq<Command>, again: ReserveSpec)
    requires Inv(s) && ReserveStep(s, first).1.Ok? && SameReservation(first, again)
    ensures var r, later := ReserveStep(s, first).1.value, Run(ReserveStep(s, first).0, cs);
            var k := Key(first.k.workspace, r.id);
            && k in later.imports && later.imports[k].terms == r.row.terms
            && ReserveStep(later, again) == (later, Ok(Reservation(r.id, later.imports[k], false)))
  {
    ReserveKeeps(s, first);
    ReservationClaims(s, first);
    RunStable(ReserveStep(s, first).0, cs);
  }

  /** Each import has at most one operation and one job, and has them exactly once it is past completion. */
  lemma OneOperationOneJob(s: Store, cs: seq<Command>, k: Key, a: Key, b: Key)
    requires Inv(s)
    ensures var u := Run(s, cs);
            && (OperationOf(u, k, a) && OperationOf(u, k, b) ==> a == b)
            && (OperationOf(u, k, a) ==> a in u.jobs && u.jobs[a].import_ == k.id)
            && (k in u.imports ==> (HasOperation(u, k) <==> Completed(u.imports[k].state)))
            && (forall j :: j in u.jobs ==> j in u.operations)
  {
    var u := Run(s, cs);
    RunKeeps(s, cs);
    assert SameImport(u, a, b) ==> a == b;
    if k in u.imports && HasOperation(u, k) {
      var o :| o in u.operations && OperationOf(u, k, o);
      assert OperationOk(u, o);
    }
  }

  // ---------------------------------------------------------------------
  // The worker's clock
  // ---------------------------------------------------------------------

  predicate Unfinished(s: Store, id: Identity) {
    Found(s, id) && s.operations[OperationKey(id)].state in {OpQueued, OpRunning}
  }

  /** The instant is not before the rows it would be written to. */
  predicate NotEarly(s: Store, id: Identity, at: Time)
    requires Found(s, id)
  {
    at >= s.operations[OperationKey(id)].createdAt && at >= s.imports[ImportKey(id)].terms.createdAt
  }

  predicate NotBeforeStart(s: Store, id: Identity, at: Time)
    requires Found(s, id)
  {
    var op := s.operations[OperationKey(id)];
    op.startedAt.Some? ==> at >= op.startedAt.value
  }

  /** The end of the operation can be written at this instant. */
  predicate Writable(s: Store, id: Identity, at: Time)
    requires Found(s, id)
  {
    NotEarly(s, id, at) && NotBeforeStart(s, id, at)
  }

  /** A later state of the rows one job names. */
  predicate RowsStable(s: Store, u: Store, id: Identity)
    requires Found(s, id)
  {
    && Found(u, id) && OperationStable(s, u, OperationKey(id))
    && u.imports[ImportKey(id)].terms == s.imports[ImportKey(id)].terms
  }

  lemma StableRows(s: Store, u: Store, id: Identity)
    requires Found(s, id) && Stable(s, u)
    ensures RowsStable(s, u, id)
  {
    assert OperationStable(s, u, OperationKey(id));
  }

  /** Once the clock is behind the operation it stays behind. */
  lemma BehindStays(s: Store, u: Store, id: Identity, at: Time)
    requires Found(s, id) && RowsStable(s, u, id) && !Writable(s, id, at)
    ensures !Writable(u, id, at)
  {
  }

  /** What the invariant says of the rows one job names. */
  predicate RowsOk(s: Store, id: Identity) {
    && Found(s, id) && OperationOk(s, OperationKey(id))
    && PairOk(s.imports[ImportKey(id)], ArtifactOf(s, ImportKey(id)))
  }

  lemma RowsAreOk(s: Store, id: Identity)
    requires Inv(s) && Found(s, id)
    ensures RowsOk(s, id)
  {
    assert OperationOk(s, OperationKey(id));
    assert PairOk(s.imports[ImportKey(id)], ArtifactOf(s, ImportKey(id)));
  }

  /** Unlike record times, the start of processing is not raised: it succeeds exactly when the clock is not behind. */
  lemma BeginProcessingIff(s: Store, id: Identity, at: Time)
    requires RowsOk(s, id) && ValidIdentity(id) && at != 0 && Unfinished(s, id)
    ensures BeginProcessingStep(s, id, at).1.Ok? <==> NotEarly(s, id, at)
    ensures !NotEarly(s, id, at) ==> BeginProcessingStep(s, id, at) == (s, Err(Backend))
  {
  }

  lemma CompleteProcessingIff(s: Store, id: Identity, scans: nat, at: Time)
    requires RowsOk(s, id) && ValidIdentity(id) && at != 0
    requires s.operations[OperationKey(id)].state == OpRunning
    ensures CompleteProcessingStep(s, id, scans, at).1.Ok? <==> Writable(s, id, at)
  {
  }

  lemma FailProcessingIff(s: Store, id: Identity, code: string, at: Time)
    requires RowsOk(s, id) && ValidIdentity(id) && ValidFailureCode(code) && at != 0 && Unfinished(s, id)
    ensures FailProcessingStep(s, id, code, at).1.Ok? <==> Writable(s, id, at)
    ensures !NotEarly(s, id, at) ==> FailProcessingStep(s, id, code, at) == (s, Err(Backend))
  {
  }

  // A short history of any one import, step by step

  const PLACE: Place := Place("disk", "key")
  const PROOF: Evidence := Evidence(0, Streams.Sha256([]), "v1", "", 30)

  function SomeTerms(id: Identity): Terms { Terms("app", id.principal, None, None, 100, 90, 10) }

  /** Reserved at 10, leased at 20, uploaded at 30, completed at 40 and started at 50. */
  function History(id: Identity): seq<Command> {
    var k := ImportKey(id);
    [Reserve(ReserveSpec(k, SomeTerms(id), "r", false, "art", PLACE)),
     BeginUpload(BeginSpec(k, "app", id.principal, "new", Place("disk", "other"), "try", 20, 60)),
     CommitUpload(k, "art", "try", PROOF),
     Complete(CompleteSpec(k, "app", id.principal, "c", id.operation, 40, 3)),
     BeginProcessing(id, 50)]
  }

  function Claims(id: Identity): map<Scope, CreateClaim> {
    map[Scope(id.workspace, id.principal, "r") := CreateClaim(Request("app", None, None), id.import_)]
  }

  function UploadHistory(id: Identity, state: ImportState, at: Time, art: ArtifactRow): Store {
    Store(map[ImportKey(id) := ImportRow(SomeTerms(id), state, at)], map[ImportKey(id) := art], map[], Claims(id),
          map[], map[])
  }

  function OperationHistory(id: Identity, state: ImportState, at: Time, op: OperationRow): Store {
    Store(map[ImportKey(id) := ImportRow(SomeTerms(id), state, at)],
          map[ImportKey(id) := ArtifactRow("art", PLACE, Committed, None, None, Some(PROOF), "", 10, 30)],
          map[OperationKey(id) := op], Claims(id),
          map[Scope(id.workspace, id.principal, "c") := CompleteClaim(id.import_, id.operation, 40)],
          map[OperationKey(id) := JobRow(id.import_, id.principal, 3)])
  }

  function ReservedAt10(id: Identity): Store {
    UploadHistory(id, AwaitingUpload, 10, ArtifactRow("art", PLACE, Pending, None, None, None, "", 10, 10))
  }

  function LeasedAt20(id: Identity): Store {
    UploadHistory(id, Uploading, 20, ArtifactRow("art", PLACE, Receiving, Some("try"), Some(60), None, "", 10, 20))
  }

  function UploadedAt30(id: Identity): Store {
    UploadHistory(id, Uploaded, 30, ArtifactRow("art", PLACE, Committed, None, None, Some(PROOF), "", 10, 30))
  }

  function QueuedAt40(id: Identity): Store {
    OperationHistory(id, Queued, 40,
                     OperationRow(id.import_, id.principal, OpQueued, None, None, 40, 40, None, None))
  }

  function StartedAt50(id: Identity): Store {
    OperationHistory(id, Processing, 50,
                     OperationRow(id.import_, id.principal, OpRunning, None, None, 40, 50, Some(50), None))
  }

  lemma HistoryReserves(id: Identity)
    ensures Next(EMPTY, History(id)[0]) == ReservedAt10(id)
  {
  }

  lemma HistoryLeases(id: Identity)
    ensures Next(ReservedAt10(id), History(id)[1]) == LeasedAt20(id)
  {
  }

  lemma HistoryUploads(id: Identity)
    ensures Next(LeasedAt20(id), History(id)[2]) == UploadedAt30(id)
  {
  }

  lemma HistoryCompletes(id: Identity)
    ensures Next(UploadedAt30(id), History(id)[3]) == QueuedAt40(id)
  {
  }

  lemma StartAdvances(id: Identity)
    ensures var s, k, o := QueuedAt40(id), ImportKey(id), OperationKey(id);
            Advanced(s, k, o, Moved(s.imports[k], Processing, 50), Running(s.operations[o], 50)) == StartedAt50(id)
  {
  }

  lemma StartChecks(id: Identity)
    ensures var s, k, o := QueuedAt40(id), ImportKey(id), OperationKey(id);
            ImportChecks(Moved(s.imports[k], Processing, 50)) && OperationChecks(Running(s.operations[o], 50))
  {
  }

  lemma StartSteps(id: Identity)
    requires ValidIdentity(id)
    ensures BeginProcessingStep(QueuedAt40(id), id, 50).0 == StartedAt50(id)
  {
    StartChecks(id);
    StartAdvances(id);
  }

  lemma HistoryStarts(id: Identity)
    requires ValidIdentity(id)
    ensures Next(QueuedAt40(id), History(id)[4]) == StartedAt50(id)
  {
    StartSteps(id);
  }

  lemma RunOneMore(s: Store, cs: seq<Command>, n: nat, before: Store, after: Store)
    requires n < |cs| && Run(s, cs[..n]) == before && Next(before, cs[n]) == after
    ensures Run(s, cs[..n + 1]) == after
  {
    assert cs[..n + 1][..n] == cs[..n];
  }

  lemma ReservationIsReached(id: Identity)
    ensures Run(EMPTY, History(id)[..1]) == ReservedAt10(id)
  {
    HistoryReserves(id);
    RunOneMore(EMPTY, History(id), 0, EMPTY, ReservedAt10(id));
  }

  lemma LeaseIsReached(id: Identity)
    ensures Run(EMPTY, History(id)[..2]) == LeasedAt20(id)
  {
    ReservationIsReached(id);
    HistoryLeases(id);
    RunOneMore(EMPTY, History(id), 1, ReservedAt10(id), LeasedAt20(id));
  }

  lemma UploadIsReached(id: Identity)
    ensures Run(EMPTY, History(id)[..3]) == UploadedAt30(id)
  {
    LeaseIsReached(id);
    HistoryUploads(id);
    RunOneMore(EMPTY, History(id), 2, LeasedAt20(id), UploadedAt30(id));
  }

  lemma QueuedIsReached(id: Identity)
    ensures Run(EMPTY, History(id)[..4]) == QueuedAt40(id)
  {
    UploadIsReached(id);
    HistoryCompletes(id);
    RunOneMore(EMPTY, History(id), 3, UploadedAt30(id), QueuedAt40(id));
  }

  lemma StartedIsReached(id: Identity)
    requires ValidIdentity(id)
    ensures Run(EMPTY, History(id)) == StartedAt50(id)
  {
    var cs := History(id);
    QueuedIsReached(id);
    HistoryStarts(id);
    RunOneMore(EMPTY, cs, 4, QueuedAt40(id), StartedAt50(id));
    assert cs[..5] == cs;
  }

  lemma QueuedIsRefused(id: Identity, code: string)
    requires ValidIdentity(id) && ValidFailureCode(code)
    ensures BeginProcessingStep(QueuedAt40(id), id, 35) == (QueuedAt40(id), Err(Backend))
    ensures FailProcessingStep(QueuedAt40(id), id, code, 35) == (QueuedAt40(id), Err(Backend))
  {
  }

  lemma StartedIsRefused(id: Identity, code: string)
    requires ValidIdentity(id) && ValidFailureCode(code)
    ensures CompleteProcessingStep(StartedAt50(id), id, 1, 45) == (StartedAt50(id), Err(Backend))
    ensures FailProcessingStep(StartedAt50(id), id, code, 45) == (StartedAt50(id), Err(Backend))
  {
  }

  /**
   In states a history of any import reaches, a worker whose clock is behind
   can neither start nor fail the operation it finds queued, nor complete or
   fail the one another worker started.
   */
  lemma EarlyClockIsRefused(id: Identity, code: string)
    requires ValidIdentity(id) && ValidFailureCode(code)
    ensures exists cs :: Run(EMPTY, cs) == QueuedAt40(id)
                         && BeginProcessingStep(QueuedAt40(id), id, 35) == (QueuedAt40(id), Err(Backend))
                         && FailProcessingStep(QueuedAt40(id), id, code, 35) == (QueuedAt40(id), Err(Backend))
    ensures exists cs :: Run(EMPTY, cs) == StartedAt50(id)
                         && CompleteProcessingStep(StartedAt50(id), id, 1, 45) == (StartedAt50(id), Err(Backend))
                         && FailProcessingStep(StartedAt50(id), id, code, 45) == (StartedAt50(id), Err(Backend))
  {
    QueuedIsReached(id);
    StartedIsReached(id);
    QueuedIsRefused(id, code);
    StartedIsRefused(id, code);
  }

  lemma ThreeLetters(s: string)
    requires |s| == 3 && forall i :: 0 <= i < 3 ==> 'a' <= s[i] <= 'z'
    ensures ValidOpaqueId(s)
  {
    assert Runes(s[1..][1..][1..]) == 0;
    assert Runes(s[1..][1..]) == 1 && Runes(s[1..]) == 2;
  }

  /** There are such identities and codes. */
  lemma SomeIdentity() returns (id: Identity, code: string)
    ensures ValidIdentity(id) && ValidFailureCode(code)
  {
    var letters, c := seq(3, _ => 'a'), "late";
    ThreeLetters(letters);
    id, code := Identity(letters, letters, letters, letters), c;
  }
}
