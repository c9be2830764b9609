/**
 Uploads across the database and the write-once blob store. Calls run at once,
 each a sequence of single steps: the lease, the inspection of the blob, the
 write, the metadata commit, the release. A call may crash between any two;
 a write or a commit may take effect and still report an error; leases may be
 taken over; and any other lifecycle transaction may happen in between.
 */
module Uploads {
  import opened Base
  import Streams
  import opened Ingestion
  import Lifecycle

  datatype Blob = Blob(bytes: seq<Streams.byte>, version: string, backendVersion: string, committedAt: Time)

  function EvidenceOf(b: Blob): Evidence {
    Evidence(|b.bytes|, Streams.Sha256(b.bytes), b.version, b.backendVersion, b.committedAt)
  }

  datatype UploadRequest = UploadRequest(
    k: Key, application: string, principal: string, declared: Option<int>, content: seq<Streams.byte>)

  datatype Stage =
    | Replaying(session: Session)
    | Inspecting(session: Session)
    | Writing(session: Session)
    | Committing(session: Session, evidence: Evidence)
    // ends the attempt: a release when the code is empty, else a rejection
    | Ending(session: Session, rejectCode: string, error: Error)
    | Received(receipt: Receipt)
    | Turned(error: Error)

  datatype Call = Call(request: UploadRequest, stage: Stage)

  /** One configured backend; blobs are its objects by storage key. */
  datatype World = World(store: Store, blobs: map<string, Blob>, calls: map<nat, Call>)

  /** Whether a step reports what it did: a fault reports an error, and may have taken effect or not. */
  datatype Fault = Clean | Lost | Silent

  datatype Event =
    | Begin(c: nat, request: UploadRequest, artifact: string, key: string, attempt: string, at: Time, lease: Time)
    | Replay(c: nat, readable: bool)
    | Inspect(c: nat, reachable: bool, readable: bool)
    | Write(c: nat, version: string, backendVersion: string, at: Time, fault: Fault)
    | Commit(c: nat, fault: Fault)
    | End(c: nat, at: Time)
    | Other(command: Lifecycle.Command)

  // ---------------------------------------------------------------------
  // Local decisions
  // ---------------------------------------------------------------------

  /** A caller's content against committed metadata: the first check it fails, if any. */
  function Verdict(content: seq<Streams.byte>, terms: Terms, declared: Option<int>, size: int, digest: Streams.Digest)
    : Option<Error>
  {
    if declared.Some? && (declared.value > terms.maxBytes || declared.value != size) then Some(UploadConflict)
    else if terms.expectedSize.Some? && terms.expectedSize.value != size then Some(UploadMismatch)
    else if terms.expectedDigest.Some? && terms.expectedDigest.value != digest then Some(UploadMismatch)
    else if |content| > terms.maxBytes then Some(UploadConflict)
    else if |content| != size || Streams.Sha256(content) != digest then Some(UploadConflict)
    else None
  }

  /** Where a call goes once it holds a session. */
  function AfterBegin(backend: string, request: UploadRequest, session: Session): Stage {
    if session.committed.Some? then Replaying(session)
    else if session.place.backend != backend then Ending(session, "", UploadStorage)
    else if request.declared.Some? && request.declared.value > session.terms.maxBytes
    then Ending(session, "size_limit_exceeded", TooLarge)
    else if request.declared.Some? && session.terms.expectedSize.Some?
            && request.declared.value != session.terms.expectedSize.value
    then Ending(session, "size_mismatch", UploadMismatch)
    else Inspecting(session)
  }

  /** Why content is not written, if it is not: it exceeds the limit or is not what was expected. */
  function PutError(content: seq<Streams.byte>, terms: Terms, declared: Option<int>): Option<Streams.Error> {
    var expected := if declared.Some? then declared else terms.expectedSize;
    if |content| > terms.maxBytes then Some(Streams.ErrTooLarge)
    else if !Streams.MeetsExpected(|content|, Streams.Sha256(content), expected, terms.expectedDigest)
    then Some(Streams.ErrIntegrity)
    else None
  }

  function WriteFailure(session: Session, error: Streams.Error): Stage {
    match error
    case ErrTooLarge => Ending(session, "size_limit_exceeded", TooLarge)
    case ErrIntegrity => Ending(session, "content_mismatch", UploadMismatch)
    case _ => Ending(session, "", Backend)
  }

  // ---------------------------------------------------------------------
  // Steps
  // ---------------------------------------------------------------------

  function At(w: World, c: nat, stage: Stage): World
    requires c in w.calls
  {
    w.(calls := w.calls[c := w.calls[c].(stage := stage)])
  }

  function BeginNext(backend: string, w: World, c: nat, request: UploadRequest, spec: BeginSpec): World {
    var r := BeginUploadStep(w.store, spec);
    var stage := if r.1.Err? then Turned(r.1.error) else AfterBegin(backend, request, r.1.value);
    w.(store := r.0, calls := w.calls[c := Call(request, stage)])
  }

  function InspectNext(w: World, c: nat, reachable: bool, readable: bool): World
    requires c in w.calls && w.calls[c].stage.Inspecting?
  {
    var request, session := w.calls[c].request, w.calls[c].stage.session;
    var key := session.place.storageKey;
    if !reachable then At(w, c, Ending(session, "", Backend))
    else if key !in w.blobs then At(w, c, Writing(session))
    else
      var e := EvidenceOf(w.blobs[key]);
      var verdict := Verdict(request.content, session.terms, request.declared, e.size, e.digest);
      if !readable then At(w, c, Ending(session, "", Backend))
      else if verdict.Some? then At(w, c, Ending(session, "", verdict.value))
      else At(w, c, Committing(session, e))
  }

  function WriteNext(w: World, c: nat, blob: Blob, fault: Fault): World
    requires c in w.calls && w.calls[c].stage.Writing?
  {
    var request, session := w.calls[c].request, w.calls[c].stage.session;
    var key := session.place.storageKey;
    if key in w.blobs then At(w, c, Ending(session, "", UploadInProgress))
    else if fault == Lost then At(w, c, Ending(session, "", Backend))
    else
      var refusal := PutError(blob.bytes, session.terms, request.declared);
      if refusal.Some? then At(w, c, WriteFailure(session, refusal.value))
      else
        At(w, c, if fault == Clean then Committing(session, EvidenceOf(blob)) else Ending(session, "", Backend))
        .(blobs := w.blobs[key := blob])
  }

  function CommitNext(w: World, c: nat, fault: Fault): World
    requires c in w.calls && w.calls[c].stage.Committing?
  {
    var session := w.calls[c].stage.session;
    var r := CommitUploadStep(w.store, session.k, session.artifact, session.attempt, w.calls[c].stage.evidence);
    match fault
    case Clean =>
      At(w, c, if r.1.Ok? then Received(r.1.value) else Ending(session, "", r.1.error)).(store := r.0)
    case Lost => At(w, c, Ending(session, "", Backend))
    case Silent => At(w, c, Ending(session, "", Backend)).(store := r.0)
  }

  function EndNext(w: World, c: nat, at: Time): World
    requires c in w.calls && w.calls[c].stage.Ending?
  {
    var stage := w.calls[c].stage;
    var session := stage.session;
    var r := EndUploadStep(w.store, session.k, session.artifact, session.attempt, stage.rejectCode, at);
    At(w, c, Turned(stage.error)).(store := r.0)
  }

  /** Generated storage keys are fresh; metadata is committed only by calls. */
  predicate OtherAllowed(w: World, command: Lifecycle.Command) {
    match command
    case Reserve(spec) => spec.place.storageKey !in w.blobs
    case BeginUpload(spec) => spec.place.storageKey !in w.blobs
    case CommitUpload(_, _, _, _) => false
    case _ => true
  }

  function Next(backend: string, w: World, e: Event): World {
    match e
    case Begin(c, request, artifact, key, attempt, at, lease) =>
      if c in w.calls || key in w.blobs then w
      else BeginNext(backend, w, c, request,
                     BeginSpec(request.k, request.application, request.principal, artifact, Place(backend, key),
                               attempt, at, lease))
    case Replay(c, readable) =>
      if c in w.calls && w.calls[c].stage.Replaying? && w.calls[c].stage.session.committed.Some? then
        var request, session := w.calls[c].request, w.calls[c].stage.session;
        var receipt := session.committed.value;
        if readable && Verdict(request.content, session.terms, request.declared, receipt.size, receipt.digest).None?
        then At(w, c, Received(receipt)) else At(w, c, Turned(UploadConflict))
      else w
    case Inspect(c, reachable, readable) =>
      if c in w.calls && w.calls[c].stage.Inspecting? then InspectNext(w, c, reachable, readable) else w
    case Write(c, version, backendVersion, at, fault) =>
      if c in w.calls && w.calls[c].stage.Writing?
      then WriteNext(w, c, Blob(w.calls[c].request.content, version, backendVersion, at), fault) else w
    case Commit(c, fault) =>
      if c in w.calls && w.calls[c].stage.Committing? then CommitNext(w, c, fault) else w
    case End(c, at) =>
      if c in w.calls && w.calls[c].stage.Ending? then EndNext(w, c, at) else w
    case Other(command) =>
      if OtherAllowed(w, command) then w.(store := Lifecycle.Next(w.store, command)) else w
  }

  function Run(backend: string, w: World, es: seq<Event>): World {
    if es == [] then w else Next(backend, Run(backend, w, es[..|es| - 1]), es[|es| - 1])
  }

  const EMPTY: World := World(Lifecycle.EMPTY, map[], map[])

  // ---------------------------------------------------------------------
  // What every step keeps
  // ---------------------------------------------------------------------

  /** Bytes that meet what the import was reserved with. */
  predicate Fits(terms: Terms, bytes: seq<Streams.byte>) {
    && |bytes| <= terms.maxBytes
    && (terms.expectedSize.Some? ==> terms.expectedSize.value == |bytes|)
    && (terms.expectedDigest.Some? ==> terms.expectedDigest.value == Streams.Sha256(bytes))
  }

  predicate HasBlob(backend: string, w: World, k: Key) {
    k in w.store.artifacts && w.store.artifacts[k].place.backend == backend
    && w.store.artifacts[k].place.storageKey in w.blobs
  }

  function BlobOf(backend: string, w: World, k: Key): Blob
    requires HasBlob(backend, w, k)
  {
    w.blobs[w.store.artifacts[k].place.storageKey]
  }

  predicate BlobFits(backend: string, w: World, k: Key) {
    HasBlob(backend, w, k) && k in w.store.imports ==> Fits(w.store.imports[k].terms, BlobOf(backend, w, k).bytes)
  }

  /** Committed metadata is that of the blob. */
  predicate MetadataTrue(backend: string, w: World, k: Key) {
    k in w.store.artifacts && w.store.artifacts[k].state == Committed ==>
      HasBlob(backend, w, k) && w.store.artifacts[k].evidence == Some(EvidenceOf(BlobOf(backend, w, k)))
  }

  predicate SessionOk(s: Store, request: UploadRequest, session: Session) {
    && session.k == request.k && session.k in s.artifacts && session.k in s.imports
    && session.place == s.artifacts[session.k].place && session.terms == s.imports[session.k].terms
  }

  predicate DeclaredOk(declared: Option<int>, terms: Terms) {
    declared.Some? && terms.expectedSize.Some? ==> declared.value == terms.expectedSize.value
  }

  /** The import holds committed evidence with this receipt. */
  predicate Evidenced(s: Store, k: Key, receipt: Receipt) {
    && k in s.artifacts && s.artifacts[k].state == Committed
    && s.artifacts[k].evidence.Some? && ReceiptOf(s.artifacts[k].evidence.value) == receipt
  }

  predicate Delivered(backend: string, w: World, k: Key, content: seq<Streams.byte>) {
    HasBlob(backend, w, k) && BlobOf(backend, w, k).bytes == content
  }

  predicate CallOk(backend: string, w: World, call: Call) {
    match call.stage
    case Replaying(session) =>
      SessionOk(w.store, call.request, session) && session.committed.Some?
      && Evidenced(w.store, call.request.k, session.committed.value)
    case Inspecting(session) =>
      SessionOk(w.store, call.request, session) && session.place.backend == backend
      && DeclaredOk(call.request.declared, session.terms)
    case Writing(session) =>
      SessionOk(w.store, call.request, session) && session.place.backend == backend
      && DeclaredOk(call.request.declared, session.terms)
    case Committing(session, evidence) =>
      SessionOk(w.store, call.request, session) && Delivered(backend, w, call.request.k, call.request.content)
      && evidence == EvidenceOf(BlobOf(backend, w, call.request.k))
    case Ending(session, _, _) => SessionOk(w.store, call.request, session)
    case Received(receipt) =>
      Evidenced(w.store, call.request.k, receipt) && Delivered(backend, w, call.request.k, call.request.content)
    case Turned(_) => true
  }

  ghost predicate BlobsOk(backend: string, w: World) {
    && (forall k :: k in w.store.artifacts ==> BlobFits(backend, w, k))
    && (forall k :: k in w.store.artifacts ==> MetadataTrue(backend, w, k))
  }

  ghost predicate CallsOk(backend: string, w: World) {
    forall c :: c in w.calls ==> CallOk(backend, w, w.calls[c])
  }

  ghost predicate Kept(backend: string, w: World) {
    BlobsOk(backend, w) && CallsOk(backend, w)
  }

  ghost predicate Inv(backend: string, w: World) {
    Lifecycle.Inv(w.store) && Kept(backend, w)
  }

  /** What uploads need of the lifecycle invariant. */
  ghost predicate Rooted(s: Store) {
    (forall k :: k in s.artifacts ==> k in s.imports) && Lifecycle.PlacesOk(s)
  }

  /** Objects are written once. */
  ghost predicate BlobsGrow(w: World, v: World) {
    forall key :: key in w.blobs ==> key in v.blobs && v.blobs[key] == w.blobs[key]
  }

  lemma CallStays(backend: string, w: World, v: World, call: Call)
    requires CallOk(backend, w, call) && Lifecycle.Stable(w.store, v.store) && BlobsGrow(w, v)
    ensures CallOk(backend, v, call)
  {
    var k := call.request.k;
    if k in w.store.artifacts {
      assert Lifecycle.ArtifactStable(w.store, v.store, k);
    }
  }

  lemma CallsStay(backend: string, w: World, v: World)
    requires CallsOk(backend, w) && Lifecycle.Stable(w.store, v.store) && BlobsGrow(w, v)
    requires forall c :: c in v.calls ==> (c in w.calls && v.calls[c] == w.calls[c]) || CallOk(backend, v, v.calls[c])
    ensures CallsOk(backend, v)
  {
    forall c | c in v.calls ensures CallOk(backend, v, v.calls[c]) {
      if c in w.calls && v.calls[c] == w.calls[c] {
        CallStays(backend, w, v, w.calls[c]);
      }
    }
  }

  // ---------------------------------------------------------------------
  // Store transactions
  // ---------------------------------------------------------------------

  /** No artifact becomes committed, and new artifacts have new places. */
  ghost predicate CommitsNothing(w: World, u: Store) {
    forall k :: k in u.artifacts ==> CommitsNotRow(w, u, k)
  }

  predicate CommitsNotRow(w: World, u: Store, k: Key)
    requires k in u.artifacts
  {
    && (k !in w.store.artifacts ==> u.artifacts[k].state != Committed && u.artifacts[k].place.storageKey !in w.blobs)
    && (k in w.store.artifacts && w.store.artifacts[k].state != Committed ==> u.artifacts[k].state != Committed)
  }

  lemma BlobsStay(backend: string, w: World, v: World)
    requires Rooted(w.store) && BlobsOk(backend, w) && v.blobs == w.blobs
    requires Lifecycle.Stable(w.store, v.store) && CommitsNothing(w, v.store)
    ensures BlobsOk(backend, v)
  {
    forall k | k in v.store.artifacts ensures BlobFits(backend, v, k) && MetadataTrue(backend, v, k) {
      if k in w.store.artifacts {
        assert BlobFits(backend, w, k) && MetadataTrue(backend, w, k);
        assert Lifecycle.ArtifactStable(w.store, v.store, k);
        assert k in w.store.imports;
      }
    }
  }

  lemma AbandonCommitsNothing(w: World, k: Key, at: Time)
    requires k in w.store.imports
    ensures CommitsNothing(w, AbandonStep(w.store, k, at).0)
  {
    forall j | j in AbandonStep(w.store, k, at).0.artifacts ensures CommitsNotRow(w, AbandonStep(w.store, k, at).0, j) {
      AbandonRow(w.store, k, at, j);
    }
  }

  lemma AbandonRow(s: Store, k: Key, at: Time, j: Key)
    requires k in s.imports && j in AbandonStep(s, k, at).0.artifacts
    ensures j in s.artifacts
    ensures s.artifacts[j].state != Committed ==> AbandonStep(s, k, at).0.artifacts[j].state != Committed
  {
  }

  lemma LeaseCommitsNothing(w: World, spec: BeginSpec)
    requires spec.k in w.store.imports && spec.place.storageKey !in w.blobs
    ensures CommitsNothing(w, LeaseStep(w.store, spec).0)
  {
  }

  lemma BeginCommitsNothing(w: World, spec: BeginSpec)
    requires spec.place.storageKey !in w.blobs
    ensures CommitsNothing(w, BeginUploadStep(w.store, spec).0)
  {
    if spec.k in w.store.imports {
      AbandonCommitsNothing(w, spec.k, spec.startedAt);
      LeaseCommitsNothing(w, spec);
    }
  }

  lemma EndCommitsNothing(w: World, k: Key, artifact: string, attempt: string, rejectCode: string, at: Time)
    ensures CommitsNothing(w, EndUploadStep(w.store, k, artifact, attempt, rejectCode, at).0)
  {
  }

  lemma ReserveCommitsNothing(w: World, spec: ReserveSpec)
    requires spec.place.storageKey !in w.blobs
    ensures CommitsNothing(w, ReserveStep(w.store, spec).0)
  {
  }

  lemma CompletionKeepsArtifacts(s: Store, spec: CompleteSpec)
    ensures CompleteStep(s, spec).0.artifacts == s.artifacts
  {
  }

  lemma StartKeepsArtifacts(s: Store, id: Identity, at: Time)
    ensures BeginProcessingStep(s, id, at).0.artifacts == s.artifacts
  {
  }

  lemma SuccessKeepsArtifacts(s: Store, id: Identity, scans: int, at: Time)
    ensures CompleteProcessingStep(s, id, scans, at).0.artifacts == s.artifacts
  {
  }

  lemma FailureKeepsArtifacts(s: Store, id: Identity, code: string, at: Time)
    ensures FailProcessingStep(s, id, code, at).0.artifacts == s.artifacts
  {
  }

  lemma ArtifactsUntouched(s: Store, command: Lifecycle.Command)
    requires command.Complete? || Lifecycle.IsProcessing(command)
    ensures Lifecycle.Next(s, command).artifacts == s.artifacts
  {
    match command
    case Complete(spec) => CompletionKeepsArtifacts(s, spec);
    case BeginProcessing(id, at) => StartKeepsArtifacts(s, id, at);
    case CompleteProcessing(id, scans, at) => SuccessKeepsArtifacts(s, id, scans, at);
    case FailProcessing(id, code, at) => FailureKeepsArtifacts(s, id, code, at);
  }

  lemma OtherCommitsNothing(w: World, command: Lifecycle.Command)
    requires OtherAllowed(w, command)
    ensures CommitsNothing(w, Lifecycle.Next(w.store, command))
  {
    match command
    case Reserve(spec) => ReserveCommitsNothing(w, spec);
    case BeginUpload(spec) => BeginCommitsNothing(w, spec);
    case EndUpload(k, artifact, attempt, rejectCode, at) =>
      EndCommitsNothing(w, k, artifact, attempt, rejectCode, at);
    case _ => ArtifactsUntouched(w.store, command);
  }

  /** The session a begun upload gets. */
  lemma BegunSession(s: Store, request: UploadRequest, spec: BeginSpec)
    requires spec.k == request.k && BeginUploadStep(s, spec).1.Ok?
    ensures var r := BeginUploadStep(s, spec);
            && SessionOk(r.0, request, r.1.value)
            && (r.1.value.committed.Some? ==> Evidenced(r.0, request.k, r.1.value.committed.value))
  {
  }

  // ---------------------------------------------------------------------
  // Every step keeps the invariant
  // ---------------------------------------------------------------------

  /** A step that leaves the blobs alone and commits nothing. */
  lemma QuietKeeps(backend: string, w: World, v: World)
    requires Kept(backend, w) && Rooted(w.store) && v.blobs == w.blobs
    requires Lifecycle.Stable(w.store, v.store) && CommitsNothing(w, v.store)
    requires forall c :: c in v.calls ==> (c in w.calls && v.calls[c] == w.calls[c]) || CallOk(backend, v, v.calls[c])
    ensures Kept(backend, v)
  {
    BlobsStay(backend, w, v);
    CallsStay(backend, w, v);
  }

  lemma BeginKeeps(backend: string, w: World, c: nat, request: UploadRequest, spec: BeginSpec)
    requires Kept(backend, w) && Rooted(w.store) && spec.k == request.k && spec.place.storageKey !in w.blobs
    requires Lifecycle.Stable(w.store, BeginUploadStep(w.store, spec).0)
    ensures Kept(backend, BeginNext(backend, w, c, request, spec))
  {
    var v := BeginNext(backend, w, c, request, spec);
    BeginCommitsNothing(w, spec);
    if BeginUploadStep(w.store, spec).1.Ok? {
      BegunSession(w.store, request, spec);
    }
    assert CallOk(backend, v, v.calls[c]);
    QuietKeeps(backend, w, v);
  }

  lemma OtherKeeps(backend: string, w: World, command: Lifecycle.Command)
    requires Kept(backend, w) && Rooted(w.store) && OtherAllowed(w, command)
    requires Lifecycle.Stable(w.store, Lifecycle.Next(w.store, command))
    ensures Kept(backend, w.(store := Lifecycle.Next(w.store, command)))
  {
    OtherCommitsNothing(w, command);
    QuietKeeps(backend, w, w.(store := Lifecycle.Next(w.store, command)));
  }

  lemma EndKeeps(backend: string, w: World, c: nat, at: Time)
    requires Kept(backend, w) && Rooted(w.store) && c in w.calls && w.calls[c].stage.Ending?
    requires Lifecycle.Stable(w.store, EndNext(w, c, at).store)
    ensures Kept(backend, EndNext(w, c, at))
  {
    var v, stage := EndNext(w, c, at), w.calls[c].stage;
    EndCommitsNothing(w, stage.session.k, stage.session.artifact, stage.session.attempt, stage.rejectCode, at);
    assert CallOk(backend, v, v.calls[c]);
    QuietKeeps(backend, w, v);
  }

  lemma StableSelf(w: World)
    ensures Lifecycle.Stable(w.store, w.store) && CommitsNothing(w, w.store)
  {
  }

  /** A step that only moves one call on. */
  lemma LocalKeeps(backend: string, w: World, c: nat, stage: Stage)
    requires Kept(backend, w) && Rooted(w.store) && c in w.calls
    requires CallOk(backend, w, w.calls[c].(stage := stage))
    ensures Kept(backend, At(w, c, stage))
  {
    StableSelf(w);
    CallOnlyMoves(backend, w, w.calls[c].(stage := stage), At(w, c, stage));
    QuietKeeps(backend, w, At(w, c, stage));
  }

  lemma CallOnlyMoves(backend: string, w: World, call: Call, v: World)
    requires CallOk(backend, w, call) && v.store == w.store && v.blobs == w.blobs
    ensures CallOk(backend, v, call)
  {
  }

  lemma InspectStageOk(backend: string, w: World, c: nat, reachable: bool, readable: bool)
    requires c in w.calls && w.calls[c].stage.Inspecting? && CallOk(backend, w, w.calls[c])
    ensures var v := InspectNext(w, c, reachable, readable);
            v == At(w, c, v.calls[c].stage) && CallOk(backend, w, v.calls[c])
  {
  }

  lemma InspectKeeps(backend: string, w: World, c: nat, reachable: bool, readable: bool)
    requires Kept(backend, w) && Rooted(w.store) && c in w.calls && w.calls[c].stage.Inspecting?
    ensures Kept(backend, InspectNext(w, c, reachable, readable))
  {
    InspectStageOk(backend, w, c, reachable, readable);
    LocalKeeps(backend, w, c, InspectNext(w, c, reachable, readable).calls[c].stage);
  }

  /** A published object fits the terms of the one import whose key it is under. */
  lemma WrittenBlobFits(backend: string, w: World, v: World, k: Key, blob: Blob)
    requires Rooted(w.store) && BlobsOk(backend, w) && v.store == w.store && k in w.store.artifacts
    requires w.store.artifacts[k].place.backend == backend
    requires var key := w.store.artifacts[k].place.storageKey;
             key !in w.blobs && v.blobs == w.blobs[key := blob]
    requires Fits(w.store.imports[k].terms, blob.bytes)
    ensures BlobsOk(backend, v)
  {
    forall j | j in v.store.artifacts ensures BlobFits(backend, v, j) && MetadataTrue(backend, v, j) {
      assert BlobFits(backend, w, j) && MetadataTrue(backend, w, j);
    }
  }

  /** What a write does: one call moves on, and at most one fitting object appears under its key. */
  lemma WriteEffect(backend: string, w: World, c: nat, blob: Blob, fault: Fault)
    requires c in w.calls && w.calls[c].stage.Writing? && CallOk(backend, w, w.calls[c])
    requires blob.bytes == w.calls[c].request.content
    ensures var v, k := WriteNext(w, c, blob, fault), w.calls[c].request.k;
            && v == At(w, c, v.calls[c].stage).(blobs := v.blobs) && CallOk(backend, v, v.calls[c])
            && (v.blobs != w.blobs ==>
                  && w.store.artifacts[k].place.backend == backend
                  && w.store.artifacts[k].place.storageKey !in w.blobs
                  && v.blobs == w.blobs[w.store.artifacts[k].place.storageKey := blob]
                  && Fits(w.store.imports[k].terms, blob.bytes))
  {
  }

  lemma WriteKeeps(backend: string, w: World, c: nat, blob: Blob, fault: Fault)
    requires Kept(backend, w) && Rooted(w.store) && c in w.calls && w.calls[c].stage.Writing?
    requires blob.bytes == w.calls[c].request.content
    ensures Kept(backend, WriteNext(w, c, blob, fault))
  {
    WriteEffect(backend, w, c, blob, fault);
    WrittenKept(backend, w, WriteNext(w, c, blob, fault), c, blob);
  }

  /** A call that moves on, with or without a new blob that fits its import. */
  lemma WrittenKept(backend: string, w: World, v: World, c: nat, blob: Blob)
    requires Kept(backend, w) && Rooted(w.store) && c in w.calls && c in v.calls
    requires v == At(w, c, v.calls[c].stage).(blobs := v.blobs) && CallOk(backend, v, v.calls[c])
    requires var k := w.calls[c].request.k;
             v.blobs != w.blobs ==>
               && k in w.store.artifacts && k in w.store.imports && w.store.artifacts[k].place.backend == backend
               && w.store.artifacts[k].place.storageKey !in w.blobs
               && v.blobs == w.blobs[w.store.artifacts[k].place.storageKey := blob]
               && Fits(w.store.imports[k].terms, blob.bytes)
    ensures Kept(backend, v)
  {
    StableSelf(w);
    if v.blobs != w.blobs {
      WrittenBlobFits(backend, w, v, w.calls[c].request.k, blob);
    } else {
      BlobsStay(backend, w, v);
    }
    CallsStay(backend, w, v);
  }

  /** What a metadata commit does to one artifact row. */
  lemma CommittedRow(s: Store, k: Key, artifact: string, attempt: string, e: Evidence, j: Key)
    requires j in CommitUploadStep(s, k, artifact, attempt, e).0.artifacts
    ensures var u := CommitUploadStep(s, k, artifact, attempt, e).0;
            && j in s.artifacts && u.artifacts[j].place == s.artifacts[j].place
            && (u.artifacts[j] == s.artifacts[j] || (j == k && u.artifacts[j].evidence == Some(e)))
            && (j in u.imports ==> j in s.imports && u.imports[j].terms == s.imports[j].terms)
  {
  }

  /** The metadata committed by a call is that of the blob. */
  lemma CommittedIsTrue(backend: string, w: World, v: World, k: Key, artifact: string, attempt: string)
    requires BlobsOk(backend, w) && HasBlob(backend, w, k) && v.blobs == w.blobs
    requires v.store == CommitUploadStep(w.store, k, artifact, attempt, EvidenceOf(BlobOf(backend, w, k))).0
    ensures BlobsOk(backend, v)
  {
    forall j | j in v.store.artifacts ensures BlobFits(backend, v, j) && MetadataTrue(backend, v, j) {
      CommittedRow(w.store, k, artifact, attempt, EvidenceOf(BlobOf(backend, w, k)), j);
      assert BlobFits(backend, w, j) && MetadataTrue(backend, w, j);
    }
  }

  lemma CommitStageOk(backend: string, w: World, c: nat, fault: Fault)
    requires c in w.calls && w.calls[c].stage.Committing? && CallOk(backend, w, w.calls[c])
    requires CallOk(backend, CommitNext(w, c, fault), w.calls[c])
    ensures CallOk(backend, CommitNext(w, c, fault), CommitNext(w, c, fault).calls[c])
  {
  }

  lemma CommitKeepsBlobs(backend: string, w: World, c: nat, fault: Fault)
    requires BlobsOk(backend, w) && Rooted(w.store) && c in w.calls && w.calls[c].stage.Committing?
    requires CallOk(backend, w, w.calls[c])
    ensures BlobsOk(backend, CommitNext(w, c, fault))
  {
    var v, session := CommitNext(w, c, fault), w.calls[c].stage.session;
    if v.store == w.store {
      StableSelf(w);
      BlobsStay(backend, w, v);
    } else {
      CommittedIsTrue(backend, w, v, session.k, session.artifact, session.attempt);
    }
  }

  lemma CommitMovesOne(w: World, c: nat, fault: Fault)
    requires c in w.calls && w.calls[c].stage.Committing?
    ensures var v := CommitNext(w, c, fault);
            v.blobs == w.blobs && c in v.calls && v.calls == w.calls[c := v.calls[c]]
  {
  }

  lemma CommitCallOk(backend: string, w: World, c: nat, fault: Fault)
    requires CallsOk(backend, w) && c in w.calls && w.calls[c].stage.Committing?
    requires Lifecycle.Stable(w.store, CommitNext(w, c, fault).store)
    ensures CallOk(backend, CommitNext(w, c, fault), CommitNext(w, c, fault).calls[c])
  {
    CommitMovesOne(w, c, fault);
    CallStays(backend, w, CommitNext(w, c, fault), w.calls[c]);
    CommitStageOk(backend, w, c, fault);
  }

  /** One call moves on, soundly, and the others stay as they are. */
  lemma OneCallMoves(backend: string, w: World, v: World, c: nat)
    requires CallsOk(backend, w) && Lifecycle.Stable(w.store, v.store) && v.blobs == w.blobs
    requires c in v.calls && v.calls == w.calls[c := v.calls[c]] && CallOk(backend, v, v.calls[c])
    ensures CallsOk(backend, v)
  {
    CallsStay(backend, w, v);
  }

  lemma CommitKeepsCalls(backend: string, w: World, c: nat, fault: Fault)
    requires CallsOk(backend, w) && c in w.calls && w.calls[c].stage.Committing?
    requires Lifecycle.Stable(w.store, CommitNext(w, c, fault).store)
    ensures CallsOk(backend, CommitNext(w, c, fault))
  {
    CommitMovesOne(w, c, fault);
    CommitCallOk(backend, w, c, fault);
    OneCallMoves(backend, w, CommitNext(w, c, fault), c);
  }

  lemma CommitKeeps(backend: string, w: World, c: nat, fault: Fault)
    requires Kept(backend, w) && Rooted(w.store) && c in w.calls && w.calls[c].stage.Committing?
    requires Lifecycle.Stable(w.store, CommitNext(w, c, fault).store)
    ensures Kept(backend, CommitNext(w, c, fault))
  {
    CommitKeepsBlobs(backend, w, c, fault);
    CommitKeepsCalls(backend, w, c, fault);
  }

  lemma ReplayKeeps(backend: string, w: World, c: nat, readable: bool)
    requires Kept(backend, w) && Rooted(w.store)
    ensures Kept(backend, Next(backend, w, Replay(c, readable)))
  {
    if c in w.calls && w.calls[c].stage.Replaying? && w.calls[c].stage.session.committed.Some? {
      assert CallOk(backend, w, w.calls[c]);
      assert MetadataTrue(backend, w, w.calls[c].request.k);
      LocalKeeps(backend, w, c, Next(backend, w, Replay(c, readable)).calls[c].stage);
    }
  }

  /** The store transaction behind an event, if it has one. */
  function CommandOf(backend: string, w: World, e: Event): Option<Lifecycle.Command> {
    match e
    case Begin(c, request, artifact, key, attempt, at, lease) =>
      Some(Lifecycle.BeginUpload(BeginSpec(request.k, request.application, request.principal, artifact,
                                           Place(backend, key), attempt, at, lease)))
    case Commit(c, _) =>
      if c in w.calls && w.calls[c].stage.Committing? then
        var session := w.calls[c].stage.session;
        Some(Lifecycle.CommitUpload(session.k, session.artifact, session.attempt, w.calls[c].stage.evidence))
      else None
    case End(c, at) =>
      if c in w.calls && w.calls[c].stage.Ending? then
        var stage := w.calls[c].stage;
        Some(Lifecycle.EndUpload(stage.session.k, stage.session.artifact, stage.session.attempt, stage.rejectCode, at))
      else None
    case Other(command) => Some(command)
    case _ => None
  }

  lemma StoreMoves(backend: string, w: World, e: Event)
    ensures var u, command := Next(backend, w, e).store, CommandOf(backend, w, e);
            u == w.store || (command.Some? && u == Lifecycle.Next(w.store, command.value))
  {
  }

  lemma StoreKeeps(backend: string, w: World, e: Event)
    requires Lifecycle.Inv(w.store)
    ensures Lifecycle.Inv(Next(backend, w, e).store) && Lifecycle.Stable(w.store, Next(backend, w, e).store)
  {
    StoreMoves(backend, w, e);
    if Next(backend, w, e).store == w.store {
      StableSelf(w);
    } else {
      Lifecycle.NextKeeps(w.store, CommandOf(backend, w, e).value);
      Lifecycle.NextStable(w.store, CommandOf(backend, w, e).value);
    }
  }

  lemma NextKept(backend: string, w: World, e: Event)
    requires Kept(backend, w) && Rooted(w.store) && Lifecycle.Stable(w.store, Next(backend, w, e).store)
    ensures Kept(backend, Next(backend, w, e))
  {
    match e
    case Begin(c, request, artifact, key, attempt, at, lease) =>
      if c !in w.calls && key !in w.blobs {
        BeginKeeps(backend, w, c, request,
                   BeginSpec(request.k, request.application, request.principal, artifact, Place(backend, key), attempt,
                             at, lease));
      }
    case Replay(c, readable) => ReplayKeeps(backend, w, c, readable);
    case Inspect(c, reachable, readable) =>
      if c in w.calls && w.calls[c].stage.Inspecting? {
        InspectKeeps(backend, w, c, reachable, readable);
      }
    case Write(c, version, backendVersion, at, fault) =>
      if c in w.calls && w.calls[c].stage.Writing? {
        WriteKeeps(backend, w, c, Blob(w.calls[c].request.content, version, backendVersion, at), fault);
      }
    case Commit(c, fault) =>
      if c in w.calls && w.calls[c].stage.Committing? {
        CommitKeeps(backend, w, c, fault);
      }
    case End(c, at) =>
      if c in w.calls && w.calls[c].stage.Ending? {
        EndKeeps(backend, w, c, at);
      }
    case Other(command) =>
      if OtherAllowed(w, command) {
        OtherKeeps(backend, w, command);
      }
  }

  lemma InvIsRooted(s: Store)
    requires Lifecycle.Inv(s)
    ensures Rooted(s)
  {
  }

  lemma NextKeeps(backend: string, w: World, e: Event)
    requires Inv(backend, w)
    ensures Inv(backend, Next(backend, w, e))
  {
    InvIsRooted(w.store);
    StoreKeeps(backend, w, e);
    NextKept(backend, w, e);
  }

  lemma {:induction false} RunKeeps(backend: string, w: World, es: seq<Event>)
    requires Inv(backend, w)
    ensures Inv(backend, Run(backend, w, es))
  {
    if es != [] {
      RunKeeps(backend, w, es[..|es| - 1]);
      NextKeeps(backend, Run(backend, w, es[..|es| - 1]), es[|es| - 1]);
    }
  }

  // ---------------------------------------------------------------------
  // What every run guarantees
  // ---------------------------------------------------------------------

  /**
   All successful receipts for one import are equal, and they describe the one
   blob under the reserved key: its bytes are every succeeding caller's own
   bytes, within the size limit and equal to the reserved expectations.
   */
  lemma ReceiptsAgree(backend: string, es: seq<Event>, a: nat, b: nat)
    requires var w := Run(backend, EMPTY, es);
             && a in w.calls && b in w.calls && w.calls[a].stage.Received? && w.calls[b].stage.Received?
             && w.calls[a].request.k == w.calls[b].request.k
    ensures var w := Run(backend, EMPTY, es);
            var k := w.calls[a].request.k;
            && w.calls[a].stage.receipt == w.calls[b].stage.receipt
            && w.calls[a].request.content == w.calls[b].request.content
            && HasBlob(backend, w, k) && BlobOf(backend, w, k).bytes == w.calls[a].request.content
            && w.calls[a].stage.receipt == ReceiptOf(EvidenceOf(BlobOf(backend, w, k)))
            && k in w.store.imports && Fits(w.store.imports[k].terms, w.calls[a].request.content)
  {
    var w := Run(backend, EMPTY, es);
    RunKeeps(backend, EMPTY, es);
    var k := w.calls[a].request.k;
    assert CallOk(backend, w, w.calls[a]) && CallOk(backend, w, w.calls[b]);
    assert MetadataTrue(backend, w, k) && BlobFits(backend, w, k);
  }

  /** Against metadata of an object that fits the terms, exactly its own bytes pass. */
  lemma VerdictIff(content: seq<Streams.byte>, terms: Terms, declared: Option<int>, bytes: seq<Streams.byte>)
    requires Fits(terms, bytes)
    ensures Verdict(content, terms, declared, |bytes|, Streams.Sha256(bytes)).None?
            <==> content == bytes && (declared.Some? ==> declared.value == |bytes|)
  {
  }

  /** A repeated upload of committed evidence succeeds exactly for the committed bytes, with the first receipt. */
  lemma ReplayAcceptsExactly(backend: string, es: seq<Event>, c: nat)
    requires var w := Run(backend, EMPTY, es);
             c in w.calls && w.calls[c].stage.Replaying?
    ensures var w := Run(backend, EMPTY, es);
            var v := Next(backend, w, Replay(c, true));
            var request := w.calls[c].request;
            && HasBlob(backend, w, request.k) && c in v.calls
            && (v.calls[c].stage == Received(ReceiptOf(EvidenceOf(BlobOf(backend, w, request.k))))
                <==> request.content == BlobOf(backend, w, request.k).bytes
                     && (request.declared.Some? ==> request.declared.value == |request.content|))
  {
    var w := Run(backend, EMPTY, es);
    RunKeeps(backend, EMPTY, es);
    var request := w.calls[c].request;
    assert CallOk(backend, w, w.calls[c]);
    assert MetadataTrue(backend, w, request.k) && BlobFits(backend, w, request.k);
    VerdictIff(request.content, w.store.imports[request.k].terms, request.declared,
               BlobOf(backend, w, request.k).bytes);
  }
}
