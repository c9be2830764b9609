/** What each step of an upload call decides, and what one call that meets no fault achieves. */
module UploadEffects {
  import opened Base
  import Streams
  import opened Ingestion
  import Lifecycle
  import LifecycleEffects
  import opened Uploads

  // ---------------------------------------------------------------------
  // Decisions
  // ---------------------------------------------------------------------

  /** Content against committed metadata: what was declared, what was reserved, and the bytes themselves. */
  lemma VerdictMeans(content: seq<Streams.byte>, terms: Terms, declared: Option<int>, size: int, digest: Streams.Digest)
    ensures var v := Verdict(content, terms, declared, size, digest);
            var announced := declared.Some? ==> declared.value <= terms.maxBytes && declared.value == size;
            var reserved := && (terms.expectedSize.Some? ==> terms.expectedSize.value == size)
                            && (terms.expectedDigest.Some? ==> terms.expectedDigest.value == digest);
            && (v.None? <==>
                  && announced && reserved && |content| <= terms.maxBytes && |content| == size
                  && Streams.Sha256(content) == digest)
            && (v == Some(UploadMismatch) <==> announced && !reserved)
            && (v.Some? ==> v.value == UploadMismatch || v.value == UploadConflict)
  {
  }

  /** Content is written exactly within the limit, of the size announced or reserved, and of the reserved digest. */
  lemma PutErrorMeans(content: seq<Streams.byte>, terms: Terms, declared: Option<int>)
    ensures var e := PutError(content, terms, declared);
            var size := if declared.Some? then declared else terms.expectedSize;
            var expected := && (size.Some? ==> size.value == |content|)
                            && (terms.expectedDigest.Some? ==> terms.expectedDigest.value == Streams.Sha256(content));
            && (e == Some(Streams.ErrTooLarge) <==> |content| > terms.maxBytes)
            && (e == Some(Streams.ErrIntegrity) <==> |content| <= terms.maxBytes && !expected)
            && (e.None? <==> |content| <= terms.maxBytes && expected)
  {
  }

  /** Where a call goes with its session: back with the receipt, out, or on to the object. */
  lemma SessionLeads(backend: string, request: UploadRequest, session: Session)
    ensures var stage := AfterBegin(backend, request, session);
            var own := session.committed.None? && session.place.backend == backend;
            var over := request.declared.Some? && request.declared.value > session.terms.maxBytes;
            var off := request.declared.Some? && session.terms.expectedSize.Some?
                       && request.declared.value != session.terms.expectedSize.value;
            && (stage == Replaying(session) <==> session.committed.Some?)
            && (stage == Ending(session, "", UploadStorage) <==>
                  session.committed.None? && session.place.backend != backend)
            && (stage == Ending(session, "size_limit_exceeded", TooLarge) <==> own && over)
            && (stage == Ending(session, "size_mismatch", UploadMismatch) <==> own && !over && off)
            && (stage == Inspecting(session) <==> own && !over && !off)
  {
    assert |""| == 0 && |"size_limit_exceeded"| == 19 && |"size_mismatch"| == 13;
  }

  // ---------------------------------------------------------------------
  // Steps
  // ---------------------------------------------------------------------

  /** The object is absent and to be written, present and the caller's own, or the attempt is released. */
  lemma InspectMeans(w: World, c: nat, reachable: bool, readable: bool)
    requires c in w.calls && w.calls[c].stage.Inspecting?
    ensures var v := InspectNext(w, c, reachable, readable);
            var request, session := w.calls[c].request, w.calls[c].stage.session;
            var key := session.place.storageKey;
            && v == w.(calls := w.calls[c := Call(request, v.calls[c].stage)])
            && (v.calls[c].stage == Writing(session) <==> reachable && key !in w.blobs)
            && (v.calls[c].stage == Ending(session, "", Backend) <==> !reachable || (key in w.blobs && !readable))
            && (reachable && key in w.blobs && readable ==>
                  var blob := w.blobs[key];
                  var verdict := Verdict(request.content, session.terms, request.declared, |blob.bytes|,
                                         Streams.Sha256(blob.bytes));
                  v.calls[c].stage ==
                  if verdict.None?
                  then Committing(session, Evidence(|blob.bytes|, Streams.Sha256(blob.bytes), blob.version,
                                                    blob.backendVersion, blob.committedAt))
                  else Ending(session, "", verdict.value))
  {
  }

  /** A write stores the object once; content that is too large or not as expected is rejected for good. */
  lemma WriteMeans(w: World, c: nat, blob: Blob, fault: Fault)
    requires c in w.calls && w.calls[c].stage.Writing?
    ensures var v := WriteNext(w, c, blob, fault);
            var request, session := w.calls[c].request, w.calls[c].stage.session;
            var key, refusal := session.place.storageKey, PutError(blob.bytes, session.terms, request.declared);
            var writes := key !in w.blobs && fault != Lost && refusal.None?;
            && v.store == w.store && v.calls == w.calls[c := Call(request, v.calls[c].stage)]
            && v.blobs == (if writes then w.blobs[key := blob] else w.blobs)
            && v.calls[c].stage ==
               if key in w.blobs then Ending(session, "", UploadInProgress)
               else if fault == Lost then Ending(session, "", Backend)
               else if refusal == Some(Streams.ErrTooLarge) then Ending(session, "size_limit_exceeded", TooLarge)
               else if refusal.Some? then Ending(session, "content_mismatch", UploadMismatch)
               else if fault == Silent then Ending(session, "", Backend)
               else Committing(session, Evidence(|blob.bytes|, Streams.Sha256(blob.bytes), blob.version,
                                                 blob.backendVersion, blob.committedAt))
  {
  }

  /** A commit takes effect unless it is lost, and is answered unless it is silent. */
  lemma CommitMeans(w: World, c: nat, fault: Fault)
    requires c in w.calls && w.calls[c].stage.Committing?
    ensures var v := CommitNext(w, c, fault);
            var session := w.calls[c].stage.session;
            var r := CommitUploadStep(w.store, session.k, session.artifact, session.attempt, w.calls[c].stage.evidence);
            && v.store == (if fault == Lost then w.store else r.0) && v.blobs == w.blobs
            && v.calls == w.calls[c := Call(w.calls[c].request, v.calls[c].stage)]
            && v.calls[c].stage ==
               if fault == Clean && r.1.Ok? then Received(r.1.value)
               else Ending(session, "", if fault == Clean then r.1.error else Backend)
  {
  }

  /** The end of an attempt: released or rejected, and the caller told why. */
  lemma EndMeans(w: World, c: nat, at: Time)
    requires c in w.calls && w.calls[c].stage.Ending?
    ensures var v, stage := EndNext(w, c, at), w.calls[c].stage;
            && v.store == EndUploadStep(w.store, stage.session.k, stage.session.artifact, stage.session.attempt,
                                        stage.rejectCode, at).0
            && v.blobs == w.blobs && v.calls == w.calls[c := Call(w.calls[c].request, Turned(stage.error))]
  {
  }

  /** A completed upload gives its receipt again exactly to the same content; nothing changes but the call. */
  lemma ReplayMeans(backend: string, w: World, c: nat, readable: bool)
    requires c in w.calls && w.calls[c].stage.Replaying? && w.calls[c].stage.session.committed.Some?
    ensures var v := Next(backend, w, Replay(c, readable));
            var request, session := w.calls[c].request, w.calls[c].stage.session;
            var receipt := session.committed.value;
            var same := && readable && |request.content| == receipt.size && |request.content| <= session.terms.maxBytes
                        && Streams.Sha256(request.content) == receipt.digest && AsReserved(session.terms, request);
            && v == w.(calls := w.calls[c := Call(request, v.calls[c].stage)])
            && v.calls[c].stage == if same then Received(receipt) else Turned(UploadConflict)
  {
  }

  // ---------------------------------------------------------------------
  // One call without a fault
  // ---------------------------------------------------------------------

  /** The content is what was announced and reserved. */
  predicate AsReserved(terms: Terms, request: UploadRequest) {
    && |request.content| <= terms.maxBytes
    && (request.declared.Some? ==> request.declared.value == |request.content|)
    && (terms.expectedSize.Some? ==> terms.expectedSize.value == |request.content|)
    && (terms.expectedDigest.Some? ==> terms.expectedDigest.value == Streams.Sha256(request.content))
  }

  /** The import waits for an upload by this caller, and its object is not written yet. */
  predicate Waits(backend: string, w: World, request: UploadRequest) {
    var k := request.k;
    && LifecycleEffects.PairAt(w.store, k) && w.store.imports[k].state == AwaitingUpload
    && w.store.imports[k].terms.application == request.application
    && w.store.imports[k].terms.principal == request.principal
    && k in w.store.artifacts && w.store.artifacts[k].place.backend == backend
    && w.store.artifacts[k].place.storageKey !in w.blobs
  }

  predicate BeginsInTime(w: World, e: Event)
    requires e.Begin? && e.request.k in w.store.imports && e.request.k in w.store.artifacts
  {
    var terms := w.store.imports[e.request.k].terms;
    terms.createdAt <= e.at < terms.uploadExpiresAt && e.at >= w.store.artifacts[e.request.k].createdAt
  }

  function SessionFor(w: World, e: Event): Session
    requires e.Begin? && e.request.k in w.store.imports && e.request.k in w.store.artifacts
  {
    var k := e.request.k;
    Session(k, w.store.artifacts[k].id, w.store.artifacts[k].place, e.attempt, w.store.imports[k].terms, None)
  }

  lemma BeginLeases(backend: string, w: World, e: Event)
    requires e.Begin? && e.c !in w.calls && e.key !in w.blobs && Waits(backend, w, e.request) && BeginsInTime(w, e)
    requires AsReserved(w.store.imports[e.request.k].terms, e.request)
    ensures var v, k := Next(backend, w, e), e.request.k;
            && v.blobs == w.blobs && LifecycleEffects.PairAt(v.store, k) && k in v.store.artifacts
            && v.calls == w.calls[e.c := Call(e.request, Inspecting(SessionFor(w, e)))]
            && v.store.imports[k] == w.store.imports[k].(state := Uploading, updatedAt := e.at)
            && v.store.artifacts[k] == w.store.artifacts[k].(state := Receiving, attempt := Some(e.attempt),
                                                            leaseExpiresAt := Some(e.lease), updatedAt := e.at)
  {
    var spec := BeginSpec(e.request.k, e.request.application, e.request.principal, e.artifact, Place(backend, e.key),
                          e.attempt, e.at, e.lease);
    LifecycleEffects.FreeArtifactIsLeased(w.store, spec);
    SessionLeads(backend, e.request, SessionFor(w, e));
  }

  /** The two steps from the lease to the metadata. */
  lemma ContentIsWritten(backend: string, w: World, c: nat, write: Event)
    requires c in w.calls && w.calls[c].stage.Inspecting? && write.Write? && write.c == c && write.fault == Clean
    requires w.calls[c].stage.session.place.storageKey !in w.blobs
    requires AsReserved(w.calls[c].stage.session.terms, w.calls[c].request)
    ensures var (request, session) := (w.calls[c].request, w.calls[c].stage.session);
            var blob := Blob(request.content, write.version, write.backendVersion, write.at);
            Next(backend, Next(backend, w, Inspect(c, true, true)), write)
            == World(w.store, w.blobs[session.place.storageKey := blob],
                     w.calls[c := Call(request, Committing(session, EvidenceOf(blob)))])
  {
    var (request, session) := (w.calls[c].request, w.calls[c].stage.session);
    InspectMeans(w, c, true, true);
    var v := Next(backend, w, Inspect(c, true, true));
    var blob := Blob(request.content, write.version, write.backendVersion, write.at);
    PutErrorMeans(request.content, session.terms, request.declared);
    WriteMeans(v, c, blob, Clean);
    assert v.calls[c := Call(request, Committing(session, EvidenceOf(blob)))]
        == w.calls[c := Call(request, Committing(session, EvidenceOf(blob)))];
  }

  /** The content is committed within the lease, at an instant not behind the rows. */
  predicate WritesInTime(w: World, begin: Event, write: Event)
    requires begin.Begin? && write.Write? && begin.request.k in w.store.imports && begin.request.k in w.store.artifacts
  {
    && write.version != "" && write.at != 0 && write.at <= begin.lease
    && write.at >= w.store.artifacts[begin.request.k].createdAt
    && write.at >= w.store.imports[begin.request.k].terms.createdAt
  }

  function Lone(backend: string, w: World, begin: Event, write: Event): World
    requires begin.Begin? && write.Write?
  {
    Next(backend, Next(backend, Next(backend, Next(backend, w, begin), Inspect(begin.c, true, true)), write),
         Commit(begin.c, Clean))
  }

  /**
   A call that is alone, in time and meets no fault delivers content that is
   as announced: the caller gets its receipt, the object holds exactly its
   bytes, and the import and its artifact say so.
   */
  lemma LoneUploadDelivers(backend: string, w: World, begin: Event, write: Event)
    requires begin.Begin? && begin.c !in w.calls && begin.key !in w.blobs && Waits(backend, w, begin.request)
    requires BeginsInTime(w, begin) && AsReserved(w.store.imports[begin.request.k].terms, begin.request)
    requires write.Write? && write.c == begin.c && write.fault == Clean && WritesInTime(w, begin, write)
    ensures var v, k, content := Lone(backend, w, begin, write), begin.request.k, begin.request.content;
            var evidence := Evidence(|content|, Streams.Sha256(content), write.version, write.backendVersion, write.at);
            && begin.c in v.calls
            && v.calls[begin.c].stage == Received(Receipt(|content|, Streams.Sha256(content), write.at))
            && k in v.store.imports && v.store.imports[k].state == Uploaded
            && k in v.store.artifacts && v.store.artifacts[k].state == Committed
            && v.store.artifacts[k].evidence == Some(evidence)
            && v.blobs == w.blobs[w.store.artifacts[k].place.storageKey :=
                                  Blob(content, write.version, write.backendVersion, write.at)]
  {
    BeginLeases(backend, w, begin);
    var begun := Next(backend, w, begin);
    ContentIsWritten(backend, begun, begin.c, write);
    var written := Next(backend, Next(backend, begun, Inspect(begin.c, true, true)), write);
    EvidenceIsCommitted(backend, written, begin.c);
  }

  lemma EvidenceIsCommitted(backend: string, w: World, c: nat)
    requires c in w.calls && w.calls[c].stage.Committing?
    requires var (session, e) := (w.calls[c].stage.session, w.calls[c].stage.evidence);
             && LifecycleEffects.PairAt(w.store, session.k) && w.store.imports[session.k].state == Uploading
             && LifecycleEffects.HeldBy(w.store, session.k, session.artifact, session.attempt)
             && e.size >= 0 && e.version != "" && e.committedAt != 0
             && w.store.artifacts[session.k].leaseExpiresAt.Some?
             && e.committedAt <= w.store.artifacts[session.k].leaseExpiresAt.value
             && e.committedAt >= w.store.artifacts[session.k].createdAt
             && e.committedAt >= w.store.imports[session.k].terms.createdAt
    ensures var (session, e) := (w.calls[c].stage.session, w.calls[c].stage.evidence);
            var v := Next(backend, w, Commit(c, Clean));
            && c in v.calls && v.calls[c].stage == Received(Receipt(e.size, e.digest, e.committedAt))
            && v.blobs == w.blobs && session.k in v.store.imports && v.store.imports[session.k].state == Uploaded
            && session.k in v.store.artifacts && v.store.artifacts[session.k].state == Committed
            && v.store.artifacts[session.k].evidence == Some(e)
  {
    var (session, e) := (w.calls[c].stage.session, w.calls[c].stage.evidence);
    LifecycleEffects.CommitIff(w.store, session.k, session.artifact, session.attempt, e);
    CommitMeans(w, c, Clean);
  }
}
