/** How the processor reports to the queue, and what that says about the public operation. */
module Delivery {
  import opened Base
  import opened Ingestion
  import opened IngestionTables
  import Lifecycle
  import Uploads

  /** succeeded, retryable, permanent, cancelled */
  datatype Outcome = Done | Retry(code: string) | GiveUp(code: string) | Stop

  function TerminalOutcome(state: OperationState, failureCode: string): Option<Outcome> {
    match state
    case OpSucceeded => Some(Done)
    case OpFailed => Some(GiveUp(if failureCode == "" then "processing-failed" else failureCode))
    case OpCancelled => Some(Stop)
    case _ => None
  }

  /** Publishes a failure; the job is given up unless publishing itself failed. */
  function PermanentStep(s: Store, id: Identity, code: string, at: Time): (Store, Outcome) {
    var r := FailProcessingStep(s, id, code, at);
    (r.0, if r.1.Err? && r.1.error != ProcessingConflict && r.1.error != ProcessingNotFound
          then Retry("state-persistence-failed") else GiveUp(code))
  }

  /** The job as the handler sees it; a creation time of zero is unknown. */
  datatype Attempt = Attempt(count: int, maximum: int, createdAt: Time, now: Time, maximumAge: int)

  predicate LastAttempt(a: Attempt) {
    || (a.maximum > 0 && a.count >= a.maximum)
    || (a.createdAt != 0 && a.now - a.createdAt >= a.maximumAge)
  }

  function RetryStep(s: Store, id: Identity, code: string, a: Attempt, at: Time): (Store, Outcome) {
    if LastAttempt(a) then PermanentStep(s, id, code, at) else (s, Retry(code))
  }

  /** A retry is asked for exactly while attempts are left and the job is young enough; else a failure is published. */
  lemma RetryMeans(s: Store, id: Identity, code: string, a: Attempt, at: Time)
    ensures var exhausted := a.maximum > 0 && a.count >= a.maximum;
            var old_ := a.createdAt != 0 && a.now >= a.createdAt + a.maximumAge;
            RetryStep(s, id, code, a, at)
            == if exhausted || old_ then PermanentStep(s, id, code, at) else (s, Retry(code))
  {
  }

  /** The job is retried only when the tables refused the failure for another reason than its state. */
  lemma PermanentMeans(s: Store, id: Identity, code: string, at: Time)
    ensures var (u, r) := FailProcessingStep(s, id, code, at);
            PermanentStep(s, id, code, at)
            == (u, if r.Ok? || r.error in {ProcessingConflict, ProcessingNotFound} then GiveUp(code)
                   else Retry("state-persistence-failed"))
  {
  }

  /** What a delivery of a finished operation is told. */
  lemma TerminalMeans(state: OperationState, failureCode: string)
    ensures var o := TerminalOutcome(state, failureCode);
            && (o == Some(Done) <==> state == OpSucceeded) && (o == Some(Stop) <==> state == OpCancelled)
            && (o.None? <==> state in {OpQueued, OpRunning})
            && (state == OpFailed ==> o == Some(GiveUp(if failureCode != "" then failureCode else "processing-failed")))
  {
  }

  method Permanent(db: Database, id: Identity, code: string, at: Time) returns (o: Outcome)
    modifies db
    ensures (db.View(), o) == PermanentStep(old(db.View()), id, code, at)
  {
    var r := db.FailProcessing(id, code, at);
    if r.Err? && r.error != ProcessingConflict && r.error != ProcessingNotFound {
      return Retry("state-persistence-failed");
    }
    o := GiveUp(code);
  }

  method RetryOrGiveUp(db: Database, id: Identity, code: string, a: Attempt, at: Time) returns (o: Outcome)
    modifies db
    ensures (db.View(), o) == RetryStep(old(db.View()), id, code, a, at)
  {
    var exhausted := a.maximum > 0 && a.count >= a.maximum;
    var tooOld := a.createdAt != 0 && a.now - a.createdAt >= a.maximumAge;
    if exhausted || tooOld {
      o := Permanent(db, id, code, at);
    } else {
      o := Retry(code);
    }
  }

  predicate Settled(s: Store, id: Identity) {
    OperationKey(id) in s.operations && TerminalOp(s.operations[OperationKey(id)].state)
  }

  /** A job is given up exactly when its operation is then terminal, and that fails only for an early clock. */
  lemma PermanentIff(s: Store, id: Identity, code: string, at: Time)
    requires Lifecycle.RowsOk(s, id) && ValidIdentity(id) && ValidFailureCode(code) && at != 0
    ensures var r := PermanentStep(s, id, code, at);
            && (r.1 == GiveUp(code) <==> Settled(r.0, id))
            && (Settled(r.0, id) <==> Settled(s, id) || Lifecycle.Writable(s, id, at))
  {
    if !Settled(s, id) {
      Lifecycle.FailProcessingIff(s, id, code, at);
    }
  }

  lemma StableRowsRepeat(s: Store, u: Store, id: Identity, at: Time, later: Time)
    requires Lifecycle.RowsOk(s, id) && ValidIdentity(id) && at != 0 && later != 0 && Settled(s, id)
    requires ImportKey(id) in u.imports && u.imports[ImportKey(id)].terms == s.imports[ImportKey(id)].terms
    requires ImportKey(id) in s.artifacts ==> Lifecycle.ArtifactStable(s, u, ImportKey(id))
    requires Lifecycle.OperationStable(s, u, OperationKey(id))
    ensures BeginProcessingStep(s, id, at).1.Ok?
    ensures BeginProcessingStep(u, id, later) == (u, BeginProcessingStep(s, id, at).1)
  {
  }

  lemma TerminalIsSeen(s: Store, id: Identity, at: Time)
    requires Lifecycle.RowsOk(s, id) && ValidIdentity(id) && at != 0 && Settled(s, id)
    ensures var first := BeginProcessingStep(s, id, at).1;
            first.Ok? && TerminalOutcome(first.value.state, first.value.failureCode).Some?
  {
  }

  /** Once the operation is terminal, every later delivery sees the same result and changes nothing. */
  lemma RedeliveryRepeats(s: Store, cs: seq<Lifecycle.Command>, id: Identity, at: Time, later: Time)
    requires Lifecycle.Inv(s) && ValidIdentity(id) && at != 0 && later != 0 && Found(s, id) && Settled(s, id)
    ensures var first := BeginProcessingStep(s, id, at).1;
            && first.Ok? && TerminalOutcome(first.value.state, first.value.failureCode).Some?
            && BeginProcessingStep(Lifecycle.Run(s, cs), id, later) == (Lifecycle.Run(s, cs), first)
  {
    Lifecycle.RowsAreOk(s, id);
    Lifecycle.RunStable(s, cs);
    TerminalIsSeen(s, id, at);
    StableRowsRepeat(s, Lifecycle.Run(s, cs), id, at, later);
  }

  /** The stored object is the one whose metadata was committed. */
  predicate MatchingEvidence(source: ProcessingSource, stored: Evidence) {
    && stored.size == source.evidence.size && stored.digest == source.evidence.digest
    && stored.version == source.evidence.version && stored.backendVersion == source.evidence.backendVersion
  }

  lemma SourceMatches(backend: string, w: Uploads.World, id: Identity, at: Time)
    requires BeginProcessingStep(w.store, id, at).1.Ok?
    requires Uploads.MetadataTrue(backend, w, ImportKey(id)) && Uploads.BlobFits(backend, w, ImportKey(id))
    ensures var source := BeginProcessingStep(w.store, id, at).1.value;
            && Uploads.HasBlob(backend, w, ImportKey(id))
            && MatchingEvidence(source, Uploads.EvidenceOf(Uploads.BlobOf(backend, w, ImportKey(id))))
            && source.evidence.size <= source.maxBytes
  {
  }

  /** In every run, an import that can be processed has its blob, and the blob matches. */
  lemma EvidenceAlwaysMatches(backend: string, es: seq<Uploads.Event>, id: Identity, at: Time)
    requires BeginProcessingStep(Uploads.Run(backend, Uploads.EMPTY, es).store, id, at).1.Ok?
    ensures var w := Uploads.Run(backend, Uploads.EMPTY, es);
            var source := BeginProcessingStep(w.store, id, at).1.value;
            && Uploads.HasBlob(backend, w, ImportKey(id))
            && MatchingEvidence(source, Uploads.EvidenceOf(Uploads.BlobOf(backend, w, ImportKey(id))))
            && source.evidence.size <= source.maxBytes
  {
    var w := Uploads.Run(backend, Uploads.EMPTY, es);
    Uploads.RunKeeps(backend, Uploads.EMPTY, es);
    assert ImportKey(id) in w.store.artifacts;
    SourceMatches(backend, w, id, at);
  }
}
