/** An upload lease protects its attempt over whole runs of interleaved uploads. */
module UploadLeases {
  import opened Base
  import opened Ingestion
  import Lifecycle
  import LifecycleEffects
  import opened Uploads

  /** The artifact of the import is held by this attempt until the given instant. */
  predicate HeldUntil(s: Store, k: Key, attempt: string, until: Time) {
    && k in s.imports && s.imports[k].state == Uploading
    && k in s.artifacts && s.artifacts[k].state == Receiving && s.artifacts[k].attempt == Some(attempt)
    && s.artifacts[k].leaseExpiresAt == Some(until)
  }

  /** A lease is asked for at an instant before the given one and before the import's deadline. */
  predicate InTime(s: Store, k: Key, until: Time, at: Time)
    requires k in s.imports
  {
    at < until && at < s.imports[k].terms.uploadExpiresAt
  }

  /** The transaction neither ends the attempt nor comes after its lease. */
  predicate LeavesLease(s: Store, k: Key, attempt: string, until: Time, command: Lifecycle.Command)
    requires k in s.imports
  {
    match command
    case BeginUpload(spec) => spec.k == k ==> InTime(s, k, until, spec.startedAt)
    case CommitUpload(j, _, other, _) => j == k ==> other != attempt
    case EndUpload(j, _, other, _, _) => j == k ==> other != attempt
    case _ => true
  }

  lemma BeginLeavesLease(s: Store, k: Key, attempt: string, until: Time, spec: BeginSpec)
    requires HeldUntil(s, k, attempt, until) && LifecycleEffects.PairAt(s, k)
    requires spec.k == k ==> InTime(s, k, until, spec.startedAt)
    ensures HeldUntil(BeginUploadStep(s, spec).0, k, attempt, until)
    ensures BeginUploadStep(s, spec).0.artifacts.Keys >= {k}
    ensures spec.k == k && LifecycleEffects.BelongsTo(s, spec) ==>
              BeginUploadStep(s, spec) == (s, Err(UploadInProgress))
  {
    if spec.k == k && LifecycleEffects.BelongsTo(s, spec) {
      LifecycleEffects.TakeoverIff(s, spec);
    }
  }

  lemma UploadLeavesLease(s: Store, k: Key, attempt: string, until: Time, command: Lifecycle.Command)
    requires HeldUntil(s, k, attempt, until) && LifecycleEffects.PairAt(s, k)
    requires LeavesLease(s, k, attempt, until, command)
    requires command.Reserve? || command.BeginUpload? || command.CommitUpload? || command.EndUpload?
    ensures HeldUntil(Lifecycle.Next(s, command), k, attempt, until)
  {
    match command
    case BeginUpload(spec) => BeginLeavesLease(s, k, attempt, until, spec);
    case _ =>
  }

  /** Transactions past the upload are about imports that are past it. */
  lemma LaterLeavesLease(s: Store, k: Key, attempt: string, until: Time, command: Lifecycle.Command)
    requires HeldUntil(s, k, attempt, until)
    requires command.Complete? || Lifecycle.IsProcessing(command)
    ensures HeldUntil(Lifecycle.Next(s, command), k, attempt, until)
  {
    ArtifactsUntouched(s, command);
    match command
    case Complete(_) =>
    case BeginProcessing(_, _) =>
    case CompleteProcessing(_, _, _) =>
    case FailProcessing(_, _, _) =>
  }

  lemma CommandLeavesLease(s: Store, k: Key, attempt: string, until: Time, command: Lifecycle.Command)
    requires HeldUntil(s, k, attempt, until) && LifecycleEffects.PairAt(s, k)
    requires LeavesLease(s, k, attempt, until, command)
    ensures HeldUntil(Lifecycle.Next(s, command), k, attempt, until)
  {
    if command.Complete? || Lifecycle.IsProcessing(command) {
      LaterLeavesLease(s, k, attempt, until, command);
    } else {
      UploadLeavesLease(s, k, attempt, until, command);
    }
  }

  // ---------------------------------------------------------------------
  // Runs of uploads
  // ---------------------------------------------------------------------

  /** The event is not the attempt's own end or commit, and asks for the artifact only while the lease is live. */
  predicate Leaves(backend: string, w: World, k: Key, attempt: string, until: Time, e: Event)
    requires k in w.store.imports
  {
    var command := CommandOf(backend, w, e);
    command.Some? ==> LeavesLease(w.store, k, attempt, until, command.value)
  }

  lemma EventLeavesLease(backend: string, w: World, k: Key, attempt: string, until: Time, e: Event)
    requires Inv(backend, w) && HeldUntil(w.store, k, attempt, until) && Leaves(backend, w, k, attempt, until, e)
    ensures HeldUntil(Next(backend, w, e).store, k, attempt, until)
  {
    StoreMoves(backend, w, e);
    if Next(backend, w, e).store != w.store {
      CommandLeavesLease(w.store, k, attempt, until, CommandOf(backend, w, e).value);
    }
  }

  ghost predicate LeavesAt(backend: string, w: World, es: seq<Event>, i: nat, k: Key, attempt: string, until: Time) {
    i < |es| && var v := Run(backend, w, es[..i]);
                k in v.store.imports && Leaves(backend, v, k, attempt, until, es[i])
  }

  lemma LeavesBefore(backend: string, w: World, es: seq<Event>, i: nat, k: Key, attempt: string, until: Time)
    requires i + 1 < |es| && LeavesAt(backend, w, es, i, k, attempt, until)
    ensures LeavesAt(backend, w, es[..|es| - 1], i, k, attempt, until)
  {
    assert es[..|es| - 1][..i] == es[..i];
  }

  lemma LeaseGoesOn(backend: string, w: World, es: seq<Event>, k: Key, attempt: string, until: Time)
    requires Inv(backend, w) && es != [] && LeavesAt(backend, w, es, |es| - 1, k, attempt, until)
    requires HeldUntil(Run(backend, w, es[..|es| - 1]).store, k, attempt, until)
    ensures HeldUntil(Run(backend, w, es).store, k, attempt, until)
  {
    RunKeeps(backend, w, es[..|es| - 1]);
    EventLeavesLease(backend, Run(backend, w, es[..|es| - 1]), k, attempt, until, es[|es| - 1]);
  }

  /**
   In every run, as long as the attempt that holds an artifact does not end or
   commit itself, and whoever asks for the artifact comes while its lease is
   live and before the import's deadline, the attempt keeps it under the same
   lease: no other attempt ever holds it.
   */
  lemma {:induction false} LeaseExcludes(backend: string, w: World, es: seq<Event>, k: Key, attempt: string,
                                         until: Time)
    requires Inv(backend, w) && HeldUntil(w.store, k, attempt, until)
    requires forall i: nat :: i < |es| ==> LeavesAt(backend, w, es, i, k, attempt, until)
    ensures HeldUntil(Run(backend, w, es).store, k, attempt, until)
  {
    if es != [] {
      var front := es[..|es| - 1];
      forall i | 0 <= i < |front| ensures LeavesAt(backend, w, front, i, k, attempt, until) {
        LeavesBefore(backend, w, es, i, k, attempt, until);
      }
      LeaseExcludes(backend, w, front, k, attempt, until);
      LeaseGoesOn(backend, w, es, k, attempt, until);
    }
  }

  /** A call that comes while the lease is live and before the deadline is told that the upload is in progress. */
  lemma SecondCallIsTold(backend: string, w: World, k: Key, attempt: string, until: Time, e: Event)
    requires Inv(backend, w) && HeldUntil(w.store, k, attempt, until)
    requires e.Begin? && e.request.k == k && e.c !in w.calls && e.key !in w.blobs && InTime(w.store, k, until, e.at)
    requires w.store.imports[k].terms.application == e.request.application
    requires w.store.imports[k].terms.principal == e.request.principal
    ensures var v := Next(backend, w, e);
            v.store == w.store && v.calls == w.calls[e.c := Call(e.request, Turned(UploadInProgress))]
  {
    var spec := BeginSpec(k, e.request.application, e.request.principal, e.artifact, Place(backend, e.key), e.attempt,
                          e.at, e.lease);
    BeginLeavesLease(w.store, k, attempt, until, spec);
  }

  /** One that comes after the lease has ended, with a clock not behind the rows, takes the artifact over. */
  lemma LateCallTakesOver(backend: string, w: World, k: Key, attempt: string, until: Time, e: Event)
    requires Inv(backend, w) && HeldUntil(w.store, k, attempt, until)
    requires e.Begin? && e.request.k == k && e.c !in w.calls && e.key !in w.blobs
    requires until <= e.at < w.store.imports[k].terms.uploadExpiresAt
    requires e.at >= w.store.imports[k].terms.createdAt && e.at >= w.store.artifacts[k].createdAt
    requires w.store.imports[k].terms.application == e.request.application
    requires w.store.imports[k].terms.principal == e.request.principal
    ensures HeldUntil(Next(backend, w, e).store, k, e.attempt, e.lease)
    ensures Next(backend, w, e).store.artifacts[k].place == w.store.artifacts[k].place
  {
    var spec := BeginSpec(k, e.request.application, e.request.principal, e.artifact, Place(backend, e.key), e.attempt,
                          e.at, e.lease);
    LifecycleEffects.TakeoverIff(w.store, spec);
  }
}
