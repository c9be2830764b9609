/**
 What a Put call answers, in every interleaving: an error it gives is true, one
 that meets no fault is refused only for its content or for another object, and
 of such calls for one key one succeeds.
 */
module FileAnswers {
  import opened Base
  import opened Streams
  import opened FileStore

  /** The error the call is going to return or has returned. */
  predicate Says(pc: Pc, e: PutError) {
    match pc
    case DroppingTmp(linked, failure) => !linked && failure == e
    case DroppingData(failure) => failure == e
    case DroppingStaging(failure) => failure == e
    case Returned(result) => result == Err(e)
    case _ => false
  }

  predicate SaysTrue(files: Files, w: Writer) {
    && (Says(w.pc, AlreadyExists) ==> ManifestOf(w.key) in files)
    && (Says(w.pc, TooLarge) ==> |w.source| > w.maxBytes)
    && (Says(w.pc, Integrity) ==> |w.source| <= w.maxBytes && !AsAnnounced(w))
    && !Says(w.pc, NotFound)
  }

  ghost predicate AllTrue(s: System) {
    forall v :: v in s.writers ==> SaysTrue(s.files, s.writers[v])
  }

  /** In a reached state a manifest is absent or reads well. */
  lemma ManifestReads(s: System, key: string)
    requires Inv(s)
    ensures ReadManifest(s.files, key).Err? ==> ReadManifest(s.files, key).error == NotFound
    ensures ReadManifest(s.files, key).Ok? <==> ManifestOf(key) in s.files
  {
    assert ManifestInv(s, key);
    if ManifestOf(key) in s.files {
      var p := s.files[ManifestOf(key)].manifest.version;
      assert WriterInv(s.files, p, s.writers[p]);
    }
  }

  lemma AdvanceSaysTrue(files: Files, v: string, w: Writer)
    requires SaysTrue(files, w)
    requires ReadManifest(files, w.key).Ok? ==> ManifestOf(w.key) in files
    requires ReadManifest(files, w.key).Err? ==> ReadManifest(files, w.key).error == NotFound
    ensures SaysTrue(NextFiles(files, v, w), w.(pc := NextPc(files, v, w)))
  {
    StreamEndIff(w);
    NextFilesLocal(files, v, w, ManifestOf(w.key));
  }

  lemma SlipSaysTrue(files: Files, v: string, w: Writer, seen: bool)
    requires SaysTrue(files, w)
    ensures SaysTrue(files, w.(pc := BreakPc(v, w)))
    ensures SaysTrue(NextFiles(files, v, w), w.(pc := SlipPc(files, v, w, seen)))
  {
    NextFilesLocal(files, v, w, ManifestOf(w.key));
  }

  lemma MoverSaysTrue(s: System, a: Act, v: string)
    requires Inv(s) && v in s.writers && SaysTrue(s.files, s.writers[v])
    requires !a.Arrive? && a.version == v
    ensures v in Next(s, a).writers && SaysTrue(Next(s, a).files, Next(s, a).writers[v])
  {
    var w := s.writers[v];
    match a
    case Advance(_) =>
      ManifestReads(s, w.key);
      AdvanceSaysTrue(s.files, v, w);
    case Break(_) => SlipSaysTrue(s.files, v, w, false);
    case Slip(_, seen) => SlipSaysTrue(s.files, v, w, seen);
    case _ =>
  }

  lemma NextSaysTrue(s: System, a: Act)
    requires Inv(s) && AllTrue(s)
    ensures AllTrue(Next(s, a))
  {
    var s' := Next(s, a);
    forall v | v in s'.writers ensures SaysTrue(s'.files, s'.writers[v]) {
      if v in s.writers && !a.Arrive? && a.version == v {
        MoverSaysTrue(s, a, v);
      } else if v in s.writers && ManifestOf(s.writers[v].key) in s.files {
        ManifestStays(s, a, s.writers[v].key);
      }
    }
  }

  lemma {:induction false} RunSaysTrue(acts: seq<Act>)
    ensures AllTrue(Run(acts))
  {
    if acts != [] {
      RunKeeps(acts[..|acts| - 1]);
      RunSaysTrue(acts[..|acts| - 1]);
      NextSaysTrue(Run(acts[..|acts| - 1]), acts[|acts| - 1]);
    }
  }

  lemma ReturnedIsTrue(files: Files, w: Writer)
    requires SaysTrue(files, w) && w.pc.Returned? && w.pc.result.Err?
    ensures w.pc.result.error == AlreadyExists ==> ManifestOf(w.key) in files
    ensures w.pc.result.error == TooLarge ==> |w.source| > w.maxBytes
    ensures w.pc.result.error == Integrity ==> |w.source| <= w.maxBytes && !AsAnnounced(w)
    ensures w.pc.result.error != NotFound
  {
    assert Says(w.pc, w.pc.result.error);
  }

  /** Whatever fails, slips or crashes: an error other than a failure of the backend is true of the call. */
  lemma FailureIsTrue(acts: seq<Act>, v: string)
    requires v in Run(acts).writers && Run(acts).writers[v].pc.Returned? && Run(acts).writers[v].pc.result.Err?
    ensures var files, w := Run(acts).files, Run(acts).writers[v];
            match w.pc.result.error
            case AlreadyExists => ManifestOf(w.key) in files && files[ManifestOf(w.key)].Json?
            case TooLarge => |w.source| > w.maxBytes
            case Integrity =>
              && |w.source| <= w.maxBytes
              && ((w.expectedSize.Some? && |w.source| != w.expectedSize.value)
                  || (w.expectedDigest.Some? && Sha256(w.source) != w.expectedDigest.value))
            case Backend => true
            case NotFound => false
  {
    RunKeeps(acts);
    RunSaysTrue(acts);
    var s := Run(acts);
    assert SaysTrue(s.files, s.writers[v]) && ManifestInv(s, s.writers[v].key);
    ReturnedIsTrue(s.files, s.writers[v]);
  }

  // ---------------------------------------------------------------------
  // Calls that meet no fault
  // ---------------------------------------------------------------------

  /** An operation of the call fails, or takes effect and reports an error. */
  predicate Harms(a: Act, v: string) {
    (a.Break? || a.Slip?) && a.version == v
  }

  ghost predicate Unharmed(acts: seq<Act>, v: string) {
    forall i :: 0 <= i < |acts| ==> !Harms(acts[i], v)
  }

  /** The manifest of the key is another call's. */
  predicate IsOthers(files: Files, key: string, v: string) {
    ManifestOf(key) in files && files[ManifestOf(key)].Json? && files[ManifestOf(key)].manifest.version != v
  }

  /** The call has not created its temporary manifest. */
  predicate IsEarly(pc: Pc) {
    pc.Checking? || pc.CreatingStaging? || pc.Streaming? || pc.Renaming? || pc.CreatingTmp?
  }

  /** The names the call is about to create are free, and it has nothing to report but its content or another object. */
  predicate Undisturbed(s: System, v: string) {
    && (v !in s.writers || s.writers[v].pc.Checking? || s.writers[v].pc.CreatingStaging? ==> Staging(v) !in s.files)
    && (v !in s.writers || IsEarly(s.writers[v].pc) ==> ManifestTmp(v) !in s.files)
    && (v in s.writers ==>
          && !Says(s.writers[v].pc, Backend)
          && (Says(s.writers[v].pc, AlreadyExists) ==> IsOthers(s.files, s.writers[v].key, v)))
  }

  /** A call that has not linked finds only another's manifest. */
  lemma FoundIsOthers(s: System, v: string)
    requires Inv(s) && v in s.writers && !Linked(s.writers[v].pc) && !Undone(s.writers[v].pc)
    requires ManifestOf(s.writers[v].key) in s.files
    ensures IsOthers(s.files, s.writers[v].key, v)
  {
    assert ManifestInv(s, s.writers[v].key);
  }

  lemma MoverUndisturbed(s: System, a: Act, v: string)
    requires Inv(s) && v in s.writers && Undisturbed(s, v)
    requires a.Advance? || a.WriteChunk? || a.Crash?
    requires a.version == v
    ensures Undisturbed(Next(s, a), v)
  {
    var w := s.writers[v];
    assert WriterInv(s.files, v, w);
    ManifestReads(s, w.key);
    StreamEndIff(w);
    if ManifestOf(w.key) in s.files {
      ManifestStays(s, a, w.key);
      if !Linked(w.pc) && !Undone(w.pc) {
        FoundIsOthers(s, v);
      }
    }
  }

  /** A step of another call leaves the files of this one. */
  lemma OthersLeaveFiles(s: System, a: Act, v: string)
    requires Inv(s) && (a.Arrive? || a.version != v)
    ensures var s' := Next(s, a);
            && (Staging(v) in s'.files <==> Staging(v) in s.files)
            && (ManifestTmp(v) in s'.files <==> ManifestTmp(v) in s.files)
            && (v in s.writers ==> v in s'.writers && s'.writers[v] == s.writers[v])
            && (v in s'.writers && v !in s.writers ==> s'.writers[v].pc == Checking)
  {
    if !a.Arrive? && Runs(s, a.version) {
      assert WriterInv(s.files, a.version, s.writers[a.version]);
      assert !Owns(a.version, Staging(v)) && !Owns(a.version, ManifestTmp(v));
      NextFilesLocal(s.files, a.version, s.writers[a.version], Staging(v));
      NextFilesLocal(s.files, a.version, s.writers[a.version], ManifestTmp(v));
    }
  }

  lemma NextUndisturbed(s: System, a: Act, v: string)
    requires Inv(s) && Undisturbed(s, v) && !Harms(a, v)
    ensures Undisturbed(Next(s, a), v)
  {
    if !a.Arrive? && a.version == v {
      if v in s.writers {
        MoverUndisturbed(s, a, v);
      }
    } else {
      OthersLeaveFiles(s, a, v);
      if v in s.writers && ManifestOf(s.writers[v].key) in s.files {
        ManifestStays(s, a, s.writers[v].key);
      }
    }
  }

  lemma {:induction false} RunUndisturbed(acts: seq<Act>, v: string)
    requires Unharmed(acts, v)
    ensures Undisturbed(Run(acts), v)
  {
    if acts != [] {
      var front := acts[..|acts| - 1];
      RunKeeps(front);
      assert forall i :: 0 <= i < |front| ==> front[i] == acts[i];
      RunUndisturbed(front, v);
      NextUndisturbed(Run(front), acts[|acts| - 1], v);
    }
  }

  /** A call whose own operations do not fail succeeds, finds another's object, or is told what its content lacks. */
  lemma UnharmedPutAnswers(acts: seq<Act>, v: string)
    requires Unharmed(acts, v) && v in Run(acts).writers && Run(acts).writers[v].pc.Returned?
    ensures var files, w := Run(acts).files, Run(acts).writers[v];
            || (w.pc.result == Ok(RecordOf(w, v)) && AsAnnounced(w))
            || (w.pc.result == Err(AlreadyExists) && IsOthers(files, w.key, v))
            || (w.pc.result == Err(TooLarge) && |w.source| > w.maxBytes)
            || (w.pc.result == Err(Integrity) && |w.source| <= w.maxBytes && !AsAnnounced(w))
  {
    RunKeeps(acts);
    RunSaysTrue(acts);
    RunUndisturbed(acts, v);
    var w := Run(acts).writers[v];
    if w.pc.result.Err? {
      assert Says(w.pc, w.pc.result.error);
      ReturnedIsTrue(Run(acts).files, w);
    } else {
      assert WriterInv(Run(acts).files, v, w);
    }
  }

  /** All calls for a key have returned, none met a fault, and the content of each was as announced. */
  ghost predicate Settled(acts: seq<Act>, key: string) {
    forall v :: v in Run(acts).writers && Run(acts).writers[v].key == key ==>
                  Unharmed(acts, v) && Run(acts).writers[v].pc.Returned? && AsAnnounced(Run(acts).writers[v])
  }

  /** Then one of them has published its content, and every other was told that the object exists. */
  lemma OneOfThemWins(acts: seq<Act>, v: string) returns (winner: string)
    requires v in Run(acts).writers && Settled(acts, Run(acts).writers[v].key)
    ensures var s, key := Run(acts), Run(acts).writers[v].key;
            && Won(s, winner) && s.writers[winner].key == key
            && Open(s.files, key) == Ok((RecordOf(s.writers[winner], winner), s.writers[winner].source))
            && (forall u :: u in s.writers && s.writers[u].key == key && u != winner ==>
                              s.writers[u].pc.result == Err(AlreadyExists))
  {
    var s, key := Run(acts), Run(acts).writers[v].key;
    RunKeeps(acts);
    UnharmedPutAnswers(acts, v);
    winner := v;
    if !Won(s, v) {
      winner := s.files[ManifestOf(key)].manifest.version;
      assert ManifestInv(s, key);
      UnharmedPutAnswers(acts, winner);
    }
    assert WriterInv(s.files, winner, s.writers[winner]);
    WinnerOpens(s, winner);
    forall u | u in s.writers && s.writers[u].key == key && u != winner
      ensures s.writers[u].pc.result == Err(AlreadyExists)
    {
      UnharmedPutAnswers(acts, u);
      if Won(s, u) {
        AtMostOneWinner(acts, u, winner);
      }
    }
  }
}
