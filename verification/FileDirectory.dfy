/**
 Put as the store runs it, one file operation after another in place: with any
 of them failing, cleanup included, it is a run of the protocol by one call.
 */
module FileDirectory {
  import opened Base
  import opened Streams
  import opened FileStore

  /** A link works, fails, or takes effect and reports an error. */
  datatype LinkFault = Works | Fails | Slips

  /** The file operations of Put that fail. */
  datatype Faults = Faults(
    check: bool, create: bool, stream: bool, rename: bool, tmpCreate: bool, tmpWrite: bool, link: LinkFault,
    dropStaging: bool, dropTmp: bool, dropData: bool)

  /** Nothing fails before the manifest is linked. */
  predicate ReachesLink(f: Faults) {
    !f.check && !f.create && !f.stream && !f.rename && !f.tmpCreate && !f.tmpWrite
  }

  predicate Publishes(f: Faults) { ReachesLink(f) && f.link.Works? }

  /** The link of an absent manifest takes effect and reports an error. */
  predicate Slipped(f: Faults, files: Files, key: string) {
    !f.tmpCreate && !f.tmpWrite && f.link.Slips? && ManifestOf(key) !in files
  }

  /** No removal fails. */
  predicate CleansUp(f: Faults) { !f.dropStaging && !f.dropTmp && !f.dropData }

  /** The state after some operations. */
  function After(s: System, acts: seq<Act>): System {
    if acts == [] then s else Next(After(s, acts[..|acts| - 1]), acts[|acts| - 1])
  }

  lemma AfterOne(s: System, acts: seq<Act>, a: Act)
    ensures After(s, acts + [a]) == Next(After(s, acts), a)
  {
    assert (acts + [a])[..|acts + [a]| - 1] == acts;
  }

  /** The arrival of one call, then operations of that call alone. */
  predicate OneCall(acts: seq<Act>, v: string, w: Writer) {
    && acts != [] && acts[0] == Arrive(v, w)
    && (forall i :: 0 < i < |acts| ==> !acts[i].Arrive? && acts[i].version == v)
  }

  /** The operations so far led here. */
  ghost predicate Led(s: System, acts: seq<Act>, files: Files, others: map<string, Writer>, v: string, w: Writer,
                      pc: Pc)
  {
    After(s, acts) == System(files, others[v := w.(pc := pc)])
  }

  lemma Arrived(s: System, v: string, w: Writer)
    requires v !in s.writers && v != "" && w.pc.Checking? && !w.crashed
    ensures Led(s, [Arrive(v, w)], s.files, s.writers, v, w, Checking)
  {
    AfterOne(s, [], Arrive(v, w));
    assert [] + [Arrive(v, w)] == [Arrive(v, w)];
    assert w.(pc := Checking) == w;
  }

  /** The next operation of the call, successful or not. */
  lemma Advanced(s: System, acts: seq<Act>, files: Files, others: map<string, Writer>, v: string, w: Writer, pc: Pc,
                 fails: bool)
    requires Led(s, acts, files, others, v, w, pc) && !w.crashed
    ensures var at := w.(pc := pc);
            if fails then Led(s, acts + [Break(v)], files, others, v, w, BreakPc(v, at))
            else Led(s, acts + [Advance(v)], NextFiles(files, v, at), others, v, w, NextPc(files, v, at))
  {
    var at := w.(pc := pc);
    var to := if fails then BreakPc(v, at) else NextPc(files, v, at);
    AfterOne(s, acts, if fails then Break(v) else Advance(v));
    assert others[v := at][v := w.(pc := to)] == others[v := w.(pc := to)];
  }

  /** The next operation of the call takes effect and reports an error, and the manifest is then looked for. */
  lemma SlippedOn(s: System, acts: seq<Act>, files: Files, others: map<string, Writer>, v: string, w: Writer, pc: Pc)
    requires Led(s, acts, files, others, v, w, pc) && !w.crashed
    ensures var at := w.(pc := pc);
            Led(s, acts + [Slip(v, true)], NextFiles(files, v, at), others, v, w, SlipPc(files, v, at, true))
  {
    var at := w.(pc := pc);
    var to := SlipPc(files, v, at, true);
    AfterOne(s, acts, Slip(v, true));
    assert others[v := at][v := w.(pc := to)] == others[v := w.(pc := to)];
  }

  lemma Chunked(s: System, acts: seq<Act>, files: Files, others: map<string, Writer>, v: string, w: Writer, n: nat)
    requires Led(s, acts, files, others, v, w, Streaming(0)) && !w.crashed && n == Min(|w.source|, Max(0, w.maxBytes))
    ensures Led(s, acts + [WriteChunk(v, |w.source|)], files[Staging(v) := Blob(w.source[..n])], others, v, w,
                Streaming(n))
  {
    AfterOne(s, acts, WriteChunk(v, |w.source|));
    assert others[v := w.(pc := Streaming(0))][v := w.(pc := Streaming(n))] == others[v := w.(pc := Streaming(n))];
  }

  lemma NothingToRemove(files: Files, name: Name)
    requires name !in files
    ensures Remove(files, name) == files
  {
  }

  lemma AddedAndRemoved(files: Files, name: Name, file: File)
    requires name !in files
    ensures Remove(files[name := file], name) == files
  {
  }

  lemma MovedAside(files: Files, name: Name, other: Name, a: File, b: File)
    requires name !in files && name != other
    ensures Remove(files[name := a], name)[other := b] == files[other := b]
  {
  }

  /** Files that lack nothing but a temporary name of a published directory open as it does. */
  lemma OpensPublished(files: Files, published: Files, before: Files, v: string, w: Writer)
    requires v != "" && Remove(files, ManifestTmp(v)) == published
    requires published == before[Data(w.key, v) := Blob(w.source)][ManifestOf(w.key) := Json(RecordOf(w, v))]
    ensures FileStore.Open(files, w.key) == Ok((RecordOf(w, v), w.source))
  {
    assert ManifestOf(w.key) in published && Data(w.key, v) in published;
  }

  /** A manifest without its data. */
  lemma OrphanLeft(files: Files, v: string, w: Writer)
    requires v != "" && Data(w.key, v) !in files
    ensures var left := files[ManifestOf(w.key) := Json(RecordOf(w, v))];
            && Remove(files[Data(w.key, v) := Blob(w.source)][ManifestOf(w.key) := Json(RecordOf(w, v))],
                      Data(w.key, v)) == left
            && FileStore.Open(left, w.key) == Err(Integrity)
  {
  }

  const NOTHING: System := System(map[], map[])

  lemma {:induction false} AfterIsRun(acts: seq<Act>)
    ensures After(NOTHING, acts) == Run(acts)
  {
    if acts != [] {
      AfterIsRun(acts[..|acts| - 1]);
    }
  }

  /** A lone call up to its data file. */
  lemma DataInPlace(v: string, w: Writer) returns (acts: seq<Act>)
    requires v != "" && w.pc.Checking? && !w.crashed && StreamEnd(w) == Renaming
    ensures Led(NOTHING, acts, map[Data(w.key, v) := Blob(w.source)], map[], v, w, CreatingTmp)
  {
    Arrived(NOTHING, v, w);
    acts := [Arrive(v, w)];
    Advanced(NOTHING, acts, map[], map[], v, w, Checking, false);
    acts := acts + [Advance(v)];
    Advanced(NOTHING, acts, map[], map[], v, w, CreatingStaging, false);
    acts := acts + [Advance(v)];
    Chunked(NOTHING, acts, map[Staging(v) := Blob([])], map[], v, w, |w.source|);
    acts := acts + [WriteChunk(v, |w.source|)];
    var staged := map[Staging(v) := Blob(w.source)];
    assert w.source[..|w.source|] == w.source;
    assert map[Staging(v) := Blob([])][Staging(v) := Blob(w.source)] == staged;
    Advanced(NOTHING, acts, staged, map[], v, w, Streaming(|w.source|), false);
    acts := acts + [Advance(v)];
    Advanced(NOTHING, acts, staged, map[], v, w, Renaming, false);
    acts := acts + [Advance(v)];
    MovedAside(map[], Staging(v), Data(w.key, v), Blob(w.source), Blob(w.source));
  }

  /** Then up to a link that takes effect and reports an error. */
  lemma LinkSlips(v: string, w: Writer) returns (acts: seq<Act>)
    requires v != "" && w.pc.Checking? && !w.crashed && StreamEnd(w) == Renaming
    ensures Led(NOTHING, acts, map[Data(w.key, v) := Blob(w.source), ManifestTmp(v) := Json(RecordOf(w, v)),
                                   ManifestOf(w.key) := Json(RecordOf(w, v))],
                map[], v, w, DroppingTmp(false, AlreadyExists))
  {
    acts := DataInPlace(v, w);
    var data := map[Data(w.key, v) := Blob(w.source)];
    Advanced(NOTHING, acts, data, map[], v, w, CreatingTmp, false);
    acts := acts + [Advance(v)];
    Advanced(NOTHING, acts, data[ManifestTmp(v) := Unwritten], map[], v, w, WritingTmp, false);
    acts := acts + [Advance(v)];
    var json := map[Data(w.key, v) := Blob(w.source), ManifestTmp(v) := Json(RecordOf(w, v))];
    assert data[ManifestTmp(v) := Unwritten][ManifestTmp(v) := Json(RecordOf(w, v))] == json;
    SlippedOn(NOTHING, acts, json, map[], v, w, Linking);
    acts := acts + [Slip(v, true)];
    assert json[ManifestOf(w.key) := Json(RecordOf(w, v))]
        == map[Data(w.key, v) := Blob(w.source), ManifestTmp(v) := Json(RecordOf(w, v)),
               ManifestOf(w.key) := Json(RecordOf(w, v))];
  }

  /** Any well-formed call can lose its data this way, alone in an empty directory. */
  lemma SlippedLinkOrphans(v: string, w: Writer) returns (acts: seq<Act>)
    requires v != "" && w.pc.Checking? && !w.crashed && AsAnnounced(w)
    ensures v in Run(acts).writers && Run(acts).writers[v].pc == Returned(Err(AlreadyExists))
    ensures FileStore.Open(Run(acts).files, w.key) == Err(Integrity)
  {
    StreamEndIff(w);
    acts := LinkSlips(v, w);
    var record := Json(RecordOf(w, v));
    var all := map[Data(w.key, v) := Blob(w.source), ManifestTmp(v) := record, ManifestOf(w.key) := record];
    Advanced(NOTHING, acts, all, map[], v, w, DroppingTmp(false, AlreadyExists), false);
    acts := acts + [Advance(v)];
    assert Remove(all, ManifestTmp(v)) == map[Data(w.key, v) := Blob(w.source), ManifestOf(w.key) := record];
    Advanced(NOTHING, acts, Remove(all, ManifestTmp(v)), map[], v, w, DroppingData(AlreadyExists), false);
    acts := acts + [Advance(v)];
    AfterIsRun(acts);
  }

  class Directory {
    var files: Files

    constructor ()
      ensures files == map[]
    {
      files := map[];
    }

    /** The checks of an earlier object, and the staging file. */
    method Open(v: string, w: Writer, faults: Faults, ghost s: System, ghost acts: seq<Act>,
                ghost others: map<string, Writer>) returns (pc: Pc, ghost more: seq<Act>)
      requires OneCall(acts, v, w) && !w.crashed && Staging(v) !in files
      requires Led(s, acts, files, others, v, w, Checking)
      modifies this
      ensures OneCall(more, v, w) && Led(s, more, files, others, v, w, pc)
      ensures pc == Streaming(0) || (pc.Returned? && pc.result.Err?)
      ensures !faults.check && FileStore.Open(old(files), w.key).Ok? ==> pc == Returned(Err(AlreadyExists))
      ensures files == if pc.Returned? then old(files) else old(files)[Staging(v) := Blob([])]
      ensures pc.Streaming? <==> ManifestOf(w.key) !in old(files) && !faults.check && !faults.create
    {
      Advanced(s, acts, files, others, v, w, Checking, faults.check);
      more := acts + [if faults.check then Break(v) else Advance(v)];
      if faults.check {
        return Returned(Err(Backend)), more;
      }
      var present := ReadManifest(files, w.key);
      if present.Ok? {
        return Returned(Err(AlreadyExists)), more;
      }
      if present.error != NotFound {
        return Returned(Err(present.error)), more;
      }
      Advanced(s, more, files, others, v, w, CreatingStaging, faults.create);
      more := more + [if faults.create then Break(v) else Advance(v)];
      if faults.create {
        return Returned(Err(Backend)), more;
      }
      files := files[Staging(v) := Blob([])];
      pc := Streaming(0);
    }

    /** The copy of the stream into the staging file, its checks, and the rename to the data file. */
    method Stream(v: string, w: Writer, faults: Faults, ghost s: System, ghost acts: seq<Act>,
                  ghost others: map<string, Writer>) returns (pc: Pc, ghost more: seq<Act>)
      requires OneCall(acts, v, w) && !w.crashed && Staging(v) in files && Data(w.key, v) !in files
      requires Led(s, acts, files, others, v, w, Streaming(0))
      modifies this
      ensures OneCall(more, v, w) && Led(s, more, files, others, v, w, pc)
      ensures pc == CreatingTmp || pc.DroppingStaging?
      ensures pc.DroppingStaging? ==> Remove(files, Staging(v)) == Remove(old(files), Staging(v))
      ensures pc == CreatingTmp ==> files == Remove(old(files), Staging(v))[Data(w.key, v) := Blob(w.source)]
      ensures pc == CreatingTmp <==> StreamEnd(w) == Renaming && !faults.stream && !faults.rename
      ensures StreamEnd(w) != Renaming && !faults.stream ==> pc == StreamEnd(w)
    {
      if faults.stream {
        Advanced(s, acts, files, others, v, w, Streaming(0), true);
        return DroppingStaging(Backend), acts + [Break(v)];
      }
      var n := Min(|w.source|, Max(0, w.maxBytes));
      Chunked(s, acts, files, others, v, w, n);
      more := acts + [WriteChunk(v, |w.source|)];
      files := files[Staging(v) := Blob(w.source[..n])];
      Advanced(s, more, files, others, v, w, Streaming(n), false);
      more := more + [Advance(v)];
      pc := StreamEnd(w);
      if pc.DroppingStaging? {
        return;
      }
      assert w.source[..n] == w.source;
      pc, more := Rename(v, w, faults.rename, s, more, others);
    }

    /** The rename of the verified staging file to the data file. */
    method Rename(v: string, w: Writer, fails: bool, ghost s: System, ghost acts: seq<Act>,
                  ghost others: map<string, Writer>) returns (pc: Pc, ghost more: seq<Act>)
      requires OneCall(acts, v, w) && !w.crashed && Staging(v) in files && files[Staging(v)] == Blob(w.source)
      requires Led(s, acts, files, others, v, w, Renaming)
      modifies this
      ensures OneCall(more, v, w) && Led(s, more, files, others, v, w, pc)
      ensures pc == if fails then DroppingStaging(Backend) else CreatingTmp
      ensures files == if fails then old(files) else Remove(old(files), Staging(v))[Data(w.key, v) := Blob(w.source)]
    {
      Advanced(s, acts, files, others, v, w, Renaming, fails);
      more := acts + [if fails then Break(v) else Advance(v)];
      if fails {
        return DroppingStaging(Backend), more;
      }
      files := Remove(files, Staging(v))[Data(w.key, v) := files[Staging(v)]];
      pc := CreatingTmp;
    }

    /** commitManifest: publish through a temporary name and a hard link, then drop the temporary name. */
    method CommitManifest(v: string, w: Writer, faults: Faults, ghost s: System, ghost acts: seq<Act>,
                          ghost others: map<string, Writer>) returns (pc: Pc, ghost more: seq<Act>)
      requires OneCall(acts, v, w) && !w.crashed && ManifestTmp(v) !in files
      requires Led(s, acts, files, others, v, w, CreatingTmp)
      modifies this
      ensures OneCall(more, v, w) && Led(s, more, files, others, v, w, pc)
      ensures pc.DroppingData? || pc == Returned(Ok(RecordOf(w, v)))
      ensures pc.Returned? <==>
                ManifestOf(w.key) !in old(files) && !faults.tmpCreate && !faults.tmpWrite && faults.link.Works?
      ensures Remove(files, ManifestTmp(v))
              == if pc.Returned? || Slipped(faults, old(files), w.key)
                 then old(files)[ManifestOf(w.key) := Json(RecordOf(w, v))] else old(files)
      ensures Slipped(faults, old(files), w.key) ==> pc == DroppingData(AlreadyExists)
      ensures !faults.dropTmp ==> ManifestTmp(v) !in files
    {
      Advanced(s, acts, files, others, v, w, CreatingTmp, faults.tmpCreate);
      more := acts + [if faults.tmpCreate then Break(v) else Advance(v)];
      if faults.tmpCreate {
        NothingToRemove(files, ManifestTmp(v));
        return DroppingData(Backend), more;
      }
      AddedAndRemoved(files, ManifestTmp(v), Unwritten);
      files := files[ManifestTmp(v) := Unwritten];
      pc, more := LinkManifest(v, w, faults, s, more, others);
      pc, more := DropTmp(v, w, faults.dropTmp, pc, s, more, others);
    }

    /** The deferred removal of the temporary manifest. */
    method DropTmp(v: string, w: Writer, fails: bool, at: Pc, ghost s: System, ghost acts: seq<Act>,
                   ghost others: map<string, Writer>) returns (pc: Pc, ghost more: seq<Act>)
      requires OneCall(acts, v, w) && !w.crashed && at.DroppingTmp? && Led(s, acts, files, others, v, w, at)
      modifies this
      ensures OneCall(more, v, w) && Led(s, more, files, others, v, w, pc)
      ensures pc == if at.linked then Returned(Ok(RecordOf(w, v))) else DroppingData(at.failure)
      ensures Remove(files, ManifestTmp(v)) == Remove(old(files), ManifestTmp(v))
      ensures !fails ==> ManifestTmp(v) !in files
    {
      Advanced(s, acts, files, others, v, w, at, fails);
      more := acts + [if fails then Break(v) else Advance(v)];
      if !fails {
        files := Remove(files, ManifestTmp(v));
        NothingToRemove(files, ManifestTmp(v));
      }
      pc := if at.linked then Returned(Ok(RecordOf(w, v))) else DroppingData(at.failure);
    }

    method LinkManifest(v: string, w: Writer, faults: Faults, ghost s: System, ghost acts: seq<Act>,
                        ghost others: map<string, Writer>) returns (pc: Pc, ghost more: seq<Act>)
      requires OneCall(acts, v, w) && !w.crashed && ManifestTmp(v) in files
      requires Led(s, acts, files, others, v, w, WritingTmp)
      modifies this
      ensures OneCall(more, v, w) && Led(s, more, files, others, v, w, pc) && pc.DroppingTmp?
      ensures pc.linked <==> ManifestOf(w.key) !in old(files) && !faults.tmpWrite && faults.link.Works?
      ensures ManifestOf(w.key) !in old(files) && !faults.tmpWrite && faults.link.Slips? ==>
                pc == DroppingTmp(false, AlreadyExists)
      ensures Remove(files, ManifestTmp(v))
              == if ManifestOf(w.key) !in old(files) && !faults.tmpWrite && !faults.link.Fails?
                 then Remove(old(files), ManifestTmp(v))[ManifestOf(w.key) := Json(RecordOf(w, v))]
                 else Remove(old(files), ManifestTmp(v))
    {
      Advanced(s, acts, files, others, v, w, WritingTmp, faults.tmpWrite);
      more := acts + [if faults.tmpWrite then Break(v) else Advance(v)];
      if faults.tmpWrite {
        return DroppingTmp(false, Backend), more;
      }
      files := files[ManifestTmp(v) := Json(RecordOf(w, v))];
      pc, more := Link(v, w, faults.link, s, more, others);
    }

    /** The hard link; an error is taken for a lost race when the manifest is then there. */
    method Link(v: string, w: Writer, fault: LinkFault, ghost s: System, ghost acts: seq<Act>,
                ghost others: map<string, Writer>) returns (pc: Pc, ghost more: seq<Act>)
      requires OneCall(acts, v, w) && !w.crashed
      requires ManifestTmp(v) in files && files[ManifestTmp(v)] == Json(RecordOf(w, v))
      requires Led(s, acts, files, others, v, w, Linking)
      modifies this
      ensures OneCall(more, v, w) && Led(s, more, files, others, v, w, pc) && pc.DroppingTmp?
      ensures pc.linked <==> ManifestOf(w.key) !in old(files) && fault.Works?
      ensures ManifestOf(w.key) !in old(files) && fault.Slips? ==> pc == DroppingTmp(false, AlreadyExists)
      ensures files == if ManifestOf(w.key) in old(files) || fault.Fails? then old(files)
                       else old(files)[ManifestOf(w.key) := Json(RecordOf(w, v))]
    {
      if fault.Slips? {
        SlippedOn(s, acts, files, others, v, w, Linking);
        more := acts + [Slip(v, true)];
      } else {
        Advanced(s, acts, files, others, v, w, Linking, fault.Fails?);
        more := acts + [if fault.Fails? then Break(v) else Advance(v)];
      }
      if fault.Fails? {
        return DroppingTmp(false, Backend), more;
      }
      if ManifestOf(w.key) in files {
        return DroppingTmp(false, AlreadyExists), more;
      }
      files := files[ManifestOf(w.key) := files[ManifestTmp(v)]];
      pc := if fault.Slips? then DroppingTmp(false, AlreadyExists) else DroppingTmp(true, Backend);
    }

    /** A deferred removal, whose own failure leaves the file. */
    method Drop(v: string, w: Writer, name: Name, fails: bool, pc: Pc, ghost s: System, ghost acts: seq<Act>,
                ghost others: map<string, Writer>) returns (r: Result<Manifest, PutError>, ghost more: seq<Act>)
      requires OneCall(acts, v, w) && !w.crashed && Led(s, acts, files, others, v, w, pc)
      requires (pc.DroppingStaging? && name == Staging(v)) || (pc.DroppingData? && name == Data(w.key, v))
      modifies this
      ensures OneCall(more, v, w) && Led(s, more, files, others, v, w, Returned(r)) && r == Err(pc.failure)
      ensures files == if fails then old(files) else Remove(old(files), name)
    {
      Advanced(s, acts, files, others, v, w, pc, fails);
      more := acts + [if fails then Break(v) else Advance(v)];
      if !fails {
        files := Remove(files, name);
      }
      r := Err(pc.failure);
    }

    /**
     Success publishes the bytes under a new manifest for good, and failure
     restores the directory unless the cleanup itself fails or the link took
     effect and reported an error: then the call answers that the object already
     exists and leaves its own manifest without data. The call is a run of the
     protocol, among whatever other calls are pending.
     */
    method Put(v: string, w: Writer, faults: Faults, ghost others: map<string, Writer>)
      returns (r: Result<Manifest, PutError>, ghost acts: seq<Act>)
      requires v != "" && v !in others && w.pc.Checking? && !w.crashed
      requires Staging(v) !in files && Data(w.key, v) !in files && ManifestTmp(v) !in files
      modifies this
      ensures OneCall(acts, v, w)
      ensures After(System(old(files), others), acts) == System(files, others[v := w.(pc := Returned(r))])
      ensures r.Ok? <==> ManifestOf(w.key) !in old(files) && AsAnnounced(w) && Publishes(faults)
      ensures Publishes(faults) && ManifestOf(w.key) !in old(files) ==>
                && (r == Err(TooLarge) <==> |w.source| > w.maxBytes)
                && (r == Err(Integrity) <==> |w.source| <= w.maxBytes && !AsAnnounced(w))
      ensures Publishes(faults) && FileStore.Open(old(files), w.key).Ok? ==> r == Err(AlreadyExists)
      ensures var orphans := ManifestOf(w.key) !in old(files) && AsAnnounced(w) && ReachesLink(faults)
                             && faults.link.Slips?;
              && (r.Err? && CleansUp(faults) && !orphans ==> files == old(files))
              && (orphans ==> r == Err(AlreadyExists))
              && (orphans && CleansUp(faults) ==>
                    && files == old(files)[ManifestOf(w.key) := Json(RecordOf(w, v))]
                    && FileStore.Open(files, w.key) == Err(Integrity))
      ensures r.Ok? ==>
                && r.value == RecordOf(w, v)
                && Remove(files, ManifestTmp(v))
                   == old(files)[Data(w.key, v) := Blob(w.source)][ManifestOf(w.key) := Json(RecordOf(w, v))]
                && FileStore.Open(files, w.key) == Ok((RecordOf(w, v), w.source))
                && (!faults.dropTmp ==> ManifestTmp(v) !in files)
    {
      ghost var s, before := System(files, others), files;
      StreamEndIff(w);
      var pc;
      Arrived(s, v, w);
      pc, acts := Open(v, w, faults, s, [Arrive(v, w)], others);
      if pc.Returned? {
        return pc.result, acts;
      }
      AddedAndRemoved(before, Staging(v), Blob([]));
      MovedAside(before, Staging(v), Data(w.key, v), Blob([]), Blob(w.source));
      pc, acts := Stream(v, w, faults, s, acts, others);
      if pc.DroppingStaging? {
        r, acts := Drop(v, w, Staging(v), faults.dropStaging, pc, s, acts, others);
        return;
      }
      pc, acts := CommitManifest(v, w, faults, s, acts, others);
      if pc.DroppingData? {
        AddedAndRemoved(before, Data(w.key, v), Blob(w.source));
        OrphanLeft(before, v, w);
        if !faults.dropTmp {
          NothingToRemove(files, ManifestTmp(v));
        }
        r, acts := Drop(v, w, Data(w.key, v), faults.dropData, pc, s, acts, others);
        return;
      }
      OpensPublished(files, Remove(files, ManifestTmp(v)), before, v, w);
      r := pc.result;
    }
  }
}
