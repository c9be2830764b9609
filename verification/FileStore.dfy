/**
 The filesystem blob store as a protocol of single file operations. Any number
 of Put calls run at once, interleaved between their file operations; each may
 fail at any operation and clean up, or crash and never take another step. An
 operation that fails may have taken effect all the same.
 */
module FileStore {
  import opened Base
  import opened Streams

  datatype Name =
    | Staging(version: string)
    | Data(key: string, version: string)
    | ManifestTmp(version: string)
    | ManifestOf(key: string)

  datatype Manifest = Manifest(
    key: string, dataName: Name, size: int, digest: Digest, version: string, committedAt: Time)

  datatype File = Blob(bytes: seq<byte>) | Json(manifest: Manifest) | Unwritten

  type Files = map<Name, File>

  datatype PutError = AlreadyExists | TooLarge | Integrity | Backend | NotFound

  /** Where a Put call is: the file operation it performs next, or its return. */
  datatype Pc =
    | Checking
    | CreatingStaging
    | Streaming(written: nat)
    | Renaming
    | CreatingTmp
    | WritingTmp
    | Linking
    | DroppingTmp(linked: bool, failure: PutError)
    | DroppingData(failure: PutError)
    | DroppingStaging(failure: PutError)
    | Returned(result: Result<Manifest, PutError>)

  /** One Put call; its version is its key in the writers map, drawn fresh. */
  datatype Writer = Writer(
    key: string, source: seq<byte>, maxBytes: int, expectedSize: Option<int>, expectedDigest: Option<Digest>,
    stamp: Time, pc: Pc, crashed: bool)

  datatype System = System(files: Files, writers: map<string, Writer>)

  datatype Act =
    | Arrive(version: string, writer: Writer)
    | Advance(version: string)
    | WriteChunk(version: string, count: nat)
    | Break(version: string)
    | Slip(version: string, seen: bool)
    | Crash(version: string)

  function RecordOf(w: Writer, version: string): Manifest {
    Manifest(w.key, Data(w.key, version), |w.source|, Sha256(w.source), version, w.stamp)
  }

  /** readManifest: absent, well formed, or corrupt. */
  function ReadManifest(files: Files, key: string): Result<Manifest, PutError> {
    if ManifestOf(key) !in files then Err(NotFound)
    else if !files[ManifestOf(key)].Json? then Err(Integrity)
    else
      var m := files[ManifestOf(key)].manifest;
      if m.key != key || m.version == "" || m.dataName != Data(key, m.version) || m.size < 0 then Err(Integrity)
      else Ok(m)
  }

  /** Open: the manifest and the bytes its verified reader will read. */
  function Open(files: Files, key: string): Result<(Manifest, seq<byte>), PutError> {
    var m := ReadManifest(files, key);
    if m.Err? then Err(m.error)
    else if m.value.dataName !in files || !files[m.value.dataName].Blob? then Err(Integrity)
    else Ok((m.value, files[m.value.dataName].bytes))
  }

  function Goto(s: System, version: string, pc: Pc): System
    requires version in s.writers
  {
    s.(writers := s.writers[version := s.writers[version].(pc := pc)])
  }

  function Remove(files: Files, name: Name): Files {
    files - {name}
  }

  /** The end of the stream: too large, mismatched, or complete. */
  function StreamEnd(w: Writer): Pc {
    if |w.source| > w.maxBytes then DroppingStaging(TooLarge)
    else if !MeetsExpected(|w.source|, Sha256(w.source), w.expectedSize, w.expectedDigest)
    then DroppingStaging(Integrity)
    else Renaming
  }

  /** The stream is within its limit and of the size and digest that were announced. */
  predicate AsAnnounced(w: Writer) {
    && |w.source| <= w.maxBytes
    && (w.expectedSize.Some? ==> |w.source| == w.expectedSize.value)
    && (w.expectedDigest.Some? ==> Sha256(w.source) == w.expectedDigest.value)
  }

  lemma StreamEndIff(w: Writer)
    ensures StreamEnd(w) == Renaming <==> AsAnnounced(w)
    ensures StreamEnd(w) == DroppingStaging(TooLarge) <==> |w.source| > w.maxBytes
    ensures StreamEnd(w) == DroppingStaging(Integrity) <==> |w.source| <= w.maxBytes && !AsAnnounced(w)
  {
  }

  /** Where a call goes after its next file operation. */
  function NextPc(files: Files, v: string, w: Writer): Pc {
    match w.pc
    case Checking =>
      var m := ReadManifest(files, w.key);
      if m.Ok? then Returned(Err(AlreadyExists))
      else if m.error != NotFound then Returned(Err(m.error))
      else CreatingStaging
    case CreatingStaging => if Staging(v) in files then Returned(Err(Backend)) else Streaming(0)
    case Streaming(written) => if |w.source| <= w.maxBytes && written < |w.source| then w.pc else StreamEnd(w)
    case Renaming => if Staging(v) !in files then DroppingStaging(Backend) else CreatingTmp
    case CreatingTmp => if ManifestTmp(v) in files then DroppingData(Backend) else WritingTmp
    case WritingTmp => Linking
    case Linking =>
      if ManifestOf(w.key) in files then DroppingTmp(false, AlreadyExists)
      else if ManifestTmp(v) !in files then DroppingTmp(false, Backend)
      else DroppingTmp(true, Backend)
    case DroppingTmp(linked, failure) => if linked then Returned(Ok(RecordOf(w, v))) else DroppingData(failure)
    case DroppingData(failure) => Returned(Err(failure))
    case DroppingStaging(failure) => Returned(Err(failure))
    case Returned(_) => w.pc
  }

  /** What a call's next file operation does to the directory. */
  function NextFiles(files: Files, v: string, w: Writer): Files {
    match w.pc
    case CreatingStaging => if Staging(v) in files then files else files[Staging(v) := Blob([])]
    case Renaming =>
      if Staging(v) !in files then files else Remove(files, Staging(v))[Data(w.key, v) := files[Staging(v)]]
    case CreatingTmp => if ManifestTmp(v) in files then files else files[ManifestTmp(v) := Unwritten]
    case WritingTmp => files[ManifestTmp(v) := Json(RecordOf(w, v))]
    case Linking =>
      if ManifestOf(w.key) in files || ManifestTmp(v) !in files then files
      else files[ManifestOf(w.key) := files[ManifestTmp(v)]]
    case DroppingTmp(_, _) => Remove(files, ManifestTmp(v))
    case DroppingData(_) => Remove(files, Data(w.key, v))
    case DroppingStaging(_) => Remove(files, Staging(v))
    case _ => files
  }

  /** The next file operation of a call, when it succeeds. */
  function AdvanceStep(s: System, v: string): System
    requires v in s.writers
  {
    var w := s.writers[v];
    Goto(s, v, NextPc(s.files, v, w)).(files := NextFiles(s.files, v, w))
  }

  /** Where a call goes when its next operation fails or the context ends: the deferred cleanup runs. */
  function BreakPc(v: string, w: Writer): Pc {
    match w.pc
    case Checking => Returned(Err(Backend))
    case CreatingStaging => Returned(Err(Backend))
    case Streaming(_) => DroppingStaging(Backend)
    case Renaming => DroppingStaging(Backend)
    case CreatingTmp => DroppingData(Backend)
    case WritingTmp => DroppingTmp(false, Backend)
    case Linking => DroppingTmp(false, Backend)
    case DroppingTmp(linked, failure) => if linked then Returned(Ok(RecordOf(w, v))) else DroppingData(failure)
    case DroppingData(failure) => Returned(Err(failure))
    case DroppingStaging(failure) => Returned(Err(failure))
    case Returned(_) => w.pc
  }

  /** A failed operation leaves the files as they are; a failed removal leaves its file. */
  function BreakStep(s: System, v: string): System
    requires v in s.writers
  {
    Goto(s, v, BreakPc(v, s.writers[v]))
  }

  /** A link that reports an error is taken for a lost race when the manifest is then seen. */
  function SlipPc(files: Files, v: string, w: Writer, seen: bool): Pc {
    if w.pc.Linking? && seen && ManifestOf(w.key) in NextFiles(files, v, w) then DroppingTmp(false, AlreadyExists)
    else BreakPc(v, w)
  }

  /** The next operation takes effect and reports an error. */
  function SlipStep(s: System, v: string, seen: bool): System
    requires v in s.writers
  {
    var w := s.writers[v];
    Goto(s, v, SlipPc(s.files, v, w, seen)).(files := NextFiles(s.files, v, w))
  }

  function ChunkStep(s: System, v: string, count: nat): System
    requires v in s.writers && s.writers[v].pc.Streaming?
  {
    var w := s.writers[v];
    var n := Min(w.pc.written + count, Min(|w.source|, Max(0, w.maxBytes)));
    Goto(s, v, Streaming(n)).(files := s.files[Staging(v) := Blob(w.source[..n])])
  }

  predicate Runs(s: System, v: string) {
    v in s.writers && !s.writers[v].crashed
  }

  /** One operation of one Put call; a step that is not possible changes nothing. */
  function Next(s: System, a: Act): System {
    match a
    case Arrive(v, w) =>
      if v in s.writers || v == "" || w.pc != Checking || w.crashed then s else s.(writers := s.writers[v := w])
    case Advance(v) => if Runs(s, v) then AdvanceStep(s, v) else s
    case WriteChunk(v, count) => if Runs(s, v) && s.writers[v].pc.Streaming? then ChunkStep(s, v, count) else s
    case Break(v) => if Runs(s, v) then BreakStep(s, v) else s
    case Slip(v, seen) => if Runs(s, v) then SlipStep(s, v, seen) else s
    case Crash(v) => if Runs(s, v) then s.(writers := s.writers[v := s.writers[v].(crashed := true)]) else s
  }

  // ---------------------------------------------------------------------
  // What every interleaving keeps
  // ---------------------------------------------------------------------

  /** The call has linked its manifest. */
  predicate Linked(pc: Pc) {
    (pc.DroppingTmp? && pc.linked) || (pc.Returned? && pc.result.Ok?)
  }

  /** The call's data file is in place and it has not begun to remove it. */
  predicate HasData(pc: Pc) {
    pc.CreatingTmp? || pc.WritingTmp? || pc.Linking? || Linked(pc)
  }

  predicate WriterInv(files: Files, v: string, w: Writer) {
    && v != ""
    && (w.pc.Streaming? ==>
          && w.pc.written <= |w.source| && w.pc.written <= Max(0, w.maxBytes)
          && Staging(v) in files && files[Staging(v)] == Blob(w.source[..w.pc.written]))
    && (w.pc.Renaming? ==>
          Staging(v) in files && files[Staging(v)] == Blob(w.source))
    && (w.pc.Renaming? || HasData(w.pc) ==>
          && |w.source| <= w.maxBytes
          && MeetsExpected(|w.source|, Sha256(w.source), w.expectedSize, w.expectedDigest))
    && (HasData(w.pc) ==> Data(w.key, v) in files && files[Data(w.key, v)] == Blob(w.source))
    && (w.pc.Linking? ==> ManifestTmp(v) in files && files[ManifestTmp(v)] == Json(RecordOf(w, v)))
    && (Linked(w.pc) ==> ManifestOf(w.key) in files && files[ManifestOf(w.key)] == Json(RecordOf(w, v)))
    && (w.pc.Returned? && w.pc.result.Ok? ==> w.pc.result.value == RecordOf(w, v))
  }

  /** The call took its link for a failure, and cleans up or is done with it. */
  predicate Undone(pc: Pc) {
    (pc.DroppingTmp? && !pc.linked) || pc.DroppingData? || Failed(pc)
  }

  predicate Failed(pc: Pc) { pc.Returned? && pc.result.Err? }

  /** The call of this version published the manifest; its data is in place unless it has failed. */
  predicate Publisher(s: System, v: string, m: Manifest, key: string) {
    && v in s.writers && s.writers[v].key == key && m == RecordOf(s.writers[v], v)
    && (Linked(s.writers[v].pc) || Undone(s.writers[v].pc))
    && (Data(key, v) in s.files ==> s.files[Data(key, v)] == Blob(s.writers[v].source))
    && (Data(key, v) in s.files || Failed(s.writers[v].pc))
  }

  /** Every manifest was linked by the call whose version it names. */
  predicate ManifestInv(s: System, key: string) {
    ManifestOf(key) in s.files ==>
      && s.files[ManifestOf(key)].Json?
      && Publisher(s, s.files[ManifestOf(key)].manifest.version, s.files[ManifestOf(key)].manifest, key)
  }

  ghost predicate Inv(s: System) {
    && (forall v :: v in s.writers ==> WriterInv(s.files, v, s.writers[v]))
    && (forall key :: ManifestInv(s, key))
  }

  /** The names a call may touch; no other call's names are among them. */
  predicate Owns(v: string, name: Name) {
    match name
    case Staging(u) => u == v
    case Data(_, u) => u == v
    case ManifestTmp(u) => u == v
    case ManifestOf(_) => false
  }

  /** A step of call v changes only v's own files and its own record, or adds one absent manifest. */
  ghost predicate Local(s: System, v: string, s': System) {
    && v in s.writers && s'.writers.Keys == s.writers.Keys
    && (forall u :: u in s.writers && u != v ==> s'.writers[u] == s.writers[u])
    && (forall name :: !Owns(v, name) && name in s.files ==> name in s'.files && s'.files[name] == s.files[name])
    && (forall name :: !Owns(v, name) && name in s'.files && name !in s.files ==> name == ManifestOf(s.writers[v].key))
  }

  lemma OthersKeep(s: System, v: string, s': System, u: string)
    requires Local(s, v, s') && u in s.writers && u != v && WriterInv(s.files, u, s.writers[u])
    ensures WriterInv(s'.files, u, s'.writers[u])
  {
    assert !Owns(v, Staging(u)) && !Owns(v, Data(s.writers[u].key, u));
    assert !Owns(v, ManifestTmp(u)) && !Owns(v, ManifestOf(s.writers[u].key));
  }

  lemma MoveLocal(s: System, v: string, pc: Pc, files: Files)
    requires v in s.writers
    requires forall name :: !Owns(v, name) && name in s.files ==> name in files && files[name] == s.files[name]
    requires forall name :: !Owns(v, name) && name in files && name !in s.files ==> name == ManifestOf(s.writers[v].key)
    ensures Local(s, v, Goto(s, v, pc).(files := files))
  {
  }

  lemma NextFilesLocal(files: Files, v: string, w: Writer, name: Name)
    requires !Owns(v, name)
    ensures name in files ==> name in NextFiles(files, v, w) && NextFiles(files, v, w)[name] == files[name]
    ensures name !in files && name in NextFiles(files, v, w) ==> name == ManifestOf(w.key)
  {
  }

  lemma AdvanceLocal(s: System, v: string)
    requires v in s.writers
    ensures Local(s, v, AdvanceStep(s, v))
  {
    var files := NextFiles(s.files, v, s.writers[v]);
    forall name | !Owns(v, name)
      ensures name in s.files ==> name in files && files[name] == s.files[name]
      ensures name !in s.files && name in files ==> name == ManifestOf(s.writers[v].key)
    {
      NextFilesLocal(s.files, v, s.writers[v], name);
    }
    MoveLocal(s, v, NextPc(s.files, v, s.writers[v]), files);
  }

  lemma AdvanceKeepsWriter(s: System, v: string)
    requires v in s.writers && WriterInv(s.files, v, s.writers[v])
    ensures WriterInv(AdvanceStep(s, v).files, v, AdvanceStep(s, v).writers[v])
  {
    var w := s.writers[v];
    if w.pc.Streaming? && w.pc.written == |w.source| {
      assert w.source[..w.pc.written] == w.source;
    }
  }

  /** A call that published keeps to its way: its data changes only when it fails. */
  predicate KeepsPublisher(s: System, v: string, s': System)
    requires v in s.writers && v in s'.writers
  {
    var w, w' := s.writers[v], s'.writers[v];
    && w' == w.(pc := w'.pc)
    && (Linked(w.pc) || Undone(w.pc) ==>
          && (Linked(w'.pc) || Undone(w'.pc))
          && (Data(w.key, v) in s'.files ==> Data(w.key, v) in s.files
                                             && s'.files[Data(w.key, v)] == s.files[Data(w.key, v)])
          && (Data(w.key, v) in s.files && !Failed(w'.pc) ==> Data(w.key, v) in s'.files)
          && (Failed(w.pc) ==> Failed(w'.pc)))
    && (ManifestOf(w.key) in s'.files && ManifestOf(w.key) !in s.files ==>
          s'.files[ManifestOf(w.key)] == Json(RecordOf(w, v)) && Publisher(s', v, RecordOf(w, v), w.key))
  }

  /** One step of a call removes and replaces no manifest, and a new one is its own. */
  lemma StepKeepsManifest(s: System, v: string, s': System, key: string)
    requires ManifestInv(s, key) && Local(s, v, s') && KeepsPublisher(s, v, s')
    ensures ManifestInv(s', key)
  {
    assert !Owns(v, ManifestOf(key));
    if ManifestOf(key) in s.files {
      assert s.files[ManifestOf(key)].manifest.version != v
        ==> !Owns(v, Data(key, s.files[ManifestOf(key)].manifest.version));
    }
  }

  lemma StepKeepsManifests(s: System, v: string, s': System)
    requires Inv(s) && Local(s, v, s') && KeepsPublisher(s, v, s')
    ensures forall key :: ManifestInv(s', key)
  {
    forall key ensures ManifestInv(s', key) {
      assert ManifestInv(s, key);
      StepKeepsManifest(s, v, s', key);
    }
  }

  lemma AdvanceKeepsPublisher(s: System, v: string)
    requires v in s.writers && WriterInv(s.files, v, s.writers[v])
    ensures KeepsPublisher(s, v, AdvanceStep(s, v))
  {
  }

  lemma AdvanceManifests(s: System, v: string)
    requires Inv(s) && v in s.writers
    ensures forall key :: ManifestInv(AdvanceStep(s, v), key)
  {
    AdvanceLocal(s, v);
    AdvanceKeepsPublisher(s, v);
    StepKeepsManifests(s, v, AdvanceStep(s, v));
  }

  lemma SlipLocal(s: System, v: string, seen: bool)
    requires v in s.writers
    ensures Local(s, v, SlipStep(s, v, seen))
  {
    var files := NextFiles(s.files, v, s.writers[v]);
    forall name | !Owns(v, name)
      ensures name in s.files ==> name in files && files[name] == s.files[name]
      ensures name !in s.files && name in files ==> name == ManifestOf(s.writers[v].key)
    {
      NextFilesLocal(s.files, v, s.writers[v], name);
    }
    MoveLocal(s, v, SlipPc(s.files, v, s.writers[v], seen), files);
  }

  lemma SlipKeepsWriter(s: System, v: string, seen: bool)
    requires v in s.writers && WriterInv(s.files, v, s.writers[v])
    ensures WriterInv(SlipStep(s, v, seen).files, v, SlipStep(s, v, seen).writers[v])
    ensures KeepsPublisher(s, v, SlipStep(s, v, seen))
  {
  }

  lemma SlipKeeps(s: System, v: string, seen: bool)
    requires Inv(s) && v in s.writers
    ensures Local(s, v, SlipStep(s, v, seen))
    ensures WriterInv(SlipStep(s, v, seen).files, v, SlipStep(s, v, seen).writers[v])
    ensures forall key :: ManifestInv(SlipStep(s, v, seen), key)
  {
    SlipLocal(s, v, seen);
    SlipKeepsWriter(s, v, seen);
    StepKeepsManifests(s, v, SlipStep(s, v, seen));
  }

  lemma BreakLocal(s: System, v: string)
    requires v in s.writers
    ensures Local(s, v, BreakStep(s, v))
  {
  }

  lemma BreakKeepsWriter(s: System, v: string)
    requires v in s.writers && WriterInv(s.files, v, s.writers[v])
    ensures WriterInv(BreakStep(s, v).files, v, BreakStep(s, v).writers[v])
  {
  }

  lemma BreakKeeps(s: System, v: string)
    requires Inv(s) && v in s.writers
    ensures Local(s, v, BreakStep(s, v))
    ensures WriterInv(BreakStep(s, v).files, v, BreakStep(s, v).writers[v])
    ensures forall key :: ManifestInv(BreakStep(s, v), key)
  {
    BreakLocal(s, v);
    BreakKeepsWriter(s, v);
    StepKeepsManifests(s, v, BreakStep(s, v));
  }

  lemma ChunkLocal(s: System, v: string, count: nat)
    requires v in s.writers && s.writers[v].pc.Streaming? && WriterInv(s.files, v, s.writers[v])
    ensures Local(s, v, ChunkStep(s, v, count))
    ensures WriterInv(ChunkStep(s, v, count).files, v, ChunkStep(s, v, count).writers[v])
  {
  }

  lemma ChunkKeeps(s: System, v: string, count: nat)
    requires Inv(s) && v in s.writers && s.writers[v].pc.Streaming?
    ensures Local(s, v, ChunkStep(s, v, count))
    ensures WriterInv(ChunkStep(s, v, count).files, v, ChunkStep(s, v, count).writers[v])
    ensures forall key :: ManifestInv(ChunkStep(s, v, count), key)
  {
    ChunkLocal(s, v, count);
    StepKeepsManifests(s, v, ChunkStep(s, v, count));
  }

  lemma WritersKeep(s: System, v: string, s': System)
    requires Inv(s) && Local(s, v, s') && WriterInv(s'.files, v, s'.writers[v])
    ensures forall u :: u in s'.writers ==> WriterInv(s'.files, u, s'.writers[u])
  {
    forall u | u in s'.writers ensures WriterInv(s'.files, u, s'.writers[u]) {
      if u != v {
        OthersKeep(s, v, s', u);
      }
    }
  }

  lemma ArriveKeeps(s: System, v: string, w: Writer)
    requires Inv(s)
    ensures Inv(Next(s, Arrive(v, w)))
  {
    var s' := Next(s, Arrive(v, w));
    forall key ensures ManifestInv(s', key) {
      assert ManifestInv(s, key);
    }
  }

  lemma CrashKeeps(s: System, v: string)
    requires Inv(s)
    ensures Inv(Next(s, Crash(v)))
  {
    var s' := Next(s, Crash(v));
    forall key ensures ManifestInv(s', key) {
      assert ManifestInv(s, key);
    }
    forall u | u in s'.writers ensures WriterInv(s'.files, u, s'.writers[u]) {
      assert WriterInv(s.files, u, s.writers[u]);
    }
  }

  lemma NextKeeps(s: System, a: Act)
    requires Inv(s)
    ensures Inv(Next(s, a))
  {
    match a
    case Arrive(v, w) => ArriveKeeps(s, v, w);
    case Crash(v) => CrashKeeps(s, v);
    case Advance(v) =>
      if Runs(s, v) {
        AdvanceLocal(s, v);
        AdvanceKeepsWriter(s, v);
        AdvanceManifests(s, v);
        WritersKeep(s, v, AdvanceStep(s, v));
      }
    case Break(v) =>
      if Runs(s, v) {
        BreakKeeps(s, v);
        WritersKeep(s, v, BreakStep(s, v));
      }
    case Slip(v, seen) =>
      if Runs(s, v) {
        SlipKeeps(s, v, seen);
        WritersKeep(s, v, SlipStep(s, v, seen));
      }
    case WriteChunk(v, count) =>
      if Runs(s, v) && s.writers[v].pc.Streaming? {
        ChunkKeeps(s, v, count);
        WritersKeep(s, v, ChunkStep(s, v, count));
      }
  }

  /** The state after a sequence of operations from an empty directory. */
  function Run(acts: seq<Act>): System {
    if acts == [] then System(map[], map[]) else Next(Run(acts[..|acts| - 1]), acts[|acts| - 1])
  }

  lemma {:induction false} RunKeeps(acts: seq<Act>)
    ensures Inv(Run(acts))
  {
    if acts != [] {
      RunKeeps(acts[..|acts| - 1]);
      NextKeeps(Run(acts[..|acts| - 1]), acts[|acts| - 1]);
    }
  }

  // ---------------------------------------------------------------------
  // What Open returns
  // ---------------------------------------------------------------------

  /** In any directory, an object opens exactly when its manifest is about it and the data file it names is there. */
  lemma OpensIff(files: Files, key: string)
    ensures var r := Open(files, key);
            && (r == Err(NotFound) <==> ManifestOf(key) !in files)
            && (r.Ok? <==>
                  && ManifestOf(key) in files && files[ManifestOf(key)].Json?
                  && var m := files[ManifestOf(key)].manifest;
                     && m.key == key && m.version != "" && m.dataName == Data(key, m.version) && m.size >= 0
                     && Data(key, m.version) in files && files[Data(key, m.version)].Blob?)
            && (r.Err? ==> r.error == NotFound || r.error == Integrity)
            && (r.Ok? ==>
                  var m := files[ManifestOf(key)].manifest;
                  r.value == (m, files[Data(key, m.version)].bytes))
  {
  }

  /** A published manifest whose data is gone. */
  predicate Orphan(files: Files, key: string) {
    && ManifestOf(key) in files && files[ManifestOf(key)].Json?
    && Data(key, files[ManifestOf(key)].manifest.version) !in files
  }

  /** A call that took its own link for a lost race removes the data under its manifest. */
  predicate Orphans(s: System, a: Act, key: string) {
    && (a.Advance? || a.Slip?) && Runs(s, a.version)
    && s.writers[a.version].pc.DroppingData? && s.writers[a.version].key == key
    && ManifestOf(key) in s.files && s.files[ManifestOf(key)].Json?
    && s.files[ManifestOf(key)].manifest.version == a.version
  }

  lemma OrphanNextIff(s: System, a: Act, key: string)
    requires Inv(s)
    ensures Orphan(Next(s, a).files, key) <==> Orphan(s.files, key) || Orphans(s, a, key)
  {
    assert ManifestInv(s, key);
    if !a.Arrive? && Runs(s, a.version) {
      OrphanStepIff(s, a, key);
    }
  }

  /** The same for an operation of a call that runs. */
  lemma OrphanStepIff(s: System, a: Act, key: string)
    requires !a.Arrive? && Runs(s, a.version) && ManifestInv(s, key)
    requires WriterInv(s.files, a.version, s.writers[a.version])
    ensures Orphan(Next(s, a).files, key) <==> Orphan(s.files, key) || Orphans(s, a, key)
  {
  }

  predicate OrphansAt(acts: seq<Act>, i: nat, key: string) {
    i < |acts| && Orphans(Run(acts[..i]), acts[i], key)
  }

  ghost predicate Orphaned(acts: seq<Act>, from: nat, key: string) {
    exists i: nat :: from <= i && OrphansAt(acts, i, key)
  }

  lemma OrphanedLast(acts: seq<Act>, from: nat, a: Act, key: string)
    requires from <= |acts|
    ensures Orphaned(acts + [a], from, key) <==> Orphaned(acts, from, key) || Orphans(Run(acts), a, key)
  {
    var more := acts + [a];
    assert forall i: nat | i <= |acts| :: more[..i] == acts[..i];
    assert acts[..|acts|] == acts;
    if Orphaned(acts, from, key) {
      var i: nat :| from <= i && OrphansAt(acts, i, key);
      assert OrphansAt(more, i, key);
    }
    if Orphans(Run(acts), a, key) {
      assert OrphansAt(more, |acts|, key);
    }
    if Orphaned(more, from, key) && !Orphans(Run(acts), a, key) {
      var i: nat :| from <= i && OrphansAt(more, i, key);
      assert OrphansAt(acts, i, key);
    }
  }

  /** From any state of a run on, data goes missing under a manifest exactly by such a removal. */
  lemma {:induction false} OrphanSince(acts: seq<Act>, more: seq<Act>, key: string)
    ensures Orphan(Run(acts + more).files, key) <==>
            Orphan(Run(acts).files, key) || Orphaned(acts + more, |acts|, key)
  {
    if more == [] {
      assert acts + more == acts;
    } else {
      var front, a := more[..|more| - 1], more[|more| - 1];
      OrphanSince(acts, front, key);
      assert acts + more == (acts + front) + [a];
      assert (acts + more)[..|acts + more| - 1] == acts + front;
      RunKeeps(acts + front);
      OrphanNextIff(Run(acts + front), a, key);
      OrphanedLast(acts + front, |acts|, a, key);
    }
  }

  /** What Open makes of a reachable directory. */
  lemma OpenOf(s: System, key: string)
    requires Inv(s)
    ensures var r := Open(s.files, key);
            && (r == Err(NotFound) <==> ManifestOf(key) !in s.files)
            && (r == Err(Integrity) <==> Orphan(s.files, key))
            && (r.Err? ==> r.error == NotFound || r.error == Integrity)
            && (r.Ok? ==> |r.value.1| == r.value.0.size && Sha256(r.value.1) == r.value.0.digest)
  {
    assert ManifestInv(s, key);
    if ManifestOf(key) in s.files {
      var v := s.files[ManifestOf(key)].manifest.version;
      assert WriterInv(s.files, v, s.writers[v]);
    }
  }

  /**
   In every reachable state a key has no manifest, or opens to a data file with
   exactly the manifest's size and digest, or its data is gone: exactly when
   the call that published it took its link for a failure and removed the data.
   */
  lemma OpenIsGenuine(acts: seq<Act>, key: string)
    ensures var files := Run(acts).files;
            var r := Open(files, key);
            && (r == Err(NotFound) <==> ManifestOf(key) !in files)
            && (r == Err(Integrity) <==> Orphaned(acts, 0, key))
            && (r.Err? ==> r.error == NotFound || r.error == Integrity)
            && (r.Ok? ==> |r.value.1| == r.value.0.size && Sha256(r.value.1) == r.value.0.digest)
  {
    RunKeeps(acts);
    OpenOf(Run(acts), key);
    OrphanSince([], acts, key);
    assert [] + acts == acts;
  }

  /** The operation links the manifest of the key and reports an error. */
  predicate SlipsLink(s: System, a: Act, key: string) {
    && a.Slip? && Runs(s, a.version) && s.writers[a.version].pc.Linking? && s.writers[a.version].key == key
    && ManifestOf(key) !in s.files && ManifestTmp(a.version) in s.files
  }

  predicate SlipsAt(acts: seq<Act>, i: nat, key: string) {
    i < |acts| && SlipsLink(Run(acts[..i]), acts[i], key)
  }

  /** The publisher of the key knows that it published. */
  predicate Known(s: System, key: string) {
    ManifestOf(key) in s.files && s.files[ManifestOf(key)].Json? ==>
      var v := s.files[ManifestOf(key)].manifest.version;
      v in s.writers && Linked(s.writers[v].pc)
  }

  lemma KnownNext(s: System, a: Act, key: string)
    requires Inv(s) && Known(s, key) && !SlipsLink(s, a, key)
    ensures Known(Next(s, a), key)
  {
    if !a.Arrive? && Runs(s, a.version) {
      assert WriterInv(s.files, a.version, s.writers[a.version]);
      assert ManifestInv(s, key);
    }
  }

  /** Without a link that takes effect and reports an error, no published data is ever lost. */
  lemma {:induction false} NoSlipNoOrphan(acts: seq<Act>, key: string)
    requires forall i: nat :: !SlipsAt(acts, i, key)
    ensures Known(Run(acts), key) && !Orphan(Run(acts).files, key)
  {
    if acts != [] {
      var front := acts[..|acts| - 1];
      forall i: nat ensures !SlipsAt(front, i, key) {
        if i < |front| {
          assert front[..i] == acts[..i];
          assert !SlipsAt(acts, i, key);
        }
      }
      NoSlipNoOrphan(front, key);
      RunKeeps(front);
      assert !SlipsAt(acts, |front|, key);
      KnownNext(Run(front), acts[|front|], key);
    }
    RunKeeps(acts);
    KnownIsWhole(Run(acts), key);
  }

  lemma KnownIsWhole(s: System, key: string)
    requires Known(s, key) && Inv(s)
    ensures !Orphan(s.files, key)
  {
    assert ManifestInv(s, key);
    if ManifestOf(key) in s.files {
      var v := s.files[ManifestOf(key)].manifest.version;
      assert WriterInv(s.files, v, s.writers[v]);
    }
  }

  lemma ManifestStays(s: System, a: Act, key: string)
    requires ManifestOf(key) in s.files
    ensures ManifestOf(key) in Next(s, a).files && Next(s, a).files[ManifestOf(key)] == s.files[ManifestOf(key)]
  {
  }

  /** A published manifest is never removed or replaced, whatever any call does afterwards. */
  lemma {:induction false} ManifestIsWriteOnce(acts: seq<Act>, more: seq<Act>, key: string)
    requires ManifestOf(key) in Run(acts).files
    ensures ManifestOf(key) in Run(acts + more).files
    ensures Run(acts + more).files[ManifestOf(key)] == Run(acts).files[ManifestOf(key)]
  {
    if more == [] {
      assert acts + more == acts;
    } else {
      var front := more[..|more| - 1];
      ManifestIsWriteOnce(acts, front, key);
      assert (acts + more)[..|acts + more| - 1] == acts + front;
      assert (acts + more)[|acts + more| - 1] == more[|more| - 1];
      ManifestStays(Run(acts + front), more[|more| - 1], key);
    }
  }

  /**
   Whatever happens later, a key that opens goes on to open to the same
   content, exactly when its publisher does not remove its data.
   */
  lemma PublishedContentIsPermanent(acts: seq<Act>, more: seq<Act>, key: string)
    requires Open(Run(acts).files, key).Ok?
    ensures Open(Run(acts + more).files, key) == Open(Run(acts).files, key) <==>
            !Orphaned(acts + more, |acts|, key)
  {
    RunKeeps(acts);
    RunKeeps(acts + more);
    OpenOf(Run(acts), key);
    OpenOf(Run(acts + more), key);
    OrphanSince(acts, more, key);
    ManifestIsWriteOnce(acts, more, key);
  }

  predicate Won(s: System, v: string) {
    v in s.writers && s.writers[v].pc.Returned? && s.writers[v].pc.result.Ok?
  }

  /** At most one Put call of a key ever returns success. */
  lemma AtMostOneWinner(acts: seq<Act>, v: string, u: string)
    requires var s := Run(acts); Won(s, v) && Won(s, u) && s.writers[v].key == s.writers[u].key
    ensures v == u
  {
    RunKeeps(acts);
    var s := Run(acts);
    assert WriterInv(s.files, v, s.writers[v]);
    assert WriterInv(s.files, u, s.writers[u]);
  }

  lemma WonStays(s: System, a: Act, v: string)
    requires Won(s, v)
    ensures Won(Next(s, a), v) && RecordOf(Next(s, a).writers[v], v) == RecordOf(s.writers[v], v)
    ensures Next(s, a).writers[v].source == s.writers[v].source && Next(s, a).writers[v].key == s.writers[v].key
  {
  }

  lemma {:induction false} WonForGood(acts: seq<Act>, more: seq<Act>, v: string)
    requires Won(Run(acts), v)
    ensures var w, u := Run(acts).writers[v], Run(acts + more);
            && Won(u, v) && RecordOf(u.writers[v], v) == RecordOf(w, v)
            && u.writers[v].source == w.source && u.writers[v].key == w.key
  {
    if more == [] {
      assert acts + more == acts;
    } else {
      var front := more[..|more| - 1];
      WonForGood(acts, front, v);
      assert (acts + more)[..|acts + more| - 1] == acts + front;
      assert (acts + more)[|acts + more| - 1] == more[|more| - 1];
      WonStays(Run(acts + front), more[|more| - 1], v);
    }
  }

  lemma WinnerOpens(s: System, v: string)
    requires Won(s, v) && WriterInv(s.files, v, s.writers[v])
    ensures Open(s.files, s.writers[v].key) == Ok((RecordOf(s.writers[v], v), s.writers[v].source))
  {
  }

  /** A call that returned success published its own, whole and expected bytes, for good. */
  lemma WinnerPublishes(acts: seq<Act>, more: seq<Act>, v: string)
    requires Won(Run(acts), v)
    ensures var w := Run(acts).writers[v];
            && w.pc.result.value == RecordOf(w, v)
            && Open(Run(acts + more).files, w.key) == Ok((RecordOf(w, v), w.source))
            && RecordOf(w, v) == Manifest(w.key, Data(w.key, v), |w.source|, Sha256(w.source), v, w.stamp)
            && AsAnnounced(w)
  {
    RunKeeps(acts);
    RunKeeps(acts + more);
    assert WriterInv(Run(acts).files, v, Run(acts).writers[v]);
    WonForGood(acts, more, v);
    WinnerOpens(Run(acts + more), v);
  }
}
