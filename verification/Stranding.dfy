/** Two whole runs that leave an import open with no job to finish it. */
module Stranding {
  import opened Base
  import opened Text
  import Ingestion
  import Delivery
  import Lifecycle
  import opened JobQueue
  import JobRuns
  import Worker
  import opened Settlement

  const IMPORT: Ingestion.Identity := Ingestion.Identity("aaa", "aaa", "aaa", "aaa")
  const CONFIG: Worker.Config := Worker.Config(MIN_LEASE, 1, 1, 1_000_000_000)
  const BOUND: Binding := Binding("job", IMPORT, 100, CONFIG)
  const CRASH: Failure := Failure(Retryable, "handler_panic")

  /** A job of one attempt. */
  function Request(): Spec {
    Spec("aaa", "aaa", "aaa", "imports", "imports", "import", 1, "{}", "key", 0, None, 1)
  }

  function Token(): string { "lease_" + seq(52, _ => 'a') }

  function Hash(): TokenHash { TokenHash(Token()) }

  // The rows of the job: enqueued at 41, leased at 42, started at 43, failed at 44

  function Enqueued(): Store { Store(map["job" := NewJob(Request(), 41)], map["job" := map[]]) }

  function Leasing(): Store { Apply(Enqueued(), "job", Granted("worker", Hash(), 42 + MIN_LEASE), 42) }

  function Working(): Store { Apply(Leasing(), "job", Started, 43) }

  function Buried(): Store { Apply(Working(), "job", Failing(CRASH, 44), 44) }

  function Withdrawn(): Store { Apply(Enqueued(), "job", CancelAsked, 42) }

  lemma PlainId(s: string)
    requires 3 <= |s| <= 128 && forall i :: 0 <= i < |s| ==> IsLower(s[i])
    ensures ValidQueueId(s)
  {
  }

  lemma IdsAreValid()
    ensures ValidQueueId("aaa") && ValidQueueId("job") && ValidLeaseIdentity("aaa", "job", Token())
  {
    PlainId("aaa");
    PlainId("job");
    assert Token()[..6] == "lease_";
  }

  lemma RequestIsValid()
    ensures ValidSpec(Request())
  {
    PlainId("aaa");
  }

  lemma ImportIsValid()
    ensures Ingestion.ValidIdentity(IMPORT)
  {
    Lifecycle.ThreeLetters("aaa");
  }

  /** The queue as it is after the job was enqueued. */
  function Waits(): JobRuns.World { JobRuns.World(Enqueued(), map[]) }

  lemma EnqueueIsRun()
    ensures QueueReached(Waits())
  {
    var empty := JobRuns.World(Store(map[], map[]), map[]);
    var ws, es := [empty, Waits()], [JobRuns.Event(JobRuns.EnqueueOp("job", Request()), 41, JobRuns.Done)];
    RequestIsValid();
    assert JobRuns.StepAt(ws, es, 0);
    assert JobRuns.IsRun(ws, es) && ws[|es|] == Waits();
  }

  function QueuedWorld(): World { World(Waits(), Lifecycle.QueuedAt40(IMPORT), map[]) }

  lemma QueuedBegins()
    ensures Begins(BOUND, QueuedWorld())
  {
    EnqueueIsRun();
    ImportIsValid();
    Lifecycle.QueuedIsReached(IMPORT);
  }

  lemma OperationIsOpen()
    ensures !Delivery.Settled(Lifecycle.QueuedAt40(IMPORT), IMPORT)
  {
  }

  // ---------------------------------------------------------------------
  // Cancelled before it is leased
  // ---------------------------------------------------------------------

  const WITHDRAW: JobRuns.Event :=
    JobRuns.Event(JobRuns.RequestCancellationOp("aaa", "job"), 42, JobRuns.Moved(Cancelled))

  function WithdrawnWorld(): World { QueuedWorld().(queue := JobRuns.World(Withdrawn(), map[])) }

  lemma WithdrawalSteps()
    ensures Next(BOUND, QueuedWorld(), Queue(WITHDRAW), WithdrawnWorld())
  {
    IdsAreValid();
  }

  lemma WithdrawalStrands()
    ensures Ends(BOUND, QueuedWorld(), WithdrawnWorld()) && Stranded(BOUND, WithdrawnWorld())
  {
    OperationIsOpen();
  }

  /** A queued job that is cancelled leaves its import open, and nothing will finish it. */
  lemma CancelledJobStrandsImport() returns (ws: seq<World>, es: seq<Event>)
    ensures IsRun(BOUND, ws, es) && |es| == 1 && ws[0].store == Lifecycle.QueuedAt40(IMPORT)
    ensures Ends(BOUND, ws[0], ws[1]) && StrandedAt(BOUND, ws, 1)
  {
    QueuedBegins();
    WithdrawalSteps();
    WithdrawalStrands();
    ws, es := OneEvent(BOUND, QueuedWorld(), Queue(WITHDRAW), WithdrawnWorld());
  }

  lemma OneEvent(b: Binding, w: World, e: Event, w': World) returns (ws: seq<World>, es: seq<Event>)
    requires Begins(b, w) && Next(b, w, e, w')
    ensures IsRun(b, ws, es) && ws == [w, w'] && es == [e]
  {
    RunExtends(b, [w], [], e, w');
    ws, es := [w] + [w'], [] + [e];
  }

  // ---------------------------------------------------------------------
  // Panicked on the last attempt
  // ---------------------------------------------------------------------

  function Grants(): map<TokenHash, JobRuns.Grant> { map[Hash() := JobRuns.Grant("job", 1)] }

  const ACQUIRE: JobRuns.Event :=
    JobRuns.Event(JobRuns.AcquireOp("imports", "worker", Token(), MIN_LEASE, 1), 42, JobRuns.Leasing("job"))
  const START: JobRuns.Event := JobRuns.Event(JobRuns.StartOp("aaa", "job", Token()), 43, JobRuns.Done)
  const BURY: JobRuns.Event :=
    JobRuns.Event(JobRuns.FailOp("aaa", "job", Token(), CRASH, Some(44)), 44, JobRuns.Moved(DeadLetter))

  function LeasedWorld(): World { QueuedWorld().(queue := JobRuns.World(Leasing(), Grants())) }

  function StartedWorld(): World { QueuedWorld().(queue := JobRuns.World(Working(), Grants())) }

  function CrashedWorld(): World { StartedWorld().(verdicts := map[Hash() := Crashed]) }

  function BuriedWorld(): World { CrashedWorld().(queue := JobRuns.World(Buried(), Grants())) }

  lemma OnlyCandidate()
    ensures Candidate(Enqueued(), "job", "imports", 1, 42)
  {
    assert ActiveIn(Enqueued(), "aaa", "imports") == {};
  }

  lemma AcquireIsValid()
    ensures ValidAcquire("imports", "worker", MIN_LEASE, 1)
  {
  }

  lemma AcquireSteps()
    ensures Next(BOUND, QueuedWorld(), Queue(ACQUIRE), LeasedWorld())
  {
    OnlyCandidate();
    AcquireIsValid();
  }

  lemma StartSteps()
    ensures Next(BOUND, LeasedWorld(), Queue(START), StartedWorld())
  {
    IdsAreValid();
  }

  lemma PanicSteps()
    ensures Next(BOUND, StartedWorld(), Handle(Hash(), Panics), CrashedWorld())
  {
  }

  lemma CrashIsReported()
    ensures Reports(BOUND, Crashed, Working().jobs["job"], Token(), 44_000, BURY.op)
  {
  }

  lemma BuryIsNext()
    ensures JobRuns.Next(JobRuns.World(Working(), Grants()), BURY, JobRuns.World(Buried(), Grants()))
  {
    IdsAreValid();
  }

  lemma BurySteps()
    ensures Next(BOUND, CrashedWorld(), Report(Token(), 44_000, BURY), BuriedWorld())
  {
    CrashIsReported();
    BuryIsNext();
  }

  lemma BuryEnds()
    ensures Ends(BOUND, CrashedWorld(), BuriedWorld())
  {
  }

  lemma BuryStrands()
    ensures LastLease(BOUND, StartedWorld(), Hash()) && Stranded(BOUND, BuriedWorld())
  {
    OperationIsOpen();
  }

  lemma OneMore(b: Binding, vs: seq<World>, fs: seq<Event>, v: World, e: Event, w: World)
    returns (ws: seq<World>, es: seq<Event>)
    requires IsRun(b, vs, fs) && vs[|fs|] == v && Next(b, v, e, w)
    ensures IsRun(b, ws, es) && ws == vs + [w] && es == fs + [e]
  {
    RunExtends(b, vs, fs, e, w);
    ws, es := vs + [w], fs + [e];
  }

  lemma LeasedRun() returns (ws: seq<World>, es: seq<Event>)
    ensures IsRun(BOUND, ws, es) && ws == [QueuedWorld(), LeasedWorld()] && es == [Queue(ACQUIRE)]
  {
    QueuedBegins();
    AcquireSteps();
    ws, es := OneEvent(BOUND, QueuedWorld(), Queue(ACQUIRE), LeasedWorld());
  }

  lemma StartedRun() returns (ws: seq<World>, es: seq<Event>)
    ensures IsRun(BOUND, ws, es) && |es| == 2 && ws[2] == StartedWorld()
  {
    ws, es := LeasedRun();
    StartSteps();
    ws, es := OneMore(BOUND, ws, es, LeasedWorld(), Queue(START), StartedWorld());
  }

  lemma CrashedRun() returns (ws: seq<World>, es: seq<Event>)
    ensures IsRun(BOUND, ws, es) && |es| == 3 && ws[2] == StartedWorld() && ws[3] == CrashedWorld()
    ensures es[2] == Handle(Hash(), Panics)
  {
    ws, es := StartedRun();
    PanicSteps();
    ws, es := OneMore(BOUND, ws, es, StartedWorld(), Handle(Hash(), Panics), CrashedWorld());
  }

  lemma PanicRun() returns (ws: seq<World>, es: seq<Event>)
    ensures IsRun(BOUND, ws, es) && |es| == 4 && ws[2] == StartedWorld() && ws[3] == CrashedWorld()
    ensures ws[4] == BuriedWorld()
    ensures es[2] == Handle(Hash(), Panics) && es[3] == Report(Token(), 44_000, BURY)
  {
    ws, es := CrashedRun();
    BurySteps();
    ws, es := OneMore(BOUND, ws, es, CrashedWorld(), Report(Token(), 44_000, BURY), BuriedWorld());
  }

  /** A handler that panics on the last attempt leaves its import open, and nothing will finish it. */
  lemma PanicStrandsImport() returns (ws: seq<World>, es: seq<Event>)
    ensures IsRun(BOUND, ws, es) && LastExecution(BOUND, ws, es, 2, 3) && es[2].ending == Panics
    ensures Ends(BOUND, ws[3], ws[4]) && StrandedAt(BOUND, ws, 4)
  {
    ws, es := PanicRun();
    BuryEnds();
    BuryStrands();
  }
}
