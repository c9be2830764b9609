/**
 The queue worker: retry delays, retry scheduling, and the sequence of queue
 calls one leased job goes through. Worker durations and instants are in
 nanoseconds; the database keeps whole microseconds.
 */
module Worker {
  import opened Base
  import opened JobQueue
  import opened JobTables

  newtype int64 = x: int | -0x8000_0000_0000_0000 <= x < 0x8000_0000_0000_0000

  datatype Config = Config(lease: int, retryMinimum: int64, retryMaximum: int64, retryMaximumAge: int64)

  predicate ValidConfig(config: Config) {
    && MIN_LEASE <= config.lease <= MAX_LEASE
    && config.retryMinimum > 0
    && config.retryMinimum <= config.retryMaximum <= config.retryMaximumAge
  }

  function Pow2(n: nat): (r: nat)
    ensures r >= 1
  {
    if n == 0 then 1 else 2 * Pow2(n - 1)
  }

  /** The exponential backoff in unbounded arithmetic. */
  function Backoff(attempt: int, minimum: int, maximum: int): int
    requires attempt >= 1
  {
    Min(maximum, minimum * Pow2(attempt - 1))
  }

  lemma {:induction false} Pow2Monotone(a: nat, b: nat)
    requires a <= b
    ensures Pow2(a) <= Pow2(b)
  {
    if a < b {
      Pow2Monotone(a, b - 1);
    }
  }

  lemma BackoffSaturates(attempt: int, current: int, minimum: int, maximum: int)
    requires 1 <= current <= attempt && 0 < minimum && minimum * Pow2(current - 1) >= maximum
    ensures Backoff(attempt, minimum, maximum) == maximum
  {
    Pow2Monotone(current - 1, attempt - 1);
    ScaleMonotone(minimum, Pow2(current - 1), Pow2(attempt - 1));
  }

  lemma ScaleMonotone(k: int, a: int, b: int)
    requires k > 0 && a <= b
    ensures k * a <= k * b
  {
  }

  /** The doubling loop computes the backoff without overflowing 64 bits. */
  method RetryDelay(attempt: int64, minimum: int64, maximum: int64) returns (delay: int64)
    ensures minimum <= 0 || maximum <= 0 ==> delay == 0
    ensures 0 < minimum && 0 < maximum && 1 <= attempt ==>
              delay as int == Backoff(attempt as int, minimum as int, maximum as int)
    ensures 0 < minimum && 0 < maximum && attempt < 1 ==> delay as int == Min(minimum as int, maximum as int)
  {
    if minimum <= 0 || maximum <= 0 {
      return 0;
    }
    delay := minimum;
    var current: int64 := 1;
    while current < attempt && delay < maximum
      invariant 1 <= current && (current <= attempt || current == 1) && 0 < delay
      invariant delay as int == minimum as int * Pow2(current as int - 1)
      decreases attempt as int - current as int
    {
      if delay > maximum / 2 {
        BackoffSaturates(attempt as int, current as int + 1, minimum as int, maximum as int);
        return maximum;
      }
      delay := delay * 2;
      current := current + 1;
    }
    if current < attempt {
      BackoffSaturates(attempt as int, current as int, minimum as int, maximum as int);
    }
    if delay > maximum {
      return maximum;
    }
  }

  /** Equal jitter: `random` is drawn from 0..spread, or absent when the random source failed. */
  method JitteredRetryDelay(attempt: int64, minimum: int64, maximum: int64, random: Option<int64>)
    returns (delay: int64)
    requires random.Some? ==> 0 <= random.value
    ensures 1 <= attempt && 0 < minimum && 0 < maximum ==>
              var upper := Backoff(attempt as int, minimum as int, maximum as int);
              && upper / 2 <= delay as int <= upper
              && 0 < delay <= maximum
  {
    var upper := RetryDelay(attempt, minimum, maximum);
    if 1 <= attempt && 0 < minimum && 0 < maximum {
      BackoffPositive(attempt as int, minimum as int, maximum as int);
    }
    if upper <= 1 {
      return upper;
    }
    var lower := upper / 2;
    var spread := upper - lower;
    if random.None? {
      return upper;
    }
    delay := lower + random.value % (spread + 1);
  }

  lemma BackoffPositive(attempt: int, minimum: int, maximum: int)
    requires 1 <= attempt && 0 < minimum && 0 < maximum
    ensures 0 < Backoff(attempt, minimum, maximum) <= maximum
  {
    ScaleMonotone(minimum, 1, Pow2(attempt - 1));
  }

  const MAX_INT64: int := 0x7FFF_FFFF_FFFF_FFFF

  /** The difference of two instants saturates at 64 bits. */
  function Elapsed(now: int, createdAt: int): int64 {
    var d := now - createdAt;
    if d > MAX_INT64 then MAX_INT64 as int64 else if d < -MAX_INT64 - 1 then (-MAX_INT64 - 1) as int64 else d as int64
  }

  /** Subtraction of durations wraps around at 64 bits. */
  function Minus(a: int64, b: int64): (r: int64)
    ensures (r as int - (a as int - b as int)) % 0x1_0000_0000_0000_0000 == 0
  {
    var d := a as int - b as int;
    if d > MAX_INT64 then (d - 2 * (MAX_INT64 + 1)) as int64
    else if d < -MAX_INT64 - 1 then (d + 2 * (MAX_INT64 + 1)) as int64
    else d as int64
  }

  /** The worker takes the job as too old: it is, or it was created so far ahead that the subtraction wraps around. */
  predicate TooOld(config: Config, now: int, createdAt: int) {
    now - createdAt >= config.retryMaximumAge as int || createdAt - now > MAX_INT64 - config.retryMaximumAge as int
  }

  /**
   The instant a retry is scheduled for, or none when the job is taken as too
   old. The retry lies strictly after now and no later than either bound.
   */
  method ScheduleRetry(config: Config, now: int, createdAt: int, attempt: int64, retryAfter: int64,
                       random: Option<int64>)
    returns (retryAt: Option<int>)
    requires ValidConfig(config) && 1 <= attempt
    requires random.Some? ==> 0 <= random.value
    ensures retryAt.None? <==> TooOld(config, now, createdAt)
    ensures retryAt.Some? ==>
              && now < retryAt.value
              && retryAt.value <= now + config.retryMaximum as int
              && retryAt.value <= createdAt + config.retryMaximumAge as int
    ensures retryAt.Some? ==>
              var upper := Backoff(attempt as int, config.retryMinimum as int, config.retryMaximum as int);
              var wanted := Max(upper / 2, Min(retryAfter as int, config.retryMaximum as int));
              retryAt.value >= now + Min(wanted, createdAt + config.retryMaximumAge as int - now)
  {
    var remainingAge := Minus(config.retryMaximumAge, Elapsed(now, createdAt));
    if remainingAge <= 0 {
      return None;
    }
    var delay := JitteredRetryDelay(attempt, config.retryMinimum, config.retryMaximum, random);
    if retryAfter > delay {
      delay := retryAfter;
    }
    if delay > config.retryMaximum {
      delay := config.retryMaximum;
    }
    if delay > remainingAge {
      delay := remainingAge;
    }
    retryAt := Some(now + delay as int);
  }

  // ---------------------------------------------------------------------
  // One leased job
  // ---------------------------------------------------------------------

  datatype OutcomeKind = HandlerSucceeded | HandlerRetryable | HandlerPermanent | HandlerCancelled | HandlerUnknown

  datatype HandlerResult = Returned(kind: OutcomeKind, code: string, retryAfter: int64) | Panicked

  /** What happens while the handler runs: heartbeats at given times and cancellation requests. */
  datatype Tick = Beat(at: Time) | CancelRequest(at: Time)

  datatype Ending = Acknowledged | Failed(error: Error) | Stopped

  function HandlerKind(result: HandlerResult): OutcomeKind {
    if result.Panicked? then HandlerRetryable else result.kind
  }

  function HandlerCode(result: HandlerResult): string {
    if result.Panicked? then "handler_panic" else result.code
  }

  const INVALID_OUTCOME: Failure := Failure(Permanent, "invalid_handler_outcome")

  /** The queue call a report makes. */
  datatype QueueCall = EndAs(to: State) | FailAs(failure: Failure, retryAt: Option<Time>)

  function RetryAfter(result: HandlerResult): int { if result.Panicked? then 0 else result.retryAfter as int }

  /**
   The instant a retry waits for: no sooner than half the backoff and the time
   asked for, and no later than the longest delay and the age limit allow.
   */
  predicate RetryDue(config: Config, attempt: int, createdAt: Time, retryAfter: int, clock: int, at: Time)
    requires attempt >= 1
  {
    var longest, limit := config.retryMaximum as int, 1000 * createdAt + config.retryMaximumAge as int;
    var wanted := Max(Backoff(attempt, config.retryMinimum as int, longest) / 2, Min(retryAfter, longest));
    (clock + Min(wanted, limit - clock)) / 1000 <= at <= Min(clock + longest, limit) / 1000
  }

  /** The call the outcome switch makes for a result of one attempt of a job created at the given database instant. */
  predicate Calls(config: Config, attempt: int, createdAt: Time, result: HandlerResult, clock: int, call: QueueCall) {
    var code, invalid := HandlerCode(result), Failure(Permanent, "invalid_handler_outcome");
    match HandlerKind(result)
    case HandlerSucceeded => call == EndAs(Succeeded)
    case HandlerCancelled => call == EndAs(Cancelled)
    case HandlerPermanent => call == FailAs(if ValidCode(code) then Failure(Permanent, code) else invalid, None)
    case HandlerUnknown => call == FailAs(invalid, None)
    case HandlerRetryable =>
      if !ValidCode(code) then call == FailAs(invalid, None)
      else if TooOld(config, clock, 1000 * createdAt) then call == FailAs(Failure(Permanent, code), None)
      else
        && call.FailAs? && call.failure == Failure(Retryable, code) && call.retryAt.Some?
        && (attempt >= 1 ==> RetryDue(config, attempt, createdAt, RetryAfter(result), clock, call.retryAt.value))
  }

  /** The tables after a call, and how the worker reads its reply. */
  function CallStep(s: Store, ws: string, id: string, token: string, call: QueueCall, at: Time): (Store, Ending) {
    match call
    case EndAs(to) =>
      var o := FinishStep(s, ws, id, token, to, at);
      (o.store, if o.result.Ok? then Acknowledged else Failed(o.result.error))
    case FailAs(failure, retryAt) =>
      var o := FailStep(s, ws, id, token, failure, retryAt, at);
      (o.store, if o.result.Ok? then Acknowledged else Failed(o.result.error))
  }

  /** A success that is refused because cancellation was requested is acknowledged as a cancellation instead. */
  function ReportStep(s: Store, ws: string, id: string, token: string, call: QueueCall, at: Time): (Store, Ending) {
    var r := CallStep(s, ws, id, token, call, at);
    if call == EndAs(Succeeded) && r.1 == Failed(CancellationRequested)
    then CallStep(s, ws, id, token, EndAs(Cancelled), at) else r
  }

  /** The row a reported retry leaves: waiting for its instant, or dead. */
  predicate RetriedAs(before: Job, after: Job, result: HandlerResult, config: Config, clock: int) {
    if after.cancelRequestedAt.Some? then after.state == Cancelled
    else if ValidCode(HandlerCode(result)) && !TooOld(config, clock, 1000 * before.createdAt)
            && before.attemptCount < before.request.maxAttempts
    then
      && after.state == RetryWait
      && (before.attemptCount >= 1 ==>
            RetryDue(config, before.attemptCount, before.createdAt, RetryAfter(result), clock, after.availableAt))
    else after.state == DeadLetter
  }

  /** The state an acknowledged job ends in; `handled` tells whether the worker has a handler for its kind. */
  predicate SettledAs(before: Job, after: Job, handled: bool, result: HandlerResult, config: Config, clock: int) {
    if after.cancelRequestedAt.Some? then after.state == Cancelled
    else if !handled then after.state == DeadLetter
    else
      match HandlerKind(result)
      case HandlerSucceeded => after.state == Succeeded
      case HandlerCancelled => after.state == Cancelled
      case HandlerRetryable => RetriedAs(before, after, result, config, clock)
      case HandlerPermanent => after.state == DeadLetter
      case HandlerUnknown => after.state == DeadLetter
  }

  /** CancelActive, and its reading as the end of processing. */
  method AckCancel(q: Queue, ws: string, id: string, token: string, at: Time) returns (ending: Ending)
    modifies q
    ensures (q.View(), ending) == CallStep(old(q.View()), ws, id, token, EndAs(Cancelled), at)
  {
    var r := q.Finish(ws, id, token, Cancelled, at);
    ending := if r.Ok? then Acknowledged else Failed(r.error);
  }

  method AckFail(q: Queue, ws: string, id: string, token: string, failure: Failure, retryAt: Option<Time>, at: Time)
    returns (ending: Ending)
    modifies q
    ensures (q.View(), ending) == CallStep(old(q.View()), ws, id, token, FailAs(failure, retryAt), at)
  {
    var r := q.Fail(ws, id, token, failure, retryAt, at);
    ending := if r.Ok? then Acknowledged else Failed(r.error);
  }

  /** The row still belongs to this attempt: only its lease fields, flag and start time may have moved. */
  predicate SameAttempt(before: Job, after: Job) {
    after.request == before.request && after.attemptCount == before.attemptCount && after.createdAt == before.createdAt
  }

  function TickStep(s: Store, lease: int, ws: string, id: string, token: string, tick: Tick): (Store, Option<Error>) {
    match tick
    case Beat(at) =>
      var o := HeartbeatStep(s, ws, id, token, lease, at);
      (o.store, if o.result.Ok? then None else Some(o.result.error))
    case CancelRequest(at) => (RequestCancellationStep(s, ws, id, at).store, None)
  }

  /** The tables after these ticks, and the error of the heartbeat that ended them, if one did. */
  function Ticked(s: Store, lease: int, ws: string, id: string, token: string, ticks: seq<Tick>)
    : (Store, Option<Error>)
  {
    if ticks == [] then (s, None)
    else
      var r := Ticked(s, lease, ws, id, token, ticks[..|ticks| - 1]);
      if r.1.Some? then r else TickStep(r.0, lease, ws, id, token, ticks[|ticks| - 1])
  }

  lemma {:induction false} TickedStops(s: Store, lease: int, ws: string, id: string, token: string, ticks: seq<Tick>,
                                       i: nat)
    requires i <= |ticks| && Ticked(s, lease, ws, id, token, ticks[..i]).1.Some?
    ensures Ticked(s, lease, ws, id, token, ticks) == Ticked(s, lease, ws, id, token, ticks[..i])
  {
    if i == |ticks| {
      assert ticks[..i] == ticks;
    } else {
      assert ticks[..|ticks| - 1][..i] == ticks[..i];
      TickedStops(s, lease, ws, id, token, ticks[..|ticks| - 1], i);
    }
  }

  lemma TickedLast(s: Store, lease: int, ws: string, id: string, token: string, ticks: seq<Tick>, i: nat)
    requires i < |ticks| && Ticked(s, lease, ws, id, token, ticks[..i]).1.None?
    ensures Ticked(s, lease, ws, id, token, ticks[..i + 1])
            == TickStep(Ticked(s, lease, ws, id, token, ticks[..i]).0, lease, ws, id, token, ticks[i])
  {
    assert ticks[..i + 1][..i] == ticks[..i];
  }

  /** One tick leaves the attempt alone. */
  lemma TickKeeps(s: Store, lease: int, ws: string, id: string, token: string, tick: Tick)
    requires id in s.jobs
    ensures var (u, lost) := TickStep(s, lease, ws, id, token, tick);
            && id in u.jobs && SameAttempt(s.jobs[id], u.jobs[id])
            && (s.jobs[id].state == Running ==> u.jobs[id].state == Running)
            && (lost == Some(CancellationRequested) ==> u.jobs[id].cancelRequestedAt.Some?)
  {
  }

  method HandleTick(q: Queue, lease: int, ws: string, id: string, token: string, tick: Tick)
    returns (lost: Option<Error>)
    requires id in q.jobs
    modifies q
    ensures (q.View(), lost) == TickStep(old(q.View()), lease, ws, id, token, tick)
    ensures id in q.jobs && SameAttempt(old(q.jobs[id]), q.jobs[id])
    ensures old(q.jobs[id]).state == Running ==> q.jobs[id].state == Running
    ensures lost == Some(CancellationRequested) ==> q.jobs[id].cancelRequestedAt.Some?
  {
    TickKeeps(q.View(), lease, ws, id, token, tick);
    lost := None;
    match tick
    case Beat(at) =>
      var r := q.Heartbeat(ws, id, token, lease, at);
      lost := if r.Err? then Some(r.error) else None;
    case CancelRequest(at) =>
      var _ := q.RequestCancellation(ws, id, at);
  }

  /** Heartbeats and cancellation requests while the handler runs; stops at the first failed heartbeat. */
  method WhileHandling(q: Queue, config: Config, ws: string, id: string, token: string, ticks: seq<Tick>)
    returns (lost: Option<Error>)
    requires id in q.jobs
    modifies q
    ensures (q.View(), lost) == Ticked(old(q.View()), config.lease, ws, id, token, ticks)
    ensures id in q.jobs && SameAttempt(old(q.jobs[id]), q.jobs[id])
    ensures lost.None? && old(q.jobs[id]).state == Running ==> q.jobs[id].state == Running
    ensures lost == Some(CancellationRequested) ==> q.jobs[id].cancelRequestedAt.Some?
  {
    lost := None;
    ghost var s := q.View();
    for i := 0 to |ticks|
      invariant lost.None? && (q.View(), lost) == Ticked(s, config.lease, ws, id, token, ticks[..i])
      invariant id in q.jobs && SameAttempt(old(q.jobs[id]), q.jobs[id])
      invariant old(q.jobs[id]).state == Running ==> q.jobs[id].state == Running
    {
      TickedLast(s, config.lease, ws, id, token, ticks, i);
      lost := HandleTick(q, config.lease, ws, id, token, ticks[i]);
      if lost.Some? {
        TickedStops(s, config.lease, ws, id, token, ticks, i + 1);
        return;
      }
    }
    assert ticks[..|ticks|] == ticks;
  }

  // Heartbeats that come in time keep the lease

  /** Only heartbeats, each before the lease of the one before it has run out. */
  predicate OnTime(ticks: seq<Tick>, lease: int, until: Time) {
    forall i :: 0 <= i < |ticks| ==> ticks[i].Beat? && ticks[i].at < LeaseEnd(ticks[..i], lease, until)
  }

  function LeaseEnd(ticks: seq<Tick>, lease: int, until: Time): Time {
    if ticks == [] then until else ticks[|ticks| - 1].at + lease
  }

  /** The job is leased or running under the token until the given instant, and not flagged. */
  predicate Leases(s: Store, ws: string, id: string, token: string, until: Time) {
    && id in s.jobs && s.jobs[id].request.workspace == ws && s.jobs[id].leaseToken == Some(TokenHash(token))
    && s.jobs[id].leaseExpiresAt == Some(until) && s.jobs[id].state in {Leased, Running}
    && s.jobs[id].cancelRequestedAt.None?
  }

  /** A worker whose heartbeats come in time never loses its job, and each moves the end of the lease. */
  lemma {:induction false} BeatsKeepLease(s: Store, lease: int, ws: string, id: string, token: string,
                                          ticks: seq<Tick>, until: Time)
    requires ValidLeaseIdentity(ws, id, token) && MIN_LEASE <= lease <= MAX_LEASE
    requires Leases(s, ws, id, token, until) && OnTime(ticks, lease, until)
    ensures var (u, lost) := Ticked(s, lease, ws, id, token, ticks);
            lost.None? && Leases(u, ws, id, token, LeaseEnd(ticks, lease, until))
  {
    if ticks != [] {
      var front := ticks[..|ticks| - 1];
      assert forall i :: 0 <= i < |front| ==> front[..i] == ticks[..i];
      BeatsKeepLease(s, lease, ws, id, token, front, until);
      BeatMovesEnd(Ticked(s, lease, ws, id, token, front).0, lease, ws, id, token, ticks[|front|].at,
                   LeaseEnd(front, lease, until));
    }
  }

  lemma BeatMovesEnd(s: Store, lease: int, ws: string, id: string, token: string, at: Time, until: Time)
    requires ValidLeaseIdentity(ws, id, token) && MIN_LEASE <= lease <= MAX_LEASE
    requires Leases(s, ws, id, token, until) && at < until
    ensures var (u, lost) := TickStep(s, lease, ws, id, token, Beat(at));
            lost.None? && Leases(u, ws, id, token, at + lease)
  {
  }

  /** A heartbeat in time after a cancellation request tells the worker of it. */
  lemma FlagIsSeen(s: Store, lease: int, ws: string, id: string, token: string, asked: Time, at: Time, until: Time)
    requires ValidLeaseIdentity(ws, id, token) && MIN_LEASE <= lease <= MAX_LEASE
    requires Leases(s, ws, id, token, until) && at < until
    ensures Ticked(s, lease, ws, id, token, [CancelRequest(asked), Beat(at)]).1 == Some(CancellationRequested)
  {
    var ticks := [CancelRequest(asked), Beat(at)];
    assert ticks[..1] == [CancelRequest(asked)] && ticks[..1][..0] == [];
    assert Ticked(s, lease, ws, id, token, ticks[..1]) == TickStep(s, lease, ws, id, token, CancelRequest(asked));
  }

  /** The report of a retry: scheduled within the age limit, or given up. */
  method ReportRetry(q: Queue, config: Config, ws: string, id: string, token: string, result: HandlerResult,
                     clock: int, random: Option<int64>, at: Time)
    returns (ending: Ending, ghost call: QueueCall)
    requires ValidConfig(config) && id in q.jobs && 1 <= q.jobs[id].attemptCount < 0x8000_0000_0000_0000
    requires HandlerKind(result) == HandlerRetryable && (random.Some? ==> 0 <= random.value)
    modifies q
    ensures Calls(config, old(q.jobs[id]).attemptCount, old(q.jobs[id]).createdAt, result, clock, call) && call.FailAs?
    ensures (q.View(), ending) == CallStep(old(q.View()), ws, id, token, call, at)
  {
    var code, retryAfter := HandlerCode(result), if result.Panicked? then 0 else result.retryAfter;
    if !ValidCode(code) {
      ending := AckFail(q, ws, id, token, INVALID_OUTCOME, None, at);
      call := FailAs(INVALID_OUTCOME, None);
      return;
    }
    var retryAt := ScheduleRetry(config, clock, 1000 * q.jobs[id].createdAt, q.jobs[id].attemptCount as int64,
                                 retryAfter, random);
    if retryAt.None? {
      ending := AckFail(q, ws, id, token, Failure(Permanent, code), None, at);
      call := FailAs(Failure(Permanent, code), None);
    } else {
      ending := AckFail(q, ws, id, token, Failure(Retryable, code), Some(retryAt.value / 1000), at);
      call := FailAs(Failure(Retryable, code), Some(retryAt.value / 1000));
    }
  }

  method ReportPermanent(q: Queue, ws: string, id: string, token: string, code: string, at: Time)
    returns (ending: Ending)
    modifies q
    ensures var failure := if ValidCode(code) then Failure(Permanent, code) else INVALID_OUTCOME;
            (q.View(), ending) == CallStep(old(q.View()), ws, id, token, FailAs(failure, None), at)
  {
    var failure := if ValidCode(code) then Failure(Permanent, code) else INVALID_OUTCOME;
    ending := AckFail(q, ws, id, token, failure, None, at);
  }

  method ReportSuccess(q: Queue, ws: string, id: string, token: string, at: Time) returns (ending: Ending)
    modifies q
    ensures (q.View(), ending) == ReportStep(old(q.View()), ws, id, token, EndAs(Succeeded), at)
  {
    var r := q.Finish(ws, id, token, Succeeded, at);
    if r == Err(CancellationRequested) {
      ending := AckCancel(q, ws, id, token, at);
    } else {
      ending := if r.Ok? then Acknowledged else Failed(r.error);
    }
  }

  lemma AcknowledgedEnd(s: Store, ws: string, id: string, token: string, to: State, at: Time)
    requires id in s.jobs && ReportStep(s, ws, id, token, EndAs(to), at).1 == Acknowledged
    ensures var after := ReportStep(s, ws, id, token, EndAs(to), at).0;
            && id in after.jobs && after.jobs[id].leaseToken.None?
            && after.jobs[id].state == if after.jobs[id].cancelRequestedAt.Some? then Cancelled else to
  {
  }

  lemma AcknowledgedFail(s: Store, ws: string, id: string, token: string, failure: Failure, retryAt: Option<Time>,
                         at: Time)
    requires id in s.jobs && CallStep(s, ws, id, token, FailAs(failure, retryAt), at).1 == Acknowledged
    ensures var after := CallStep(s, ws, id, token, FailAs(failure, retryAt), at).0;
            && id in after.jobs && after.jobs[id].leaseToken.None?
            && after.jobs[id].state == FailTarget(s.jobs[id], failure)
            && (after.jobs[id].state == RetryWait ==> retryAt == Some(after.jobs[id].availableAt))
            && after.jobs[id].cancelRequestedAt == s.jobs[id].cancelRequestedAt
  {
  }

  /** The state an acknowledged call leaves is the one the result, the age and the flag call for. */
  lemma AcknowledgedSettles(s: Store, config: Config, ws: string, id: string, token: string, result: HandlerResult,
                            clock: int, call: QueueCall, at: Time)
    requires id in s.jobs && Calls(config, s.jobs[id].attemptCount, s.jobs[id].createdAt, result, clock, call)
    requires ReportStep(s, ws, id, token, call, at).1 == Acknowledged
    ensures var after := ReportStep(s, ws, id, token, call, at).0;
            && id in after.jobs && after.jobs[id].leaseToken.None?
            && SettledAs(s.jobs[id], after.jobs[id], true, result, config, clock)
  {
    match call
    case EndAs(to) => AcknowledgedEnd(s, ws, id, token, to, at);
    case FailAs(failure, retryAt) => AcknowledgedFail(s, ws, id, token, failure, retryAt, at);
  }

  lemma ReportKeepsRow(s: Store, ws: string, id: string, token: string, call: QueueCall, at: Time)
    requires id in s.jobs
    ensures id in ReportStep(s, ws, id, token, call, at).0.jobs
  {
  }

  /**
   The outcome switch: report the handler's result to the queue. The one call
   it makes is fixed by the result, the age of the job and the worker's clock.
   */
  method Report(q: Queue, config: Config, ws: string, id: string, token: string, result: HandlerResult,
                clock: int, random: Option<int64>, at: Time)
    returns (ending: Ending, ghost call: QueueCall)
    requires ValidConfig(config) && id in q.jobs && 1 <= q.jobs[id].attemptCount < 0x8000_0000_0000_0000
    requires random.Some? ==> 0 <= random.value
    modifies q
    ensures id in q.jobs && Calls(config, old(q.jobs[id]).attemptCount, old(q.jobs[id]).createdAt, result, clock, call)
    ensures (q.View(), ending) == ReportStep(old(q.View()), ws, id, token, call, at)
  {
    match HandlerKind(result) {
      case HandlerSucceeded =>
        call := EndAs(Succeeded);
        ending := ReportSuccess(q, ws, id, token, at);
      case HandlerCancelled =>
        call := EndAs(Cancelled);
        ending := AckCancel(q, ws, id, token, at);
      case HandlerRetryable =>
        ending, call := ReportRetry(q, config, ws, id, token, result, clock, random, at);
      case HandlerPermanent =>
        call := FailAs(if ValidCode(HandlerCode(result)) then Failure(Permanent, HandlerCode(result))
                       else INVALID_OUTCOME, None);
        ending := ReportPermanent(q, ws, id, token, HandlerCode(result), at);
      case HandlerUnknown =>
        call := FailAs(INVALID_OUTCOME, None);
        ending := AckFail(q, ws, id, token, INVALID_OUTCOME, None, at);
    }
    ReportKeepsRow(old(q.View()), ws, id, token, call, at);
  }

  /** One queue call after the ticks: the report, or the acknowledgement of a cancellation, or none. */
  predicate HandledAs(s: Store, config: Config, ws: string, id: string, token: string, result: HandlerResult,
                      ticks: seq<Tick>, stopped: bool, clock: int, at: Time, call: QueueCall, after: Store,
                      ending: Ending)
  {
    var t := Ticked(s, config.lease, ws, id, token, ticks);
    if t.1 == Some(CancellationRequested) then (after, ending) == CallStep(t.0, ws, id, token, EndAs(Cancelled), at)
    else if t.1.Some? then (after, ending) == (t.0, Failed(t.1.value))
    else if stopped then (after, ending) == (t.0, Stopped)
    else
      && id in s.jobs && Calls(config, s.jobs[id].attemptCount, s.jobs[id].createdAt, result, clock, call)
      && (after, ending) == ReportStep(t.0, ws, id, token, call, at)
  }

  /** The whole sequence of queue calls of one lease. */
  predicate ProcessedAs(s: Store, config: Config, ws: string, id: string, token: string, handled: bool,
                        result: HandlerResult, ticks: seq<Tick>, stopped: bool, clock: int, startAt: Time,
                        endAt: Time, call: QueueCall, after: Store, ending: Ending)
  {
    var o := StartStep(s, ws, id, token, startAt);
    if o.result == Err(CancellationRequested)
    then (after, ending) == CallStep(s, ws, id, token, EndAs(Cancelled), startAt)
    else if o.result.Err? then (after, ending) == (s, Failed(o.result.error))
    else if !handled
    then (after, ending)
      == CallStep(o.store, ws, id, token, FailAs(Failure(Permanent, "unsupported_job_kind"), None), startAt)
    else HandledAs(o.store, config, ws, id, token, result, ticks, stopped, clock, endAt, call, after, ending)
  }

  /** The handler runs under heartbeats, and its result is reported unless the lease or the context is lost. */
  method HandleAndReport(q: Queue, config: Config, ws: string, id: string, token: string, result: HandlerResult,
                         ticks: seq<Tick>, stopped: bool, clock: int, random: Option<int64>, at: Time)
    returns (ending: Ending, ghost call: QueueCall)
    requires ValidConfig(config)
    requires id in q.jobs && 1 <= q.jobs[id].attemptCount < 0x8000_0000_0000_0000
    requires random.Some? ==> 0 <= random.value
    modifies q
    ensures HandledAs(old(q.View()), config, ws, id, token, result, ticks, stopped, clock, at, call, q.View(), ending)
    ensures id in q.jobs
    ensures ending == Acknowledged ==>
              && q.jobs[id].leaseToken.None?
              && SettledAs(old(q.jobs[id]), q.jobs[id], true, result, config, clock)
  {
    call := EndAs(Cancelled);
    var lost := WhileHandling(q, config, ws, id, token, ticks);
    if lost.Some? {
      if lost.value == CancellationRequested {
        ending := AckCancel(q, ws, id, token, at);
        return;
      }
      return Failed(lost.value), call;
    }
    if stopped {
      return Stopped, call;
    }
    ghost var s := q.View();
    ending, call := Report(q, config, ws, id, token, result, clock, random, at);
    if ending == Acknowledged {
      AcknowledgedSettles(s, config, ws, id, token, result, clock, call, at);
    }
  }

  /**
   Processing of one lease: start, heartbeats and one last call, in this order
   and no more. If it ends acknowledged, the lease has been released and the
   job's row is the one its handler result, its age and its cancellation flag
   call for, a retry scheduled within its bounds.
   */
  method Process(q: Queue, config: Config, ws: string, id: string, token: string, handled: bool,
                 result: HandlerResult, ticks: seq<Tick>, stopped: bool,
                 clock: int, random: Option<int64>, startAt: Time, endAt: Time)
    returns (ending: Ending, ghost call: QueueCall)
    requires ValidConfig(config)
    requires id in q.jobs && 1 <= q.jobs[id].attemptCount < 0x8000_0000_0000_0000
    requires random.Some? ==> 0 <= random.value
    modifies q
    ensures ProcessedAs(old(q.View()), config, ws, id, token, handled, result, ticks, stopped, clock, startAt, endAt,
                        call, q.View(), ending)
    ensures id in q.jobs
    ensures ending == Acknowledged ==>
              && q.jobs[id].leaseToken.None?
              && SettledAs(old(q.jobs[id]), q.jobs[id], handled, result, config, clock)
  {
    call := EndAs(Cancelled);
    var started := q.Start(ws, id, token, startAt);
    if started.Err? {
      if started.error == CancellationRequested {
        ending := AckCancel(q, ws, id, token, startAt);
        return;
      }
      return Failed(started.error), call;
    }
    if !handled {
      ending := AckFail(q, ws, id, token, Failure(Permanent, "unsupported_job_kind"), None, startAt);
      return;
    }
    ending, call := HandleAndReport(q, config, ws, id, token, result, ticks, stopped, clock, random, endAt);
  }
}
