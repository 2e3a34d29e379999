/**
 The circuit breaker of src/providers/gnewsProvider.ts: one record shared by overlapping
 requests, each admitted "closed" or "half open" and settled in one of four ways.
 */
module CircuitBreaker {
  import opened Common

  datatype Config = Config(threshold: nat, cooldownMs: nat)

  predicate Usable(cfg: Config) {
    cfg.threshold >= 1 && cfg.cooldownMs >= 1
  }

  datatype Circuit = Circuit(failures: nat, openedAt: Option<int>, halfOpenInFlight: bool)

  datatype Admission = Closed | HalfOpen

  datatype Attempt = Admitted(admission: Admission) | ShortCircuited(retryAfter: int)

  const MAX_RETRY_AFTER_SECONDS := 86_400

  // ---------- admission ----------

  function RetryAfter(cfg: Config, c: Circuit, now: int): (seconds: int)
    ensures 1 <= seconds <= MAX_RETRY_AFTER_SECONDS
  {
    if c.openedAt.None? then 1
    else
      var remaining := c.openedAt.value + cfg.cooldownMs - now;
      var seconds := if remaining <= 1000 then 1 else (remaining + 999) / 1000;
      if seconds > MAX_RETRY_AFTER_SECONDS then MAX_RETRY_AFTER_SECONDS else seconds
  }

  function Asserted(cfg: Config, c: Circuit, now: int): (Circuit, Attempt) {
    if c.openedAt.None? then
      (c, if c.halfOpenInFlight then ShortCircuited(RetryAfter(cfg, c, now)) else Admitted(Closed))
    else if now - c.openedAt.value < cfg.cooldownMs then (c, ShortCircuited(RetryAfter(cfg, c, now)))
    else (c.(openedAt := None, halfOpenInFlight := true), Admitted(HalfOpen))
  }

  // ---------- settling ----------

  /** What came back from the request, and the kinds of error the catch block tells apart. */
  datatype Failure = AbortError | OtherError | NetworkError | HttpStatus(status: int)

  datatype Response = Articles | InvalidPayload | Failed(failure: Failure)

  datatype Signals = Signals(deadline: bool, caller: bool, process: bool)

  datatype Settlement = Success | ProviderFailure | Canceled | Permanent

  predicate ShouldRecordProviderFailure(f: Failure) {
    match f
    case AbortError => false
    case HttpStatus(s) => s == 408 || s == 425 || s == 429 || s >= 500
    case _ => true
  }

  /** The error that reaches the catch block: the abort check precedes the payload check. */
  function Caught(s: Signals, r: Response): Option<Failure> {
    match r
    case Failed(f) => Some(f)
    case _ =>
      if s.deadline || s.caller || s.process then Some(AbortError)
      else if r.InvalidPayload? then Some(OtherError)
      else None
  }

  function SettlementOf(s: Signals, r: Response): Settlement {
    var caught := Caught(s, r);
    if caught.None? then Success
    else if s.deadline && !s.caller && !s.process then ProviderFailure
    else if s.deadline || s.caller || s.process || caught.value.AbortError? then Canceled
    else if ShouldRecordProviderFailure(caught.value) then ProviderFailure
    else Permanent
  }

  /**
   Who is to blame decides, not the response: a caller's or the process's abort is a
   cancellation, the deadline alone is the provider's failure, whatever came back.  With no signal
   fired, an abort error is still a cancellation, and a permanent error is a status that says so.
   */
  lemma SettlementBySignals(s: Signals, r: Response)
    ensures s.caller || s.process ==> SettlementOf(s, r) == Canceled
    ensures s.deadline && !s.caller && !s.process ==> SettlementOf(s, r) == ProviderFailure
    ensures SettlementOf(s, r) == Canceled <==> s.caller || s.process || (!s.deadline && r == Failed(AbortError))
    ensures SettlementOf(s, r) == Success <==> r == Articles && s == Signals(false, false, false)
    ensures SettlementOf(s, r) == Permanent <==>
              && s == Signals(false, false, false)
              && r.Failed? && r.failure.HttpStatus?
              && r.failure.status < 500 && r.failure.status !in {408, 425, 429}
  {
  }

  const CLOSED_CIRCUIT := Circuit(0, None, false)

  function FailureRecorded(cfg: Config, c: Circuit, now: int): Circuit {
    var failures := c.failures + 1;
    Circuit(failures,
            if failures >= cfg.threshold && c.openedAt.None? then Some(now) else c.openedAt,
            false)
  }

  function Settled(cfg: Config, c: Circuit, a: Admission, s: Settlement, now: int): Circuit {
    match s
    case Success => CLOSED_CIRCUIT
    case ProviderFailure => FailureRecorded(cfg, c, now)
    case Canceled => if a.HalfOpen? then c.(halfOpenInFlight := false, openedAt := Some(now)) else c
    case Permanent => if a.HalfOpen? then CLOSED_CIRCUIT else c
  }

  // ---------- the shared record ----------

  class CircuitState {
    const threshold: nat
    const cooldownMs: nat
    var failures: nat
    var openedAt: Option<int>
    var halfOpenInFlight: bool

    function Cfg(): Config {
      Config(threshold, cooldownMs)
    }

    function View(): Circuit
      reads this
    {
      Circuit(failures, openedAt, halfOpenInFlight)
    }

    constructor (threshold: nat, cooldownMs: nat)
      ensures View() == CLOSED_CIRCUIT && Cfg() == Config(threshold, cooldownMs)
    {
      this.threshold, this.cooldownMs := threshold, cooldownMs;
      failures, openedAt, halfOpenInFlight := 0, None, false;
    }

    method AssertCircuitAllowsRequest(now: int) returns (attempt: Attempt)
      modifies this
      ensures (View(), attempt) == Asserted(Cfg(), old(View()), now)
    {
      if openedAt.None? && halfOpenInFlight {
        return ShortCircuited(RetryAfter(Cfg(), View(), now));
      }
      if openedAt.None? {
        return Admitted(Closed);
      }
      if now - openedAt.value < cooldownMs {
        return ShortCircuited(RetryAfter(Cfg(), View(), now));
      }
      openedAt := None;
      halfOpenInFlight := true;
      return Admitted(HalfOpen);
    }

    method CloseCircuit()
      modifies this
      ensures View() == CLOSED_CIRCUIT
    {
      failures := 0;
      openedAt := None;
      halfOpenInFlight := false;
    }

    method RecordProviderFailure(now: int)
      modifies this
      ensures View() == FailureRecorded(Cfg(), old(View()), now)
    {
      halfOpenInFlight := false;
      failures := failures + 1;
      if failures >= threshold && openedAt.None? {
        openedAt := Some(now);
      }
    }

    method RecordCanceledProbe(admission: Admission, now: int)
      modifies this
      ensures View() == Settled(Cfg(), old(View()), admission, Canceled, now)
    {
      if admission != HalfOpen {
        return;
      }
      halfOpenInFlight := false;
      openedAt := Some(now);
    }

    /** The end of an admitted search: the success path and the branches of the catch block. */
    method SettleSearch(admission: Admission, signals: Signals, response: Response, now: int) returns (ok: bool)
      modifies this
      ensures View() == Settled(Cfg(), old(View()), admission, SettlementOf(signals, response), now)
      ensures ok <==> response == Articles && !signals.deadline && !signals.caller && !signals.process
    {
      var aborted := signals.deadline || signals.caller || signals.process;
      var err := match response
        case Failed(f) => Some(f)
        case Articles => if aborted then Some(AbortError) else None
        case InvalidPayload => if aborted then Some(AbortError) else Some(OtherError);
      if err.None? {
        CloseCircuit();
        return true;
      }
      if signals.deadline && !signals.caller && !signals.process {
        RecordProviderFailure(now);
        return false;
      }
      if aborted || err.value.AbortError? {
        RecordCanceledProbe(admission, now);
        return false;
      }
      if ShouldRecordProviderFailure(err.value) {
        RecordProviderFailure(now);
      } else if admission == HalfOpen {
        CloseCircuit();
      }
      return false;
    }
  }

  // ---------- overlapping requests ----------

  type RequestId = nat

  datatype Request = Request(admission: Admission, admittedAt: int)

  datatype World = World(circuit: Circuit, now: int, inFlight: map<RequestId, Request>)

  const START := World(CLOSED_CIRCUIT, 0, map[])

  datatype Step = Begin(id: RequestId) | End(id: RequestId, settlement: Settlement) | Clock(to: int)

  predicate Enabled(w: World, s: Step) {
    match s
    case Begin(id) => id !in w.inFlight
    case End(id, _) => id in w.inFlight
    case Clock(_) => true
  }

  function Next(cfg: Config, w: World, s: Step): World
    requires Enabled(w, s)
  {
    match s
    case Begin(id) =>
      var (c, attempt) := Asserted(cfg, w.circuit, w.now);
      w.(circuit := c,
         inFlight := if attempt.Admitted? then w.inFlight[id := Request(attempt.admission, w.now)] else w.inFlight)
    case End(id, settlement) =>
      w.(circuit := Settled(cfg, w.circuit, w.inFlight[id].admission, settlement, w.now),
         inFlight := w.inFlight - {id})
    case Clock(to) => w.(now := to)
  }

  predicate IsRun(cfg: Config, w: World, steps: seq<Step>)
    decreases |steps|
  {
    steps != [] ==> Enabled(w, steps[0]) && IsRun(cfg, Next(cfg, w, steps[0]), steps[1..])
  }

  function After(cfg: Config, w: World, steps: seq<Step>): World
    requires IsRun(cfg, w, steps)
    decreases |steps|
  {
    if steps == [] then w else After(cfg, Next(cfg, w, steps[0]), steps[1..])
  }

  // ---------- what every run keeps ----------

  ghost predicate SomeProbe(w: World) {
    exists id | id in w.inFlight :: w.inFlight[id].admission == HalfOpen
  }

  ghost predicate Inv(cfg: Config, w: World) {
    && !(w.circuit.openedAt.Some? && w.circuit.halfOpenInFlight)
    && (w.circuit.openedAt.None? && !w.circuit.halfOpenInFlight ==> w.circuit.failures < cfg.threshold)
    && (w.circuit.halfOpenInFlight ==> SomeProbe(w))
  }

  /** However a probe ends, and whoever else settled meanwhile, it gives the slot back. */
  lemma ProbeGivesSlotBack(cfg: Config, c: Circuit, s: Settlement, now: int)
    ensures !Settled(cfg, c, HalfOpen, s, now).halfOpenInFlight
    ensures forall a :: Settled(cfg, c, a, s, now).halfOpenInFlight ==> c.halfOpenInFlight && a == Closed
  {
  }

  lemma StepKeeps(cfg: Config, w: World, s: Step)
    requires Usable(cfg) && Inv(cfg, w) && Enabled(w, s)
    ensures Inv(cfg, Next(cfg, w, s))
  {
    var w' := Next(cfg, w, s);
    match s
    case Begin(id) =>
      if w'.circuit.halfOpenInFlight {
        if w.circuit.halfOpenInFlight {
          var p :| p in w.inFlight && w.inFlight[p].admission == HalfOpen;
          assert p in w'.inFlight && w'.inFlight[p].admission == HalfOpen;
        } else {
          assert id in w'.inFlight && w'.inFlight[id].admission == HalfOpen;
        }
      }
    case End(id, settlement) =>
      ProbeGivesSlotBack(cfg, w.circuit, settlement, w.now);
      if w'.circuit.halfOpenInFlight {
        var p :| p in w.inFlight && w.inFlight[p].admission == HalfOpen;
        assert p in w'.inFlight && w'.inFlight[p].admission == HalfOpen;
      }
    case Clock(_) =>
      if w'.circuit.halfOpenInFlight {
        var p :| p in w.inFlight && w.inFlight[p].admission == HalfOpen;
        assert p in w'.inFlight && w'.inFlight[p].admission == HalfOpen;
      }
  }

  lemma {:induction false} RunKeeps(cfg: Config, w: World, steps: seq<Step>)
    requires Usable(cfg) && Inv(cfg, w) && IsRun(cfg, w, steps)
    ensures Inv(cfg, After(cfg, w, steps))
    decreases |steps|
  {
    if steps != [] {
      StepKeeps(cfg, w, steps[0]);
      RunKeeps(cfg, Next(cfg, w, steps[0]), steps[1..]);
    }
  }

  /**
   In every run, with any overlap of requests and any clock: never open and half open at once;
   when neither, the failures are below the threshold; and a taken probe slot has a probe behind it.
   */
  lemma BreakerInvariant(cfg: Config, steps: seq<Step>)
    requires Usable(cfg) && IsRun(cfg, START, steps)
    ensures Inv(cfg, After(cfg, START, steps))
  {
    RunKeeps(cfg, START, steps);
  }

  // ---------- what a run counts ----------

  /** The provider failures since the last success, or permanent error of a probe, told from the steps. */
  function FailuresInARow(cfg: Config, w: World, steps: seq<Step>, n: nat): nat
    requires IsRun(cfg, w, steps)
    decreases |steps|
  {
    if steps == [] then n
    else
      var m := match steps[0]
        case End(_, ProviderFailure) => n + 1
        case End(_, Success) => 0
        case End(id, Permanent) => if w.inFlight[id].admission == HalfOpen then 0 else n
        case _ => n;
      FailuresInARow(cfg, Next(cfg, w, steps[0]), steps[1..], m)
  }

  lemma {:induction false} FailuresCounted(cfg: Config, w: World, steps: seq<Step>)
    requires IsRun(cfg, w, steps)
    ensures After(cfg, w, steps).circuit.failures == FailuresInARow(cfg, w, steps, w.circuit.failures)
    decreases |steps|
  {
    if steps != [] {
      FailuresCounted(cfg, Next(cfg, w, steps[0]), steps[1..]);
    }
  }

  predicate Open(w: World) {
    w.circuit.openedAt.Some?
  }

  /** The step is the end of a request that was admitted so. */
  predicate Ends(w: World, s: Step, a: Admission, settlement: Settlement) {
    s.End? && s.id in w.inFlight && w.inFlight[s.id].admission == a && s.settlement == settlement
  }

  /** The step brings the failures in a row to the threshold or above. */
  predicate Trips(cfg: Config, w: World, s: Step, failuresBefore: nat) {
    s.End? && s.settlement == ProviderFailure && failuresBefore + 1 >= cfg.threshold
  }

  /**
   The circuit changes by these steps and no others: it opens by a provider failure that makes the
   failures in a row reach the threshold or by a probe's cancellation, at the time of the step; it
   stops being open by a request let through after the cooldown, a success or a probe's permanent
   error; and no other request's cancellation or permanent error changes anything.
   */
  lemma CircuitSteps(cfg: Config, steps: seq<Step>, s: Step)
    requires Usable(cfg) && IsRun(cfg, START, steps) && Enabled(After(cfg, START, steps), s)
    ensures var w := After(cfg, START, steps);
            var w' := Next(cfg, w, s);
            && (!Open(w) ==>
                  (Open(w') <==> Trips(cfg, w, s, FailuresInARow(cfg, START, steps, 0)) || Ends(w, s, HalfOpen, Canceled))
                  && (Open(w') ==> w'.circuit.openedAt == Some(w.now)))
            && (Open(w) ==>
                  (!Open(w') <==>
                    || (s.Begin? && w.now - w.circuit.openedAt.value >= cfg.cooldownMs)
                    || (s.End? && s.settlement == Success)
                    || Ends(w, s, HalfOpen, Permanent)))
            && (Open(w) && Open(w') ==>
                  w'.circuit.openedAt == if Ends(w, s, HalfOpen, Canceled) then Some(w.now) else w.circuit.openedAt)
            && (Ends(w, s, Closed, Permanent) || Ends(w, s, Closed, Canceled) || s.Clock? ==> w'.circuit == w.circuit)
            && ((s.End? && s.settlement == Success) || Ends(w, s, HalfOpen, Permanent) ==> w'.circuit == CLOSED_CIRCUIT)
            && (!w.circuit.halfOpenInFlight ==>
                  (w'.circuit.halfOpenInFlight <==> s.Begin? && Open(w) && w.now - w.circuit.openedAt.value >= cfg.cooldownMs))
  {
    FailuresCounted(cfg, START, steps);
    BreakerInvariant(cfg, steps);
  }

  /** From the steps alone: how many provider failures the circuit has seen in a row. */
  lemma FailuresAreInARow(cfg: Config, steps: seq<Step>)
    requires IsRun(cfg, START, steps)
    ensures After(cfg, START, steps).circuit.failures == FailuresInARow(cfg, START, steps, 0)
  {
    FailuresCounted(cfg, START, steps);
  }

  /** Who is let through: everybody while closed, one after the cooldown, nobody else. */
  lemma LetThrough(cfg: Config, w: World, id: RequestId)
    requires id !in w.inFlight
    ensures id in Next(cfg, w, Begin(id)).inFlight <==>
              if Open(w) then w.now - w.circuit.openedAt.value >= cfg.cooldownMs else !w.circuit.halfOpenInFlight
    ensures id in Next(cfg, w, Begin(id)).inFlight ==>
              Next(cfg, w, Begin(id)).inFlight[id] == Request(if Open(w) then HalfOpen else Closed, w.now)
  {
  }

  /** A refused caller is told one second while a probe is under way, else the whole seconds left, capped. */
  lemma RetryAfterExactly(cfg: Config, c: Circuit, now: int)
    requires Asserted(cfg, c, now).1.ShortCircuited?
    ensures var s := Asserted(cfg, c, now).1.retryAfter;
            && Asserted(cfg, c, now).0 == c
            && (c.openedAt.None? ==> c.halfOpenInFlight && s == 1)
            && (c.openedAt.Some? ==>
                  var left := c.openedAt.value + cfg.cooldownMs - now;
                  && left > 0
                  && (left <= 1000 * s || s == MAX_RETRY_AFTER_SECONDS)
                  && 1000 * (s - 1) < left)
  {
  }

  /** A refused caller that waits out its Retry-After is admitted; a second less may not do. */
  lemma RetryAfterSuffices(cfg: Config, c: Circuit, now: int)
    requires c.openedAt.Some? && c.openedAt.value <= now && cfg.cooldownMs <= 1000 * MAX_RETRY_AFTER_SECONDS
    requires Asserted(cfg, c, now).1.ShortCircuited?
    ensures var s := Asserted(cfg, c, now).1.retryAfter;
            && Asserted(cfg, c, now + 1000 * s).1 == Admitted(HalfOpen)
            && (s > 1 ==> Asserted(cfg, c, now + 1000 * (s - 1)).1.ShortCircuited?)
  {
  }

  // ---------- requests that settle in time ----------

  /** Every request in flight was admitted at most `limit` ago. */
  predicate Timely(w: World, limit: nat) {
    forall id | id in w.inFlight :: w.now - w.inFlight[id].admittedAt <= limit
  }

  predicate TimedStep(cfg: Config, w: World, s: Step, limit: nat) {
    Enabled(w, s) && (s.Clock? ==> w.now <= s.to) && Timely(Next(cfg, w, s), limit)
  }

  /** A run with a monotone clock in which no request is in flight for longer than `limit`. */
  predicate IsTimedRun(cfg: Config, w: World, steps: seq<Step>, limit: nat)
    ensures IsTimedRun(cfg, w, steps, limit) ==> IsRun(cfg, w, steps)
    decreases |steps|
  {
    steps != [] ==> TimedStep(cfg, w, steps[0], limit) && IsTimedRun(cfg, Next(cfg, w, steps[0]), steps[1..], limit)
  }

  predicate AtMostOneProbe(w: World) {
    forall p, q | p in w.inFlight && q in w.inFlight ::
      w.inFlight[p].admission == HalfOpen && w.inFlight[q].admission == HalfOpen ==> p == q
  }

  /** A probe in flight has the breaker, and the provider, to itself. */
  predicate ProbeAlone(w: World) {
    forall p, q | p in w.inFlight && q in w.inFlight :: w.inFlight[p].admission == HalfOpen ==> p == q
  }

  ghost predicate TimedInv(cfg: Config, w: World, limit: nat) {
    && Inv(cfg, w)
    && Timely(w, limit)
    && (forall id | id in w.inFlight :: w.inFlight[id].admittedAt <= w.now)
    && (w.circuit.openedAt.Some? ==>
          && w.circuit.openedAt.value <= w.now
          && forall id | id in w.inFlight :: w.inFlight[id].admittedAt <= w.circuit.openedAt.value)
    && (forall p | p in w.inFlight :: w.inFlight[p].admission == HalfOpen ==> w.circuit.halfOpenInFlight)
    && (w.circuit.openedAt.Some? || w.circuit.halfOpenInFlight ==> w.circuit.failures >= cfg.threshold)
    && ProbeAlone(w)
  }

  lemma TimedBegin(cfg: Config, w: World, id: RequestId, limit: nat)
    requires Usable(cfg) && limit < cfg.cooldownMs && TimedInv(cfg, w, limit) && id !in w.inFlight
    ensures TimedInv(cfg, Next(cfg, w, Begin(id)), limit)
  {
    StepKeeps(cfg, w, Begin(id));
    // Once the cooldown has passed, a request admitted before the circuit opened is overdue.
    assert w.circuit.openedAt.Some? && w.now - w.circuit.openedAt.value >= cfg.cooldownMs ==> w.inFlight.Keys == {};
  }

  lemma TimedStepKeeps(cfg: Config, w: World, s: Step, limit: nat)
    requires Usable(cfg) && limit < cfg.cooldownMs && TimedInv(cfg, w, limit) && TimedStep(cfg, w, s, limit)
    ensures TimedInv(cfg, Next(cfg, w, s), limit)
  {
    if s.Begin? {
      TimedBegin(cfg, w, s.id, limit);
    } else {
      StepKeeps(cfg, w, s);
    }
  }

  lemma {:induction false} TimedRunKeeps(cfg: Config, w: World, steps: seq<Step>, limit: nat)
    requires Usable(cfg) && limit < cfg.cooldownMs && TimedInv(cfg, w, limit) && IsTimedRun(cfg, w, steps, limit)
    ensures TimedInv(cfg, After(cfg, w, steps), limit)
    decreases |steps|
  {
    if steps != [] {
      TimedStepKeeps(cfg, w, steps[0], limit);
      TimedRunKeeps(cfg, Next(cfg, w, steps[0]), steps[1..], limit);
    }
  }

  /** The probe is alone, and open or half open means the failures have reached the threshold. */
  lemma TimedSingleProbe(cfg: Config, steps: seq<Step>, limit: nat)
    requires Usable(cfg) && limit < cfg.cooldownMs && IsTimedRun(cfg, START, steps, limit)
    ensures var w := After(cfg, START, steps);
            && ProbeAlone(w)
            && (w.circuit.openedAt.Some? || w.circuit.halfOpenInFlight ==> w.circuit.failures >= cfg.threshold)
  {
    TimedRunKeeps(cfg, START, steps, limit);
  }

  // ---------- requests that outlive the cooldown ----------

  lemma {:induction false} AfterAppend(cfg: Config, w: World, xs: seq<Step>, ys: seq<Step>, limit: nat)
    requires IsTimedRun(cfg, w, xs, limit) && IsTimedRun(cfg, After(cfg, w, xs), ys, limit)
    ensures IsTimedRun(cfg, w, xs + ys, limit)
    ensures After(cfg, w, xs + ys) == After(cfg, After(cfg, w, xs), ys)
    decreases |xs|
  {
    if xs == [] {
      assert xs + ys == ys;
    } else {
      AfterAppend(cfg, Next(cfg, w, xs[0]), xs[1..], ys, limit);
      assert (xs + ys)[1..] == xs[1..] + ys;
    }
  }

  /** One more step at the end of a timed run. */
  lemma Extend(cfg: Config, w: World, xs: seq<Step>, s: Step, limit: nat)
    requires IsTimedRun(cfg, w, xs, limit) && TimedStep(cfg, After(cfg, w, xs), s, limit)
    ensures IsTimedRun(cfg, w, xs + [s], limit) && After(cfg, w, xs + [s]) == Next(cfg, After(cfg, w, xs), s)
  {
    assert IsTimedRun(cfg, Next(cfg, After(cfg, w, xs), s), [], limit);
    assert [s][1..] == [];
    AfterAppend(cfg, w, xs, [s], limit);
  }

  const STRAGGLER: RequestId := 0
  const PROBE: RequestId := 1
  const SECOND: RequestId := 2

  /** A request left in flight while `n` others begin and fail. */
  function Failing(n: nat): seq<Step> {
    if n == 0 then [Begin(STRAGGLER)]
    else Failing(n - 1) + [Begin(PROBE)] + [End(PROBE, ProviderFailure)]
  }

  lemma {:induction false} FailuresOpen(cfg: Config, n: nat, limit: nat)
    requires Usable(cfg) && n <= cfg.threshold
    ensures IsTimedRun(cfg, START, Failing(n), limit)
    ensures After(cfg, START, Failing(n)) ==
            World(Circuit(n, if n == cfg.threshold then Some(0) else None, false), 0,
                  map[STRAGGLER := Request(Closed, 0)])
  {
    if n == 0 {
      assert IsTimedRun(cfg, START, [], limit);
      Extend(cfg, START, [], Begin(STRAGGLER), limit);
      assert [] + [Begin(STRAGGLER)] == Failing(0);
    } else {
      FailuresOpen(cfg, n - 1, limit);
      var xs := Failing(n - 1);
      Extend(cfg, START, xs, Begin(PROBE), limit);
      var w := After(cfg, START, xs + [Begin(PROBE)]);
      assert w.inFlight - {PROBE} == map[STRAGGLER := Request(Closed, 0)];
      Extend(cfg, START, xs + [Begin(PROBE)], End(PROBE, ProviderFailure), limit);
    }
  }

  /** The circuit opened, the cooldown passed, and a probe joined the straggler. */
  function ProbeBesideStraggler(cfg: Config): seq<Step> {
    Failing(cfg.threshold) + [Clock(cfg.cooldownMs)] + [Begin(PROBE)]
  }

  lemma ProbeJoinsStraggler(cfg: Config, limit: nat)
    requires Usable(cfg) && limit >= cfg.cooldownMs
    ensures IsTimedRun(cfg, START, ProbeBesideStraggler(cfg), limit)
    ensures After(cfg, START, ProbeBesideStraggler(cfg)) ==
            World(Circuit(cfg.threshold, None, true), cfg.cooldownMs,
                  map[STRAGGLER := Request(Closed, 0), PROBE := Request(HalfOpen, cfg.cooldownMs)])
  {
    FailuresOpen(cfg, cfg.threshold, limit);
    var xs := Failing(cfg.threshold);
    Extend(cfg, START, xs, Clock(cfg.cooldownMs), limit);
    Extend(cfg, START, xs + [Clock(cfg.cooldownMs)], Begin(PROBE), limit);
  }

  /** The straggler fails, which clears the probe's flag; a cooldown later a second probe starts. */
  function TwoProbes(cfg: Config): seq<Step> {
    ProbeBesideStraggler(cfg) + [End(STRAGGLER, ProviderFailure)] + [Clock(2 * cfg.cooldownMs)] + [Begin(SECOND)]
  }

  lemma TwoProbesInFlight(cfg: Config, limit: nat)
    requires Usable(cfg) && limit >= cfg.cooldownMs
    ensures IsTimedRun(cfg, START, TwoProbes(cfg), limit)
    ensures !AtMostOneProbe(After(cfg, START, TwoProbes(cfg)))
  {
    ProbeJoinsStraggler(cfg, limit);
    var xs := ProbeBesideStraggler(cfg);
    var c := cfg.cooldownMs;
    Extend(cfg, START, xs, End(STRAGGLER, ProviderFailure), limit);
    var ys := xs + [End(STRAGGLER, ProviderFailure)];
    assert After(cfg, START, ys).inFlight == map[PROBE := Request(HalfOpen, c)];
    Extend(cfg, START, ys, Clock(2 * c), limit);
    Extend(cfg, START, ys + [Clock(2 * c)], Begin(SECOND), limit);
    var w := After(cfg, START, TwoProbes(cfg));
    assert w.inFlight[PROBE].admission == HalfOpen && w.inFlight[SECOND].admission == HalfOpen;
  }

  ghost predicate NeverTwoProbes(cfg: Config, limit: nat) {
    forall steps :: IsTimedRun(cfg, START, steps, limit) ==> AtMostOneProbe(After(cfg, START, steps))
  }

  /**
   "Recovery admits one half-open probe at a time" holds exactly when no request can stay in
   flight for as long as the cooldown.
   */
  lemma OneProbeExactly(cfg: Config, limit: nat)
    requires Usable(cfg)
    ensures NeverTwoProbes(cfg, limit) <==> limit < cfg.cooldownMs
  {
    if limit < cfg.cooldownMs {
      forall steps | IsTimedRun(cfg, START, steps, limit) ensures AtMostOneProbe(After(cfg, START, steps)) {
        TimedSingleProbe(cfg, steps, limit);
      }
    } else {
      TwoProbesInFlight(cfg, limit);
    }
  }

  /** After a straggler's success and the probe's cancellation the circuit is open with no failures. */
  function OpenWithoutFailures(cfg: Config): seq<Step> {
    ProbeBesideStraggler(cfg) + [End(STRAGGLER, Success)] + [End(PROBE, Canceled)]
  }

  lemma CanceledProbeOpensEmpty(cfg: Config, limit: nat)
    requires Usable(cfg) && limit >= cfg.cooldownMs
    ensures IsTimedRun(cfg, START, OpenWithoutFailures(cfg), limit)
    ensures After(cfg, START, OpenWithoutFailures(cfg)) ==
            World(Circuit(0, Some(cfg.cooldownMs), false), cfg.cooldownMs, map[])
  {
    ProbeJoinsStraggler(cfg, limit);
    var xs := ProbeBesideStraggler(cfg);
    var c := cfg.cooldownMs;
    Extend(cfg, START, xs, End(STRAGGLER, Success), limit);
    var ys := xs + [End(STRAGGLER, Success)];
    assert After(cfg, START, ys).inFlight == map[PROBE := Request(HalfOpen, c)];
    Extend(cfg, START, ys, End(PROBE, Canceled), limit);
    assert After(cfg, START, ys + [End(PROBE, Canceled)]).inFlight == map[];
  }

  /** Whatever else has settled meanwhile, the failure of a probe leaves the circuit open. */
  ghost predicate ProbeFailureReopens(cfg: Config, limit: nat) {
    forall steps, id | IsTimedRun(cfg, START, steps, limit) ::
      var w := After(cfg, START, steps);
      id in w.inFlight && w.inFlight[id].admission == HalfOpen
      ==> Next(cfg, w, End(id, ProviderFailure)).circuit.openedAt.Some?
  }

  lemma LateProbeDoesNotReopen(cfg: Config, limit: nat) returns (steps: seq<Step>)
    requires Usable(cfg) && limit >= cfg.cooldownMs && cfg.threshold >= 2
    ensures IsTimedRun(cfg, START, steps, limit)
    ensures var w := After(cfg, START, steps);
            && PROBE in w.inFlight && w.inFlight[PROBE].admission == HalfOpen && w.circuit.halfOpenInFlight
            && Next(cfg, w, End(PROBE, ProviderFailure)).circuit.openedAt.None?
  {
    CanceledProbeOpensEmpty(cfg, limit);
    var xs, tick := OpenWithoutFailures(cfg), Clock(2 * cfg.cooldownMs);
    Extend(cfg, START, xs, tick, limit);
    Extend(cfg, START, xs + [tick], Begin(PROBE), limit);
    steps := xs + [tick] + [Begin(PROBE)];
  }

  /** A failing probe always reopens the circuit exactly when requests are shorter than the cooldown
      or a single failure is enough to open it. */
  lemma ReopensExactly(cfg: Config, limit: nat)
    requires Usable(cfg)
    ensures ProbeFailureReopens(cfg, limit) <==> limit < cfg.cooldownMs || cfg.threshold == 1
  {
    if limit < cfg.cooldownMs || cfg.threshold == 1 {
      forall steps, id | IsTimedRun(cfg, START, steps, limit)
        ensures var w := After(cfg, START, steps);
                id in w.inFlight && w.inFlight[id].admission == HalfOpen
                ==> Next(cfg, w, End(id, ProviderFailure)).circuit.openedAt.Some?
      {
        if limit < cfg.cooldownMs {
          TimedRunKeeps(cfg, START, steps, limit);
        }
      }
    } else {
      var steps := LateProbeDoesNotReopen(cfg, limit);
      assert !(PROBE in After(cfg, START, steps).inFlight ==>
               Next(cfg, After(cfg, START, steps), End(PROBE, ProviderFailure)).circuit.openedAt.Some?);
    }
  }

  // ---------- the defaults ----------

  const DEFAULT_CONFIG := Config(3, 30_000)
  const DEFAULT_TOTAL_TIMEOUT_MS := 60_000

  /** A search may take a minute by default, twice the default cooldown: neither promise is kept. */
  lemma DefaultsKeepNeither()
    ensures !NeverTwoProbes(DEFAULT_CONFIG, DEFAULT_TOTAL_TIMEOUT_MS)
    ensures !ProbeFailureReopens(DEFAULT_CONFIG, DEFAULT_TOTAL_TIMEOUT_MS)
  {
    OneProbeExactly(DEFAULT_CONFIG, DEFAULT_TOTAL_TIMEOUT_MS);
    ReopensExactly(DEFAULT_CONFIG, DEFAULT_TOTAL_TIMEOUT_MS);
  }
}
