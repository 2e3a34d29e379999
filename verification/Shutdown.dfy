/**
 createShutdownHandler of src/runtime/shutdown.ts.  The closure's variables are the fields of
 a class; what the world can do to it (signals, close callbacks, the timer, the end of
 cleanup) are the steps of a run.  The fields of `Seen` record what the handler did outside.
 */
module Shutdown {
  import opened Common

  /** Calls the handler has made: exits with their codes, cleanup starts, reports, aborts. */
  datatype Seen = Seen(exits: seq<int>, cleanups: nat, forcedReports: nat, closeErrors: nat, closedReports: nat,
                       repeats: nat, aborted: bool)

  datatype Vars = Vars(started: bool, finalized: bool, cleanupStarted: bool, cleanupCompleted: bool,
                       forced: bool, timerArmed: bool, exitCode: Option<int>, seen: Seen)

  const INITIAL := Vars(false, false, false, false, false, false, None, Seen([], 0, 0, 0, 0, 0, false))

  /** What server.close did: the callbacks it made at once (true: with an error), and whether it threw. */
  datatype CloseCall = CloseCall(callbacks: seq<bool>, throws: bool)

  // ---------- the handler's parts as functions ----------

  function StartedCleanup(v: Vars, code: Option<int>): Vars {
    if v.cleanupStarted then v
    else v.(cleanupStarted := true, exitCode := code, seen := v.seen.(cleanups := v.seen.cleanups + 1))
  }

  function SettledCleanup(v: Vars): Vars {
    var w := v.(cleanupCompleted := true, timerArmed := false);
    if v.exitCode.Some? && !v.forced then w.(seen := v.seen.(exits := v.seen.exits + [v.exitCode.value])) else w
  }

  function ForcedExit(v: Vars): Vars {
    var w := v.(timerArmed := false);
    if v.forced || v.cleanupCompleted then w
    else
      var x := StartedCleanup(
        w.(forced := true, finalized := true,
           seen := v.seen.(aborted := true, forcedReports := v.seen.forcedReports + 1)), None);
      x.(seen := x.seen.(exits := x.seen.exits + [1]))
  }

  function Finished(v: Vars, error: bool): Vars {
    if v.finalized then v
    else if error then
      StartedCleanup(v.(finalized := true, seen := v.seen.(closeErrors := v.seen.closeErrors + 1)), Some(1))
    else
      StartedCleanup(v.(finalized := true, seen := v.seen.(closedReports := v.seen.closedReports + 1)), Some(0))
  }

  function FinishedAll(v: Vars, callbacks: seq<bool>): Vars
    decreases |callbacks|
  {
    if callbacks == [] then v else FinishedAll(Finished(v, callbacks[0]), callbacks[1..])
  }

  function Signaled(v: Vars, close: CloseCall): Vars {
    if v.started then v.(seen := v.seen.(repeats := v.seen.repeats + 1))
    else
      var w := FinishedAll(v.(started := true, timerArmed := true), close.callbacks);
      if close.throws then Finished(w, true) else w
  }

  // ---------- the handler ----------

  class ShutdownHandler {
    var started: bool
    var finalized: bool
    var cleanupStarted: bool
    var cleanupCompleted: bool
    var forced: bool
    var timerArmed: bool
    var exitCode: Option<int>
    var seen: Seen

    function View(): Vars
      reads this
    {
      Vars(started, finalized, cleanupStarted, cleanupCompleted, forced, timerArmed, exitCode, seen)
    }

    constructor ()
      ensures View() == INITIAL
    {
      started, finalized, cleanupStarted, cleanupCompleted := false, false, false, false;
      forced, timerArmed, exitCode, seen := false, false, None, Seen([], 0, 0, 0, 0, 0, false);
    }

    method Exit(code: int)
      modifies this`seen
      ensures View() == old(View()).(seen := old(seen).(exits := old(seen).exits + [code]))
    {
      seen := seen.(exits := seen.exits + [code]);
    }

    method StartCleanup(code: Option<int>)
      modifies this
      ensures View() == StartedCleanup(old(View()), code)
    {
      if cleanupStarted {
        return;
      }
      cleanupStarted := true;
      exitCode := code;
      seen := seen.(cleanups := seen.cleanups + 1);
    }

    /** The `finally` behind the cleanup promise. */
    method CleanupSettled()
      modifies this
      ensures View() == SettledCleanup(old(View()))
    {
      cleanupCompleted := true;
      timerArmed := false;
      if exitCode.Some? && !forced {
        Exit(exitCode.value);
      }
    }

    method ForceExit()
      modifies this
      ensures View() == ForcedExit(old(View()))
    {
      timerArmed := false;
      if forced || cleanupCompleted {
        return;
      }
      forced := true;
      finalized := true;
      seen := seen.(aborted := true);
      seen := seen.(forcedReports := seen.forcedReports + 1);
      StartCleanup(None);
      Exit(1);
    }

    method Finish(error: bool)
      modifies this
      ensures View() == Finished(old(View()), error)
    {
      if finalized {
        return;
      }
      finalized := true;
      if error {
        seen := seen.(closeErrors := seen.closeErrors + 1);
        StartCleanup(Some(1));
        return;
      }
      seen := seen.(closedReports := seen.closedReports + 1);
      StartCleanup(Some(0));
    }

    method Signal(close: CloseCall)
      modifies this
      ensures View() == Signaled(old(View()), close)
    {
      if started {
        seen := seen.(repeats := seen.repeats + 1);
        return;
      }
      started := true;
      timerArmed := true;
      ghost var armed := View();
      var i := 0;
      while i < |close.callbacks|
        invariant i <= |close.callbacks|
        invariant FinishedAll(View(), close.callbacks[i..]) == FinishedAll(armed, close.callbacks)
      {
        Finish(close.callbacks[i]);
        assert close.callbacks[i..][1..] == close.callbacks[i + 1..];
        i := i + 1;
      }
      if close.throws {
        Finish(true);
      }
    }
  }

  // ---------- runs ----------

  datatype Step = Signal(close: CloseCall) | CloseCallback(error: bool) | TimerFires | CleanupSettles

  predicate Enabled(v: Vars, s: Step) {
    match s
    case Signal(_) => true
    case CloseCallback(_) => v.started
    case TimerFires => v.timerArmed
    case CleanupSettles => v.cleanupStarted && !v.cleanupCompleted
  }

  function Next(v: Vars, s: Step): Vars {
    match s
    case Signal(close) => Signaled(v, close)
    case CloseCallback(error) => Finished(v, error)
    case TimerFires => ForcedExit(v)
    case CleanupSettles => SettledCleanup(v)
  }

  predicate IsRun(v: Vars, steps: seq<Step>)
    decreases |steps|
  {
    steps != [] ==> Enabled(v, steps[0]) && IsRun(Next(v, steps[0]), steps[1..])
  }

  function After(v: Vars, steps: seq<Step>): Vars
    decreases |steps|
  {
    if steps == [] then v else After(Next(v, steps[0]), steps[1..])
  }

  /** The exit code that the first close callback decided, if one came in time. */
  function CloseCode(seen: Seen): Option<int> {
    if seen.closeErrors + seen.closedReports == 1 then Some(seen.closeErrors) else None
  }

  ghost predicate Inv(v: Vars) {
    && v.seen.exits == (if v.forced then [1] else if v.cleanupCompleted then [v.seen.closeErrors] else [])
    && v.seen.cleanups == (if v.cleanupStarted then 1 else 0)
    && v.cleanupStarted == v.finalized
    && (v.finalized || v.timerArmed ==> v.started)
    && (v.cleanupCompleted ==> v.cleanupStarted && !v.timerArmed)
    && (v.forced ==> v.finalized && !v.timerArmed)
    && (v.started ==> v.timerArmed || v.forced || v.cleanupCompleted)
    && v.seen.closeErrors + v.seen.closedReports <= 1
    && (v.finalized ==> v.seen.closeErrors + v.seen.closedReports == 1 || v.forced)
    && (!v.finalized ==> v.seen.closeErrors + v.seen.closedReports == 0 && v.exitCode == None)
    && (v.finalized ==> v.exitCode == CloseCode(v.seen))
    && v.seen.forcedReports == (if v.forced then 1 else 0)
    && v.seen.aborted == v.forced
  }

  lemma FinishedKeeps(v: Vars, error: bool)
    requires Inv(v) && v.started
    ensures Inv(Finished(v, error)) && Finished(v, error).started
  {
  }

  lemma {:induction false} FinishedAllKeeps(v: Vars, callbacks: seq<bool>)
    requires Inv(v) && v.started
    ensures Inv(FinishedAll(v, callbacks)) && FinishedAll(v, callbacks).started
    decreases |callbacks|
  {
    if callbacks != [] {
      FinishedKeeps(v, callbacks[0]);
      FinishedAllKeeps(Finished(v, callbacks[0]), callbacks[1..]);
    }
  }

  lemma StepKeeps(v: Vars, s: Step)
    requires Inv(v) && Enabled(v, s)
    ensures Inv(Next(v, s))
  {
    match s
    case Signal(close) =>
      if !v.started {
        var armed := v.(started := true, timerArmed := true);
        FinishedAllKeeps(armed, close.callbacks);
        FinishedKeeps(FinishedAll(armed, close.callbacks), true);
      }
    case CloseCallback(error) => FinishedKeeps(v, error);
    case _ =>
  }

  lemma {:induction false} RunKeeps(v: Vars, steps: seq<Step>)
    requires Inv(v) && IsRun(v, steps)
    ensures Inv(After(v, steps))
    decreases |steps|
  {
    if steps != [] {
      StepKeeps(v, steps[0]);
      RunKeeps(Next(v, steps[0]), steps[1..]);
    }
  }

  /** Whatever happens and in whatever order: one cleanup and one exit at most, with a telling code. */
  lemma AtMostOnce(steps: seq<Step>)
    requires IsRun(INITIAL, steps)
    ensures var v := After(INITIAL, steps);
            && v.seen.cleanups <= 1 && |v.seen.exits| <= 1
            && (forall c | c in v.seen.exits :: c == 0 || c == 1)
            && (v.seen.exits != [] ==>
                  (v.seen.exits[0] == 1 <==> v.seen.forcedReports == 1 || v.seen.closeErrors == 1))
            && (v.seen.aborted <==> v.seen.forcedReports == 1)
  {
    RunKeeps(INITIAL, steps);
  }

  /** Nothing the handler waits for is left: the timer is spent and no cleanup is running. */
  predicate AtRest(v: Vars) {
    !Enabled(v, TimerFires) && !Enabled(v, CleanupSettles)
  }

  /** A started shutdown that has come to rest has exited exactly once and cleaned up exactly once. */
  lemma ExitsWhenAtRest(steps: seq<Step>)
    requires IsRun(INITIAL, steps) && After(INITIAL, steps).started && AtRest(After(INITIAL, steps))
    ensures |After(INITIAL, steps).seen.exits| == 1 && After(INITIAL, steps).seen.cleanups == 1
  {
    RunKeeps(INITIAL, steps);
  }

  /** How many internal steps can still happen. */
  function Outstanding(v: Vars): nat {
    (if v.timerArmed then 1 else 0) + (if v.cleanupCompleted then 0 else 1)
  }

  predicate Internal(s: Step) {
    s.TimerFires? || s.CleanupSettles?
  }

  function InternalSteps(steps: seq<Step>): nat {
    if steps == [] then 0 else InternalSteps(steps[1..]) + if Internal(steps[0]) then 1 else 0
  }

  /** Signals and late callbacks never add to what is outstanding, once started. */
  lemma RestApproaches(v: Vars, s: Step)
    requires Inv(v) && Enabled(v, s)
    ensures var most := Outstanding(v) + if v.started then 0 else 1;
            Outstanding(Next(v, s)) + (if Next(v, s).started then 0 else 1) <= if Internal(s) then most - 1 else most
  {
    if s.Signal? && !v.started {
      var armed := v.(started := true, timerArmed := true);
      FinishedAllShape(armed, s.close.callbacks);
    }
  }

  lemma {:induction false} FinishedAllShape(v: Vars, callbacks: seq<bool>)
    ensures var w := FinishedAll(v, callbacks);
            w.timerArmed == v.timerArmed && w.cleanupCompleted == v.cleanupCompleted && w.started == v.started
    decreases |callbacks|
  {
    if callbacks != [] {
      FinishedAllShape(Finished(v, callbacks[0]), callbacks[1..]);
    }
  }

  lemma {:induction false} InternalStepsBounded(v: Vars, steps: seq<Step>)
    requires Inv(v) && IsRun(v, steps)
    ensures InternalSteps(steps) <= Outstanding(v) + if v.started then 0 else 1
    decreases |steps|
  {
    if steps != [] {
      StepKeeps(v, steps[0]);
      RestApproaches(v, steps[0]);
      InternalStepsBounded(Next(v, steps[0]), steps[1..]);
    }
  }

  /**
   However often it is signaled, the timer and cleanup take at most two steps in any run, and a
   started shutdown that has not exited always has one of them left to take.
   */
  lemma RestIsReached(steps: seq<Step>)
    requires IsRun(INITIAL, steps)
    ensures InternalSteps(steps) <= 2
    ensures var v := After(INITIAL, steps);
            v.started && v.seen.exits == [] ==> exists s | Internal(s) :: Enabled(v, s)
  {
    InternalStepsBounded(INITIAL, steps);
    RunKeeps(INITIAL, steps);
    var v := After(INITIAL, steps);
    if v.started && v.seen.exits == [] {
      assert Internal(TimerFires) && Internal(CleanupSettles);
      assert Enabled(v, TimerFires) || Enabled(v, CleanupSettles);
    }
  }

  function SignalsIn(steps: seq<Step>): nat {
    if steps == [] then 0 else SignalsIn(steps[1..]) + if steps[0].Signal? then 1 else 0
  }

  lemma {:induction false} RepeatsFrom(v: Vars, steps: seq<Step>)
    requires Inv(v) && IsRun(v, steps)
    ensures After(v, steps).started == (v.started || SignalsIn(steps) > 0)
    ensures After(v, steps).seen.repeats
            == v.seen.repeats + SignalsIn(steps) - if !v.started && SignalsIn(steps) > 0 then 1 else 0
    decreases |steps|
  {
    if steps != [] {
      StepKeeps(v, steps[0]);
      if steps[0].Signal? && !v.started {
        var armed := v.(started := true, timerArmed := true);
        RepeatsUntouched(armed, steps[0].close.callbacks);
      }
      RepeatsFrom(Next(v, steps[0]), steps[1..]);
    }
  }

  lemma {:induction false} RepeatsUntouched(v: Vars, callbacks: seq<bool>)
    ensures FinishedAll(v, callbacks).seen.repeats == v.seen.repeats && FinishedAll(v, callbacks).started == v.started
    decreases |callbacks|
  {
    if callbacks != [] {
      RepeatsUntouched(Finished(v, callbacks[0]), callbacks[1..]);
    }
  }

  /** Every signal but the first is reported as a repeat. */
  lemma RepeatsCounted(steps: seq<Step>)
    requires IsRun(INITIAL, steps)
    ensures var signals := SignalsIn(steps);
            After(INITIAL, steps).seen.repeats == if signals > 0 then signals - 1 else 0
  {
    RepeatsFrom(INITIAL, steps);
  }

  // ---------- an independent judge ----------

  /** What an onlooker who sees only the steps expects: the first close outcome, then the exit. */
  datatype Verdict = Idle | Draining | Cleaning(error: bool) | Exited(code: int)

  function Judged(j: Verdict, s: Step): Verdict {
    match (j, s)
    case (Idle, Signal(close)) =>
      if close.callbacks != [] then Cleaning(close.callbacks[0])
      else if close.throws then Cleaning(true)
      else Draining
    case (Draining, CloseCallback(error)) => Cleaning(error)
    case (Draining, TimerFires) => Exited(1)
    case (Cleaning(_), TimerFires) => Exited(1)
    case (Cleaning(error), CleanupSettles) => Exited(if error then 1 else 0)
    case _ => j
  }

  function JudgedRun(j: Verdict, steps: seq<Step>): Verdict
    decreases |steps|
  {
    if steps == [] then j else JudgedRun(Judged(j, steps[0]), steps[1..])
  }

  ghost predicate Agrees(v: Vars, j: Verdict) {
    match j
    case Idle => v == INITIAL
    case Draining => v.started && !v.finalized
    case Cleaning(error) =>
      v.finalized && !v.forced && !v.cleanupCompleted && v.exitCode == Some(if error then 1 else 0)
    case Exited(code) => (v.forced || v.cleanupCompleted) && v.seen.exits == [code]
  }

  lemma {:induction false} LateCallbacks(v: Vars, callbacks: seq<bool>)
    requires v.finalized
    ensures FinishedAll(v, callbacks) == v
    decreases |callbacks|
  {
    if callbacks != [] {
      LateCallbacks(v, callbacks[1..]);
    }
  }

  lemma JudgeStep(v: Vars, j: Verdict, s: Step)
    requires Inv(v) && Agrees(v, j) && Enabled(v, s)
    ensures Agrees(Next(v, s), Judged(j, s))
  {
    if j.Idle? && s.Signal? && s.close.callbacks != [] {
      var armed := v.(started := true, timerArmed := true);
      LateCallbacks(Finished(armed, s.close.callbacks[0]), s.close.callbacks[1..]);
    }
  }

  lemma {:induction false} RunAgrees(v: Vars, j: Verdict, steps: seq<Step>)
    requires Inv(v) && Agrees(v, j) && IsRun(v, steps)
    ensures Inv(After(v, steps)) && Agrees(After(v, steps), JudgedRun(j, steps))
    decreases |steps|
  {
    if steps != [] {
      JudgeStep(v, j, steps[0]);
      StepKeeps(v, steps[0]);
      RunAgrees(Next(v, steps[0]), Judged(j, steps[0]), steps[1..]);
    }
  }

  /**
   The exit calls of any run are the ones the onlooker expects: the first close outcome decides
   the code, unless the timer fires before that outcome's cleanup is over.
   */
  lemma ExitsAsJudged(steps: seq<Step>)
    requires IsRun(INITIAL, steps)
    ensures After(INITIAL, steps).seen.exits
            == match JudgedRun(Idle, steps) { case Exited(code) => [code] case _ => [] }
  {
    RunAgrees(INITIAL, Idle, steps);
  }
}
