/**
 One call of coordinateCacheMiss in src/cache/coordinator.ts: the phases it goes through, as a
 function of what comes back to it, and the polling loop that follows them.
 */
module Coordinator {
  import opened Common

  /** How a call ends: `Loaded` and `Failed` are the two ends of a load. */
  datatype Exit = Canceled | SharedCache | Loaded | Failed

  datatype Phase =
    | Ready
    | Acquiring
    | Rechecking
    | Loading(coordinated: bool)
    | Releasing(exit: Exit)
    | Polling
    | Deciding
    | Sleeping
    | Exited(exit: Exit)

  /** What a call is told; `aborted` is its signal when it looks. */
  datatype Event =
    | Begin(aborted: bool)
    | AcquireAnswer(acquired: bool, aborted: bool)
    | AcquireError(aborted: bool)
    | ReadAnswer(found: bool, aborted: bool)
    | ReadError(aborted: bool)
    | TimeLeft(left: bool, aborted: bool)
    | Wake(aborted: bool)
    | LoadEnds(ok: bool)
    | ReleaseEnds

  /** The next phase, or none if the event does not belong to the phase. */
  function Advance(p: Phase, ev: Event): Option<Phase> {
    match (p, ev)
    case (Ready, Begin(aborted)) => Some(if aborted then Exited(Canceled) else Acquiring)
    case (Acquiring, AcquireAnswer(acquired, aborted)) =>
      Some(if aborted then Exited(Canceled) else if acquired then Rechecking else Polling)
    case (Acquiring, AcquireError(aborted)) => Some(if aborted then Exited(Canceled) else Loading(false))
    case (Rechecking, ReadAnswer(found, aborted)) =>
      Some(if aborted then Releasing(Canceled) else if found then Releasing(SharedCache) else Loading(true))
    case (Rechecking, ReadError(aborted)) => Some(if aborted then Releasing(Canceled) else Loading(true))
    case (Polling, ReadAnswer(found, aborted)) =>
      Some(if aborted then Exited(Canceled) else if found then Exited(SharedCache) else Deciding)
    case (Polling, ReadError(aborted)) => Some(if aborted then Exited(Canceled) else Loading(false))
    case (Deciding, TimeLeft(left, aborted)) =>
      Some(if !left then Loading(false) else if aborted then Exited(Canceled) else Sleeping)
    case (Sleeping, Wake(aborted)) => Some(if aborted then Exited(Canceled) else Ready)
    case (Loading(coordinated), LoadEnds(ok)) =>
      var exit := if ok then Loaded else Failed;
      Some(if coordinated then Releasing(exit) else Exited(exit))
    case (Releasing(exit), ReleaseEnds) => Some(Exited(exit))
    case _ => None
  }

  /** The phase after a history of events, newest last. */
  function Reached(log: seq<Event>): Option<Phase> {
    if log == [] then Some(Ready)
    else
      match Reached(log[..|log| - 1])
      case None => None
      case Some(p) => Advance(p, log[|log| - 1])
  }

  // ---------- what a history holds ----------

  /** How often the history starts a load. */
  function Loads(log: seq<Event>): nat {
    if log == [] then 0
    else Loads(log[..|log| - 1]) + if Reached(log).Some? && Reached(log).value.Loading? then 1 else 0
  }

  /** How often it sends a release. */
  function Releases(log: seq<Event>): nat {
    if log == [] then 0
    else Releases(log[..|log| - 1]) + if Reached(log).Some? && Reached(log).value.Releasing? then 1 else 0
  }

  /** How often it is told that it has the lease while its signal is clear. */
  function Acquisitions(log: seq<Event>): nat {
    if log == [] then 0
    else Acquisitions(log[..|log| - 1]) + if log[|log| - 1] == AcquireAnswer(true, false) then 1 else 0
  }

  function Attempts(log: seq<Event>): nat {
    if log == [] then 0
    else Attempts(log[..|log| - 1]) + if log[|log| - 1] == Begin(false) then 1 else 0
  }

  /** The counts that go with a phase. */
  ghost predicate Tallied(p: Phase, loads: nat, releases: nat, acquisitions: nat) {
    match p
    case Rechecking => loads == 0 && releases == 0 && acquisitions == 1
    case Loading(coordinated) => loads == 1 && releases == 0 && acquisitions == if coordinated then 1 else 0
    case Releasing(exit) => releases == 1 && acquisitions == 1 && loads == LoadsOf(exit)
    case Exited(exit) => releases == acquisitions <= 1 && loads == LoadsOf(exit)
    case _ => loads == 0 && releases == 0 && acquisitions == 0
  }

  function LoadsOf(exit: Exit): nat {
    if exit == Loaded || exit == Failed then 1 else 0
  }

  lemma {:induction false} HistoryTallied(log: seq<Event>)
    requires Reached(log).Some?
    ensures Tallied(Reached(log).value, Loads(log), Releases(log), Acquisitions(log))
  {
    if log != [] {
      HistoryTallied(log[..|log| - 1]);
    }
  }

  /**
   Over every history that ends a call: it loaded once if its result is a load's and not at all
   if it was canceled or found a shared value, and it sent exactly one release if, with a clear
   signal, it was told it had the lease, and none otherwise.
   */
  lemma CallAccounting(log: seq<Event>, exit: Exit)
    requires Reached(log) == Some(Exited(exit))
    ensures Loads(log) == if exit == Loaded || exit == Failed then 1 else 0
    ensures Releases(log) == Acquisitions(log) <= 1
  {
    HistoryTallied(log);
  }

  lemma {:induction false} Prefix(log: seq<Event>, n: nat)
    requires n <= |log| && Reached(log).Some?
    ensures Reached(log[..n]).Some? && Acquisitions(log[..n]) <= Acquisitions(log)
    ensures n < |log| ==> !Reached(log[..n]).value.Exited?
  {
    if n == |log| {
      assert log[..n] == log;
    } else {
      var front := log[..|log| - 1];
      Prefix(front, n);
      assert front[..n] == log[..n];
      if n == |log| - 1 {
        assert log[..n] == front;
      }
    }
  }

  /**
   An ended call that was told it has the lease leaves without a release exactly if its signal had
   fired by then; that answer was then its end, and it loaded nothing.
   */
  lemma LeaseLeftBehind(log: seq<Event>, exit: Exit, i: nat, aborted: bool)
    requires Reached(log) == Some(Exited(exit))
    requires i < |log| && log[i] == AcquireAnswer(true, aborted)
    ensures Releases(log) == 0 <==> aborted
    ensures aborted ==> i == |log| - 1 && exit == Canceled && Loads(log) == 0
  {
    HistoryTallied(log);
    Prefix(log, i);
    Prefix(log, i + 1);
    HistoryTallied(log[..i]);
    assert log[..i + 1][..i] == log[..i];
    assert log[..i + 1][i] == log[i];
    if aborted {
      assert log[..i + 1] == log;
    }
  }

  // ---------- a call by its events alone ----------

  /** The signal cut the call short when it looked; at the deadline it does not look. */
  predicate Cuts(ev: Event) {
    match ev
    case LoadEnds(_) => false
    case ReleaseEnds => false
    case TimeLeft(left, aborted) => left && aborted
    case _ => ev.aborted
  }

  /** What may come directly behind `a`, when the call does or does not hold the lease. */
  predicate MayFollow(held: bool, a: Event, b: Event) {
    match a
    case Begin(_) => !Cuts(a) && (b.AcquireAnswer? || b.AcquireError?)
    case AcquireAnswer(_, _) => !Cuts(a) && (b.ReadAnswer? || b.ReadError?)
    case AcquireError(_) => !Cuts(a) && b.LoadEnds?
    case ReadAnswer(found, _) =>
      if held then if Cuts(a) || found then b.ReleaseEnds? else b.LoadEnds?
      else !Cuts(a) && !found && b.TimeLeft?
    case ReadError(_) =>
      if held && Cuts(a) then b.ReleaseEnds? else !Cuts(a) && b.LoadEnds?
    case TimeLeft(left, _) => if left then !Cuts(a) && b.Wake? else b.LoadEnds?
    case Wake(_) => !Cuts(a) && b.Begin?
    case LoadEnds(_) => held && b.ReleaseEnds?
    case ReleaseEnds => false
  }

  predicate HasLease(log: seq<Event>) {
    AcquireAnswer(true, false) in log
  }

  predicate CallHistory(log: seq<Event>) {
    && (log != [] ==> log[0].Begin?)
    && forall i :: 0 < i < |log| ==> MayFollow(HasLease(log[..i]), log[i - 1], log[i])
  }

  /** The phase that goes with the last event. */
  ghost predicate Fitting(p: Phase, held: bool, a: Event) {
    match p
    case Ready => a == Wake(false) && !held
    case Acquiring => a == Begin(false) && !held
    case Rechecking => a == AcquireAnswer(true, false) && held
    case Polling => a == AcquireAnswer(false, false) && !held
    case Deciding => a == ReadAnswer(false, false) && !held
    case Sleeping => a == TimeLeft(true, false) && !held
    case Loading(coordinated) =>
      held == coordinated
      && (a == ReadError(false)
          || if held then a == ReadAnswer(false, false) else a == AcquireError(false) || (a.TimeLeft? && !a.left))
    case Releasing(_) => held && (a.LoadEnds? || a == ReadAnswer(true, false) || ((a.ReadAnswer? || a.ReadError?) && Cuts(a)))
    case Exited(_) =>
      if held then a.ReleaseEnds?
      else Cuts(a) || a.LoadEnds? || a == ReadAnswer(true, false)
  }

  lemma FittingStep(log: seq<Event>, p: Phase, ev: Event)
    requires if log == [] then p == Ready else Fitting(p, HasLease(log), log[|log| - 1])
    ensures Advance(p, ev).Some? <==> if log == [] then ev.Begin? else MayFollow(HasLease(log), log[|log| - 1], ev)
    ensures Advance(p, ev).Some? ==> Fitting(Advance(p, ev).value, HasLease(log + [ev]), ev)
  {
    assert HasLease(log + [ev]) == (HasLease(log) || ev == AcquireAnswer(true, false));
  }

  lemma {:induction false} HistoryFits(log: seq<Event>)
    requires Reached(log).Some? && log != []
    ensures Fitting(Reached(log).value, HasLease(log), log[|log| - 1])
  {
    var n := |log| - 1;
    if n > 0 {
      HistoryFits(log[..n]);
    }
    FittingStep(log[..n], Reached(log[..n]).value, log[n]);
    assert log[..n] + [log[n]] == log;
  }

  lemma CallHistoryGrows(log: seq<Event>)
    requires log != []
    ensures var n := |log| - 1;
            CallHistory(log) <==>
              && CallHistory(log[..n])
              && if n == 0 then log[0].Begin? else MayFollow(HasLease(log[..n]), log[n - 1], log[n])
  {
    var front := log[..|log| - 1];
    assert forall i :: 0 < i < |front| ==> front[..i] == log[..i];
  }

  /** The histories of calls are exactly the sequences whose neighbours may follow each other. */
  lemma {:induction false} HistoriesExactly(log: seq<Event>)
    ensures Reached(log).Some? <==> CallHistory(log)
  {
    if log != [] {
      var n := |log| - 1;
      var front := log[..n];
      HistoriesExactly(front);
      CallHistoryGrows(log);
      if Reached(front).Some? {
        if n > 0 {
          HistoryFits(front);
        }
        FittingStep(front, Reached(front).value, log[n]);
      }
    }
  }

  /** The event shows an outcome: a value found, a load's end, or a cut. */
  predicate Shows(ev: Event, exit: Exit) {
    match exit
    case SharedCache => ev == ReadAnswer(true, false)
    case Loaded => ev == LoadEnds(true)
    case Failed => ev == LoadEnds(false)
    case Canceled => Cuts(ev)
  }

  predicate Says(log: seq<Event>, exit: Exit) {
    exists ev | ev in log :: Shows(ev, exit)
  }

  function OutcomeOf(p: Phase): Option<Exit> {
    match p
    case Releasing(exit) => Some(exit)
    case Exited(exit) => Some(exit)
    case _ => None
  }

  lemma SaysMore(log: seq<Event>, ev: Event, exit: Exit)
    ensures Says(log + [ev], exit) <==> Says(log, exit) || Shows(ev, exit)
  {
    assert ev in log + [ev];
  }

  lemma OutcomeStep(p: Phase, ev: Event, exit: Exit)
    requires Advance(p, ev).Some?
    ensures OutcomeOf(Advance(p, ev).value) == Some(exit) <==> OutcomeOf(p) == Some(exit) || Shows(ev, exit)
  {
  }

  lemma {:induction false} OutcomeSaid(log: seq<Event>, exit: Exit)
    requires Reached(log).Some?
    ensures Says(log, exit) <==> OutcomeOf(Reached(log).value) == Some(exit)
  {
    if log != [] {
      var n := |log| - 1;
      OutcomeSaid(log[..n], exit);
      OutcomeStep(Reached(log[..n]).value, log[n], exit);
      SaysMore(log[..n], log[n], exit);
      assert log[..n] + [log[n]] == log;
    }
  }

  /**
   A call that has ended ended as its events say and in no other way: shared if and only if it was
   told of a value with a clear signal, canceled if and only if its signal cut it, and with a load's
   result if and only if that load ended so.
   */
  lemma EndsAsTold(log: seq<Event>, exit: Exit)
    requires Reached(log).Some? && Reached(log).value.Exited?
    ensures Reached(log).value.exit == exit <==> Says(log, exit)
  {
    OutcomeSaid(log, exit);
  }

  // ---------- the world around a call ----------

  datatype AcquireReply = Acquired | Held | AcquireFails

  datatype ReadReply = Found | NotFound | ReadFails

  /** What one round of the loop meets. */
  datatype Round = Round(
    abortedFirst: bool,
    acquire: AcquireReply, abortedThen: bool,
    read: ReadReply, abortedLater: bool,
    elapsedMs: nat,                              // time gone by when the deadline is looked at
    delayMs: nat, abortedAtSleep: bool, oversleptMs: nat, abortedAsleep: bool,
    loadOk: bool)

  datatype World = World(waitMs: nat, startedAt: int, rounds: nat -> Round)

  /** The clock when round `i` looks at the deadline; a sleep lasts at least as long as asked. */
  function DeadlineClock(w: World, i: nat): int
    decreases i, 1
  {
    RoundStart(w, i) + w.rounds(i).elapsedMs
  }

  function RoundStart(w: World, i: nat): int
    decreases i, 0
  {
    if i == 0 then w.startedAt else WokenAt(w, i - 1)
  }

  function SleepFor(delayMs: nat, remaining: int): (ms: int)
    ensures remaining > 0 ==> 1 <= ms <= remaining
    ensures 1 <= delayMs <= remaining ==> ms == delayMs
  {
    var delay := if delayMs < 1 then 1 else delayMs;
    if delay < remaining then delay else remaining
  }

  function WokenAt(w: World, i: nat): int
    decreases i, 2
  {
    var now, r := DeadlineClock(w, i), w.rounds(i);
    now + SleepFor(r.delayMs, w.startedAt + w.waitMs - now) + r.oversleptMs
  }

  /** The event is what round `i` of the world makes of it. */
  predicate Fits(w: World, i: nat, ev: Event) {
    var r := w.rounds(i);
    match ev
    case Begin(aborted) => aborted == r.abortedFirst
    case AcquireAnswer(acquired, aborted) =>
      aborted == r.abortedThen && r.acquire == if acquired then Acquired else Held
    case AcquireError(aborted) => aborted == r.abortedThen && r.acquire == AcquireFails
    case ReadAnswer(found, aborted) => aborted == r.abortedLater && r.read == if found then Found else NotFound
    case ReadError(aborted) => aborted == r.abortedLater && r.read == ReadFails
    case TimeLeft(left, aborted) =>
      aborted == r.abortedAtSleep && left == (DeadlineClock(w, i) < w.startedAt + w.waitMs)
    case Wake(aborted) => aborted == r.abortedAsleep
    case LoadEnds(ok) => ok == r.loadOk
    case ReleaseEnds => true
  }

  function Wakes(log: seq<Event>): nat {
    if log == [] then 0
    else Wakes(log[..|log| - 1]) + if log[|log| - 1].Wake? then 1 else 0
  }

  /** The history of a call in the world `w`. */
  predicate Truthful(w: World, log: seq<Event>) {
    log != [] ==>
      var front := log[..|log| - 1];
      Truthful(w, front) && Fits(w, Wakes(front), log[|log| - 1]) && Reached(log).Some?
  }

  lemma {:induction false} TruthfulPrefix(w: World, log: seq<Event>, n: nat)
    requires n <= |log| && Truthful(w, log)
    ensures Truthful(w, log[..n])
  {
    if n == |log| {
      assert log[..n] == log;
    } else {
      TruthfulPrefix(w, log[..|log| - 1], n);
      assert log[..|log| - 1][..n] == log[..n];
    }
  }

  lemma OneEventFits(w: World, i: nat, p: Phase, a: Event, b: Event)
    requires Fits(w, i, a) && Fits(w, i, b) && Advance(p, a).Some? && Advance(p, b).Some?
    ensures a == b
  {
  }

  lemma {:induction false} SamePrefix(w: World, a: seq<Event>, b: seq<Event>, n: nat)
    requires Truthful(w, a) && Truthful(w, b) && n <= |a| && n <= |b|
    ensures a[..n] == b[..n]
  {
    if n > 0 {
      SamePrefix(w, a, b, n - 1);
      TruthfulPrefix(w, a, n);
      TruthfulPrefix(w, b, n);
      assert a[..n][..n - 1] == a[..n - 1] == b[..n - 1] == b[..n][..n - 1];
      OneEventFits(w, Wakes(a[..n - 1]), Reached(a[..n - 1]).value, a[n - 1], b[n - 1]);
    }
  }

  /** The world decides the call: there is only one history that ends in it. */
  lemma WorldDecides(w: World, a: seq<Event>, b: seq<Event>)
    requires Truthful(w, a) && Truthful(w, b)
    requires Reached(a).Some? && Reached(a).value.Exited? && Reached(b).Some? && Reached(b).value.Exited?
    ensures a == b
  {
    var n := if |a| <= |b| then |a| else |b|;
    assert a[..|a|] == a && b[..|b|] == b;
    SamePrefix(w, a, b, n);
    Prefix(a, n);
    Prefix(b, n);
  }

  // ---------- the result of a call, by its world alone ----------

  function LoadExit(r: Round): Exit {
    if r.loadOk then Loaded else Failed
  }

  /** The result from round `i` on. */
  function ResultFrom(w: World, i: nat): Exit
    decreases w.startedAt + w.waitMs - RoundStart(w, i), 1
  {
    var r := w.rounds(i);
    if r.abortedFirst || r.abortedThen then Canceled
    else if r.acquire.AcquireFails? then LoadExit(r)
    else ResultOfRead(w, i)
  }

  /** The result once the lease is acquired or held by another. */
  function ResultOfRead(w: World, i: nat): Exit
    decreases w.startedAt + w.waitMs - RoundStart(w, i), 0
  {
    var r := w.rounds(i);
    if r.abortedLater then Canceled
    else if r.read.Found? then SharedCache
    else if r.acquire.Acquired? || r.read.ReadFails? || DeadlineClock(w, i) >= w.startedAt + w.waitMs then LoadExit(r)
    else if r.abortedAtSleep || r.abortedAsleep then Canceled
    else
      assert RoundStart(w, i + 1) == WokenAt(w, i);
      ResultFrom(w, i + 1)
  }

  /** The result from a phase of round `i` on. */
  ghost function ResultAt(w: World, i: nat, p: Phase): Exit {
    var r := w.rounds(i);
    match p
    case Ready => ResultFrom(w, i)
    case Acquiring =>
      if r.abortedThen then Canceled else if r.acquire.AcquireFails? then LoadExit(r) else ResultOfRead(w, i)
    case Rechecking => ResultOfRead(w, i)
    case Polling => ResultOfRead(w, i)
    case Deciding =>
      if DeadlineClock(w, i) >= w.startedAt + w.waitMs then LoadExit(r)
      else if r.abortedAtSleep || r.abortedAsleep then Canceled
      else ResultFrom(w, i + 1)
    case Sleeping => if r.abortedAsleep then Canceled else ResultFrom(w, i + 1)
    case Loading(_) => LoadExit(r)
    case Releasing(exit) => exit
    case Exited(exit) => exit
  }

  /** What the world has said by the time of a phase. */
  ghost predicate Met(w: World, i: nat, p: Phase) {
    match p
    case Rechecking => w.rounds(i).acquire.Acquired?
    case Polling => w.rounds(i).acquire.Held?
    case Deciding => w.rounds(i).acquire.Held?
    case _ => true
  }

  lemma ResultStep(w: World, i: nat, p: Phase, ev: Event)
    requires Met(w, i, p) && Fits(w, i, ev) && Advance(p, ev).Some?
    ensures var j := if ev.Wake? then i + 1 else i;
            Met(w, j, Advance(p, ev).value) && ResultAt(w, j, Advance(p, ev).value) == ResultAt(w, i, p)
  {
  }

  lemma {:induction false} ResultAlong(w: World, log: seq<Event>)
    requires Truthful(w, log)
    ensures Reached(log).Some?
    ensures Met(w, Wakes(log), Reached(log).value)
    ensures ResultAt(w, Wakes(log), Reached(log).value) == ResultFrom(w, 0)
  {
    if log != [] {
      var front := log[..|log| - 1];
      ResultAlong(w, front);
      ResultStep(w, Wakes(front), Reached(front).value, log[|log| - 1]);
    }
  }

  /** A call ends with the result that its rounds alone decide. */
  lemma RoundsDecide(w: World, log: seq<Event>)
    requires Truthful(w, log) && Reached(log).Some? && Reached(log).value.Exited?
    ensures Reached(log).value.exit == ResultFrom(w, 0)
  {
    ResultAlong(w, log);
  }

  // ---------- the loop ----------

  /** Notes what the call was told. */
  method Told(w: World, before: seq<Event>, ev: Event) returns (log: seq<Event>)
    requires Truthful(w, before) && Reached(before).Some?
    requires Advance(Reached(before).value, ev).Some? && Fits(w, Wakes(before), ev)
    ensures Truthful(w, log)
    ensures Reached(log) == Advance(Reached(before).value, ev)
    ensures Attempts(log) == Attempts(before) + if ev == Begin(false) then 1 else 0
    ensures Wakes(log) == Wakes(before) + if ev.Wake? then 1 else 0
  {
    log := before + [ev];
    assert log[..|log| - 1] == before;
  }

  function AfterRead(r: Round): Event {
    if r.read.ReadFails? then ReadError(r.abortedLater) else ReadAnswer(r.read.Found?, r.abortedLater)
  }

  method LoadWithoutCoordination(w: World, before: seq<Event>) returns (exit: Exit, log: seq<Event>)
    requires Truthful(w, before) && Reached(before) == Some(Loading(false))
    ensures Truthful(w, log) && Reached(log) == Some(Exited(exit)) && Attempts(log) == Attempts(before)
  {
    var ok := w.rounds(Wakes(before)).loadOk;
    log := Told(w, before, LoadEnds(ok));
    exit := if ok then Loaded else Failed;
  }

  /** The load under the lease. */
  method LoadHeld(w: World, before: seq<Event>) returns (exit: Exit, log: seq<Event>)
    requires Truthful(w, before) && Reached(before) == Some(Loading(true))
    ensures Truthful(w, log) && Reached(log) == Some(Releasing(exit)) && Attempts(log) == Attempts(before)
  {
    var ok := w.rounds(Wakes(before)).loadOk;
    log := Told(w, before, LoadEnds(ok));
    exit := if ok then Loaded else Failed;
  }

  /** The acquired branch: recheck, load, and release whatever happened. */
  method HoldLease(w: World, before: seq<Event>) returns (exit: Exit, log: seq<Event>)
    requires Truthful(w, before) && Reached(before) == Some(Rechecking)
    ensures Truthful(w, log) && Reached(log) == Some(Exited(exit)) && Attempts(log) == Attempts(before)
  {
    var r := w.rounds(Wakes(before));
    log := Told(w, before, AfterRead(r));
    if r.abortedLater {
      exit := Canceled;
    } else if r.read.Found? {
      exit := SharedCache;
    } else {
      exit, log := LoadHeld(w, log);
    }
    assert Reached(log) == Some(Releasing(exit)) && Attempts(log) == Attempts(before);
    log := Told(w, log, ReleaseEnds);
  }

  /** The first half of a turn: asking for the lease, and everything that follows having it. */
  method TryLease(w: World, before: seq<Event>) returns (over: bool, exit: Exit, log: seq<Event>)
    requires Truthful(w, before) && Reached(before) == Some(Ready)
    ensures Truthful(w, log) && Attempts(log) <= Attempts(before) + 1
    ensures over ==> Reached(log) == Some(Exited(exit))
    ensures !over ==> Reached(log) == Some(Polling) && Wakes(log) == Wakes(before) && Attempts(log) == Attempts(before) + 1
  {
    over, exit := true, Canceled;
    var r := w.rounds(Wakes(before));
    log := Told(w, before, Begin(r.abortedFirst));
    if r.abortedFirst {
      return;
    }
    if r.acquire.AcquireFails? {
      log := Told(w, log, AcquireError(r.abortedThen));
      if !r.abortedThen {
        exit, log := LoadWithoutCoordination(w, log);
      }
      return;
    }
    log := Told(w, log, AcquireAnswer(r.acquire.Acquired?, r.abortedThen));
    if r.abortedThen {
      return;
    }
    if r.acquire.Acquired? {
      exit, log := HoldLease(w, log);
      return;
    }
    over := false;
  }

  /** The second half begins with a look at the cache. */
  method PollCache(w: World, before: seq<Event>) returns (over: bool, exit: Exit, log: seq<Event>)
    requires Truthful(w, before) && Reached(before) == Some(Polling)
    ensures Truthful(w, log) && Attempts(log) == Attempts(before)
    ensures over ==> Reached(log) == Some(Exited(exit))
    ensures !over ==> Reached(log) == Some(Deciding) && Wakes(log) == Wakes(before)
  {
    over, exit := true, Canceled;
    var r := w.rounds(Wakes(before));
    log := Told(w, before, AfterRead(r));
    if r.abortedLater {
      return;
    }
    if r.read.ReadFails? {
      exit, log := LoadWithoutCoordination(w, log);
      return;
    }
    if r.read.Found? {
      exit := SharedCache;
      return;
    }
    over := false;
  }

  /** And ends with the deadline: a load of its own, or a sleep. */
  method LoadOrSleep(w: World, now: int, before: seq<Event>) returns (over: bool, exit: Exit, log: seq<Event>, later: int)
    requires Truthful(w, before) && Reached(before) == Some(Deciding)
    requires now + w.rounds(Wakes(before)).elapsedMs == DeadlineClock(w, Wakes(before))
    ensures Truthful(w, log) && Attempts(log) == Attempts(before)
    ensures over ==> Reached(log) == Some(Exited(exit))
    ensures !over ==> Reached(log) == Some(Ready) && Wakes(log) == Wakes(before) + 1
                      && later == WokenAt(w, Wakes(before)) && now < later && now < w.startedAt + w.waitMs
  {
    over, exit := true, Canceled;
    var r := w.rounds(Wakes(before));
    later := now + r.elapsedMs;
    var remaining := w.startedAt + w.waitMs - later;
    log := Told(w, before, TimeLeft(remaining > 0, r.abortedAtSleep));
    if remaining <= 0 {
      exit, log := LoadWithoutCoordination(w, log);
      return;
    }
    if r.abortedAtSleep {
      return;
    }
    later := later + SleepFor(r.delayMs, remaining) + r.oversleptMs;
    assert later == WokenAt(w, Wakes(before)) && now < later;
    log := Told(w, log, Wake(r.abortedAsleep));
    over := r.abortedAsleep;
  }

  lemma NextRound(w: World, i: nat)
    ensures RoundStart(w, i + 1) == WokenAt(w, i)
  {
  }

  /** One turn of the polling loop. */
  method Turn(w: World, now: int, before: seq<Event>) returns (over: bool, exit: Exit, log: seq<Event>, later: int)
    requires Truthful(w, before) && Reached(before) == Some(Ready) && now == RoundStart(w, Wakes(before))
    ensures Truthful(w, log) && Attempts(log) <= Attempts(before) + 1
    ensures over ==> Reached(log) == Some(Exited(exit))
    ensures !over ==> Reached(log) == Some(Ready) && Wakes(log) == Wakes(before) + 1 && Attempts(log) == Attempts(before) + 1
                      && later == RoundStart(w, Wakes(log)) && now < later && now < w.startedAt + w.waitMs
  {
    later := now;
    over, exit, log := TryLease(w, before);
    if !over {
      over, exit, log := PollCache(w, log);
    }
    if !over {
      assert now + w.rounds(Wakes(before)).elapsedMs == DeadlineClock(w, Wakes(before));
      over, exit, log, later := LoadOrSleep(w, now, log);
      NextRound(w, Wakes(before));
    }
  }

  /**
   The polling loop.  Its log is the history of the call in the world it meets, its result the one
   that the rounds decide, and it ends within waitMs + 1 attempts, since each sleep takes at least
   a millisecond of the wait.
   */
  method CoordinateCacheMiss(w: World) returns (exit: Exit, log: seq<Event>)
    ensures exit == ResultFrom(w, 0)
    ensures Truthful(w, log) && Reached(log) == Some(Exited(exit))
    ensures Attempts(log) <= w.waitMs + 1
  {
    log := [];
    var now, over := w.startedAt, false;
    exit := Canceled;
    ghost var i := 0;
    while !over
      invariant Truthful(w, log) && i <= w.waitMs
      invariant over ==> Reached(log) == Some(Exited(exit)) && Attempts(log) <= w.waitMs + 1
      invariant !over ==> Reached(log) == Some(Ready) && Wakes(log) == Attempts(log) == i
      invariant !over ==> now == RoundStart(w, i) && w.startedAt + i <= now
      decreases !over, w.waitMs - i
    {
      over, exit, log, now := Turn(w, now, log);
      i := if over then i else i + 1;
    }
    RoundsDecide(w, log);
  }
}
