/**
 HttpServerLogLimiter of src/runtime/httpServerEvents.ts: a fixed window per event that lets
 `burst` warnings through and counts the rest.
 */
module LogLimiter {
  datatype Event = ClientError | RequestTimeout | HeaderOverflow | ChunkExtensionsOverflow | DroppedRequest

  datatype Decision = Decision(emit: bool, suppressed: nat)

  datatype Window = Window(startedAt: int, emitted: nat, suppressed: nat)

  type Windows = map<Event, Window>

  datatype Limits = Limits(burst: nat, windowMs: nat)

  // ---------- one call ----------

  predicate StartsWindow(l: Limits, ws: Windows, event: Event, now: int) {
    event !in ws || now - ws[event].startedAt >= l.windowMs
  }

  function Taken(l: Limits, ws: Windows, event: Event, now: int): (r: (Windows, Decision)) {
    if StartsWindow(l, ws, event, now) then
      (ws[event := Window(now, 1, 0)], Decision(true, if event in ws then ws[event].suppressed else 0))
    else
      var w := ws[event];
      if w.emitted < l.burst then (ws[event := w.(emitted := w.emitted + 1)], Decision(true, 0))
      else (ws[event := w.(suppressed := w.suppressed + 1)], Decision(false, 0))
  }

  class HttpServerLogLimiter {
    const burst: nat
    const windowMs: nat
    var states: Windows

    constructor (burst: nat, windowMs: nat)
      ensures states == map[] && this.burst == burst && this.windowMs == windowMs
    {
      this.burst := burst;
      this.windowMs := windowMs;
      states := map[];
    }

    method Take(event: Event, now: int) returns (d: Decision)
      modifies this
      ensures (states, d) == Taken(Limits(burst, windowMs), old(states), event, now)
    {
      if event !in states || now - states[event].startedAt >= windowMs {
        var suppressed := if event in states then states[event].suppressed else 0;
        states := states[event := Window(now, 1, 0)];
        return Decision(true, suppressed);
      }
      var existing := states[event];
      if existing.emitted < burst {
        states := states[event := existing.(emitted := existing.emitted + 1)];
        return Decision(true, 0);
      }
      states := states[event := existing.(suppressed := existing.suppressed + 1)];
      return Decision(false, 0);
    }
  }

  // ---------- runs ----------

  datatype Call = Call(event: Event, at: int)

  /** The windows after `calls` on a new limiter, and the decisions handed out. */
  function Run(l: Limits, calls: seq<Call>): (r: (Windows, seq<Decision>))
    ensures |r.1| == |calls|
  {
    if calls == [] then (map[], [])
    else
      var n := |calls| - 1;
      var (ws, ds) := Run(l, calls[..n]);
      var (ws', d) := Taken(l, ws, calls[n].event, calls[n].at);
      (ws', ds + [d])
  }

  predicate Monotone(calls: seq<Call>) {
    forall i, j :: 0 <= i < j < |calls| ==> calls[i].at <= calls[j].at
  }

  /** How many of the decisions on `event` let a warning through at a time in [from, until). */
  function EmittedBetween(calls: seq<Call>, ds: seq<Decision>, event: Event, from: int, until: int): nat
    requires |ds| == |calls|
  {
    if calls == [] then 0
    else
      var n := |calls| - 1;
      EmittedBetween(calls[..n], ds[..n], event, from, until)
      + if calls[n].event == event && ds[n].emit && from <= calls[n].at < until then 1 else 0
  }

  function CountCalls(calls: seq<Call>, event: Event): nat {
    if calls == [] then 0
    else CountCalls(calls[..|calls| - 1], event) + if calls[|calls| - 1].event == event then 1 else 0
  }

  function CountEmitted(calls: seq<Call>, ds: seq<Decision>, event: Event): nat
    requires |ds| == |calls|
  {
    if calls == [] then 0
    else
      var n := |calls| - 1;
      CountEmitted(calls[..n], ds[..n], event) + if calls[n].event == event && ds[n].emit then 1 else 0
  }

  function CountHeldBack(calls: seq<Call>, ds: seq<Decision>, event: Event): nat
    requires |ds| == |calls|
  {
    if calls == [] then 0
    else
      var n := |calls| - 1;
      CountHeldBack(calls[..n], ds[..n], event) + if calls[n].event == event && !ds[n].emit then 1 else 0
  }

  function SumReported(calls: seq<Call>, ds: seq<Decision>, event: Event): nat
    requires |ds| == |calls|
  {
    if calls == [] then 0
    else
      var n := |calls| - 1;
      SumReported(calls[..n], ds[..n], event) + if calls[n].event == event then ds[n].suppressed else 0
  }

  function Pending(ws: Windows, event: Event): nat {
    if event in ws then ws[event].suppressed else 0
  }

  lemma RunStep(l: Limits, calls: seq<Call>)
    requires calls != []
    ensures var n := |calls| - 1;
            var before, after := Run(l, calls[..n]), Run(l, calls);
            && after.1[..n] == before.1
            && (after.0, after.1[n]) == Taken(l, before.0, calls[n].event, calls[n].at)
  {
  }

  /**
   No warning is lost to the count: every call is let through or held back, and the calls held
   back are exactly those already reported at a window change plus those still pending.
   */
  lemma {:induction false} Conservation(l: Limits, calls: seq<Call>, event: Event)
    ensures var (ws, ds) := Run(l, calls);
            && CountCalls(calls, event) == CountEmitted(calls, ds, event) + CountHeldBack(calls, ds, event)
            && CountHeldBack(calls, ds, event) == SumReported(calls, ds, event) + Pending(ws, event)
  {
    if calls != [] {
      Conservation(l, calls[..|calls| - 1], event);
      RunStep(l, calls);
    }
  }

  /** What was held back is reported with a warning that is let through, the first of its window. */
  lemma {:induction false} ReportsAreEmitted(l: Limits, calls: seq<Call>, i: nat)
    requires i < |calls| && Run(l, calls).1[i].suppressed > 0
    ensures Run(l, calls).1[i].emit && Opens(l, calls, i)
  {
    var n := |calls| - 1;
    RunStep(l, calls);
    if i < n {
      assert Run(l, calls).1[i] == Run(l, calls).1[..n][i];
      ReportsAreEmitted(l, calls[..n], i);
      assert calls[..n][..i] == calls[..i];
    }
  }

  // ---------- the sliding bound ----------

  /** The count for [from, from + windowMs) that the open window of `event` still allows for. */
  ghost predicate Budgeted(l: Limits, ws: Windows, event: Event, from: int, n: nat) {
    var most := if l.burst == 0 then 1 else l.burst;
    if event !in ws then n == 0
    else
      var w := ws[event];
      && 1 <= w.emitted <= most
      && if w.startedAt < from then n <= w.emitted - 1
         else if w.startedAt < from + l.windowMs then n <= most - 1 + w.emitted
         else n <= 2 * most - 1
  }

  lemma {:induction false} NothingBefore(l: Limits, calls: seq<Call>, event: Event, from: int)
    requires Monotone(calls)
    ensures (calls == [] || calls[|calls| - 1].at < from)
            ==> EmittedBetween(calls, Run(l, calls).1, event, from, from + l.windowMs) == 0
  {
    if calls != [] {
      NothingBefore(l, calls[..|calls| - 1], event, from);
      RunStep(l, calls);
    }
  }

  lemma BudgetStep(l: Limits, ws: Windows, event: Event, from: int, n: nat, call: Call)
    requires Budgeted(l, ws, event, from, n)
    requires event in ws ==> ws[event].startedAt <= call.at
    requires call.at < from ==> n == 0
    ensures var (ws', d) := Taken(l, ws, call.event, call.at);
            && Budgeted(l, ws', event, from,
                 n + if call.event == event && d.emit && from <= call.at < from + l.windowMs then 1 else 0)
            && (event in ws' ==> ws'[event].startedAt <= call.at)
  {
  }

  lemma {:induction false} WindowBudget(l: Limits, calls: seq<Call>, event: Event, from: int)
    requires Monotone(calls)
    ensures var (ws, ds) := Run(l, calls);
            && Budgeted(l, ws, event, from, EmittedBetween(calls, ds, event, from, from + l.windowMs))
            && (event in ws ==> calls != [] && ws[event].startedAt <= calls[|calls| - 1].at)
  {
    if calls != [] {
      var n := |calls| - 1;
      var before := calls[..n];
      WindowBudget(l, before, event, from);
      NothingBefore(l, before, event, from);
      RunStep(l, calls);
      assert n > 0 ==> before[n - 1].at <= calls[n].at;
      var (ws, ds) := Run(l, before);
      BudgetStep(l, ws, event, from, EmittedBetween(before, ds, event, from, from + l.windowMs), calls[n]);
    }
  }

  /**
   Any interval of one window's length holds at most 2 * burst - 1 warnings for an event: its
   first window, if it began earlier, has already spent its opening warning.
   */
  lemma SlidingBound(l: Limits, calls: seq<Call>, event: Event, from: int)
    requires Monotone(calls) && l.burst >= 1
    ensures EmittedBetween(calls, Run(l, calls).1, event, from, from + l.windowMs) <= 2 * l.burst - 1
  {
    WindowBudget(l, calls, event, from);
  }

  /** The i-th call starts a window of its event. */
  predicate Opens(l: Limits, calls: seq<Call>, i: nat) {
    i < |calls| && StartsWindow(l, Run(l, calls[..i]).0, calls[i].event, calls[i].at)
  }

  lemma {:induction false} StartedSince(l: Limits, calls: seq<Call>, i: nat)
    requires Opens(l, calls, i)
    ensures var ws := Run(l, calls).0;
            calls[i].event in ws && ws[calls[i].event].startedAt >= calls[i].at
    decreases |calls|
  {
    var n := |calls| - 1;
    RunStep(l, calls);
    if i < n {
      assert calls[..n][..i] == calls[..i];
      StartedSince(l, calls[..n], i);
    }
  }

  /** Windows of one event never start closer than windowMs, whatever the clock does. */
  lemma WindowsApart(l: Limits, calls: seq<Call>, i: nat, j: nat)
    requires i < j && Opens(l, calls, i) && Opens(l, calls, j) && calls[i].event == calls[j].event
    ensures calls[j].at >= calls[i].at + l.windowMs
  {
    assert calls[..j][..i] == calls[..i];
    StartedSince(l, calls[..j], i);
  }

  // ---------- the bound is met ----------

  function Repeat(event: Event, at: int, n: nat): (r: seq<Call>)
    ensures |r| == n && forall i :: 0 <= i < n ==> r[i] == Call(event, at)
  {
    seq(n, _ => Call(event, at))
  }

  /** What one more call does to a limiter whose window for it is open and has room. */
  lemma CallGoesThrough(l: Limits, calls: seq<Call>, call: Call, from: int, until: int)
    requires from <= call.at < until && call.event in Run(l, calls).0
    requires var w := Run(l, calls).0[call.event]; call.at - w.startedAt < l.windowMs && w.emitted < l.burst
    ensures var w, (ws, ds) := Run(l, calls).0[call.event], Run(l, calls + [call]);
            && call.event in ws && ws[call.event] == w.(emitted := w.emitted + 1)
            && EmittedBetween(calls + [call], ds, call.event, from, until)
               == EmittedBetween(calls, Run(l, calls).1, call.event, from, until) + 1
  {
    assert (calls + [call])[..|calls|] == calls;
    RunStep(l, calls + [call]);
  }

  lemma {:induction false} BurstGoesThrough(
    l: Limits, calls: seq<Call>, event: Event, at: int, k: nat, from: int, until: int)
    requires from <= at < until
    requires event in Run(l, calls).0
    requires var w := Run(l, calls).0[event];
             0 <= at - w.startedAt < l.windowMs && w.emitted + k <= l.burst
    ensures var (ws, ds) := Run(l, calls + Repeat(event, at, k));
            && event in ws && ws[event].startedAt == Run(l, calls).0[event].startedAt
            && ws[event].emitted == Run(l, calls).0[event].emitted + k
            && EmittedBetween(calls + Repeat(event, at, k), ds, event, from, until)
               == EmittedBetween(calls, Run(l, calls).1, event, from, until) + k
  {
    var all := calls + Repeat(event, at, k);
    if k == 0 {
      assert all == calls;
    } else {
      BurstGoesThrough(l, calls, event, at, k - 1, from, until);
      var fewer := calls + Repeat(event, at, k - 1);
      assert all == fewer + [Call(event, at)];
      CallGoesThrough(l, fewer, Call(event, at), from, until);
    }
  }

  lemma OpeningCall(l: Limits, calls: seq<Call>, event: Event, at: int)
    requires StartsWindow(l, Run(l, calls).0, event, at)
    ensures var all := calls + Repeat(event, at, 1);
            && event in Run(l, all).0 && Run(l, all).0[event] == Window(at, 1, 0)
            && forall from, until :: EmittedBetween(all, Run(l, all).1, event, from, until)
                 == EmittedBetween(calls, Run(l, calls).1, event, from, until) + if from <= at < until then 1 else 0
  {
    var all := calls + Repeat(event, at, 1);
    assert all[..|all| - 1] == calls;
    RunStep(l, all);
  }

  /** One warning at 0 and the rest of its burst in the window's last millisecond. */
  function FirstWindow(l: Limits, event: Event): seq<Call>
    requires l.burst >= 1
  {
    [] + Repeat(event, 0, 1) + Repeat(event, l.windowMs - 1, l.burst - 1)
  }

  /** The first window, then a whole burst as soon as the next one opens. */
  function BusyCalls(l: Limits, event: Event): seq<Call>
    requires l.burst >= 1
  {
    FirstWindow(l, event) + Repeat(event, l.windowMs, 1) + Repeat(event, l.windowMs, l.burst - 1)
  }

  lemma FirstWindowEmits(l: Limits, event: Event)
    requires l.burst >= 1 && l.windowMs >= 2
    ensures var calls := FirstWindow(l, event);
            var (ws, ds) := Run(l, calls);
            && event in ws && ws[event].startedAt == 0
            && EmittedBetween(calls, ds, event, l.windowMs - 1, 2 * l.windowMs - 1) == l.burst - 1
  {
    OpeningCall(l, [], event, 0);
    BurstGoesThrough(l, [] + Repeat(event, 0, 1), event, l.windowMs - 1, l.burst - 1, l.windowMs - 1, 2 * l.windowMs - 1);
  }

  lemma BusyCallsMonotone(l: Limits, event: Event)
    requires l.burst >= 1 && l.windowMs >= 2
    ensures Monotone(BusyCalls(l, event))
  {
    var calls := BusyCalls(l, event);
    forall i, j | 0 <= i < j < |calls| ensures calls[i].at <= calls[j].at {
      assert calls[i].at == if i == 0 then 0 else if i < l.burst then l.windowMs - 1 else l.windowMs;
      assert calls[j].at == if j < l.burst then l.windowMs - 1 else l.windowMs;
    }
  }

  /** For every burst and every window of two milliseconds or more some run reaches the bound. */
  lemma SlidingBoundIsTight(l: Limits, event: Event)
    requires l.burst >= 1 && l.windowMs >= 2
    ensures var calls, from := BusyCalls(l, event), l.windowMs - 1;
            && Monotone(calls)
            && EmittedBetween(calls, Run(l, calls).1, event, from, from + l.windowMs) == 2 * l.burst - 1
  {
    var w := l.windowMs;
    BusyCallsMonotone(l, event);
    FirstWindowEmits(l, event);
    var first := FirstWindow(l, event);
    OpeningCall(l, first, event, w);
    var second := first + Repeat(event, w, 1);
    assert EmittedBetween(second, Run(l, second).1, event, w - 1, w - 1 + w) == l.burst;
    BurstGoesThrough(l, second, event, w, l.burst - 1, w - 1, w - 1 + w);
    assert second + Repeat(event, w, l.burst - 1) == BusyCalls(l, event);
  }
}
