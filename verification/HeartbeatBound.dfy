/**
 The bound of LeaseTiming is exact: for every timing beyond it there is a run, in time throughout,
 in which a caller loads under a lease that has lapsed.
 */
module HeartbeatBound {
  import opened Common
  import opened LeaseCell
  import opened Coordinator
  import opened LeaseProtocol
  import opened LeaseTiming

  // ---------- putting timely runs together ----------

  /** Where a timely run leads: the state, and the caller's watch. */
  function LedTo(tm: Timing, s: State, w: Watch, c: Token, steps: seq<Step>): (State, Watch)
    requires KeepsTime(tm, s, w, c, steps)
    ensures LedTo(tm, s, w, c, steps).0 == After(s, steps)
    decreases |steps|
  {
    if steps == [] then (s, w)
    else LedTo(tm, Next(s, steps[0]), NextWatch(tm, s, w, c, steps[0]), c, steps[1..])
  }

  /** The steps are a timely run from (s, w) to (t, v). */
  predicate Leads(tm: Timing, c: Token, s: State, w: Watch, steps: seq<Step>, t: State, v: Watch) {
    KeepsTime(tm, s, w, c, steps) && LedTo(tm, s, w, c, steps) == (t, v)
  }

  lemma StepLeads(tm: Timing, c: Token, s: State, w: Watch, step: Step)
    requires Enabled(s, step) && OnTime(tm, s, w, c, step)
    ensures Leads(tm, c, s, w, [step], Next(s, step), NextWatch(tm, s, w, c, step))
  {
    var t, v := Next(s, step), NextWatch(tm, s, w, c, step);
    assert [step][1..] == [];
    assert KeepsTime(tm, t, v, c, []) && LedTo(tm, t, v, c, []) == (t, v);
  }

  lemma {:induction false} LeadsOn(
    tm: Timing, c: Token, s: State, w: Watch, a: seq<Step>, t: State, v: Watch, b: seq<Step>, u: State, x: Watch)
    requires Leads(tm, c, s, w, a, t, v) && Leads(tm, c, t, v, b, u, x)
    ensures Leads(tm, c, s, w, a + b, u, x)
    decreases |a|
  {
    if a == [] {
      assert a + b == b;
    } else {
      var rest := a[1..];
      LeadsOn(tm, c, Next(s, a[0]), NextWatch(tm, s, w, c, a[0]), rest, t, v, b, u, x);
      assert (a + b)[0] == a[0] && (a + b)[1..] == rest + b;
    }
  }

  /** A caller loading under a lease granted or renewed until `end`, with its heartbeat's flags. */
  predicate LoadsWith(s: State, c: Token, end: int, beat: Heartbeat) {
    && c in s.callers && s.callers[c].phase == Loading(true) && !s.callers[c].aborted
    && s.callers[c].beat == beat
    && c in s.grants && s.grants[c] == end
  }

  const IDLE := Heartbeat(false, false)
  const RENEWING := Heartbeat(false, true)

  /** The timer is due. */
  predicate AtTick(tm: Timing, s: State, w: Watch, c: Token, end: int) {
    LoadsWith(s, c, end, IDLE) && w.tickedAt + tm.beat <= s.now
  }

  // ---------- the parts of a round ----------

  lemma TickSends(tm: Timing, c: Token, s: State, w: Watch, end: int)
    requires AtTick(tm, s, w, c, end)
    ensures Enabled(s, Beat(c)) && OnTime(tm, s, w, c, Beat(c))
    ensures var t, v := Next(s, Beat(c)), NextWatch(tm, s, w, c, Beat(c));
            && LoadsWith(t, c, end, RENEWING) && Renew(c) in t.net && t.now == s.now && t.ttl == s.ttl && t.cell == s.cell
            && v == w.(tickedAt := s.now, sentAt := s.now, skipped := 0, renewed := None)
  {
  }

  lemma TimePasses(tm: Timing, c: Token, s: State, w: Watch, end: int, beat: Heartbeat, ms: nat)
    requires LoadsWith(s, c, end, beat) && s.now + ms <= w.tickedAt + tm.beat + tm.late
    requires beat.renewalInFlight ==>
               s.now + ms <= w.sentAt + if MustApply(tm, w) then Smaller(tm.delay, tm.turn) else tm.turn
    ensures OnTime(tm, s, w, c, Tick(ms))
    ensures LoadsWith(Next(s, Tick(ms)), c, end, beat) && NextWatch(tm, s, w, c, Tick(ms)) == w
  {
  }

  lemma TickSkips(tm: Timing, c: Token, s: State, w: Watch, end: int)
    requires LoadsWith(s, c, end, RENEWING) && w.tickedAt + tm.beat <= s.now
    ensures Enabled(s, Beat(c)) && OnTime(tm, s, w, c, Beat(c))
    ensures LoadsWith(Next(s, Beat(c)), c, end, RENEWING) && Next(s, Beat(c)).now == s.now
    ensures NextWatch(tm, s, w, c, Beat(c)) == w.(tickedAt := s.now, skipped := w.skipped + 1)
  {
  }

  /** The next of `k` ticks that take `ms` in all, as late as the others allow. */
  function Gap(tm: Timing, k: nat, ms: nat): nat
    requires k > 0 && Least(tm, k) <= ms
  {
    Smaller(tm.beat + tm.late, ms - Least(tm, k - 1))
  }

  lemma GapFits(tm: Timing, k: nat, ms: nat)
    requires k > 0 && Least(tm, k) <= ms <= Most(tm, k)
    ensures var gap := Gap(tm, k, ms);
            tm.beat <= gap <= tm.beat + tm.late && gap <= ms && Least(tm, k - 1) <= ms - gap <= Most(tm, k - 1)
  {
    LeastToMost(tm, k - 1);
  }

  /** While a reply is outstanding, `k` ticks over `ms` are skipped. */
  lemma {:induction false} Skipping(tm: Timing, c: Token, s: State, w: Watch, end: int, k: nat, ms: nat)
    returns (steps: seq<Step>, t: State, v: Watch)
    requires LoadsWith(s, c, end, RENEWING) && w.tickedAt == s.now && Least(tm, k) <= ms <= Most(tm, k)
    requires s.now + ms <= w.sentAt + tm.turn && !MustApply(tm, w)
    ensures Leads(tm, c, s, w, steps, t, v)
    ensures LoadsWith(t, c, end, RENEWING) && t.now == s.now + ms && v.tickedAt == t.now
    ensures v.renewed == w.renewed && v.lost == w.lost
    decreases k
  {
    if k == 0 {
      return [], s, w;
    }
    var gap := Gap(tm, k, ms);
    GapFits(tm, k, ms);
    TimePasses(tm, c, s, w, end, RENEWING, gap);
    StepLeads(tm, c, s, w, Tick(gap));
    var s1 := Next(s, Tick(gap));
    TickSkips(tm, c, s1, w, end);
    StepLeads(tm, c, s1, w, Beat(c));
    var s2, w2 := Next(s1, Beat(c)), NextWatch(tm, s1, w, c, Beat(c));
    LeadsOn(tm, c, s, w, [Tick(gap)], s1, w, [Beat(c)], s2, w2);
    var more;
    more, t, v := Skipping(tm, c, s2, w2, end, k - 1, ms - gap);
    steps := ([Tick(gap)] + [Beat(c)]) + more;
    LeadsOn(tm, c, s, w, [Tick(gap)] + [Beat(c)], s2, w2, more, t, v);
  }

  lemma ErrorComes(tm: Timing, c: Token, s: State, w: Watch, end: int)
    requires LoadsWith(s, c, end, RENEWING) && !MustApply(tm, w)
    ensures var step := BeatReply(c, RenewalError);
            && Enabled(s, step) && OnTime(tm, s, w, c, step)
            && LoadsWith(Next(s, step), c, end, IDLE) && Next(s, step).now == s.now
            && NextWatch(tm, s, w, c, step) == Replied(w)
  {
  }

  /** From a renewal sent to the next tick that sends one: the longest pause there is. */
  lemma LongPause(tm: Timing, c: Token, s: State, w: Watch, end: int)
    returns (steps: seq<Step>, t: State, v: Watch)
    requires tm.beat >= 1 && LoadsWith(s, c, end, RENEWING) && w.tickedAt == w.sentAt == s.now && !MustApply(tm, w)
    ensures Leads(tm, c, s, w, steps, t, v)
    ensures AtTick(tm, t, v, c, end) && t.now == s.now + Pause(tm) && v.lost == Replied(w).lost
  {
    SkipsFit(tm, tm.turn);
    LeastToMost(tm, Skips(tm, tm.turn));
    var s1, w1;
    steps, s1, w1 := Skipping(tm, c, s, w, end, Skips(tm, tm.turn), LastSkipped(tm));
    var reply, wait := BeatReply(c, RenewalError), Tick(tm.beat + tm.late);
    ErrorComes(tm, c, s1, w1, end);
    StepLeads(tm, c, s1, w1, reply);
    var s2, w2 := Next(s1, reply), Replied(w1);
    LeadsOn(tm, c, s, w, steps, s1, w1, [reply], s2, w2);
    TimePasses(tm, c, s2, w2, end, IDLE, tm.beat + tm.late);
    StepLeads(tm, c, s2, w2, wait);
    t, v := Next(s2, wait), w2;
    LeadsOn(tm, c, s, w, steps + [reply], s2, w2, [wait], t, v);
    steps := (steps + [reply]) + [wait];
  }

  lemma LostRound(tm: Timing, c: Token, s: State, w: Watch, end: int)
    returns (steps: seq<Step>, t: State, v: Watch)
    requires tm.beat >= 1 && AtTick(tm, s, w, c, end) && w.lost < tm.losses
    ensures Leads(tm, c, s, w, steps, t, v)
    ensures AtTick(tm, t, v, c, end) && t.now == s.now + Pause(tm) && v.lost == w.lost + 1
  {
    TickSends(tm, c, s, w, end);
    StepLeads(tm, c, s, w, Beat(c));
    var s1, w1 := Next(s, Beat(c)), NextWatch(tm, s, w, c, Beat(c));
    steps, t, v := LongPause(tm, c, s1, w1, end);
    LeadsOn(tm, c, s, w, [Beat(c)], s1, w1, steps, t, v);
    steps := [Beat(c)] + steps;
  }

  lemma {:induction false} LostRounds(tm: Timing, c: Token, s: State, w: Watch, end: int, n: nat)
    returns (steps: seq<Step>, t: State, v: Watch)
    requires tm.beat >= 1 && AtTick(tm, s, w, c, end) && w.lost + n <= tm.losses
    ensures Leads(tm, c, s, w, steps, t, v)
    ensures AtTick(tm, t, v, c, end) && t.now == s.now + Pauses(tm, n)
    decreases n
  {
    if n == 0 {
      return [], s, w;
    }
    var first, s1, w1 := LostRound(tm, c, s, w, end);
    var more;
    more, t, v := LostRounds(tm, c, s1, w1, end, n - 1);
    LeadsOn(tm, c, s, w, first, s1, w1, more, t, v);
    steps := first + more;
  }

  lemma RenewalComes(tm: Timing, c: Token, s: State, w: Watch, end: int)
    requires LoadsWith(s, c, end, RENEWING) && Renew(c) in s.net && s.cell == Some(Lease(c, end)) && s.now < end
    ensures var step := Apply(Renew(c));
            && Enabled(s, step) && OnTime(tm, s, w, c, step)
            && LoadsWith(Next(s, step), c, s.now + s.ttl, RENEWING) && Next(s, step).now == s.now
            && NextWatch(tm, s, w, c, step) == w.(renewed := Some(true), lost := 0)
  {
  }

  /** A renewal applied at once, and then the longest pause. */
  lemma RenewedRound(tm: Timing, c: Token, s: State, w: Watch, end: int)
    returns (steps: seq<Step>, t: State, v: Watch)
    requires tm.beat >= 1 && AtTick(tm, s, w, c, end) && s.cell == Some(Lease(c, end)) && s.now < end
    ensures Leads(tm, c, s, w, steps, t, v)
    ensures AtTick(tm, t, v, c, s.now + s.ttl) && t.now == s.now + Pause(tm) && v.lost == 0
  {
    TickSends(tm, c, s, w, end);
    StepLeads(tm, c, s, w, Beat(c));
    var s1, w1 := Next(s, Beat(c)), NextWatch(tm, s, w, c, Beat(c));
    RenewalComes(tm, c, s1, w1, end);
    StepLeads(tm, c, s1, w1, Apply(Renew(c)));
    var s2, w2 := Next(s1, Apply(Renew(c))), NextWatch(tm, s1, w1, c, Apply(Renew(c)));
    LeadsOn(tm, c, s, w, [Beat(c)], s1, w1, [Apply(Renew(c))], s2, w2);
    var more;
    more, t, v := LongPause(tm, c, s2, w2, s.now + s.ttl);
    LeadsOn(tm, c, s, w, [Beat(c)] + [Apply(Renew(c))], s2, w2, more, t, v);
    steps := ([Beat(c)] + [Apply(Renew(c))]) + more;
  }

  /** A renewal stays on its way for `ms`, the ticks meanwhile skipped. */
  lemma {:induction false} OnItsWay(tm: Timing, c: Token, s: State, w: Watch, end: int, ms: nat)
    returns (steps: seq<Step>, t: State, v: Watch)
    requires tm.beat >= 1 && LoadsWith(s, c, end, RENEWING) && w.tickedAt == s.now
    requires s.now + ms <= w.sentAt + if MustApply(tm, w) then Smaller(tm.delay, tm.turn) else tm.turn
    ensures Leads(tm, c, s, w, steps, t, v)
    ensures LoadsWith(t, c, end, RENEWING) && t.now == s.now + ms
    decreases ms
  {
    var gap := Smaller(ms, tm.beat + tm.late);
    TimePasses(tm, c, s, w, end, RENEWING, gap);
    StepLeads(tm, c, s, w, Tick(gap));
    var s1 := Next(s, Tick(gap));
    if gap == ms {
      return [Tick(gap)], s1, w;
    }
    TickSkips(tm, c, s1, w, end);
    StepLeads(tm, c, s1, w, Beat(c));
    var s2, w2 := Next(s1, Beat(c)), NextWatch(tm, s1, w, c, Beat(c));
    LeadsOn(tm, c, s, w, [Tick(gap)], s1, w, [Beat(c)], s2, w2);
    var more;
    more, t, v := OnItsWay(tm, c, s2, w2, end, ms - gap);
    LeadsOn(tm, c, s, w, [Tick(gap)] + [Beat(c)], s2, w2, more, t, v);
    steps := ([Tick(gap)] + [Beat(c)]) + more;
  }

  predicate LoadsUntil(s: State, c: Token, end: int) {
    c in s.callers && s.callers[c].phase == Loading(true) && c in s.grants && s.grants[c] == end
  }

  lemma WindUp(tm: Timing, c: Token, s: State, w: Watch, end: int)
    returns (steps: seq<Step>, t: State, v: Watch)
    requires AtTick(tm, s, w, c, end)
    ensures Leads(tm, c, s, w, steps, t, v)
    ensures LoadsUntil(t, c, end) && t.now == s.now + tm.windup
  {
    StepLeads(tm, c, s, w, Signal(c));
    var s1, w1 := Next(s, Signal(c)), NextWatch(tm, s, w, c, Signal(c));
    StepLeads(tm, c, s1, w1, Tick(tm.windup));
    t, v := Next(s1, Tick(tm.windup)), w1;
    LeadsOn(tm, c, s, w, [Signal(c)], s1, w1, [Tick(tm.windup)], t, v);
    steps := [Signal(c)] + [Tick(tm.windup)];
  }

  /** What can follow a due tick: a renewal on its way, or the wind-up of an aborted load. */
  lemma LastWait(tm: Timing, c: Token, s: State, w: Watch, end: int)
    returns (steps: seq<Step>, t: State, v: Watch)
    requires tm.beat >= 1 && AtTick(tm, s, w, c, end)
    ensures Leads(tm, c, s, w, steps, t, v)
    ensures LoadsUntil(t, c, end) && t.now == s.now + Rest(tm)
  {
    if Smaller(tm.delay, tm.turn) < tm.windup {
      steps, t, v := WindUp(tm, c, s, w, end);
      return;
    }
    TickSends(tm, c, s, w, end);
    StepLeads(tm, c, s, w, Beat(c));
    var s1, w1 := Next(s, Beat(c)), NextWatch(tm, s, w, c, Beat(c));
    steps, t, v := OnItsWay(tm, c, s1, w1, end, Smaller(tm.delay, tm.turn));
    LeadsOn(tm, c, s, w, [Beat(c)], s1, w1, steps, t, v);
    steps := [Beat(c)] + steps;
  }

  // ---------- the run ----------

  lemma {:induction false} UntimedLeads(tm: Timing, c: Token, s: State, w: Watch, steps: seq<Step>)
    returns (v: Watch)
    requires IsRun(s, steps) && forall step | step in steps :: !step.Tick? && !step.Beat? && !step.BeatReply?
    ensures Leads(tm, c, s, w, steps, After(s, steps), v)
    decreases |steps|
  {
    if steps == [] {
      return w;
    }
    var t, w1 := Next(s, steps[0]), NextWatch(tm, s, w, c, steps[0]);
    assert steps[0] in steps;
    v := UntimedLeads(tm, c, t, w1, steps[1..]);
  }

  /** The caller knows of its lease, acquired at the start, and is about to look again. */
  predicate Rechecks(s: State, c: Token, ttl: nat) {
    && c in s.callers && s.callers[c].phase.Rechecking? && !s.callers[c].aborted && s.callers[c].read.None?
    && s.callers[c].acquiredAt == Some(0) && !s.stored
    && s.grants == map[c := ttl] && s.cell == Some(Lease(c, ttl)) && s.ttl == ttl
  }

  lemma Knows(tm: Timing, c: Token, ttl: nat)
    returns (steps: seq<Step>, t: State, v: Watch)
    ensures Leads(tm, c, Start(ttl), NEW_WATCH, steps, t, v)
    ensures Rechecks(t, c, ttl) && t.now == 0
  {
    GrantingGrants(Start(ttl), c);
    var s, answer := Granted(Start(ttl), c), Tell(c, AcquireAnswer(true, false));
    var w := UntimedLeads(tm, c, Start(ttl), NEW_WATCH, Granting(c));
    StepLeads(tm, c, s, w, answer);
    t, v := Next(s, answer), NextWatch(tm, s, w, c, answer);
    LeadsOn(tm, c, Start(ttl), NEW_WATCH, Granting(c), s, w, [answer], t, v);
    steps := Granting(c) + [answer];
  }

  lemma Misses(tm: Timing, c: Token, s: State, w: Watch, ttl: nat)
    returns (steps: seq<Step>, t: State, v: Watch)
    requires Rechecks(s, c, ttl)
    ensures Leads(tm, c, s, w, steps, t, v)
    ensures LoadsWith(t, c, ttl, IDLE) && t.now == s.now && t.ttl == ttl && t.cell == Some(Lease(c, ttl))
    ensures v.tickedAt == t.now && v.lost == 0
  {
    var look, read := Look(c, NotFound), Tell(c, ReadAnswer(false, false));
    StepLeads(tm, c, s, w, look);
    var s1 := Next(s, look);
    StepLeads(tm, c, s1, w, read);
    t, v := Next(s1, read), NextWatch(tm, s1, w, c, read);
    LeadsOn(tm, c, s, w, [look], s1, w, [read], t, v);
    steps := [look] + [read];
  }

  /** A caller that starts its load as late as it may. */
  lemma LateStart(tm: Timing, c: Token, ttl: nat, ms: nat)
    returns (steps: seq<Step>, t: State, v: Watch)
    requires ms <= tm.lag
    ensures Leads(tm, c, Start(ttl), NEW_WATCH, steps, t, v)
    ensures LoadsWith(t, c, ttl, IDLE) && t.now == ms && t.ttl == ttl && t.cell == Some(Lease(c, ttl))
    ensures v.tickedAt == t.now && v.lost == 0
  {
    var s, w, more;
    steps, s, w := Knows(tm, c, ttl);
    StepLeads(tm, c, s, w, Tick(ms));
    var s1 := Next(s, Tick(ms));
    LeadsOn(tm, c, Start(ttl), NEW_WATCH, steps, s, w, [Tick(ms)], s1, w);
    more, t, v := Misses(tm, c, s1, w, ttl);
    LeadsOn(tm, c, Start(ttl), NEW_WATCH, steps + [Tick(ms)], s1, w, more, t, v);
    steps := (steps + [Tick(ms)]) + more;
  }

  /** A caller at its first tick. */
  lemma FirstTick(tm: Timing, c: Token, ttl: nat, ms: nat, first: nat)
    returns (steps: seq<Step>, t: State, v: Watch)
    requires ms <= tm.lag && tm.beat <= first <= tm.beat + tm.late
    ensures Leads(tm, c, Start(ttl), NEW_WATCH, steps, t, v)
    ensures AtTick(tm, t, v, c, ttl) && t.now == ms + first && t.ttl == ttl && t.cell == Some(Lease(c, ttl)) && v.lost == 0
  {
    var s, w;
    steps, s, w := LateStart(tm, c, ttl, ms);
    TimePasses(tm, c, s, w, ttl, IDLE, first);
    StepLeads(tm, c, s, w, Tick(first));
    t, v := Next(s, Tick(first)), w;
    LeadsOn(tm, c, Start(ttl), NEW_WATCH, steps, s, w, [Tick(first)], t, v);
    steps := steps + [Tick(first)];
  }

  /** From a due tick: all renewals that may be lost are, and the next one is on its way as long as may be. */
  lemma Starved(tm: Timing, c: Token, s: State, w: Watch, end: int)
    returns (steps: seq<Step>, t: State, v: Watch)
    requires tm.beat >= 1 && AtTick(tm, s, w, c, end) && w.lost == 0
    ensures Leads(tm, c, s, w, steps, t, v)
    ensures LoadsUntil(t, c, end) && t.now == s.now + Pauses(tm, tm.losses) + Rest(tm)
  {
    var s1, w1;
    steps, s1, w1 := LostRounds(tm, c, s, w, end, tm.losses);
    var last;
    last, t, v := LastWait(tm, c, s1, w1, end);
    LeadsOn(tm, c, s, w, steps, s1, w1, last, t, v);
    steps := steps + last;
  }

  lemma LapsesFromTheStart(tm: Timing, c: Token, ttl: nat)
    returns (steps: seq<Step>, t: State, v: Watch)
    requires tm.beat >= 1 && tm.lag + tm.beat + tm.late + Pauses(tm, tm.losses) + Rest(tm) >= ttl
    ensures Leads(tm, c, Start(ttl), NEW_WATCH, steps, t, v)
    ensures LoadsUntil(t, c, ttl) && t.now >= ttl
  {
    var s, w;
    steps, s, w := FirstTick(tm, c, ttl, tm.lag, tm.beat + tm.late);
    var more;
    more, t, v := Starved(tm, c, s, w, ttl);
    LeadsOn(tm, c, Start(ttl), NEW_WATCH, steps, s, w, more, t, v);
    steps := steps + more;
  }

  lemma LapsesAfterRenewal(tm: Timing, c: Token, ttl: nat)
    returns (steps: seq<Step>, t: State, v: Watch)
    requires tm.beat >= 1 && tm.beat < ttl && Pause(tm) + Pauses(tm, tm.losses) + Rest(tm) >= ttl
    ensures Leads(tm, c, Start(ttl), NEW_WATCH, steps, t, v)
    ensures LoadsUntil(t, c, tm.beat + ttl) && t.now >= tm.beat + ttl
  {
    var s, w, s1, w1, round, more;
    steps, s, w := FirstTick(tm, c, ttl, 0, tm.beat);
    round, s1, w1 := RenewedRound(tm, c, s, w, ttl);
    LeadsOn(tm, c, Start(ttl), NEW_WATCH, steps, s, w, round, s1, w1);
    more, t, v := Starved(tm, c, s1, w1, tm.beat + ttl);
    LeadsOn(tm, c, Start(ttl), NEW_WATCH, steps + round, s1, w1, more, t, v);
    steps := (steps + round) + more;
  }

  /** In no run that is in time for a caller does that caller go on with a lapsed lease. */
  ghost predicate NeverLapses(tm: Timing, ttl: nat) {
    forall c, steps | KeepsTime(tm, Start(ttl), NEW_WATCH, c, steps) ::
      var s := After(Start(ttl), steps);
      c in s.callers && Holding(s.callers[c].phase) ==> !Lapsed(s, c)
  }

  /** The heartbeat keeps the lease in every timely run if and only if the time to live covers the bound. */
  lemma HeartbeatExactly(tm: Timing, ttl: nat)
    requires tm.beat >= 1
    ensures NeverLapses(tm, ttl) <==> Sufficient(tm, ttl)
  {
    if Sufficient(tm, ttl) {
      forall c, steps | KeepsTime(tm, Start(ttl), NEW_WATCH, c, steps)
        ensures var s := After(Start(ttl), steps);
                c in s.callers && Holding(s.callers[c].phase) ==> !Lapsed(s, c)
      {
        HeartbeatKeepsLease(tm, ttl, c, steps);
      }
    } else if tm.lag + tm.beat + tm.late + Pauses(tm, tm.losses) + Rest(tm) >= ttl {
      var steps, s, _ := LapsesFromTheStart(tm, 0, ttl);
      assert After(Start(ttl), steps) == s && Lapsed(s, 0);
    } else {
      var steps, s, _ := LapsesAfterRenewal(tm, 0, ttl);
      assert After(Start(ttl), steps) == s && Lapsed(s, 0);
    }
  }
}
