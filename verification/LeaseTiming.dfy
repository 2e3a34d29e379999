/**
 The heartbeat of src/cache/coordinator.ts at work in LeaseProtocol: how timely renewals have to
 be for a lease never to lapse, with every other caller's commands in between, and what that
 means for single flight.
 */
module LeaseTiming {
  import opened Common
  import opened LeaseCell
  import opened Coordinator
  import opened LeaseProtocol

  // ---------- renewals less than the time to live apart ----------

  /** The lease of `c`, granted or renewed at `last`, is not released and always renewed within its ttl. */
  predicate RenewedInTime(s: State, c: Token, last: int, steps: seq<Step>)
    decreases |steps|
  {
    steps != [] ==>
      && Enabled(s, steps[0])
      && (steps[0].Tick? ==> s.now + steps[0].ms < last + s.ttl)
      && steps[0] != Apply(Release(c))
      && RenewedInTime(Next(s, steps[0]), c, if steps[0] == Apply(Renew(c)) then s.now else last, steps[1..])
  }

  /** The lease is in force until at least its time to live after `last`. */
  ghost predicate InForce(s: State, c: Token, last: int) {
    c in s.grants && last <= s.now < last + s.ttl <= s.grants[c]
  }

  lemma InForceStep(s: State, c: Token, last: int, step: Step)
    requires LeaseInv(s) && InForce(s, c, last) && Enabled(s, step) && step != Apply(Release(c))
    requires step.Tick? ==> s.now + step.ms < last + s.ttl
    ensures InForce(Next(s, step), c, if step == Apply(Renew(c)) then s.now else last)
  {
    assert s.cell == Some(Lease(c, s.grants[c]));
    match step
    case Apply(_) =>
    case Tick(_) =>
    case _ => assert Next(s, step).grants == s.grants && Next(s, step).now == s.now;
  }

  /** Whatever the other callers do, such a lease never lapses, and its caller owns the cell. */
  lemma {:induction false} RenewalsKeepLease(s: State, c: Token, last: int, steps: seq<Step>)
    requires LeaseInv(s) && InForce(s, c, last) && RenewedInTime(s, c, last, steps)
    ensures IsRun(s, steps)
    ensures var t := After(s, steps);
            !Lapsed(t, c) && Live(t.cell, t.now) == Some(Lease(c, t.grants[c]))
    decreases |steps|
  {
    if steps != [] {
      LeaseStepKeeps(s, steps[0]);
      InForceStep(s, c, last, steps[0]);
      RenewalsKeepLease(
        Next(s, steps[0]), c, if steps[0] == Apply(Renew(c)) then s.now else last, steps[1..]);
    }
  }

  // ---------- how the heartbeat is timed ----------

  /**
   Ticks of the timer come `beat` to `beat + late` apart, the first that long after the load starts.
   A renewal is applied within `delay` of its tick and answered within `turn`, but up to `losses` in
   a row may fail without being applied.  A load starts within `lag` of its caller's acquisition, and
   ends within `windup` of its caller's abort.
   */
  datatype Timing = Timing(beat: nat, late: nat, delay: nat, turn: nat, losses: nat, lag: nat, windup: nat)

  function Smaller(a: nat, b: nat): nat { if a < b then a else b }

  function Larger(a: nat, b: nat): nat { if a < b then b else a }

  /** The most and the least time that `n` ticks take. */
  function Most(tm: Timing, n: nat): nat {
    if n == 0 then 0 else Most(tm, n - 1) + tm.beat + tm.late
  }

  function Least(tm: Timing, n: nat): nat {
    if n == 0 then 0 else Least(tm, n - 1) + tm.beat
  }

  /** How many ticks can come before a reply that takes `turn`. */
  function Skips(tm: Timing, turn: nat): nat
    requires tm.beat >= 1
    decreases turn
  {
    if turn < tm.beat then 0 else 1 + Skips(tm, turn - tm.beat)
  }

  /** The latest tick, after a renewal is sent, that is skipped because its reply is outstanding. */
  function LastSkipped(tm: Timing): nat
    requires tm.beat >= 1
  {
    Smaller(tm.turn, Most(tm, Skips(tm, tm.turn)))
  }

  /** From one renewal sent to the next. */
  function Pause(tm: Timing): nat
    requires tm.beat >= 1
  {
    LastSkipped(tm) + tm.beat + tm.late
  }

  function Pauses(tm: Timing, n: nat): nat
    requires tm.beat >= 1
  {
    if n == 0 then 0 else Pauses(tm, n - 1) + Pause(tm)
  }

  /** From the tick on: until the renewal is applied, or until an aborted load is over. */
  function Rest(tm: Timing): nat {
    Larger(Smaller(tm.delay, tm.turn), tm.windup)
  }

  /** The time to live covers the longest time without a renewal, from the acquisition and from a renewal. */
  predicate Sufficient(tm: Timing, ttl: nat) {
    && tm.beat >= 1
    && tm.lag + tm.beat + tm.late + Pauses(tm, tm.losses) + Rest(tm) < ttl
    && Pause(tm) + Pauses(tm, tm.losses) + Rest(tm) < ttl
  }

  lemma {:induction false} SkipsAll(tm: Timing, n: nat, turn: nat)
    requires tm.beat >= 1 && Least(tm, n) <= turn
    ensures n <= Skips(tm, turn)
    decreases n
  {
    if n > 0 {
      SkipsAll(tm, n - 1, turn - tm.beat);
    }
  }

  /** The skipped ticks fit before the reply, and one more does not. */
  lemma {:induction false} SkipsFit(tm: Timing, turn: nat)
    requires tm.beat >= 1
    ensures Least(tm, Skips(tm, turn)) <= turn < Least(tm, Skips(tm, turn) + 1)
    decreases turn
  {
    if turn >= tm.beat {
      SkipsFit(tm, turn - tm.beat);
    }
  }

  lemma {:induction false} LeastToMost(tm: Timing, n: nat)
    ensures Least(tm, n) <= Most(tm, n)
  {
    if n > 0 {
      LeastToMost(tm, n - 1);
    }
  }

  lemma {:induction false} MoreTakesLonger(tm: Timing, m: nat, n: nat)
    requires m <= n
    ensures Most(tm, m) <= Most(tm, n)
    decreases n
  {
    if m < n {
      MoreTakesLonger(tm, m, n - 1);
    }
  }

  lemma {:induction false} PausesGrow(tm: Timing, m: nat, n: nat)
    requires tm.beat >= 1 && m <= n
    ensures Pauses(tm, m) <= Pauses(tm, n)
    decreases n
  {
    if m < n {
      PausesGrow(tm, m, n - 1);
    }
  }

  /** A reply comes before the pause is over. */
  lemma PauseCoversTurn(tm: Timing)
    requires tm.beat >= 1
    ensures tm.turn <= Pause(tm)
  {
    SkipsFit(tm, tm.turn);
    LeastToMost(tm, Skips(tm, tm.turn));
  }

  /**
   A caller's last tick and last renewal sent, the ticks skipped since, what became of the renewal,
   how many have failed in a row, and when an aborted load is over.
   */
  datatype Watch = Watch(tickedAt: int, sentAt: int, skipped: nat, renewed: Option<bool>, lost: nat, leaveBy: int)

  const NEW_WATCH := Watch(0, 0, 0, None, 0, 0)

  /** The renewal in flight, not yet applied, has to be: no further one may fail. */
  predicate MustApply(tm: Timing, w: Watch) {
    w.renewed.None? && w.lost >= tm.losses
  }

  predicate Given(k: Caller) {
    k.phase.Acquiring? && k.answer == Some(true)
  }

  /** The step comes in time for the caller `c`. */
  predicate OnTime(tm: Timing, s: State, w: Watch, c: Token, step: Step) {
    c in s.callers ==>
      var k := s.callers[c];
      match step
      case Tick(ms) =>
        var now := s.now + ms;
        && ((Given(k) || k.phase.Rechecking?) && k.acquiredAt.Some? ==> now <= k.acquiredAt.value + tm.lag)
        && (k.phase == Loading(true) ==>
              && now <= (if k.aborted then w.leaveBy else w.tickedAt + tm.beat + tm.late)
              && (k.beat.renewalInFlight ==>
                    now <= w.sentAt + if MustApply(tm, w) then Smaller(tm.delay, tm.turn) else tm.turn))
      case Beat(d) => d == c ==> w.tickedAt + tm.beat <= s.now
      case BeatReply(d, reply) =>
        d == c && k.phase == Loading(true) ==>
          if reply.RenewalError? then !MustApply(tm, w) else w.renewed == Some(reply.renewed)
      case _ => true
  }

  function Replied(w: Watch): Watch {
    if w.renewed.None? then w.(lost := w.lost + 1) else w
  }

  function NextWatch(tm: Timing, s: State, w: Watch, c: Token, step: Step): Watch
    requires Enabled(s, step)
  {
    match step
    case Tell(d, _) => if d == c then w.(tickedAt := s.now, lost := 0) else w
    case Signal(d) => if d == c && !s.callers[c].aborted then w.(leaveBy := s.now + tm.windup) else w
    case Beat(d) =>
      if d != c then w
      else if Beaten(s.callers[c].beat, s.callers[c].aborted).1 then
        w.(tickedAt := s.now, sentAt := s.now, skipped := 0, renewed := None)
      else w.(tickedAt := s.now, skipped := w.skipped + 1)
    case BeatReply(d, reply) => if d == c then Replied(w) else w
    case Apply(cmd) =>
      if cmd == Renew(c) then w.(renewed := Some(CellRenewed(s.cell, s.now, c, s.ttl).1), lost := 0) else w
    case _ => w
  }

  // ---------- a timely heartbeat keeps the lease ----------

  /** What may still pass from a renewal sent, or due, until the next one applied. */
  function Left(tm: Timing, w: Watch): nat
    requires tm.beat >= 1 && w.lost <= tm.losses
  {
    Pauses(tm, tm.losses - w.lost) + Rest(tm)
  }

  /** A loading caller whose lease ends at `end` is sure of the next renewal before that. */
  ghost predicate InTouch(tm: Timing, ttl: nat, now: int, end: int, w: Watch, h: Heartbeat, aborted: bool)
    requires tm.beat >= 1
  {
    && now < end
    && !h.stopped
    && w.tickedAt <= now
    && w.lost <= tm.losses
    && (h.renewalInFlight ==>
          && w.sentAt <= now <= w.sentAt + tm.turn
          && (MustApply(tm, w) ==> now <= w.sentAt + Smaller(tm.delay, tm.turn))
          && (if w.renewed.None? then w.sentAt + Left(tm, w) < end else w.renewed.value && w.sentAt + ttl <= end))
    && (if aborted then
          w.leaveBy <= now + tm.windup && (w.leaveBy < end || (h.renewalInFlight && MustApply(tm, w)))
        else
          && now <= w.tickedAt + tm.beat + tm.late
          && (if h.renewalInFlight then TicksSkipped(tm, w) else w.tickedAt + tm.beat + tm.late + Left(tm, w) < end))
  }

  /** The ticks since the renewal was sent, all before its reply. */
  predicate TicksSkipped(tm: Timing, w: Watch) {
    && w.sentAt + Least(tm, w.skipped) <= w.tickedAt <= w.sentAt + Most(tm, w.skipped)
    && w.tickedAt <= w.sentAt + tm.turn
  }

  ghost predicate Secure(tm: Timing, s: State, w: Watch, c: Token)
    requires tm.beat >= 1
  {
    c in s.callers ==>
      var k := s.callers[c];
      && (Given(k) || k.phase.Rechecking? ==>
            && c in s.grants && k.acquiredAt.Some?
            && k.acquiredAt.value <= s.now <= k.acquiredAt.value + tm.lag
            && k.acquiredAt.value + s.ttl <= s.grants[c])
      && (k.phase == Loading(true) ==>
            c in s.grants && InTouch(tm, s.ttl, s.now, s.grants[c], w, k.beat, k.aborted))
  }

  /** The skip rule costs at most the ticks that fit before the reply; the next one renews. */
  lemma NextRenewal(tm: Timing, w: Watch)
    requires tm.beat >= 1 && TicksSkipped(tm, w)
    ensures w.tickedAt + tm.beat + tm.late <= w.sentAt + Pause(tm)
  {
    SkipsAll(tm, w.skipped, tm.turn);
    MoreTakesLonger(tm, w.skipped, Skips(tm, tm.turn));
  }

  lemma TouchTick(tm: Timing, ttl: nat, now: int, later: int, end: int, w: Watch, h: Heartbeat, aborted: bool)
    requires Sufficient(tm, ttl) && InTouch(tm, ttl, now, end, w, h, aborted) && now <= later
    requires later <= if aborted then w.leaveBy else w.tickedAt + tm.beat + tm.late
    requires h.renewalInFlight ==> later <= w.sentAt + if MustApply(tm, w) then Smaller(tm.delay, tm.turn) else tm.turn
    ensures InTouch(tm, ttl, later, end, w, h, aborted)
  {
    PauseCoversTurn(tm);
    if h.renewalInFlight && !aborted {
      NextRenewal(tm, w);
    }
  }

  lemma TouchBeat(tm: Timing, ttl: nat, now: int, end: int, w: Watch, h: Heartbeat, aborted: bool)
    requires Sufficient(tm, ttl) && InTouch(tm, ttl, now, end, w, h, aborted) && w.tickedAt + tm.beat <= now
    ensures var (g, sent) := Beaten(h, aborted);
            var v := if sent then w.(tickedAt := now, sentAt := now, skipped := 0, renewed := None)
                     else w.(tickedAt := now, skipped := w.skipped + 1);
            InTouch(tm, ttl, now, end, v, g, aborted)
  {
  }

  lemma TouchReply(tm: Timing, ttl: nat, now: int, end: int, w: Watch, h: Heartbeat, aborted: bool, reply: RenewalReply)
    requires Sufficient(tm, ttl) && InTouch(tm, ttl, now, end, w, h, aborted) && h.renewalInFlight
    requires if reply.RenewalError? then !MustApply(tm, w) else w.renewed == Some(reply.renewed)
    ensures InTouch(tm, ttl, now, end, Replied(w), Answered(h, reply), aborted)
  {
    if !aborted {
      NextRenewal(tm, w);
      PausesGrow(tm, tm.losses - w.lost, tm.losses);
    }
  }

  lemma TouchRenewed(tm: Timing, ttl: nat, now: int, end: int, w: Watch, h: Heartbeat, aborted: bool)
    requires Sufficient(tm, ttl) && InTouch(tm, ttl, now, end, w, h, aborted)
    ensures InTouch(tm, ttl, now, now + ttl, w.(renewed := Some(true), lost := 0), h, aborted)
  {
  }

  lemma TouchSignal(tm: Timing, ttl: nat, now: int, end: int, w: Watch, h: Heartbeat)
    requires Sufficient(tm, ttl) && InTouch(tm, ttl, now, end, w, h, false)
    ensures InTouch(tm, ttl, now, end, w.(leaveBy := now + tm.windup), h, true)
  {
    PauseCoversTurn(tm);
    if h.renewalInFlight {
      NextRenewal(tm, w);
    }
  }

  /** A step that does not touch the caller, its grant or the clock. */
  lemma SecureElsewhere(tm: Timing, s: State, t: State, w: Watch, c: Token)
    requires tm.beat >= 1 && Secure(tm, s, w, c) && t.now == s.now && t.ttl == s.ttl
    requires c in t.callers ==> c in s.callers && t.callers[c] == s.callers[c]
    requires c in s.grants ==> c in t.grants && t.grants[c] == s.grants[c]
    ensures Secure(tm, t, w, c)
  {
  }

  /** What a caller goes on to when it is told something, as far as its lease is concerned. */
  lemma TellShape(k: Caller, ev: Event)
    requires CanTell(k, ev)
    ensures var p := Advance(k.phase, ev).value;
            var l := Entered(k, p);
            && !Given(l) && l.phase == p && l.acquiredAt == k.acquiredAt && l.aborted == k.aborted
            && (p.Rechecking? ==> Given(k))
            && (p == Loading(true) ==> k.phase.Rechecking? && l.beat == Heartbeat(false, false) && !k.aborted)
  {
  }

  lemma SecureTell(tm: Timing, s: State, w: Watch, c: Token, ev: Event)
    requires Sufficient(tm, s.ttl) && Secure(tm, s, w, c) && Enabled(s, Tell(c, ev))
    ensures Secure(tm, Next(s, Tell(c, ev)), NextWatch(tm, s, w, c, Tell(c, ev)), c)
  {
    TellShape(s.callers[c], ev);
  }

  lemma SecureApply(tm: Timing, s: State, w: Watch, cmd: Command)
    requires LeaseInv(s) && Sufficient(tm, s.ttl) && Secure(tm, s, w, cmd.c) && Enabled(s, Apply(cmd))
    ensures Secure(tm, Applied(s, cmd), NextWatch(tm, s, w, cmd.c, Apply(cmd)), cmd.c)
  {
    var c := cmd.c;
    var k := s.callers[c];
    if cmd.Renew? && k.phase == Loading(true) {
      assert s.cell == Some(Lease(c, s.grants[c]));
      TouchRenewed(tm, s.ttl, s.now, s.grants[c], w, k.beat, k.aborted);
    }
  }

  lemma SecureTick(tm: Timing, s: State, w: Watch, c: Token, ms: nat)
    requires Sufficient(tm, s.ttl) && Secure(tm, s, w, c) && OnTime(tm, s, w, c, Tick(ms))
    ensures Secure(tm, Next(s, Tick(ms)), w, c)
  {
    if c in s.callers && s.callers[c].phase == Loading(true) {
      TouchTick(tm, s.ttl, s.now, s.now + ms, s.grants[c], w, s.callers[c].beat, s.callers[c].aborted);
    }
  }

  /** What a quiet step leaves alone, as far as its caller's lease is concerned. */
  lemma QuietLeaves(s: State, step: Step)
    requires Enabled(s, step) && Quiet(step)
    ensures var t, c := Next(s, step), step.c;
            && t.grants == s.grants && t.now == s.now && t.ttl == s.ttl && c in t.callers
            && (if c !in s.callers then t.callers[c] == NEW_CALLER
                else
                  var k, l := s.callers[c], t.callers[c];
                  && l.phase == k.phase && l.answer == k.answer && l.acquiredAt == k.acquiredAt
                  && l.aborted == (k.aborted || step.Signal?)
                  && l.beat == match step
                               case Beat(_) => Beaten(k.beat, k.aborted).0
                               case BeatReply(_, reply) => Answered(k.beat, reply)
                               case _ => k.beat)
  {
  }

  lemma TouchQuiet(tm: Timing, s: State, w: Watch, c: Token, step: Step)
    requires Sufficient(tm, s.ttl) && Enabled(s, step) && OnTime(tm, s, w, c, step) && Quiet(step) && step.c == c
    requires c in s.callers && s.callers[c].phase == Loading(true) && c in s.grants
    requires InTouch(tm, s.ttl, s.now, s.grants[c], w, s.callers[c].beat, s.callers[c].aborted)
    ensures var l := Next(s, step).callers[c];
            InTouch(tm, s.ttl, s.now, s.grants[c], NextWatch(tm, s, w, c, step), l.beat, l.aborted)
  {
    var k, end := s.callers[c], s.grants[c];
    match step
    case Signal(_) =>
      if !k.aborted {
        TouchSignal(tm, s.ttl, s.now, end, w, k.beat);
      }
    case Beat(_) => TouchBeat(tm, s.ttl, s.now, end, w, k.beat, k.aborted);
    case BeatReply(_, reply) => TouchReply(tm, s.ttl, s.now, end, w, k.beat, k.aborted, reply);
    case _ =>
  }

  lemma SecureQuiet(tm: Timing, s: State, w: Watch, c: Token, step: Step)
    requires Sufficient(tm, s.ttl) && Secure(tm, s, w, c) && Enabled(s, step) && OnTime(tm, s, w, c, step)
    requires Quiet(step) && step.c == c
    ensures Secure(tm, Next(s, step), NextWatch(tm, s, w, c, step), c)
  {
    QuietLeaves(s, step);
    if c in s.callers && s.callers[c].phase == Loading(true) {
      TouchQuiet(tm, s, w, c, step);
    }
  }

  /** The step is not the caller's, nor the clock's. */
  predicate IsElsewhere(step: Step, c: Token) {
    match step
    case Tick(_) => false
    case Evict => true
    case Resend(_) => true
    case Apply(cmd) => cmd.c != c
    case _ => step.c != c
  }

  lemma SecureElse(tm: Timing, s: State, w: Watch, c: Token, step: Step)
    requires tm.beat >= 1 && Secure(tm, s, w, c) && Enabled(s, step) && IsElsewhere(step, c)
    ensures Secure(tm, Next(s, step), NextWatch(tm, s, w, c, step), c)
  {
    SecureElsewhere(tm, s, Next(s, step), w, c);
  }

  lemma SecureStep(tm: Timing, s: State, w: Watch, c: Token, step: Step)
    requires LeaseInv(s) && Sufficient(tm, s.ttl) && Secure(tm, s, w, c) && Enabled(s, step) && OnTime(tm, s, w, c, step)
    ensures Secure(tm, Next(s, step), NextWatch(tm, s, w, c, step), c)
  {
    if IsElsewhere(step, c) {
      SecureElse(tm, s, w, c, step);
    } else {
      match step
      case Tick(ms) => SecureTick(tm, s, w, c, ms);
      case Tell(_, ev) => SecureTell(tm, s, w, c, ev);
      case Apply(cmd) => SecureApply(tm, s, w, cmd);
      case _ => SecureQuiet(tm, s, w, c, step);
    }
  }

  /** The run is in time for `c` at every step. */
  predicate KeepsTime(tm: Timing, s: State, w: Watch, c: Token, steps: seq<Step>)
    ensures KeepsTime(tm, s, w, c, steps) ==> IsRun(s, steps)
    decreases |steps|
  {
    steps != [] ==>
      && Enabled(s, steps[0])
      && OnTime(tm, s, w, c, steps[0])
      && KeepsTime(tm, Next(s, steps[0]), NextWatch(tm, s, w, c, steps[0]), c, steps[1..])
  }

  lemma SecureHolds(tm: Timing, s: State, w: Watch, c: Token)
    requires LeaseInv(s) && Sufficient(tm, s.ttl) && Secure(tm, s, w, c)
    requires c in s.callers && Holding(s.callers[c].phase)
    ensures !Lapsed(s, c) && Live(s.cell, s.now) == Some(Lease(c, s.grants[c]))
  {
  }

  lemma {:induction false} TimelyRunSecure(tm: Timing, s: State, w: Watch, c: Token, steps: seq<Step>)
    requires LeaseInv(s) && Sufficient(tm, s.ttl) && Secure(tm, s, w, c) && KeepsTime(tm, s, w, c, steps)
    ensures IsRun(s, steps)
    ensures var t := After(s, steps);
            c in t.callers && Holding(t.callers[c].phase) ==>
              !Lapsed(t, c) && Live(t.cell, t.now) == Some(Lease(c, t.grants[c]))
    decreases |steps|
  {
    if steps == [] {
      if c in s.callers && Holding(s.callers[c].phase) {
        SecureHolds(tm, s, w, c);
      }
    } else {
      LeaseStepKeeps(s, steps[0]);
      SecureStep(tm, s, w, c, steps[0]);
      TimelyRunSecure(tm, Next(s, steps[0]), NextWatch(tm, s, w, c, steps[0]), c, steps[1..]);
    }
  }

  /**
   In every run that is in time for a caller, with any timing of all the others, the caller owns
   the cell for as long as it goes on with the lease - skipped ticks and aborts included.
   */
  lemma HeartbeatKeepsLease(tm: Timing, ttl: nat, c: Token, steps: seq<Step>)
    requires Sufficient(tm, ttl) && KeepsTime(tm, Start(ttl), NEW_WATCH, c, steps)
    ensures IsRun(Start(ttl), steps)
    ensures var s := After(Start(ttl), steps);
            c in s.callers && Holding(s.callers[c].phase) ==>
              !Lapsed(s, c) && Live(s.cell, s.now) == Some(Lease(c, s.grants[c]))
  {
    TimelyRunSecure(tm, Start(ttl), NEW_WATCH, c, steps);
  }

  /** If replies come before the next tick, this is what `losses` lost renewals in a row take. */
  lemma LossesSurvived(tm: Timing, ttl: nat)
    requires tm.turn < tm.beat
    ensures Sufficient(tm, ttl) <==> tm.lag + Most(tm, tm.losses + 1) + Rest(tm) < ttl
  {
    assert Pause(tm) == tm.beat + tm.late;
    PausesAreTicks(tm, tm.losses);
  }

  lemma {:induction false} PausesAreTicks(tm: Timing, n: nat)
    requires tm.turn < tm.beat
    ensures Pauses(tm, n) == Most(tm, n)
  {
    if n > 0 {
      PausesAreTicks(tm, n - 1);
    }
  }

  /**
   Whatever heartbeat is configured, it suffices if no renewal is lost, replies come before the next
   tick, and the start of the load, the lateness of the timer and the rest of a renewal take less than
   half the time to live together.
   */
  lemma ConfiguredBeatSuffices(tm: Timing, raw: Option<int>, ttl: nat)
    requires ttl >= 2 && tm.beat == HeartbeatMs(raw, ttl) && tm.losses == 0
    requires tm.turn < tm.beat && 2 * (tm.lag + tm.late + Rest(tm)) < ttl
    ensures Sufficient(tm, ttl)
  {
    TwoBeatsFit(raw, ttl);
    LossesSurvived(tm, ttl);
    assert Most(tm, 1) == tm.beat + tm.late;
  }

  // ---------- single flight on time ----------

  function Watches(tm: Timing, s: State, ws: Token -> Watch, step: Step): Token -> Watch
    requires Enabled(s, step)
  {
    (c: Token) => NextWatch(tm, s, ws(c), c, step)
  }

  /** Every step is in time for every caller, and undisturbed otherwise. */
  ghost predicate IsTimelyRun(tm: Timing, s: State, ws: Token -> Watch, steps: seq<Step>)
    decreases |steps|
  {
    steps != [] ==>
      && Enabled(s, steps[0])
      && Undisturbed(s, steps[0])
      && (forall c :: OnTime(tm, s, ws(c), c, steps[0]))
      && IsTimelyRun(tm, Next(s, steps[0]), Watches(tm, s, ws, steps[0]), steps[1..])
  }

  ghost predicate AllSecure(tm: Timing, s: State, ws: Token -> Watch)
    requires tm.beat >= 1
  {
    forall c :: Secure(tm, s, ws(c), c)
  }

  lemma AllSecureStep(tm: Timing, s: State, ws: Token -> Watch, step: Step)
    requires LeaseInv(s) && Sufficient(tm, s.ttl) && AllSecure(tm, s, ws) && Enabled(s, step)
    requires forall c :: OnTime(tm, s, ws(c), c, step)
    ensures AllSecure(tm, Next(s, step), Watches(tm, s, ws, step)) && NoneLapsed(Next(s, step))
  {
    var t, vs := Next(s, step), Watches(tm, s, ws, step);
    LeaseStepKeeps(s, step);
    forall c ensures Secure(tm, t, vs(c), c) {
      SecureStep(tm, s, ws(c), c, step);
    }
    forall c | c in t.callers && Holding(t.callers[c].phase) ensures !Lapsed(t, c) {
      SecureHolds(tm, t, vs(c), c);
    }
  }

  lemma {:induction false} TimelyRunIsCalm(tm: Timing, s: State, ws: Token -> Watch, steps: seq<Step>)
    requires LeaseInv(s) && Sufficient(tm, s.ttl) && AllSecure(tm, s, ws) && IsTimelyRun(tm, s, ws, steps)
    ensures IsCalmRun(s, steps)
    decreases |steps|
  {
    if steps != [] {
      AllSecureStep(tm, s, ws, steps[0]);
      LeaseStepKeeps(s, steps[0]);
      TimelyRunIsCalm(tm, Next(s, steps[0]), Watches(tm, s, ws, steps[0]), steps[1..]);
    }
  }

  lemma {:induction false} CalmRunSplits(s: State, a: seq<Step>, b: seq<Step>)
    requires IsCalmRun(s, a + b)
    ensures IsRun(s, a) && IsCalmRun(s, a) && IsCalmRun(After(s, a), b)
    decreases |a|
  {
    if a == [] {
      assert a + b == b;
    } else {
      assert (a + b)[0] == a[0] && (a + b)[1..] == a[1..] + b;
      CalmRunSplits(Next(s, a[0]), a[1..], b);
    }
  }

  /**
   With every caller's heartbeat on time, no lease lapses and the run is single flight: at no point
   two loads, one provider answer until the entry goes, and no load from when it is written.
   */
  lemma SingleFlightOnTime(tm: Timing, ttl: nat, before: seq<Step>, steps: seq<Step>)
    requires Sufficient(tm, ttl) && IsTimelyRun(tm, Start(ttl), (_: Token) => NEW_WATCH, before + steps)
    ensures IsRun(Start(ttl), before)
    ensures var s := After(Start(ttl), before);
            && NoneLapsed(s)
            && (forall c, d | c in s.callers && d in s.callers && s.callers[c].phase.Loading? && s.callers[d].phase.Loading?
                  :: c == d)
            && (Evict !in before ==> Provided(before) <= 1)
            && (Evict !in steps && s.stored ==> IsRun(s, steps) && LoadStarts(s, steps) == 0 && Provided(steps) == 0)
  {
    TimelyRunIsCalm(tm, Start(ttl), (_: Token) => NEW_WATCH, before + steps);
    CalmRunSplits(Start(ttl), before, steps);
    CalmRunKeeps(Start(ttl), before);
    SingleFlight(ttl, before, steps);
  }
}
