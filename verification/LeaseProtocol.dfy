/**
 All callers of one cache key, on any number of replicas, sharing a Redis with one lease cell
 and one fresh entry (src/cache/coordinator.ts with the lease scripts of src/cache/store.ts).
 Commands travel: each is sent, applied at some later time or never, answered or not, and sent
 again if its reply is lost, so that leases nobody knows of and commands applied long after their
 caller has gone are runs too.
 */
module LeaseProtocol {
  import opened Common
  import opened LeaseCell
  import opened Coordinator

  datatype Command = Acquire(c: Token) | Renew(c: Token) | Release(c: Token) | Put(c: Token)

  /** Inside a load: the provider is asked, then the fresh entry is written. */
  datatype Stage = Calling | Putting(applied: bool) | Ended

  /**
   A caller.  `answer` and `read` hold replies not yet looked at; `held` says it ever went on
   with the lease; `acquiredAt` is when Redis last gave it the lease.
   */
  datatype Caller = Caller(
    phase: Phase, aborted: bool, answer: Option<bool>, read: Option<ReadReply>, stage: Stage,
    beat: Heartbeat, held: bool, acquiredAt: Option<int>)

  const NEW_CALLER := Caller(Ready, false, None, None, Ended, Heartbeat(true, false), false, None)

  /**
   Caller tokens are the owner tokens of their leases.  `grants` maps a caller to the end of its
   lease: its last applied acquire or renewal plus the time to live, as long as no release of its
   own was applied.  `stored` says whether the cache holds the fresh entry.
   */
  datatype State = State(
    ttl: nat, now: int, cell: Cell, grants: map<Token, int>, stored: bool, net: multiset<Command>,
    callers: map<Token, Caller>)

  datatype Step =
    | Tick(ms: nat)
    | Arrive(c: Token)
    | Signal(c: Token)                   // the caller's abort signal fires
    | Tell(c: Token, ev: Event)          // the caller goes on
    | Apply(cmd: Command)                // Redis runs a command
    | Resend(cmd: Command)               // the Redis client asks again, its first reply lost
    | Look(c: Token, result: ReadReply)  // a read of the fresh entry ends; a swallowed error reads as NotFound
    | Provide(c: Token, ok: bool)        // the provider answers a load
    | PutEnds(c: Token)                  // the write's reply, or its failure, reaches the caller
    | Beat(c: Token)                     // the heartbeat timer
    | BeatReply(c: Token, reply: RenewalReply)
    | Evict                              // the fresh entry expires or is deleted

  predicate Holding(p: Phase) {
    p.Rechecking? || p == Loading(true)
  }

  predicate Lapsed(s: State, c: Token) {
    c !in s.grants || s.now >= s.grants[c]
  }

  // ---------- the steps ----------

  /** What a caller is told is what has come back to it, with its signal as it is now. */
  predicate CanTell(k: Caller, ev: Event) {
    && Advance(k.phase, ev).Some?
    && match ev
       case AcquireAnswer(acquired, aborted) => k.answer == Some(acquired) && aborted == k.aborted
       case ReadAnswer(found, aborted) => k.read == Some(if found then Found else NotFound) && aborted == k.aborted
       case ReadError(aborted) => k.read == Some(ReadFails) && aborted == k.aborted
       case LoadEnds(_) => k.stage == Ended
       case ReleaseEnds => true
       case Begin(aborted) => aborted == k.aborted
       case AcquireError(aborted) => aborted == k.aborted
       case TimeLeft(_, aborted) => aborted == k.aborted
       case Wake(aborted) => aborted == k.aborted
  }

  /** The reply of the command is still awaited. */
  predicate Awaits(k: Caller, cmd: Command) {
    match cmd
    case Acquire(_) => k.phase.Acquiring?
    case Renew(_) => k.beat.renewalInFlight
    case Release(_) => k.phase.Releasing?
    case Put(_) => k.phase.Loading? && k.stage.Putting?
  }

  predicate Enabled(s: State, step: Step) {
    match step
    case Tick(_) => true
    case Evict => true
    case Arrive(c) => c !in s.callers
    case Signal(c) => c in s.callers
    case Tell(c, ev) => c in s.callers && CanTell(s.callers[c], ev)
    case Apply(cmd) => cmd in s.net && cmd.c in s.callers
    case Resend(cmd) => cmd.c in s.callers && Awaits(s.callers[cmd.c], cmd)
    case Look(c, reply) =>
      && c in s.callers && (s.callers[c].phase.Rechecking? || s.callers[c].phase.Polling?) && s.callers[c].read.None?
      && (reply.Found? ==> s.stored)
    case Provide(c, _) => c in s.callers && s.callers[c].phase.Loading? && s.callers[c].stage.Calling?
    case PutEnds(c) => c in s.callers && s.callers[c].phase.Loading? && s.callers[c].stage.Putting?
    case Beat(c) => c in s.callers && s.callers[c].phase == Loading(true)
    case BeatReply(c, _) => c in s.callers && s.callers[c].beat.renewalInFlight
  }

  /** What a caller sends on entering a phase. */
  function Sent(c: Token, p: Phase): multiset<Command> {
    match p
    case Acquiring => multiset{Acquire(c)}
    case Releasing(_) => multiset{Release(c)}
    case _ => multiset{}
  }

  /** A caller on entering a phase. */
  function Entered(k: Caller, p: Phase): Caller {
    match p
    case Acquiring => k.(phase := p, answer := None)
    case Rechecking => k.(phase := p, read := None, held := true)
    case Polling => k.(phase := p, read := None)
    case Loading(coordinated) => k.(phase := p, stage := Calling, beat := Heartbeat(!coordinated, false))
    case Releasing(_) => k.(phase := p, beat := k.beat.(stopped := true))
    case _ => k.(phase := p)
  }

  function Told(s: State, c: Token, ev: Event): State
    requires Enabled(s, Tell(c, ev))
  {
    var p := Advance(s.callers[c].phase, ev).value;
    s.(callers := s.callers[c := Entered(s.callers[c], p)],
       net := s.net + Sent(c, p))
  }

  function Applied(s: State, cmd: Command): State
    requires Enabled(s, Apply(cmd))
  {
    var t, c, k := s.(net := s.net - multiset{cmd}), cmd.c, s.callers[cmd.c];
    match cmd
    case Acquire(_) =>
      var (cell, ok) := CellAcquired(s.cell, s.now, c, s.ttl);
      t.(cell := cell,
         grants := if ok then s.grants[c := s.now + s.ttl] else s.grants,
         callers := s.callers[c := k.(
           answer := if k.phase.Acquiring? then Some(ok) else k.answer,
           acquiredAt := if ok then Some(s.now) else k.acquiredAt)])
    case Renew(_) =>
      var (cell, ok) := CellRenewed(s.cell, s.now, c, s.ttl);
      t.(cell := cell, grants := if ok then s.grants[c := s.now + s.ttl] else s.grants)
    case Release(_) =>
      if Live(s.cell, s.now).Some? && s.cell.value.owner == c then
        t.(cell := CellReleased(s.cell, s.now, c), grants := s.grants - {c})
      else t
    case Put(_) =>
      t.(stored := true,
         callers := s.callers[c := if k.stage == Putting(false) then k.(stage := Putting(true)) else k])
  }

  function Next(s: State, step: Step): State
    requires Enabled(s, step)
  {
    match step
    case Tick(ms) => s.(now := s.now + ms)
    case Arrive(c) => s.(callers := s.callers[c := NEW_CALLER])
    case Signal(c) => s.(callers := s.callers[c := s.callers[c].(aborted := true)])
    case Tell(c, ev) => Told(s, c, ev)
    case Apply(cmd) => Applied(s, cmd)
    case Resend(cmd) => s.(net := s.net + multiset{cmd})
    case Look(c, reply) => s.(callers := s.callers[c := s.callers[c].(read := Some(reply))])
    case Provide(c, ok) =>
      s.(callers := s.callers[c := s.callers[c].(stage := if ok then Putting(false) else Ended)],
         net := if ok then s.net + multiset{Put(c)} else s.net)
    case PutEnds(c) =>
      s.(callers := s.callers[c := s.callers[c].(stage := Ended)])
    case Beat(c) =>
      var (h, sent) := Beaten(s.callers[c].beat, s.callers[c].aborted);
      s.(callers := s.callers[c := s.callers[c].(beat := h)],
         net := if sent then s.net + multiset{Renew(c)} else s.net)
    case BeatReply(c, reply) =>
      s.(callers := s.callers[c := s.callers[c].(beat := Answered(s.callers[c].beat, reply))])
    case Evict => s.(stored := false)
  }

  function Start(ttl: nat): State {
    State(ttl, 0, None, map[], false, multiset{}, map[])
  }

  predicate IsRun(s: State, steps: seq<Step>)
    decreases |steps|
  {
    steps != [] ==> Enabled(s, steps[0]) && IsRun(Next(s, steps[0]), steps[1..])
  }

  function After(s: State, steps: seq<Step>): State
    requires IsRun(s, steps)
    decreases |steps|
  {
    if steps == [] then s else After(Next(s, steps[0]), steps[1..])
  }

  // ---------- leases: what every run keeps ----------

  /** Who was granted the lease and has not released it owns the cell until the grant ends. */
  ghost predicate GrantsOwn(s: State) {
    forall c | c in s.grants && s.now < s.grants[c] :: s.cell == Some(Lease(c, s.grants[c]))
  }

  ghost predicate CellGranted(s: State) {
    s.cell.Some? ==> s.cell.value.owner in s.grants && s.grants[s.cell.value.owner] == s.cell.value.expiresAt
  }

  ghost predicate CallersGranted(s: State) {
    forall c | c in s.callers ::
      && (Holding(s.callers[c].phase) || (s.callers[c].phase.Acquiring? && s.callers[c].answer == Some(true)) ==>
            c in s.grants)
      && HeldSound(s.callers[c])
  }

  /** Only a caller that went on with the lease releases or renews it. */
  predicate HeldSound(k: Caller) {
    Holding(k.phase) || k.phase.Releasing? || k.beat.renewalInFlight ==> k.held
  }

  /** No release travels before its caller is done with the lease, no renewal for one that never held it. */
  ghost predicate NetSound(s: State) {
    forall cmd | cmd in s.net ::
      && cmd.c in s.callers
      && (cmd.Renew? || cmd.Release? ==> s.callers[cmd.c].held)
      && (cmd.Release? ==> s.callers[cmd.c].phase.Releasing? || s.callers[cmd.c].phase.Exited?)
  }

  /** A lease whose caller never went on with it is not renewed. */
  ghost predicate LeaksBounded(s: State) {
    forall c | c in s.grants ::
      c in s.callers
      && (!s.callers[c].held ==> s.callers[c].acquiredAt.Some? && s.grants[c] == s.callers[c].acquiredAt.value + s.ttl)
  }

  ghost predicate LeaseInv(s: State) {
    GrantsOwn(s) && CellGranted(s) && CallersGranted(s) && NetSound(s) && LeaksBounded(s)
  }

  lemma AcquireKeeps(s: State, c: Token)
    requires LeaseInv(s) && Enabled(s, Apply(Acquire(c)))
    ensures LeaseInv(Applied(s, Acquire(c)))
  {
  }

  lemma RenewKeeps(s: State, c: Token)
    requires LeaseInv(s) && Enabled(s, Apply(Renew(c)))
    ensures LeaseInv(Applied(s, Renew(c)))
  {
  }

  lemma ReleaseKeeps(s: State, c: Token)
    requires LeaseInv(s) && Enabled(s, Apply(Release(c)))
    ensures LeaseInv(Applied(s, Release(c)))
  {
  }

  lemma PutKeeps(s: State, c: Token)
    requires LeaseInv(s) && Enabled(s, Apply(Put(c)))
    ensures LeaseInv(Applied(s, Put(c)))
  {
  }

  /** A caller may change to `k` and send `more` without touching a lease. */
  ghost predicate MayBecome(s: State, c: Token, k: Caller, more: multiset<Command>) {
    && (c in s.callers ==> k.acquiredAt == s.callers[c].acquiredAt && (s.callers[c].held ==> k.held))
    && (Holding(k.phase) || (k.phase.Acquiring? && k.answer == Some(true)) ==> c in s.grants)
    && HeldSound(k)
    && (c in s.callers && (s.callers[c].phase.Releasing? || s.callers[c].phase.Exited?) ==>
          k.phase.Releasing? || k.phase.Exited?)
    && (forall cmd | cmd in more ::
          cmd.c == c && (cmd.Renew? ==> k.held) && (cmd.Release? ==> k.held && k.phase.Releasing?))
  }

  lemma CallerChanges(s: State, c: Token, k: Caller, more: multiset<Command>, t: State)
    requires LeaseInv(s) && MayBecome(s, c, k, more)
    requires t == s.(callers := s.callers[c := k], net := s.net + more)
    ensures LeaseInv(t)
  {
  }

  /** A caller goes on holding the lease only from holding it, or from having been given it. */
  lemma EnteredShape(k: Caller, ev: Event)
    requires CanTell(k, ev) && HeldSound(k)
    ensures var p := Advance(k.phase, ev).value;
            var l := Entered(k, p);
            && l.phase == p && l.acquiredAt == k.acquiredAt && (k.held ==> l.held)
            && (Holding(p) ==> Holding(k.phase) || (k.phase.Acquiring? && k.answer == Some(true)))
            && (p.Acquiring? ==> l.answer == None)
            && HeldSound(l)
            && (k.phase.Releasing? || k.phase.Exited? ==> p.Exited?)
  {
  }

  lemma TellChanges(s: State, c: Token, ev: Event)
    requires CallersGranted(s) && Enabled(s, Tell(c, ev))
    ensures var p := Advance(s.callers[c].phase, ev).value;
            MayBecome(s, c, Entered(s.callers[c], p), Sent(c, p))
  {
    EnteredShape(s.callers[c], ev);
  }

  lemma TellKeeps(s: State, c: Token, ev: Event)
    requires LeaseInv(s) && Enabled(s, Tell(c, ev))
    ensures LeaseInv(Told(s, c, ev))
  {
    var p := Advance(s.callers[c].phase, ev).value;
    TellChanges(s, c, ev);
    var k, more, t := Entered(s.callers[c], p), Sent(c, p), Told(s, c, ev);
    CallerChanges(s, c, k, more, t);
  }

  lemma ClockKeeps(s: State, step: Step)
    requires LeaseInv(s) && Enabled(s, step) && (step.Tick? || step.Evict? || step.Resend?)
    ensures LeaseInv(Next(s, step))
  {
  }

  predicate Quiet(step: Step) {
    !step.Tell? && !step.Apply? && !step.Resend? && !step.Tick? && !step.Evict?
  }

  /** What a quiet step sends. */
  function QuietlySent(s: State, step: Step): multiset<Command>
    requires Enabled(s, step) && Quiet(step)
  {
    match step
    case Provide(c, ok) => if ok then multiset{Put(c)} else multiset{}
    case Beat(c) => if Beaten(s.callers[c].beat, s.callers[c].aborted).1 then multiset{Renew(c)} else multiset{}
    case _ => multiset{}
  }

  lemma QuietShape(s: State, step: Step)
    requires Enabled(s, step) && Quiet(step)
    ensures var t := Next(s, step);
            && step.c in t.callers
            && t == s.(callers := s.callers[step.c := t.callers[step.c]], net := s.net + QuietlySent(s, step))
  {
  }

  lemma QuietKeeps(s: State, step: Step)
    requires LeaseInv(s) && Enabled(s, step) && Quiet(step)
    ensures LeaseInv(Next(s, step))
  {
    var t := Next(s, step);
    QuietShape(s, step);
    CallerChanges(s, step.c, t.callers[step.c], QuietlySent(s, step), t);
  }

  lemma LeaseStepKeeps(s: State, step: Step)
    requires LeaseInv(s) && Enabled(s, step)
    ensures LeaseInv(Next(s, step))
  {
    match step
    case Tell(c, ev) => TellKeeps(s, c, ev);
    case Apply(Acquire(c)) => AcquireKeeps(s, c);
    case Apply(Renew(c)) => RenewKeeps(s, c);
    case Apply(Release(c)) => ReleaseKeeps(s, c);
    case Apply(Put(c)) => PutKeeps(s, c);
    case Tick(_) => ClockKeeps(s, step);
    case Evict => ClockKeeps(s, step);
    case Resend(_) => ClockKeeps(s, step);
    case _ => QuietKeeps(s, step);
  }

  lemma {:induction false} LeaseRunKeeps(s: State, steps: seq<Step>)
    requires LeaseInv(s) && IsRun(s, steps)
    ensures LeaseInv(After(s, steps))
    decreases |steps|
  {
    if steps != [] {
      LeaseStepKeeps(s, steps[0]);
      LeaseRunKeeps(Next(s, steps[0]), steps[1..]);
    }
  }

  /**
   In every run, whoever was granted the lease, has not released it and is within the time to
   live of its last applied acquire or renewal owns the cell; so at most one caller is, and two
   loads under the lease overlap only once one of their leases has lapsed.
   */
  lemma MutualExclusion(ttl: nat, steps: seq<Step>)
    requires IsRun(Start(ttl), steps)
    ensures var s := After(Start(ttl), steps);
            && (forall c | c in s.grants && s.now < s.grants[c] :: Live(s.cell, s.now) == Some(Lease(c, s.grants[c])))
            && (forall c, d | !Lapsed(s, c) && !Lapsed(s, d) :: c == d)
            && (forall c, d | c in s.callers && d in s.callers && c != d
                              && s.callers[c].phase == Loading(true) && s.callers[d].phase == Loading(true)
                  :: c in s.grants && d in s.grants && (Lapsed(s, c) || Lapsed(s, d)))
  {
    LeaseRunKeeps(Start(ttl), steps);
  }

  /**
   A lease whose caller never went on with it - it was aborted, or the answer was lost - is dead
   from its acquisition plus the time to live, and stays so until that caller acquires again.
   */
  lemma LeakBounded(ttl: nat, steps: seq<Step>, c: Token)
    requires IsRun(Start(ttl), steps)
    requires var s := After(Start(ttl), steps); c in s.callers && !s.callers[c].held
    ensures var s := After(Start(ttl), steps);
            Live(s.cell, s.now).Some? && s.cell.value.owner == c ==>
              && !Holding(s.callers[c].phase) && s.callers[c].acquiredAt.Some?
              && s.now < s.callers[c].acquiredAt.value + ttl
  {
    LeaseRunKeeps(Start(ttl), steps);
    TtlStays(Start(ttl), steps);
  }

  lemma {:induction false} TtlStays(s: State, steps: seq<Step>)
    requires IsRun(s, steps)
    ensures After(s, steps).ttl == s.ttl
    decreases |steps|
  {
    if steps != [] {
      TtlStays(Next(s, steps[0]), steps[1..]);
    }
  }

  // ---------- each caller is a call of the coordinator ----------

  /** What a run tells a caller, in order. */
  function Heard(steps: seq<Step>, c: Token): seq<Event> {
    if steps == [] then []
    else (if steps[0].Tell? && steps[0].c == c then [steps[0].ev] else []) + Heard(steps[1..], c)
  }

  /** The caller's phase is where its history leads, and it went on with the lease if that says so. */
  ghost predicate Follows(s: State, c: Token, log: seq<Event>) {
    if c !in s.callers then log == []
    else Reached(log) == Some(s.callers[c].phase) && (s.callers[c].held <==> Acquisitions(log) > 0)
  }

  lemma FollowsElsewhere(s: State, step: Step, c: Token)
    requires Enabled(s, step) && !(step.Tell? && step.c == c)
    ensures c in s.callers ==>
              && c in Next(s, step).callers
              && Next(s, step).callers[c].phase == s.callers[c].phase
              && Next(s, step).callers[c].held == s.callers[c].held
    ensures c !in s.callers && c in Next(s, step).callers ==> Next(s, step).callers[c] == NEW_CALLER
  {
    var t := Next(s, step);
    match step
    case Tell(d, _) => assert t.callers == s.callers[d := t.callers[d]];
    case Apply(cmd) => assert t.callers == s.callers || t.callers == s.callers[cmd.c := t.callers[cmd.c]];
    case Tick(_) => assert t.callers == s.callers;
    case Resend(_) => assert t.callers == s.callers;
    case Evict => assert t.callers == s.callers;
    case _ => assert t.callers == s.callers[step.c := t.callers[step.c]];
  }

  lemma FollowsStep(s: State, step: Step, c: Token, log: seq<Event>)
    requires Enabled(s, step) && Follows(s, c, log)
    ensures Follows(Next(s, step), c, log + Heard([step], c))
  {
    if step.Tell? && step.c == c {
      var longer := log + [step.ev];
      assert longer[..|longer| - 1] == log;
      assert longer == log + Heard([step], c);
    } else {
      assert log + Heard([step], c) == log;
      FollowsElsewhere(s, step, c);
    }
  }

  lemma HeardFirst(steps: seq<Step>, c: Token, log: seq<Event>)
    requires steps != []
    ensures log + Heard(steps, c) == (log + Heard([steps[0]], c)) + Heard(steps[1..], c)
  {
    var first := Heard([steps[0]], c);
    assert [steps[0]][1..] == [];
    assert first == if steps[0].Tell? && steps[0].c == c then [steps[0].ev] else [];
    assert Heard(steps, c) == first + Heard(steps[1..], c);
  }

  lemma {:induction false} FollowsRun(s: State, steps: seq<Step>, c: Token, log: seq<Event>)
    requires IsRun(s, steps) && Follows(s, c, log)
    ensures Follows(After(s, steps), c, log + Heard(steps, c))
    decreases |steps|
  {
    if steps == [] {
      assert log + [] == log;
    } else {
      HeardFirst(steps, c, log);
      FollowsStep(s, steps[0], c, log);
      var longer := log + Heard([steps[0]], c);
      FollowsRun(Next(s, steps[0]), steps[1..], c, longer);
    }
  }

  /**
   Of a caller that has ended without sending a release, a lease is left behind at most until its
   acquisition plus the time to live; every other caller that has ended has sent one release.
   */
  lemma EndedWithoutRelease(ttl: nat, steps: seq<Step>, c: Token)
    requires IsRun(Start(ttl), steps)
    requires var s := After(Start(ttl), steps); c in s.callers && s.callers[c].phase.Exited?
    ensures Reached(Heard(steps, c)) == Some(After(Start(ttl), steps).callers[c].phase)
    ensures Releases(Heard(steps, c)) == if After(Start(ttl), steps).callers[c].held then 1 else 0
    ensures var s := After(Start(ttl), steps);
            Releases(Heard(steps, c)) == 0 && Live(s.cell, s.now).Some? && s.cell.value.owner == c ==>
              s.callers[c].acquiredAt.Some? && s.now < s.callers[c].acquiredAt.value + ttl
  {
    FollowsRun(Start(ttl), steps, c, []);
    assert [] + Heard(steps, c) == Heard(steps, c);
    CallAccounting(Heard(steps, c), After(Start(ttl), steps).callers[c].phase.exit);
    if !After(Start(ttl), steps).callers[c].held {
      LeakBounded(ttl, steps, c);
    }
  }

  // ---------- commands are sent as asked, and none is lost to the count ----------

  /** The step has the command sent, told from what its caller does. */
  predicate Asks(s: State, step: Step, cmd: Command) {
    match cmd
    case Acquire(c) => step == Tell(c, Begin(false))
    case Put(c) => step == Provide(c, true)
    case Renew(c) =>
      step == Beat(c) && c in s.callers && !s.callers[c].aborted
      && !s.callers[c].beat.stopped && !s.callers[c].beat.renewalInFlight
    case Release(c) =>
      step.Tell? && step.c == c && c in s.callers
      && (|| (s.callers[c].phase == Loading(true) && step.ev.LoadEnds?)
          || (s.callers[c].phase.Rechecking? && (Cuts(step.ev) || step.ev == ReadAnswer(true, false))))
  }

  function Asked(s: State, steps: seq<Step>, cmd: Command): nat
    requires IsRun(s, steps)
    decreases |steps|
  {
    if steps == [] then 0
    else Asked(Next(s, steps[0]), steps[1..], cmd) + if Asks(s, steps[0], cmd) then 1 else 0
  }

  function CountOf(steps: seq<Step>, step: Step): nat {
    if steps == [] then 0 else CountOf(steps[1..], step) + if steps[0] == step then 1 else 0
  }

  lemma ConservedStep(s: State, step: Step, cmd: Command)
    requires Enabled(s, step)
    ensures Next(s, step).net[cmd] + (if step == Apply(cmd) then 1 else 0)
            == s.net[cmd] + (if Asks(s, step, cmd) then 1 else 0) + if step == Resend(cmd) then 1 else 0
  {
    match step
    case Tell(c, ev) => TellSends(s, c, ev, cmd);
    case Apply(other) => assert Next(s, step).net == s.net - multiset{other};
    case Resend(other) => assert Next(s, step).net == s.net + multiset{other};
    case Tick(_) =>
    case Evict =>
    case _ => QuietSends(s, step, cmd);
  }

  lemma QuietSends(s: State, step: Step, cmd: Command)
    requires Enabled(s, step) && Quiet(step)
    ensures Next(s, step).net[cmd] == s.net[cmd] + if Asks(s, step, cmd) then 1 else 0
  {
    QuietShape(s, step);
    assert QuietlySent(s, step)[cmd] == if Asks(s, step, cmd) then 1 else 0;
  }

  lemma TellSends(s: State, c: Token, ev: Event, cmd: Command)
    requires Enabled(s, Tell(c, ev))
    ensures var p := Advance(s.callers[c].phase, ev).value;
            Sent(c, p)[cmd] == if Asks(s, Tell(c, ev), cmd) then 1 else 0
  {
  }

  /**
   In every run each command on its way or applied was asked for, or sent again: an acquire at each
   attempt, a write for each provider answer, a renewal at each tick that finds nothing against it,
   and a release whenever a caller is done with the lease.
   */
  lemma {:induction false} CommandsConserved(s: State, steps: seq<Step>, cmd: Command)
    requires IsRun(s, steps)
    ensures After(s, steps).net[cmd] + CountOf(steps, Apply(cmd))
            == s.net[cmd] + Asked(s, steps, cmd) + CountOf(steps, Resend(cmd))
    decreases |steps|
  {
    if steps != [] {
      ConservedStep(s, steps[0], cmd);
      CommandsConserved(Next(s, steps[0]), steps[1..], cmd);
    }
  }

  /** A release applied while the lease is in force leaves the cell free at once, for any other caller. */
  lemma ReleaseFrees(s: State, c: Token, d: Token)
    requires LeaseInv(s) && Enabled(s, Apply(Release(c))) && !Lapsed(s, c)
    requires d in s.callers && Acquire(d) in s.net
    ensures var t := Next(s, Apply(Release(c)));
            && Live(t.cell, t.now).None? && c !in t.grants
            && Enabled(t, Apply(Acquire(d)))
            && Next(t, Apply(Acquire(d))).cell == Some(Lease(d, s.now + s.ttl))
  {
    assert s.cell == Some(Lease(c, s.grants[c]));
  }

  // ---------- single flight ----------

  /**
   An undisturbed step: a recheck sees what is stored, a fresh write is applied before its reply
   and leaves no copy on its way, and nobody loads outside the lease (a lease error, a failed poll
   or the deadline).
   */
  predicate Undisturbed(s: State, step: Step)
    requires Enabled(s, step)
  {
    match step
    case Tell(c, ev) =>
      var p := Advance(s.callers[c].phase, ev).value;
      p != Loading(false) && (p == Loading(true) ==> !ev.ReadError?)
    case Look(c, reply) => s.callers[c].phase.Rechecking? && reply.NotFound? ==> !s.stored
    case PutEnds(c) => s.callers[c].stage == Putting(true) && Put(c) !in s.net
    case _ => true
  }

  /** Whoever holds the lease after the step still has it. */
  predicate NoneLapsed(s: State) {
    forall c | c in s.callers && Holding(s.callers[c].phase) :: !Lapsed(s, c)
  }

  predicate Calm(s: State, step: Step)
    requires Enabled(s, step)
  {
    Undisturbed(s, step) && NoneLapsed(Next(s, step))
  }

  predicate IsCalmRun(s: State, steps: seq<Step>)
    decreases |steps|
  {
    steps != [] ==> Enabled(s, steps[0]) && Calm(s, steps[0]) && IsCalmRun(Next(s, steps[0]), steps[1..])
  }

  /** The caller has seen the fresh entry missing and has not written it. */
  predicate AboutToWrite(k: Caller) {
    || (k.phase.Rechecking? && k.read == Some(NotFound))
    || (k.phase == Loading(true) && (k.stage.Calling? || k.stage == Putting(false)))
  }

  predicate Writing(s: State, c: Token) {
    c in s.callers && s.callers[c].phase == Loading(true) && s.callers[c].stage == Putting(false)
  }

  /** A fresh write travels only while its caller waits for it under the lease. */
  ghost predicate WritesTravel(s: State) {
    forall c | Put(c) in s.net :: c in s.callers && s.callers[c].phase == Loading(true) && s.callers[c].stage.Putting?
  }

  ghost predicate CalmInv(s: State) {
    && s.ttl >= 1
    && WritesTravel(s)
    && NoneLapsed(s)
    && (forall c | c in s.callers ::
          && s.callers[c].phase != Loading(false)
          && (AboutToWrite(s.callers[c]) ==> !s.stored))
  }

  /** What one caller may become and send without an end to the calm. */
  ghost predicate StaysCalm(s: State, c: Token, k: Caller, more: multiset<Command>) {
    && k.phase != Loading(false)
    && (Holding(k.phase) ==> !Lapsed(s, c))
    && (AboutToWrite(k) ==> !s.stored)
    && (Put(c) in s.net || Put(c) in more ==> k.phase == Loading(true) && k.stage.Putting?)
    && (forall d :: d != c ==> Put(d) !in more)
  }

  lemma CallerStaysCalm(s: State, c: Token, k: Caller, more: multiset<Command>, t: State)
    requires CalmInv(s) && StaysCalm(s, c, k, more)
    requires t == s.(callers := s.callers[c := k], net := s.net + more)
    ensures CalmInv(t)
  {
  }

  lemma TellIsCalm(s: State, c: Token, ev: Event)
    requires CalmInv(s) && Enabled(s, Tell(c, ev)) && Calm(s, Tell(c, ev))
    ensures var p := Advance(s.callers[c].phase, ev).value;
            StaysCalm(s, c, Entered(s.callers[c], p), Sent(c, p))
  {
    var p := Advance(s.callers[c].phase, ev).value;
    assert Told(s, c, ev).callers[c].phase == p;
  }

  lemma CalmTell(s: State, c: Token, ev: Event)
    requires CalmInv(s) && Enabled(s, Tell(c, ev)) && Calm(s, Tell(c, ev))
    ensures CalmInv(Told(s, c, ev))
  {
    TellIsCalm(s, c, ev);
    var p := Advance(s.callers[c].phase, ev).value;
    CallerStaysCalm(s, c, Entered(s.callers[c], p), Sent(c, p), Told(s, c, ev));
  }

  /** Grants that move no holder's end into the past leave the calm as it is. */
  lemma GrantsStayCalm(s: State, t: State)
    requires CalmInv(s) && t.ttl == s.ttl && t.stored == s.stored && t.callers.Keys == s.callers.Keys
    requires NoneLapsed(t)
    requires forall c | c in s.callers ::
               var k, l := s.callers[c], t.callers[c];
               l.phase == k.phase && l.stage == k.stage && l.read == k.read
    requires forall c :: Put(c) in t.net ==> Put(c) in s.net
    ensures CalmInv(t)
  {
  }

  lemma CalmGrant(s: State, cmd: Command)
    requires CalmInv(s) && Enabled(s, Apply(cmd)) && Calm(s, Apply(cmd)) && !cmd.Put?
    ensures CalmInv(Applied(s, cmd))
  {
    GrantsStayCalm(s, Applied(s, cmd));
  }

  /** The writer holds the lease, so nobody else is about to write. */
  lemma OneWriter(s: State, c: Token)
    requires LeaseInv(s) && CalmInv(s) && Put(c) in s.net
    ensures c in s.callers && s.callers[c].phase == Loading(true) && s.callers[c].stage.Putting?
    ensures forall d | d in s.callers && AboutToWrite(s.callers[d]) :: d == c
  {
    assert !Lapsed(s, c);
  }

  lemma CalmPut(s: State, c: Token)
    requires LeaseInv(s) && CalmInv(s) && Enabled(s, Apply(Put(c)))
    ensures s.callers[c].phase == Loading(true) && s.callers[c].stage.Putting?
    ensures CalmInv(Applied(s, Put(c)))
  {
    OneWriter(s, c);
    var t := Applied(s, Put(c));
    assert !AboutToWrite(t.callers[c]);
    assert forall d :: Put(d) in t.net ==> Put(d) in s.net;
  }

  lemma CalmClock(s: State, step: Step)
    requires CalmInv(s) && Enabled(s, step) && Calm(s, step) && (step.Tick? || step.Evict? || step.Resend?)
    ensures CalmInv(Next(s, step))
  {
  }

  lemma QuietIsCalm(s: State, step: Step)
    requires CalmInv(s) && Enabled(s, step) && Calm(s, step) && Quiet(step)
    ensures StaysCalm(s, step.c, Next(s, step).callers[step.c], QuietlySent(s, step))
  {
    match step
    case Provide(_, _) =>
    case Look(_, _) =>
    case PutEnds(_) =>
    case _ =>
  }

  lemma CalmQuiet(s: State, step: Step)
    requires CalmInv(s) && Enabled(s, step) && Calm(s, step) && Quiet(step)
    ensures CalmInv(Next(s, step))
  {
    QuietShape(s, step);
    QuietIsCalm(s, step);
    CallerStaysCalm(s, step.c, Next(s, step).callers[step.c], QuietlySent(s, step), Next(s, step));
  }

  lemma CalmStepKeeps(s: State, step: Step)
    requires LeaseInv(s) && CalmInv(s) && Enabled(s, step) && Calm(s, step)
    ensures CalmInv(Next(s, step))
  {
    match step
    case Tell(c, ev) => CalmTell(s, c, ev);
    case Apply(Put(c)) => CalmPut(s, c);
    case Apply(cmd) => CalmGrant(s, cmd);
    case Tick(_) => CalmClock(s, step);
    case Evict => CalmClock(s, step);
    case Resend(_) => CalmClock(s, step);
    case _ => CalmQuiet(s, step);
  }

  lemma {:induction false} CalmRunKeeps(s: State, steps: seq<Step>)
    requires LeaseInv(s) && CalmInv(s) && IsCalmRun(s, steps)
    ensures IsRun(s, steps) && LeaseInv(After(s, steps)) && CalmInv(After(s, steps))
    decreases |steps|
  {
    if steps != [] {
      LeaseStepKeeps(s, steps[0]);
      CalmStepKeeps(s, steps[0]);
      CalmRunKeeps(Next(s, steps[0]), steps[1..]);
    }
  }

  lemma OneLoads(s: State)
    requires LeaseInv(s) && CalmInv(s)
    ensures forall c, d | c in s.callers && d in s.callers && s.callers[c].phase.Loading? && s.callers[d].phase.Loading?
              :: c == d
  {
  }

  /** How many loads a run starts. */
  function LoadStarts(s: State, steps: seq<Step>): nat
    requires IsRun(s, steps)
    decreases |steps|
  {
    if steps == [] then 0
    else
      var t := Next(s, steps[0]);
      LoadStarts(t, steps[1..]) + if steps[0].Tell? && t.callers[steps[0].c].phase.Loading? then 1 else 0
  }

  /** How many loads the provider answers with a list. */
  function Provided(steps: seq<Step>): nat {
    if steps == [] then 0
    else Provided(steps[1..]) + if steps[0].Provide? && steps[0].ok then 1 else 0
  }

  /** The provider has answered: the fresh entry is in the cache or on its way. */
  ghost predicate Fetched(s: State) {
    s.stored || exists c :: Writing(s, c)
  }

  predicate Concerns(step: Step, c: Token) {
    match step
    case Apply(cmd) => cmd.c == c
    case Resend(_) => false
    case Tick(_) => false
    case Evict => false
    case _ => step.c == c
  }

  lemma Untouched(s: State, step: Step, c: Token)
    requires Enabled(s, step) && c in s.callers && !Concerns(step, c)
    ensures c in Next(s, step).callers && Next(s, step).callers[c] == s.callers[c]
  {
    var t := Next(s, step);
    match step
    case Apply(cmd) => assert t.callers == s.callers || t.callers == s.callers[cmd.c := t.callers[cmd.c]];
    case Resend(_) => assert t.callers == s.callers;
    case Tick(_) => assert t.callers == s.callers;
    case Evict => assert t.callers == s.callers;
    case _ => assert t.callers == s.callers[step.c := t.callers[step.c]];
  }

  /** While its write is on its way a caller's own steps keep it so, or apply it. */
  lemma WriterStays(s: State, step: Step, c: Token)
    requires Enabled(s, step) && Undisturbed(s, step) && Writing(s, c) && Concerns(step, c)
    ensures Writing(Next(s, step), c) || Next(s, step).stored
  {
    match step
    case Tell(_, _) =>
    case Apply(_) =>
    case _ =>
  }

  lemma WritingStays(s: State, step: Step, c: Token)
    requires Enabled(s, step) && Undisturbed(s, step) && !step.Evict? && Writing(s, c)
    ensures Writing(Next(s, step), c) || Next(s, step).stored
  {
    if Concerns(step, c) {
      WriterStays(s, step, c);
    } else {
      Untouched(s, step, c);
    }
  }

  /** The provider is asked only while its answer is still missing. */
  lemma ProvidesOnce(s: State, c: Token)
    requires LeaseInv(s) && CalmInv(s) && Enabled(s, Provide(c, true))
    ensures !Fetched(s) && Writing(Next(s, Provide(c, true)), c)
  {
    OneLoads(s);
  }

  lemma FetchedStays(s: State, step: Step)
    requires LeaseInv(s) && CalmInv(s) && Enabled(s, step) && Calm(s, step) && !step.Evict?
    ensures Fetched(s) ==> Fetched(Next(s, step)) && !(step.Provide? && step.ok)
    ensures step.Provide? && step.ok ==> Fetched(Next(s, step))
    ensures s.stored ==> Next(s, step).stored
  {
    if step.Provide? && step.ok {
      ProvidesOnce(s, step.c);
    } else if c :| Writing(s, c) {
      WritingStays(s, step, c);
    }
  }

  lemma LoadStartsUnfetched(s: State, c: Token, ev: Event)
    requires Enabled(s, Tell(c, ev)) && CalmInv(Told(s, c, ev))
    ensures Told(s, c, ev).callers[c].phase.Loading? ==> !s.stored
  {
    var k := Told(s, c, ev).callers[c];
    assert k.phase.Loading? ==> k.stage.Calling? && AboutToWrite(k);
  }

  lemma FetchedStep(s: State, step: Step)
    requires LeaseInv(s) && CalmInv(s) && Enabled(s, step) && Calm(s, step) && !step.Evict?
    ensures var t := Next(s, step);
            && LeaseInv(t) && CalmInv(t)
            && (Fetched(s) ==> Fetched(t) && !(step.Provide? && step.ok))
            && (step.Provide? && step.ok ==> Fetched(t))
            && (s.stored ==> t.stored && !(step.Tell? && t.callers[step.c].phase.Loading?))
  {
    LeaseStepKeeps(s, step);
    CalmStepKeeps(s, step);
    FetchedStays(s, step);
    if step.Tell? {
      LoadStartsUnfetched(s, step.c, step.ev);
    }
  }

  lemma {:induction false} FetchedOnce(s: State, steps: seq<Step>)
    requires LeaseInv(s) && CalmInv(s) && IsCalmRun(s, steps) && IsRun(s, steps) && Evict !in steps
    ensures Provided(steps) <= if Fetched(s) then 0 else 1
    ensures s.stored ==> LoadStarts(s, steps) == 0
    decreases |steps|
  {
    if steps != [] {
      FetchedStep(s, steps[0]);
      FetchedOnce(Next(s, steps[0]), steps[1..]);
    }
  }

  /**
   However many callers interleave, a calm run never has two loads at once; until the fresh entry
   goes, the provider answers at most one of them, and none starts once the entry is written.
   */
  lemma SingleFlight(ttl: nat, before: seq<Step>, steps: seq<Step>)
    requires ttl >= 1 && IsCalmRun(Start(ttl), before)
    requires IsRun(Start(ttl), before) && IsCalmRun(After(Start(ttl), before), steps)
    ensures var s := After(Start(ttl), before);
            forall c, d | c in s.callers && d in s.callers && s.callers[c].phase.Loading? && s.callers[d].phase.Loading?
              :: c == d
    ensures Evict !in before ==> Provided(before) <= 1
    ensures var s := After(Start(ttl), before);
            Evict !in steps && s.stored ==> IsRun(s, steps) && LoadStarts(s, steps) == 0 && Provided(steps) == 0
  {
    var s := After(Start(ttl), before);
    CalmRunKeeps(Start(ttl), before);
    CalmRunKeeps(s, steps);
    OneLoads(s);
    if Evict !in before {
      FetchedOnce(Start(ttl), before);
    }
    if Evict !in steps {
      FetchedOnce(s, steps);
    }
  }

  // ---------- why a calm run is asked for ----------

  /** A new caller gets the lease, misses the fresh entry and starts its load. */
  function Granting(c: Token): seq<Step> {
    [Arrive(c), Tell(c, Begin(false)), Apply(Acquire(c))]
  }

  function Missing(c: Token): seq<Step> {
    [Tell(c, AcquireAnswer(true, false)), Look(c, NotFound), Tell(c, ReadAnswer(false, false))]
  }

  function Granted(s: State, c: Token): State {
    s.(cell := Some(Lease(c, s.now + s.ttl)), grants := s.grants[c := s.now + s.ttl],
       callers := s.callers[c := NEW_CALLER.(phase := Acquiring, answer := Some(true), acquiredAt := Some(s.now))])
  }

  function StartedLoading(s: State, c: Token): State
    requires c in s.callers
  {
    s.(callers := s.callers[c := s.callers[c].(
      phase := Loading(true), held := true, read := Some(NotFound), stage := Calling, beat := Heartbeat(false, false))])
  }

  lemma BeginAsks(s: State, c: Token)
    requires c !in s.callers
    ensures Enabled(Next(s, Arrive(c)), Tell(c, Begin(false)))
    ensures Next(Next(s, Arrive(c)), Tell(c, Begin(false)))
            == s.(callers := s.callers[c := NEW_CALLER.(phase := Acquiring)], net := s.net + multiset{Acquire(c)})
  {
  }

  lemma ApplyGrants(s: State, c: Token, t: State)
    requires Live(s.cell, s.now).None?
    requires t == s.(callers := s.callers[c := NEW_CALLER.(phase := Acquiring)], net := s.net + multiset{Acquire(c)})
    ensures Enabled(t, Apply(Acquire(c))) && Next(t, Apply(Acquire(c))) == Granted(s, c)
  {
    assert t.net - multiset{Acquire(c)} == s.net;
  }

  lemma GrantingGrants(s: State, c: Token)
    requires c !in s.callers && Live(s.cell, s.now).None?
    ensures IsRun(s, Granting(c)) && After(s, Granting(c)) == Granted(s, c)
  {
    BeginAsks(s, c);
    var s1 := Next(s, Arrive(c));
    var s2 := Next(s1, Tell(c, Begin(false)));
    ApplyGrants(s, c, s2);
    RunStep(s2, Apply(Acquire(c)), []);
    RunStep(s1, Tell(c, Begin(false)), Granting(c)[2..]);
    RunStep(s, Arrive(c), Granting(c)[1..]);
  }

  lemma MissingLoads(s: State, c: Token)
    requires c in s.callers && !s.stored && !s.callers[c].aborted
    requires s.callers[c].phase.Acquiring? && s.callers[c].answer == Some(true)
    ensures IsRun(s, Missing(c)) && After(s, Missing(c)) == StartedLoading(s, c)
  {
    var s1 := Next(s, Tell(c, AcquireAnswer(true, false)));
    var s2 := Next(s1, Look(c, NotFound));
    RunStep(s2, Tell(c, ReadAnswer(false, false)), []);
    RunStep(s1, Look(c, NotFound), Missing(c)[2..]);
    RunStep(s, Tell(c, AcquireAnswer(true, false)), Missing(c)[1..]);
  }

  lemma RunStep(s: State, step: Step, steps: seq<Step>)
    requires Enabled(s, step) && IsRun(Next(s, step), steps)
    ensures IsRun(s, [step] + steps) && After(s, [step] + steps) == After(Next(s, step), steps)
  {
    assert ([step] + steps)[1..] == steps;
  }

  lemma {:induction false} RunAppend(s: State, a: seq<Step>, b: seq<Step>)
    requires IsRun(s, a) && IsRun(After(s, a), b)
    ensures IsRun(s, a + b) && After(s, a + b) == After(After(s, a), b)
    decreases |a|
  {
    if a == [] {
      assert a + b == b;
    } else {
      RunAppend(Next(s, a[0]), a[1..], b);
      assert (a + b)[1..] == a[1..] + b;
    }
  }

  lemma LoadingRunLoads(s: State, c: Token)
    requires c !in s.callers && Live(s.cell, s.now).None? && !s.stored
    ensures IsRun(s, Granting(c) + Missing(c))
    ensures After(s, Granting(c) + Missing(c)) == StartedLoading(Granted(s, c), c)
  {
    GrantingGrants(s, c);
    MissingLoads(Granted(s, c), c);
    RunAppend(s, Granting(c), Missing(c));
  }

  /** Once a lease outlives its time to live unrenewed, a second caller loads beside the first. */
  lemma LapseOverlaps(ttl: nat, ms: nat, c: Token, d: Token)
    requires c != d && ttl <= ms
    ensures var steps := (Granting(c) + Missing(c)) + ([Tick(ms)] + (Granting(d) + Missing(d)));
            && IsRun(Start(ttl), steps)
            && var s := After(Start(ttl), steps);
               c in s.callers && d in s.callers && s.callers[c].phase == s.callers[d].phase == Loading(true)
  {
    var s := Start(ttl);
    LoadingRunLoads(s, c);
    var t := After(s, Granting(c) + Missing(c));
    LoadingRunLoads(Next(t, Tick(ms)), d);
    RunStep(t, Tick(ms), Granting(d) + Missing(d));
    RunAppend(s, Granting(c) + Missing(c), [Tick(ms)] + (Granting(d) + Missing(d)));
  }

  // ---------- leases left behind ----------

  lemma GrantedThen(s: State, c: Token, more: seq<Step>)
    requires c !in s.callers && Live(s.cell, s.now).None? && IsRun(Granted(s, c), more)
    ensures IsRun(s, Granting(c) + more) && After(s, Granting(c) + more) == After(Granted(s, c), more)
  {
    GrantingGrants(s, c);
    RunAppend(s, Granting(c), more);
  }

  /** A caller aborted between its acquisition and the look at the answer is gone, its lease in force. */
  lemma AbortedAcquirerLeaks(ttl: nat, c: Token)
    requires ttl >= 1
    ensures var steps := Granting(c) + [Signal(c), Tell(c, AcquireAnswer(true, true))];
            && IsRun(Start(ttl), steps)
            && var s := After(Start(ttl), steps);
               c in s.callers && s.callers[c].phase == Exited(Canceled) && Live(s.cell, s.now) == Some(Lease(c, ttl))
  {
    var s := Granted(Start(ttl), c);
    var t := Next(s, Signal(c));
    var answer := Tell(c, AcquireAnswer(true, true));
    RunStep(t, answer, []);
    RunStep(s, Signal(c), [answer]);
    assert [Signal(c)] + [answer] == [Signal(c), answer];
    GrantedThen(Start(ttl), c, [Signal(c), answer]);
  }

  /** A caller that lost the answer loads outside the lease, which is in force and its own. */
  lemma LostAnswerLeaks(ttl: nat, c: Token)
    requires ttl >= 1
    ensures var steps := Granting(c) + [Tell(c, AcquireError(false))];
            && IsRun(Start(ttl), steps)
            && var s := After(Start(ttl), steps);
               c in s.callers && s.callers[c].phase == Loading(false) && Live(s.cell, s.now) == Some(Lease(c, ttl))
  {
    var s := Granted(Start(ttl), c);
    RunStep(s, Tell(c, AcquireError(false)), []);
    GrantedThen(Start(ttl), c, [Tell(c, AcquireError(false))]);
  }

  // ---------- who may wait for its own lease ----------

  predicate WaitsOn(p: Phase) {
    p.Ready? || p.Polling? || p.Deciding? || p.Sleeping?
  }

  /** A caller that waits, or does not know of a lease, has none; its acquire travels once if at all. */
  ghost predicate WaitsForOthers(s: State, c: Token) {
    if c !in s.callers then c !in s.grants && Acquire(c) !in s.net
    else
      var k := s.callers[c];
      && (WaitsOn(k.phase) ==> c !in s.grants && Acquire(c) !in s.net)
      && (k.phase.Acquiring? ==>
            && (k.answer != Some(true) ==> c !in s.grants)
            && s.net[Acquire(c)] == if k.answer.None? then 1 else 0)
  }

  /** A caller waits, or asks anew, only from waiting or from a refusal. */
  lemma WaitsShape(k: Caller, ev: Event)
    requires CanTell(k, ev)
    ensures var p := Advance(k.phase, ev).value;
            && Entered(k, p).phase == p
            && (WaitsOn(p) || p.Acquiring? ==> WaitsOn(k.phase) || (k.phase.Acquiring? && k.answer == Some(false)))
            && (p.Acquiring? ==> Entered(k, p).answer.None?)
  {
  }

  lemma WaitsTell(s: State, c: Token, ev: Event)
    requires WaitsForOthers(s, c) && Enabled(s, Tell(c, ev))
    ensures WaitsForOthers(Told(s, c, ev), c)
  {
    var p := Advance(s.callers[c].phase, ev).value;
    WaitsShape(s.callers[c], ev);
    assert Sent(c, p)[Acquire(c)] == if p.Acquiring? then 1 else 0;
  }

  lemma WaitsUnmoved(s: State, t: State, c: Token)
    requires WaitsForOthers(s, c)
    requires c !in s.callers ==> c !in t.callers || t.callers[c] == NEW_CALLER
    requires c in s.callers ==>
               && c in t.callers
               && t.callers[c].phase == s.callers[c].phase && t.callers[c].answer == s.callers[c].answer
    requires c in t.grants ==> c in s.grants
    requires t.net[Acquire(c)] == s.net[Acquire(c)]
    ensures WaitsForOthers(t, c)
  {
  }

  lemma WaitsApplied(s: State, cmd: Command)
    requires LeaseInv(s) && WaitsForOthers(s, cmd.c) && Enabled(s, Apply(cmd))
    ensures WaitsForOthers(Applied(s, cmd), cmd.c)
  {
    var c := cmd.c;
    if cmd.Acquire? {
      assert s.net[cmd] >= 1;
    } else {
      WaitsUnmoved(s, Applied(s, cmd), c);
    }
  }

  lemma WaitsQuiet(s: State, step: Step, c: Token)
    requires LeaseInv(s) && WaitsForOthers(s, c) && Enabled(s, step) && Quiet(step)
    ensures WaitsForOthers(Next(s, step), c)
  {
    QuietShape(s, step);
    assert QuietlySent(s, step)[Acquire(c)] == 0;
    assert c in s.callers ==> Next(s, step).callers[c].phase == s.callers[c].phase
                              && Next(s, step).callers[c].answer == s.callers[c].answer;
  }

  lemma WaitsElsewhere(s: State, step: Step, c: Token)
    requires WaitsForOthers(s, c) && Enabled(s, step)
    requires !Quiet(step) && !Concerns(step, c) && step != Resend(Acquire(c))
    ensures WaitsForOthers(Next(s, step), c)
  {
    WaitsUnmoved(s, Next(s, step), c);
  }

  lemma WaitsStep(s: State, step: Step, c: Token)
    requires LeaseInv(s) && WaitsForOthers(s, c) && Enabled(s, step) && step != Resend(Acquire(c))
    ensures WaitsForOthers(Next(s, step), c)
  {
    if Quiet(step) {
      WaitsQuiet(s, step, c);
    } else if step.Tell? && step.c == c {
      WaitsTell(s, c, step.ev);
    } else if step.Apply? && step.cmd.c == c {
      WaitsApplied(s, step.cmd);
    } else {
      WaitsElsewhere(s, step, c);
    }
  }

  lemma {:induction false} WaitsRun(s: State, steps: seq<Step>, c: Token)
    requires LeaseInv(s) && WaitsForOthers(s, c) && IsRun(s, steps) && Resend(Acquire(c)) !in steps
    ensures LeaseInv(After(s, steps)) && WaitsForOthers(After(s, steps), c)
    decreases |steps|
  {
    if steps != [] {
      LeaseStepKeeps(s, steps[0]);
      WaitsStep(s, steps[0], c);
      WaitsRun(Next(s, steps[0]), steps[1..], c);
    }
  }

  /** A caller waits, or is about to try again, while the cell is in force as its own. */
  predicate WaitsForItself(s: State, c: Token) {
    c in s.callers && WaitsOn(s.callers[c].phase) && Live(s.cell, s.now).Some? && s.cell.value.owner == c
  }

  /** No caller waits for itself in any run in which its acquire is not sent again. */
  lemma OnlyResentWaitsForItself(ttl: nat, steps: seq<Step>, c: Token)
    requires IsRun(Start(ttl), steps) && Resend(Acquire(c)) !in steps
    ensures !WaitsForItself(After(Start(ttl), steps), c)
  {
    WaitsRun(Start(ttl), steps, c);
  }

  lemma RefusedAgain(s: State, c: Token)
    requires c in s.callers && s.callers[c].phase.Acquiring? && Live(s.cell, s.now).Some?
    ensures Enabled(s, Resend(Acquire(c))) && Enabled(Next(s, Resend(Acquire(c))), Apply(Acquire(c)))
    ensures Next(Next(s, Resend(Acquire(c))), Apply(Acquire(c)))
            == s.(callers := s.callers[c := s.callers[c].(answer := Some(false))])
  {
    assert (s.net + multiset{Acquire(c)}) - multiset{Acquire(c)} == s.net;
  }

  function Refusing(c: Token): seq<Step> {
    [Resend(Acquire(c)), Apply(Acquire(c)), Tell(c, AcquireAnswer(false, false))]
  }

  lemma ToldRefusal(s: State, c: Token)
    requires c in s.callers && s.callers[c].phase.Acquiring? && !s.callers[c].aborted && s.callers[c].answer == Some(false)
    ensures Enabled(s, Refusing(c)[2])
    ensures Next(s, Refusing(c)[2]) == s.(callers := s.callers[c := s.callers[c].(phase := Polling, read := None)])
  {
  }

  lemma RefusingRun(s: State, c: Token)
    requires c in s.callers && s.callers[c].phase.Acquiring? && !s.callers[c].aborted && Live(s.cell, s.now).Some?
    ensures IsRun(s, Refusing(c))
    ensures After(s, Refusing(c))
            == s.(callers := s.callers[c := s.callers[c].(phase := Polling, answer := Some(false), read := None)])
  {
    RefusedAgain(s, c);
    var t := Next(s, Resend(Acquire(c)));
    var u := s.(callers := s.callers[c := s.callers[c].(answer := Some(false))]);
    ToldRefusal(u, c);
    RunStep(u, Refusing(c)[2], []);
    RunStep(t, Apply(Acquire(c)), Refusing(c)[2..]);
    RunStep(s, Resend(Acquire(c)), Refusing(c)[1..]);
  }

  /** Asked again after a lost reply, Redis refuses the caller the lease it has: it waits for itself. */
  lemma ResentAcquireRefused(ttl: nat, c: Token)
    requires ttl >= 1
    ensures IsRun(Start(ttl), Granting(c) + Refusing(c))
    ensures var s := After(Start(ttl), Granting(c) + Refusing(c));
            WaitsForItself(s, c) && Live(s.cell, s.now) == Some(Lease(c, ttl))
  {
    RefusingRun(Granted(Start(ttl), c), c);
    GrantedThen(Start(ttl), c, Refusing(c));
  }

  /** No run, with or without acquires sent again, has a caller waiting for itself. */
  ghost predicate NobodyWaitsForItself(ttl: nat, resends: bool) {
    forall steps, c | IsRun(Start(ttl), steps) && (resends || Resend(Acquire(c)) !in steps) ::
      !WaitsForItself(After(Start(ttl), steps), c)
  }

  lemma WaitsForItselfExactly(ttl: nat, resends: bool)
    requires ttl >= 1
    ensures NobodyWaitsForItself(ttl, resends) <==> !resends
  {
    if resends {
      ResentAcquireRefused(ttl, 0);
    } else {
      forall steps, c | IsRun(Start(ttl), steps) && Resend(Acquire(c)) !in steps
        ensures !WaitsForItself(After(Start(ttl), steps), c)
      {
        OnlyResentWaitsForItself(ttl, steps, c);
      }
    }
  }
}
