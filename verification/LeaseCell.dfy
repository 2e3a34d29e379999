/**
 The Redis lease cell of src/cache/store.ts, its heartbeat interval from src/config/cache.ts and
 the heartbeat of src/cache/coordinator.ts.  A cell is dead from its expiry time on.
 */
module LeaseCell {
  import opened Common

  type Token = nat

  datatype Lease = Lease(owner: Token, expiresAt: int)

  type Cell = Option<Lease>

  // ---------- the three commands ----------

  function Live(cell: Cell, now: int): Cell {
    if cell.Some? && now < cell.value.expiresAt then cell else None
  }

  /** SET NX PX */
  function CellAcquired(cell: Cell, now: int, owner: Token, ttlMs: nat): (Cell, bool) {
    if Live(cell, now).None? then (Some(Lease(owner, now + ttlMs)), true) else (cell, false)
  }

  /** Compare and delete. */
  function CellReleased(cell: Cell, now: int, owner: Token): Cell {
    if Live(cell, now).Some? && cell.value.owner == owner then None else cell
  }

  /** Compare and set the time to live. */
  function CellRenewed(cell: Cell, now: int, owner: Token, ttlMs: nat): (Cell, bool) {
    if Live(cell, now).Some? && cell.value.owner == owner then (Some(Lease(owner, now + ttlMs)), true)
    else (cell, false)
  }

  class RedisLeaseStore {
    var cell: Cell

    constructor ()
      ensures cell == None
    {
      cell := None;
    }

    method TryAcquireLease(owner: Token, ttlMs: nat, now: int) returns (ok: bool)
      modifies this
      ensures (cell, ok) == CellAcquired(old(cell), now, owner, ttlMs)
    {
      ok := cell.None? || cell.value.expiresAt <= now;
      if ok {
        cell := Some(Lease(owner, now + ttlMs));
      }
    }

    method ReleaseLease(owner: Token, now: int)
      modifies this
      ensures cell == CellReleased(old(cell), now, owner)
    {
      if cell.Some? && now < cell.value.expiresAt && cell.value.owner == owner {
        cell := None;
      }
    }

    method RenewLease(owner: Token, ttlMs: nat, now: int) returns (renewed: bool)
      modifies this
      ensures (cell, renewed) == CellRenewed(old(cell), now, owner, ttlMs)
    {
      renewed := cell.Some? && now < cell.value.expiresAt && cell.value.owner == owner;
      if renewed {
        cell := Some(Lease(owner, now + ttlMs));
      }
    }
  }

  /** A release or renewal touches only a live lease of its own owner: no other's, none gone. */
  lemma OwnerSafety(cell: Cell, now: int, owner: Token, ttlMs: nat)
    ensures var mine := Live(cell, now).Some? && cell.value.owner == owner;
            && (!mine ==> CellReleased(cell, now, owner) == cell && CellRenewed(cell, now, owner, ttlMs) == (cell, false))
            && (mine ==> CellReleased(cell, now, owner) == None && CellRenewed(cell, now, owner, ttlMs).1)
            && (Live(cell, now).Some? ==> !CellAcquired(cell, now, owner, ttlMs).1)
    ensures forall later :: now <= later && Live(cell, now).None? ==>
              && Live(CellReleased(cell, now, owner), later).None?
              && Live(CellRenewed(cell, now, owner, ttlMs).0, later).None?
  {
  }

  // ---------- the heartbeat interval ----------

  function Min(a: int, b: int): int { if a < b then a else b }

  function Max(a: int, b: int): int { if a > b then a else b }

  /** resolvePositiveIntegerEnv for a setting that is missing or holds an integer. */
  function ResolvePositive(raw: Option<int>, fallback: int, maximum: int): int {
    var value := match raw
      case None => Min(fallback, maximum)
      case Some(n) => if n < 0 then fallback else Min(n, maximum);
    if value > 0 then value else fallback
  }

  const MAX_CACHE_LEASE_HEARTBEAT_MS := 15_000

  function HeartbeatMs(raw: Option<int>, ttlMs: int): int
    requires ttlMs >= 1
  {
    var half := Max(1, ttlMs / 2);
    var maximum := Min(MAX_CACHE_LEASE_HEARTBEAT_MS, half);
    Min(ResolvePositive(raw, half, maximum), maximum)
  }

  /** Whatever is configured, two beats fit into a lease, unless the lease is one millisecond. */
  lemma TwoBeatsFit(raw: Option<int>, ttlMs: int)
    requires ttlMs >= 1
    ensures HeartbeatMs(raw, ttlMs) >= 1
    ensures 2 * HeartbeatMs(raw, ttlMs) <= ttlMs <==> ttlMs >= 2
  {
  }

  /** A setting within bounds is taken as it is; others fall back to the largest interval allowed. */
  lemma HeartbeatTaken(raw: Option<int>, ttlMs: int)
    requires ttlMs >= 1
    ensures var most := Min(MAX_CACHE_LEASE_HEARTBEAT_MS, Max(1, ttlMs / 2));
            HeartbeatMs(raw, ttlMs) == if raw.Some? && 1 <= raw.value <= most then raw.value else most
  {
  }

  // ---------- the heartbeat's flags ----------

  datatype Heartbeat = Heartbeat(stopped: bool, renewalInFlight: bool)

  datatype RenewalReply = Renewal(renewed: bool) | RenewalError

  function Beaten(h: Heartbeat, aborted: bool): (Heartbeat, bool) {
    if h.stopped || aborted || h.renewalInFlight then (h, false) else (h.(renewalInFlight := true), true)
  }

  function Answered(h: Heartbeat, reply: RenewalReply): Heartbeat {
    Heartbeat(h.stopped || reply == Renewal(false), false)
  }

  class LeaseHeartbeat {
    var stopped: bool
    var renewalInFlight: bool

    function View(): Heartbeat
      reads this
    {
      Heartbeat(stopped, renewalInFlight)
    }

    constructor ()
      ensures View() == Heartbeat(false, false)
    {
      stopped, renewalInFlight := false, false;
    }

    method Stop()
      modifies this`stopped
      ensures stopped
    {
      stopped := true;
    }

    /** One tick of the interval timer: whether a renewal is sent. */
    method Beat(aborted: bool) returns (sent: bool)
      modifies this
      ensures (View(), sent) == Beaten(old(View()), aborted)
    {
      if stopped || aborted || renewalInFlight {
        return false;
      }
      renewalInFlight := true;
      return true;
    }

    method Reply(reply: RenewalReply)
      modifies this
      ensures View() == Answered(old(View()), reply)
    {
      if reply.Renewal? && !stopped && !reply.renewed {
        Stop();
      }
      renewalInFlight := false;
    }
  }

  datatype HeartbeatStep = TimerTick(aborted: bool) | ReplyComes(reply: RenewalReply) | StopCalled

  predicate CanHappen(h: Heartbeat, step: HeartbeatStep) {
    step.ReplyComes? ==> h.renewalInFlight
  }

  function HeartbeatNext(h: Heartbeat, step: HeartbeatStep): Heartbeat {
    match step
    case TimerTick(aborted) => Beaten(h, aborted).0
    case ReplyComes(reply) => Answered(h, reply)
    case StopCalled => h.(stopped := true)
  }

  predicate IsHeartbeatRun(h: Heartbeat, steps: seq<HeartbeatStep>)
    decreases |steps|
  {
    steps != [] ==> CanHappen(h, steps[0]) && IsHeartbeatRun(HeartbeatNext(h, steps[0]), steps[1..])
  }

  /** The renewals a run sends. */
  function RenewalsSent(h: Heartbeat, steps: seq<HeartbeatStep>): nat
    decreases |steps|
  {
    if steps == [] then 0
    else
      RenewalsSent(HeartbeatNext(h, steps[0]), steps[1..])
      + if steps[0].TimerTick? && Beaten(h, steps[0].aborted).1 then 1 else 0
  }

  function RepliesIn(steps: seq<HeartbeatStep>): nat {
    if steps == [] then 0 else RepliesIn(steps[1..]) + if steps[0].ReplyComes? then 1 else 0
  }

  /** Told to stop, or told that the lease is lost. */
  predicate Ends(step: HeartbeatStep) {
    step.StopCalled? || step == ReplyComes(Renewal(false))
  }

  /**
   Over any run: never two renewals on their way, none after a stop or a lost lease, none from a
   tick that finds the signal fired, and as long
   as there is neither, an idle heartbeat renews as soon as a tick finds the signal clear.
   */
  lemma {:induction false} HeartbeatRuns(h: Heartbeat, steps: seq<HeartbeatStep>)
    requires IsHeartbeatRun(h, steps)
    ensures RepliesIn(steps) <= RenewalsSent(h, steps) + (if h.renewalInFlight then 1 else 0) <= RepliesIn(steps) + 1
    ensures h.stopped ==> RenewalsSent(h, steps) == 0
    ensures steps != [] && Ends(steps[0]) ==> RenewalsSent(h, steps) == 0
    ensures (forall s | s in steps && s.TimerTick? :: s.aborted) ==> RenewalsSent(h, steps) == 0
    ensures h == Heartbeat(false, false) && TimerTick(false) in steps && (forall s | s in steps :: !Ends(s)) ==>
              RenewalsSent(h, steps) >= 1
    decreases |steps|
  {
    if steps != [] {
      assert steps == [steps[0]] + steps[1..] && steps[0] in steps;
      HeartbeatRuns(HeartbeatNext(h, steps[0]), steps[1..]);
    }
  }
}
