/**
 In-process coalescing of src/services/newsService.ts: one in-flight entry per cache key, with
 a count of waiters, an abort that follows the last of them, and a fixed order of settlement.
 Each callback, listener and microtask is one atomic step of a run.
 */
module Coalescing {
  import opened Common

  // ---------- one entry ----------

  /** The counters of an in-flight entry. */
  datatype Count = Count(subscribers: int, settled: bool, aborted: bool)

  const NEW_COUNT := Count(0, false, false)

  function Subscribed(c: Count): Count {
    c.(subscribers := c.subscribers + 1)
  }

  function Unsubscribed(c: Count): Count {
    var n := c.subscribers - 1;
    Count(n, c.settled, c.aborted || (!c.settled && n == 0))
  }

  function MarkedSettled(c: Count): Count {
    c.(settled := true)
  }

  class InFlightSearch<K(==)> {
    const key: K
    var subscribers: int
    var settled: bool
    var aborted: bool

    function View(): Count
      reads this
    {
      Count(subscribers, settled, aborted)
    }

    constructor (key: K)
      ensures this.key == key && View() == NEW_COUNT
    {
      this.key := key;
      subscribers, settled, aborted := 0, false, false;
    }
  }

  /** A registered waiter's closure; whatever calls `Release`, and however often, it counts once. */
  class Subscription<K(==)> {
    const entry: InFlightSearch<K>
    var released: bool

    constructor (entry: InFlightSearch<K>)
      modifies entry
      ensures this.entry == entry && !released
      ensures entry.View() == Subscribed(old(entry.View()))
    {
      this.entry := entry;
      released := false;
      new;
      entry.subscribers := entry.subscribers + 1;
    }

    method Release()
      modifies this, entry
      ensures released
      ensures entry.View() == if old(released) then old(entry.View()) else Unsubscribed(old(entry.View()))
    {
      if released {
        return;
      }
      released := true;
      entry.subscribers := entry.subscribers - 1;
      if !entry.settled && entry.subscribers == 0 {
        entry.aborted := true;
      }
    }
  }

  class InFlightSearches<K(==)> {
    var entries: map<K, InFlightSearch<K>>

    constructor ()
      ensures entries == map[]
    {
      entries := map[];
    }

    method GetOrCreate(key: K) returns (entry: InFlightSearch<K>, existing: bool)
      modifies this
      ensures existing == (key in old(entries))
      ensures existing ==> entry == old(entries)[key] && entries == old(entries)
      ensures !existing ==>
                fresh(entry) && entry.key == key && entry.View() == NEW_COUNT && entries == old(entries)[key := entry]
    {
      if key in entries {
        return entries[key], true;
      }
      entry := new InFlightSearch(key);
      existing := false;
      entries := entries[key := entry];
    }

    /** Settling takes out its own entry and never another one that has its key. */
    method MarkInFlightSettled(key: K, entry: InFlightSearch<K>)
      modifies this, entry
      ensures entry.View() == MarkedSettled(old(entry.View()))
      ensures entries == if key in old(entries) && old(entries)[key] == entry then old(entries) - {key} else old(entries)
    {
      entry.settled := true;
      if key in entries && entries[key] == entry {
        entries := entries - {key};
      }
    }
  }

  // ---------- all callers of a process ----------

  type EntryId = nat
  type WaiterId = nat

  /** An entry with the outcome of its upstream flight, once that is there. */
  datatype Entry<K, R> = Entry(key: K, count: Count, outcome: Option<R>)

  datatype Phase<R> = Waiting | Done(result: R) | Canceled

  /** A caller: `joined` if the entry was there before, `registered` if it was ever counted. */
  datatype Waiter<K, R> = Waiter(key: K, entry: EntryId, joined: bool, registered: bool, phase: Phase<R>)

  datatype State<K, R> = State(
    inFlight: map<K, EntryId>, entries: map<EntryId, Entry<K, R>>, waiters: map<WaiterId, Waiter<K, R>>)

  datatype Step<K, R> =
    | Join(w: WaiterId, key: K, aborted: bool, id: EntryId) // a cache miss; `aborted` is the caller's own signal
    | Abort(w: WaiterId)                                    // the caller's signal fires
    | Resolve(e: EntryId, r: R)                             // the upstream flight ends
    | Mark(e: EntryId)                                      // the settled marker, registered before any waiter
    | Deliver(w: WaiterId)                                  // a waiter's own callback on the promise

  predicate Enabled<K, R>(s: State<K, R>, step: Step<K, R>) {
    match step
    case Join(w, key, _, id) =>
      w !in s.waiters && if key in s.inFlight then s.inFlight[key] in s.entries else id !in s.entries
    case Abort(w) => w in s.waiters && s.waiters[w].phase.Waiting? && s.waiters[w].entry in s.entries
    case Resolve(e, _) => e in s.entries && s.entries[e].outcome.None?
    case Mark(e) => e in s.entries && s.entries[e].outcome.Some? && !s.entries[e].count.settled
    case Deliver(w) =>
      && w in s.waiters && s.waiters[w].phase.Waiting?
      && s.waiters[w].entry in s.entries
      && s.entries[s.waiters[w].entry].count.settled && s.entries[s.waiters[w].entry].outcome.Some?
  }

  function WithCount<K, R>(s: State<K, R>, e: EntryId, c: Count): map<EntryId, Entry<K, R>>
    requires e in s.entries
  {
    s.entries[e := s.entries[e].(count := c)]
  }

  /** Releases a waiter and settles its promise. */
  function Leave<K, R>(s: State<K, R>, w: WaiterId, p: Phase<R>): State<K, R>
    requires w in s.waiters && s.waiters[w].entry in s.entries
  {
    var e := s.waiters[w].entry;
    s.(entries := WithCount(s, e, Unsubscribed(s.entries[e].count)),
       waiters := s.waiters[w := s.waiters[w].(phase := p)])
  }

  /** The entry a caller with this key waits for, made on the spot if there is none. */
  function Found<K, R>(s: State<K, R>, key: K, id: EntryId): State<K, R> {
    if key in s.inFlight then s
    else s.(inFlight := s.inFlight[key := id], entries := s.entries[id := Entry(key, NEW_COUNT, None)])
  }

  /** Registers a caller, unless its own signal has fired already. */
  function WaitFor<K, R>(s: State<K, R>, w: WaiterId, key: K, joined: bool, aborted: bool): State<K, R>
    requires key in s.inFlight && s.inFlight[key] in s.entries
  {
    var e := s.inFlight[key];
    if aborted then s.(waiters := s.waiters[w := Waiter(key, e, joined, false, Canceled)])
    else
      s.(entries := WithCount(s, e, Subscribed(s.entries[e].count)),
         waiters := s.waiters[w := Waiter(key, e, joined, true, Waiting)])
  }

  function Next<K, R>(s: State<K, R>, step: Step<K, R>): State<K, R>
    requires Enabled(s, step)
  {
    match step
    case Join(w, key, aborted, id) => WaitFor(Found(s, key, id), w, key, key in s.inFlight, aborted)
    case Abort(w) => Leave(s, w, Canceled)
    case Resolve(e, r) => s.(entries := s.entries[e := s.entries[e].(outcome := Some(r))])
    case Mark(e) =>
      var key := s.entries[e].key;
      s.(entries := WithCount(s, e, MarkedSettled(s.entries[e].count)),
         inFlight := if key in s.inFlight && s.inFlight[key] == e then s.inFlight - {key} else s.inFlight)
    case Deliver(w) => Leave(s, w, Done(s.entries[s.waiters[w].entry].outcome.value))
  }

  predicate IsRun<K, R>(s: State<K, R>, steps: seq<Step<K, R>>)
    decreases |steps|
  {
    steps != [] ==> Enabled(s, steps[0]) && IsRun(Next(s, steps[0]), steps[1..])
  }

  function After<K, R>(s: State<K, R>, steps: seq<Step<K, R>>): State<K, R>
    requires IsRun(s, steps)
    decreases |steps|
  {
    if steps == [] then s else After(Next(s, steps[0]), steps[1..])
  }

  function Empty<K, R>(): State<K, R> {
    State(map[], map[], map[])
  }

  // ---------- the invariant ----------

  /** The registered waiters of `e` that have not been released. */
  function WaitingOn<K, R>(s: State<K, R>, e: EntryId): set<WaiterId> {
    set w | w in s.waiters && s.waiters[w].phase.Waiting? && s.waiters[w].entry == e
  }

  /** The map holds exactly the unsettled entries, under their keys. */
  ghost predicate MapExact<K, R>(s: State<K, R>) {
    && (forall k | k in s.inFlight ::
          s.inFlight[k] in s.entries && s.entries[s.inFlight[k]].key == k && !s.entries[s.inFlight[k]].count.settled)
    && (forall e | e in s.entries ::
          !s.entries[e].count.settled ==> s.entries[e].key in s.inFlight && s.inFlight[s.entries[e].key] == e)
  }

  ghost predicate Counted<K, R>(s: State<K, R>) {
    forall e | e in s.entries :: s.entries[e].count.subscribers == |WaitingOn(s, e)|
  }

  ghost predicate WaitersSound<K, R>(s: State<K, R>) {
    forall w | w in s.waiters ::
      && s.waiters[w].entry in s.entries
      && s.entries[s.waiters[w].entry].key == s.waiters[w].key
      && (s.waiters[w].phase.Done? ==> s.entries[s.waiters[w].entry].outcome == Some(s.waiters[w].phase.result))
      && (!s.waiters[w].registered ==> s.waiters[w].phase.Canceled?)
  }

  /** A registered waiter that left by its own signal. */
  predicate Left<K, R>(s: State<K, R>, w: WaiterId, e: EntryId) {
    w in s.waiters && s.waiters[w].entry == e && s.waiters[w].registered && s.waiters[w].phase.Canceled?
  }

  ghost predicate EntriesSound<K, R>(s: State<K, R>) {
    forall e | e in s.entries ::
      && (s.entries[e].count.settled ==> s.entries[e].outcome.Some?)
      && (s.entries[e].count.aborted ==> exists w :: Left(s, w, e))
  }

  ghost predicate OneCreator<K, R>(s: State<K, R>) {
    forall v, w | v in s.waiters && w in s.waiters ::
      s.waiters[v].entry == s.waiters[w].entry && !s.waiters[v].joined && !s.waiters[w].joined ==> v == w
  }

  ghost predicate Inv<K, R>(s: State<K, R>) {
    MapExact(s) && Counted(s) && WaitersSound(s) && EntriesSound(s) && OneCreator(s)
  }

  // ---------- each step keeps it ----------

  lemma LeftStays<K, R>(s: State<K, R>, step: Step<K, R>, w: WaiterId, e: EntryId)
    requires Enabled(s, step) && Left(s, w, e)
    ensures Left(Next(s, step), w, e)
  {
  }

  lemma FoundCounts<K, R>(s: State<K, R>, key: K, id: EntryId)
    requires Counted(s) && WaitersSound(s) && key !in s.inFlight && id !in s.entries
    ensures Counted(Found(s, key, id))
  {
    var t := Found(s, key, id);
    forall e | e in t.entries ensures t.entries[e].count.subscribers == |WaitingOn(t, e)| {
      assert WaitingOn(t, e) == WaitingOn(s, e);
      assert e == id ==> WaitingOn(t, e) == {};
    }
  }

  lemma FoundEntries<K, R>(s: State<K, R>, key: K, id: EntryId)
    requires MapExact(s) && EntriesSound(s) && key !in s.inFlight && id !in s.entries
    ensures MapExact(Found(s, key, id)) && EntriesSound(Found(s, key, id))
  {
    var t := Found(s, key, id);
    forall e | e in t.entries && t.entries[e].count.aborted ensures exists w :: Left(t, w, e) {
      var w :| Left(s, w, e);
      assert Left(t, w, e);
    }
  }

  /** A new entry waits for nobody and nobody has created it before. */
  lemma FoundKeeps<K, R>(s: State<K, R>, key: K, id: EntryId)
    requires Inv(s) && (key !in s.inFlight ==> id !in s.entries)
    ensures var t := Found(s, key, id);
            && Inv(t) && key in t.inFlight && t.inFlight[key] in t.entries && t.waiters == s.waiters
            && (key !in s.inFlight ==> forall w | w in t.waiters :: t.waiters[w].entry != t.inFlight[key])
  {
    if key !in s.inFlight {
      FoundCounts(s, key, id);
      FoundEntries(s, key, id);
    }
  }

  lemma WaitingGains<K, R>(s: State<K, R>, w: WaiterId, key: K, joined: bool, f: EntryId)
    requires key in s.inFlight && s.inFlight[key] in s.entries && w !in s.waiters
    ensures WaitingOn(WaitFor(s, w, key, joined, false), f) == WaitingOn(s, f) + if f == s.inFlight[key] then {w} else {}
    ensures WaitingOn(WaitFor(s, w, key, joined, true), f) == WaitingOn(s, f)
    ensures w !in WaitingOn(s, f)
  {
  }

  lemma WaitForCounts<K, R>(s: State<K, R>, w: WaiterId, key: K, joined: bool, aborted: bool)
    requires Counted(s) && key in s.inFlight && s.inFlight[key] in s.entries && w !in s.waiters
    ensures Counted(WaitFor(s, w, key, joined, aborted))
  {
    var t := WaitFor(s, w, key, joined, aborted);
    forall f | f in t.entries ensures t.entries[f].count.subscribers == |WaitingOn(t, f)| {
      WaitingGains(s, w, key, joined, f);
    }
  }

  lemma WaitForEntries<K, R>(s: State<K, R>, w: WaiterId, key: K, joined: bool, aborted: bool)
    requires MapExact(s) && EntriesSound(s) && key in s.inFlight && s.inFlight[key] in s.entries && w !in s.waiters
    ensures var t := WaitFor(s, w, key, joined, aborted); MapExact(t) && EntriesSound(t)
  {
    var t := WaitFor(s, w, key, joined, aborted);
    forall e | e in t.entries && t.entries[e].count.aborted ensures exists v :: Left(t, v, e) {
      var v :| Left(s, v, e);
      assert Left(t, v, e);
    }
  }

  lemma WaitForWaiters<K, R>(s: State<K, R>, w: WaiterId, key: K, joined: bool, aborted: bool)
    requires MapExact(s) && WaitersSound(s) && key in s.inFlight && s.inFlight[key] in s.entries && w !in s.waiters
    ensures WaitersSound(WaitFor(s, w, key, joined, aborted))
  {
  }

  lemma WaitForCreators<K, R>(s: State<K, R>, w: WaiterId, key: K, joined: bool, aborted: bool)
    requires OneCreator(s) && key in s.inFlight && s.inFlight[key] in s.entries && w !in s.waiters
    requires !joined ==> forall v | v in s.waiters :: s.waiters[v].entry != s.inFlight[key]
    ensures OneCreator(WaitFor(s, w, key, joined, aborted))
  {
  }

  lemma WaitForKeeps<K, R>(s: State<K, R>, w: WaiterId, key: K, joined: bool, aborted: bool)
    requires Inv(s) && key in s.inFlight && s.inFlight[key] in s.entries && w !in s.waiters
    requires !joined ==> forall v | v in s.waiters :: s.waiters[v].entry != s.inFlight[key]
    ensures Inv(WaitFor(s, w, key, joined, aborted))
  {
    WaitForCounts(s, w, key, joined, aborted);
    WaitForEntries(s, w, key, joined, aborted);
    WaitForWaiters(s, w, key, joined, aborted);
    WaitForCreators(s, w, key, joined, aborted);
  }

  lemma WaitingLoses<K, R>(s: State<K, R>, w: WaiterId, p: Phase<R>, f: EntryId)
    requires w in s.waiters && s.waiters[w].entry in s.entries && s.waiters[w].phase.Waiting? && !p.Waiting?
    ensures WaitingOn(Leave(s, w, p), f) == WaitingOn(s, f) - {w}
    ensures w in WaitingOn(s, f) <==> f == s.waiters[w].entry
  {
  }

  lemma LeaveCounts<K, R>(s: State<K, R>, w: WaiterId, p: Phase<R>)
    requires w in s.waiters && s.waiters[w].entry in s.entries && s.waiters[w].phase.Waiting? && !p.Waiting?
    requires Counted(s)
    ensures Counted(Leave(s, w, p))
  {
    var t := Leave(s, w, p);
    forall f | f in t.entries ensures t.entries[f].count.subscribers == |WaitingOn(t, f)| {
      WaitingLoses(s, w, p, f);
    }
  }

  lemma LeaveKeeps<K, R>(s: State<K, R>, w: WaiterId, p: Phase<R>)
    requires w in s.waiters && s.waiters[w].entry in s.entries && s.waiters[w].phase.Waiting? && !p.Waiting?
    requires Inv(s) && (p.Done? ==> s.entries[s.waiters[w].entry].outcome == Some(p.result))
    ensures var t := Leave(s, w, p); MapExact(t) && Counted(t) && WaitersSound(t) && OneCreator(t)
  {
    LeaveCounts(s, w, p);
  }

  lemma ResolveKeeps<K, R>(s: State<K, R>, e: EntryId, r: R)
    requires Inv(s) && Enabled(s, Resolve(e, r))
    ensures var t := Next(s, Resolve(e, r)); MapExact(t) && Counted(t) && WaitersSound(t) && OneCreator(t)
  {
    var t := Next(s, Resolve(e, r));
    forall f | f in t.entries ensures t.entries[f].count.subscribers == |WaitingOn(t, f)| {
      assert WaitingOn(t, f) == WaitingOn(s, f);
    }
  }

  lemma MarkKeeps<K, R>(s: State<K, R>, e: EntryId)
    requires Inv(s) && Enabled(s, Mark(e))
    ensures var t := Next(s, Mark(e)); MapExact(t) && Counted(t) && WaitersSound(t) && OneCreator(t)
  {
    var t := Next(s, Mark(e));
    forall f | f in t.entries ensures t.entries[f].count.subscribers == |WaitingOn(t, f)| {
      assert WaitingOn(t, f) == WaitingOn(s, f);
    }
  }

  /** The count aborts an entry only when its last registered waiter leaves it unsettled. */
  lemma AbortsByLastWaiter<K, R>(s: State<K, R>, step: Step<K, R>, e: EntryId)
    requires Inv(s) && Enabled(s, step) && e in s.entries && !s.entries[e].count.aborted
    ensures Next(s, step).entries[e].count.aborted <==>
              step.Abort? && WaitingOn(s, e) == {step.w} && !s.entries[e].count.settled
  {
    if step.Abort? || step.Deliver? {
      WaitingLoses(s, step.w, Canceled, e);
      if s.waiters[step.w].entry == e {
        LastOne(WaitingOn(s, e), step.w);
      }
    }
  }

  lemma LastOne(ws: set<WaiterId>, w: WaiterId)
    requires w in ws
    ensures |ws| == 1 <==> ws == {w}
  {
    assert ws == {w} + (ws - {w});
  }

  lemma KeepsEntries<K, R>(s: State<K, R>, step: Step<K, R>)
    requires Inv(s) && Enabled(s, step) && !step.Join?
    ensures EntriesSound(Next(s, step))
  {
    var t := Next(s, step);
    forall e | e in t.entries && t.entries[e].count.aborted ensures exists w :: Left(t, w, e) {
      if s.entries[e].count.aborted {
        var w :| Left(s, w, e);
        LeftStays(s, step, w, e);
      } else {
        AbortsByLastWaiter(s, step, e);
        assert step.w in WaitingOn(s, e);
        assert Left(t, step.w, e);
      }
    }
  }

  lemma StepKeeps<K, R>(s: State<K, R>, step: Step<K, R>)
    requires Inv(s) && Enabled(s, step)
    ensures Inv(Next(s, step))
  {
    match step
    case Join(w, key, aborted, id) =>
      FoundKeeps(s, key, id);
      WaitForKeeps(Found(s, key, id), w, key, key in s.inFlight, aborted);
    case Abort(w) =>
      LeaveKeeps(s, w, Canceled);
      KeepsEntries(s, step);
    case Deliver(w) =>
      LeaveKeeps(s, w, Done(s.entries[s.waiters[w].entry].outcome.value));
      KeepsEntries(s, step);
    case Resolve(e, r) =>
      ResolveKeeps(s, e, r);
      KeepsEntries(s, step);
    case Mark(e) =>
      MarkKeeps(s, e);
      KeepsEntries(s, step);
  }

  lemma {:induction false} RunKeeps<K, R>(s: State<K, R>, steps: seq<Step<K, R>>)
    requires Inv(s) && IsRun(s, steps)
    ensures Inv(After(s, steps))
    decreases |steps|
  {
    if steps != [] {
      StepKeeps(s, steps[0]);
      RunKeeps(Next(s, steps[0]), steps[1..]);
    }
  }

  /** What a step leaves alone: who waits under which key, and every outcome but a newly resolved one. */
  lemma StepShape<K, R>(s: State<K, R>, step: Step<K, R>)
    requires Enabled(s, step)
    ensures var t, added := Next(s, step), step.Join? && step.key !in s.inFlight;
            && t.entries.Keys == s.entries.Keys + (if added then {step.id} else {})
            && t.waiters.Keys == s.waiters.Keys + (if step.Join? then {step.w} else {})
            && (added ==> t.entries[step.id].key == step.key && t.entries[step.id].outcome.None?)
            && (step.Join? ==> t.waiters[step.w].key == step.key)
            && (forall e | e in s.entries ::
                  && t.entries[e].key == s.entries[e].key
                  && t.entries[e].outcome == if step.Resolve? && step.e == e then Some(step.r) else s.entries[e].outcome)
            && (forall w | w in s.waiters :: t.waiters[w].key == s.waiters[w].key)
  {
  }

  /**
   How a caller comes and goes: it joins the entry in flight or starts one; one that arrives aborted
   is canceled at once and never counted; one that waits is counted, until it is canceled by its
   signal or given the outcome.
   */
  lemma CallerSteps<K, R>(s: State<K, R>, step: Step<K, R>)
    requires Inv(s) && Enabled(s, step) && (step.Join? || step.Abort? || step.Deliver?)
    ensures var t := Next(s, step);
            && step.w in t.waiters
            && var k := t.waiters[step.w];
               && k.entry in t.entries
               && (step.Join? ==>
                     && k.joined == (step.key in s.inFlight)
                     && k.entry == (if k.joined then s.inFlight[step.key] else step.id)
                     && k.key == step.key && t.entries[k.entry].key == step.key
                     && (if step.aborted then k.phase == Canceled && !k.registered else k.phase == Waiting && k.registered))
               && (step.Abort? ==> k.phase == Canceled && k.registered)
               && (step.Deliver? ==> k.registered && k.phase == Done(t.entries[k.entry].outcome.value))
  {
  }

  // ---------- what every run shows ----------

  /** At any moment: one entry per key in flight, exact counts, and a waiter behind every abort. */
  lemma Accounting<K, R>(steps: seq<Step<K, R>>)
    requires IsRun(Empty(), steps)
    ensures Inv(After(Empty<K, R>(), steps))
  {
    RunKeeps(Empty(), steps);
  }

  /** Two unsettled entries never share a key, so a key has at most one upstream flight at a time. */
  lemma OneFlightPerKey<K, R>(s: State<K, R>, e: EntryId, f: EntryId)
    requires Inv(s) && e in s.entries && f in s.entries && s.entries[e].key == s.entries[f].key
    requires !s.entries[e].count.settled && !s.entries[f].count.settled
    ensures e == f
  {
  }

  /** An entry whose only caller was already aborted is never aborted by the count. */
  lemma UnregisteredNeverAborts<K, R>(s: State<K, R>, e: EntryId)
    requires Inv(s) && e in s.entries
    requires forall w | w in s.waiters && s.waiters[w].entry == e :: !s.waiters[w].registered
    ensures s.entries[e].count == Count(0, s.entries[e].count.settled, false)
  {
    assert WaitingOn(s, e) == {};
  }

  /**
   A waiter settles once and for good.  It is canceled by its own signal only, and otherwise
   gets the outcome of its entry.
   */
  lemma WaiterSettlesOnce<K, R>(s: State<K, R>, step: Step<K, R>, w: WaiterId)
    requires Inv(s) && Enabled(s, step) && w in s.waiters
    ensures var before, after := s.waiters[w], Next(s, step).waiters[w];
            && (!before.phase.Waiting? ==> after == before)
            && (before.phase.Waiting? && after.phase.Canceled? ==> step == Abort(w))
            && (before.phase.Waiting? && after.phase.Done? ==>
                  step == Deliver(w) && s.entries[before.entry].outcome == Some(after.phase.result))
  {
  }

  /** The caller's own signal fired: it arrived aborted, or was aborted while it waited. */
  predicate OwnSignal<K, R>(step: Step<K, R>, w: WaiterId) {
    step == Abort(w) || (step.Join? && step.w == w && step.aborted)
  }

  lemma CanceledByOwnSignal<K, R>(s: State<K, R>, step: Step<K, R>, w: WaiterId)
    requires Inv(s) && Enabled(s, step) && w in Next(s, step).waiters
    requires Next(s, step).waiters[w].phase.Canceled? && (w in s.waiters ==> !s.waiters[w].phase.Canceled?)
    ensures OwnSignal(step, w)
  {
    if w in s.waiters {
      WaiterSettlesOnce(s, step, w);
    }
  }

  lemma {:induction false} AnswerStands<K, R>(s: State<K, R>, steps: seq<Step<K, R>>, w: WaiterId)
    requires Inv(s) && IsRun(s, steps) && w in s.waiters && !s.waiters[w].phase.Waiting?
    ensures w in After(s, steps).waiters && After(s, steps).waiters[w] == s.waiters[w]
    decreases |steps|
  {
    if steps != [] {
      StepKeeps(s, steps[0]);
      WaiterSettlesOnce(s, steps[0], w);
      AnswerStands(Next(s, steps[0]), steps[1..], w);
    }
  }

  lemma {:induction false} CanceledInRun<K, R>(s: State<K, R>, steps: seq<Step<K, R>>, w: WaiterId)
    requires Inv(s) && IsRun(s, steps) && (w in s.waiters ==> s.waiters[w].phase.Waiting?)
    requires w in After(s, steps).waiters && After(s, steps).waiters[w].phase.Canceled?
    ensures exists step | step in steps :: OwnSignal(step, w)
    decreases |steps|
  {
    var t := Next(s, steps[0]);
    StepKeeps(s, steps[0]);
    assert steps[0] in steps;
    if w in t.waiters && !t.waiters[w].phase.Waiting? {
      AnswerStands(t, steps[1..], w);
      CanceledByOwnSignal(s, steps[0], w);
    } else {
      CanceledInRun(t, steps[1..], w);
      var step :| step in steps[1..] && OwnSignal(step, w);
      assert step in steps;
    }
  }

  /**
   In every run a caller whose own signal never fired is never canceled by the coalescing: it
   waits, or it has been given the outcome of its entry, whoever else left or was aborted.
   */
  lemma OthersNeverCancel<K, R>(steps: seq<Step<K, R>>, w: WaiterId)
    requires IsRun(Empty(), steps) && w in After(Empty<K, R>(), steps).waiters
    requires forall step | step in steps :: !OwnSignal(step, w)
    ensures var s := After(Empty<K, R>(), steps);
            var e := s.waiters[w].entry;
            && e in s.entries
            && (s.waiters[w].phase.Waiting?
                || (s.waiters[w].phase.Done? && s.entries[e].outcome == Some(s.waiters[w].phase.result)))
  {
    RunKeeps(Empty(), steps);
    var s := After(Empty<K, R>(), steps);
    if s.waiters[w].phase.Canceled? {
      CanceledInRun(Empty(), steps, w);
    }
  }

  /** Once the pending callbacks have run, nobody waits for a flight that has ended. */
  lemma EveryoneIsAnswered<K, R>(s: State<K, R>, w: WaiterId)
    requires Inv(s) && w in s.waiters && s.entries[s.waiters[w].entry].outcome.Some?
    requires !Enabled(s, Deliver(w)) && !Enabled(s, Mark(s.waiters[w].entry))
    ensures s.waiters[w].phase.Canceled? || s.waiters[w].phase == Done(s.entries[s.waiters[w].entry].outcome.value)
  {
  }

  // ---------- whose flight survives ----------

  lemma AbortStays<K, R>(s: State<K, R>, step: Step<K, R>, e: EntryId)
    requires Enabled(s, step) && e in s.entries
    ensures e in Next(s, step).entries
    ensures s.entries[e].count.aborted ==> Next(s, step).entries[e].count.aborted
  {
  }

  /** The caller still waits for the entry, or the entry has settled. */
  predicate StaysFor<K, R>(s: State<K, R>, w: WaiterId, e: EntryId) {
    && w in s.waiters && s.waiters[w].entry == e && e in s.entries
    && (s.waiters[w].phase.Waiting? || s.entries[e].count.settled)
  }

  lemma StayingStays<K, R>(s: State<K, R>, step: Step<K, R>, w: WaiterId, e: EntryId)
    requires Enabled(s, step) && StaysFor(s, w, e) && step != Abort(w)
    ensures StaysFor(Next(s, step), w, e)
  {
  }

  lemma StayingKeepsFlight<K, R>(s: State<K, R>, step: Step<K, R>, w: WaiterId, e: EntryId)
    requires Inv(s) && Enabled(s, step) && StaysFor(s, w, e) && step != Abort(w)
    ensures e in Next(s, step).entries
    ensures Next(s, step).entries[e].count.aborted <==> s.entries[e].count.aborted
  {
    AbortStays(s, step, e);
    if !s.entries[e].count.aborted {
      AbortsByLastWaiter(s, step, e);
      assert s.waiters[w].phase.Waiting? ==> w in WaitingOn(s, e);
    }
  }

  /** While a caller stays whose signal does not fire, no other caller's leaving aborts its flight. */
  lemma {:induction false} FlightSurvives<K, R>(s: State<K, R>, steps: seq<Step<K, R>>, w: WaiterId, e: EntryId)
    requires Inv(s) && IsRun(s, steps) && StaysFor(s, w, e) && Abort(w) !in steps
    ensures StaysFor(After(s, steps), w, e)
    ensures After(s, steps).entries[e].count.aborted <==> s.entries[e].count.aborted
    decreases |steps|
  {
    if steps != [] {
      StepKeeps(s, steps[0]);
      StayingStays(s, steps[0], w, e);
      StayingKeepsFlight(s, steps[0], w, e);
      FlightSurvives(Next(s, steps[0]), steps[1..], w, e);
    }
  }

  /** The entry in flight under this key has been aborted: its last caller left it. */
  predicate AbortedFlight<K, R>(s: State<K, R>, key: K) {
    key in s.inFlight && s.inFlight[key] in s.entries && s.entries[s.inFlight[key]].count.aborted
  }

  /**
   Upstream work continues for a caller whose signal never fires, whoever else leaves, if and only
   if the flight it joins has not been aborted by then.
   */
  lemma WorkContinuesExactly<K, R>(s: State<K, R>, w: WaiterId, key: K, id: EntryId, steps: seq<Step<K, R>>)
    requires Inv(s) && Enabled(s, Join(w, key, false, id)) && IsRun(Next(s, Join(w, key, false, id)), steps)
    requires Abort(w) !in steps
    ensures var t := After(Next(s, Join(w, key, false, id)), steps);
            && w in t.waiters && t.waiters[w].entry in t.entries
            && (!t.entries[t.waiters[w].entry].count.aborted <==> !AbortedFlight(s, key))
  {
    var t := Next(s, Join(w, key, false, id));
    StepKeeps(s, Join(w, key, false, id));
    FlightSurvives(t, steps, w, t.waiters[w].entry);
  }

  // ---------- flights that nobody waits for ----------

  /** A caller was counted for the entry, now or before. */
  predicate Registered<K, R>(s: State<K, R>, w: WaiterId, e: EntryId) {
    w in s.waiters && s.waiters[w].entry == e && s.waiters[w].registered
  }

  ghost predicate EverRegistered<K, R>(s: State<K, R>, e: EntryId) {
    exists w :: Registered(s, w, e)
  }

  /** An unsettled entry that had waiters and has none left is aborted. */
  ghost predicate NoneAbandoned<K, R>(s: State<K, R>) {
    forall e | e in s.entries && !s.entries[e].count.settled && WaitingOn(s, e) == {} && EverRegistered(s, e) ::
      s.entries[e].count.aborted
  }

  lemma RegisteredBefore<K, R>(s: State<K, R>, step: Step<K, R>, e: EntryId, v: WaiterId)
    requires Inv(s) && Enabled(s, step) && Registered(Next(s, step), v, e) && WaitingOn(Next(s, step), e) == {}
    ensures e in s.entries && Registered(s, v, e)
  {
    var t := Next(s, step);
    assert v !in WaitingOn(t, e);
  }

  /** An entry without waiters after a step had none before, or has just lost its last one. */
  lemma WaitersGone<K, R>(s: State<K, R>, step: Step<K, R>, e: EntryId)
    requires Inv(s) && Enabled(s, step) && e in s.entries && e in Next(s, step).entries
    requires !Next(s, step).entries[e].count.settled && WaitingOn(Next(s, step), e) == {}
    ensures !s.entries[e].count.settled
    ensures WaitingOn(s, e) == {} || (step.Abort? && WaitingOn(s, e) == {step.w})
  {
    var t := Next(s, step);
    forall w | w in WaitingOn(s, e) ensures step.Abort? && step.w == w {
      assert w !in WaitingOn(t, e);
    }
  }

  lemma NoneAbandonedStep<K, R>(s: State<K, R>, step: Step<K, R>)
    requires Inv(s) && NoneAbandoned(s) && Enabled(s, step)
    ensures NoneAbandoned(Next(s, step))
  {
    var t := Next(s, step);
    forall e | e in t.entries && !t.entries[e].count.settled && WaitingOn(t, e) == {} && EverRegistered(t, e)
      ensures t.entries[e].count.aborted
    {
      var v :| Registered(t, v, e);
      RegisteredBefore(s, step, e, v);
      WaitersGone(s, step, e);
      AbortStays(s, step, e);
      if !s.entries[e].count.aborted {
        AbortsByLastWaiter(s, step, e);
      }
    }
  }

  lemma {:induction false} NoneAbandonedRun<K, R>(s: State<K, R>, steps: seq<Step<K, R>>)
    requires Inv(s) && NoneAbandoned(s) && IsRun(s, steps)
    ensures Inv(After(s, steps)) && NoneAbandoned(After(s, steps))
    decreases |steps|
  {
    if steps != [] {
      StepKeeps(s, steps[0]);
      NoneAbandonedStep(s, steps[0]);
      NoneAbandonedRun(Next(s, steps[0]), steps[1..]);
    }
  }

  /**
   In every run, upstream work under way that nobody waits for has been aborted if and only if
   somebody was ever counted as waiting for it.
   */
  lemma AbandonedExactly<K, R>(steps: seq<Step<K, R>>, e: EntryId)
    requires IsRun(Empty(), steps)
    requires var s := After(Empty<K, R>(), steps);
             e in s.entries && !s.entries[e].count.settled && WaitingOn(s, e) == {}
    ensures var s := After(Empty<K, R>(), steps);
            s.entries[e].count.aborted <==> EverRegistered(s, e)
  {
    NoneAbandonedRun(Empty(), steps);
    var s := After(Empty<K, R>(), steps);
    if w :| Left(s, w, e) {
      assert Registered(s, w, e);
    }
  }

  // ---------- an edge: joining an aborted flight ----------

  lemma {:induction false} Extend<K, R>(s: State<K, R>, xs: seq<Step<K, R>>, step: Step<K, R>)
    requires IsRun(s, xs) && Enabled(After(s, xs), step)
    ensures IsRun(s, xs + [step]) && After(s, xs + [step]) == Next(After(s, xs), step)
    decreases |xs|
  {
    if xs == [] {
      assert [] + [step] == [step] && [step][1..] == [];
    } else {
      Extend(Next(s, xs[0]), xs[1..], step);
      assert (xs + [step])[1..] == xs[1..] + [step];
    }
  }

  /**
   An aborted entry stays in the map until it settles: a caller that comes in between joins it
   and gets the abort as its own answer, though its signal never fired.
   */
  lemma JoinsAbortedFlight<K, R>(key: K, abortError: R) returns (steps: seq<Step<K, R>>)
    ensures IsRun(Empty(), steps) && Abort(1) !in steps
    ensures var s := After(Empty(), steps);
            && 1 in s.waiters && s.waiters[1] == Waiter(key, 0, true, true, Done(abortError))
            && 0 in s.entries && s.entries[0].count.aborted
  {
    var s: State<K, R> := Empty();
    steps := [];
    steps := steps + [Join(0, key, false, 0)];
    Extend(s, [], Join(0, key, false, 0));
    Extend(s, steps, Abort(0));
    steps := steps + [Abort(0)];
    Extend(s, steps, Join(1, key, false, 1));
    steps := steps + [Join(1, key, false, 1)];
    Extend(s, steps, Resolve(0, abortError));
    steps := steps + [Resolve(0, abortError)];
    Extend(s, steps, Mark(0));
    steps := steps + [Mark(0)];
    Extend(s, steps, Deliver(1));
    steps := steps + [Deliver(1)];
  }
}
