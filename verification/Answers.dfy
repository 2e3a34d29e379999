/**
 Where answers come from: the flights of src/services/newsService.ts over a shared cache that
 may lose, corrupt or refuse anything, put together with the waiters of Coalescing.  The
 coordinator appears as any choice between a shared value, a load and a cancellation.
 */
module Answers {
  import opened Common
  import opened CacheKey
  import C = Coalescing

  /** A news article, as src/types/article.ts requires it of the provider and of the cache. */
  datatype Article = Article(
    title: Text, description: Option<Text>, content: Option<Text>, url: Text, image: Option<Text>,
    publishedAt: Text, sourceName: Text, sourceUrl: Text)

  type ArticleList = seq<Article>

  datatype Status = Hit | Miss | Coalesced | Stale

  /** How a flight ends. */
  datatype Result = Articles(articles: ArticleList, status: Status) | Failed | Aborted

  /** A stored value: an article list, or anything else; what does not parse is the store's own error. */
  datatype Payload = List(articles: ArticleList) | Junk(parses: bool)

  type Cache = map<Text, Payload>

  // ---------- readers and writers ----------

  /** What a store command did: its effect and answer, an error with or without the effect. */
  datatype Fault = Works | FailsBefore | FailsAfter

  /** A reader's result and the cache it leaves: a payload of the wrong shape is deleted. */
  function Lookup(cache: Cache, key: Text, get: Fault, del: Fault): (Cache, Option<ArticleList>) {
    if get != Works || key !in cache then (cache, None)
    else if cache[key].List? then (cache, Some(cache[key].articles))
    else (if del == FailsBefore then cache else cache - {key}, None)
  }

  function Stored(cache: Cache, key: Text, articles: ArticleList, outcome: Fault): Cache {
    if outcome == FailsBefore then cache else cache[key := List(articles)]
  }

  class CacheClient {
    var entries: Cache

    constructor ()
      ensures entries == map[]
    {
      entries := map[];
    }

    method DeleteCorruptCacheEntry(key: Text, del: Fault)
      modifies this
      ensures entries == if del == FailsBefore then old(entries) else old(entries) - {key}
    {
      if del != FailsBefore {
        entries := entries - {key};
      }
    }

    /** Reads the fresh or the stale entry; never throws, and never returns anything but a list. */
    method ReadCachedArticles(key: Text, get: Fault, del: Fault) returns (r: Option<ArticleList>)
      modifies this
      ensures (entries, r) == Lookup(old(entries), key, get, del)
    {
      if get != Works {
        return None;
      }
      if key in entries {
        if entries[key] == Junk(false) {
          DeleteCorruptCacheEntry(key, del);
          return None;
        }
        if !entries[key].List? {
          DeleteCorruptCacheEntry(key, del);
          return None;
        }
        return Some(entries[key].articles);
      }
      return None;
    }

    /** Writes the fresh entry, then the stale one; neither failure stops the other. */
    method WriteCachedArticles(key: Text, articles: ArticleList, first: Fault, second: Fault)
      modifies this
      ensures entries == Stored(Stored(old(entries), key, articles, first), StaleCacheKey(key), articles, second)
    {
      if first != FailsBefore {
        entries := entries[key := List(articles)];
      }
      if second != FailsBefore {
        entries := entries[StaleCacheKey(key) := List(articles)];
      }
    }
  }

  // ---------- the keys ----------

  /** How a search names its fresh entry, and a fresh name its stale one. */
  datatype Keys = Keys(plain: Search -> Text, stale: Text -> Text)

  const JSON_KEYS := Keys(SearchCacheKey, StaleCacheKey)

  predicate KeysDiffer(ks: Keys, q: Search, r: Search) {
    && (ks.plain(q) == ks.plain(r) ==> SameSearch(q, r))
    && ks.stale(ks.plain(q)) != ks.plain(r)
    && (ks.stale(ks.plain(q)) == ks.stale(ks.plain(r)) ==> SameSearch(q, r))
  }

  ghost predicate KeysApart(ks: Keys) {
    forall q, r :: KeysDiffer(ks, q, r)
  }

  lemma JsonKeysApart()
    ensures KeysApart(JSON_KEYS)
  {
    forall q, r ensures KeysDiffer(JSON_KEYS, q, r) {
      KeyInjective(q, r);
      StaleKeysApart(q, r);
    }
  }

  // ---------- one flight ----------

  datatype Stage =
    | Coordinating
    | Calling
    | WritingFresh(articles: ArticleList)
    | WritingStale(articles: ArticleList)
    | ReadingStale
    | Finished(result: Result)

  datatype Flight = Flight(search: Search, stage: Stage)

  type Produce = set<(Search, ArticleList)>

  /** The cache, and every list the provider returned with the search it was asked. */
  datatype Shared = Shared(cache: Cache, produced: Produce)

  datatype FlightStep =
    | SharedHit                                   // the coordinator's recheck or poll answers
    | StartLoad
    | Cancel                                      // an abort reaches the coordinator or the provider
    | ProviderReturns(articles: ArticleList)
    | ProviderFails
    | WroteFresh(outcome: Fault)
    | WroteStale(outcome: Fault)
    | ReadStale(get: Fault, del: Fault)

  /** `aborted` is the flight's own signal; it is looked at when the provider answers, not after. */
  predicate CanFly(ks: Keys, f: Flight, aborted: bool, sh: Shared, step: FlightStep) {
    var key := ks.plain(f.search);
    match step
    case SharedHit => f.stage.Coordinating? && key in sh.cache && sh.cache[key].List?
    case StartLoad => f.stage.Coordinating?
    case Cancel => f.stage.Calling? || (f.stage.Coordinating? && aborted)
    case ProviderReturns(_) => f.stage.Calling? && !aborted
    case ProviderFails => f.stage.Calling? && !aborted
    case WroteFresh(_) => f.stage.WritingFresh?
    case WroteStale(_) => f.stage.WritingStale?
    case ReadStale(_, _) => f.stage.ReadingStale?
  }

  function Fly(ks: Keys, f: Flight, aborted: bool, sh: Shared, step: FlightStep): (Stage, Shared)
    requires CanFly(ks, f, aborted, sh, step)
  {
    var key := ks.plain(f.search);
    match step
    case SharedHit => (Finished(Articles(sh.cache[key].articles, Coalesced)), sh)
    case StartLoad => (Calling, sh)
    case Cancel => (Finished(Aborted), sh)
    case ProviderReturns(articles) =>
      (WritingFresh(articles), sh.(produced := sh.produced + {(f.search, articles)}))
    case ProviderFails => (ReadingStale, sh)
    case WroteFresh(outcome) =>
      (WritingStale(f.stage.articles), sh.(cache := Stored(sh.cache, key, f.stage.articles, outcome)))
    case WroteStale(outcome) =>
      (Finished(Articles(f.stage.articles, Miss)),
       sh.(cache := Stored(sh.cache, ks.stale(key), f.stage.articles, outcome)))
    case ReadStale(get, del) =>
      var (cache, r) := Lookup(sh.cache, ks.stale(key), get, del);
      (Finished(if r.Some? then Articles(r.value, Stale) else Failed), sh.(cache := cache))
  }

  // ---------- what else happens to the cache ----------

  datatype Disturbance =
    | Lose(key: Text)                                                  // expiry, eviction, a late delete
    | Corrupt(key: Text, parses: bool)                                 // the payload is no article list
    | ProvidedElsewhere(search: Search, articles: ArticleList)         // the provider answers another replica
    | WriteAgain(search: Search, articles: ArticleList, stale: bool)   // a late write, or another replica's

  /** What is written, however late and by whom, the provider has returned for that search. */
  ghost predicate CanDisturb(sh: Shared, d: Disturbance) {
    d.WriteAgain? ==> Produced(sh.produced, d.search, d.articles)
  }

  function KeyOf(ks: Keys, search: Search, stale: bool): Text {
    if stale then ks.stale(ks.plain(search)) else ks.plain(search)
  }

  function Disturbed(ks: Keys, sh: Shared, d: Disturbance): Shared {
    match d
    case Lose(key) => sh.(cache := sh.cache - {key})
    case Corrupt(key, parses) => sh.(cache := sh.cache[key := Junk(parses)])
    case ProvidedElsewhere(search, articles) => sh.(produced := sh.produced + {(search, articles)})
    case WriteAgain(search, articles, stale) => sh.(cache := sh.cache[KeyOf(ks, search, stale) := List(articles)])
  }

  // ---------- provenance of one flight ----------

  /** The provider returned the list for a search that says the same. */
  ghost predicate Produced(p: Produce, search: Search, articles: ArticleList) {
    exists q :: (q, articles) in p && SameSearch(q, search)
  }

  lemma ProducedAlike(p: Produce, search: Search, articles: ArticleList, q: Search)
    requires Produced(p, search, articles) && SameSearch(q, search)
    ensures Produced(p, q, articles)
  {
    var asked :| (asked, articles) in p && SameSearch(asked, search);
    assert SameSearch(asked, q);
  }

  lemma ProducedStays(p: Produce, more: Produce, search: Search, articles: ArticleList)
    requires Produced(p, search, articles) && p <= more
    ensures Produced(more, search, articles)
  {
    var asked :| (asked, articles) in p && SameSearch(asked, search);
    assert (asked, articles) in more;
  }

  predicate BelongsTo(ks: Keys, key: Text, q: Search) {
    key == KeyOf(ks, q, false) || key == KeyOf(ks, q, true)
  }

  /** A list under a search's fresh or stale key was produced for that search. */
  ghost predicate Sound(ks: Keys, sh: Shared) {
    forall q, k | k in sh.cache && sh.cache[k].List? && BelongsTo(ks, k, q) :: Produced(sh.produced, q, sh.cache[k].articles)
  }

  ghost predicate StageSound(p: Produce, search: Search, stage: Stage) {
    match stage
    case WritingFresh(articles) => Produced(p, search, articles)
    case WritingStale(articles) => Produced(p, search, articles)
    case Finished(Articles(articles, _)) => Produced(p, search, articles)
    case _ => true
  }

  lemma KeysNameTheirSearch(ks: Keys, search: Search, stale: bool, q: Search)
    requires KeysApart(ks) && BelongsTo(ks, KeyOf(ks, search, stale), q)
    ensures SameSearch(q, search)
  {
    assert KeysDiffer(ks, search, q) && KeysDiffer(ks, q, search);
  }

  /** Writing a produced list under either of its search's keys keeps the cache sound. */
  lemma WriteKeepsSound(ks: Keys, sh: Shared, search: Search, articles: ArticleList, stale: bool)
    requires KeysApart(ks) && Sound(ks, sh) && Produced(sh.produced, search, articles)
    ensures Sound(ks, sh.(cache := sh.cache[KeyOf(ks, search, stale) := List(articles)]))
  {
    forall q | BelongsTo(ks, KeyOf(ks, search, stale), q) ensures Produced(sh.produced, q, articles) {
      KeysNameTheirSearch(ks, search, stale, q);
      ProducedAlike(sh.produced, search, articles, q);
    }
  }

  lemma MoreProducedKeepsSound(ks: Keys, sh: Shared, more: Produce)
    requires Sound(ks, sh) && sh.produced <= more
    ensures Sound(ks, sh.(produced := more))
  {
    forall q, k | k in sh.cache && sh.cache[k].List? && BelongsTo(ks, k, q) ensures Produced(more, q, sh.cache[k].articles) {
      ProducedStays(sh.produced, more, q, sh.cache[k].articles);
    }
  }

  lemma DisturbedSound(ks: Keys, sh: Shared, d: Disturbance)
    requires KeysApart(ks) && Sound(ks, sh) && CanDisturb(sh, d)
    ensures Sound(ks, Disturbed(ks, sh, d)) && sh.produced <= Disturbed(ks, sh, d).produced
  {
    match d
    case ProvidedElsewhere(search, articles) =>
      MoreProducedKeepsSound(ks, sh, sh.produced + {(search, articles)});
    case WriteAgain(search, articles, stale) => WriteKeepsSound(ks, sh, search, articles, stale);
    case _ =>
  }

  /** The list the provider returned to a flight that was not aborted then. */
  function Loaded(stage: Stage): Option<ArticleList> {
    match stage
    case WritingFresh(articles) => Some(articles)
    case WritingStale(articles) => Some(articles)
    case Finished(Articles(articles, Miss)) => Some(articles)
    case _ => None
  }

  lemma FlySound(ks: Keys, f: Flight, aborted: bool, sh: Shared, step: FlightStep)
    requires KeysApart(ks) && Sound(ks, sh) && StageSound(sh.produced, f.search, f.stage) && CanFly(ks, f, aborted, sh, step)
    ensures var (stage, sh') := Fly(ks, f, aborted, sh, step);
            Sound(ks, sh') && StageSound(sh'.produced, f.search, stage) && sh.produced <= sh'.produced
  {
    assert BelongsTo(ks, KeyOf(ks, f.search, false), f.search) && BelongsTo(ks, KeyOf(ks, f.search, true), f.search);
    match step
    case ProviderReturns(articles) => MoreProducedKeepsSound(ks, sh, sh.produced + {(f.search, articles)});
    case WroteFresh(_) => WriteKeepsSound(ks, sh, f.search, f.stage.articles, false);
    case WroteStale(_) => WriteKeepsSound(ks, sh, f.search, f.stage.articles, true);
    case _ =>
  }

  /**
   What a search's two writes leave to read: each entry reads as the written list exactly if its own
   write took effect, or that list stood there before; the other write and a faulty read have no say.
   Another search's entries read as before.
   */
  lemma WrittenIsRead(
    ks: Keys, cache: Cache, q: Search, articles: ArticleList, first: Fault, second: Fault, other: Search, del: Fault)
    requires KeysApart(ks)
    ensures var key := ks.plain(q);
            var c := Stored(Stored(cache, key, articles, first), ks.stale(key), articles, second);
            && Lookup(c, key, Works, del).1
               == (if first == FailsBefore then Lookup(cache, key, Works, del).1 else Some(articles))
            && Lookup(c, ks.stale(key), Works, del).1
               == (if second == FailsBefore then Lookup(cache, ks.stale(key), Works, del).1 else Some(articles))
            && (!SameSearch(other, q) ==>
                  && Lookup(c, ks.plain(other), Works, del).1 == Lookup(cache, ks.plain(other), Works, del).1
                  && Lookup(c, ks.stale(ks.plain(other)), Works, del).1
                     == Lookup(cache, ks.stale(ks.plain(other)), Works, del).1)
  {
    assert KeysDiffer(ks, q, q) && KeysDiffer(ks, q, other) && KeysDiffer(ks, other, q);
  }

  /** A payload that is no list reads as nothing and goes, unless its deletion fails; nothing else changes. */
  lemma JunkGoes(cache: Cache, key: Text, get: Fault, del: Fault, other: Text)
    ensures var (c, r) := Lookup(cache, key, get, del);
            && (r.Some? <==> get == Works && key in cache && cache[key].List?)
            && (r.Some? ==> cache[key] == List(r.value))
            && (key in cache && key !in c <==> get == Works && del != FailsBefore && key in cache && cache[key].Junk?)
            && (other != key || key in c ==> (other in c <==> other in cache) && (other in c ==> c[other] == cache[other]))
  {
  }

  /** Once the provider has answered in time, nothing but that list can come of the flight. */
  lemma LoadedStays(ks: Keys, f: Flight, aborted: bool, sh: Shared, step: FlightStep)
    requires CanFly(ks, f, aborted, sh, step) && Loaded(f.stage).Some?
    ensures Loaded(Fly(ks, f, aborted, sh, step).0) == Loaded(f.stage)
  {
  }

  /** The cache is never waited on to work: each write ends, whatever it did, and then the flight. */
  lemma WritesAlwaysEnd(ks: Keys, f: Flight, aborted: bool, sh: Shared, first: Fault, second: Fault)
    requires f.stage.WritingFresh?
    ensures CanFly(ks, f, aborted, sh, WroteFresh(first))
    ensures var (stage, sh') := Fly(ks, f, aborted, sh, WroteFresh(first));
            var g := f.(stage := stage);
            && CanFly(ks, g, aborted, sh', WroteStale(second))
            && Fly(ks, g, aborted, sh', WroteStale(second)).0 == Finished(Articles(f.stage.articles, Miss))
            && Fly(ks, g, aborted, sh', WroteStale(second)).1.cache
               == Stored(Stored(sh.cache, KeyOf(ks, f.search, false), f.stage.articles, first),
                         KeyOf(ks, f.search, true), f.stage.articles, second)
  {
  }

  // ---------- all callers and flights ----------

  datatype State = State(
    calls: C.State<Text, Result>,
    searches: map<C.WaiterId, Search>,
    hits: map<C.WaiterId, ArticleList>,
    flights: map<C.EntryId, Flight>,
    shared: Shared)

  datatype Step =
    | Find(w: C.WaiterId, search: Search)                        // the first read of searchArticles answers
    | Join(w: C.WaiterId, search: Search, aborted: bool, id: C.EntryId)
    | Abort(w: C.WaiterId)
    | Deliver(w: C.WaiterId)
    | Resolve(e: C.EntryId)
    | Mark(e: C.EntryId)
    | Flies(e: C.EntryId, step: FlightStep)
    | Disturb(d: Disturbance)

  /** The step of Coalescing behind a step, if there is one. */
  function CallStep(ks: Keys, s: State, step: Step): Option<C.Step<Text, Result>> {
    match step
    case Join(w, search, aborted, id) => Some(C.Join(w, ks.plain(search), aborted, id))
    case Abort(w) => Some(C.Abort(w))
    case Deliver(w) => Some(C.Deliver(w))
    case Resolve(e) =>
      if e in s.flights && s.flights[e].stage.Finished? then Some(C.Resolve(e, s.flights[e].stage.result)) else None
    case Mark(e) => Some(C.Mark(e))
    case _ => None
  }

  ghost predicate Enabled(ks: Keys, s: State, step: Step) {
    match step
    case Find(w, search) =>
      var key := ks.plain(search);
      w !in s.calls.waiters && w !in s.hits && key in s.shared.cache && s.shared.cache[key].List?
    case Flies(e, fs) =>
      e in s.flights && e in s.calls.entries && CanFly(ks, s.flights[e], s.calls.entries[e].count.aborted, s.shared, fs)
    case Disturb(d) => CanDisturb(s.shared, d)
    case Join(w, _, _, _) => w !in s.hits && C.Enabled(s.calls, CallStep(ks, s, step).value)
    case _ => CallStep(ks, s, step).Some? && C.Enabled(s.calls, CallStep(ks, s, step).value)
  }

  function Next(ks: Keys, s: State, step: Step): State
    requires Enabled(ks, s, step)
  {
    match step
    case Find(w, search) =>
      s.(searches := s.searches[w := search], hits := s.hits[w := s.shared.cache[ks.plain(search)].articles])
    case Flies(e, fs) =>
      var (stage, shared) := Fly(ks, s.flights[e], s.calls.entries[e].count.aborted, s.shared, fs);
      s.(flights := s.flights[e := s.flights[e].(stage := stage)], shared := shared)
    case Disturb(d) => s.(shared := Disturbed(ks, s.shared, d))
    case Join(w, search, _, id) =>
      s.(calls := C.Next(s.calls, CallStep(ks, s, step).value),
         searches := s.searches[w := search],
         flights := if ks.plain(search) in s.calls.inFlight then s.flights
                    else s.flights[id := Flight(search, Coordinating)])
    case _ => s.(calls := C.Next(s.calls, CallStep(ks, s, step).value))
  }

  ghost predicate IsRun(ks: Keys, s: State, steps: seq<Step>)
    decreases |steps|
  {
    steps != [] ==> Enabled(ks, s, steps[0]) && IsRun(ks, Next(ks, s, steps[0]), steps[1..])
  }

  function After(ks: Keys, s: State, steps: seq<Step>): State
    requires IsRun(ks, s, steps)
    decreases |steps|
  {
    if steps == [] then s else After(ks, Next(ks, s, steps[0]), steps[1..])
  }

  const EMPTY := State(C.Empty(), map[], map[], map[], Shared(map[], {}))

  ghost predicate FlightsSound(ks: Keys, s: State) {
    && s.flights.Keys == s.calls.entries.Keys
    && (forall e | e in s.flights ::
          && s.calls.entries[e].key == ks.plain(s.flights[e].search)
          && StageSound(s.shared.produced, s.flights[e].search, s.flights[e].stage)
          && (s.calls.entries[e].outcome.Some? ==>
                s.flights[e].stage == Finished(s.calls.entries[e].outcome.value)))
  }

  ghost predicate CallersSound(ks: Keys, s: State) {
    && (forall w | w in s.calls.waiters :: w in s.searches && s.calls.waiters[w].key == ks.plain(s.searches[w]))
    && (forall w | w in s.hits ::
          w in s.searches && w !in s.calls.waiters && Produced(s.shared.produced, s.searches[w], s.hits[w]))
  }

  ghost predicate Inv(ks: Keys, s: State) {
    KeysApart(ks) && C.Inv(s.calls) && Sound(ks, s.shared) && FlightsSound(ks, s) && CallersSound(ks, s)
  }

  lemma MoreProducedKeeps(ks: Keys, s: State, shared: Shared)
    requires Inv(ks, s) && Sound(ks, shared) && s.shared.produced <= shared.produced
    ensures Inv(ks, s.(shared := shared))
  {
  }

  lemma StageChanges(ks: Keys, s: State, e: C.EntryId, stage: Stage)
    requires FlightsSound(ks, s) && CallersSound(ks, s) && e in s.flights && !s.flights[e].stage.Finished?
    requires StageSound(s.shared.produced, s.flights[e].search, stage)
    ensures var t := s.(flights := s.flights[e := s.flights[e].(stage := stage)]);
            FlightsSound(ks, t) && CallersSound(ks, t)
  {
  }

  lemma FliesKeeps(ks: Keys, s: State, e: C.EntryId, fs: FlightStep)
    requires Inv(ks, s) && Enabled(ks, s, Flies(e, fs))
    ensures Inv(ks, Next(ks, s, Flies(e, fs)))
  {
    var f, aborted := s.flights[e], s.calls.entries[e].count.aborted;
    FlySound(ks, f, aborted, s.shared, fs);
    assert !f.stage.Finished?;
    var (stage, shared) := Fly(ks, f, aborted, s.shared, fs);
    MoreProducedKeeps(ks, s, shared);
    StageChanges(ks, s.(shared := shared), e, stage);
  }

  lemma FindKeeps(ks: Keys, s: State, w: C.WaiterId, search: Search)
    requires Inv(ks, s) && Enabled(ks, s, Find(w, search))
    ensures Inv(ks, Next(ks, s, Find(w, search)))
  {
    assert BelongsTo(ks, KeyOf(ks, search, false), search);
  }

  /** Whatever the waiters do, flights and entries, and callers and searches, stay matched. */
  lemma FlightsKept(ks: Keys, s: State, step: Step)
    requires FlightsSound(ks, s) && Enabled(ks, s, step) && CallStep(ks, s, step).Some?
    ensures FlightsSound(ks, Next(ks, s, step))
  {
    C.StepShape(s.calls, CallStep(ks, s, step).value);
  }

  lemma CallersKept(ks: Keys, s: State, step: Step)
    requires CallersSound(ks, s) && Enabled(ks, s, step) && CallStep(ks, s, step).Some?
    ensures CallersSound(ks, Next(ks, s, step))
  {
    C.StepShape(s.calls, CallStep(ks, s, step).value);
  }

  lemma CallKeeps(ks: Keys, s: State, step: Step)
    requires Inv(ks, s) && Enabled(ks, s, step) && CallStep(ks, s, step).Some?
    ensures Inv(ks, Next(ks, s, step))
  {
    C.StepKeeps(s.calls, CallStep(ks, s, step).value);
    FlightsKept(ks, s, step);
    CallersKept(ks, s, step);
  }

  lemma StepKeeps(ks: Keys, s: State, step: Step)
    requires Inv(ks, s) && Enabled(ks, s, step)
    ensures Inv(ks, Next(ks, s, step))
  {
    match step
    case Find(w, search) => FindKeeps(ks, s, w, search);
    case Flies(e, fs) => FliesKeeps(ks, s, e, fs);
    case Disturb(d) =>
      DisturbedSound(ks, s.shared, d);
      MoreProducedKeeps(ks, s, Disturbed(ks, s.shared, d));
    case _ => CallKeeps(ks, s, step);
  }

  lemma {:induction false} RunKeeps(ks: Keys, s: State, steps: seq<Step>)
    requires Inv(ks, s) && IsRun(ks, s, steps)
    ensures Inv(ks, After(ks, s, steps))
    decreases |steps|
  {
    if steps != [] {
      StepKeeps(ks, s, steps[0]);
      RunKeeps(ks, Next(ks, s, steps[0]), steps[1..]);
    }
  }

  /** The list a caller has been given, if it has been given one. */
  function Given(s: State, w: C.WaiterId): Option<ArticleList> {
    if w in s.hits then Some(s.hits[w])
    else if w in s.calls.waiters && s.calls.waiters[w].phase.Done? && s.calls.waiters[w].phase.result.Articles? then
      Some(s.calls.waiters[w].phase.result.articles)
    else None
  }

  lemma GivenWasProduced(ks: Keys, s: State, w: C.WaiterId)
    requires Inv(ks, s) && Given(s, w).Some?
    ensures w in s.searches && Produced(s.shared.produced, s.searches[w], Given(s, w).value)
  {
    if w !in s.hits {
      var e := s.calls.waiters[w].entry;
      assert KeysDiffer(ks, s.flights[e].search, s.searches[w]);
    }
  }

  /**
   Every list a caller gets, from whichever cache entry, flight or replica, is one the provider
   returned for a search that says the same, null and left out fields alike.
   */
  lemma Provenance(steps: seq<Step>, w: C.WaiterId)
    requires IsRun(JSON_KEYS, EMPTY, steps) && Given(After(JSON_KEYS, EMPTY, steps), w).Some?
    ensures var s := After(JSON_KEYS, EMPTY, steps);
            w in s.searches && Produced(s.shared.produced, s.searches[w], Given(s, w).value)
  {
    JsonKeysApart();
    RunKeeps(JSON_KEYS, EMPTY, steps);
    GivenWasProduced(JSON_KEYS, After(JSON_KEYS, EMPTY, steps), w);
  }

  // ---------- fail-open ----------

  predicate HasLoaded(s: State, e: C.EntryId, articles: ArticleList) {
    e in s.flights && Loaded(s.flights[e].stage) == Some(articles)
  }

  lemma LoadedStepKeeps(ks: Keys, s: State, step: Step, e: C.EntryId, articles: ArticleList)
    requires Inv(ks, s) && Enabled(ks, s, step) && HasLoaded(s, e, articles)
    ensures HasLoaded(Next(ks, s, step), e, articles)
  {
    if !step.Flies? {
      assert s.flights[e] == Next(ks, s, step).flights[e];
    } else if step.e == e {
      LoadedStays(ks, s.flights[e], s.calls.entries[e].count.aborted, s.shared, step.step);
    }
  }

  lemma {:induction false} LoadedForGood(ks: Keys, s: State, steps: seq<Step>, e: C.EntryId, articles: ArticleList)
    requires Inv(ks, s) && IsRun(ks, s, steps) && HasLoaded(s, e, articles)
    ensures Inv(ks, After(ks, s, steps)) && HasLoaded(After(ks, s, steps), e, articles)
    decreases |steps|
  {
    if steps != [] {
      LoadedStepKeeps(ks, s, steps[0], e, articles);
      StepKeeps(ks, s, steps[0]);
      LoadedForGood(ks, Next(ks, s, steps[0]), steps[1..], e, articles);
    }
  }

  predicate AnsweredBy(s: State, w: C.WaiterId, e: C.EntryId) {
    w in s.calls.waiters && s.calls.waiters[w].entry == e && s.calls.waiters[w].phase.Done?
  }

  lemma AnsweredWithLoaded(ks: Keys, s: State, e: C.EntryId, w: C.WaiterId, articles: ArticleList)
    requires Inv(ks, s) && HasLoaded(s, e, articles) && AnsweredBy(s, w, e)
    ensures s.calls.waiters[w].phase.result == Articles(articles, Miss)
  {
  }

  /**
   Once the provider has answered a flight that was not aborted, every caller the flight ever
   answers gets exactly that list: no later abort and no cache or lease failure changes it.
   */
  lemma FailOpen(ks: Keys, s: State, steps: seq<Step>, e: C.EntryId, w: C.WaiterId, articles: ArticleList)
    requires Inv(ks, s) && IsRun(ks, s, steps) && HasLoaded(s, e, articles) && AnsweredBy(After(ks, s, steps), w, e)
    ensures After(ks, s, steps).calls.waiters[w].phase.result == Articles(articles, Miss)
  {
    LoadedForGood(ks, s, steps, e, articles);
    AnsweredWithLoaded(ks, After(ks, s, steps), e, w, articles);
  }

  /** Nothing is left to happen for the flight and for this caller of it. */
  ghost predicate Quiescent(ks: Keys, s: State, e: C.EntryId, w: C.WaiterId) {
    && (forall fs :: !Enabled(ks, s, Flies(e, fs)))
    && !Enabled(ks, s, Resolve(e)) && !Enabled(ks, s, Mark(e)) && !Enabled(ks, s, Deliver(w))
  }

  /** A flight with the provider's list is stuck only when it has ended. */
  lemma LoadedEnds(ks: Keys, s: State, e: C.EntryId, w: C.WaiterId, articles: ArticleList)
    requires Inv(ks, s) && HasLoaded(s, e, articles) && Quiescent(ks, s, e, w)
    ensures s.flights[e].stage == Finished(Articles(articles, Miss))
    ensures s.calls.entries[e].outcome == Some(Articles(articles, Miss)) && s.calls.entries[e].count.settled
  {
    FlightAtRest(ks, s, e, w);
  }

  lemma DeliverableWhenSettled(ks: Keys, s: State, w: C.WaiterId)
    requires w in s.calls.waiters && s.calls.waiters[w].entry in s.calls.entries
    requires var entry := s.calls.entries[s.calls.waiters[w].entry]; entry.count.settled && entry.outcome.Some?
    ensures Enabled(ks, s, Deliver(w)) <==> s.calls.waiters[w].phase.Waiting?
  {
    assert CallStep(ks, s, Deliver(w)) == Some(C.Deliver(w));
  }

  lemma WaiterAtRest(ks: Keys, s: State, e: C.EntryId, w: C.WaiterId, articles: ArticleList)
    requires Inv(ks, s) && HasLoaded(s, e, articles) && Quiescent(ks, s, e, w)
    requires w in s.calls.waiters && s.calls.waiters[w].entry == e
    ensures var p := s.calls.waiters[w].phase; p.Canceled? || p == C.Done(Articles(articles, Miss))
  {
    LoadedEnds(ks, s, e, w, articles);
    DeliverableWhenSettled(ks, s, w);
    if s.calls.waiters[w].phase.Done? {
      AnsweredWithLoaded(ks, s, e, w, articles);
    }
  }

  /**
   Every caller still waiting for a flight gets the list the provider returned to it: once nothing
   more can happen for the flight, only a caller canceled by its own signal is without it, whatever
   each cache command, lease command or other caller did.
   */
  lemma EveryWaiterGetsTheList(
    ks: Keys, s: State, steps: seq<Step>, e: C.EntryId, w: C.WaiterId, articles: ArticleList)
    requires Inv(ks, s) && IsRun(ks, s, steps) && HasLoaded(s, e, articles)
    requires var t := After(ks, s, steps);
             w in t.calls.waiters && t.calls.waiters[w].entry == e && Quiescent(ks, t, e, w)
    ensures var p := After(ks, s, steps).calls.waiters[w].phase;
            p.Canceled? || p == C.Done(Articles(articles, Miss))
  {
    LoadedForGood(ks, s, steps, e, articles);
    WaiterAtRest(ks, After(ks, s, steps), e, w, articles);
  }

  // ---------- what every flight comes to ----------

  /** The stale fallback: the entry under the stale key, if it is a list and can be read. */
  function StaleAnswer(cache: Cache, staleKey: Text, get: Fault): Result {
    if get == Works && staleKey in cache && cache[staleKey].List? then Articles(cache[staleKey].articles, Stale)
    else Failed
  }

  /**
   The answer that a run gives a flight: the shared entry, an abort, the provider's list or, behind a
   provider failure, the stale entry as it is when it is read.
   */
  ghost function Answer(ks: Keys, s: State, steps: seq<Step>, e: C.EntryId): Option<Result>
    requires IsRun(ks, s, steps)
    decreases |steps|
  {
    if steps == [] then None
    else if steps[0].Flies? && steps[0].e == e then
      var key := ks.plain(s.flights[e].search);
      match steps[0].step
      case SharedHit => Some(Articles(s.shared.cache[key].articles, Coalesced))
      case Cancel => Some(Aborted)
      case ProviderReturns(articles) => Some(Articles(articles, Miss))
      case ReadStale(get, _) => Some(StaleAnswer(s.shared.cache, ks.stale(key), get))
      case _ => Answer(ks, Next(ks, s, steps[0]), steps[1..], e)
    else Answer(ks, Next(ks, s, steps[0]), steps[1..], e)
  }

  predicate Undecided(s: State, e: C.EntryId) {
    e in s.flights ==> s.flights[e].stage in {Coordinating, Calling, ReadingStale}
  }

  /** The flight has ended with the answer, or is still writing it. */
  predicate Heads(s: State, e: C.EntryId, r: Result) {
    && e in s.flights
    && (s.flights[e].stage == Finished(r)
        || (r.Articles? && r.status.Miss? && s.flights[e].stage in {WritingFresh(r.articles), WritingStale(r.articles)}))
  }

  /** Another step leaves a flight as it is, or starts it. */
  lemma FlightElsewhere(ks: Keys, s: State, step: Step, e: C.EntryId)
    requires Inv(ks, s) && Enabled(ks, s, step) && !(step.Flies? && step.e == e)
    ensures var t := Next(ks, s, step);
            if e in s.flights then e in t.flights && t.flights[e] == s.flights[e]
            else e in t.flights ==> t.flights[e].stage == Coordinating
  {
  }

  lemma HeadsOn(ks: Keys, s: State, step: Step, e: C.EntryId, r: Result)
    requires Inv(ks, s) && Enabled(ks, s, step) && Heads(s, e, r)
    ensures Heads(Next(ks, s, step), e, r)
  {
    if !(step.Flies? && step.e == e) {
      FlightElsewhere(ks, s, step, e);
    }
  }

  lemma {:induction false} HeadsForGood(ks: Keys, s: State, steps: seq<Step>, e: C.EntryId, r: Result)
    requires Inv(ks, s) && IsRun(ks, s, steps) && Heads(s, e, r)
    ensures Heads(After(ks, s, steps), e, r)
    decreases |steps|
  {
    if steps != [] {
      HeadsOn(ks, s, steps[0], e, r);
      StepKeeps(ks, s, steps[0]);
      HeadsForGood(ks, Next(ks, s, steps[0]), steps[1..], e, r);
    }
  }

  /** A step decides an undecided flight as told, or leaves it undecided. */
  lemma Decides(ks: Keys, s: State, step: Step, e: C.EntryId)
    requires Inv(ks, s) && Enabled(ks, s, step) && Undecided(s, e)
    ensures IsRun(ks, s, [step])
    ensures var t, answer := Next(ks, s, step), Answer(ks, s, [step], e);
            if answer.Some? then Heads(t, e, answer.value) else Undecided(t, e)
  {
    assert [step][1..] == [];
    if !(step.Flies? && step.e == e) {
      FlightElsewhere(ks, s, step, e);
    }
  }

  lemma AnswerFirst(ks: Keys, s: State, steps: seq<Step>, e: C.EntryId)
    requires steps != [] && IsRun(ks, s, steps) && IsRun(ks, s, [steps[0]])
    ensures var first := Answer(ks, s, [steps[0]], e);
            Answer(ks, s, steps, e) == if first.Some? then first else Answer(ks, Next(ks, s, steps[0]), steps[1..], e)
  {
    assert [steps[0]][1..] == [];
  }

  lemma {:induction false} AnswerReached(ks: Keys, s: State, steps: seq<Step>, e: C.EntryId)
    requires Inv(ks, s) && IsRun(ks, s, steps) && Undecided(s, e)
    ensures var t, answer := After(ks, s, steps), Answer(ks, s, steps, e);
            if answer.Some? then Heads(t, e, answer.value) else Undecided(t, e)
    decreases |steps|
  {
    if steps != [] {
      var t := Next(ks, s, steps[0]);
      Decides(ks, s, steps[0], e);
      StepKeeps(ks, s, steps[0]);
      var first := Answer(ks, s, [steps[0]], e);
      AnswerFirst(ks, s, steps, e);
      if first.Some? {
        HeadsForGood(ks, t, steps[1..], e, first.value);
      } else {
        AnswerReached(ks, t, steps[1..], e);
      }
    }
  }

  /** An undecided or writing flight can always go on. */
  lemma FlightGoesOn(ks: Keys, s: State, e: C.EntryId)
    requires Inv(ks, s) && e in s.flights && forall fs :: !Enabled(ks, s, Flies(e, fs))
    ensures s.flights[e].stage.Finished?
  {
    var onward := match s.flights[e].stage
      case Coordinating => StartLoad
      case Calling => Cancel
      case ReadingStale => ReadStale(Works, Works)
      case WritingFresh(_) => WroteFresh(Works)
      case _ => WroteStale(Works);
    assert !Enabled(ks, s, Flies(e, onward));
  }

  /** At rest a flight's entry is settled with the flight's end. */
  lemma FlightAtRest(ks: Keys, s: State, e: C.EntryId, w: C.WaiterId)
    requires Inv(ks, s) && e in s.flights && Quiescent(ks, s, e, w)
    ensures s.flights[e].stage.Finished?
    ensures s.calls.entries[e].outcome == Some(s.flights[e].stage.result) && s.calls.entries[e].count.settled
  {
    FlightGoesOn(ks, s, e);
    assert CallStep(ks, s, Resolve(e)) == Some(C.Resolve(e, s.flights[e].stage.result));
    assert CallStep(ks, s, Mark(e)) == Some(C.Mark(e));
  }

  lemma CallerAtRest(ks: Keys, s: State, e: C.EntryId, w: C.WaiterId)
    requires Inv(ks, s) && e in s.flights && Quiescent(ks, s, e, w)
    requires w in s.calls.waiters && s.calls.waiters[w].entry == e
    ensures s.flights[e].stage.Finished?
    ensures var p := s.calls.waiters[w].phase; p.Canceled? || p == C.Done(s.flights[e].stage.result)
  {
    FlightAtRest(ks, s, e, w);
    DeliverableWhenSettled(ks, s, w);
  }

  /**
   Once nothing more can happen for a flight, each of its callers has the answer that the run gave
   the flight, unless canceled by its own signal: after a provider failure the stale list if it was
   there to be read, and else the failure.
   */
  lemma EveryCallerGetsTheAnswer(ks: Keys, steps: seq<Step>, e: C.EntryId, w: C.WaiterId)
    requires KeysApart(ks) && IsRun(ks, EMPTY, steps)
    requires var t := After(ks, EMPTY, steps);
             w in t.calls.waiters && t.calls.waiters[w].entry == e && Quiescent(ks, t, e, w)
    ensures Answer(ks, EMPTY, steps, e).Some?
    ensures var p := After(ks, EMPTY, steps).calls.waiters[w].phase;
            p.Canceled? || p == C.Done(Answer(ks, EMPTY, steps, e).value)
  {
    RunKeeps(ks, EMPTY, steps);
    AnswerReached(ks, EMPTY, steps, e);
    CallerAtRest(ks, After(ks, EMPTY, steps), e, w);
  }

  /** The fallback of one flight: after the provider's failure only the stale entry decides. */
  lemma FallbackEnds(ks: Keys, f: Flight, sh: Shared, fs: FlightStep)
    requires f.stage == Calling
    ensures CanFly(ks, f, false, sh, ProviderFails)
    ensures var (stage, sh') := Fly(ks, f, false, sh, ProviderFails);
            var g := f.(stage := stage);
            && sh' == sh
            && forall aborted :: (CanFly(ks, g, aborted, sh, fs) <==> fs.ReadStale?)
                 && (fs.ReadStale? ==>
                       Fly(ks, g, aborted, sh, fs).0 == Finished(StaleAnswer(sh.cache, ks.stale(ks.plain(f.search)), fs.get)))
  {
  }

  // ---------- the order of a flight's steps ----------

  /** What may come next of a flight, given its last step. */
  predicate MayFly(a: FlightStep, b: FlightStep) {
    match a
    case StartLoad => b.Cancel? || b.ProviderReturns? || b.ProviderFails?
    case ProviderFails => b.ReadStale?
    case ProviderReturns(_) => b.WroteFresh?
    case WroteFresh(_) => b.WroteStale?
    case _ => false
  }

  function FlightSteps(steps: seq<Step>, e: C.EntryId): seq<FlightStep> {
    if steps == [] then []
    else FlightSteps(steps[..|steps| - 1], e)
         + if steps[|steps| - 1].Flies? && steps[|steps| - 1].e == e then [steps[|steps| - 1].step] else []
  }

  predicate FlightHistory(log: seq<FlightStep>) {
    && (log != [] ==> log[0].SharedHit? || log[0].StartLoad? || log[0].Cancel?)
    && forall i :: 0 < i < |log| ==> MayFly(log[i - 1], log[i])
  }

  /** The stage that goes with the last step. */
  predicate Suits(stage: Stage, a: FlightStep) {
    match stage
    case Coordinating => false
    case Calling => a.StartLoad?
    case WritingFresh(_) => a.ProviderReturns?
    case WritingStale(_) => a.WroteFresh?
    case ReadingStale => a.ProviderFails?
    case Finished(_) => a.SharedHit? || a.Cancel? || a.WroteStale? || a.ReadStale?
  }

  ghost predicate InOrder(s: State, e: C.EntryId, log: seq<FlightStep>) {
    && FlightHistory(log)
    && (if e !in s.flights then log == []
        else if log == [] then s.flights[e].stage == Coordinating
        else Suits(s.flights[e].stage, log[|log| - 1]))
  }

  lemma HistoryGrows(log: seq<FlightStep>, fs: FlightStep)
    requires FlightHistory(log)
    requires if log == [] then fs.SharedHit? || fs.StartLoad? || fs.Cancel? else MayFly(log[|log| - 1], fs)
    ensures FlightHistory(log + [fs])
  {
    var longer := log + [fs];
    forall i | 0 < i < |longer| ensures MayFly(longer[i - 1], longer[i]) {
      if i < |log| {
        assert longer[i] == log[i];
      }
    }
  }

  /** The flight can take a step exactly behind one that it may follow, and its stage says which that was. */
  lemma FlyInOrder(ks: Keys, f: Flight, aborted: bool, sh: Shared, fs: FlightStep)
    requires CanFly(ks, f, aborted, sh, fs)
    ensures Suits(Fly(ks, f, aborted, sh, fs).0, fs)
    ensures forall a | Suits(f.stage, a) :: MayFly(a, fs)
    ensures f.stage == Coordinating ==> fs.SharedHit? || fs.StartLoad? || fs.Cancel?
  {
  }

  lemma InOrderStep(ks: Keys, s: State, step: Step, e: C.EntryId, log: seq<FlightStep>)
    requires Inv(ks, s) && Enabled(ks, s, step) && InOrder(s, e, log)
    ensures InOrder(Next(ks, s, step), e, log + if step.Flies? && step.e == e then [step.step] else [])
  {
    if step.Flies? && step.e == e {
      FlyInOrder(ks, s.flights[e], s.calls.entries[e].count.aborted, s.shared, step.step);
      HistoryGrows(log, step.step);
    } else {
      FlightElsewhere(ks, s, step, e);
      assert log + [] == log;
    }
  }

  lemma {:induction false} RunAppends(ks: Keys, s: State, steps: seq<Step>, step: Step)
    requires IsRun(ks, s, steps + [step])
    ensures IsRun(ks, s, steps) && Enabled(ks, After(ks, s, steps), step)
    ensures After(ks, s, steps + [step]) == Next(ks, After(ks, s, steps), step)
    decreases |steps|
  {
    if steps == [] {
      assert steps + [step] == [step] && [step][1..] == [];
    } else {
      assert (steps + [step])[0] == steps[0] && (steps + [step])[1..] == steps[1..] + [step];
      RunAppends(ks, Next(ks, s, steps[0]), steps[1..], step);
    }
  }

  /** In every run each flight goes its steps in order: no answer without a load, no fallback without a failure. */
  lemma {:induction false} FlightsInOrder(ks: Keys, steps: seq<Step>, e: C.EntryId)
    requires KeysApart(ks) && IsRun(ks, EMPTY, steps)
    ensures FlightHistory(FlightSteps(steps, e)) && InOrder(After(ks, EMPTY, steps), e, FlightSteps(steps, e))
    decreases |steps|
  {
    if steps != [] {
      var n := |steps| - 1;
      assert steps[..n] + [steps[n]] == steps;
      RunAppends(ks, EMPTY, steps[..n], steps[n]);
      RunKeeps(ks, EMPTY, steps[..n]);
      FlightsInOrder(ks, steps[..n], e);
      InOrderStep(ks, After(ks, EMPTY, steps[..n]), steps[n], e, FlightSteps(steps[..n], e));
    }
  }

  // ---------- who is answered with an abort ----------

  /** What a run does to the callers and entries. */
  function Calls(ks: Keys, s: State, steps: seq<Step>): seq<C.Step<Text, Result>>
    requires IsRun(ks, s, steps)
    decreases |steps|
  {
    if steps == [] then []
    else
      (match CallStep(ks, s, steps[0]) case Some(step) => [step] case None => [])
      + Calls(ks, Next(ks, s, steps[0]), steps[1..])
  }

  lemma {:induction false} CallsRun(ks: Keys, s: State, steps: seq<Step>)
    requires IsRun(ks, s, steps)
    ensures C.IsRun(s.calls, Calls(ks, s, steps))
    ensures C.After(s.calls, Calls(ks, s, steps)) == After(ks, s, steps).calls
    ensures forall w :: C.Abort(w) in Calls(ks, s, steps) ==> Abort(w) in steps
    decreases |steps|
  {
    if steps != [] {
      var t := Next(ks, s, steps[0]);
      CallsRun(ks, t, steps[1..]);
      var call, rest := CallStep(ks, s, steps[0]), Calls(ks, t, steps[1..]);
      assert steps == [steps[0]] + steps[1..];
      if call.Some? {
        assert ([call.value] + rest)[1..] == rest;
      } else {
        assert [] + rest == rest && t.calls == s.calls;
      }
    }
  }

  /** The run cancels the flight while its provider is asked, though no leaving caller aborted it. */
  ghost predicate SelfCanceled(ks: Keys, s: State, steps: seq<Step>, e: C.EntryId)
    requires IsRun(ks, s, steps)
    decreases |steps|
  {
    steps != [] &&
      (|| (steps[0] == Flies(e, Cancel) && s.flights[e].stage.Calling? && !s.calls.entries[e].count.aborted)
       || SelfCanceled(ks, Next(ks, s, steps[0]), steps[1..], e))
  }

  predicate EndedAborted(s: State, e: C.EntryId) {
    e in s.flights && s.flights[e].stage == Finished(Aborted)
  }

  predicate CountAborted(s: State, e: C.EntryId) {
    e in s.calls.entries && s.calls.entries[e].count.aborted
  }

  lemma CountTrace(ks: Keys, s: State, step: Step, e: C.EntryId)
    requires Enabled(ks, s, step) && CountAborted(s, e)
    ensures CountAborted(Next(ks, s, step), e)
  {
    var call := CallStep(ks, s, step);
    if call.Some? {
      C.AbortStays(s.calls, call.value, e);
    } else {
      assert Next(ks, s, step).calls == s.calls;
    }
  }

  /** What a step does to the end of a flight. */
  lemma FlightTrace(ks: Keys, s: State, step: Step, e: C.EntryId)
    requires Enabled(ks, s, step) && s.flights.Keys == s.calls.entries.Keys
    ensures var t := Next(ks, s, step);
            if step.Flies? && step.e == e then EndedAborted(t, e) == (step.step == Cancel) && !EndedAborted(s, e)
            else EndedAborted(t, e) == EndedAborted(s, e)
  {
    var t := Next(ks, s, step);
    match step
    case Flies(d, fs) => assert d != e ==> (e in t.flights) == (e in s.flights);
    case Join(_, _, _, _) =>
    case _ => assert t.flights == s.flights;
  }

  lemma AbortTrace(ks: Keys, s: State, step: Step, e: C.EntryId)
    requires Inv(ks, s) && Enabled(ks, s, step)
    ensures var t := Next(ks, s, step);
            && (CountAborted(s, e) ==> CountAborted(t, e))
            && (EndedAborted(s, e) ==> EndedAborted(t, e))
            && (EndedAborted(t, e) && !EndedAborted(s, e) ==> step == Flies(e, Cancel))
            && (step == Flies(e, Cancel) ==> EndedAborted(t, e))
  {
    if CountAborted(s, e) {
      CountTrace(ks, s, step, e);
    }
    FlightTrace(ks, s, step, e);
  }

  lemma {:induction false} AbortTraced(ks: Keys, s: State, steps: seq<Step>, e: C.EntryId)
    requires Inv(ks, s) && IsRun(ks, s, steps)
    ensures var t := After(ks, s, steps);
            && (CountAborted(s, e) ==> CountAborted(t, e))
            && (EndedAborted(s, e) || SelfCanceled(ks, s, steps, e) ==> EndedAborted(t, e))
            && (EndedAborted(t, e) && !CountAborted(t, e) ==> EndedAborted(s, e) || SelfCanceled(ks, s, steps, e))
    decreases |steps|
  {
    if steps != [] {
      AbortTrace(ks, s, steps[0], e);
      StepKeeps(ks, s, steps[0]);
      AbortTraced(ks, Next(ks, s, steps[0]), steps[1..], e);
    }
  }

  lemma AnswerIsTheEnd(ks: Keys, s: State, w: C.WaiterId)
    requires Inv(ks, s) && w in s.calls.waiters && s.calls.waiters[w].phase.Done?
    ensures s.calls.waiters[w].phase.result == Aborted <==> EndedAborted(s, s.calls.waiters[w].entry)
  {
  }

  /**
   A caller whose signal never fires and who joins a flight not aborted by then is answered with an
   abort exactly if the provider's call of that flight was canceled from within, not by any caller.
   */
  lemma AbortedFromWithin(
    ks: Keys, before: seq<Step>, w: C.WaiterId, search: Search, id: C.EntryId, steps: seq<Step>)
    requires KeysApart(ks) && IsRun(ks, EMPTY, before)
    requires var s := After(ks, EMPTY, before);
             && Enabled(ks, s, Join(w, search, false, id)) && !C.AbortedFlight(s.calls, ks.plain(search))
             && IsRun(ks, Next(ks, s, Join(w, search, false, id)), steps)
    requires Abort(w) !in steps
    ensures var s := Next(ks, After(ks, EMPTY, before), Join(w, search, false, id));
            var t := After(ks, s, steps);
            && w in t.calls.waiters
            && var e := t.calls.waiters[w].entry;
               t.calls.waiters[w].phase.Done? ==>
                 (t.calls.waiters[w].phase.result == Aborted <==>
                    SelfCanceled(ks, EMPTY, before, e) || SelfCanceled(ks, s, steps, e))
  {
    var r, join := After(ks, EMPTY, before), Join(w, search, false, id);
    var s := Next(ks, r, join);
    var t := After(ks, s, steps);
    RunKeeps(ks, EMPTY, before);
    StepKeeps(ks, r, join);
    RunKeeps(ks, s, steps);
    CallsRun(ks, s, steps);
    C.WorkContinuesExactly(r.calls, w, ks.plain(search), id, Calls(ks, s, steps));
    var e := t.calls.waiters[w].entry;
    AbortTraced(ks, EMPTY, before, e);
    AbortTrace(ks, r, join, e);
    AbortTraced(ks, s, steps, e);
    if t.calls.waiters[w].phase.Done? {
      AnswerIsTheEnd(ks, t, w);
    }
  }

  // ---------- the status a caller reports ----------

  function ReportedStatus(s: State, w: C.WaiterId): Option<Status> {
    if w in s.hits then Some(Hit)
    else if w in s.calls.waiters && s.calls.waiters[w].phase.Done? && s.calls.waiters[w].phase.result.Articles? then
      var status := s.calls.waiters[w].phase.result.status;
      Some(if s.calls.waiters[w].joined && status == Miss then Coalesced else status)
    else None
  }

  /**
   What a caller at rest reports: stale for the fallback, coalesced for a shared entry, and for the
   provider's list a miss if the caller started the flight and coalesced if it joined.
   */
  lemma ReportsTheAnswer(ks: Keys, steps: seq<Step>, e: C.EntryId, w: C.WaiterId)
    requires KeysApart(ks) && IsRun(ks, EMPTY, steps)
    requires var t := After(ks, EMPTY, steps);
             && w in t.calls.waiters && t.calls.waiters[w].entry == e && Quiescent(ks, t, e, w)
             && !t.calls.waiters[w].phase.Canceled?
    ensures Answer(ks, EMPTY, steps, e).Some?
    ensures var t := After(ks, EMPTY, steps);
            ReportedStatus(t, w) ==
            match Answer(ks, EMPTY, steps, e).value
            case Articles(_, Miss) => Some(if t.calls.waiters[w].joined then Coalesced else Miss)
            case Articles(_, status) => Some(status)
            case _ => None
  {
    RunKeeps(ks, EMPTY, steps);
    EveryCallerGetsTheAnswer(ks, steps, e, w);
  }

  /** A caller that finds the fresh entry reports a hit with its list, and never becomes a waiter. */
  lemma HitReported(ks: Keys, s: State, steps: seq<Step>, w: C.WaiterId, search: Search)
    requires Inv(ks, s) && Enabled(ks, s, Find(w, search)) && IsRun(ks, Next(ks, s, Find(w, search)), steps)
    ensures var t := After(ks, Next(ks, s, Find(w, search)), steps);
            && ReportedStatus(t, w) == Some(Hit)
            && w in t.hits && s.shared.cache[ks.plain(search)] == List(t.hits[w])
  {
    HitStays(ks, Next(ks, s, Find(w, search)), steps, w);
  }

  lemma {:induction false} HitStays(ks: Keys, s: State, steps: seq<Step>, w: C.WaiterId)
    requires IsRun(ks, s, steps) && w in s.hits
    ensures w in After(ks, s, steps).hits && After(ks, s, steps).hits[w] == s.hits[w]
    decreases |steps|
  {
    if steps != [] {
      HitStays(ks, Next(ks, s, steps[0]), steps[1..], w);
    }
  }

  /** At most one caller of a flight reports a miss: the one that started it. */
  lemma OneMissPerFlight(ks: Keys, s: State, v: C.WaiterId, w: C.WaiterId)
    requires Inv(ks, s) && ReportedStatus(s, v) == ReportedStatus(s, w) == Some(Miss)
    requires v in s.calls.waiters && w in s.calls.waiters && s.calls.waiters[v].entry == s.calls.waiters[w].entry
    ensures v == w
  {
  }
}
