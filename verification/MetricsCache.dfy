/** The metrics cache: one scan per catalog, one round at a time, and what an entry remembers. */
module MetricsCache {
  import opened Aggregation
  import opened Runs
  import opened Text
  import opened Wrappers

  type Name = string

  datatype Result = Scanned(stats: CatalogStats) | ScanFailed(error: string)

  /** A catalog's numbers, when they were read, and why the last scan failed. */
  datatype Entry = Entry(stats: CatalogStats, updated: nat, error: Option<string>)

  function Stored(cache: map<Name, Entry>, name: Name, result: Result, now: nat): map<Name, Entry> {
    match result
    case Scanned(stats) => cache[name := Entry(stats, now, None)]
    case ScanFailed(e) =>
      if name in cache then cache[name := cache[name].(error := Some(e))]
      else cache[name := Entry(Empty(name), now, Some(e))]
  }

  class Cache {
    var inFlight: set<Name>
    var entries: map<Name, Entry>

    constructor ()
      ensures inFlight == {} && entries == map[]
    {
      inFlight, entries := {}, map[];
    }

    /** A catalog has one slot for its scans; this asks for it. */
    method Claim(name: Name) returns (ok: bool)
      modifies this
      ensures ok <==> name !in old(inFlight)
      ensures inFlight == old(inFlight) + {name} && entries == old(entries)
    {
      ok := name !in inFlight;
      inFlight := inFlight + {name};
    }

    method Release(name: Name)
      modifies this
      ensures inFlight == old(inFlight) - {name} && entries == old(entries)
    {
      inFlight := inFlight - {name};
    }

    /** What a scan found takes the place of the entry; why it found nothing is noted beside what is there. */
    method Store(name: Name, result: Result, now: nat)
      modifies this
      ensures entries == Stored(old(entries), name, result, now) && inFlight == old(inFlight)
    {
      match result {
        case Scanned(stats) =>
          entries := entries[name := Entry(stats, now, None)];
        case ScanFailed(e) =>
          if name in entries {
            entries := entries[name := entries[name].(error := Some(e))];
          } else {
            entries := entries[name := Entry(Empty(name), now, Some(e))];
          }
      }
    }
  }

  // ----- an entry as a function of the scans behind it -----

  /** A completed scan and when its result was stored. */
  datatype Past = Past(result: Result, at: nat)

  type History = seq<Past>

  /** The last good scan at or before the given length. */
  function LastGood(h: History): Option<nat> {
    if h == [] then None
    else if h[|h| - 1].result.Scanned? then Some(|h| - 1)
    else LastGood(h[..|h| - 1])
  }

  lemma {:induction false} LastGoodIsLast(h: History)
    ensures match LastGood(h)
      case Some(i) => i < |h| && h[i].result.Scanned? && forall k :: i < k < |h| ==> h[k].result.ScanFailed?
      case None => forall k :: 0 <= k < |h| ==> h[k].result.ScanFailed?
  {
    if h != [] && h[|h| - 1].result.ScanFailed? {
      LastGoodIsLast(h[..|h| - 1]);
    }
  }

  /** The numbers and time of the last good scan, or zeros with the time of the first failure; the error
      of the very last one. */
  predicate Remembers(name: Name, e: Entry, h: History) {
    && h != []
    && (match LastGood(h)
        case Some(i) => i < |h| && h[i].result.Scanned? && e.stats == h[i].result.stats && e.updated == h[i].at
        case None => e.stats == Empty(name) && e.updated == h[0].at)
    && e.error == (match h[|h| - 1].result case Scanned(_) => None case ScanFailed(x) => Some(x))
  }

  lemma StoreRemembers(cache: map<Name, Entry>, name: Name, h: History, result: Result, now: nat)
    requires if name in cache then Remembers(name, cache[name], h) else h == []
    ensures name in Stored(cache, name, result, now)
    ensures Remembers(name, Stored(cache, name, result, now)[name], h + [Past(result, now)])
  {
    var g := h + [Past(result, now)];
    assert g[..|g| - 1] == h;
    LastGoodIsLast(h);
  }

  // ----- scans and rounds, step by step -----

  datatype Phase = Scanning | Storing(result: Result) | Releasing

  /** A scan under way: its catalog, the round that started it if one did, and how far it is. */
  datatype Scan = Scan(name: Name, round: Option<nat>, phase: Phase)

  /** A round under way: it is about to try the lock, or it holds it and asks for the warehouse list, or it
      holds it and has catalogs left to reach. */
  datatype Round = Trying | Listing | Running(todo: seq<Name>)

  const REFRESH_CONCURRENCY := 2

  /** `lock`: the round that holds the round lock. */
  datatype State = State(
    now: nat,
    inFlight: set<Name>,
    cache: map<Name, Entry>,
    scans: map<nat, Scan>,
    rounds: map<nat, Round>,
    lock: Option<nat>,
    history: map<Name, History>)

  const INITIAL := State(0, {}, map[], map[], map[], None, map[])

  /** Any number of rounds may begin; `TryLock` ends one whose lock is taken. `ListFails`: the warehouse list
      could not be read, so the round ends at once. `ListAnswers`: its names, without the engine's own
      catalogs. */
  datatype Step =
    | Tick(d: nat)
    | Background(scan: nat, name: Name)
    | BeginRound(r: nat)
    | TryLock(r: nat)
    | ListFails(r: nat)
    | ListAnswers(r: nat, names: seq<Name>)
    | Reach(r: nat, scan: nat, name: Name)
    | Finish(scan: nat, result: Result)
    | Store(scan: nat)
    | Release(scan: nat)
    | EndRound(r: nat)

  function ScansOf(s: State, r: nat): set<nat> {
    set k | k in s.scans && s.scans[k].round == Some(r)
  }

  predicate Enabled(s: State, step: Step) {
    match step
    case Tick(_) => true
    case Background(k, _) => k !in s.scans
    case BeginRound(r) => r !in s.rounds
    case TryLock(r) => r in s.rounds && s.rounds[r].Trying?
    case ListFails(r) => r in s.rounds && s.rounds[r].Listing?
    case ListAnswers(r, _) => r in s.rounds && s.rounds[r].Listing?
    case Reach(r, k, name) =>
      && k !in s.scans && r in s.rounds && s.rounds[r].Running? && s.rounds[r].todo != [] && s.rounds[r].todo[0] == name
      && |ScansOf(s, r)| < REFRESH_CONCURRENCY
    case Finish(k, _) => k in s.scans && s.scans[k].phase.Scanning?
    case Store(k) => k in s.scans && s.scans[k].phase.Storing?
    case Release(k) => k in s.scans && s.scans[k].phase.Releasing?
    case EndRound(r) => r in s.rounds && s.rounds[r].Running? && s.rounds[r].todo == [] && ScansOf(s, r) == {}
  }

  /** Claim the catalog; when another scan holds it, nothing is started. */
  function Start(s: State, k: nat, name: Name, round: Option<nat>): State {
    if name in s.inFlight then s
    else s.(inFlight := s.inFlight + {name}, scans := s.scans[k := Scan(name, round, Scanning)])
  }

  function HistoryOf(s: State, name: Name): History {
    if name in s.history then s.history[name] else []
  }

  function WithRound(s: State, r: nat, round: Round): State {
    s.(rounds := s.rounds[r := round])
  }

  /** The round is over: its lock is free again. */
  function EndedRound(s: State, r: nat): State {
    s.(rounds := s.rounds - {r}, lock := None)
  }

  function Do(s: State, step: Step): State
    requires Enabled(s, step)
  {
    match step
    case Tick(d) => s.(now := s.now + d)
    case Background(k, name) => Start(s, k, name, None)
    case BeginRound(r) => WithRound(s, r, Trying)
    case TryLock(r) =>
      if s.lock.Some? then s.(rounds := s.rounds - {r}) else WithRound(s, r, Listing).(lock := Some(r))
    case ListFails(r) => EndedRound(s, r)
    case ListAnswers(r, names) => WithRound(s, r, Running(names))
    case Reach(r, k, name) => Start(WithRound(s, r, Running(s.rounds[r].todo[1..])), k, name, Some(r))
    case Finish(k, result) => s.(scans := s.scans[k := s.scans[k].(phase := Storing(result))])
    case Store(k) =>
      var x := s.scans[k];
      s.(cache := Stored(s.cache, x.name, x.phase.result, s.now),
         history := s.history[x.name := HistoryOf(s, x.name) + [Past(x.phase.result, s.now)]],
         scans := s.scans[k := x.(phase := Releasing)])
    case Release(k) => s.(inFlight := s.inFlight - {s.scans[k].name}, scans := s.scans - {k})
    case EndRound(r) => EndedRound(s, r)
  }

  // ----- the invariant -----

  /** A round that has got past the lock. */
  predicate Active(s: State, r: nat) {
    r in s.rounds && !s.rounds[r].Trying?
  }

  predicate ScanOk(s: State, x: Scan) {
    x.name in s.inFlight && (x.round.Some? ==> x.round.value in s.rounds && s.rounds[x.round.value].Running?)
  }

  /** The slots taken are exactly those of the running scans, one each. */
  ghost predicate SlotsOk(s: State) {
    && (forall k :: k in s.scans ==> ScanOk(s, s.scans[k]))
    && (forall j, k :: j in s.scans && k in s.scans && s.scans[j].name == s.scans[k].name ==> j == k)
    && (forall n :: n in s.inFlight ==> exists k :: k in s.scans && s.scans[k].name == n)
  }

  ghost predicate RoundsOk(s: State) {
    && (forall r: nat :: Active(s, r) <==> s.lock == Some(r))
    && (forall r: nat :: |ScansOf(s, r)| <= REFRESH_CONCURRENCY)
  }

  ghost predicate CacheOk(s: State) {
    && s.cache.Keys == s.history.Keys
    && (forall n :: n in s.cache ==> Remembers(n, s.cache[n], s.history[n]))
  }

  ghost predicate Inv(s: State) {
    SlotsOk(s) && RoundsOk(s) && CacheOk(s)
  }

  lemma ScansOfNew(s: State, k: nat, x: Scan, r: nat)
    requires k !in s.scans
    ensures ScansOf(s.(scans := s.scans[k := x]), r) == if x.round == Some(r) then ScansOf(s, r) + {k} else ScansOf(s, r)
  {
  }

  lemma StartKeeps(s: State, k: nat, name: Name, round: Option<nat>)
    requires Inv(s) && k !in s.scans
    requires round.Some? ==> round.value in s.rounds && s.rounds[round.value].Running?
    requires round.Some? ==> |ScansOf(s, round.value)| < REFRESH_CONCURRENCY
    ensures Inv(Start(s, k, name, round))
  {
    var t := Start(s, k, name, round);
    if name !in s.inFlight {
      forall n | n in t.inFlight ensures exists j :: j in t.scans && t.scans[j].name == n {
        if n == name {
          assert t.scans[k].name == n;
        } else {
          var j :| j in s.scans && s.scans[j].name == n;
          assert t.scans[j].name == n;
        }
      }
      forall j | j in s.scans ensures t.scans[j] == s.scans[j] && s.scans[j].name != name {
        assert ScanOk(s, s.scans[j]);
      }
      forall r: nat ensures |ScansOf(t, r)| <= REFRESH_CONCURRENCY {
        ScansOfNew(s, k, t.scans[k], r);
        assert ScansOf(t, r) == ScansOf(s.(scans := t.scans), r);
      }
      forall r: nat ensures Active(t, r) <==> t.lock == Some(r) {
        assert Active(s, r) <==> Active(t, r);
      }
    }
  }

  /** A scan moves on without changing its catalog or its round. */
  lemma PhaseKeepsSlots(s: State, t: State, k: nat, phase: Phase)
    requires SlotsOk(s) && k in s.scans
    requires t == s.(scans := s.scans[k := s.scans[k].(phase := phase)], cache := t.cache, history := t.history)
    ensures SlotsOk(t)
  {
    forall n | n in t.inFlight ensures exists j :: j in t.scans && t.scans[j].name == n {
      var j :| j in s.scans && s.scans[j].name == n;
      assert t.scans[j].name == n;
    }
    forall j | j in t.scans ensures ScanOk(t, t.scans[j]) {
      assert ScanOk(s, s.scans[j]);
    }
  }

  lemma PhaseKeepsRounds(s: State, t: State, k: nat, phase: Phase)
    requires RoundsOk(s) && k in s.scans
    requires t == s.(scans := s.scans[k := s.scans[k].(phase := phase)], cache := t.cache, history := t.history)
    ensures RoundsOk(t)
  {
    forall r: nat ensures |ScansOf(t, r)| <= REFRESH_CONCURRENCY {
      assert ScansOf(t, r) == ScansOf(s, r);
    }
    forall r: nat ensures Active(t, r) <==> t.lock == Some(r) {
      assert Active(s, r) <==> Active(t, r);
    }
  }

  lemma PhaseKeeps(s: State, t: State, k: nat, phase: Phase)
    requires Inv(s) && k in s.scans && CacheOk(t)
    requires t == s.(scans := s.scans[k := s.scans[k].(phase := phase)], cache := t.cache, history := t.history)
    ensures Inv(t)
  {
    hide SlotsOk, RoundsOk, CacheOk;
    PhaseKeepsSlots(s, t, k, phase);
    PhaseKeepsRounds(s, t, k, phase);
  }

  lemma StoredElsewhere(cache: map<Name, Entry>, name: Name, result: Result, now: nat)
    ensures var after := Stored(cache, name, result, now);
      && after.Keys == cache.Keys + {name}
      && forall n :: n in cache && n != name ==> after[n] == cache[n]
  {
  }

  lemma StoreKeepsCache(s: State, t: State, name: Name, result: Result)
    requires CacheOk(s) && t.cache == Stored(s.cache, name, result, s.now)
    requires t.history == s.history[name := HistoryOf(s, name) + [Past(result, s.now)]]
    ensures CacheOk(t)
  {
    StoreRemembers(s.cache, name, HistoryOf(s, name), result, s.now);
    StoredElsewhere(s.cache, name, result, s.now);
    hide Stored, Remembers;
  }

  lemma StoreKeeps(s: State, k: nat)
    requires Inv(s) && Enabled(s, Store(k))
    ensures Inv(Do(s, Store(k)))
  {
    hide SlotsOk, RoundsOk, CacheOk, Stored;
    var t, x := Do(s, Store(k)), s.scans[k];
    StoreKeepsCache(s, t, x.name, x.phase.result);
    PhaseKeeps(s, t, k, Releasing);
  }

  lemma ReleaseKeeps(s: State, k: nat)
    requires Inv(s) && Enabled(s, Release(k))
    ensures Inv(Do(s, Release(k)))
  {
    hide Remembers;
    var t, name := Do(s, Release(k)), s.scans[k].name;
    forall j | j in t.scans ensures ScanOk(t, t.scans[j]) {
      assert ScanOk(s, s.scans[j]);
    }
    forall n | n in t.inFlight ensures exists j :: j in t.scans && t.scans[j].name == n {
      var j :| j in s.scans && s.scans[j].name == n;
      assert t.scans[j].name == n;
    }
    forall r: nat ensures |ScansOf(t, r)| <= REFRESH_CONCURRENCY {
      assert ScansOf(t, r) == ScansOf(s, r) - {k};
    }
    forall r: nat ensures Active(t, r) <==> t.lock == Some(r) {
      assert Active(s, r) <==> Active(t, r);
    }
  }

  /** A step of the rounds and their lock alone; a round that runs scans goes on running. */
  lemma RoundKeeps(s: State, t: State)
    requires Inv(s) && t == s.(now := t.now, rounds := t.rounds, lock := t.lock)
    requires forall r: nat :: Active(t, r) <==> t.lock == Some(r)
    requires forall k :: k in s.scans && s.scans[k].round.Some? ==>
               s.scans[k].round.value in t.rounds && t.rounds[s.scans[k].round.value].Running?
    ensures Inv(t)
  {
    hide Remembers;
    forall j | j in t.scans ensures ScanOk(t, t.scans[j]) {
      assert ScanOk(s, s.scans[j]);
    }
    forall n | n in t.inFlight ensures exists j :: j in t.scans && t.scans[j].name == n {
      var j :| j in s.scans && s.scans[j].name == n;
      assert t.scans[j].name == n;
    }
    forall r: nat ensures |ScansOf(t, r)| <= REFRESH_CONCURRENCY {
      assert ScansOf(t, r) == ScansOf(s, r);
    }
  }

  /** One round's own entry changes: it takes the lock, keeps it or ends. */
  lemma OneRoundKeeps(s: State, t: State, r: nat)
    requires Inv(s) && t == s.(rounds := t.rounds, lock := t.lock)
    requires forall q :: q != r ==> (q in t.rounds <==> q in s.rounds) && (q in s.rounds ==> t.rounds[q] == s.rounds[q])
    requires s.lock.None? || s.lock == Some(r) || t.lock == s.lock
    requires if Active(t, r) then t.lock == Some(r) else if s.lock == Some(r) then t.lock == None else t.lock == s.lock
    requires ScansOf(s, r) == {} || (r in t.rounds && t.rounds[r].Running?)
    ensures Inv(t)
  {
    forall q: nat ensures Active(t, q) <==> t.lock == Some(q) {
      assert Active(s, q) <==> s.lock == Some(q);
      assert q != r ==> (Active(t, q) <==> Active(s, q));
    }
    forall k | k in s.scans && s.scans[k].round.Some?
      ensures s.scans[k].round.value in t.rounds && t.rounds[s.scans[k].round.value].Running?
    {
      assert ScanOk(s, s.scans[k]);
      if s.scans[k].round == Some(r) {
        assert k in ScansOf(s, r);
      }
    }
    RoundKeeps(s, t);
  }

  lemma NoScansBefore(s: State, r: nat)
    requires Inv(s) && (r in s.rounds ==> !s.rounds[r].Running?)
    ensures ScansOf(s, r) == {}
  {
    forall k | k in s.scans ensures s.scans[k].round != Some(r) {
      assert ScanOk(s, s.scans[k]);
    }
  }

  lemma RoundStepKeeps(s: State, step: Step, r: nat)
    requires Inv(s) && Enabled(s, step)
    requires step == BeginRound(r) || step == TryLock(r) || step == ListFails(r) || step == EndRound(r)
          || (step.ListAnswers? && step.r == r)
    ensures Inv(Do(s, step))
  {
    hide SlotsOk, CacheOk, ScansOf;
    assert Active(s, r) <==> s.lock == Some(r);
    if !step.EndRound? {
      NoScansBefore(s, r);
    }
    OneRoundKeeps(s, Do(s, step), r);
  }

  lemma ReachKeeps(s: State, r: nat, k: nat, name: Name)
    requires Inv(s) && Enabled(s, Reach(r, k, name))
    ensures Inv(Do(s, Reach(r, k, name)))
  {
    hide SlotsOk, CacheOk;
    var u := WithRound(s, r, Running(s.rounds[r].todo[1..]));
    assert Active(s, r) <==> s.lock == Some(r);
    OneRoundKeeps(s, u, r);
    assert ScansOf(u, r) == ScansOf(s, r);
    StartKeeps(u, k, name, Some(r));
  }

  lemma TickKeeps(s: State, d: nat)
    requires Inv(s)
    ensures Inv(Do(s, Tick(d)))
  {
    var t := Do(s, Tick(d));
    forall r: nat ensures Active(t, r) <==> t.lock == Some(r) {
      assert Active(s, r) <==> Active(t, r);
    }
    forall k | k in s.scans ensures ScanOk(t, s.scans[k]) {
      assert ScanOk(s, s.scans[k]);
    }
    RoundKeeps(s, t);
  }

  /** Every step of every interleaving keeps the invariant. */
  lemma StepKeeps(s: State, step: Step)
    requires Inv(s) && Enabled(s, step)
    ensures Inv(Do(s, step))
  {
    hide Inv;
    match step
    case Tick(d) => TickKeeps(s, d);
    case Background(k, name) => StartKeeps(s, k, name, None);
    case BeginRound(r) => RoundStepKeeps(s, step, r);
    case TryLock(r) => RoundStepKeeps(s, step, r);
    case ListFails(r) => RoundStepKeeps(s, step, r);
    case ListAnswers(r, _) => RoundStepKeeps(s, step, r);
    case Reach(r, k, name) => ReachKeeps(s, r, k, name);
    case Finish(k, result) => FinishKeeps(s, k, result);
    case Store(k) => StoreKeeps(s, k);
    case Release(k) => ReleaseKeeps(s, k);
    case EndRound(r) => RoundStepKeeps(s, step, r);
  }

  lemma FinishKeeps(s: State, k: nat, result: Result)
    requires Inv(s) && Enabled(s, Finish(k, result))
    ensures Inv(Do(s, Finish(k, result)))
  {
    PhaseKeeps(s, Do(s, Finish(k, result)), k, Storing(result));
  }

  // ----- whole runs -----

  ghost function Next(s: State, step: Step): Option<State> {
    if Enabled(s, step) then Some(Do(s, step)) else None
  }

  ghost predicate Reachable(s: State) {
    exists steps :: Run(Next, INITIAL, steps) == Some(s)
  }

  lemma EveryStepKeeps()
    ensures Kept(Next, Inv)
  {
    forall s, step | Inv(s) && Next(s, step).Some? ensures Inv(Next(s, step).value) {
      StepKeeps(s, step);
    }
  }

  lemma ReachableIsSound(s: State)
    requires Reachable(s)
    ensures Inv(s)
  {
    var steps :| Run(Next, INITIAL, steps) == Some(s);
    forall r: nat ensures ScansOf(INITIAL, r) == {} {
    }
    EveryStepKeeps();
    RunKeeps(Next, Inv, INITIAL, steps);
  }

  lemma {:induction false} CacheGrows(s: State, steps: seq<Step>)
    requires Run(Next, s, steps).Some?
    ensures s.cache.Keys <= Run(Next, s, steps).value.cache.Keys
    decreases |steps|
  {
    if steps != [] {
      CacheGrows(Next(s, steps[0]).value, steps[1..]);
    }
  }

  /** What the cache shows is a function of each catalog's completed scans, and every catalog with one is shown. */
  lemma CacheRefinesHistory(s: State, n: Name)
    requires Reachable(s)
    ensures n in s.cache <==> n in s.history
    ensures n in s.cache ==> Remembers(n, s.cache[n], s.history[n])
  {
    ReachableIsSound(s);
  }

  /** The history leaves an entry no choice. */
  lemma RemembersOneEntry(n: Name, a: Entry, b: Entry, h: History)
    requires Remembers(n, a, h) && Remembers(n, b, h)
    ensures a == b
  {
  }

  /** Once a catalog is shown it is shown in every later state. */
  lemma EntriesStay(s: State, steps: seq<Step>, n: Name)
    requires Run(Next, s, steps).Some? && n in s.cache
    ensures n in Run(Next, s, steps).value.cache
  {
    CacheGrows(s, steps);
  }

  /** However many scans have failed since, and whatever the next failure says: the numbers shown and their
      time are those of the last good scan in the catalog's history. */
  lemma FailureKeepsNumbers(s: State, k: nat)
    requires Reachable(s) && Enabled(s, Store(k)) && s.scans[k].phase.result.ScanFailed?
    ensures var n, t := s.scans[k].name, Do(s, Store(k));
      && n in t.cache && t.cache[n].error == Some(s.scans[k].phase.result.error)
      && match LastGood(HistoryOf(s, n))
         case Some(i) =>
           && i < |HistoryOf(s, n)| && HistoryOf(s, n)[i].result.Scanned?
           && t.cache[n].stats == HistoryOf(s, n)[i].result.stats && t.cache[n].updated == HistoryOf(s, n)[i].at
         case None =>
           && t.cache[n].stats == Empty(n)
           && t.cache[n].updated == if HistoryOf(s, n) == [] then s.now else HistoryOf(s, n)[0].at
  {
    ReachableIsSound(s);
    LastGoodIsLast(HistoryOf(s, s.scans[k].name));
    assert s.scans[k].name in s.cache ==> Remembers(s.scans[k].name, s.cache[s.scans[k].name], s.history[s.scans[k].name]);
  }

  /** Two scans under way are never of the same catalog. */
  lemma OneScanPerCatalog(s: State, j: nat, k: nat)
    requires Reachable(s) && j in s.scans && k in s.scans && s.scans[j].name == s.scans[k].name
    ensures j == k
  {
    ReachableIsSound(s);
  }

  /** The slots that are taken are those of the scans under way, in every state: none is leaked, none missing. */
  lemma InFlightIsRunning(s: State)
    requires Reachable(s)
    ensures s.inFlight == set k | k in s.scans :: s.scans[k].name
  {
    ReachableIsSound(s);
    forall k | k in s.scans ensures s.scans[k].name in s.inFlight {
      assert ScanOk(s, s.scans[k]);
    }
  }

  /** However many rounds begin, one at a time gets past the lock. */
  lemma OneRoundAtATime(s: State, q: nat, r: nat)
    requires Reachable(s) && Active(s, q) && Active(s, r)
    ensures q == r
  {
    ReachableIsSound(s);
  }

  /** And all scans that rounds have started and not ended are of that one round, at most two of them. */
  lemma RoundScansAreBounded(s: State)
    requires Reachable(s)
    ensures |set k | k in s.scans && s.scans[k].round.Some?| <= REFRESH_CONCURRENCY
    ensures forall k :: k in s.scans && s.scans[k].round.Some? ==> s.scans[k].round == s.lock
  {
    ReachableIsSound(s);
    var all := set k | k in s.scans && s.scans[k].round.Some?;
    forall k | k in all ensures s.scans[k].round == s.lock {
      assert ScanOk(s, s.scans[k]);
      assert Active(s, s.scans[k].round.value);
    }
    if k :| k in all {
      assert all == ScansOf(s, s.lock.value);
    }
  }

  // ----- every run, step by step: where the history comes from -----

  /** The catalog that a scan was last started for. */
  ghost function StartedFor(done: seq<Step>, k: nat): Option<Name> {
    if done == [] then None
    else
      var last := done[|done| - 1];
      if (last.Background? || last.Reach?) && last.scan == k then Some(last.name) else StartedFor(done[..|done| - 1], k)
  }

  /** What a scan last found. */
  ghost function FoundBy(done: seq<Step>, k: nat): Option<Result> {
    if done == [] then None
    else
      var last := done[|done| - 1];
      if last.Finish? && last.scan == k then Some(last.result) else FoundBy(done[..|done| - 1], k)
  }

  ghost function Elapsed(done: seq<Step>): nat {
    if done == [] then 0
    else Elapsed(done[..|done| - 1]) + (if done[|done| - 1].Tick? then done[|done| - 1].d else 0)
  }

  /** What the stored scans of a catalog had found, in the order in which they were stored, and when. */
  ghost function ResultsOf(done: seq<Step>, n: Name): History {
    if done == [] then []
    else
      var last, front := done[|done| - 1], done[..|done| - 1];
      if last.Store? && StartedFor(front, last.scan) == Some(n) && FoundBy(front, last.scan).Some? then
        ResultsOf(front, n) + [Past(FoundBy(front, last.scan).value, Elapsed(front))]
      else ResultsOf(front, n)
  }

  ghost predicate ScanTraced(done: seq<Step>, k: nat, x: Scan) {
    StartedFor(done, k) == Some(x.name) && (x.phase.Storing? ==> FoundBy(done, k) == Some(x.phase.result))
  }

  ghost predicate TraceOk(s: State, done: seq<Step>) {
    && s.now == Elapsed(done)
    && (forall k :: k in s.scans ==> ScanTraced(done, k, s.scans[k]))
    && (forall n :: HistoryOf(s, n) == ResultsOf(done, n))
  }

  lemma ScanStepTraced(s: State, done: seq<Step>, a: Step, k: nat)
    requires TraceOk(s, done) && Enabled(s, a) && k in Do(s, a).scans
    ensures ScanTraced(done + [a], k, Do(s, a).scans[k])
  {
    hide ResultsOf, Elapsed, Stored;
    assert (done + [a])[..|done + [a]| - 1] == done;
    assert k in s.scans ==> ScanTraced(done, k, s.scans[k]);
  }

  lemma HistoryStepTraced(s: State, done: seq<Step>, a: Step, n: Name)
    requires TraceOk(s, done) && Enabled(s, a)
    ensures HistoryOf(Do(s, a), n) == ResultsOf(done + [a], n)
  {
    hide StartedFor, FoundBy, Elapsed, Stored;
    assert (done + [a])[..|done + [a]| - 1] == done;
    assert HistoryOf(s, n) == ResultsOf(done, n);
    if a.Store? {
      assert ScanTraced(done, a.scan, s.scans[a.scan]);
    }
  }

  lemma ClockStepTraced(s: State, done: seq<Step>, a: Step)
    requires s.now == Elapsed(done) && Enabled(s, a)
    ensures Do(s, a).now == Elapsed(done + [a])
  {
    hide Stored;
    assert (done + [a])[..|done + [a]| - 1] == done;
  }

  lemma StepTraced(s: State, done: seq<Step>, a: Step)
    requires TraceOk(s, done) && Enabled(s, a)
    ensures TraceOk(Do(s, a), done + [a])
  {
    hide Do, Enabled, ScanTraced, HistoryOf, ResultsOf, Elapsed;
    var t, more := Do(s, a), done + [a];
    ClockStepTraced(s, done, a);
    forall k | k in t.scans ensures ScanTraced(more, k, t.scans[k]) {
      ScanStepTraced(s, done, a, k);
    }
    forall n ensures HistoryOf(t, n) == ResultsOf(more, n) {
      HistoryStepTraced(s, done, a, n);
    }
  }

  lemma RunIsTraced(steps: seq<Step>)
    requires Run(Next, INITIAL, steps).Some?
    ensures TraceOk(Run(Next, INITIAL, steps).value, steps)
  {
    forall s, done, a | TraceOk(s, done) && Next(s, a).Some? ensures TraceOk(Next(s, a).value, done + [a]) {
      StepTraced(s, done, a);
    }
    RunTraces(Next, TraceOk, INITIAL, [], steps);
    assert [] + steps == steps;
  }

  /** So in every run the cache shows a catalog exactly when a scan of it was stored, and shows what the stored
      scans had found. */
  lemma CacheShowsWhatWasFound(steps: seq<Step>, n: Name)
    requires Run(Next, INITIAL, steps).Some?
    ensures var s := Run(Next, INITIAL, steps).value;
      && (n in s.cache <==> ResultsOf(steps, n) != [])
      && (n in s.cache ==> Remembers(n, s.cache[n], ResultsOf(steps, n)))
  {
    RunIsTraced(steps);
    var s := Run(Next, INITIAL, steps).value;
    CacheRefinesHistory(s, n);
    assert HistoryOf(s, n) == ResultsOf(steps, n);
  }

  // ----- what a scan leads to -----

  /** The entry that a stored result leaves in place of the one before. */
  function EntryAfter(before: Option<Entry>, name: Name, result: Result, now: nat): Entry {
    match result
    case Scanned(stats) => Entry(stats, now, None)
    case ScanFailed(e) =>
      match before
      case Some(had) => Entry(had.stats, had.updated, Some(e))
      case None => Entry(CatalogStats(name, 0, 0, 0, 0, None, false), now, Some(e))
  }

  function EntryOf(cache: map<Name, Entry>, n: Name): Option<Entry> {
    if n in cache then Some(cache[n]) else None
  }

  /** Storing what a good scan found puts its numbers and the time in the place of the entry, and clears the
      error; no other entry changes. */
  lemma GoodScanIsShown(s: State, k: nat)
    requires Enabled(s, Store(k)) && s.scans[k].phase.result.Scanned?
    ensures Do(s, Store(k)).cache == s.cache[s.scans[k].name := Entry(s.scans[k].phase.result.stats, s.now, None)]
  {
  }

  function ScanSteps(k: nat, name: Name, result: Result): seq<Step> {
    [Background(k, name), Finish(k, result), Store(k), Release(k)]
  }

  /** A scan in the background of a catalog whose slot is free ends in its entry and leaves the slot free. */
  lemma ScanEndsInItsEntry(s: State, k: nat, name: Name, result: Result)
    requires k !in s.scans && name !in s.inFlight
    ensures Run(Next, s, ScanSteps(k, name, result)).Some?
    ensures var t := Run(Next, s, ScanSteps(k, name, result)).value;
      && t == s.(cache := t.cache, history := t.history)
      && t.cache == s.cache[name := EntryAfter(EntryOf(s.cache, name), name, result, s.now)]
  {
    var steps := ScanSteps(k, name, result);
    var s1 := Do(s, steps[0]);
    ScanGoesOn(s1, k, name, None, result);
    RunStep(Next, s, steps);
    assert steps[1..] == [Finish(k, result), Store(k), Release(k)];
    assert s1.inFlight - {name} == s.inFlight && s1.scans - {k} == s.scans;
  }

  lemma ScanGoesOn(s: State, k: nat, name: Name, round: Option<nat>, result: Result)
    requires k in s.scans && s.scans[k] == Scan(name, round, Scanning)
    ensures Run(Next, s, [Finish(k, result), Store(k), Release(k)]).Some?
    ensures var t := Run(Next, s, [Finish(k, result), Store(k), Release(k)]).value;
      && t == s.(inFlight := s.inFlight - {name}, scans := s.scans - {k}, cache := t.cache, history := t.history)
      && t.cache == s.cache[name := EntryAfter(EntryOf(s.cache, name), name, result, s.now)]
  {
    var steps := [Finish(k, result), Store(k), Release(k)];
    var s1 := Do(s, steps[0]);
    var s2 := Do(s1, steps[1]);
    var s3 := Do(s2, steps[2]);
    RunStep(Next, s, steps);
    RunStep(Next, s1, steps[1..]);
    RunStep(Next, s2, steps[2..]);
    assert steps[3..] == [];
    assert s3.scans == s.scans - {k};
  }

  /** While a scan of the catalog is under way no other one is started. */
  lemma BusyCatalogIsLeftAlone(s: State, k: nat, name: Name)
    requires k !in s.scans && name in s.inFlight
    ensures Next(s, Background(k, name)) == Some(s)
  {
  }

  // ----- what a round leads to -----

  function ReachSteps(r: nat, k: nat, name: Name, result: Result): seq<Step> {
    [Reach(r, k, name), Finish(k, result), Store(k), Release(k)]
  }

  function ReachAll(r: nat, k: nat, names: seq<Name>, found: Name -> Result): seq<Step> {
    if names == [] then [] else ReachSteps(r, k, names[0], found(names[0])) + ReachAll(r, k, names[1..], found)
  }

  function RoundSteps(r: nat, k: nat, names: seq<Name>, found: Name -> Result): seq<Step> {
    [BeginRound(r), TryLock(r), ListAnswers(r, names)] + ReachAll(r, k, names, found) + [EndRound(r)]
  }

  lemma ReachRun(s: State, r: nat, k: nat, names: seq<Name>, result: Result)
    requires r in s.rounds && s.rounds[r] == Running(names) && names != [] && ScansOf(s, r) == {}
    requires k !in s.scans && names[0] !in s.inFlight
    ensures Run(Next, s, ReachSteps(r, k, names[0], result)).Some?
    ensures var t := Run(Next, s, ReachSteps(r, k, names[0], result)).value;
      && t == s.(rounds := s.rounds[r := Running(names[1..])], cache := t.cache, history := t.history)
      && t.cache == s.cache[names[0] := EntryAfter(EntryOf(s.cache, names[0]), names[0], result, s.now)]
  {
    var steps := ReachSteps(r, k, names[0], result);
    var s1 := Do(s, steps[0]);
    ScanGoesOn(s1, k, names[0], Some(r), result);
    RunStep(Next, s, steps);
    assert steps[1..] == [Finish(k, result), Store(k), Release(k)];
    assert s1.inFlight - {names[0]} == s.inFlight && s1.scans - {k} == s.scans;
  }

  /** A round scans two catalogs at once, and no third one until one of them is done. */
  lemma RoundScansTwoAtOnce(s: State, r: nat, j: nat, k: nat, names: seq<Name>)
    requires r in s.rounds && s.rounds[r] == Running(names) && |names| >= 2 && ScansOf(s, r) == {}
    requires j != k && j !in s.scans && k !in s.scans
    requires names[0] != names[1] && names[0] !in s.inFlight && names[1] !in s.inFlight
    ensures var run := Run(Next, s, [Reach(r, j, names[0]), Reach(r, k, names[1])]);
      && run.Some?
      && run.value.scans == s.scans[j := Scan(names[0], Some(r), Scanning)][k := Scan(names[1], Some(r), Scanning)]
      && forall i, n :: !Enabled(run.value, Reach(r, i, n))
  {
    var steps := [Reach(r, j, names[0]), Reach(r, k, names[1])];
    var s1 := Do(s, steps[0]);
    ScansOfNew(s, j, s1.scans[j], r);
    assert ScansOf(s1, r) == ScansOf(s.(scans := s1.scans), r) == {j};
    var s2 := Do(s1, steps[1]);
    ScansOfNew(s1, k, s2.scans[k], r);
    assert ScansOf(s2, r) == ScansOf(s1.(scans := s2.scans), r) == {j} + {k};
    assert |{j} + {k}| == 2;
    RunStep(Next, s, steps);
    RunStep(Next, s1, steps[1..]);
    assert steps[2..] == [];
  }

  /** The entry of a catalog that a round has reached. */
  ghost predicate Reached(before: map<Name, Entry>, after: map<Name, Entry>, n: Name, result: Result, now: nat) {
    && n in after
    && (result.Scanned? ==> after[n] == Entry(result.stats, now, None))
    && (result.ScanFailed? ==> after[n].error == Some(result.error))
    && (result.ScanFailed? && n in before ==> after[n].stats == before[n].stats && after[n].updated == before[n].updated)
    && (result.ScanFailed? && n !in before ==> after[n].stats == CatalogStats(n, 0, 0, 0, 0, None, false))
  }

  lemma {:induction false} ReachAllRun(s: State, r: nat, k: nat, names: seq<Name>, found: Name -> Result)
    requires r in s.rounds && s.rounds[r] == Running(names) && ScansOf(s, r) == {} && k !in s.scans
    requires Distinct(names) && forall n :: n in names ==> n !in s.inFlight
    ensures Run(Next, s, ReachAll(r, k, names, found)).Some?
    ensures var t := Run(Next, s, ReachAll(r, k, names, found)).value;
      && t == s.(rounds := s.rounds[r := Running([])], cache := t.cache, history := t.history)
      && (forall n :: n in names ==> Reached(s.cache, t.cache, n, found(n), s.now))
      && (forall n :: n !in names ==> EntryOf(t.cache, n) == EntryOf(s.cache, n))
    decreases |names|
  {
    if names != [] {
      var n, rest := names[0], names[1..];
      var first := ReachSteps(r, k, n, found(n));
      ReachRun(s, r, k, names, found(n));
      var u := Run(Next, s, first).value;
      assert ScansOf(u, r) == ScansOf(s, r);
      assert n !in rest;
      ReachAllRun(u, r, k, rest, found);
      RunConcat(Next, s, first, ReachAll(r, k, rest, found));
      var t := Run(Next, u, ReachAll(r, k, rest, found)).value;
      hide Run, Next, ScansOf;
      assert names == [n] + rest;
      assert EntryOf(t.cache, n) == EntryOf(u.cache, n);
      forall m | m in rest ensures Reached(s.cache, t.cache, m, found(m), s.now) {
        assert m != n;
        assert Reached(u.cache, t.cache, m, found(m), u.now);
      }
      assert u.rounds[r := Running([])] == s.rounds[r := Running([])];
    } else {
      assert s.rounds == s.rounds[r := Running([])];
    }
  }

  /** A round that finds the lock free and whose catalogs nobody else is scanning reaches every one of them: each
      shows the numbers its scan found, or why it found none; no other entry changes, and the lock is free again. */
  lemma RoundReachesEveryCatalog(s: State, r: nat, k: nat, names: seq<Name>, found: Name -> Result)
    requires s.lock.None? && r !in s.rounds && ScansOf(s, r) == {} && k !in s.scans
    requires Distinct(names) && forall n :: n in names ==> n !in s.inFlight
    ensures Run(Next, s, RoundSteps(r, k, names, found)).Some?
    ensures var t := Run(Next, s, RoundSteps(r, k, names, found)).value;
      && t == s.(cache := t.cache, history := t.history)
      && (forall n :: n in names ==> Reached(s.cache, t.cache, n, found(n), s.now))
      && (forall n :: n !in names ==> EntryOf(t.cache, n) == EntryOf(s.cache, n))
  {
    var begins, scans := [BeginRound(r), TryLock(r), ListAnswers(r, names)], ReachAll(r, k, names, found);
    RoundBegins(s, r, names);
    var s1 := Run(Next, s, begins).value;
    assert ScansOf(s1, r) == ScansOf(s, r);
    ReachAllRun(s1, r, k, names, found);
    var s2 := Run(Next, s1, scans).value;
    assert ScansOf(s2, r) == ScansOf(s, r);
    RoundEnds(s2, r);
    hide Run, Next, Reached, ReachAll;
    RunConcat(Next, s, begins, scans);
    RunConcat(Next, s, begins + scans, [EndRound(r)]);
    assert s2.rounds - {r} == s.rounds;
  }

  lemma RoundEnds(s: State, r: nat)
    requires r in s.rounds && s.rounds[r] == Running([]) && ScansOf(s, r) == {}
    ensures Run(Next, s, [EndRound(r)]) == Some(s.(rounds := s.rounds - {r}, lock := None))
  {
    RunStep(Next, s, [EndRound(r)]);
    assert [EndRound(r)][1..] == [];
  }

  lemma RoundBegins(s: State, r: nat, names: seq<Name>)
    requires s.lock.None? && r !in s.rounds
    ensures Run(Next, s, [BeginRound(r), TryLock(r), ListAnswers(r, names)])
         == Some(s.(rounds := s.rounds[r := Running(names)], lock := Some(r)))
  {
    var steps := [BeginRound(r), TryLock(r), ListAnswers(r, names)];
    var s1 := Do(s, steps[0]);
    var s2 := Do(s1, steps[1]);
    var s3 := Do(s2, steps[2]);
    RunStep(Next, s, steps);
    RunStep(Next, s1, steps[1..]);
    RunStep(Next, s2, steps[2..]);
    assert steps[3..] == [];
    assert s3.rounds == s.rounds[r := Running(names)];
  }
}
