/** The cached history queries as imperative code (internal/query/cached_repo.go): two rounds of
    lookups around a shared flight around one query.  `s` is the machine of module HistoryCache; each
    cache, flight or database call is one of its steps, and between any two of them other requests,
    other processes, the clock and the projector take any steps. */
module CachedRepository {
  import opened Market
  import opened ReadModel
  import opened HistoryCache
  import HistoryTheorems
  import Ordering

  ghost predicate Reachable(s: State) { exists t, acts :: UniqueIds(t) && Run(Init(t), acts, s) }

  lemma {:induction false} RunSnoc(s: State, acts: seq<Action>, t: State, a: Action)
    requires Run(s, acts, t) && Enabled(t, a)
    ensures Run(s, acts + [a], Do(t, a))
    decreases |acts|
  {
    if acts == [] {
      assert ([] + [a])[1..] == [];
    } else {
      assert (acts + [a])[1..] == acts[1..] + [a];
      RunSnoc(Do(s, acts[0]), acts[1..], t, a);
    }
  }

  lemma ReachableStep(s: State, a: Action)
    requires Reachable(s) && Enabled(s, a)
    ensures Reachable(Do(s, a))
  {
    var t, acts :| UniqueIds(t) && Run(Init(t), acts, s);
    RunSnoc(Init(t), acts, s, a);
  }

  /** The table's rows have had ids of their own all along. */
  ghost predicate Keyed(w: World) { |w.versions| > 0 && forall v :: 0 <= v < |w.versions| ==> UniqueIds(w.versions[v]) }

  lemma {:induction false} RunKeyed(s: State, acts: seq<Action>, t: State)
    requires Keyed(s.w) && Run(s, acts, t)
    ensures Keyed(t.w)
    decreases |acts|
  {
    if acts != [] {
      RunKeyed(Do(s, acts[0]), acts[1..], t);
    }
  }

  lemma ReachableKeyed(s: State)
    requires Reachable(s)
    ensures Keyed(s.w)
  {
    var t, acts :| UniqueIds(t) && Run(Init(t), acts, s);
    assert Keyed(Init(t).w);
    RunKeyed(Init(t), acts, s);
  }

  lemma ReachableFacts(s: State)
    requires Reachable(s)
    ensures Keyed(s.w)
    ensures forall f :: f in s.flights && s.flights[f].ask.One? ==> forall c :: c in s.flights[f].still ==> c == s.flights[f].ask.coin
    ensures forall id :: id in s.calls ==> id < |s.asked|
  {
    ReachableKeyed(s);
    var t, acts :| UniqueIds(t) && Run(Init(t), acts, s);
    HistoryTheorems.InitInv(t);
    HistoryTheorems.RunKeepsInv(Init(t), acts, s);
    forall f | f in s.flights && s.flights[f].ask.One? ensures forall c :: c in s.flights[f].still ==> c == s.flights[f].ask.coin {
      assert HistoryTheorems.FlightOk(s.w, f, s.flights[f]);
    }
    forall id | id in s.calls ensures id < |s.asked| {
      assert HistoryTheorems.CallOk(s.w, s.asked, id, s.calls[id]);
    }
  }

  lemma NewId(s: State)
    requires Reachable(s)
    ensures |s.asked| !in s.calls
  {
    ReachableFacts(s);
  }

  // ---------- everyone else ----------

  /** What the surroundings of a call do: which lookups reach the cache, whether the query succeeds and
      in which order its rows arrive, which Sets take, and what everyone else does meanwhile. */
  datatype Env = Env(get1: nat -> bool, get2: nat -> bool, dbOk: bool, rows: (Table, seq<CoinId>, int) -> seq<HistoryRow>,
                     setTook: CoinId -> bool, others: (nat, nat) -> seq<Action>)

  /** The batch query returns the right rows, in window order. */
  ghost predicate RowsOk(env: Env) {
    forall t, cs, limit :: UniqueIds(t) ==> BatchRows(t, cs, limit, env.rows(t, cs, limit)) && WindowOrder(env.rows(t, cs, limit))
  }

  predicate ByCall(a: Action, id: nat) { (a.Look? || a.Finish? || a.Lead? || a.Join? || a.Return?) && a.call == id }

  predicate ByFlight(a: Action, f: FlightId) { (a.Recheck? || a.Query? || a.Put? || a.Land? || a.Abandon?) && a.f == f }

  predicate Theirs(s: State, id: nat, f: Option<FlightId>, a: Action) {
    !ByCall(a, id) && (f.Some? ==> !ByFlight(a, f.value)) && Enabled(s, a)
  }

  /** Everyone follows a schedule, except for call id and the flight it leads, if any. */
  function Others(id: nat, f: Option<FlightId>, s: State, schedule: seq<Action>): State
    decreases |schedule|
  {
    if schedule == [] then s
    else Others(id, f, if Theirs(s, id, f, schedule[0]) then Do(s, schedule[0]) else s, schedule[1..])
  }

  /** Every run of the others is a schedule. */
  lemma {:induction false} RunsAreSchedules(id: nat, f: Option<FlightId>, s: State, acts: seq<Action>, t: State)
    requires Run(s, acts, t) && forall i :: 0 <= i < |acts| ==> !ByCall(acts[i], id) && (f.Some? ==> !ByFlight(acts[i], f.value))
    ensures Others(id, f, s, acts) == t
    decreases |acts|
  {
    if acts != [] {
      RunsAreSchedules(id, f, Do(s, acts[0]), acts[1..], t);
    }
  }

  /** The call is in nobody else's hands: it does not wait, or it waits for the flight it leads. */
  ghost predicate Own(s: State, id: nat, f: Option<FlightId>) {
    && id in s.calls && id < |s.asked|
    && (f.Some? ==> f.value in s.flights)
    && (s.calls[id].stage.Waiting? ==> f == Some(FlightId(s.calls[id].process, s.calls[id].stage.key)))
  }

  ghost predicate Undisturbed(id: nat, f: Option<FlightId>, s: State, t: State) {
    && id in s.calls && id in t.calls && t.calls[id] == s.calls[id]
    && (f.Some? ==> f.value in s.flights && f.value in t.flights && t.flights[f.value] == s.flights[f.value])
    && s.served <= t.served
  }

  lemma StepUndisturbed(id: nat, f: Option<FlightId>, s: State, a: Action)
    requires Own(s, id, f) && Theirs(s, id, f, a)
    ensures Own(Do(s, a), id, f) && Undisturbed(id, f, s, Do(s, a))
  {
  }

  lemma {:induction false} OthersKeep(id: nat, f: Option<FlightId>, s: State, schedule: seq<Action>)
    requires Reachable(s) && Own(s, id, f)
    ensures var t := Others(id, f, s, schedule); Reachable(t) && Own(t, id, f) && Undisturbed(id, f, s, t)
    decreases |schedule|
  {
    if schedule != [] {
      var a := schedule[0];
      if Theirs(s, id, f, a) {
        ReachableStep(s, a);
        StepUndisturbed(id, f, s, a);
        OthersKeep(id, f, Do(s, a), schedule[1..]);
      } else {
        OthersKeep(id, f, s, schedule[1..]);
      }
    }
  }

  // ---------- the maps the code builds ----------

  /** The Go map of an answer: an entry for every coin that has one. */
  function View(m: map<CoinId, Got>): map<CoinId, seq<PricePoint>> {
    map c | c in m && m[c].present :: m[c].points
  }

  lemma ViewAdd(m: map<CoinId, Got>, c: CoinId, g: Got)
    requires g.present
    ensures View(m[c := g]) == View(m)[c := g.points]
  {
  }

  lemma ViewMerged(m: map<CoinId, Got>, more: map<CoinId, Got>)
    requires forall c :: c in m ==> m[c].present
    ensures View(Merged(m, more)) == View(m) + View(more)
  {
    var a, b := View(Merged(m, more)), View(m) + View(more);
    forall c ensures (c in a <==> c in b) && (c in a ==> a[c] == b[c]) {
    }
  }

  /** What the batch query's result is, as the machine sees it. */
  lemma QueryView(s: State, x: Flight, res: map<CoinId, seq<PricePoint>>)
    requires |s.w.versions| > 0 && x.ask.Many? && UniqueIds(Current(s))
    requires forall c :: c in res <==> c in x.still && HasRow(Current(s), c)
    requires forall c :: c in x.still ==> Lookup(res, c) == Newest(Current(s), c, x.ask.limit)
    ensures res == View(Results(s, x))
  {
    forall c ensures SameAt(res, View(Results(s, x)), c) {
      CoinView(s, x, res, c);
    }
    SameMaps(res, View(Results(s, x)));
  }

  ghost predicate SameAt(m: map<CoinId, seq<PricePoint>>, n: map<CoinId, seq<PricePoint>>, c: CoinId) {
    (c in m <==> c in n) && (c in m ==> m[c] == n[c])
  }

  lemma SameMaps(m: map<CoinId, seq<PricePoint>>, n: map<CoinId, seq<PricePoint>>)
    requires forall c :: SameAt(m, n, c)
    ensures m == n
  {
    forall c ensures (c in m <==> c in n) && (c in m ==> m[c] == n[c]) {
      assert SameAt(m, n, c);
    }
  }

  lemma CoinView(s: State, x: Flight, res: map<CoinId, seq<PricePoint>>, c: CoinId)
    requires |s.w.versions| > 0 && x.ask.Many? && UniqueIds(Current(s))
    requires c in res <==> c in x.still && HasRow(Current(s), c)
    requires c in x.still ==> Lookup(res, c) == Newest(Current(s), c, x.ask.limit)
    ensures SameAt(res, View(Results(s, x)), c)
  {
    HasPoints(Current(s), c, x.ask.limit);
    ResultsView(s, x, c);
  }

  lemma ResultsView(s: State, x: Flight, c: CoinId)
    requires |s.w.versions| > 0 && x.ask.Many?
    ensures c in View(Results(s, x)) <==> c in x.still && Newest(Current(s), c, x.ask.limit) != []
    ensures c in View(Results(s, x)) ==> View(Results(s, x))[c] == Newest(Current(s), c, x.ask.limit)
  {
  }

  /** Call id, which had found the hits of k, waits for an open flight. */
  ghost predicate Waits(s: State, id: nat, f: FlightId, k: Call) {
    id in s.calls && id < |s.asked| && WaitsFor(s.calls[id], f) && f in s.flights && s.calls[id].hits == k.hits && s.calls[id].ask == k.ask
  }

  lemma JoinerStep(s: State, id: nat, f: FlightId, k: Call, a: Action)
    requires Waits(s, id, f, k) && Enabled(s, a) && !ByCall(a, id)
    ensures s.served <= Do(s, a).served
    ensures a == Land(f) ==> id in Do(s, a).calls && Do(s, a).calls[id] == s.calls[id].(stage := Landed(ValueOf(s.flights[f]), s.flights[f].misses))
    ensures a != Land(f) && a != Abandon(f) ==> Waits(Do(s, a), id, f, k)
  {
  }

  // ---------- a call that nobody disturbs ----------

  ghost predicate NobodyElse(env: Env) { forall p, n :: env.others(p, n) == [] }

  /** Every cache and database call succeeds and nobody else moves. */
  ghost predicate Quiet(env: Env) {
    env.dbOk && (forall i :: env.get1(i) && env.get2(i)) && (forall c :: env.setTook(c)) && NobodyElse(env)
  }

  ghost predicate AllLive(w: World, cache: map<string, Entry>, coins: seq<CoinId>, limit: int) { forall c :: c in coins ==> LiveIn(w, cache, KeyOf(c, limit)) }

  /** A live entry. */
  predicate LiveIn(w: World, cache: map<string, Entry>, k: string) { k in cache && w.now <= cache[k].setAt + TTL }

  ghost predicate SameTables(s: State, t: State) { t.w == s.w && t.cache == s.cache && t.flights == s.flights }

  /** The coins without a live entry, in request order. */
  function Missing(w: World, cache: map<string, Entry>, coins: seq<CoinId>, limit: int): seq<CoinId> {
    if coins == [] then []
    else
      var c := coins[|coins| - 1];
      Missing(w, cache, coins[..|coins| - 1], limit) + if LiveIn(w, cache, KeyOf(c, limit)) then [] else [c]
  }

  /** The coins with a live entry, and its points. */
  ghost predicate HitsOf(w: World, cache: map<string, Entry>, coins: seq<CoinId>, limit: int, result: map<CoinId, seq<PricePoint>>) {
    && (forall c :: c in result <==> c in coins && LiveIn(w, cache, KeyOf(c, limit)))
    && forall c :: c in result ==> result[c] == cache[KeyOf(c, limit)].points
  }

  /** What the first lookups found and missed. */
  ghost predicate LookedAt(w: World, cache: map<string, Entry>, coins: seq<CoinId>, limit: int, result: map<CoinId, seq<PricePoint>>, misses: seq<CoinId>) {
    misses == Missing(w, cache, coins, limit) && HitsOf(w, cache, coins, limit, result)
  }

  lemma LookedAtOne(w: World, cache: map<string, Entry>, coins: seq<CoinId>, i: nat, limit: int, result: map<CoinId, seq<PricePoint>>, misses: seq<CoinId>)
    requires i < |coins| && LookedAt(w, cache, coins[..i], limit, result, misses)
    ensures var c := coins[i];
            var k := KeyOf(c, limit);
            if LiveIn(w, cache, k) then LookedAt(w, cache, coins[..i + 1], limit, result[c := cache[k].points], misses)
            else LookedAt(w, cache, coins[..i + 1], limit, result, misses + [c])
  {
    assert coins[..i + 1] == coins[..i] + [coins[i]];
    assert coins[..i + 1][..i] == coins[..i];
  }

  ghost predicate NoneLive(w: World, cache: map<string, Entry>, coins: seq<CoinId>, limit: int) { forall c :: c in coins ==> !LiveIn(w, cache, KeyOf(c, limit)) }

  lemma {:induction false} MissingFacts(w: World, cache: map<string, Entry>, coins: seq<CoinId>, limit: int)
    ensures forall c :: c in Missing(w, cache, coins, limit) <==> c in coins && !LiveIn(w, cache, KeyOf(c, limit))
  {
    if coins != [] {
      MissingFacts(w, cache, coins[..|coins| - 1], limit);
      assert coins == coins[..|coins| - 1] + [coins[|coins| - 1]];
    }
  }

  function TableOf(w: World): Table
    requires |w.versions| > 0
  {
    w.versions[|w.versions| - 1]
  }

  /** The direct answer for these coins: the batch query has no entry for a coin without rows. */
  ghost predicate DirectFor(w: World, ask: HistoryCache.Ask, coins: seq<CoinId>, value: map<CoinId, seq<PricePoint>>) {
    |w.versions| > 0 && forall c :: DirectAt(w, ask, coins, value, c)
  }

  ghost predicate DirectAt(w: World, ask: HistoryCache.Ask, coins: seq<CoinId>, value: map<CoinId, seq<PricePoint>>, c: CoinId)
    requires |w.versions| > 0
  {
    && (c in value <==> c in coins && (ask.One? || Newest(TableOf(w), c, ask.limit) != []))
    && (c in value ==> value[c] == Newest(TableOf(w), c, ask.limit))
  }

  /** These coins' entries hold these points, set now; no other entry has changed. */
  ghost predicate Stored(before: map<string, Entry>, after: map<string, Entry>, value: map<CoinId, seq<PricePoint>>, coins: set<CoinId>, limit: int, now: int) {
    && (forall c :: c in coins && c in value ==> EntryFor(after, c, limit, value[c], now))
    && forall k :: (k in after && !(k in before && before[k] == after[k])) || (k in before && k !in after) ==> KeyOfSome(k, coins, limit)
  }

  ghost predicate EntryFor(cache: map<string, Entry>, c: CoinId, limit: int, points: seq<PricePoint>, now: int) {
    KeyOf(c, limit) in cache && cache[KeyOf(c, limit)].points == points && cache[KeyOf(c, limit)].setAt == now
  }

  ghost predicate KeyOfSome(k: string, coins: set<CoinId>, limit: int) { exists c :: c in coins && k == KeyOf(c, limit) }

  lemma KeysDiffer(c: CoinId, d: CoinId, limit: int)
    requires KeyOf(c, limit) == KeyOf(d, limit)
    ensures c == d
  {
    EntryIsOwn(c, limit, Entry(d, limit, [], 0, 0, 0, 0));
  }

  lemma StoredOne(before: map<string, Entry>, after: map<string, Entry>, value: map<CoinId, seq<PricePoint>>, coins: set<CoinId>, limit: int, now: int, c: CoinId, e: Entry)
    requires Stored(before, after, value, coins, limit, now) && c in value && e.points == value[c] && e.setAt == now
    ensures Stored(before, after[KeyOf(c, limit) := e], value, coins + {c}, limit, now)
  {
    var more := after[KeyOf(c, limit) := e];
    forall d | d in coins + {c} && d in value ensures EntryFor(more, d, limit, value[d], now) {
      if d != c {
        if KeyOf(d, limit) == KeyOf(c, limit) {
          KeysDiffer(d, c, limit);
        }
        assert EntryFor(after, d, limit, value[d], now);
      }
    }
    forall k | (k in more && !(k in before && before[k] == more[k])) || (k in before && k !in more) ensures KeyOfSome(k, coins + {c}, limit) {
      if k == KeyOf(c, limit) {
        assert c in coins + {c};
      } else {
        assert KeyOfSome(k, coins, limit);
        var d :| d in coins && k == KeyOf(d, limit);
        assert d in coins + {c};
      }
    }
  }

  /** What a quiet flight for these coins brings: the direct answer, which is then cached. */
  ghost predicate Brought(w: World, cache: map<string, Entry>, t: State, ask: HistoryCache.Ask, coins: seq<CoinId>, value: map<CoinId, seq<PricePoint>>) {
    t.w == w && DirectFor(w, ask, coins, value) && Stored(cache, t.cache, value, value.Keys, ask.limit, w.now)
  }

  /** What a quiet request comes to: the points of the live entries, and for the other coins the direct
      answer, which is then cached. */
  ghost predicate AnsweredAlone(w: World, cache: map<string, Entry>, t: State, ask: HistoryCache.Ask, value: map<CoinId, seq<PricePoint>>) {
    |w.versions| > 0 && t.w == w && forall c :: AnsweredAt(w, cache, t.cache, ask, value, c)
  }

  ghost predicate AnsweredAt(w: World, cache: map<string, Entry>, after: map<string, Entry>, ask: HistoryCache.Ask, value: map<CoinId, seq<PricePoint>>, c: CoinId)
    requires |w.versions| > 0
  {
    var k, points := KeyOf(c, ask.limit), Newest(TableOf(w), c, ask.limit);
    if c !in Coins(ask) then c !in value
    else if LiveIn(w, cache, k) then c in value && value[c] == cache[k].points
    else
      && (c in value <==> ask.One? || points != [])
      && (c in value ==> value[c] == points && EntryFor(after, c, ask.limit, points, w.now))
  }

  lemma AloneLater(w: World, cache: map<string, Entry>, m: State, t: State, ask: HistoryCache.Ask, value: map<CoinId, seq<PricePoint>>)
    requires AnsweredAlone(w, cache, m, ask, value) && t.w == m.w && t.cache == m.cache
    ensures AnsweredAlone(w, cache, t, ask, value)
  {
  }

  /** No flight of this process has the key of what the request will miss. */
  ghost predicate NoFlight(s: State, p: nat, ask: HistoryCache.Ask) {
    FlightId(p, FlightKey(ask, Missing(s.w, s.cache, Coins(ask), ask.limit))) !in s.flights
  }

  lemma OneAlone(w: World, cache: map<string, Entry>, t: State, coin: CoinId, limit: int, value: map<CoinId, seq<PricePoint>>)
    requires AnsweredAlone(w, cache, t, One(coin, limit), value)
    ensures value == map[coin := Lookup(value, coin)]
  {
    forall c ensures c in value <==> c == coin {
      assert AnsweredAt(w, cache, t.cache, One(coin, limit), value, c);
    }
  }

  lemma MergedAt(w: World, cache: map<string, Entry>, t: State, ask: HistoryCache.Ask, result: map<CoinId, seq<PricePoint>>, shared: map<CoinId, seq<PricePoint>>, c: CoinId)
    requires HitsOf(w, cache, Coins(ask), ask.limit, result) && Brought(w, cache, t, ask, Missing(w, cache, Coins(ask), ask.limit), shared)
    ensures AnsweredAt(w, cache, t.cache, ask, result + shared, c)
  {
    MissingFacts(w, cache, Coins(ask), ask.limit);
    assert DirectAt(w, ask, Missing(w, cache, Coins(ask), ask.limit), shared, c);
    assert c in shared ==> c in shared.Keys;
  }

  lemma MergedAlone(w: World, cache: map<string, Entry>, t: State, ask: HistoryCache.Ask, result: map<CoinId, seq<PricePoint>>, shared: map<CoinId, seq<PricePoint>>)
    requires HitsOf(w, cache, Coins(ask), ask.limit, result) && Brought(w, cache, t, ask, Missing(w, cache, Coins(ask), ask.limit), shared)
    ensures AnsweredAlone(w, cache, t, ask, result + shared)
  {
    forall c ensures AnsweredAt(w, cache, t.cache, ask, result + shared, c) {
      MergedAt(w, cache, t, ask, result, shared, c);
    }
  }

  lemma HitsAlone(w: World, cache: map<string, Entry>, t: State, ask: HistoryCache.Ask, result: map<CoinId, seq<PricePoint>>)
    requires HitsOf(w, cache, Coins(ask), ask.limit, result) && Missing(w, cache, Coins(ask), ask.limit) == [] && |w.versions| > 0 && t.w == w
    ensures AnsweredAlone(w, cache, t, ask, result)
  {
    MissingFacts(w, cache, Coins(ask), ask.limit);
    forall c ensures AnsweredAt(w, cache, t.cache, ask, result, c) {
      assert c !in Missing(w, cache, Coins(ask), ask.limit);
    }
  }

  lemma OneIsDirect(w: World, ask: HistoryCache.Ask, coins: seq<CoinId>, c: CoinId)
    requires |w.versions| > 0 && ask.One? && forall d :: d in coins <==> d == ask.coin
    ensures DirectAt(w, ask, coins, map[ask.coin := Newest(TableOf(w), ask.coin, ask.limit)], c)
  {
  }

  lemma ViewIsDirect(s: State, x: Flight, c: CoinId)
    requires |s.w.versions| > 0 && x.still != [] && (x.ask.One? ==> forall d :: d in x.still ==> d == x.ask.coin)
    ensures DirectAt(s.w, x.ask, x.still, View(Results(s, x)), c)
  {
    if x.ask.One? {
      OneView(s, x);
      assert x.still[0] in x.still;
      OneIsDirect(s.w, x.ask, x.still, c);
    } else {
      ResultsView(s, x, c);
    }
  }

  lemma ResultsAreDirect(s: State, f: FlightId)
    requires Reachable(s) && f in s.flights && s.flights[f].still != [] && |s.w.versions| > 0
    ensures DirectFor(s.w, s.flights[f].ask, s.flights[f].still, View(Results(s, s.flights[f])))
  {
    ReachableFacts(s);
    forall c ensures DirectAt(s.w, s.flights[f].ask, s.flights[f].still, View(Results(s, s.flights[f])), c) {
      ViewIsDirect(s, s.flights[f], c);
    }
  }

  /** The flight has looked again and still misses a coin. */
  ghost predicate StillMissing(f: FlightId, m: State) {
    f in m.flights && m.flights[f].stage.Rechecking? && m.flights[f].pos == |m.flights[f].misses| && m.flights[f].still != []
  }

  ghost predicate IsWaiting(s: State, id: nat) { id in s.calls && s.calls[id].stage.Waiting? }

  /** Call id waited for a flight all along the schedule, and still does. */
  ghost predicate LeftWaiting(id: nat, s: State, schedule: seq<Action>) {
    id in s.calls && s.calls[id].stage.Waiting? && exists m :: IsWaiting(m, id) && s == Others(id, None, m, schedule)
  }

  /** Call id was thrown out of the flight it had joined, which was abandoned on the way. */
  ghost predicate ThrownOut(id: nat, s: State, schedule: seq<Action>) { id !in s.calls && exists f :: Abandon(f) in schedule }

  lemma {:induction false} OthersSnoc(id: nat, f: Option<FlightId>, s: State, schedule: seq<Action>, a: Action)
    ensures var t := Others(id, f, s, schedule);
            Others(id, f, s, schedule + [a]) == if Theirs(t, id, f, a) then Do(t, a) else t
    decreases |schedule|
  {
    if schedule == [] {
      assert ([] + [a])[1..] == [];
    } else {
      var b := schedule[0];
      assert (schedule + [a])[1..] == schedule[1..] + [a];
      OthersSnoc(id, f, if Theirs(s, id, f, b) then Do(s, b) else s, schedule[1..], a);
    }
  }

  datatype WaitOutcome = NotYet | Thrown | Delivered(value: map<CoinId, seq<PricePoint>>)

  /** One lookup has found these points for the coin, or missed it. */
  ghost predicate Noted(k: Call, k': Call, c: CoinId, r: Option<seq<PricePoint>>) {
    && k'.(hits := k.hits, misses := k.misses, pos := k.pos) == k && k'.pos == k.pos + 1
    && (match r
        case Some(points) => k'.misses == k.misses && View(k'.hits) == View(k.hits)[c := points] && (AllPresent(k.hits) ==> AllPresent(k'.hits))
        case None => k'.hits == k.hits && k'.misses == k.misses + [c])
  }

  /** The call has looked n of its coins up. */
  ghost predicate LookedUpTo(k0: Call, k: Call, n: nat, result: map<CoinId, seq<PricePoint>>, misses: seq<CoinId>) {
    k == Call(k0.process, k0.ask, k0.since, n, k.hits, misses, Looking) && result == View(k.hits) && AllPresent(k.hits)
  }

  lemma NotedUpTo(k0: Call, k: Call, k': Call, n: nat, c: CoinId, r: Option<seq<PricePoint>>, result: map<CoinId, seq<PricePoint>>, misses: seq<CoinId>)
    requires LookedUpTo(k0, k, n, result, misses) && Noted(k, k', c, r)
    ensures match r
            case Some(points) => LookedUpTo(k0, k', n + 1, result[c := points], misses)
            case None => LookedUpTo(k0, k', n + 1, result, misses + [c])
  {
  }

  lemma LookNotes(s: State, k: Call, ok: bool, c: CoinId, r: Option<seq<PricePoint>>)
    requires k.pos < |Coins(k.ask)| && Coins(k.ask)[k.pos] == c
    requires r == if ok && Live(s, KeyOf(c, k.ask.limit)) then Some(s.cache[KeyOf(c, k.ask.limit)].points) else None
    ensures Noted(k, AfterLook(s, k, ok), c, r)
  {
    if r.Some? {
      ViewAdd(k.hits, c, FromCache(s, KeyOf(c, k.ask.limit)));
    }
  }

  /** The flight has fetched, and these entries remain to be set. */
  ghost function Left(x: Flight, todo: set<CoinId>): Flight
    requires x.stage.Fetched?
  {
    x.(stage := Fetched(x.stage.res, todo))
  }

  lemma FlightIsOver(y: Flight, x: Flight, inner: map<CoinId, seq<PricePoint>>, res: map<CoinId, seq<PricePoint>>, out: map<CoinId, seq<PricePoint>>)
    requires x.stage.Fetched? && x.stage.todo == {} && x.inner == y.inner && inner == View(y.inner) && AllPresent(y.inner)
    requires res == View(x.stage.res) && out == inner + res
    ensures Complete(x) && out == View(ValueOf(x)) && (inner == map[] ==> out == res)
  {
    ViewMerged(y.inner, x.stage.res);
  }

  class CachedRepository {
    var s: State

    ghost predicate Mine(id: nat, k: Call)
      reads this
    {
      Reachable(s) && Own(s, id, None) && s.calls[id] == k && !k.stage.Waiting?
    }

    /** Call id waits for flight f, which it leads. */
    ghost predicate Leads(id: nat, k: Call, f: FlightId, x: Flight)
      reads this
    {
      Reachable(s) && Own(s, id, Some(f)) && s.calls[id] == k && k.stage == Waiting(f.key) && s.flights[f] == x
    }

    method Interfere(id: nat, schedule: seq<Action>, ghost k: Call)
      requires Mine(id, k)
      modifies this
      ensures Mine(id, k) && old(s).served <= s.served && (schedule == [] ==> s == old(s))
    {
      OthersKeep(id, None, s, schedule);
      s := Others(id, None, s, schedule);
    }

    method InterfereWithLeader(id: nat, f: FlightId, schedule: seq<Action>, ghost k: Call, ghost x: Flight)
      requires Leads(id, k, f, x)
      modifies this
      ensures Leads(id, k, f, x) && old(s).served <= s.served && (schedule == [] ==> s == old(s))
    {
      OthersKeep(id, Some(f), s, schedule);
      s := Others(id, Some(f), s, schedule);
    }

    method Exec(a: Action)
      requires Reachable(s) && Enabled(s, a)
      modifies this
      ensures Reachable(s) && s == Do(old(s), a)
    {
      ReachableStep(s, a);
      s := Do(s, a);
    }

    /** One cache.Get of the first round. */
    method LookOne(id: nat, c: CoinId, env: Env, i: nat, ghost k: Call) returns (r: Option<seq<PricePoint>>)
      requires Mine(id, k) && k.stage.Looking? && k.pos == i < |Coins(k.ask)| && Coins(k.ask)[i] == c
      modifies this
      ensures id in s.calls && Mine(id, s.calls[id]) && old(s).served <= s.served && Noted(k, s.calls[id], c, r)
      ensures r == if env.get1(i) && Live(s, KeyOf(c, k.ask.limit)) then Some(s.cache[KeyOf(c, k.ask.limit)].points) else None
      ensures Quiet(env) ==> SameTables(old(s), s)
    {
      Interfere(id, env.others(0, i), k);
      var key := KeyOf(c, s.calls[id].ask.limit);
      r := if env.get1(i) && Live(s, key) then Some(s.cache[key].points) else None;
      LookNotes(s, k, env.get1(i), c, r);
      Exec(Look(id, env.get1(i)));
    }

    /** One lookup per coin: hits go to the result, the rest to the misses, in request order. */
    method LookupAll(id: nat, coins: seq<CoinId>, env: Env, ghost k: Call) returns (result: map<CoinId, seq<PricePoint>>, misses: seq<CoinId>)
      requires Mine(id, k) && k == Call(k.process, k.ask, k.since, 0, map[], [], Looking) && coins == Coins(k.ask)
      modifies this
      ensures id in s.calls && Mine(id, s.calls[id]) && old(s).served <= s.served
      ensures s.calls[id] == Call(k.process, k.ask, k.since, |coins|, s.calls[id].hits, misses, Looking)
      ensures result == View(s.calls[id].hits) && AllPresent(s.calls[id].hits)
      ensures Quiet(env) ==> SameTables(old(s), s) && LookedAt(old(s).w, old(s).cache, coins, k.ask.limit, result, misses)
    {
      result, misses := map[], [];
      var i := 0;
      while i < |coins|
        invariant 0 <= i <= |coins| && old(s).served <= s.served && id in s.calls && Mine(id, s.calls[id])
        invariant LookedUpTo(k, s.calls[id], i, result, misses)
        invariant Quiet(env) ==> SameTables(old(s), s) && LookedAt(old(s).w, old(s).cache, coins[..i], k.ask.limit, result, misses)
      {
        if Quiet(env) {
          LookedAtOne(old(s).w, old(s).cache, coins, i, k.ask.limit, result, misses);
        }
        ghost var before := s.calls[id];
        var found := LookOne(id, coins[i], env, i, before);
        NotedUpTo(k, before, s.calls[id], i, coins[i], found, result, misses);
        match found {
          case Some(history) => result := result[coins[i] := history];
          case None => misses := misses + [coins[i]];
        }
        i := i + 1;
      }
      assert coins[..|coins|] == coins;
    }

    /** One cache.Get of the second round, inside the flight. */
    method RecheckOne(id: nat, f: FlightId, c: CoinId, env: Env, i: nat, ghost k: Call, ghost x: Flight)
      returns (r: Option<seq<PricePoint>>)
      requires Leads(id, k, f, x) && x.stage.Rechecking? && x.pos == i < |x.misses| && x.misses[i] == c && AllPresent(x.inner)
      modifies this
      ensures f in s.flights && Leads(id, k, f, s.flights[f]) && old(s).served <= s.served
      ensures var x' := s.flights[f];
              && x'.(inner := x.inner, still := x.still, pos := i) == x && x'.pos == i + 1 && AllPresent(x'.inner)
              && (match r
                  case Some(points) => x'.still == x.still && View(x'.inner) == View(x.inner)[c := points]
                  case None => x'.inner == x.inner && x'.still == x.still + [c])
      ensures r == if env.get2(i) && Live(s, KeyOf(c, x.ask.limit)) then Some(s.cache[KeyOf(c, x.ask.limit)].points) else None
      ensures NobodyElse(env) ==> s.w == old(s).w && s.cache == old(s).cache
    {
      InterfereWithLeader(id, f, env.others(1, i), k, x);
      var key := KeyOf(c, s.flights[f].ask.limit);
      r := if env.get2(i) && Live(s, key) then Some(s.cache[key].points) else None;
      if r.Some? {
        ViewAdd(x.inner, c, FromCache(s, key));
      }
      Exec(Recheck(f, env.get2(i)));
    }

    method RecheckAll(id: nat, f: FlightId, misses: seq<CoinId>, env: Env, ghost k: Call, ghost x: Flight)
      returns (inner: map<CoinId, seq<PricePoint>>, still: seq<CoinId>)
      requires Leads(id, k, f, x) && x == Flight(x.ask, misses, x.openedAt, 0, map[], [], Rechecking)
      modifies this
      ensures f in s.flights && Leads(id, k, f, s.flights[f]) && old(s).served <= s.served
      ensures s.flights[f] == Flight(x.ask, misses, x.openedAt, |misses|, s.flights[f].inner, still, Rechecking)
      ensures inner == View(s.flights[f].inner) && AllPresent(s.flights[f].inner)
      ensures NobodyElse(env) ==> s.w == old(s).w && s.cache == old(s).cache
      ensures Quiet(env) && NoneLive(old(s).w, old(s).cache, misses, x.ask.limit) ==> inner == map[] && still == misses
      ensures NobodyElse(env) && (forall i :: env.get2(i)) && AllLive(old(s).w, old(s).cache, misses, x.ask.limit) ==> still == []
    {
      inner, still := map[], [];
      var i := 0;
      while i < |misses|
        invariant 0 <= i <= |misses| && old(s).served <= s.served && f in s.flights && Leads(id, k, f, s.flights[f])
        invariant s.flights[f] == Flight(x.ask, misses, x.openedAt, i, s.flights[f].inner, still, Rechecking)
        invariant inner == View(s.flights[f].inner) && AllPresent(s.flights[f].inner)
        invariant NobodyElse(env) ==> s.w == old(s).w && s.cache == old(s).cache
        invariant Quiet(env) && NoneLive(old(s).w, old(s).cache, misses, x.ask.limit) ==> inner == map[] && still == misses[..i]
        invariant NobodyElse(env) && (forall n :: env.get2(n)) && AllLive(old(s).w, old(s).cache, misses, x.ask.limit) ==> still == []
      {
        var found := RecheckOne(id, f, misses[i], env, i, k, s.flights[f]);
        match found {
          case Some(history) => inner := inner[misses[i] := history];
          case None => still := still + [misses[i]];
        }
        assert misses[..i + 1] == misses[..i] + [misses[i]];
        i := i + 1;
      }
    }

    /** dbRepo: the batch query, or the single-coin query, on the table as it is now. */
    method QueryDatabase(f: FlightId, still: seq<CoinId>, env: Env) returns (res: map<CoinId, seq<PricePoint>>)
      requires Reachable(s) && RowsOk(env) && f in s.flights && s.flights[f].still == still && still != []
      ensures |s.w.versions| > 0 && res == View(Results(s, s.flights[f]))
    {
      ReachableFacts(s);
      var x := s.flights[f];
      var table := Current(s);
      if x.ask.Many? {
        var rows := env.rows(table, still, x.ask.limit);
        assert BatchRows(table, still, x.ask.limit, rows) && WindowOrder(rows);
        res := ReadModel.GetPriceHistories(table, still, x.ask.limit, rows);
        forall c | c in still ensures Ordering.Ascending(Newer, Ordering.Where(OfCoin(c), rows)) {
          WhereOrdered(rows, c);
        }
        QueryView(s, x, res);
      } else {
        var points := ReadModel.GetPriceHistory(table, x.ask.coin, x.ask.limit);
        res := map[x.ask.coin := points];
        OneView(s, x);
      }
    }

    /** One cache.Set; the coins in `done` have been set since the cache was `base`. */
    method SetOne(id: nat, f: FlightId, c: CoinId, env: Env, todo: set<CoinId>, ghost k: Call, ghost x: Flight,
                  ghost base: map<string, Entry>, ghost res: map<CoinId, seq<PricePoint>>, ghost done: set<CoinId>)
      requires x.stage.Fetched? && Leads(id, k, f, Left(x, todo)) && c in todo && c in x.stage.res
      requires c in res && res[c] == x.stage.res[c].points
      modifies this
      ensures Leads(id, k, f, Left(x, todo - {c})) && old(s).served <= s.served
      ensures env.setTook(c) ==> EntryFor(s.cache, c, x.ask.limit, res[c], s.w.now)
      ensures Quiet(env) ==> s.w == old(s).w
      ensures Quiet(env) && Stored(base, old(s).cache, res, done, x.ask.limit, s.w.now) ==> Stored(base, s.cache, res, done + {c}, x.ask.limit, s.w.now)
    {
      InterfereWithLeader(id, f, env.others(2, |todo|), k, Left(x, todo));
      ghost var before := s;
      Exec(Put(f, c, env.setTook(c)));
      if Quiet(env) && Stored(base, before.cache, res, done, x.ask.limit, s.w.now) {
        StoredOne(base, before.cache, res, done, x.ask.limit, s.w.now, c, s.cache[KeyOf(c, x.ask.limit)]);
      }
    }

    /** Copies the database answer into the flight's result and the cache, in any map order; a
        failed Set is only logged. */
    method StoreAll(id: nat, f: FlightId, res: map<CoinId, seq<PricePoint>>, inner: map<CoinId, seq<PricePoint>>, env: Env,
                    ghost k: Call, ghost x: Flight) returns (out: map<CoinId, seq<PricePoint>>)
      requires Leads(id, k, f, x) && x.stage.Fetched? && res == View(x.stage.res) && x.stage.todo == res.Keys
      modifies this
      ensures Leads(id, k, f, Left(x, {})) && old(s).served <= s.served
      ensures out == inner + res
      ensures Quiet(env) ==> s.w == old(s).w && Stored(old(s).cache, s.cache, res, res.Keys, x.ask.limit, s.w.now)
    {
      out := inner;
      var todo := res.Keys;
      assert Left(x, todo) == x;
      while todo != {}
        invariant todo <= res.Keys && Copied(out, inner, res, todo) && old(s).served <= s.served
        invariant Leads(id, k, f, Left(x, todo))
        invariant Quiet(env) ==> s.w == old(s).w && Stored(old(s).cache, s.cache, res, res.Keys - todo, x.ask.limit, s.w.now)
      {
        var c :| c in todo;
        CopyOne(out, inner, res, todo, c);
        out := out[c := res[c]];
        SetOne(id, f, c, env, todo, k, x, old(s).cache, res, res.Keys - todo);
        assert res.Keys - (todo - {c}) == (res.Keys - todo) + {c};
        todo := todo - {c};
      }
      CopiedAll(out, inner, res);
    }

    /** The body of the flight: look again, then query for what is still missing. */
    method Fly(id: nat, f: FlightId, misses: seq<CoinId>, env: Env, ghost k: Call, ghost x: Flight)
      returns (r: Result<map<CoinId, seq<PricePoint>>>)
      requires RowsOk(env) && Leads(id, k, f, x) && x == Flight(x.ask, misses, x.openedAt, 0, map[], [], Rechecking)
      modifies this
      ensures old(s).served <= s.served
      ensures r.Ok? ==> f in s.flights && Leads(id, k, f, s.flights[f]) && Complete(s.flights[f]) && r.value == View(ValueOf(s.flights[f]))
      ensures r.Err? ==> !env.dbOk && Reachable(s) && id !in s.calls
      ensures NobodyElse(env) && (forall i :: env.get2(i)) && AllLive(old(s).w, old(s).cache, misses, x.ask.limit) ==> r.Ok?
      ensures Quiet(env) && misses != [] && NoneLive(old(s).w, old(s).cache, misses, x.ask.limit) ==> r.Ok? && Brought(old(s).w, old(s).cache, s, x.ask, misses, r.value)
    {
      var inner, still := RecheckAll(id, f, misses, env, k, x);
      if |still| == 0 {
        return Ok(inner);
      }
      r := QueryAndStore(id, f, still, inner, env, k, s.flights[f]);
    }

    /** The query has failed: the flight ends without a value. */
    method GiveUp(id: nat, f: FlightId, ghost k: Call, ghost y: Flight)
      requires Leads(id, k, f, y) && StillMissing(f, s)
      modifies this
      ensures Reachable(s) && s.served == old(s).served && id !in s.calls
    {
      Exec(Abandon(f));
    }

    /** The database part of the flight. */
    method QueryAndStore(id: nat, f: FlightId, still: seq<CoinId>, inner: map<CoinId, seq<PricePoint>>, env: Env, ghost k: Call, ghost y: Flight)
      returns (r: Result<map<CoinId, seq<PricePoint>>>)
      requires RowsOk(env) && Leads(id, k, f, y) && StillMissing(f, s) && y.still == still && inner == View(y.inner) && AllPresent(y.inner)
      modifies this
      ensures old(s).served <= s.served
      ensures r.Ok? ==> f in s.flights && Leads(id, k, f, s.flights[f]) && Complete(s.flights[f]) && r.value == View(ValueOf(s.flights[f]))
      ensures r.Err? ==> !env.dbOk && Reachable(s) && id !in s.calls
      ensures Quiet(env) && inner == map[] ==> r.Ok? && Brought(old(s).w, old(s).cache, s, y.ask, still, r.value)
    {
      InterfereWithLeader(id, f, env.others(3, 0), k, y);
      if !env.dbOk {
        GiveUp(id, f, k, y);
        return Err("failed to query price histories");
      }
      var res := Download(id, f, still, env, k, y);
      var out := StoreAll(id, f, res, inner, env, k, s.flights[f]);
      FlightIsOver(y, s.flights[f], inner, res, out);
      r := Ok(out);
    }

    /** The query itself. */
    method Download(id: nat, f: FlightId, still: seq<CoinId>, env: Env, ghost k: Call, ghost y: Flight) returns (res: map<CoinId, seq<PricePoint>>)
      requires RowsOk(env) && Leads(id, k, f, y) && StillMissing(f, s) && y.still == still
      modifies this
      ensures s.served == old(s).served && s.w == old(s).w && s.cache == old(s).cache && f in s.flights && Leads(id, k, f, s.flights[f])
      ensures var x := s.flights[f]; x.stage.Fetched? && x.(stage := y.stage) == y && res == View(x.stage.res) && x.stage.todo == res.Keys
      ensures DirectFor(s.w, y.ask, still, res)
    {
      res := QueryDatabase(f, still, env);
      SetsAreView(Results(s, y));
      ResultsAreDirect(s, f);
      Exec(Query(f));
    }

    /** singleflight.Do as its leader: run the body, deliver its value to everyone who waits. */
    method LeadFlight(id: nat, misses: seq<CoinId>, env: Env, ghost k: Call) returns (r: Result<map<CoinId, seq<PricePoint>>>)
      requires RowsOk(env) && Mine(id, k) && Enabled(s, Lead(id)) && k.misses == misses
      modifies this
      ensures old(s).served <= s.served
      ensures r.Ok? ==> HasLanded(id, k, r.value)
      ensures r.Err? ==> !env.dbOk
      ensures Quiet(env) && NoneLive(old(s).w, old(s).cache, misses, k.ask.limit) ==> r.Ok? && Brought(old(s).w, old(s).cache, s, k.ask, misses, r.value)
    {
      var f := FlightOf(s.calls[id]);
      Exec(Lead(id));
      r := Fly(id, f, misses, env, s.calls[id], s.flights[f]);
      if r.Ok? {
        LandOwn(id, f, env, s.calls[id], s.flights[f]);
      }
    }

    /** The flight is over: its value goes to its leader and to everyone who joined. */
    method LandOwn(id: nat, f: FlightId, env: Env, ghost k: Call, ghost x: Flight)
      requires Leads(id, k, f, x) && Complete(x)
      modifies this
      ensures old(s).served <= s.served && HasLanded(id, k, View(ValueOf(x)))
      ensures Quiet(env) ==> s.w == old(s).w && s.cache == old(s).cache
    {
      InterfereWithLeader(id, f, env.others(6, 0), k, x);
      Exec(Land(f));
      assert s.calls[id].stage.Landed?;
    }

    /** The call has landed with this value. */
    ghost predicate HasLanded(id: nat, k: Call, value: map<CoinId, seq<PricePoint>>)
      reads this
    {
      && Reachable(s) && Own(s, id, None) && s.calls[id].stage.Landed? && View(s.calls[id].stage.value) == value
      && s.calls[id].hits == k.hits && s.calls[id].ask == k.ask
    }

    /** singleflight.Do as a joiner: everyone else runs, by the given schedule, until the flight lands. */
    method JoinFlight(id: nat, schedule: seq<Action>, ghost k: Call) returns (r: Result<map<CoinId, seq<PricePoint>>>)
      requires Mine(id, k) && Enabled(s, Join(id))
      modifies this
      ensures old(s).served <= s.served
      ensures r.Ok? ==> HasLanded(id, k, r.value)
      ensures r.Err? ==> ThrownOut(id, s, schedule) || LeftWaiting(id, s, schedule)
    {
      var f := FlightOf(s.calls[id]);
      Exec(Join(id));
      r := AwaitLanding(id, f, schedule, k);
    }

    /** The call has joined the flight. */
    method AwaitLanding(id: nat, f: FlightId, schedule: seq<Action>, ghost k: Call) returns (r: Result<map<CoinId, seq<PricePoint>>>)
      requires Reachable(s) && Waits(s, id, f, k)
      modifies this
      ensures old(s).served <= s.served
      ensures r.Ok? ==> HasLanded(id, k, r.value)
      ensures r.Err? ==> ThrownOut(id, s, schedule) || (Waits(s, id, f, k) && s == Others(id, None, old(s), schedule))
    {
      var i := 0;
      while i < |schedule|
        invariant 0 <= i <= |schedule| && s == Others(id, None, old(s), schedule[..i])
        invariant Reachable(s) && Waits(s, id, f, k) && old(s).served <= s.served
      {
        assert schedule[..i + 1] == schedule[..i] + [schedule[i]];
        OthersSnoc(id, None, old(s), schedule[..i], schedule[i]);
        var outcome := WaitOne(id, f, schedule[i], k);
        i := i + 1;
        match outcome {
          case NotYet =>
          case Thrown => return Err("shared query failed");
          case Delivered(value) => return Ok(value);
        }
      }
      assert schedule[..|schedule|] == schedule;
      r := Err("still waiting");
    }

    /** A joiner waits while somebody else takes one step. */
    method WaitOne(id: nat, f: FlightId, a: Action, ghost k: Call) returns (outcome: WaitOutcome)
      requires Reachable(s) && Waits(s, id, f, k)
      modifies this
      ensures s == (if Theirs(old(s), id, None, a) then Do(old(s), a) else old(s)) && old(s).served <= s.served
      ensures match outcome
              case NotYet => Reachable(s) && Waits(s, id, f, k)
              case Thrown => a == Abandon(f) && id !in s.calls
              case Delivered(value) => HasLanded(id, k, value)
    {
      outcome := NotYet;
      if Theirs(s, id, None, a) {
        JoinerStep(s, id, f, k, a);
        if a == Land(f) {
          outcome := Delivered(View(ValueOf(s.flights[f])));
        } else if a == Abandon(f) {
          outcome := Thrown;
        }
        Exec(a);
      }
    }

    /** singleflight.Do: join the open flight of this key, or lead one. */
    method Share(id: nat, misses: seq<CoinId>, env: Env, ghost k: Call) returns (r: Result<map<CoinId, seq<PricePoint>>>)
      requires RowsOk(env) && Mine(id, k) && Looked(s, id) && misses != [] && k.misses == misses
      modifies this
      ensures old(s).served <= s.served
      ensures r.Ok? ==> HasLanded(id, k, r.value)
      ensures r.Err? ==> !env.dbOk || ThrownOut(id, s, env.others(4, 0)) || LeftWaiting(id, s, env.others(4, 0))
      ensures Quiet(env) && NoneLive(old(s).w, old(s).cache, misses, k.ask.limit) && FlightOf(k) !in old(s).flights ==> r.Ok? && Brought(old(s).w, old(s).cache, s, k.ask, misses, r.value)
    {
      if FlightOf(s.calls[id]) in s.flights {
        r := JoinFlight(id, env.others(4, 0), k);
      } else {
        r := LeadFlight(id, misses, env, k);
      }
    }

    /** The answer is recorded as this call's. */
    ghost predicate Answered(from: nat, id: nat, ask: HistoryCache.Ask, value: map<CoinId, seq<PricePoint>>)
      reads this
    {
      exists j :: from <= j < |s.served| && s.served[j].call == id && s.served[j].ask == ask && View(s.served[j].answer) == value
    }

    /** Lookups, flight, merge: what both queries do. */
    method Ask(p: nat, ask: HistoryCache.Ask, env: Env) returns (r: Result<map<CoinId, seq<PricePoint>>>)
      requires Reachable(s) && RowsOk(env)
      modifies this
      ensures old(s).served <= s.served
      ensures r.Ok? ==> Reachable(s) && Answered(|old(s).served|, |old(s).asked|, ask, r.value)
      ensures r.Err? ==>
                || !env.dbOk || ThrownOut(|old(s).asked|, s, env.others(4, 0)) || LeftWaiting(|old(s).asked|, s, env.others(4, 0))
      ensures Quiet(env) && NoFlight(old(s), p, ask) ==> r.Ok? && AnsweredAlone(old(s).w, old(s).cache, s, ask, r.value)
    {
      var id := |s.asked|;
      var result, misses := LookFirst(p, ask, env);
      if |misses| == 0 {
        Exec(Finish(id));
        assert s.served[|s.served| - 1].call == id;
        if Quiet(env) {
          HitsAlone(old(s).w, old(s).cache, s, ask, result);
        }
        return Ok(result);
      }
      r := ShareAndMerge(id, result, misses, env, s.calls[id]);
    }

    /** The call starts and looks its coins up. */
    method LookFirst(p: nat, ask: HistoryCache.Ask, env: Env) returns (result: map<CoinId, seq<PricePoint>>, misses: seq<CoinId>)
      requires Reachable(s)
      modifies this
      ensures var id := |old(s).asked|;
              && old(s).served <= s.served && id in s.calls && Mine(id, s.calls[id])
              && s.calls[id].process == p && s.calls[id].ask == ask && s.calls[id].misses == misses && Looked(s, id)
              && result == View(s.calls[id].hits) && AllPresent(s.calls[id].hits)
      ensures Quiet(env) ==> SameTables(old(s), s) && |s.w.versions| > 0 && LookedAt(s.w, s.cache, Coins(ask), ask.limit, result, misses)
    {
      ReachableKeyed(s);
      NewId(s);
      var id := |s.asked|;
      Exec(Start(p, ask));
      result, misses := LookupAll(id, Coins(ask), env, s.calls[id]);
      Interfere(id, env.others(5, 0), s.calls[id]);
    }

    /** What was missed comes from a flight. */
    method ShareAndMerge(id: nat, result: map<CoinId, seq<PricePoint>>, misses: seq<CoinId>, env: Env, ghost k: Call)
      returns (r: Result<map<CoinId, seq<PricePoint>>>)
      requires RowsOk(env) && Mine(id, k) && Looked(s, id) && misses != [] && k.misses == misses && result == View(k.hits) && AllPresent(k.hits)
      modifies this
      ensures old(s).served <= s.served
      ensures r.Ok? ==> Reachable(s) && Answered(|old(s).served|, id, k.ask, r.value)
      ensures r.Err? ==> !env.dbOk || ThrownOut(id, s, env.others(4, 0)) || LeftWaiting(id, s, env.others(4, 0))
      ensures Quiet(env) && FlightOf(k) !in old(s).flights && LookedAt(old(s).w, old(s).cache, Coins(k.ask), k.ask.limit, result, misses) ==>
                r.Ok? && AnsweredAlone(old(s).w, old(s).cache, s, k.ask, r.value)
    {
      if Quiet(env) {
        MissingFacts(s.w, s.cache, Coins(k.ask), k.ask.limit);
      }
      var shared := Share(id, misses, env, k);
      if shared.Err? {
        return shared;
      }
      ghost var landed := s;
      var merged := Merge(id, result, shared.value, env, k);
      if Quiet(env) && FlightOf(k) !in old(s).flights && LookedAt(old(s).w, old(s).cache, Coins(k.ask), k.ask.limit, result, misses) {
        MergedAlone(old(s).w, old(s).cache, landed, k.ask, result, shared.value);
        AloneLater(old(s).w, old(s).cache, landed, s, k.ask, merged);
      }
      r := Ok(merged);
    }

    /** GetPriceHistories: every entry of the answer is its coin's newest points on a table that was
        current when they were read, at most 30 s before they were taken from the cache. */
    method GetPriceHistories(p: nat, coins: seq<CoinId>, limit: int, env: Env) returns (r: Result<map<CoinId, seq<PricePoint>>>)
      requires Reachable(s) && RowsOk(env)
      modifies this
      ensures r.Ok? ==> Reachable(s) && Answered(|old(s).served|, |old(s).asked|, Many(coins, limit), r.value)
      ensures r.Ok? ==> forall c :: c in r.value ==> Recent(s.w, c, limit, r.value[c])
      ensures r.Ok? ==> Covering(s, |old(s).served|, Many(coins, limit), r.value)
      ensures Quiet(env) && NoFlight(old(s), p, Many(coins, limit)) ==> r.Ok? && AnsweredAlone(old(s).w, old(s).cache, s, Many(coins, limit), r.value)
      ensures r.Err? ==>
                || !env.dbOk || ThrownOut(|old(s).asked|, s, env.others(4, 0)) || LeftWaiting(|old(s).asked|, s, env.others(4, 0))
    {
      r := Ask(p, Many(coins, limit), env);
      if r.Ok? {
        AnswerIsRecent(s, |old(s).served|, Many(coins, limit), r.value);
        AnswerCovers(s, |old(s).served|, Many(coins, limit), r.value);
      }
    }

    /** GetPriceHistory: the same for one coin. */
    method GetPriceHistory(p: nat, coin: CoinId, limit: int, env: Env) returns (r: Result<seq<PricePoint>>)
      requires Reachable(s) && RowsOk(env)
      modifies this
      ensures r.Ok? ==> Reachable(s) && Recent(s.w, coin, limit, r.value)
      ensures Quiet(env) && NoFlight(old(s), p, One(coin, limit)) ==> r.Ok? && AnsweredAlone(old(s).w, old(s).cache, s, One(coin, limit), map[coin := r.value])
      ensures r.Err? ==>
                || !env.dbOk || ThrownOut(|old(s).asked|, s, env.others(4, 0)) || LeftWaiting(|old(s).asked|, s, env.others(4, 0))
    {
      var m := Ask(p, One(coin, limit), env);
      if m.Err? {
        return Err(m.error);
      }
      OneIsRecent(s, |old(s).served|, coin, limit, m.value);
      if Quiet(env) && NoFlight(old(s), p, One(coin, limit)) {
        OneAlone(old(s).w, old(s).cache, s, coin, limit, m.value);
      }
      r := Ok(Lookup(m.value, coin));
    }

    /** for k, v := range sfRes { result[k] = v } */
    method Merge(id: nat, result: map<CoinId, seq<PricePoint>>, shared: map<CoinId, seq<PricePoint>>, env: Env, ghost k: Call)
      returns (out: map<CoinId, seq<PricePoint>>)
      requires HasLanded(id, k, shared) && result == View(k.hits) && AllPresent(k.hits)
      modifies this
      ensures old(s).served <= s.served && Reachable(s) && Answered(|old(s).served|, id, k.ask, out) && out == result + shared
      ensures Quiet(env) ==> s.w == old(s).w && s.cache == old(s).cache
    {
      Interfere(id, env.others(7, 0), s.calls[id]);
      ViewMerged(k.hits, s.calls[id].stage.value);
      out := result + shared;
      Exec(Return(id));
      assert s.served[|s.served| - 1].call == id;
    }
  }

  ghost predicate AllPresent(m: map<CoinId, Got>) { forall c :: c in m ==> m[c].present }

  /** The points are the direct query's, price and instant of the coin's latest rows with the latest
      first, on a table that was current when they were read; from the cache they were taken at most 30 s
      after they were set. */
  ghost predicate Recent(w: World, c: CoinId, limit: int, points: seq<PricePoint>) {
    exists g :: GotOk(w, c, limit, g) && g.points == points && ReadFrom(w, c, limit, g)
  }

  ghost predicate ReadFrom(w: World, c: CoinId, limit: int, g: Got) {
    && WasCurrent(w, g.version, g.readAt) && LatestPoints(w.versions[g.version], c, limit, g.points)
    && (g.setAt.Some? ==> g.readAt <= g.setAt.value <= g.at <= g.setAt.value + 30_000)
  }

  lemma GotIsReadFrom(w: World, c: CoinId, limit: int, g: Got)
    requires Keyed(w) && GotOk(w, c, limit, g)
    ensures ReadFrom(w, c, limit, g) && Recent(w, c, limit, g.points)
  {
    NewestIsLatest(w.versions[g.version], c, limit);
  }

  ghost predicate AnsweredIn(s: State, from: nat, ask: HistoryCache.Ask, value: map<CoinId, seq<PricePoint>>) {
    exists j :: from <= j < |s.served| && s.served[j].ask == ask && View(s.served[j].answer) == value
  }

  lemma ServedIsOk(s: State, j: nat)
    requires Reachable(s) && j < |s.served|
    ensures HistoryTheorems.ServeOk(s.w, s.asked, s.served[j]) && Keyed(s.w)
  {
    ReachableFacts(s);
    var t, acts :| UniqueIds(t) && Run(Init(t), acts, s);
    HistoryTheorems.InitInv(t);
    HistoryTheorems.RunKeepsInv(Init(t), acts, s);
  }

  lemma OneIsRecent(s: State, from: nat, c: CoinId, limit: int, value: map<CoinId, seq<PricePoint>>)
    requires Reachable(s) && AnsweredIn(s, from, One(c, limit), value)
    ensures Recent(s.w, c, limit, Lookup(value, c))
  {
    var j :| from <= j < |s.served| && s.served[j].ask == One(c, limit) && View(s.served[j].answer) == value;
    ServedIsOk(s, j);
    assert c in Coins(One(c, limit));
    GotIsReadFrom(s.w, c, limit, s.served[j].answer[c]);
  }

  /** The answer has no other coins, and every requested coin without an entry had no points. */
  ghost predicate CoversAll(w: World, ask: HistoryCache.Ask, value: map<CoinId, seq<PricePoint>>) {
    && (forall c :: c in value ==> c in Coins(ask))
    && (forall c :: c in Coins(ask) ==> Recent(w, c, ask.limit, Lookup(value, c)))
  }

  /** Unless the key of the flight it used is ambiguous, the answer covers the request. */
  ghost predicate Covering(s: State, from: nat, ask: HistoryCache.Ask, value: map<CoinId, seq<PricePoint>>) {
    exists j :: && from <= j < |s.served| && s.served[j].ask == ask
                && (HistoryTheorems.Clear(ask, s.served[j].misses, s.served[j].from) ==> CoversAll(s.w, ask, value))
  }

  lemma ServeCovers(w: World, asked: seq<HistoryCache.Ask>, v: Serve)
    requires Keyed(w) && HistoryTheorems.ServeOk(w, asked, v) && HistoryTheorems.Clear(v.ask, v.misses, v.from)
    ensures CoversAll(w, v.ask, View(v.answer))
  {
    forall c | c in Coins(v.ask) ensures Recent(w, c, v.ask.limit, Lookup(View(v.answer), c)) {
      assert c in v.answer;
      GotIsReadFrom(w, c, v.ask.limit, v.answer[c]);
    }
  }

  lemma AnswerCovers(s: State, from: nat, ask: HistoryCache.Ask, value: map<CoinId, seq<PricePoint>>)
    requires Reachable(s) && AnsweredIn(s, from, ask, value)
    ensures Covering(s, from, ask, value)
  {
    var j :| from <= j < |s.served| && s.served[j].ask == ask && View(s.served[j].answer) == value;
    ServedIsOk(s, j);
    if HistoryTheorems.Clear(ask, s.served[j].misses, s.served[j].from) {
      ServeCovers(s.w, s.asked, s.served[j]);
    }
  }

  lemma AnswerIsRecent(s: State, from: nat, ask: HistoryCache.Ask, value: map<CoinId, seq<PricePoint>>)
    requires Reachable(s) && AnsweredIn(s, from, ask, value)
    ensures forall c :: c in value ==> Recent(s.w, c, ask.limit, value[c])
  {
    var j :| from <= j < |s.served| && s.served[j].ask == ask && View(s.served[j].answer) == value;
    ServedIsOk(s, j);
    forall c | c in value ensures Recent(s.w, c, ask.limit, value[c]) {
      GotIsReadFrom(s.w, c, ask.limit, s.served[j].answer[c]);
    }
  }

  lemma SetsAreView(m: map<CoinId, Got>)
    ensures ToSet(m) == View(m).Keys
  {
  }

  lemma OneView(s: State, x: Flight)
    requires |s.w.versions| > 0 && x.ask.One? && x.still != [] && forall c :: c in x.still ==> c == x.ask.coin
    ensures View(Results(s, x)) == map[x.ask.coin := Newest(Current(s), x.ask.coin, x.ask.limit)]
  {
    assert x.still[0] in x.still;
  }

  /** The part of res outside todo has been copied over inner. */
  ghost predicate Copied<V>(out: map<CoinId, V>, inner: map<CoinId, V>, res: map<CoinId, V>, todo: set<CoinId>) {
    && todo <= res.Keys
    && out.Keys == inner.Keys + (res.Keys - todo)
    && forall c :: c in out ==> out[c] == if c in res && c !in todo then res[c] else inner[c]
  }

  lemma CopyOne<V>(out: map<CoinId, V>, inner: map<CoinId, V>, res: map<CoinId, V>, todo: set<CoinId>, c: CoinId)
    requires Copied(out, inner, res, todo) && c in todo
    ensures Copied(out[c := res[c]], inner, res, todo - {c})
  {
  }

  lemma CopiedAll<V>(out: map<CoinId, V>, inner: map<CoinId, V>, res: map<CoinId, V>)
    requires Copied(out, inner, res, {})
    ensures out == inner + res
  {
  }
}
