/** What every run of the cached history queries guarantees, whatever the table does meanwhile. */
module HistoryTheorems {
  import opened Market
  import opened ReadModel
  import opened HistoryCache
  import Ordering

  // ---------- the world moves on ----------

  ghost predicate Later(w: World, w': World) {
    && |w.versions| == |w.since| && |w'.versions| == |w'.since|
    && w.now <= w'.now && w.versions <= w'.versions && w.since <= w'.since
    && (|w.since| < |w'.since| ==> w.now <= w'.since[|w.since|])
  }

  lemma GotLater(w: World, w': World, c: CoinId, limit: int, g: Got)
    requires Later(w, w') && GotOk(w, c, limit, g)
    ensures GotOk(w', c, limit, g)
  {
    assert w'.versions[g.version] == w.versions[g.version] && w'.since[g.version] == w.since[g.version];
  }

  lemma GotsLater(w: World, w': World, limit: int, m: map<CoinId, Got>, from: int)
    requires Later(w, w') && GotsOk(w, limit, m, from)
    ensures GotsOk(w', limit, m, from)
  {
    forall c | c in m ensures GotOk(w', c, limit, m[c]) {
      GotLater(w, w', c, limit, m[c]);
    }
  }

  lemma EntryLater(w: World, w': World, k: string, e: Entry)
    requires Later(w, w') && EntryOk(w, k, e)
    ensures EntryOk(w', k, e)
  {
    assert w'.versions[e.version] == w.versions[e.version] && w'.since[e.version] == w.since[e.version];
  }

  lemma ChangedIsLater(w: World, t: Table)
    requires WorldOk(w)
    ensures Later(w, Changed(w, t)) && WorldOk(Changed(w, t))
  {
  }

  lemma TickedIsLater(w: World, dt: nat)
    requires WorldOk(w)
    ensures Later(w, Ticked(w, dt)) && WorldOk(Ticked(w, dt))
  {
  }

  // ---------- the invariant ----------

  ghost predicate CacheOk(w: World, cache: map<string, Entry>) { forall k :: k in cache ==> EntryOk(w, k, cache[k]) }

  /** Each of the first n coins is a hit or a miss, and misses are requested coins. */
  ghost predicate Sorted(coins: seq<CoinId>, n: nat, hits: map<CoinId, Got>, misses: seq<CoinId>) {
    && |misses| <= n <= |coins| && Within(misses, coins) && (forall c :: c in hits ==> c in coins)
    && (forall i :: 0 <= i < n ==> coins[i] in hits || coins[i] in misses)
  }

  ghost predicate FlightOk(w: World, id: FlightId, f: Flight) {
    && f.misses != [] && Within(f.misses, Coins(f.ask)) && id.key == FlightKey(f.ask, f.misses) && f.openedAt <= w.now
    && Sorted(f.misses, f.pos, f.inner, f.still) && GotsOk(w, f.ask.limit, f.inner, f.openedAt)
    && (f.stage.Fetched? ==>
          && f.pos == |f.misses| && GotsOk(w, f.ask.limit, f.stage.res, f.openedAt)
          && (forall c :: c in f.stage.res <==> c in f.still))
  }

  ghost predicate FlightsOk(w: World, flights: map<FlightId, Flight>) {
    forall f :: f in flights ==> FlightOk(w, f, flights[f])
  }

  ghost predicate StageOk(w: World, flights: map<FlightId, Flight>, k: Call) {
    match k.stage
    case Looking => true
    case Waiting(key) =>
      var f := FlightOf(k);
      && k.misses != [] && k.pos == |Coins(k.ask)| && key == f.key && f in flights && k.since <= flights[f].openedAt
    case Landed(value, from) =>
      && k.pos == |Coins(k.ask)| && GotsOk(w, k.ask.limit, value, k.since)
      && SharedBy(k.ask, k.misses, from) && (forall c :: c in value <==> c in from)
  }

  /** The flight that answered a call which missed these coins had the call's key. */
  ghost predicate SharedBy(a: Ask, misses: seq<CoinId>, from: seq<CoinId>) {
    && misses != [] && from != [] && Within(misses, Coins(a))
    && (a.Many? ==> FlightKey(a, misses) == FlightKey(Many(from, a.limit), from))
    && (a.One? ==> forall c :: c in from <==> c in misses)
  }

  /** The flight's key leaves no doubt: a single-coin query, one's own misses, or no spaces. */
  ghost predicate Clear(a: Ask, misses: seq<CoinId>, from: seq<CoinId>) {
    a.One? || from == misses || (SpaceFree(misses) && SpaceFree(from))
  }

  ghost predicate CallOk(w: World, asked: seq<Ask>, id: nat, k: Call) {
    && id < |asked| && asked[id] == k.ask && k.since <= w.now
    && Sorted(Coins(k.ask), k.pos, k.hits, k.misses) && GotsOk(w, k.ask.limit, k.hits, k.since)
  }

  ghost predicate CallsOk(s: State) {
    forall id :: id in s.calls ==> CallOk(s.w, s.asked, id, s.calls[id]) && StageOk(s.w, s.flights, s.calls[id])
  }

  ghost predicate TakenBy(m: map<CoinId, Got>, t: int) { forall c :: c in m ==> m[c].at <= t }

  ghost predicate ServeOk(w: World, asked: seq<Ask>, v: Serve) {
    && v.call < |asked| && asked[v.call] == v.ask && v.since <= v.at <= w.now
    && GotsOk(w, v.ask.limit, v.answer, v.since) && TakenBy(v.answer, v.at)
    && (v.from == [] || SharedBy(v.ask, v.misses, v.from))
    && (forall c :: c in v.from ==> c in v.answer) && (forall c :: c in v.answer ==> c in v.from || c in Coins(v.ask))
    && (forall c :: c in Coins(v.ask) && c !in v.misses ==> c in v.answer)
    && |v.misses| <= |Coins(v.ask)| && (v.misses == [] <==> v.from == [])
    && (Clear(v.ask, v.misses, v.from) ==> forall c :: c in v.answer <==> c in Coins(v.ask))
  }

  ghost predicate ServedOk(s: State) {
    forall k :: 0 <= k < |s.served| ==> ServeOk(s.w, s.asked, s.served[k])
  }

  ghost predicate Inv(s: State) {
    && WorldOk(s.w) && CacheOk(s.w, s.cache) && FlightsOk(s.w, s.flights) && CallsOk(s) && ServedOk(s)
  }

  // ---------- the world's own steps ----------

  lemma StageLater(w: World, w': World, flights: map<FlightId, Flight>, k: Call)
    requires Later(w, w') && StageOk(w, flights, k)
    ensures StageOk(w', flights, k)
  {
    if k.stage.Landed? {
      GotsLater(w, w', k.ask.limit, k.stage.value, k.since);
    }
  }

  lemma FlightLater(w: World, w': World, id: FlightId, f: Flight)
    requires Later(w, w') && FlightOk(w, id, f)
    ensures FlightOk(w', id, f)
  {
    GotsLater(w, w', f.ask.limit, f.inner, f.openedAt);
    if f.stage.Fetched? {
      GotsLater(w, w', f.ask.limit, f.stage.res, f.openedAt);
    }
  }

  lemma InvLater(s: State, w': World)
    requires Inv(s) && Later(s.w, w') && WorldOk(w')
    ensures Inv(s.(w := w'))
  {
    forall k | k in s.cache ensures EntryOk(w', k, s.cache[k]) {
      EntryLater(s.w, w', k, s.cache[k]);
    }
    forall f | f in s.flights ensures FlightOk(w', f, s.flights[f]) {
      FlightLater(s.w, w', f, s.flights[f]);
    }
    forall id | id in s.calls ensures CallOk(w', s.asked, id, s.calls[id]) && StageOk(w', s.flights, s.calls[id]) {
      GotsLater(s.w, w', s.calls[id].ask.limit, s.calls[id].hits, s.calls[id].since);
      StageLater(s.w, w', s.flights, s.calls[id]);
    }
    forall k | 0 <= k < |s.served| ensures ServeOk(w', s.asked, s.served[k]) {
      GotsLater(s.w, w', s.served[k].ask.limit, s.served[k].answer, s.served[k].since);
    }
  }

  // ---------- lookups ----------

  lemma HitIsOk(s: State, c: CoinId, limit: int)
    requires WorldOk(s.w) && CacheOk(s.w, s.cache) && Live(s, KeyOf(c, limit))
    ensures GotOk(s.w, c, limit, FromCache(s, KeyOf(c, limit)))
  {
    var e := s.cache[KeyOf(c, limit)];
    assert EntryOk(s.w, KeyOf(c, limit), e);
    EntryIsOwn(c, limit, e);
  }

  lemma MissSorted(coins: seq<CoinId>, n: nat, hits: map<CoinId, Got>, misses: seq<CoinId>)
    requires Sorted(coins, n, hits, misses) && n < |coins|
    ensures Sorted(coins, n + 1, hits, misses + [coins[n]])
  {
  }

  lemma HitSorted(coins: seq<CoinId>, n: nat, hits: map<CoinId, Got>, misses: seq<CoinId>, g: Got)
    requires Sorted(coins, n, hits, misses) && n < |coins|
    ensures Sorted(coins, n + 1, hits[coins[n] := g], misses)
  {
  }

  lemma GotsAdd(w: World, limit: int, m: map<CoinId, Got>, from: int, c: CoinId, g: Got)
    requires GotsOk(w, limit, m, from) && GotOk(w, c, limit, g) && from <= g.at
    ensures GotsOk(w, limit, m[c := g], from)
  {
  }

  /** A hit adds sound points. */
  lemma HitAdds(s: State, limit: int, m: map<CoinId, Got>, from: int, c: CoinId)
    requires WorldOk(s.w) && CacheOk(s.w, s.cache) && Live(s, KeyOf(c, limit)) && GotsOk(s.w, limit, m, from) && from <= s.w.now
    ensures GotsOk(s.w, limit, m[c := FromCache(s, KeyOf(c, limit))], from)
  {
    HitIsOk(s, c, limit);
    GotsAdd(s.w, limit, m, from, c, FromCache(s, KeyOf(c, limit)));
  }

  lemma LookOk(s: State, id: nat, k: Call, ok: bool)
    requires WorldOk(s.w) && CacheOk(s.w, s.cache) && CallOk(s.w, s.asked, id, k) && k.pos < |Coins(k.ask)|
    ensures CallOk(s.w, s.asked, id, AfterLook(s, k, ok))
  {
    var c, key := Coins(k.ask)[k.pos], KeyOf(Coins(k.ask)[k.pos], k.ask.limit);
    if ok && Live(s, key) {
      HitAdds(s, k.ask.limit, k.hits, k.since, c);
      HitSorted(Coins(k.ask), k.pos, k.hits, k.misses, FromCache(s, key));
    } else {
      MissSorted(Coins(k.ask), k.pos, k.hits, k.misses);
    }
  }

  lemma RecheckOk(s: State, id: FlightId, f: Flight, ok: bool)
    requires WorldOk(s.w) && CacheOk(s.w, s.cache) && FlightOk(s.w, id, f) && f.stage.Rechecking? && f.pos < |f.misses|
    ensures FlightOk(s.w, id, AfterRecheck(s, f, ok)) && AfterRecheck(s, f, ok).openedAt == f.openedAt
  {
    var c, key := f.misses[f.pos], KeyOf(f.misses[f.pos], f.ask.limit);
    if ok && Live(s, key) {
      HitAdds(s, f.ask.limit, f.inner, f.openedAt, c);
      HitSorted(f.misses, f.pos, f.inner, f.still, FromCache(s, key));
    } else {
      MissSorted(f.misses, f.pos, f.inner, f.still);
    }
  }

  // ---------- frames ----------

  /** One call changes and nothing else. */
  lemma CallFrame(s: State, s': State, id: nat, k: Call)
    requires CallsOk(s) && s'.w == s.w && s'.asked == s.asked && s'.flights == s.flights && s'.calls == s.calls[id := k]
    requires CallOk(s.w, s.asked, id, k) && StageOk(s.w, s.flights, k)
    ensures CallsOk(s')
  {
  }

  /** One flight changes, not when it was opened. */
  lemma FlightFrame(s: State, s': State, id: FlightId, f: Flight)
    requires FlightsOk(s.w, s.flights) && CallsOk(s) && id in s.flights
    requires s'.w == s.w && s'.asked == s.asked && s'.calls == s.calls && s'.flights == s.flights[id := f]
    requires FlightOk(s.w, id, f) && f.openedAt == s.flights[id].openedAt
    ensures FlightsOk(s'.w, s'.flights) && CallsOk(s')
  {
    forall k | k in s'.calls ensures StageOk(s'.w, s'.flights, s'.calls[k]) {
      assert StageOk(s.w, s.flights, s.calls[k]);
    }
  }

  // ---------- the steps of a call ----------

  lemma ServedGrow(s: State, s': State, ask: Ask)
    requires ServedOk(s) && s'.w == s.w && s'.asked == s.asked + [ask] && s'.served == s.served
    ensures ServedOk(s')
  {
    forall k | 0 <= k < |s'.served| ensures ServeOk(s'.w, s'.asked, s'.served[k]) {
      assert ServeOk(s.w, s.asked, s.served[k]);
      assert s'.asked[s.served[k].call] == s.asked[s.served[k].call];
    }
  }

  lemma NewCallOk(s: State, p: nat, ask: Ask)
    ensures CallOk(s.w, s.asked + [ask], |s.asked|, Call(p, ask, s.w.now, 0, map[], [], Looking))
  {
  }

  lemma StepStart(s: State, p: nat, ask: Ask)
    requires Inv(s)
    ensures Inv(Do(s, Start(p, ask)))
  {
    var s' := Do(s, Start(p, ask));
    NewCallOk(s, p, ask);
    forall id | id in s'.calls ensures CallOk(s'.w, s'.asked, id, s'.calls[id]) && StageOk(s'.w, s'.flights, s'.calls[id]) {
      if id != |s.asked| {
        assert CallOk(s.w, s.asked, id, s.calls[id]);
        assert s'.asked[id] == s.asked[id];
      }
    }
    ServedGrow(s, s', ask);
  }

  lemma StepLook(s: State, id: nat, ok: bool)
    requires Inv(s) && Enabled(s, Look(id, ok))
    ensures Inv(Do(s, Look(id, ok)))
  {
    LookOk(s, id, s.calls[id], ok);
    CallFrame(s, Do(s, Look(id, ok)), id, AfterLook(s, s.calls[id], ok));
  }

  /** A serve of what a call holds. */
  lemma ServeFrame(s: State, s': State, id: nat, v: Serve)
    requires Inv(s) && s'.w == s.w && s'.asked == s.asked && s'.flights == s.flights && s'.cache == s.cache
    requires s'.calls == s.calls - {id} && s'.served == s.served + [v] && ServeOk(s.w, s.asked, v)
    ensures Inv(s')
  {
    forall k | 0 <= k < |s'.served| ensures ServeOk(s'.w, s'.asked, s'.served[k]) {
      assert k < |s.served| ==> s'.served[k] == s.served[k];
    }
  }

  lemma StepFinish(s: State, id: nat)
    requires Inv(s) && Enabled(s, Finish(id))
    ensures Inv(Do(s, Finish(id)))
  {
    var k := s.calls[id];
    assert CallOk(s.w, s.asked, id, k);
    assert forall c :: c in Coins(k.ask) ==> c in k.hits;
    ServeFrame(s, Do(s, Finish(id)), id, Serve(id, k.ask, [], [], k.since, k.hits, s.w.now));
  }

  lemma MergedGots(w: World, limit: int, m: map<CoinId, Got>, more: map<CoinId, Got>, from: int)
    requires GotsOk(w, limit, m, from) && GotsOk(w, limit, more, from)
    ensures GotsOk(w, limit, Merged(m, more), from)
  {
  }

  lemma ClearIsOwn(a: Ask, misses: seq<CoinId>, from: seq<CoinId>)
    requires SharedBy(a, misses, from) && Clear(a, misses, from)
    ensures forall c :: c in from <==> c in misses
  {
    if a.Many? && from != misses {
      SharedKey(a, misses, Many(from, a.limit), from);
    }
  }

  /** Which coins a landed call answers for. */
  lemma MergedCoins(k: Call, m: map<CoinId, Got>)
    requires Sorted(Coins(k.ask), |Coins(k.ask)|, k.hits, k.misses) && k.stage.Landed? && m == Merged(k.hits, k.stage.value)
    requires SharedBy(k.ask, k.misses, k.stage.from) && forall c :: c in k.stage.value <==> c in k.stage.from
    ensures forall c :: c in m <==> c in k.hits || c in k.stage.from
    ensures forall c :: c in Coins(k.ask) && c !in k.misses ==> c in m
    ensures Clear(k.ask, k.misses, k.stage.from) ==> forall c :: c in m <==> c in Coins(k.ask)
  {
    if Clear(k.ask, k.misses, k.stage.from) {
      ClearIsOwn(k.ask, k.misses, k.stage.from);
    }
    forall c ensures c in Coins(k.ask) <==> c in k.hits || c in k.misses {
      AllSorted(Coins(k.ask), k.hits, k.misses, c);
    }
  }

  lemma MergedOk(w: World, asked: seq<Ask>, id: nat, k: Call)
    requires CallOk(w, asked, id, k) && k.stage.Landed? && StageOk(w, map[], k)
    ensures ServeOk(w, asked, Serve(id, k.ask, k.misses, k.stage.from, k.since, Merged(k.hits, k.stage.value), w.now))
  {
    MergedGots(w, k.ask.limit, k.hits, k.stage.value, k.since);
    MergedCoins(k, Merged(k.hits, k.stage.value));
  }

  lemma StepReturn(s: State, id: nat)
    requires Inv(s) && Enabled(s, Return(id))
    ensures Inv(Do(s, Return(id)))
  {
    var k := s.calls[id];
    assert CallOk(s.w, s.asked, id, k) && StageOk(s.w, s.flights, k);
    MergedOk(s.w, s.asked, id, k);
    ServeFrame(s, Do(s, Return(id)), id, Serve(id, k.ask, k.misses, k.stage.from, k.since, Merged(k.hits, k.stage.value), s.w.now));
  }

  lemma StepJoin(s: State, id: nat)
    requires Inv(s) && Enabled(s, Join(id))
    ensures Inv(Do(s, Join(id)))
  {
    var k, k' := s.calls[id], Do(s, Join(id)).calls[id];
    assert CallOk(s.w, s.asked, id, k);
    assert FlightOf(k') == FlightOf(k);
    CallFrame(s, Do(s, Join(id)), id, k');
  }

  lemma OpenFlight(s: State, s': State, f: FlightId, x: Flight)
    requires FlightsOk(s.w, s.flights) && CallsOk(s) && f !in s.flights && FlightOk(s.w, f, x)
    requires s' == s.(flights := s.flights[f := x])
    ensures FlightsOk(s'.w, s'.flights) && CallsOk(s')
  {
    forall k | k in s'.calls ensures StageOk(s'.w, s'.flights, s'.calls[k]) {
      assert StageOk(s.w, s.flights, s.calls[k]);
    }
  }

  lemma StepLead(s: State, id: nat)
    requires Inv(s) && Enabled(s, Lead(id))
    ensures Inv(Do(s, Lead(id)))
  {
    var k := s.calls[id];
    var s' := Do(s, Lead(id));
    var x := Flight(k.ask, k.misses, s.w.now, 0, map[], [], Rechecking);
    assert CallOk(s.w, s.asked, id, k);
    var m := s.(flights := s.flights[FlightOf(k) := x]);
    OpenFlight(s, m, FlightOf(k), x);
    assert FlightOf(s'.calls[id]) == FlightOf(k);
    CallFrame(m, s', id, s'.calls[id]);
  }

  // ---------- the steps of a flight ----------

  lemma StepRecheck(s: State, f: FlightId, ok: bool)
    requires Inv(s) && Enabled(s, Recheck(f, ok))
    ensures Inv(Do(s, Recheck(f, ok)))
  {
    RecheckOk(s, f, s.flights[f], ok);
    FlightFrame(s, Do(s, Recheck(f, ok)), f, AfterRecheck(s, s.flights[f], ok));
  }

  lemma QueriedOk(s: State, f: Flight)
    requires WorldOk(s.w) && f.openedAt <= s.w.now
    ensures GotsOk(s.w, f.ask.limit, Results(s, f), f.openedAt)
  {
  }

  lemma StepQuery(s: State, f: FlightId)
    requires Inv(s) && Enabled(s, Query(f))
    ensures Inv(Do(s, Query(f)))
  {
    var s' := Do(s, Query(f));
    assert FlightOk(s.w, f, s.flights[f]);
    QueriedOk(s, s.flights[f]);
    FlightFrame(s, s', f, s'.flights[f]);
  }

  lemma PutEntry(w: World, c: CoinId, limit: int, g: Got)
    requires GotOk(w, c, limit, g)
    ensures EntryOk(w, KeyOf(c, limit), Entry(c, limit, g.points, g.version, g.readAt, g.openedAt, w.now))
  {
  }

  lemma CachePut(w: World, cache: map<string, Entry>, k: string, e: Entry)
    requires CacheOk(w, cache) && EntryOk(w, k, e)
    ensures CacheOk(w, cache[k := e])
  {
  }

  lemma LessToSet(w: World, id: FlightId, f: Flight, c: CoinId)
    requires FlightOk(w, id, f) && f.stage.Fetched?
    ensures FlightOk(w, id, f.(stage := Fetched(f.stage.res, f.stage.todo - {c})))
  {
  }

  lemma StepPut(s: State, f: FlightId, c: CoinId, took: bool)
    requires Inv(s) && Enabled(s, Put(f, c, took))
    ensures Inv(Do(s, Put(f, c, took)))
  {
    var s' := Do(s, Put(f, c, took));
    var x := s.flights[f];
    assert FlightOk(s.w, f, x);
    assert GotOk(s.w, c, x.ask.limit, x.stage.res[c]);
    PutEntry(s.w, c, x.ask.limit, x.stage.res[c]);
    LessToSet(s.w, f, x, c);
    FlightFrame(s, s'.(cache := s.cache), f, s'.flights[f]);
    if took {
      CachePut(s.w, s.cache, KeyOf(c, x.ask.limit), s'.cache[KeyOf(c, x.ask.limit)]);
    }
  }

  lemma AllSorted(coins: seq<CoinId>, hits: map<CoinId, Got>, misses: seq<CoinId>, c: CoinId)
    requires Sorted(coins, |coins|, hits, misses)
    ensures c in coins <==> c in hits || c in misses
  {
    if c in coins {
      var i :| 0 <= i < |coins| && coins[i] == c;
    }
  }

  lemma ValueOk(w: World, id: FlightId, f: Flight)
    requires FlightOk(w, id, f) && Complete(f)
    ensures GotsOk(w, f.ask.limit, ValueOf(f), f.openedAt)
    ensures forall c :: c in ValueOf(f) <==> c in f.misses
  {
    if f.stage.Fetched? {
      MergedGots(w, f.ask.limit, f.inner, f.stage.res, f.openedAt);
    }
    forall c ensures c in ValueOf(f) <==> c in f.misses {
      AllSorted(f.misses, f.inner, f.still, c);
    }
  }

  /** A waiting call gets an answer with its own limit, no older than `since`, for exactly the misses of
      a flight with its own key. */
  lemma LandedOk(s: State, f: FlightId, id: nat)
    requires Inv(s) && Enabled(s, Land(f)) && id in s.calls && WaitsFor(s.calls[id], f)
    ensures StageOk(s.w, map[], s.calls[id].(stage := Landed(ValueOf(s.flights[f]), s.flights[f].misses)))
  {
    var k, x := s.calls[id], s.flights[f];
    assert CallOk(s.w, s.asked, id, k) && StageOk(s.w, s.flights, k) && FlightOk(s.w, f, x);
    assert FlightOf(k) == f;
    ValueOk(s.w, f, x);
    SharedKey(k.ask, k.misses, x.ask, x.misses);
  }

  lemma StayOk(s: State, f: FlightId, id: nat)
    requires CallsOk(s) && id in s.calls && !WaitsFor(s.calls[id], f)
    ensures StageOk(s.w, s.flights - {f}, s.calls[id])
  {
    assert StageOk(s.w, s.flights, s.calls[id]);
  }

  lemma StepLand(s: State, f: FlightId)
    requires Inv(s) && Enabled(s, Land(f))
    ensures Inv(Do(s, Land(f)))
  {
    var s' := Do(s, Land(f));
    forall id | id in s'.calls ensures CallOk(s'.w, s'.asked, id, s'.calls[id]) && StageOk(s'.w, s'.flights, s'.calls[id]) {
      assert CallOk(s.w, s.asked, id, s.calls[id]);
      if WaitsFor(s.calls[id], f) {
        LandedOk(s, f, id);
      } else {
        StayOk(s, f, id);
      }
    }
  }

  lemma StepAbandon(s: State, f: FlightId)
    requires Inv(s) && Enabled(s, Abandon(f))
    ensures Inv(Do(s, Abandon(f)))
  {
    var s' := Do(s, Abandon(f));
    forall id | id in s'.calls ensures CallOk(s'.w, s'.asked, id, s'.calls[id]) && StageOk(s'.w, s'.flights, s'.calls[id]) {
      StayOk(s, f, id);
    }
  }

  // ---------- every run ----------

  lemma StepEvict(s: State, key: string)
    requires Inv(s)
    ensures Inv(Do(s, Evict(key)))
  {
    var s' := Do(s, Evict(key));
    assert CacheOk(s'.w, s'.cache);
    assert CallsOk(s') && ServedOk(s');
  }

  lemma StepTick(s: State, dt: nat)
    requires Inv(s)
    ensures Inv(Do(s, Tick(dt)))
  {
    TickedIsLater(s.w, dt);
    InvLater(s, Ticked(s.w, dt));
  }

  lemma StepChange(s: State, t: Table)
    requires Inv(s) && Enabled(s, Change(t))
    ensures Inv(Do(s, Change(t)))
  {
    ChangedIsLater(s.w, t);
    InvLater(s, Changed(s.w, t));
  }

  lemma StepWorld(s: State, a: Action)
    requires Inv(s) && Enabled(s, a) && (a.Evict? || a.Tick? || a.Change?)
    ensures Inv(Do(s, a))
  {
    match a {
      case Evict(key) => StepEvict(s, key);
      case Tick(dt) => StepTick(s, dt);
      case Change(t) => StepChange(s, t);
    }
  }

  predicate OfCall(a: Action) { a.Look? || a.Finish? || a.Lead? || a.Join? || a.Return? }

  lemma StepCall(s: State, a: Action)
    requires Inv(s) && Enabled(s, a) && OfCall(a)
    ensures Inv(Do(s, a))
  {
    match a {
      case Look(id, ok) => StepLook(s, id, ok);
      case Finish(id) => StepFinish(s, id);
      case Lead(id) => StepLead(s, id);
      case Join(id) => StepJoin(s, id);
      case Return(id) => StepReturn(s, id);
    }
  }

  predicate OfFlight(a: Action) { a.Recheck? || a.Query? || a.Put? || a.Land? || a.Abandon? }

  lemma StepFlight(s: State, a: Action)
    requires Inv(s) && Enabled(s, a) && OfFlight(a)
    ensures Inv(Do(s, a))
  {
    match a {
      case Recheck(f, ok) => StepRecheck(s, f, ok);
      case Query(f) => StepQuery(s, f);
      case Put(f, c, took) => StepPut(s, f, c, took);
      case Land(f) => StepLand(s, f);
      case Abandon(f) => StepAbandon(s, f);
    }
  }

  lemma StepKeepsInv(s: State, a: Action)
    requires Inv(s) && Enabled(s, a)
    ensures Inv(Do(s, a))
  {
    if a.Start? {
      StepStart(s, a.process, a.ask);
    } else if OfCall(a) {
      StepCall(s, a);
    } else if OfFlight(a) {
      StepFlight(s, a);
    } else {
      StepWorld(s, a);
    }
  }

  lemma {:induction false} RunKeepsInv(s: State, acts: seq<Action>, s': State)
    requires Inv(s) && Run(s, acts, s')
    ensures Inv(s')
    decreases |acts|
  {
    if acts != [] {
      StepKeepsInv(s, acts[0]);
      RunKeepsInv(Do(s, acts[0]), acts[1..], s');
    }
  }

  lemma InitInv(t: Table)
    ensures Inv(Init(t))
  {
  }

  /** Every served history is the direct query's answer on a table that was current at the instant the
      points were read.  Points read by this call's own flight were read while the call or its flight was
      open; points from the cache were taken, in that time, at most 30 s after they were set by the
      flight that read them.  Their age when served is therefore at most the open time of the call and
      its flight, plus 30 s and the open time of the flight that set them. */
  lemma ServedHistoryIsRecent(t: Table, acts: seq<Action>, s: State, k: nat, c: CoinId)
    requires Run(Init(t), acts, s) && k < |s.served| && c in s.served[k].answer
    ensures var v := s.served[k];
            var g := v.answer[c];
            && WasCurrent(s.w, g.version, g.readAt) && g.points == Newest(s.w.versions[g.version], c, v.ask.limit)
            && v.since <= g.at <= v.at
            && (g.setAt.None? ==> g.readAt == g.at && v.at - g.readAt <= v.at - v.since)
            && (g.setAt.Some? ==>
                  && g.openedAt <= g.readAt <= g.setAt.value <= g.at <= g.setAt.value + 30_000
                  && v.at - g.readAt <= (v.at - v.since) + 30_000 + (g.setAt.value - g.openedAt))
  {
    InitInv(t);
    RunKeepsInv(Init(t), acts, s);
    assert ServeOk(s.w, s.asked, s.served[k]);
  }

  /** A history entry answers lookups for thirty seconds after its Set and not a moment longer. */
  lemma EntryLivesThirtySeconds(s: State, f: FlightId, c: CoinId, dt: nat)
    requires Enabled(s, Put(f, c, true))
    ensures var m := Do(Do(s, Put(f, c, true)), Tick(dt)); Live(m, KeyOf(c, s.flights[f].ask.limit)) <==> dt <= 30_000
  {
  }

  /** Whenever the key of the flight it used leaves no doubt, an answer covers exactly the requested
      coins. */
  lemma ServedAnswersTheRequest(t: Table, acts: seq<Action>, s: State, k: nat)
    requires Run(Init(t), acts, s) && k < |s.served| && Clear(s.served[k].ask, s.served[k].misses, s.served[k].from)
    ensures forall c :: c in s.served[k].answer <==> c in Coins(s.served[k].ask)
  {
    InitInv(t);
    RunKeepsInv(Init(t), acts, s);
    assert ServeOk(s.w, s.asked, s.served[k]);
  }

  /** While the table has not changed, the cached queries are the direct ones: every requested coin
      is answered with its newest points, through whatever hits, misses and flights. */
  lemma ServedIsDirectOnUnchangedTable(t: Table, acts: seq<Action>, s: State, k: nat, c: CoinId)
    requires Run(Init(t), acts, s) && (forall i :: 0 <= i < |acts| ==> !acts[i].Change?)
    requires k < |s.served| && Clear(s.served[k].ask, s.served[k].misses, s.served[k].from)
    ensures c in s.served[k].answer <==> c in Coins(s.served[k].ask)
    ensures c in s.served[k].answer ==> s.served[k].answer[c].points == Newest(t, c, s.served[k].ask.limit)
  {
    ServedAnswersTheRequest(t, acts, s, k);
    VersionsKept(Init(t), acts, s);
    if c in s.served[k].answer {
      ServedHistoryIsRecent(t, acts, s, k, c);
    }
  }

  lemma {:induction false} VersionsKept(s: State, acts: seq<Action>, s': State)
    requires Run(s, acts, s') && forall i :: 0 <= i < |acts| ==> !acts[i].Change?
    ensures s'.w.versions == s.w.versions
    decreases |acts|
  {
    if acts != [] {
      VersionsKept(Do(s, acts[0]), acts[1..], s');
    }
  }
}
