/** The cached history queries of internal/query/cached_repo.go under a changing table: any number of
    GetPriceHistories and GetPriceHistory calls, in any number of API processes, look up and set
    entries that live 30 s, share flights, and query price_history while the projector adds to it.
    Nothing deletes a history entry before it expires, so an answer may come from an older table. */
module HistoryCache {
  import opened Market
  import opened ReadModel
  import CacheKeys
  import Ordering

  /** Thirty seconds, in milliseconds. */
  const TTL: int := 30_000

  type Table = seq<HistoryRow>

  // ---------- the clock and the table's versions ----------

  /** Version v of the table became current at since[v]; the last one is current. */
  datatype World = World(now: int, versions: seq<Table>, since: seq<int>)

  ghost predicate WorldOk(w: World) {
    && |w.versions| == |w.since| > 0 && w.since[|w.since| - 1] <= w.now
    && (forall i, j :: 0 <= i < j < |w.since| ==> w.since[i] <= w.since[j])
  }

  /** Version v was the table at instant t. */
  ghost predicate WasCurrent(w: World, v: nat, t: int) {
    && v < |w.versions| && |w.since| == |w.versions| && w.since[v] <= t <= w.now
    && (v + 1 < |w.versions| ==> t <= w.since[v + 1])
  }

  function Changed(w: World, t: Table): World { World(w.now, w.versions + [t], w.since + [w.now]) }

  function Ticked(w: World, dt: nat): World { World(w.now + dt, w.versions, w.since) }

  // ---------- what callers hold ----------

  /** Points for one coin: whether the answer has an entry for it (the batch query has none for a coin
      without rows); the version they were read from, when, by a flight opened when; when they were
      set, if they came from the cache; and when the holder got them. */
  datatype Got = Got(points: seq<PricePoint>, present: bool, version: nat, readAt: int, openedAt: int, setAt: Option<int>, at: int)

  datatype Entry = Entry(coin: CoinId, limit: int, points: seq<PricePoint>, version: nat, readAt: int, openedAt: int, setAt: int)

  /** The points are the direct query's on a table that was current when they were read; taken from
      the cache they were taken while the entry lived. */
  ghost predicate GotOk(w: World, c: CoinId, limit: int, g: Got) {
    && WasCurrent(w, g.version, g.readAt) && g.points == Newest(w.versions[g.version], c, limit)
    && (!g.present ==> g.points == []) && g.openedAt <= g.readAt <= g.at <= w.now
    && (match g.setAt case None => g.at == g.readAt case Some(t) => g.readAt <= t <= g.at <= t + TTL)
  }

  ghost predicate GotsOk(w: World, limit: int, m: map<CoinId, Got>, from: int) {
    forall c :: c in m ==> GotOk(w, c, limit, m[c]) && from <= m[c].at
  }

  ghost predicate EntryOk(w: World, k: string, e: Entry) {
    && k == KeyOf(e.coin, e.limit)
    && WasCurrent(w, e.version, e.readAt) && e.points == Newest(w.versions[e.version], e.coin, e.limit)
    && e.openedAt <= e.readAt <= e.setAt <= w.now
  }

  function KeyOf(c: CoinId, limit: int): string { CacheKeys.HistoryKey(c.text, limit) }

  function Texts(coins: seq<CoinId>): seq<string> {
    seq(|coins|, i requires 0 <= i < |coins| => coins[i].text)
  }

  // ---------- calls and flights ----------

  /** A query: GetPriceHistories for several coins, or GetPriceHistory for one. */
  datatype Ask = Many(coins: seq<CoinId>, limit: int) | One(coin: CoinId, limit: int)

  function Coins(a: Ask): seq<CoinId> { if a.Many? then a.coins else [a.coin] }

  function FlightKey(a: Ask, misses: seq<CoinId>): string {
    match a
    case Many(_, limit) => CacheKeys.HistoriesKey(limit, Texts(misses))
    case One(coin, limit) => KeyOf(coin, limit)
  }

  datatype CallStage = Looking | Waiting(key: string) | Landed(value: map<CoinId, Got>, from: seq<CoinId>)

  /** A call in progress.  `since` is when it started, or when the flight it joined was opened. */
  datatype Call = Call(process: nat, ask: Ask, since: int, pos: nat, hits: map<CoinId, Got>, misses: seq<CoinId>, stage: CallStage)

  datatype FlightId = FlightId(process: nat, key: string)

  datatype FlightStage = Rechecking | Fetched(res: map<CoinId, Got>, todo: set<CoinId>)

  datatype Flight = Flight(ask: Ask, misses: seq<CoinId>, openedAt: int, pos: nat, inner: map<CoinId, Got>, still: seq<CoinId>, stage: FlightStage)

  /** An answer.  `from` are the misses of the flight that completed it, whose leader may have been
      another call. */
  datatype Serve = Serve(call: nat, ask: Ask, misses: seq<CoinId>, from: seq<CoinId>, since: int, answer: map<CoinId, Got>, at: int)

  datatype State = State(
    w: World,
    cache: map<string, Entry>,
    calls: map<nat, Call>,
    flights: map<FlightId, Flight>,
    asked: seq<Ask>,
    served: seq<Serve>)

  function Init(t: Table): State { State(World(0, [t], [0]), map[], map[], map[], [], []) }

  datatype Action =
    | Start(process: nat, ask: Ask)
    | Look(call: nat, ok: bool)
    | Finish(call: nat)
    | Lead(call: nat)
    | Join(call: nat)
    | Recheck(f: FlightId, ok: bool)
    | Query(f: FlightId)
    | Put(f: FlightId, coin: CoinId, took: bool)
    | Land(f: FlightId)
    | Abandon(f: FlightId)
    | Return(call: nat)
    | Evict(key: string)
    | Tick(dt: nat)
    | Change(table: Table)

  predicate Live(s: State, k: string) { k in s.cache && s.w.now <= s.cache[k].setAt + TTL }

  function FromCache(s: State, k: string): Got
    requires k in s.cache
  {
    var e := s.cache[k];
    Got(e.points, true, e.version, e.readAt, e.openedAt, Some(e.setAt), s.w.now)
  }

  function Current(s: State): Table
    requires |s.w.versions| > 0
  {
    s.w.versions[|s.w.versions| - 1]
  }

  function Fresh(s: State, c: CoinId, a: Ask, openedAt: int): Got
    requires |s.w.versions| > 0
  {
    var points := Newest(Current(s), c, a.limit);
    Got(points, a.One? || points != [], |s.w.versions| - 1, s.w.now, openedAt, None, s.w.now)
  }

  /** Every coin has been looked up. */
  predicate Looked(s: State, id: nat) {
    id in s.calls && s.calls[id].stage.Looking? && s.calls[id].pos == |Coins(s.calls[id].ask)|
  }

  function FlightOf(k: Call): FlightId { FlightId(k.process, FlightKey(k.ask, k.misses)) }

  predicate Enabled(s: State, a: Action) {
    match a
    case Start(_, _) => true
    case Look(id, _) => id in s.calls && s.calls[id].stage.Looking? && s.calls[id].pos < |Coins(s.calls[id].ask)|
    case Finish(id) => Looked(s, id) && s.calls[id].misses == []
    case Lead(id) => Looked(s, id) && s.calls[id].misses != [] && FlightOf(s.calls[id]) !in s.flights
    case Join(id) => Looked(s, id) && s.calls[id].misses != [] && FlightOf(s.calls[id]) in s.flights
    case Recheck(f, _) => f in s.flights && s.flights[f].stage.Rechecking? && s.flights[f].pos < |s.flights[f].misses|
    case Query(f) =>
      && f in s.flights && s.flights[f].stage.Rechecking? && s.flights[f].pos == |s.flights[f].misses| && s.flights[f].still != []
      && |s.w.versions| > 0
    case Put(f, c, _) => f in s.flights && s.flights[f].stage.Fetched? && c in s.flights[f].stage.todo && c in s.flights[f].stage.res
    case Land(f) => f in s.flights && Complete(s.flights[f])
    case Abandon(f) => f in s.flights
    case Return(id) => id in s.calls && s.calls[id].stage.Landed?
    case Evict(_) => true
    case Tick(_) => true
    case Change(t) => UniqueIds(t)
  }

  /** The flight has nothing left to do: every miss was found again, or all entries were set. */
  predicate Complete(f: Flight) {
    match f.stage
    case Rechecking => f.pos == |f.misses| && f.still == []
    case Fetched(_, todo) => todo == {}
  }

  /** result[k] = v for every entry of the answer; a coin it has no entry for keeps what it had. */
  function Merged(m: map<CoinId, Got>, more: map<CoinId, Got>): map<CoinId, Got> {
    map c | c in m.Keys + more.Keys :: if c in more && (more[c].present || c !in m) then more[c] else m[c]
  }

  function ValueOf(f: Flight): map<CoinId, Got> {
    match f.stage
    case Rechecking => f.inner
    case Fetched(res, _) => Merged(f.inner, res)
  }

  predicate WaitsFor(k: Call, f: FlightId) { k.stage == Waiting(f.key) && k.process == f.process }

  function Landing(calls: map<nat, Call>, f: FlightId, value: map<CoinId, Got>, from: seq<CoinId>): map<nat, Call> {
    map id | id in calls :: if WaitsFor(calls[id], f) then calls[id].(stage := Landed(value, from)) else calls[id]
  }

  function Leaving(calls: map<nat, Call>, f: FlightId): map<nat, Call> {
    map id | id in calls && !WaitsFor(calls[id], f) :: calls[id]
  }

  function Min(a: int, b: int): int { if a < b then a else b }

  /** One lookup: a hit, or one more miss. */
  function AfterLook(s: State, k: Call, ok: bool): Call
    requires k.pos < |Coins(k.ask)|
  {
    var c := Coins(k.ask)[k.pos];
    var key := KeyOf(c, k.ask.limit);
    if ok && Live(s, key) then k.(pos := k.pos + 1, hits := k.hits[c := FromCache(s, key)])
    else k.(pos := k.pos + 1, misses := k.misses + [c])
  }

  function AfterRecheck(s: State, f: Flight, ok: bool): Flight
    requires f.pos < |f.misses|
  {
    var c := f.misses[f.pos];
    var key := KeyOf(c, f.ask.limit);
    if ok && Live(s, key) then f.(pos := f.pos + 1, inner := f.inner[c := FromCache(s, key)])
    else f.(pos := f.pos + 1, still := f.still + [c])
  }

  /** The rows of one query, for every coin still missing. */
  function Results(s: State, f: Flight): map<CoinId, Got>
    requires |s.w.versions| > 0
  {
    map c | c in f.still :: Fresh(s, c, f.ask, f.openedAt)
  }

  /** What is set afterwards. */
  function ToSet(res: map<CoinId, Got>): set<CoinId> { set c | c in res && res[c].present }

  function Do(s: State, a: Action): State
    requires Enabled(s, a)
  {
    match a
    case Start(p, ask) => s.(calls := s.calls[|s.asked| := Call(p, ask, s.w.now, 0, map[], [], Looking)], asked := s.asked + [ask])
    case Look(id, ok) => s.(calls := s.calls[id := AfterLook(s, s.calls[id], ok)])
    case Finish(id) => s.(calls := s.calls - {id}, served := s.served + [Serve(id, s.calls[id].ask, [], [], s.calls[id].since, s.calls[id].hits, s.w.now)])
    case Lead(id) =>
      var k := s.calls[id];
      s.(flights := s.flights[FlightOf(k) := Flight(k.ask, k.misses, s.w.now, 0, map[], [], Rechecking)],
         calls := s.calls[id := k.(stage := Waiting(FlightOf(k).key))])
    case Join(id) =>
      var k := s.calls[id];
      s.(calls := s.calls[id := k.(stage := Waiting(FlightOf(k).key), since := Min(k.since, s.flights[FlightOf(k)].openedAt))])
    case Recheck(f, ok) => s.(flights := s.flights[f := AfterRecheck(s, s.flights[f], ok)])
    case Query(f) =>
      var x := s.flights[f];
      var res := Results(s, x);
      s.(flights := s.flights[f := x.(stage := Fetched(res, ToSet(res)))])
    case Put(f, c, took) =>
      var x := s.flights[f];
      var g := x.stage.res[c];
      var t := s.(flights := s.flights[f := x.(stage := Fetched(x.stage.res, x.stage.todo - {c}))]);
      if took then t.(cache := s.cache[KeyOf(c, x.ask.limit) := Entry(c, x.ask.limit, g.points, g.version, g.readAt, g.openedAt, s.w.now)])
      else t
    case Land(f) => s.(flights := s.flights - {f}, calls := Landing(s.calls, f, ValueOf(s.flights[f]), s.flights[f].misses))
    case Abandon(f) => s.(flights := s.flights - {f}, calls := Leaving(s.calls, f))
    case Return(id) =>
      var k := s.calls[id];
      s.(calls := s.calls - {id}, served := s.served + [Serve(id, k.ask, k.misses, k.stage.from, k.since, Merged(k.hits, k.stage.value), s.w.now)])
    case Evict(k) => s.(cache := s.cache - {k})
    case Tick(dt) => s.(w := Ticked(s.w, dt))
    case Change(t) => s.(w := Changed(s.w, t))
  }

  ghost predicate Run(s: State, acts: seq<Action>, s': State)
    decreases |acts|
  {
    if acts == [] then s == s'
    else Enabled(s, acts[0]) && Run(Do(s, acts[0]), acts[1..], s')
  }

  // ---------- keys ----------

  ghost predicate SpaceFree(coins: seq<CoinId>) { forall i :: 0 <= i < |coins| ==> ' ' !in coins[i].text }

  ghost predicate Within(p: seq<CoinId>, q: seq<CoinId>) { forall c :: c in p ==> c in q }

  lemma TextMember(p: seq<CoinId>, c: CoinId)
    ensures c in p <==> c.text in Texts(p)
  {
    if c in p {
      var i :| 0 <= i < |p| && p[i] == c;
      assert Texts(p)[i] == c.text;
    }
    if c.text in Texts(p) {
      var i :| 0 <= i < |Texts(p)| && Texts(p)[i] == c.text;
      assert p[i] == c;
    }
  }

  lemma SameTexts(p: seq<CoinId>, q: seq<CoinId>)
    requires multiset(Texts(p)) == multiset(Texts(q))
    ensures forall c :: c in p <==> c in q
  {
    Ordering.SameMembers(Texts(p), Texts(q));
    forall c ensures c in p <==> c in q {
      TextMember(p, c);
      TextMember(q, c);
    }
  }

  function RequestOf(a: Ask, misses: seq<CoinId>): CacheKeys.Request {
    match a
    case Many(_, limit) => CacheKeys.Histories(limit, Texts(misses))
    case One(coin, limit) => CacheKeys.History(coin.text, limit)
  }

  lemma KeyOfRequest(a: Ask, misses: seq<CoinId>)
    ensures CacheKeys.FlightKey(RequestOf(a, misses)) == FlightKey(a, misses)
  {
  }

  /** A shared flight has the joiner's limit and kind, for all ids; without spaces it has the joiner's
      coins as well. */
  lemma SharedKey(a: Ask, p: seq<CoinId>, b: Ask, q: seq<CoinId>)
    requires FlightKey(a, p) == FlightKey(b, q) && p != [] && q != [] && Within(p, Coins(a)) && Within(q, Coins(b))
    ensures a.limit == b.limit && (a.One? <==> b.One?)
    ensures a.One? || (SpaceFree(p) && SpaceFree(q)) ==> forall c :: c in p <==> c in q
  {
    KeyOfRequest(a, p);
    KeyOfRequest(b, q);
    CacheKeys.FamiliesDisjoint(RequestOf(a, p), RequestOf(b, q));
    if a.One? {
      CacheKeys.CacheKeyInjective(RequestOf(a, p), RequestOf(b, q));
      assert p[0] in p && q[0] in q;
    } else {
      assert |Texts(p)| > 0 && |Texts(q)| > 0;
      CacheKeys.HistoriesKeyEqualIff(a.limit, Texts(p), b.limit, Texts(q));
      if SpaceFree(p) && SpaceFree(q) {
        CacheKeys.KeyDeterminesRequest(RequestOf(a, p), RequestOf(b, q));
        SameTexts(p, q);
      }
    }
  }

  lemma EntryIsOwn(c: CoinId, limit: int, e: Entry)
    requires KeyOf(c, limit) == KeyOf(e.coin, e.limit)
    ensures e.coin == c && e.limit == limit
  {
    CacheKeys.CacheKeyInjective(CacheKeys.History(c.text, limit), CacheKeys.History(e.coin.text, e.limit));
  }
}
