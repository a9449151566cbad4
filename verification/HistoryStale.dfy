/** Exactly when a cached history query can still be answered with points that are not the direct
    query's on the current table (internal/query/cached_repo.go). */
module HistoryStale {
  import opened Market
  import opened ReadModel
  import opened HistoryCache
  import opened HistoryTheorems
  import opened HistorySteps
  import CR = CachedRepository
  import CacheKeys
  import KeyCollisions

  // ---------- holding a stale answer ----------

  ghost predicate HasTable(s: State) { |s.w.versions| > 0 }

  /** The answer holds other points for the coin than the direct query on this table. */
  ghost predicate Off(table: Table, c: CoinId, limit: int, m: map<CoinId, Got>) {
    c in m && m[c].points != Newest(table, c, limit)
  }

  /** A query made now brings an entry for the coin, which then overwrites what was held. */
  ghost predicate Refilled(table: Table, a: Ask, c: CoinId) { a.One? || Newest(table, c, a.limit) != [] }

  /** Another list without the coin has the same flight key. */
  ghost predicate Collides(q: seq<CoinId>, c: CoinId, limit: int) {
    exists p :: p != [] && c !in p && FlightKey(Many(p, limit), p) == FlightKey(Many(q, limit), q)
  }

  /** A live entry. */
  ghost predicate EntryHeld(table: Table, s: State, c: CoinId, limit: int) {
    Live(s, KeyOf(c, limit)) && s.cache[KeyOf(c, limit)].points != Newest(table, c, limit)
  }

  /** A flight: what it will bring, or what it has found and will not overwrite. */
  ghost predicate FlightHeld(table: Table, c: CoinId, limit: int, x: Flight) {
    x.ask.limit == limit &&
    match x.stage
    case Rechecking => Off(table, c, limit, x.inner) && x.pos <= |x.misses| && (c in AllStill(x) ==> !Refilled(table, x.ask, c))
    case Fetched(_, _) => Off(table, c, limit, ValueOf(x))
  }

  /** The flight may bring no entry for the coin. */
  ghost predicate Leaves(table: Table, c: CoinId, x: Flight) {
    c in x.misses ==>
      match x.stage
      case Rechecking => c !in x.inner && !Refilled(table, x.ask, c)
      case Fetched(_, _) => c in ValueOf(x) && !ValueOf(x)[c].present
  }

  /** A call that is still looking: a hit that neither a later lookup nor every flight overwrites. */
  ghost predicate LookingHeld(table: Table, c: CoinId, k: Call) {
    Off(table, c, k.ask.limit, k.hits) && k.pos <= |Coins(k.ask)| &&
    (c in AllMisses(k) ==> !Refilled(table, k.ask, c) || (k.ask.Many? && Collides(AllMisses(k), c, k.ask.limit)))
  }

  /** A call: its merged answer, or a hit that its flight may leave alone. */
  ghost predicate CallHeld(table: Table, flights: map<FlightId, Flight>, c: CoinId, limit: int, k: Call) {
    k.ask.limit == limit &&
    match k.stage
    case Looking => LookingHeld(table, c, k)
    case Waiting(_) => Off(table, c, limit, k.hits) && FlightOf(k) in flights && Leaves(table, c, flights[FlightOf(k)])
    case Landed(value, _) => Off(table, c, limit, Merged(k.hits, value))
  }

  /** Some live entry, open flight or unfinished call holds a stale answer for the coin and limit. */
  ghost predicate Held(table: Table, s: State, c: CoinId, limit: int) {
    || EntryHeld(table, s, c, limit)
    || (exists f :: f in s.flights && FlightHeld(table, c, limit, s.flights[f]))
    || (exists id :: id in s.calls && CallHeld(table, s.flights, c, limit, s.calls[id]))
  }

  ghost predicate Stale(table: Table, c: CoinId, limit: int, v: Serve) { v.ask.limit == limit && Off(table, c, limit, v.answer) }

  /** Before the next change of the table some continuation serves a stale answer. */
  ghost predicate ServedStale(table: Table, s: State, c: CoinId, limit: int) {
    exists t, j :: Reaches(s, t) && |s.served| <= j < |t.served| && Stale(table, c, limit, t.served[j])
  }

  // ---------- which keys collide ----------

  lemma TextsOf(p: seq<CoinId>, xs: seq<string>)
    requires |p| == |xs| && forall i :: 0 <= i < |p| ==> p[i].text == xs[i]
    ensures Texts(p) == xs
  {
  }

  lemma CollidesBy(p: seq<CoinId>, q: seq<CoinId>, c: CoinId, limit: int)
    requires p != [] && c !in p && CacheKeys.HistoriesKey(limit, Texts(p)) == CacheKeys.HistoriesKey(limit, Texts(q))
    ensures Collides(q, c, limit)
  {
    assert FlightKey(Many(p, limit), p) == FlightKey(Many(q, limit), q);
  }

  lemma WholeCollides(q: seq<CoinId>, c: CoinId, limit: int)
    requires |q| >= 2 && c in q
    ensures Collides(q, c, limit)
  {
    var w := CoinId(KeyCollisions.Whole(Texts(q)));
    TextsOf([w], [w.text]);
    KeyCollisions.WholeKey(limit, Texts(q));
    TextMember(q, c);
    KeyCollisions.WholeIsLonger(Texts(q), c.text);
    CollidesBy([w], q, c, limit);
  }

  lemma PartsCollide(c: CoinId, a: CoinId, b: CoinId, xs: seq<string>, ys: seq<string>, limit: int)
    requires xs == [a.text, b.text] && ys == [c.text] && a != c && b != c
    requires CacheKeys.HistoriesKey(limit, xs) == CacheKeys.HistoriesKey(limit, ys)
    ensures Collides([c], c, limit)
  {
    TextsOf([a, b], xs);
    TextsOf([c], ys);
    CollidesBy([a, b], [c], c, limit);
  }

  lemma SplitCollides(c: CoinId, limit: int)
    requires KeyCollisions.SplitsSorted(c.text)
    ensures Collides([c], c, limit)
  {
    var i :| KeyCollisions.SplitsAt(c.text, i);
    KeyCollisions.SplitKey(limit, c.text, i);
    PartsCollide(c, CoinId(c.text[..i]), CoinId(c.text[i + 1..]), [c.text[..i], c.text[i + 1..]], [c.text], limit);
  }

  lemma OneText(q: seq<CoinId>)
    requires |q| == 1
    ensures Texts(q) == [q[0].text]
  {
  }

  lemma OtherListSplits(p: seq<CoinId>, q: seq<CoinId>, limit: int)
    requires p != [] && |q| == 1 && FlightKey(Many(q, limit), q) == FlightKey(Many(p, limit), p)
    ensures p == q || KeyCollisions.SplitsSorted(q[0].text)
  {
    OneText(q);
    assert |Texts(p)| == |p|;
    KeyCollisions.OnlySplitting(limit, Texts(p), q[0].text);
    if Texts(p) == [q[0].text] {
      OneText(p);
      assert [p[0].text][0] == [q[0].text][0];
    }
  }

  /** What a caller can see of it: the list has another coin, or its one id falls at a space into two
      ids in sorted order. */
  lemma CollidesIff(q: seq<CoinId>, c: CoinId, limit: int)
    requires q != []
    ensures Collides(q, c, limit) <==> c !in q || |q| >= 2 || KeyCollisions.SplitsSorted(c.text)
  {
    if c in q {
      if |q| >= 2 {
        WholeCollides(q, c, limit);
      } else {
        assert q == [c];
        if KeyCollisions.SplitsSorted(c.text) {
          SplitCollides(c, limit);
        }
        if Collides([c], c, limit) {
          var p :| p != [] && c !in p && FlightKey(Many(p, limit), p) == FlightKey(Many([c], limit), [c]);
          OtherListSplits(p, [c], limit);
        }
      }
    }
  }

  // ---------- what the code's maps keep ----------

  /** Hits have entries; what is to be set has one; a single-coin query always has one. */
  ghost predicate TidyFlight(x: Flight) {
    && CR.AllPresent(x.inner)
    && (x.stage.Fetched? ==>
          && x.stage.todo <= x.stage.res.Keys && (forall c :: c in x.stage.todo ==> x.stage.res[c].present)
          && (x.ask.One? ==> CR.AllPresent(x.stage.res)))
  }

  ghost predicate Tidy(s: State) {
    && (forall id :: id in s.calls ==> CR.AllPresent(s.calls[id].hits))
    && (forall f :: f in s.flights ==> TidyFlight(s.flights[f]))
  }

  lemma TidyCalls(s: State, a: Action)
    requires Tidy(s) && Enabled(s, a)
    ensures forall id :: id in Do(s, a).calls ==> CR.AllPresent(Do(s, a).calls[id].hits)
  {
  }

  lemma TidyRecheck(s: State, x: Flight, ok: bool)
    requires TidyFlight(x) && x.stage.Rechecking? && x.pos < |x.misses|
    ensures TidyFlight(AfterRecheck(s, x, ok))
  {
  }

  lemma TidyQuery(s: State, x: Flight)
    requires TidyFlight(x) && HasTable(s)
    ensures TidyFlight(x.(stage := Fetched(Results(s, x), ToSet(Results(s, x)))))
  {
  }

  lemma TidyFlights(s: State, a: Action)
    requires Tidy(s) && Enabled(s, a)
    ensures forall f :: f in Do(s, a).flights ==> TidyFlight(Do(s, a).flights[f])
  {
    if a.Recheck? {
      TidyRecheck(s, s.flights[a.f], a.ok);
    } else if a.Query? {
      TidyQuery(s, s.flights[a.f]);
    }
  }

  lemma TidyStep(s: State, a: Action)
    requires Tidy(s) && Enabled(s, a)
    ensures Tidy(Do(s, a))
  {
    TidyCalls(s, a);
    TidyFlights(s, a);
  }

  ghost predicate Sound(s: State) { Inv(s) && Tidy(s) && HasTable(s) && forall id :: id in s.calls ==> id < |s.asked| }

  lemma SoundStep(s: State, a: Action)
    requires Sound(s) && Enabled(s, a)
    ensures Sound(Do(s, a))
  {
    StepKeepsInv(s, a);
    TidyStep(s, a);
  }

  lemma {:induction false} SoundAlong(s: State, acts: seq<Action>, t: State)
    requires Sound(s) && Run(s, acts, t)
    ensures Sound(t)
    decreases |acts|
  {
    if acts != [] {
      SoundStep(s, acts[0]);
      SoundAlong(Do(s, acts[0]), acts[1..], t);
    }
  }

  lemma ReachableSound(s: State)
    requires CR.Reachable(s)
    ensures Sound(s)
  {
    var t, acts :| UniqueIds(t) && Run(Init(t), acts, s);
    InitInv(t);
    SoundAlong(Init(t), acts, s);
  }

  // ---------- nothing stale held, nothing stale served ----------

  ghost predicate CallsQuiet(table: Table, s: State, c: CoinId, limit: int) {
    forall id :: id in s.calls ==> !CallHeld(table, s.flights, c, limit, s.calls[id])
  }

  ghost predicate FlightsQuiet(table: Table, s: State, c: CoinId, limit: int) {
    forall f :: f in s.flights ==> !FlightHeld(table, c, limit, s.flights[f])
  }

  ghost predicate Quiet(table: Table, s: State, c: CoinId, limit: int) {
    !EntryHeld(table, s, c, limit) && FlightsQuiet(table, s, c, limit) && CallsQuiet(table, s, c, limit)
  }

  lemma RestOfLooks(k: Call, k': Call)
    requires k.pos < |Coins(k.ask)| && k'.ask == k.ask && k'.pos == k.pos + 1
    ensures k'.misses == k.misses + [Coins(k.ask)[k.pos]] ==> AllMisses(k') == AllMisses(k)
    ensures k'.misses == k.misses ==> |AllMisses(k)| == |AllMisses(k')| + 1
    ensures k'.misses == k.misses ==> forall c :: c in AllMisses(k) <==> c in AllMisses(k') || c == Coins(k.ask)[k.pos]
  {
    assert Coins(k.ask)[k.pos..] == [Coins(k.ask)[k.pos]] + Coins(k.ask)[k.pos + 1..];
  }

  /** What a lookup finds for the coin is current. */
  lemma HitIsCurrent(table: Table, s: State, c: CoinId, limit: int)
    requires !EntryHeld(table, s, c, limit) && Live(s, KeyOf(c, limit))
    ensures FromCache(s, KeyOf(c, limit)).points == Newest(table, c, limit)
  {
  }

  lemma LookHitQuiet(table: Table, k: Call, k': Call, g: Got, c: CoinId)
    requires k.stage.Looking? && k.pos < |Coins(k.ask)| && (forall d :: d in k.hits ==> d in Coins(k.ask))
    requires k' == k.(pos := k.pos + 1, hits := k.hits[Coins(k.ask)[k.pos] := g])
    requires Coins(k.ask)[k.pos] == c ==> g.points == Newest(table, c, k.ask.limit)
    requires !LookingHeld(table, c, k)
    ensures !LookingHeld(table, c, k')
  {
    RestOfLooks(k, k');
    if k.ask.Many? && c in AllMisses(k') {
      CollidesIff(AllMisses(k'), c, k.ask.limit);
      CollidesIff(AllMisses(k), c, k.ask.limit);
    }
    LongCollides(AllMisses(k), c, k.ask.limit);
  }

  lemma LookMissQuiet(table: Table, k: Call, k': Call, c: CoinId)
    requires k.pos < |Coins(k.ask)| && !LookingHeld(table, c, k)
    requires k' == k.(pos := k.pos + 1, misses := k.misses + [Coins(k.ask)[k.pos]])
    ensures !LookingHeld(table, c, k')
  {
    RestOfLooks(k, k');
  }

  lemma LookQuiet(table: Table, s: State, k: Call, ok: bool, c: CoinId)
    requires k.stage.Looking? && k.pos < |Coins(k.ask)| && (forall d :: d in k.hits ==> d in Coins(k.ask))
    requires !EntryHeld(table, s, c, k.ask.limit) && !LookingHeld(table, c, k)
    ensures !LookingHeld(table, c, AfterLook(s, k, ok))
  {
    var d := Coins(k.ask)[k.pos];
    if ok && Live(s, KeyOf(d, k.ask.limit)) {
      if d == c {
        HitIsCurrent(table, s, c, k.ask.limit);
      }
      LookHitQuiet(table, k, AfterLook(s, k, ok), FromCache(s, KeyOf(d, k.ask.limit)), c);
    } else {
      LookMissQuiet(table, k, AfterLook(s, k, ok), c);
    }
  }

  lemma LongCollides(q: seq<CoinId>, c: CoinId, limit: int)
    ensures |q| >= 2 && c in q ==> Collides(q, c, limit)
  {
    if |q| >= 2 && c in q {
      WholeCollides(q, c, limit);
    }
  }

  lemma MissingCollides(k: Call, f: FlightId, x: Flight, w: World, c: CoinId)
    requires FlightOk(w, f, x) && f == FlightOf(k) && Within(k.misses, Coins(k.ask)) && k.misses != []
    ensures x.ask.limit == k.ask.limit && (x.ask.One? <==> k.ask.One?)
    ensures k.ask.Many? && c !in x.misses ==> Collides(k.misses, c, k.ask.limit)
    ensures k.ask.One? ==> forall d :: d in x.misses <==> d in k.misses
  {
    SharedKey(k.ask, k.misses, x.ask, x.misses);
    if k.ask.Many? && c !in x.misses {
      assert FlightKey(Many(x.misses, k.ask.limit), x.misses) == FlightKey(Many(k.misses, k.ask.limit), k.misses);
    }
  }

  /** A hit that no list with this key leaves alone is in every such flight. */
  lemma SharedHasCoin(table: Table, s: State, k: Call, f: FlightId, x: Flight, c: CoinId)
    requires FlightOk(s.w, f, x) && f == FlightOf(k) && Within(k.misses, Coins(k.ask)) && k.misses != []
    requires k.pos == |Coins(k.ask)| && k.stage.Looking? && Off(table, c, k.ask.limit, k.hits) && !LookingHeld(table, c, k)
    ensures x.ask.limit == k.ask.limit && (x.ask.One? <==> k.ask.One?)
    ensures c in x.misses && Refilled(table, x.ask, c)
  {
    MissingCollides(k, f, x, s.w, c);
    assert AllMisses(k) == k.misses;
  }

  lemma AbsentIsEmpty(w: World, limit: int, m: map<CoinId, Got>, from: int, c: CoinId)
    requires GotsOk(w, limit, m, from) && c in m
    ensures !m[c].present ==> m[c].points == []
  {
  }

  /** A flight whose queries would bring the coin, and that holds nothing stale, will bring it. */
  lemma BringsCoin(table: Table, s: State, f: FlightId, x: Flight, c: CoinId)
    requires FlightOk(s.w, f, x) && TidyFlight(x) && c in x.misses && Refilled(table, x.ask, c)
    requires !FlightHeld(table, c, x.ask.limit, x)
    ensures !Leaves(table, c, x)
  {
    if x.stage.Fetched? {
      MergedGots(s.w, x.ask.limit, x.inner, x.stage.res, x.openedAt);
      if c in ValueOf(x) {
        AbsentIsEmpty(s.w, x.ask.limit, ValueOf(x), x.openedAt, c);
      }
    }
  }

  lemma JoinQuiet(table: Table, s: State, k: Call, x: Flight, c: CoinId, limit: int)
    requires FlightOk(s.w, FlightOf(k), x) && TidyFlight(x) && Within(k.misses, Coins(k.ask)) && k.misses != []
    requires k.pos == |Coins(k.ask)| && k.stage.Looking? && !CallHeld(table, s.flights, c, limit, k) && !FlightHeld(table, c, limit, x)
    ensures k.ask.limit == limit && Off(table, c, limit, k.hits) ==> !Leaves(table, c, x)
  {
    if k.ask.limit == limit && Off(table, c, limit, k.hits) {
      SharedHasCoin(table, s, k, FlightOf(k), x, c);
      BringsCoin(table, s, FlightOf(k), x, c);
    }
  }

  lemma RestOfRechecks(x: Flight, x': Flight)
    requires x.pos < |x.misses| && x'.misses == x.misses && x'.pos == x.pos + 1
    ensures x'.still == x.still + [x.misses[x.pos]] ==> AllStill(x') == AllStill(x)
    ensures x'.still == x.still ==> forall c :: c in AllStill(x) <==> c in AllStill(x') || c == x.misses[x.pos]
  {
    assert x.misses[x.pos..] == [x.misses[x.pos]] + x.misses[x.pos + 1..];
  }

  lemma RecheckHitQuiet(table: Table, x: Flight, x': Flight, g: Got, c: CoinId, limit: int)
    requires x.stage.Rechecking? && x.pos < |x.misses| && x' == x.(pos := x.pos + 1, inner := x.inner[x.misses[x.pos] := g])
    requires x.misses[x.pos] == c && x.ask.limit == limit ==> g.points == Newest(table, c, limit)
    requires !FlightHeld(table, c, limit, x)
    ensures !FlightHeld(table, c, limit, x') && (Leaves(table, c, x') ==> Leaves(table, c, x))
  {
    RestOfRechecks(x, x');
  }

  lemma RecheckMissQuiet(table: Table, x: Flight, x': Flight, c: CoinId, limit: int)
    requires x.stage.Rechecking? && x.pos < |x.misses| && x' == x.(pos := x.pos + 1, still := x.still + [x.misses[x.pos]])
    requires !FlightHeld(table, c, limit, x)
    ensures !FlightHeld(table, c, limit, x') && (Leaves(table, c, x') ==> Leaves(table, c, x))
  {
    RestOfRechecks(x, x');
  }

  lemma RecheckQuiet(table: Table, s: State, x: Flight, ok: bool, c: CoinId, limit: int)
    requires x.stage.Rechecking? && x.pos < |x.misses|
    requires !EntryHeld(table, s, c, limit) && !FlightHeld(table, c, limit, x)
    ensures !FlightHeld(table, c, limit, AfterRecheck(s, x, ok))
    ensures Leaves(table, c, AfterRecheck(s, x, ok)) ==> Leaves(table, c, x)
  {
    var d := x.misses[x.pos];
    if ok && Live(s, KeyOf(d, x.ask.limit)) {
      if d == c && x.ask.limit == limit {
        HitIsCurrent(table, s, c, limit);
      }
      RecheckHitQuiet(table, x, AfterRecheck(s, x, ok), FromCache(s, KeyOf(d, x.ask.limit)), c, limit);
    } else {
      RecheckMissQuiet(table, x, AfterRecheck(s, x, ok), c, limit);
    }
  }

  function Queried(s: State, x: Flight): Flight
    requires HasTable(s)
  {
    var res := Results(s, x);
    x.(stage := Fetched(res, ToSet(res)))
  }

  lemma QueryQuiet(table: Table, s: State, f: FlightId, x: Flight, c: CoinId, limit: int)
    requires HasTable(s) && table == Current(s)
    requires FlightOk(s.w, f, x) && TidyFlight(x) && x.stage.Rechecking? && x.pos == |x.misses|
    requires !FlightHeld(table, c, limit, x)
    ensures !FlightHeld(table, c, limit, Queried(s, x))
    ensures Leaves(table, c, Queried(s, x)) ==> Leaves(table, c, x)
  {
    assert AllStill(x) == x.still;
    var res, v := Results(s, x), ValueOf(Queried(s, x));
    assert c in x.still ==> res[c].points == Newest(table, c, x.ask.limit) && (res[c].present <==> Refilled(table, x.ask, c));
    AllSorted(x.misses, x.inner, x.still, c);
  }

  // ---------- the steps of a call ----------

  /** What a step serves is current. */
  ghost predicate ServesNow(table: Table, s: State, t: State, c: CoinId, limit: int) {
    s.served <= t.served && forall j :: |s.served| <= j < |t.served| ==> !Stale(table, c, limit, t.served[j])
  }

  /** One call changes to a quiet one. */
  lemma CallStepQuiet(table: Table, s: State, t: State, id: nat, k: Call, c: CoinId, limit: int)
    requires Quiet(table, s, c, limit) && t.w == s.w && t.cache == s.cache && t.flights == s.flights
    requires t.calls == s.calls[id := k] && !CallHeld(table, s.flights, c, limit, k)
    ensures Quiet(table, t, c, limit)
  {
  }

  lemma StartQuiet(table: Table, s: State, p: nat, ask: Ask, c: CoinId, limit: int)
    requires Sound(s) && Quiet(table, s, c, limit)
    ensures Quiet(table, Do(s, Start(p, ask)), c, limit)
  {
    var t := Do(s, Start(p, ask));
    CallStepQuiet(table, s, t, |s.asked|, t.calls[|s.asked|], c, limit);
  }

  lemma LookStepQuiet(table: Table, s: State, id: nat, ok: bool, c: CoinId, limit: int)
    requires Sound(s) && Quiet(table, s, c, limit) && Enabled(s, Look(id, ok))
    ensures Quiet(table, Do(s, Look(id, ok)), c, limit)
  {
    var k := s.calls[id];
    assert CallOk(s.w, s.asked, id, k) && !CallHeld(table, s.flights, c, limit, k);
    if k.ask.limit == limit {
      LookQuiet(table, s, k, ok, c);
    }
    CallStepQuiet(table, s, Do(s, Look(id, ok)), id, AfterLook(s, k, ok), c, limit);
  }

  lemma FewerCallsQuiet(table: Table, s: State, t: State, c: CoinId, limit: int)
    requires Quiet(table, s, c, limit) && t.w == s.w && t.cache == s.cache && t.flights == s.flights
    requires forall id :: id in t.calls ==> id in s.calls && t.calls[id] == s.calls[id]
    ensures Quiet(table, t, c, limit)
  {
  }

  lemma FinishQuiet(table: Table, s: State, id: nat, c: CoinId, limit: int)
    requires Sound(s) && Quiet(table, s, c, limit) && Enabled(s, Finish(id))
    ensures Quiet(table, Do(s, Finish(id)), c, limit) && ServesNow(table, s, Do(s, Finish(id)), c, limit)
  {
    var k := s.calls[id];
    assert !CallHeld(table, s.flights, c, limit, k) && AllMisses(k) == [];
    FewerCallsQuiet(table, s, Do(s, Finish(id)), c, limit);
  }

  lemma ReturnQuiet(table: Table, s: State, id: nat, c: CoinId, limit: int)
    requires Sound(s) && Quiet(table, s, c, limit) && Enabled(s, Return(id))
    ensures Quiet(table, Do(s, Return(id)), c, limit) && ServesNow(table, s, Do(s, Return(id)), c, limit)
  {
    assert !CallHeld(table, s.flights, c, limit, s.calls[id]);
    FewerCallsQuiet(table, s, Do(s, Return(id)), c, limit);
  }

  lemma JoinStepQuiet(table: Table, s: State, id: nat, c: CoinId, limit: int)
    requires Sound(s) && Quiet(table, s, c, limit) && Enabled(s, Join(id))
    ensures Quiet(table, Do(s, Join(id)), c, limit)
  {
    var k, t := s.calls[id], Do(s, Join(id));
    var x := s.flights[FlightOf(k)];
    assert CallOk(s.w, s.asked, id, k) && FlightOk(s.w, FlightOf(k), x) && !CallHeld(table, s.flights, c, limit, k);
    JoinQuiet(table, s, k, x, c, limit);
    assert FlightOf(t.calls[id]) == FlightOf(k);
    CallStepQuiet(table, s, t, id, t.calls[id], c, limit);
  }

  /** A new flight holds nothing. */
  lemma NewFlightQuiet(table: Table, s: State, t: State, f: FlightId, x: Flight, c: CoinId, limit: int)
    requires Sound(s) && Quiet(table, s, c, limit) && f !in s.flights && x.inner == map[] && x.stage.Rechecking?
    requires t == s.(flights := s.flights[f := x])
    ensures Quiet(table, t, c, limit)
  {
    forall id | id in t.calls ensures !CallHeld(table, t.flights, c, limit, t.calls[id]) {
      assert StageOk(s.w, s.flights, s.calls[id]) && !CallHeld(table, s.flights, c, limit, s.calls[id]);
    }
  }

  lemma LeadFlightOk(s: State, id: nat, k: Call)
    requires CallOk(s.w, s.asked, id, k) && k.misses != []
    ensures FlightOk(s.w, FlightOf(k), NewFlight(k.ask, k.misses, s.w.now)) && TidyFlight(NewFlight(k.ask, k.misses, s.w.now))
  {
  }

  lemma LeadStepQuiet(table: Table, s: State, id: nat, c: CoinId, limit: int)
    requires Sound(s) && Quiet(table, s, c, limit) && Enabled(s, Lead(id))
    ensures Quiet(table, Do(s, Lead(id)), c, limit)
  {
    var k, t := s.calls[id], Do(s, Lead(id));
    var f, x := FlightOf(k), NewFlight(k.ask, k.misses, s.w.now);
    assert CallOk(s.w, s.asked, id, k) && !CallHeld(table, s.flights, c, limit, k);
    var m := s.(flights := s.flights[f := x]);
    LeadFlightOk(s, id, k);
    NewFlightQuiet(table, s, m, f, x, c, limit);
    JoinQuiet(table, s, k, x, c, limit);
    var k' := k.(stage := Waiting(f.key));
    assert t.calls == m.calls[id := k'] && t.flights == m.flights && FlightOf(k') == f;
    CallStepQuiet(table, m, t, id, k', c, limit);
  }

  // ---------- the steps of a flight ----------

  /** One flight changes to a quiet one that leaves no more coins than before. */
  lemma FlightStepQuiet(table: Table, s: State, t: State, f: FlightId, x: Flight, c: CoinId, limit: int)
    requires Quiet(table, s, c, limit) && f in s.flights && t == s.(flights := s.flights[f := x])
    requires !FlightHeld(table, c, limit, x) && (Leaves(table, c, x) ==> Leaves(table, c, s.flights[f]))
    ensures Quiet(table, t, c, limit)
  {
    forall id | id in t.calls ensures !CallHeld(table, t.flights, c, limit, t.calls[id]) {
      assert !CallHeld(table, s.flights, c, limit, s.calls[id]);
    }
  }

  lemma RecheckStepQuiet(table: Table, s: State, f: FlightId, ok: bool, c: CoinId, limit: int)
    requires Sound(s) && Quiet(table, s, c, limit) && Enabled(s, Recheck(f, ok))
    ensures Quiet(table, Do(s, Recheck(f, ok)), c, limit)
  {
    var x := s.flights[f];
    assert FlightOk(s.w, f, x);
    RecheckQuiet(table, s, x, ok, c, limit);
    FlightStepQuiet(table, s, Do(s, Recheck(f, ok)), f, AfterRecheck(s, x, ok), c, limit);
  }

  lemma QueryStepQuiet(table: Table, s: State, f: FlightId, c: CoinId, limit: int)
    requires HasTable(s) && table == Current(s)
    requires Sound(s) && Quiet(table, s, c, limit) && Enabled(s, Query(f))
    ensures Quiet(table, Do(s, Query(f)), c, limit)
  {
    var x := s.flights[f];
    assert FlightOk(s.w, f, x) && TidyFlight(x);
    QueryQuiet(table, s, f, x, c, limit);
    FlightStepQuiet(table, s, Do(s, Query(f)), f, Queried(s, x), c, limit);
  }

  /** A Set writes what the flight brings. */
  lemma PutEntryQuiet(table: Table, s: State, x: Flight, d: CoinId, c: CoinId, limit: int, e: Entry)
    requires HasTable(s) && TidyFlight(x) && x.stage.Fetched? && d in x.stage.todo && d in x.stage.res
    requires !FlightHeld(table, c, limit, x) && !EntryHeld(table, s, c, limit) && e.points == x.stage.res[d].points
    ensures !EntryHeld(table, s.(cache := s.cache[KeyOf(d, x.ask.limit) := e]), c, limit)
  {
    if KeyOf(d, x.ask.limit) == KeyOf(c, limit) {
      EntryIsOwn(d, x.ask.limit, Entry(c, limit, [], 0, 0, 0, 0));
      assert ValueOf(x)[c] == x.stage.res[c];
    }
  }

  lemma PutStepQuiet(table: Table, s: State, f: FlightId, d: CoinId, took: bool, c: CoinId, limit: int)
    requires Sound(s) && Quiet(table, s, c, limit) && Enabled(s, Put(f, d, took))
    ensures Quiet(table, Do(s, Put(f, d, took)), c, limit)
  {
    var x, t := s.flights[f], Do(s, Put(f, d, took));
    var y := x.(stage := Fetched(x.stage.res, x.stage.todo - {d}));
    assert ValueOf(y) == ValueOf(x) && TidyFlight(x);
    var m := s.(flights := s.flights[f := y]);
    FlightStepQuiet(table, s, m, f, y, c, limit);
    if took {
      PutEntryQuiet(table, s, x, d, c, limit, t.cache[KeyOf(d, x.ask.limit)]);
      CacheOnlyQuiet(table, m, t, c, limit);
    }
  }

  lemma CacheOnlyQuiet(table: Table, s: State, t: State, c: CoinId, limit: int)
    requires Quiet(table, s, c, limit) && t == s.(cache := t.cache) && !EntryHeld(table, t, c, limit)
    ensures Quiet(table, t, c, limit)
  {
    forall id | id in t.calls ensures !CallHeld(table, t.flights, c, limit, t.calls[id]) {
      assert !CallHeld(table, s.flights, c, limit, s.calls[id]);
    }
  }

  lemma MergedQuiet(table: Table, c: CoinId, limit: int, hits: map<CoinId, Got>, value: map<CoinId, Got>)
    requires !Off(table, c, limit, value) && (Off(table, c, limit, hits) ==> c in value && value[c].present)
    ensures !Off(table, c, limit, Merged(hits, value))
  {
  }

  /** What a complete flight brings is current if it holds nothing stale; and what it does not leave
      alone it brings. */
  lemma CompleteBrings(table: Table, c: CoinId, limit: int, x: Flight)
    requires Complete(x) && TidyFlight(x) && x.pos <= |x.misses| && x.ask.limit == limit && !FlightHeld(table, c, limit, x)
    requires forall d :: d in ValueOf(x) <==> d in x.misses
    ensures !Off(table, c, limit, ValueOf(x))
    ensures !Leaves(table, c, x) ==> c in ValueOf(x) && ValueOf(x)[c].present
  {
    if x.stage.Rechecking? {
      assert AllStill(x) == [];
    }
  }

  /** A call that lands gets nothing stale. */
  lemma LandedQuiet(table: Table, s: State, f: FlightId, k: Call, x: Flight, c: CoinId, limit: int)
    requires FlightOk(s.w, f, x) && TidyFlight(x) && Complete(x) && f in s.flights && s.flights[f] == x
    requires k.stage.Waiting? && FlightOf(k) == f && x.ask.limit == k.ask.limit
    requires !CallHeld(table, s.flights, c, limit, k) && !FlightHeld(table, c, limit, x)
    ensures k.ask.limit == limit ==> !Off(table, c, limit, Merged(k.hits, ValueOf(x)))
  {
    ValueOk(s.w, f, x);
    if k.ask.limit == limit {
      CompleteBrings(table, c, limit, x);
      MergedQuiet(table, c, limit, k.hits, ValueOf(x));
    }
  }

  lemma LandStepQuiet(table: Table, s: State, f: FlightId, c: CoinId, limit: int)
    requires Sound(s) && Quiet(table, s, c, limit) && Enabled(s, Land(f))
    ensures Quiet(table, Do(s, Land(f)), c, limit)
  {
    var x, t := s.flights[f], Do(s, Land(f));
    assert FlightOk(s.w, f, x) && TidyFlight(x);
    forall id | id in t.calls ensures !CallHeld(table, t.flights, c, limit, t.calls[id]) {
      var k := s.calls[id];
      assert CallOk(s.w, s.asked, id, k) && StageOk(s.w, s.flights, k) && !CallHeld(table, s.flights, c, limit, k);
      if WaitsFor(k, f) {
        SharedKey(k.ask, k.misses, x.ask, x.misses);
        LandedQuiet(table, s, f, k, x, c, limit);
      }
    }
  }

  lemma AbandonQuiet(table: Table, s: State, f: FlightId, c: CoinId, limit: int)
    requires Sound(s) && Quiet(table, s, c, limit) && Enabled(s, Abandon(f))
    ensures Quiet(table, Do(s, Abandon(f)), c, limit)
  {
    var t := Do(s, Abandon(f));
    forall id | id in t.calls ensures !CallHeld(table, t.flights, c, limit, t.calls[id]) {
      assert StageOk(s.w, s.flights, s.calls[id]) && !CallHeld(table, s.flights, c, limit, s.calls[id]);
    }
  }

  lemma WorldStepQuiet(table: Table, s: State, a: Action, c: CoinId, limit: int)
    requires Sound(s) && Quiet(table, s, c, limit) && (a.Evict? || a.Tick?)
    ensures Quiet(table, Do(s, a), c, limit)
  {
    var t := Do(s, a);
    forall id | id in t.calls ensures !CallHeld(table, t.flights, c, limit, t.calls[id]) {
      assert !CallHeld(table, s.flights, c, limit, s.calls[id]);
    }
    forall f | f in t.flights ensures !FlightHeld(table, c, limit, t.flights[f]) {
      assert !FlightHeld(table, c, limit, s.flights[f]);
    }
  }

  lemma CallQuiet(table: Table, s: State, a: Action, c: CoinId, limit: int)
    requires Sound(s) && Quiet(table, s, c, limit) && Enabled(s, a) && OfCall(a)
    ensures Quiet(table, Do(s, a), c, limit) && ServesNow(table, s, Do(s, a), c, limit)
  {
    match a {
      case Look(id, ok) => LookStepQuiet(table, s, id, ok, c, limit);
      case Finish(id) => FinishQuiet(table, s, id, c, limit);
      case Lead(id) => LeadStepQuiet(table, s, id, c, limit);
      case Join(id) => JoinStepQuiet(table, s, id, c, limit);
      case Return(id) => ReturnQuiet(table, s, id, c, limit);
    }
  }

  lemma FlightQuiet(table: Table, s: State, a: Action, c: CoinId, limit: int)
    requires HasTable(s) && table == Current(s)
    requires Sound(s) && Quiet(table, s, c, limit) && Enabled(s, a) && OfFlight(a)
    ensures Quiet(table, Do(s, a), c, limit) && Do(s, a).served == s.served
  {
    match a {
      case Recheck(f, ok) => RecheckStepQuiet(table, s, f, ok, c, limit);
      case Query(f) => QueryStepQuiet(table, s, f, c, limit);
      case Put(f, d, took) => PutStepQuiet(table, s, f, d, took, c, limit);
      case Land(f) => LandStepQuiet(table, s, f, c, limit);
      case Abandon(f) => AbandonQuiet(table, s, f, c, limit);
    }
  }

  lemma StepQuiet(table: Table, s: State, a: Action, c: CoinId, limit: int)
    requires HasTable(s) && table == Current(s)
    requires Sound(s) && Quiet(table, s, c, limit) && Enabled(s, a) && !a.Change?
    ensures Quiet(table, Do(s, a), c, limit) && ServesNow(table, s, Do(s, a), c, limit)
  {
    if a.Start? {
      StartQuiet(table, s, a.process, a.ask, c, limit);
    } else if OfCall(a) {
      CallQuiet(table, s, a, c, limit);
    } else if OfFlight(a) {
      FlightQuiet(table, s, a, c, limit);
    } else {
      WorldStepQuiet(table, s, a, c, limit);
    }
  }

  lemma QuietStep(table: Table, s: State, a: Action, c: CoinId, limit: int)
    requires HasTable(s) && table == Current(s)
    requires Sound(s) && Quiet(table, s, c, limit) && Enabled(s, a) && !a.Change?
    ensures var m := Do(s, a); Sound(m) && Quiet(table, m, c, limit) && m.w.versions == s.w.versions && ServesNow(table, s, m, c, limit)
  {
    SoundStep(s, a);
    StepQuiet(table, s, a, c, limit);
  }

  lemma {:induction false} QuietAlong(table: Table, s: State, acts: seq<Action>, t: State, c: CoinId, limit: int)
    requires HasTable(s) && table == Current(s)
    requires Sound(s) && Quiet(table, s, c, limit) && Run(s, acts, t) && Unchanging(acts)
    ensures HasTable(t) && t.w.versions == s.w.versions && ServesNow(table, s, t, c, limit)
    decreases |acts|
  {
    if acts != [] {
      QuietStep(table, s, acts[0], c, limit);
      assert Unchanging(acts[1..]);
      QuietAlong(table, Do(s, acts[0]), acts[1..], t, c, limit);
    }
  }

  // ---------- whatever is held can be served ----------

  lemma StaleServe(table: Table, s: State, c: CoinId, limit: int, v: Serve)
    requires CanServe(s, v) && Stale(table, c, limit, v)
    ensures ServedStale(table, s, c, limit)
  {
    var t :| Reaches(s, t) && |t.served| > |s.served| && t.served[|s.served|] == v;
  }

  /** A new single-coin call finds the entry. */
  lemma EntryServes(table: Table, s: State, c: CoinId, limit: int)
    requires EntryHeld(table, s, c, limit)
    ensures ServedStale(table, s, c, limit)
  {
    var n, ask, key := |s.asked|, One(c, limit), KeyOf(c, limit);
    var m := Do(s, Start(0, ask));
    OneStep(s, Start(0, ask));
    assert Coins(ask) == [c] && Live(m, key);
    var u := Do(m, Look(n, true));
    OneStep(m, Look(n, true));
    var hits := map[c := FromCache(s, key)];
    assert u.calls[n] == Call(0, ask, s.w.now, 1, hits, [], Looking);
    OneStep(u, Finish(n));
    var t := Do(u, Finish(n));
    assert t.served[|s.served|] == Serve(n, ask, [], [], s.w.now, hits, s.w.now);
    Then(s, m, u);
    Then(s, u, t);
    StaleServe(table, s, c, limit, t.served[|s.served|]);
  }

  lemma FlightDrivable(s: State, f: FlightId, x: Flight)
    requires HasTable(s) && FlightOk(s.w, f, x) && TidyFlight(x)
    ensures Drivable(s, x)
  {
  }

  lemma QueriedCoin(table: Table, s: State, y: Flight, c: CoinId)
    requires HasTable(s) && table == Current(s)
    ensures c in Results(s, y) <==> c in y.still
    ensures c in y.still ==> (Results(s, y)[c].present <==> Refilled(table, y.ask, c))
  {
  }

  /** What a flight holds it still brings when nothing refreshes it. */
  lemma DrivenHolds(table: Table, s: State, x: Flight, c: CoinId, limit: int)
    requires HasTable(s) && table == Current(s) && Drivable(s, x) && FlightHeld(table, c, limit, x)
    ensures Off(table, c, limit, ValueOf(Driven(s, x)))
  {
    if x.stage.Rechecking? {
      QueriedCoin(table, s, Rechecked(x), c);
    }
  }

  /** What a flight may leave alone it does leave alone when nothing refreshes it. */
  lemma DrivenLeaves(table: Table, s: State, f: FlightId, x: Flight, c: CoinId)
    requires HasTable(s) && table == Current(s) && FlightOk(s.w, f, x) && Drivable(s, x) && Leaves(table, c, x)
    ensures c in ValueOf(Driven(s, x)) ==> !ValueOf(Driven(s, x))[c].present
  {
    if x.stage.Rechecking? {
      QueriedCoin(table, s, Rechecked(x), c);
    }
  }

  /** The call of a newcomer who wants what the flight is for. */
  function Rejoin(x: Flight): Ask { if x.ask.Many? then Many(x.misses, x.ask.limit) else x.ask }

  lemma FlightServes(table: Table, s: State, f: FlightId, c: CoinId, limit: int)
    requires Sound(s) && table == Current(s) && f in s.flights && FlightHeld(table, c, limit, s.flights[f])
    ensures ServedStale(table, s, c, limit)
  {
    var x, n := s.flights[f], |s.asked|;
    assert FlightOk(s.w, f, x);
    FlightDrivable(s, f, x);
    DrivenHolds(table, s, x, c, limit);
    MissAll(s, f.process, Rejoin(x));
    var u := WithCall(s, f.process, Rejoin(x));
    var k := Newcomer(s, f.process, Rejoin(x));
    assert FlightOf(k) == f && u.calls[n] == k && u.flights == s.flights;
    SameWorld(s, u, x);
    JoinServes(u, n);
    var v := Serve(n, k.ask, k.misses, x.misses, Min(k.since, x.openedAt), Answer(s, k, x), s.w.now);
    CanServeAfter(s, u, v);
    StaleServe(table, s, c, limit, v);
  }

  lemma KeptHit(table: Table, c: CoinId, limit: int, hits: map<CoinId, Got>, value: map<CoinId, Got>)
    requires Off(table, c, limit, hits) && (c in value ==> !value[c].present)
    ensures Off(table, c, limit, Merged(hits, value))
  {
  }

  lemma WaitingCallServes(table: Table, s: State, id: nat, c: CoinId, limit: int)
    requires Sound(s) && table == Current(s) && id in s.calls && s.calls[id].stage.Waiting? && CallHeld(table, s.flights, c, limit, s.calls[id])
    ensures ServedStale(table, s, c, limit)
  {
    var k := s.calls[id];
    var f := FlightOf(k);
    assert StageOk(s.w, s.flights, k);
    var x := s.flights[f];
    assert FlightOk(s.w, f, x) && TidyFlight(x);
    FlightDrivable(s, f, x);
    DrivenLeaves(table, s, f, x, c);
    KeptHit(table, c, limit, k.hits, ValueOf(Driven(s, x)));
    WaitingServes(s, id, f);
    StaleServe(table, s, c, limit, Serve(id, k.ask, k.misses, x.misses, k.since, Answer(s, k, x), s.w.now));
  }

  lemma LandedCallServes(table: Table, s: State, id: nat, c: CoinId, limit: int)
    requires id in s.calls && s.calls[id].stage.Landed? && CallHeld(table, s.flights, c, limit, s.calls[id])
    ensures ServedStale(table, s, c, limit)
  {
    ReturnServes(s, id);
    var k := s.calls[id];
    StaleServe(table, s, c, limit, Serve(id, k.ask, k.misses, k.stage.from, k.since, Merged(k.hits, k.stage.value), s.w.now));
  }

  // ---------- a call that is still looking ----------

  /** The call has looked everywhere. */
  ghost predicate LookedHeld(table: Table, s: State, id: nat, c: CoinId) {
    && Sound(s) && table == Current(s) && Looked(s, id) && LookingHeld(table, c, s.calls[id])
    && AllMisses(s.calls[id]) == s.calls[id].misses
  }

  lemma DoneServes(table: Table, s: State, id: nat, c: CoinId)
    requires LookedHeld(table, s, id, c) && s.calls[id].misses == []
    ensures ServedStale(table, s, c, s.calls[id].ask.limit)
  {
    var k := s.calls[id];
    OneStep(s, Finish(id));
    var t := Do(s, Finish(id));
    assert t.served[|s.served|] == Serve(id, k.ask, [], [], k.since, k.hits, s.w.now);
    StaleServe(table, s, c, k.ask.limit, t.served[|s.served|]);
  }

  lemma OwnFlightServes(table: Table, s: State, id: nat, c: CoinId)
    requires LookedHeld(table, s, id, c) && s.calls[id].misses != [] && (c in s.calls[id].misses ==> !Refilled(table, s.calls[id].ask, c))
    ensures ServedStale(table, s, c, s.calls[id].ask.limit)
  {
    var k := s.calls[id];
    var x := NewFlight(k.ask, k.misses, s.w.now);
    assert CallOk(s.w, s.asked, id, k);
    LeadFlightOk(s, id, k);
    FlightDrivable(s, FlightOf(k), x);
    DrivenLeaves(table, s, FlightOf(k), x, c);
    KeptHit(table, c, k.ask.limit, k.hits, ValueOf(Driven(s, x)));
    LeadServes(s, id);
    StaleServe(table, s, c, k.ask.limit, Serve(id, k.ask, k.misses, k.misses, k.since, Answer(s, k, x), s.w.now));
  }

  lemma OtherFlightOk(w: World, process: nat, p: seq<CoinId>, limit: int)
    requires p != []
    ensures FlightOk(w, FlightId(process, FlightKey(Many(p, limit), p)), NewFlight(Many(p, limit), p, w.now))
  {
  }

  lemma CollidingServes(table: Table, s: State, id: nat, c: CoinId)
    requires LookedHeld(table, s, id, c) && s.calls[id].misses != [] && s.calls[id].ask.Many?
    requires Collides(s.calls[id].misses, c, s.calls[id].ask.limit)
    ensures ServedStale(table, s, c, s.calls[id].ask.limit)
  {
    var k := s.calls[id];
    var l := k.ask.limit;
    var p :| p != [] && c !in p && FlightKey(Many(p, l), p) == FlightKey(Many(k.misses, l), k.misses);
    var x := NewFlight(Many(p, l), p, s.w.now);
    OtherFlightOk(s.w, k.process, p, l);
    FlightDrivable(s, FlightId(k.process, FlightKey(Many(p, l), p)), x);
    DrivenLeaves(table, s, FlightId(k.process, FlightKey(Many(p, l), p)), x, c);
    KeptHit(table, c, l, k.hits, ValueOf(Driven(s, x)));
    OtherFlightServes(s, id, p);
    StaleServe(table, s, c, l, Serve(id, k.ask, k.misses, p, Min(k.since, s.w.now), Answer(s, k, x), s.w.now));
  }

  lemma LookedServes(table: Table, s: State, id: nat, c: CoinId)
    requires LookedHeld(table, s, id, c)
    ensures ServedStale(table, s, c, s.calls[id].ask.limit)
  {
    var k := s.calls[id];
    if k.misses == [] {
      DoneServes(table, s, id, c);
    } else if c in k.misses && Refilled(table, k.ask, c) {
      CollidingServes(table, s, id, c);
    } else {
      OwnFlightServes(table, s, id, c);
    }
  }

  lemma ServedStaleAfter(table: Table, s: State, m: State, c: CoinId, limit: int)
    requires Reaches(s, m) && m.served == s.served && ServedStale(table, m, c, limit)
    ensures ServedStale(table, s, c, limit)
  {
    var t, j :| Reaches(m, t) && |m.served| <= j < |t.served| && Stale(table, c, limit, t.served[j]);
    Then(s, m, t);
  }

  lemma ReachesSound(s: State, t: State)
    requires Sound(s) && Reaches(s, t)
    ensures Sound(t)
  {
    var acts :| Run(s, acts, t) && Unchanging(acts);
    SoundAlong(s, acts, t);
  }

  lemma BlindHolds(table: Table, k: Call, c: CoinId)
    requires k.stage.Looking? && LookingHeld(table, c, k)
    ensures LookingHeld(table, c, Blind(k)) && AllMisses(Blind(k)) == Blind(k).misses
  {
    assert Coins(k.ask)[|Coins(k.ask)|..] == [];
    assert AllMisses(Blind(k)) == AllMisses(k);
  }

  /** The call has looked for the rest of its coins and found nothing. */
  function Blinded(s: State, id: nat): State
    requires id in s.calls && s.calls[id].pos <= |Coins(s.calls[id].ask)|
  {
    s.(calls := s.calls[id := Blind(s.calls[id])])
  }

  lemma BlindedLooks(table: Table, s: State, id: nat, c: CoinId)
    requires HasTable(s) && id in s.calls && s.calls[id].stage.Looking? && LookingHeld(table, c, s.calls[id])
    ensures var m := Blinded(s, id);
            && HasTable(m) && Current(m) == Current(s) && Looked(m, id) && m.calls[id].ask == s.calls[id].ask
            && LookingHeld(table, c, m.calls[id]) && AllMisses(m.calls[id]) == m.calls[id].misses
  {
    BlindHolds(table, s.calls[id], c);
    assert Blinded(s, id).calls[id] == Blind(s.calls[id]);
  }

  lemma BlindedReached(s: State, id: nat)
    requires Sound(s) && id in s.calls && s.calls[id].stage.Looking? && s.calls[id].pos <= |Coins(s.calls[id].ask)|
    ensures Reaches(s, Blinded(s, id)) && Sound(Blinded(s, id)) && Blinded(s, id).served == s.served
  {
    LookAway(s, id);
    ReachesSound(s, Blinded(s, id));
  }

  lemma LookingCallServes(table: Table, s: State, id: nat, c: CoinId)
    requires Sound(s) && table == Current(s) && id in s.calls && s.calls[id].stage.Looking? && LookingHeld(table, c, s.calls[id])
    ensures ServedStale(table, s, c, s.calls[id].ask.limit)
  {
    BlindedReached(s, id);
    BlindedLooks(table, s, id, c);
    LookedServes(table, Blinded(s, id), id, c);
    ServedStaleAfter(table, s, Blinded(s, id), c, s.calls[id].ask.limit);
  }

  // ---------- exactly ----------

  lemma HeldServes(table: Table, s: State, c: CoinId, limit: int)
    requires Sound(s) && table == Current(s) && Held(table, s, c, limit)
    ensures ServedStale(table, s, c, limit)
  {
    if EntryHeld(table, s, c, limit) {
      EntryServes(table, s, c, limit);
    } else if f :| f in s.flights && FlightHeld(table, c, limit, s.flights[f]) {
      FlightServes(table, s, f, c, limit);
    } else {
      var id :| id in s.calls && CallHeld(table, s.flights, c, limit, s.calls[id]);
      match s.calls[id].stage {
        case Looking => LookingCallServes(table, s, id, c);
        case Waiting(_) => WaitingCallServes(table, s, id, c, limit);
        case Landed(_, _) => LandedCallServes(table, s, id, c, limit);
      }
    }
  }

  /** In every reachable state a stale answer for the coin and limit can still be served before the next
      change of the table if and only if a live entry, an open flight or an unfinished call holds one. */
  lemma StaleIffHeld(s: State, c: CoinId, limit: int)
    requires CR.Reachable(s)
    ensures HasTable(s) && (ServedStale(Current(s), s, c, limit) <==> Held(Current(s), s, c, limit))
  {
    ReachableSound(s);
    var table := Current(s);
    if Held(table, s, c, limit) {
      HeldServes(table, s, c, limit);
    } else if ServedStale(table, s, c, limit) {
      var t, j :| Reaches(s, t) && |s.served| <= j < |t.served| && Stale(table, c, limit, t.served[j]);
      var acts :| Run(s, acts, t) && Unchanging(acts);
      QuietAlong(table, s, acts, t, c, limit);
    }
  }

  /** Where nobody lists the coin twice, a hit that a call holds is only ever replaced by its flight. */
  ghost predicate ListedOnce(s: State, c: CoinId) {
    forall id :: id in s.calls && s.calls[id].stage.Looking? && c in s.calls[id].hits && s.calls[id].pos <= |Coins(s.calls[id].ask)| ==>
      c !in AllMisses(s.calls[id])
  }

  lemma LookingHeldOnce(s: State, id: nat, c: CoinId, table: Table)
    requires CR.Reachable(s) && ListedOnce(s, c) && id in s.calls && s.calls[id].stage.Looking?
    ensures LookingHeld(table, c, s.calls[id]) <==> Off(table, c, s.calls[id].ask.limit, s.calls[id].hits)
  {
    ReachableSound(s);
    assert CallOk(s.w, s.asked, id, s.calls[id]);
  }
}
