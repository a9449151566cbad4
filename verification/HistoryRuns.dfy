/** Exactly when the cached history queries can answer for other coins than were asked for, and from a
    table that has changed since (internal/query/cached_repo.go). */
module HistoryRuns {
  import opened Market
  import opened ReadModel
  import opened HistoryCache
  import opened HistoryTheorems
  import opened HistorySteps
  import opened CachedRepository
  import opened HistoryStale
  import CacheKeys
  import KeyCollisions

  // ---------- continuations of reachable states ----------

  lemma {:induction false} ReachableAlong(s: State, acts: seq<Action>, t: State)
    requires Reachable(s) && Run(s, acts, t)
    ensures Reachable(t)
    decreases |acts|
  {
    if acts != [] {
      ReachableStep(s, acts[0]);
      ReachableAlong(Do(s, acts[0]), acts[1..], t);
    }
  }

  lemma ReachedIsReachable(s: State, t: State)
    requires Reachable(s) && Reaches(s, t)
    ensures Reachable(t)
  {
    var acts :| Run(s, acts, t) && Unchanging(acts);
    ReachableAlong(s, acts, t);
  }

  lemma InitReachable(t: Table)
    requires UniqueIds(t)
    ensures Reachable(Init(t))
  {
    assert Run(Init(t), [], Init(t));
  }

  lemma ServeIsOk(s: State, k: nat)
    requires Reachable(s) && k < |s.served|
    ensures ServeOk(s.w, s.asked, s.served[k])
  {
    var t, acts :| UniqueIds(t) && Run(Init(t), acts, s);
    InitInv(t);
    RunKeepsInv(Init(t), acts, s);
  }

  // ---------- answers for other coins ----------

  /** A batch request missed q, whatever else it asked for, and was answered by a flight for p. */
  ghost predicate Shares(s: State, q: seq<CoinId>, p: seq<CoinId>, limit: int) {
    exists k :: 0 <= k < |s.served| && SharedAnswer(s.served[k], q, p, limit)
  }

  ghost predicate SharedAnswer(v: Serve, q: seq<CoinId>, p: seq<CoinId>, limit: int) {
    v.ask.Many? && v.ask.limit == limit && v.misses == q && v.from == p
  }

  /** Of all it asked for it found nothing, and its answer has exactly the coins of p. */
  ghost predicate AnswersFor(s: State, q: seq<CoinId>, p: seq<CoinId>, limit: int) {
    exists k :: 0 <= k < |s.served| && AnsweredFor(s.served[k], q, p, limit)
  }

  ghost predicate AnsweredFor(v: Serve, q: seq<CoinId>, p: seq<CoinId>, limit: int) {
    v.ask == Many(q, limit) && SharedAnswer(v, q, p, limit) && forall c :: c in v.answer <==> c in p
  }

  lemma KeysAgree(p: seq<CoinId>, q: seq<CoinId>, limit: int)
    requires p != [] && q != []
    ensures FlightKey(Many(p, limit), p) == FlightKey(Many(q, limit), q)
        <==> CacheKeys.Pieces(CacheKeys.SortStrings(Texts(p))) == CacheKeys.Pieces(CacheKeys.SortStrings(Texts(q)))
  {
    assert |Texts(p)| == |p| && |Texts(q)| == |q|;
    CacheKeys.HistoriesKeyEqualIff(limit, Texts(p), limit, Texts(q));
  }

  lemma FirstQueryBringsAll(s: State, p: seq<CoinId>, limit: int)
    requires |s.w.versions| > 0 && p != []
    ensures var x := NewFlight(Many(p, limit), p, s.w.now);
            Drivable(s, x) && forall c :: c in ValueOf(Driven(s, x)) <==> c in p
  {
    var x := NewFlight(Many(p, limit), p, s.w.now);
    assert Rechecked(x).still == p;
  }

  /** The call for q joins the flight for p, on a table that does not change. */
  lemma JoinerIsAnsweredFor(t: Table, q: seq<CoinId>, p: seq<CoinId>, limit: int)
    requires p != [] && q != [] && FlightKey(Many(p, limit), p) == FlightKey(Many(q, limit), q)
    ensures exists s :: Reaches(Init(t), s) && AnswersFor(s, q, p, limit)
  {
    var ask := Many(q, limit);
    MissAll(Init(t), 0, ask);
    var u := WithCall(Init(t), 0, ask);
    assert u.calls[0] == Newcomer(Init(t), 0, ask) && Looked(u, 0);
    FirstQueryBringsAll(u, p, limit);
    OtherFlightServes(u, 0, p);
    var v := Serve(0, ask, q, p, 0, Answer(u, u.calls[0], NewFlight(Many(p, limit), p, 0)), 0);
    CanServeAfter(Init(t), u, v);
    var s :| Reaches(Init(t), s) && |s.served| > 0 && s.served[0] == v;
    assert SharedAnswer(v, q, p, limit) && AnsweredFor(v, q, p, limit);
  }

  lemma SharersCollide(s: State, q: seq<CoinId>, p: seq<CoinId>, limit: int)
    requires p != [] && q != [] && Reachable(s) && Shares(s, q, p, limit)
    ensures FlightKey(Many(p, limit), p) == FlightKey(Many(q, limit), q)
  {
    var k :| 0 <= k < |s.served| && SharedAnswer(s.served[k], q, p, limit);
    ServeIsOk(s, k);
    assert SharedBy(s.served[k].ask, q, p);
  }

  /** A request that missed q can be answered by a flight for p if and only if the sorted ids of both
      fall into the same pieces at their spaces; then a request for q alone can be answered with exactly
      the coins of p, on any table and without a change of it. */
  lemma MisansweredIff(t: Table, q: seq<CoinId>, p: seq<CoinId>, limit: int)
    requires UniqueIds(t) && p != [] && q != []
    ensures var same := CacheKeys.Pieces(CacheKeys.SortStrings(Texts(p))) == CacheKeys.Pieces(CacheKeys.SortStrings(Texts(q)));
            && ((exists s :: Reachable(s) && Shares(s, q, p, limit)) <==> same)
            && ((exists s :: Reaches(Init(t), s) && AnswersFor(s, q, p, limit)) <==> same)
  {
    KeysAgree(p, q, limit);
    InitReachable(t);
    if FlightKey(Many(p, limit), p) == FlightKey(Many(q, limit), q) {
      JoinerIsAnsweredFor(t, q, p, limit);
    }
    if s :| Reaches(Init(t), s) && AnswersFor(s, q, p, limit) {
      AnsweredShares(Init(t), s, q, p, limit);
    }
    if s :| Reachable(s) && Shares(s, q, p, limit) {
      SharersCollide(s, q, p, limit);
    }
  }

  lemma AnsweredShares(s: State, m: State, q: seq<CoinId>, p: seq<CoinId>, limit: int)
    requires Reachable(s) && Reaches(s, m) && AnswersFor(m, q, p, limit)
    ensures Reachable(m) && Shares(m, q, p, limit)
  {
    ReachedIsReachable(s, m);
    var k :| 0 <= k < |m.served| && AnsweredFor(m.served[k], q, p, limit);
    assert SharedAnswer(m.served[k], q, p, limit);
  }

  /** Some answer to q lacks a coin, or covers other coins. */
  ghost predicate Loses(s: State, q: seq<CoinId>, c: CoinId, limit: int) {
    exists k :: 0 <= k < |s.served| && s.served[k].ask == Many(q, limit) && c !in s.served[k].answer
  }

  ghost predicate Strays(s: State, q: seq<CoinId>, limit: int) {
    exists k :: 0 <= k < |s.served| && s.served[k].ask == Many(q, limit) && !(forall c :: c in s.served[k].answer <==> c in q)
  }

  ghost predicate Astray(v: Serve) { v.ask.Many? && !(forall c :: c in v.answer <==> c in Coins(v.ask)) }

  lemma AstrayShares(w: World, asked: seq<Ask>, v: Serve)
    requires ServeOk(w, asked, v) && Astray(v)
    ensures SharedBy(v.ask, v.misses, v.from) && v.from != v.misses && |v.misses| <= |Coins(v.ask)|
  {
    assert !Clear(v.ask, v.misses, v.from);
  }

  lemma OnlyMiss(m: seq<CoinId>, q: seq<CoinId>)
    requires m != [] && |m| <= |q| == 1 && Within(m, q)
    ensures m == q
  {
    assert m[0] in m;
  }

  lemma AstrayCollides(w: World, asked: seq<Ask>, v: Serve)
    requires ServeOk(w, asked, v) && Astray(v)
    ensures |Coins(v.ask)| >= 2 || (|Coins(v.ask)| == 1 && KeyCollisions.SplitsSorted(Coins(v.ask)[0].text))
  {
    AstrayShares(w, asked, v);
    if |Coins(v.ask)| == 1 {
      OnlyMiss(v.misses, Coins(v.ask));
      OtherListSplits(v.from, v.misses, v.ask.limit);
    }
  }

  lemma StraysCollides(s: State, q: seq<CoinId>, limit: int)
    requires Reachable(s) && Strays(s, q, limit)
    ensures |q| >= 2 || (|q| == 1 && KeyCollisions.SplitsSorted(q[0].text))
  {
    var k :| 0 <= k < |s.served| && s.served[k].ask == Many(q, limit) && !(forall c :: c in s.served[k].answer <==> c in q);
    ServeIsOk(s, k);
    AstrayCollides(s.w, s.asked, s.served[k]);
  }

  lemma CollidingLoses(t: Table, q: seq<CoinId>, c: CoinId, limit: int)
    requires c in q && Collides(q, c, limit)
    ensures exists s :: Reaches(Init(t), s) && Loses(s, q, c, limit)
  {
    var p :| p != [] && c !in p && FlightKey(Many(p, limit), p) == FlightKey(Many(q, limit), q);
    JoinerIsAnsweredFor(t, q, p, limit);
    var s :| Reaches(Init(t), s) && AnswersFor(s, q, p, limit);
    assert Loses(s, q, c, limit);
  }

  lemma LosesCollides(t: Table, s: State, q: seq<CoinId>, c: CoinId, limit: int)
    requires UniqueIds(t) && c in q && Reaches(Init(t), s) && Loses(s, q, c, limit)
    ensures Reachable(s) && Strays(s, q, limit)
  {
    InitReachable(t);
    ReachedIsReachable(Init(t), s);
  }

  /** What the caller can see of it: a requested coin can be missing from the answer, on any table,
      if and only if the request names two ids or one that falls at a space into two in sorted order.
      Every other request is answered for exactly its coins. */
  lemma MisanswerableIff(t: Table, q: seq<CoinId>, c: CoinId, limit: int)
    requires UniqueIds(t) && c in q
    ensures (exists s :: Reachable(s) && Strays(s, q, limit)) <==> |q| >= 2 || KeyCollisions.SplitsSorted(c.text)
    ensures (exists s :: Reaches(Init(t), s) && Loses(s, q, c, limit)) <==> |q| >= 2 || KeyCollisions.SplitsSorted(c.text)
  {
    if |q| >= 2 || KeyCollisions.SplitsSorted(c.text) {
      CollidesIff(q, c, limit);
      CollidingLoses(t, q, c, limit);
    }
    if s :| Reaches(Init(t), s) && Loses(s, q, c, limit) {
      LosesCollides(t, s, q, c, limit);
    }
    if s :| Reachable(s) && Strays(s, q, limit) {
      StraysCollides(s, q, limit);
      assert |q| == 1 ==> q[0] == c;
    }
  }

  /** On every table a request for "a" and "b" can be answered for the coin "a b" alone. */
  lemma SpacesMisanswer(t: Table)
    requires UniqueIds(t)
    ensures exists s :: Reaches(Init(t), s) && AnswersFor(s, [CoinId("a"), CoinId("b")], [CoinId("a b")], 10)
  {
    CacheKeys.SpacesCollide();
    TextsOf([CoinId("a b")], ["a b"]);
    TextsOf([CoinId("a"), CoinId("b")], ["a", "b"]);
    KeysAgree([CoinId("a b")], [CoinId("a"), CoinId("b")], 10);
    MisansweredIff(t, [CoinId("a"), CoinId("b")], [CoinId("a b")], 10);
  }

  // ---------- an answer from an older table ----------

  /** A live entry holds the coin's points on this table. */
  ghost predicate Stored(s: State, t: Table, c: CoinId, limit: int) {
    s.w.versions == [t] && Live(s, KeyOf(c, limit)) && s.cache[KeyOf(c, limit)].points == Newest(t, c, limit)
  }

  /** A call has led its flight, which has looked again and found nothing. */
  lemma QueryReached(t: Table, c: CoinId, limit: int) returns (s: State, f: FlightId)
    ensures Reaches(Init(t), s) && s.w == Init(t).w && Enabled(s, Query(f)) && s.flights[f].still == [c] && s.flights[f].ask == One(c, limit)
  {
    var ask := One(c, limit);
    MissAll(Init(t), 0, ask);
    var u := WithCall(Init(t), 0, ask);
    f := FlightOf(u.calls[0]);
    OneStep(u, Lead(0));
    var n := Do(u, Lead(0));
    Then(Init(t), u, n);
    assert n.flights[f] == NewFlight(ask, [c], 0);
    RecheckAway(n, f);
    s := WithFlight(n, f, Rechecked(n.flights[f]));
    Then(Init(t), n, s);
  }

  lemma PutStores(t: Table, s: State, f: FlightId, c: CoinId, limit: int)
    requires s.w == Init(t).w && Enabled(s, Query(f)) && s.flights[f].still == [c] && s.flights[f].ask == One(c, limit)
    ensures exists m :: Reaches(s, m) && Stored(m, t, c, limit)
  {
    OneStep(s, Query(f));
    var n := Do(s, Query(f));
    assert n.flights[f].stage.res[c] == HistoryCache.Fresh(s, c, One(c, limit), s.flights[f].openedAt);
    OneStep(n, Put(f, c, true));
    var m := Do(n, Put(f, c, true));
    Then(s, n, m);
    assert Stored(m, t, c, limit);
  }

  lemma StoredReached(t: Table, c: CoinId, limit: int)
    requires UniqueIds(t)
    ensures exists s :: Reachable(s) && Stored(s, t, c, limit)
  {
    var s, f := QueryReached(t, c, limit);
    PutStores(t, s, f, c, limit);
    var m :| Reaches(s, m) && Stored(m, t, c, limit);
    InitReachable(t);
    ReachedIsReachable(Init(t), s);
    ReachedIsReachable(s, m);
  }

  /** The table was t and is now t', and before it changes again an answer for the coin is not the one
      on t'. */
  ghost predicate AnswersLate(s: State, t: Table, t': Table, c: CoinId, limit: int) {
    s.w.versions == [t, t'] && ServedStale(t', s, c, limit)
  }

  lemma StoredAnswersLate(s: State, t: Table, t': Table, c: CoinId, limit: int)
    requires Reachable(s) && Stored(s, t, c, limit) && UniqueIds(t') && Newest(t, c, limit) != Newest(t', c, limit)
    ensures exists m :: Reachable(m) && AnswersLate(m, t, t', c, limit)
  {
    ReachableStep(s, Change(t'));
    var m := Do(s, Change(t'));
    EntryServes(t', m, c, limit);
    assert AnswersLate(m, t, t', c, limit);
  }

  lemma OldOfTwo(w: World, t: Table, t': Table, c: CoinId, limit: int, g: Got)
    requires w.versions == [t, t'] && GotOk(w, c, limit, g) && g.points != Newest(t', c, limit)
    ensures g.points == Newest(t, c, limit)
  {
    assert w.versions[1] == t';
    assert g.version == 0;
    assert w.versions[0] == t;
  }

  lemma LateAnswerIsOld(s: State, t: Table, t': Table, c: CoinId, limit: int)
    requires Reachable(s) && AnswersLate(s, t, t', c, limit)
    ensures Newest(t, c, limit) != Newest(t', c, limit)
  {
    var m, j :| Reaches(s, m) && |s.served| <= j < |m.served| && Stale(t', c, limit, m.served[j]);
    var acts :| Run(s, acts, m) && Unchanging(acts);
    VersionsKept(s, acts, m);
    ReachableAlong(s, acts, m);
    ServeIsOk(m, j);
    OldOfTwo(m.w, t, t', c, limit, m.served[j].answer[c]);
  }

  /** Whatever the table becomes, the coin can still be answered from the table before, if and only if
      its newest points have changed: the cached query is then not the direct query on the current
      table. */
  lemma AnswerFromOlderTable(t: Table, t': Table, c: CoinId, limit: int)
    requires UniqueIds(t) && UniqueIds(t')
    ensures (exists s :: Reachable(s) && AnswersLate(s, t, t', c, limit)) <==> Newest(t, c, limit) != Newest(t', c, limit)
  {
    if s :| Reachable(s) && AnswersLate(s, t, t', c, limit) {
      LateAnswerIsOld(s, t, t', c, limit);
    }
    if Newest(t, c, limit) != Newest(t', c, limit) {
      StoredReached(t, c, limit);
      var s :| Reachable(s) && Stored(s, t, c, limit);
      StoredAnswersLate(s, t, t', c, limit);
    }
  }
}
