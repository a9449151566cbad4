/** Building blocks for continuations of the cached history queries: what a call or a flight can be
    led to do while the table does not change. */
module HistorySteps {
  import opened Market
  import opened ReadModel
  import opened HistoryCache
  import Ordering

  // ---------- continuations ----------

  ghost predicate Unchanging(acts: seq<Action>) { forall i :: 0 <= i < |acts| ==> !acts[i].Change? }

  /** t follows from s before the next change of the table. */
  ghost predicate Reaches(s: State, t: State) { exists acts :: Run(s, acts, t) && Unchanging(acts) }

  lemma Stays(s: State)
    ensures Reaches(s, s)
  {
    assert Run(s, [], s);
  }

  lemma First(s: State, a: Action, t: State)
    requires Enabled(s, a) && !a.Change? && Reaches(Do(s, a), t)
    ensures Reaches(s, t)
  {
    var acts :| Run(Do(s, a), acts, t) && Unchanging(acts);
    var all := [a] + acts;
    assert all[0] == a && all[1..] == acts;
    assert Run(s, all, t);
    assert Unchanging(all);
  }

  lemma {:induction false} Joined(s: State, acts: seq<Action>, m: State, t: State)
    requires Run(s, acts, m) && Unchanging(acts) && Reaches(m, t)
    ensures Reaches(s, t)
    decreases |acts|
  {
    if acts != [] {
      assert Unchanging(acts[1..]);
      Joined(Do(s, acts[0]), acts[1..], m, t);
      First(s, acts[0], t);
    }
  }

  lemma Then(s: State, m: State, t: State)
    requires Reaches(s, m) && Reaches(m, t)
    ensures Reaches(s, t)
  {
    var acts :| Run(s, acts, m) && Unchanging(acts);
    Joined(s, acts, m, t);
  }

  lemma OneStep(s: State, a: Action)
    requires Enabled(s, a) && !a.Change?
    ensures Reaches(s, Do(s, a))
  {
    Stays(Do(s, a));
    First(s, a, Do(s, a));
  }

  // ---------- a call that finds nothing ----------

  /** The misses of a call whose remaining lookups all miss. */
  function AllMisses(k: Call): seq<CoinId>
    requires k.pos <= |Coins(k.ask)|
  {
    k.misses + Coins(k.ask)[k.pos..]
  }

  function Blind(k: Call): Call
    requires k.pos <= |Coins(k.ask)|
  {
    k.(pos := |Coins(k.ask)|, misses := AllMisses(k))
  }

  lemma {:induction false} LookAway(s: State, id: nat)
    requires id in s.calls && s.calls[id].stage.Looking? && s.calls[id].pos <= |Coins(s.calls[id].ask)|
    ensures Reaches(s, s.(calls := s.calls[id := Blind(s.calls[id])]))
    decreases |Coins(s.calls[id].ask)| - s.calls[id].pos
  {
    var k := s.calls[id];
    if k.pos == |Coins(k.ask)| {
      assert Blind(k) == k;
      assert s.(calls := s.calls[id := k]) == s;
      Stays(s);
    } else {
      var m := Do(s, Look(id, false));
      assert Coins(k.ask)[k.pos..] == [Coins(k.ask)[k.pos]] + Coins(k.ask)[k.pos + 1..];
      assert Blind(m.calls[id]) == Blind(k);
      LookAway(m, id);
      assert m.(calls := m.calls[id := Blind(k)]) == s.(calls := s.calls[id := Blind(k)]);
      First(s, Look(id, false), s.(calls := s.calls[id := Blind(k)]));
    }
  }

  /** A new call that has missed every coin. */
  function Newcomer(s: State, p: nat, ask: Ask): Call { Call(p, ask, s.w.now, |Coins(ask)|, map[], Coins(ask), Looking) }

  function WithCall(s: State, p: nat, ask: Ask): State {
    s.(calls := s.calls[|s.asked| := Newcomer(s, p, ask)], asked := s.asked + [ask])
  }

  lemma MissAll(s: State, p: nat, ask: Ask)
    ensures Reaches(s, WithCall(s, p, ask))
  {
    var n, m := |s.asked|, Do(s, Start(p, ask));
    LookAway(m, n);
    assert Blind(m.calls[n]) == Newcomer(s, p, ask);
    assert m.(calls := m.calls[n := Newcomer(s, p, ask)]) == WithCall(s, p, ask);
    First(s, Start(p, ask), WithCall(s, p, ask));
  }

  // ---------- a flight that completes ----------

  /** The coins a flight will have to query for if its remaining lookups all miss. */
  function AllStill(x: Flight): seq<CoinId>
    requires x.pos <= |x.misses|
  {
    x.still + x.misses[x.pos..]
  }

  function Rechecked(x: Flight): Flight
    requires x.pos <= |x.misses|
  {
    x.(pos := |x.misses|, still := AllStill(x))
  }

  function WithFlight(s: State, f: FlightId, x: Flight): State { s.(flights := s.flights[f := x]) }

  lemma {:induction false} RecheckAway(s: State, f: FlightId)
    requires f in s.flights && s.flights[f].stage.Rechecking? && s.flights[f].pos <= |s.flights[f].misses|
    ensures Reaches(s, WithFlight(s, f, Rechecked(s.flights[f])))
    decreases |s.flights[f].misses| - s.flights[f].pos
  {
    var x := s.flights[f];
    if x.pos == |x.misses| {
      assert Rechecked(x) == x;
      assert WithFlight(s, f, x) == s;
      Stays(s);
    } else {
      var m := Do(s, Recheck(f, false));
      assert x.misses[x.pos..] == [x.misses[x.pos]] + x.misses[x.pos + 1..];
      assert Rechecked(m.flights[f]) == Rechecked(x);
      RecheckAway(m, f);
      assert WithFlight(m, f, Rechecked(x)) == WithFlight(s, f, Rechecked(x));
      First(s, Recheck(f, false), WithFlight(s, f, Rechecked(x)));
    }
  }

  function Put0(x: Flight): Flight
    requires x.stage.Fetched?
  {
    x.(stage := Fetched(x.stage.res, {}))
  }

  /** All remaining Sets can fail. */
  lemma {:induction false} PutAway(s: State, f: FlightId)
    requires f in s.flights && s.flights[f].stage.Fetched? && s.flights[f].stage.todo <= s.flights[f].stage.res.Keys
    ensures Reaches(s, WithFlight(s, f, Put0(s.flights[f])))
    decreases s.flights[f].stage.todo
  {
    var x := s.flights[f];
    if x.stage.todo == {} {
      assert Put0(x) == x;
      assert WithFlight(s, f, x) == s;
      Stays(s);
    } else {
      var c :| c in x.stage.todo;
      var m := Do(s, Put(f, c, false));
      PutAway(m, f);
      assert Put0(m.flights[f]) == Put0(x);
      assert WithFlight(m, f, Put0(x)) == WithFlight(s, f, Put0(x));
      First(s, Put(f, c, false), WithFlight(s, f, Put0(x)));
    }
  }

  ghost predicate Drivable(s: State, x: Flight) {
    && |s.w.versions| > 0 && x.pos <= |x.misses|
    && (x.stage.Fetched? ==> x.stage.todo <= x.stage.res.Keys)
  }

  /** What becomes of a flight whose remaining lookups miss and whose Sets fail. */
  function Driven(s: State, x: Flight): Flight
    requires Drivable(s, x)
  {
    if x.stage.Fetched? then Put0(x)
    else
      var y := Rechecked(x);
      if y.still == [] then y else y.(stage := Fetched(Results(s, y), {}))
  }

  lemma QueryAndPut(s: State, f: FlightId)
    requires f in s.flights && Enabled(s, Query(f))
    ensures Reaches(s, WithFlight(s, f, s.flights[f].(stage := Fetched(Results(s, s.flights[f]), {}))))
  {
    var x, m := s.flights[f], Do(s, Query(f));
    PutAway(m, f);
    var y := x.(stage := Fetched(Results(s, x), {}));
    assert Put0(m.flights[f]) == y;
    assert WithFlight(m, f, y) == WithFlight(s, f, y);
    First(s, Query(f), WithFlight(s, f, y));
  }

  lemma SameResults(s: State, m: State, y: Flight)
    requires s.w == m.w && |s.w.versions| > 0
    ensures Results(m, y) == Results(s, y)
  {
  }

  /** Only the world matters to what a flight brings. */
  lemma SameWorld(s: State, m: State, x: Flight)
    requires s.w == m.w && Drivable(s, x)
    ensures Drivable(m, x) && Driven(m, x) == Driven(s, x)
  {
    SameResults(s, m, Rechecked(x));
  }

  lemma WithTwice(s: State, f: FlightId, y: Flight, z: Flight)
    ensures WithFlight(WithFlight(s, f, y), f, z) == WithFlight(s, f, z)
  {
    assert s.flights[f := y][f := z] == s.flights[f := z];
  }

  lemma DriveLooking(s: State, f: FlightId)
    requires f in s.flights && Drivable(s, s.flights[f]) && s.flights[f].stage.Rechecking?
    ensures Reaches(s, WithFlight(s, f, Driven(s, s.flights[f])))
  {
    var y := Rechecked(s.flights[f]);
    RecheckAway(s, f);
    if y.still != [] {
      var m, z := WithFlight(s, f, y), y.(stage := Fetched(Results(s, y), {}));
      SameResults(s, m, y);
      QueryAndPut(m, f);
      WithTwice(s, f, y, z);
      Then(s, m, WithFlight(s, f, z));
    }
  }

  lemma Drive(s: State, f: FlightId)
    requires f in s.flights && Drivable(s, s.flights[f])
    ensures Reaches(s, WithFlight(s, f, Driven(s, s.flights[f])))
  {
    if s.flights[f].stage.Fetched? {
      PutAway(s, f);
    } else {
      DriveLooking(s, f);
    }
  }

  lemma DrivenIsComplete(s: State, x: Flight)
    requires Drivable(s, x)
    ensures Complete(Driven(s, x)) && Driven(s, x).misses == x.misses
  {
  }

  // ---------- a waiting call that is answered ----------

  function Answer(s: State, k: Call, x: Flight): map<CoinId, Got>
    requires Drivable(s, x)
  {
    Merged(k.hits, ValueOf(Driven(s, x)))
  }

  /** Some continuation serves this. */
  ghost predicate CanServe(s: State, v: Serve) { exists t :: Reaches(s, t) && |t.served| > |s.served| && t.served[|s.served|] == v }

  lemma CanServeAfter(s: State, m: State, v: Serve)
    requires Reaches(s, m) && m.served == s.served && CanServe(m, v)
    ensures CanServe(s, v)
  {
    var t :| Reaches(m, t) && |t.served| > |m.served| && t.served[|m.served|] == v;
    Then(s, m, t);
  }

  lemma ReturnServes(s: State, id: nat)
    requires Enabled(s, Return(id))
    ensures var k := s.calls[id];
            CanServe(s, Serve(id, k.ask, k.misses, k.stage.from, k.since, Merged(k.hits, k.stage.value), s.w.now))
  {
    OneStep(s, Return(id));
    var k := s.calls[id];
    assert Do(s, Return(id)).served[|s.served|] == Serve(id, k.ask, k.misses, k.stage.from, k.since, Merged(k.hits, k.stage.value), s.w.now);
  }

  lemma LandServes(s: State, id: nat, f: FlightId)
    requires id in s.calls && WaitsFor(s.calls[id], f) && Enabled(s, Land(f))
    ensures var k, x := s.calls[id], s.flights[f];
            CanServe(s, Serve(id, k.ask, k.misses, x.misses, k.since, Merged(k.hits, ValueOf(x)), s.w.now))
  {
    OneStep(s, Land(f));
    var m := Do(s, Land(f));
    assert m.calls[id] == s.calls[id].(stage := Landed(ValueOf(s.flights[f]), s.flights[f].misses));
    ReturnServes(m, id);
    var k, x := s.calls[id], s.flights[f];
    CanServeAfter(s, m, Serve(id, k.ask, k.misses, x.misses, k.since, Merged(k.hits, ValueOf(x)), s.w.now));
  }

  lemma WaitingServes(s: State, id: nat, f: FlightId)
    requires id in s.calls && WaitsFor(s.calls[id], f) && f in s.flights && Drivable(s, s.flights[f])
    ensures var k, x := s.calls[id], s.flights[f];
            CanServe(s, Serve(id, k.ask, k.misses, x.misses, k.since, Answer(s, k, x), s.w.now))
  {
    Drive(s, f);
    var k, x := s.calls[id], s.flights[f];
    DrivenIsComplete(s, x);
    var m := WithFlight(s, f, Driven(s, x));
    LandServes(m, id, f);
    CanServeAfter(s, m, Serve(id, k.ask, k.misses, x.misses, k.since, Answer(s, k, x), s.w.now));
  }

  // ---------- leading and joining ----------

  /** A flight with this key has failed, if there was one. */
  function Freed(s: State, f: FlightId): State { if f in s.flights then Do(s, Abandon(f)) else s }

  lemma Free(s: State, f: FlightId)
    ensures Reaches(s, Freed(s, f)) && f !in Freed(s, f).flights
    ensures Freed(s, f).w == s.w && Freed(s, f).served == s.served && Freed(s, f).asked == s.asked
    ensures forall id :: id in s.calls && s.calls[id].stage.Looking? ==> id in Freed(s, f).calls && Freed(s, f).calls[id] == s.calls[id]
  {
    if f in s.flights {
      OneStep(s, Abandon(f));
    } else {
      Stays(s);
    }
  }

  function NewFlight(ask: Ask, misses: seq<CoinId>, now: int): Flight { Flight(ask, misses, now, 0, map[], [], Rechecking) }

  lemma LeadFree(s: State, id: nat)
    requires Enabled(s, Lead(id)) && |s.w.versions| > 0
    ensures var k := s.calls[id];
            CanServe(s, Serve(id, k.ask, k.misses, k.misses, k.since, Answer(s, k, NewFlight(k.ask, k.misses, s.w.now)), s.w.now))
  {
    var k := s.calls[id];
    var f, x := FlightOf(k), NewFlight(k.ask, k.misses, s.w.now);
    OneStep(s, Lead(id));
    var n := Do(s, Lead(id));
    assert n.flights[f] == x && n.calls[id] == k.(stage := Waiting(f.key));
    WaitingServes(n, id, f);
    SameWorld(s, n, x);
    CanServeAfter(s, n, Serve(id, k.ask, k.misses, k.misses, k.since, Answer(s, k, x), s.w.now));
  }

  /** A call that is done looking can lead its own flight, after the one in its place has failed. */
  lemma LeadServes(s: State, id: nat)
    requires Looked(s, id) && s.calls[id].misses != [] && |s.w.versions| > 0
    ensures var k := s.calls[id];
            CanServe(s, Serve(id, k.ask, k.misses, k.misses, k.since, Answer(s, k, NewFlight(k.ask, k.misses, s.w.now)), s.w.now))
  {
    var k := s.calls[id];
    Free(s, FlightOf(k));
    var m, x := Freed(s, FlightOf(k)), NewFlight(k.ask, k.misses, s.w.now);
    LeadFree(m, id);
    SameWorld(s, m, x);
    CanServeAfter(s, m, Serve(id, k.ask, k.misses, k.misses, k.since, Answer(s, k, x), s.w.now));
  }

  lemma JoinServes(s: State, id: nat)
    requires Looked(s, id) && s.calls[id].misses != [] && FlightOf(s.calls[id]) in s.flights && Drivable(s, s.flights[FlightOf(s.calls[id])])
    ensures var k := s.calls[id]; var x := s.flights[FlightOf(k)];
            CanServe(s, Serve(id, k.ask, k.misses, x.misses, Min(k.since, x.openedAt), Answer(s, k, x), s.w.now))
  {
    var k := s.calls[id];
    var f := FlightOf(k);
    var x := s.flights[f];
    OneStep(s, Join(id));
    var m := Do(s, Join(id));
    assert m.calls[id] == k.(stage := Waiting(f.key), since := Min(k.since, x.openedAt)) && m.flights == s.flights;
    SameWorld(s, m, x);
    WaitingServes(m, id, f);
    CanServeAfter(s, m, Serve(id, k.ask, k.misses, x.misses, Min(k.since, x.openedAt), Answer(s, k, x), s.w.now));
  }

  /** Another call of the same process leads the flight of this list. */
  lemma OtherLeads(s: State, process: nat, ask: Ask) returns (t: State)
    requires Coins(ask) != [] && FlightId(process, FlightKey(ask, Coins(ask))) !in s.flights
    ensures Reaches(s, t) && t.w == s.w && t.served == s.served
    ensures t.flights == s.flights[FlightId(process, FlightKey(ask, Coins(ask))) := NewFlight(ask, Coins(ask), s.w.now)]
    ensures forall id :: id in s.calls && id < |s.asked| ==> id in t.calls && t.calls[id] == s.calls[id]
  {
    MissAll(s, process, ask);
    var u, n := WithCall(s, process, ask), |s.asked|;
    assert FlightOf(u.calls[n]) == FlightId(process, FlightKey(ask, Coins(ask)));
    OneStep(u, Lead(n));
    t := Do(u, Lead(n));
    Then(s, u, t);
  }

  /** A call that is done looking can be made to join the flight of any other list with its key. */
  lemma OtherFlightServes(s: State, id: nat, p: seq<CoinId>)
    requires Looked(s, id) && s.calls[id].misses != [] && |s.w.versions| > 0 && id < |s.asked| && p != []
    requires s.calls[id].ask.Many? && FlightKey(Many(p, s.calls[id].ask.limit), p) == FlightKey(s.calls[id].ask, s.calls[id].misses)
    ensures var k := s.calls[id]; var x := NewFlight(Many(p, k.ask.limit), p, s.w.now);
            CanServe(s, Serve(id, k.ask, k.misses, p, Min(k.since, s.w.now), Answer(s, k, x), s.w.now))
  {
    var k := s.calls[id];
    var f, ask := FlightOf(k), Many(p, k.ask.limit);
    var x := NewFlight(ask, p, s.w.now);
    Free(s, f);
    var m := Freed(s, f);
    var t := OtherLeads(m, k.process, ask);
    assert t.flights[f] == x && t.calls[id] == k;
    JoinServes(t, id);
    SameWorld(s, t, x);
    Then(s, m, t);
    CanServeAfter(s, t, Serve(id, k.ask, k.misses, p, Min(k.since, s.w.now), Answer(s, k, x), s.w.now));
  }
}
