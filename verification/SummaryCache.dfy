/** How stale GetMarketSummary (internal/query/cached_repo.go) can be.  One coin's cache key is
    shared by any number of requests, in any number of API processes (each with its own
    singleflight group), and by the projector that upserts the row and then deletes the key.
    Committed rows are numbered 1, 2, ... in the order the projector writes them; 0 is no row. */
module SummaryCache {
  import opened Market

  /** Ten seconds, in milliseconds. */
  const TTL: int := 10_000

  /** A row, the flight that read it from the database, and when. */
  datatype Source = Source(row: nat, flight: nat)

  datatype Entry = Entry(src: Source, setAt: int)

  /** What a caller gets: the row, when the flight or the caller obtained it, and, if that was from
      the cache, when it had been set. */
  datatype Got = Got(src: Source, setAt: Option<int>, at: int)

  datatype Phase = Looking | Fetched(src: Source, at: int) | Holding(got: Got)

  /** An open singleflight call of one process: its leader and everyone who joined. */
  datatype Flight = Flight(id: nat, callers: seq<nat>, phase: Phase)

  /** An answer: at once from the cache, or by the landing of flight `via`. */
  datatype Serve = Serve(caller: nat, got: Got, at: int, via: Option<nat>)

  datatype ProjectorAt = Between | Upserted | Recorded

  datatype State = State(
    now: int,
    committed: nat,
    entry: Option<Entry>,
    flights: map<nat, Flight>,
    nextFlight: nat,
    projector: ProjectorAt,
    served: seq<Serve>)

  const INIT := State(0, 0, None, map[], 0, Between, [])

  datatype Action =
    | Hit(caller: nat)
    | Lead(caller: nat, process: nat)
    | Join(caller: nat, process: nat)
    | Recheck(process: nat)
    | Query(process: nat)
    | Abandon(process: nat)
    | Set(process: nat, took: bool)
    | Land(process: nat)
    | Upsert
    | Record
    | Delete(took: bool)
    | GiveUp
    | Evict
    | Tick(dt: nat)

  predicate Live(s: State) { s.entry.Some? && s.now <= s.entry.value.setAt + TTL }

  function FromCache(s: State): Got
    requires Live(s)
  {
    Got(s.entry.value.src, Some(s.entry.value.setAt), s.now)
  }

  predicate InPhase(s: State, p: nat, f: Phase -> bool) { p in s.flights && f(s.flights[p].phase) }

  /** A Get may miss a live key (a Redis error counts as a miss), so only hits have a guard. */
  predicate Enabled(s: State, a: Action) {
    match a
    case Hit(_) => Live(s)
    case Lead(_, p) => p !in s.flights
    case Join(_, p) => p in s.flights
    case Recheck(p) => InPhase(s, p, (x: Phase) => x.Looking?) && Live(s)
    case Query(p) => InPhase(s, p, (x: Phase) => x.Looking?) && s.committed > 0
    case Abandon(p) => InPhase(s, p, (x: Phase) => x.Looking?)
    case Set(p, _) => InPhase(s, p, (x: Phase) => x.Fetched?)
    case Land(p) => InPhase(s, p, (x: Phase) => x.Holding?)
    case Upsert => s.projector.Between?
    case Record => s.projector.Upserted?
    case Delete(_) => s.projector.Recorded?
    case GiveUp => true
    case Evict => true
    case Tick(_) => true
  }

  function Serves(callers: seq<nat>, got: Got, at: int, flight: nat): seq<Serve> {
    seq(|callers|, i requires 0 <= i < |callers| => Serve(callers[i], got, at, Some(flight)))
  }

  function WithPhase(s: State, p: nat, x: Phase): State
    requires p in s.flights
  {
    s.(flights := s.flights[p := s.flights[p].(phase := x)])
  }

  function Do(s: State, a: Action): State
    requires Enabled(s, a)
  {
    match a
    case Hit(c) => s.(served := s.served + [Serve(c, FromCache(s), s.now, None)])
    case Lead(c, p) => s.(flights := s.flights[p := Flight(s.nextFlight, [c], Looking)], nextFlight := s.nextFlight + 1)
    case Join(c, p) => s.(flights := s.flights[p := s.flights[p].(callers := s.flights[p].callers + [c])])
    case Recheck(p) => WithPhase(s, p, Holding(FromCache(s)))
    case Query(p) => WithPhase(s, p, Fetched(Source(s.committed, s.flights[p].id), s.now))
    case Abandon(p) => s.(flights := s.flights - {p})
    case Set(p, took) =>
      var x := s.flights[p].phase;
      var t := WithPhase(s, p, Holding(Got(x.src, None, x.at)));
      if took then t.(entry := Some(Entry(x.src, s.now))) else t
    case Land(p) =>
      var f := s.flights[p];
      s.(flights := s.flights - {p}, served := s.served + Serves(f.callers, f.phase.got, s.now, f.id))
    case Upsert => s.(committed := s.committed + 1, projector := Upserted)
    case Record => s.(projector := Recorded)
    case Delete(took) => s.(entry := if took then None else s.entry, projector := Between)
    case GiveUp => s.(projector := Between)
    case Evict => s.(entry := None)
    case Tick(dt) => s.(now := s.now + dt)
  }

  ghost predicate Run(s: State, acts: seq<Action>, s': State)
    decreases |acts|
  {
    if acts == [] then s == s'
    else Enabled(s, acts[0]) && Run(Do(s, acts[0]), acts[1..], s')
  }

  // ---------- where a served row comes from ----------

  /** Step i of the run is the read of src by its flight: the row was the committed one then. */
  ghost predicate ReadAt(acts: seq<Action>, i: int, src: Source) {
    0 <= i < |acts| && acts[i].Query? &&
    exists s :: Run(INIT, acts[..i], s) && Enabled(s, acts[i]) && s.committed == src.row && s.flights[acts[i].process].id == src.flight
  }

  /** Step i of the run is the Set of src, at time t. */
  ghost predicate SetAt(acts: seq<Action>, i: int, src: Source, t: int) {
    0 <= i < |acts| && acts[i].Set? && acts[i].took &&
    exists s :: Run(INIT, acts[..i], s) && Enabled(s, acts[i]) && s.now == t && s.flights[acts[i].process].phase.src == src
  }

  ghost predicate WasRead(acts: seq<Action>, src: Source) { exists i :: ReadAt(acts, i, src) }

  ghost predicate WasSet(acts: seq<Action>, src: Source, t: int) { exists i :: SetAt(acts, i, src, t) }

  /** A got row was read in this run, and if it came from the cache it had been set at most ten
      seconds before. */
  ghost predicate Sound(acts: seq<Action>, g: Got) {
    WasRead(acts, g.src) &&
    (g.setAt.Some? ==> WasSet(acts, g.src, g.setAt.value) && g.setAt.value <= g.at <= g.setAt.value + TTL)
  }

  ghost predicate SoundPhase(acts: seq<Action>, x: Phase, now: int) {
    && (x.Fetched? ==> WasRead(acts, x.src) && x.at <= now)
    && (x.Holding? ==> Sound(acts, x.got) && x.got.at <= now)
  }

  ghost predicate SoundEntry(acts: seq<Action>, e: Option<Entry>, now: int) {
    e.Some? ==> WasRead(acts, e.value.src) && WasSet(acts, e.value.src, e.value.setAt) && e.value.setAt <= now
  }

  ghost predicate SoundServe(acts: seq<Action>, v: Serve, now: int) {
    Sound(acts, v.got) && v.got.at <= v.at <= now && (v.via.None? ==> v.got.setAt.Some? && v.at == v.got.at)
  }

  ghost predicate Inv(acts: seq<Action>, s: State) {
    && SoundEntry(acts, s.entry, s.now)
    && FlightsSound(acts, s)
    && ServedSound(acts, s)
  }

  lemma Extend(acts: seq<Action>, a: Action, src: Source, t: int)
    ensures WasRead(acts, src) ==> WasRead(acts + [a], src)
    ensures WasSet(acts, src, t) ==> WasSet(acts + [a], src, t)
  {
    if WasRead(acts, src) {
      var i :| ReadAt(acts, i, src);
      assert (acts + [a])[..i] == acts[..i];
      assert ReadAt(acts + [a], i, src);
    }
    if WasSet(acts, src, t) {
      var i :| SetAt(acts, i, src, t);
      assert (acts + [a])[..i] == acts[..i];
      assert SetAt(acts + [a], i, src, t);
    }
  }

  lemma ExtendGot(acts: seq<Action>, a: Action, g: Got)
    requires Sound(acts, g)
    ensures Sound(acts + [a], g)
  {
    Extend(acts, a, g.src, if g.setAt.Some? then g.setAt.value else 0);
  }

  /** Soundness survives longer runs and later clocks. */
  lemma ExtendInv(acts: seq<Action>, a: Action, s: State, now: int)
    requires Inv(acts, s) && s.now <= now
    ensures Inv(acts + [a], s.(now := now))
  {
    if s.entry.Some? {
      Extend(acts, a, s.entry.value.src, s.entry.value.setAt);
    }
    forall p | p in s.flights ensures SoundPhase(acts + [a], s.flights[p].phase, now) {
      match s.flights[p].phase {
        case Looking =>
        case Fetched(src, at) => Extend(acts, a, src, 0);
        case Holding(got) => ExtendGot(acts, a, got);
      }
    }
    forall k | 0 <= k < |s.served| ensures SoundServe(acts + [a], s.served[k], now) {
      ExtendGot(acts, a, s.served[k].got);
    }
  }

  lemma QueryIsRead(acts: seq<Action>, s: State, p: nat)
    requires Run(INIT, acts, s) && Enabled(s, Query(p))
    ensures WasRead(acts + [Query(p)], Source(s.committed, s.flights[p].id))
  {
    assert (acts + [Query(p)])[..|acts|] == acts;
    assert ReadAt(acts + [Query(p)], |acts|, Source(s.committed, s.flights[p].id));
  }

  lemma SetIsSet(acts: seq<Action>, s: State, p: nat)
    requires Run(INIT, acts, s) && Enabled(s, Set(p, true))
    ensures WasSet(acts + [Set(p, true)], s.flights[p].phase.src, s.now)
  {
    assert (acts + [Set(p, true)])[..|acts|] == acts;
    assert SetAt(acts + [Set(p, true)], |acts|, s.flights[p].phase.src, s.now);
  }

  ghost predicate FlightsSound(acts: seq<Action>, s: State) {
    forall p :: p in s.flights ==> SoundPhase(acts, s.flights[p].phase, s.now)
  }

  ghost predicate ServedSound(acts: seq<Action>, s: State) {
    forall k :: 0 <= k < |s.served| ==> SoundServe(acts, s.served[k], s.now)
  }

  /** With the old state's facts carried over to the longer run, each step adds only sound rows. */
  lemma StepEntry(acts: seq<Action>, s: State, a: Action)
    requires Run(INIT, acts, s) && Enabled(s, a) && Inv(acts + [a], s.(now := Do(s, a).now))
    ensures SoundEntry(acts + [a], Do(s, a).entry, Do(s, a).now)
  {
    if a.Set? && a.took {
      SetIsSet(acts, s, a.process);
      assert SoundPhase(acts + [a], s.flights[a.process].phase, s.now);
    }
  }

  lemma StepFlights(acts: seq<Action>, s: State, a: Action)
    requires Run(INIT, acts, s) && Enabled(s, a) && Inv(acts + [a], s.(now := Do(s, a).now))
    ensures FlightsSound(acts + [a], Do(s, a))
  {
    if a.Query? {
      QueryIsRead(acts, s, a.process);
    }
  }

  lemma StepServed(acts: seq<Action>, s: State, a: Action)
    requires Enabled(s, a) && Inv(acts + [a], s.(now := Do(s, a).now))
    ensures ServedSound(acts + [a], Do(s, a))
  {
    if a.Land? {
      assert SoundPhase(acts + [a], s.flights[a.process].phase, s.now);
    }
  }

  lemma StepKeepsInv(acts: seq<Action>, s: State, a: Action)
    requires Run(INIT, acts, s) && Inv(acts, s) && Enabled(s, a)
    ensures Inv(acts + [a], Do(s, a))
  {
    ExtendInv(acts, a, s, Do(s, a).now);
    StepEntry(acts, s, a);
    StepFlights(acts, s, a);
    StepServed(acts, s, a);
  }

  lemma {:induction false} RunSnoc(s: State, acts: seq<Action>, m: State, a: Action)
    requires Run(s, acts, m) && Enabled(m, a)
    ensures Run(s, acts + [a], Do(m, a))
    decreases |acts|
  {
    if acts == [] {
      assert ([] + [a])[1..] == [];
    } else {
      assert (acts + [a])[1..] == acts[1..] + [a];
      RunSnoc(Do(s, acts[0]), acts[1..], m, a);
    }
  }

  lemma {:induction false} InvAlong(before: seq<Action>, s: State, acts: seq<Action>, s': State)
    requires Run(INIT, before, s) && Inv(before, s) && Run(s, acts, s')
    ensures Inv(before + acts, s')
    decreases |acts|
  {
    if acts == [] {
      assert before + acts == before;
    } else {
      StepKeepsInv(before, s, acts[0]);
      RunSnoc(INIT, before, s, acts[0]);
      InvAlong(before + [acts[0]], Do(s, acts[0]), acts[1..], s');
      assert before + acts == before + [acts[0]] + acts[1..];
    }
  }

  /** In every run each served row was the committed row at its flight's read step; a row taken from
      the cache was taken at most ten seconds after it was set, and a hit is served right then. */
  lemma ServedWasCommitted(acts: seq<Action>, s: State, v: Serve)
    requires Run(INIT, acts, s) && v in s.served
    ensures exists i :: ReadAt(acts, i, v.got.src)
    ensures v.got.setAt.Some? ==> v.got.at - v.got.setAt.value <= 10_000 && exists j :: SetAt(acts, j, v.got.src, v.got.setAt.value)
    ensures v.got.at <= v.at
    ensures v.via.None? ==> v.got.setAt.Some? && v.at - v.got.setAt.value <= 10_000
  {
    InvAlong([], INIT, acts, s);
    assert [] + acts == acts;
  }

  /** An entry answers requests for ten seconds after its Set and not a moment longer. */
  lemma EntryLivesTenSeconds(s: State, p: nat, dt: nat)
    requires Enabled(s, Set(p, true))
    ensures Enabled(Do(Do(s, Set(p, true)), Tick(dt)), Hit(0)) <==> dt <= 10_000
  {
  }

  // ---------- what invalidation guarantees ----------

  /** The row a flight carries, if it has one. */
  function Carried(f: Flight): Option<nat> {
    match f.phase
    case Looking => None
    case Fetched(src, _) => Some(src.row)
    case Holding(got) => Some(got.src.row)
  }

  /** Some open flight carries this row. */
  ghost predicate InTheAir(s: State, row: nat) {
    exists p :: p in s.flights && Carried(s.flights[p]) == Some(row)
  }

  /** d is a state just after a projection upserted its row and deleted the key. */
  ghost predicate JustInvalidated(d: State) {
    exists s :: Reachable(s) && Enabled(s, Delete(true)) && d == Do(s, Delete(true))
  }

  ghost predicate Reachable(s: State) { exists acts :: Run(INIT, acts, s) }

  /** Rows that may still show up after d: those at least as new, and those in the air at d. */
  ghost predicate Fresh(d: State, row: nat) { row >= d.committed || InTheAir(d, row) }

  ghost predicate FenceInv(d: State, s: State) {
    && s.committed >= d.committed && |d.served| <= |s.served|
    && (s.entry.Some? ==> Fresh(d, s.entry.value.src.row))
    && (forall p :: p in s.flights && Carried(s.flights[p]).Some? ==> Fresh(d, Carried(s.flights[p]).value))
    && (forall k :: |d.served| <= k < |s.served| ==> Fresh(d, s.served[k].got.src.row))
  }

  lemma FenceStep(d: State, s: State, a: Action)
    requires FenceInv(d, s) && Enabled(s, a)
    ensures FenceInv(d, Do(s, a))
  {
    if a.Land? {
      assert Carried(s.flights[a.process]).Some?;
    }
    if a.Set? {
      assert Carried(s.flights[a.process]).Some?;
    }
  }

  lemma {:induction false} FenceAlong(d: State, s: State, acts: seq<Action>, s': State)
    requires FenceInv(d, s) && Run(s, acts, s')
    ensures FenceInv(d, s')
    decreases |acts|
  {
    if acts != [] {
      FenceStep(d, s, acts[0]);
      FenceAlong(d, Do(s, acts[0]), acts[1..], s');
    }
  }

  /** After d some run serves the given row. */
  ghost predicate ServedLater(d: State, row: nat) {
    exists acts, s, k :: Run(d, acts, s) && |d.served| <= k < |s.served| && s.served[k].got.src.row == row
  }

  /** A flight that carries a row can land and serve it: its leader is still there to take it. */
  ghost predicate HasCallers(s: State) { forall p :: p in s.flights ==> s.flights[p].callers != [] }

  lemma {:induction false} CallersAlong(s: State, acts: seq<Action>, s': State)
    requires HasCallers(s) && Run(s, acts, s')
    ensures HasCallers(s')
    decreases |acts|
  {
    if acts != [] {
      CallersAlong(Do(s, acts[0]), acts[1..], s');
    }
  }

  lemma Lands(d: State, p: nat)
    requires p in d.flights && d.flights[p].phase.Holding? && d.flights[p].callers != []
    ensures var e := Do(d, Land(p));
            |e.served| > |d.served| && e.served[|d.served|].got.src == d.flights[p].phase.got.src
  {
  }

  lemma TwoSteps(s: State, a: Action, b: Action)
    requires Enabled(s, a) && Enabled(Do(s, a), b)
    ensures Run(s, [a, b], Do(Do(s, a), b))
  {
    assert [a, b][1..] == [b] && [b][1..] == [];
  }

  lemma OneStep(s: State, a: Action)
    requires Enabled(s, a)
    ensures Run(s, [a], Do(s, a))
  {
    assert [a][1..] == [];
  }

  /** Exactly the rows carried by flights open at the delete can still be served although they are
      older than the projected row; with no such flight, every later answer is at least as new. */
  lemma StaleOnlyInTheAir(d: State, row: nat)
    requires JustInvalidated(d) && row < d.committed
    ensures ServedLater(d, row) <==> InTheAir(d, row)
  {
    if ServedLater(d, row) {
      var acts, s, k :| Run(d, acts, s) && |d.served| <= k < |s.served| && s.served[k].got.src.row == row;
      StillFresh(d);
      FenceAlong(d, d, acts, s);
    }
    if InTheAir(d, row) {
      var p :| p in d.flights && Carried(d.flights[p]) == Some(row);
      InvalidatedCallers(d);
      if d.flights[p].phase.Holding? {
        OneStep(d, Land(p));
        Lands(d, p);
      } else {
        var e := Do(d, Set(p, false));
        TwoSteps(d, Set(p, false), Land(p));
        Lands(e, p);
      }
    }
  }

  lemma StillFresh(d: State)
    requires JustInvalidated(d)
    ensures FenceInv(d, d)
  {
    forall p | p in d.flights && Carried(d.flights[p]).Some? ensures Fresh(d, Carried(d.flights[p]).value) {
      assert InTheAir(d, Carried(d.flights[p]).value);
    }
  }

  lemma InvalidatedCallers(d: State)
    requires JustInvalidated(d)
    ensures HasCallers(d)
  {
    var s :| Reachable(s) && Enabled(s, Delete(true)) && d == Do(s, Delete(true));
    var acts :| Run(INIT, acts, s);
    CallersAlong(INIT, acts, s);
  }

  // ---------- a stale row was read before the upsert ----------

  lemma {:induction false} RunSplit(s: State, a: seq<Action>, b: seq<Action>, s': State) returns (m: State)
    requires Run(s, a + b, s')
    ensures Run(s, a, m) && Run(m, b, s')
    decreases |a|
  {
    if a == [] {
      assert a + b == b;
      m := s;
    } else {
      assert (a + b)[0] == a[0] && (a + b)[1..] == a[1..] + b;
      m := RunSplit(Do(s, a[0]), a[1..], b, s');
    }
  }

  lemma {:induction false} RunDeterministic(s: State, acts: seq<Action>, t: State, u: State)
    requires Run(s, acts, t) && Run(s, acts, u)
    ensures t == u
    decreases |acts|
  {
    if acts != [] {
      RunDeterministic(Do(s, acts[0]), acts[1..], t, u);
    }
  }

  lemma {:induction false} CommittedGrows(s: State, acts: seq<Action>, s': State)
    requires Run(s, acts, s')
    ensures s.committed <= s'.committed
    decreases |acts|
  {
    if acts != [] {
      CommittedGrows(Do(s, acts[0]), acts[1..], s');
    }
  }

  /** Whatever row is served, its read step came before every upsert of a newer row. */
  lemma ReadBeforeUpsert(acts: seq<Action>, i: nat, src: Source, j: nat, u: State)
    requires ReadAt(acts, i, src)
    requires j < |acts| && acts[j] == Upsert && Run(INIT, acts[..j], u) && u.committed >= src.row
    ensures i < j
  {
    if j < i {
      var s :| Run(INIT, acts[..i], s) && Enabled(s, acts[i]) && s.committed == src.row;
      assert acts[..i] == acts[..j] + acts[j..i];
      var m := RunSplit(INIT, acts[..j], acts[j..i], s);
      RunDeterministic(INIT, acts[..j], m, u);
      assert acts[j..i][0] == Upsert;
      CommittedGrows(Do(m, Upsert), acts[j..i][1..], s);
    }
  }

  // ---------- one query per flight ----------

  /** Open flights carry different numbers, all of them given out. */
  ghost predicate FlightsNumbered(s: State) {
    && (forall p :: p in s.flights ==> s.flights[p].id < s.nextFlight)
    && (forall p, q :: p in s.flights && q in s.flights && p != q ==> s.flights[p].id != s.flights[q].id)
  }

  lemma {:induction false} NumberedAlong(s: State, acts: seq<Action>, t: State)
    requires FlightsNumbered(s) && Run(s, acts, t)
    ensures FlightsNumbered(t)
    decreases |acts|
  {
    if acts != [] {
      NumberedAlong(Do(s, acts[0]), acts[1..], t);
    }
  }

  /** Flight f has made its query: it is over or past looking. */
  ghost predicate Spent(s: State, f: nat) {
    f < s.nextFlight && forall p :: p in s.flights && s.flights[p].id == f ==> !s.flights[p].phase.Looking?
  }

  lemma {:induction false} SpentAlong(s: State, acts: seq<Action>, t: State, f: nat)
    requires Spent(s, f) && Run(s, acts, t)
    ensures Spent(t, f)
    decreases |acts|
  {
    if acts != [] {
      SpentAlong(Do(s, acts[0]), acts[1..], t, f);
    }
  }

  lemma QuerySpends(acts: seq<Action>, i: nat, j: nat, s: State, t: State)
    requires i < j < |acts| && Run(INIT, acts[..i], s) && Enabled(s, acts[i]) && acts[i].Query? && Run(INIT, acts[..j], t)
    ensures Spent(t, s.flights[acts[i].process].id)
  {
    NumberedAlong(INIT, acts[..i], s);
    assert acts[..j] == acts[..i] + acts[i..j];
    var m := RunSplit(INIT, acts[..i], acts[i..j], t);
    RunDeterministic(INIT, acts[..i], m, s);
    assert acts[i..j][0] == acts[i];
    SpentAlong(Do(s, acts[i]), acts[i..j][1..], t, s.flights[acts[i].process].id);
  }

  /** However many callers share it, a flight queries the database at most once. */
  lemma OneQueryPerFlight(acts: seq<Action>, i: nat, x: Source, j: nat, y: Source)
    requires ReadAt(acts, i, x) && ReadAt(acts, j, y) && x.flight == y.flight
    ensures i == j
  {
    var s :| Run(INIT, acts[..i], s) && Enabled(s, acts[i]) && s.flights[acts[i].process].id == x.flight;
    var t :| Run(INIT, acts[..j], t) && Enabled(t, acts[j]) && t.flights[acts[j].process].id == y.flight;
    if i < j {
      QuerySpends(acts, i, j, s, t);
    } else if j < i {
      QuerySpends(acts, j, i, t, s);
    }
  }

  // ---------- served more than ten seconds after its Set ----------

  /** A flight with this number holds this row. */
  ghost predicate HoldsGot(s: State, f: nat, g: Got) {
    exists p :: p in s.flights && s.flights[p].id == f && s.flights[p].phase == Holding(g)
  }

  /** Step i of the run passes the instant at which the cached row expires, while flight f holds it. */
  ghost predicate AcrossAt(acts: seq<Action>, i: int, f: nat, g: Got) {
    0 <= i < |acts| && acts[i].Tick? && g.setAt.Some? &&
    exists s :: Run(INIT, acts[..i], s) && s.now <= g.setAt.value + TTL < s.now + acts[i].dt && HoldsGot(s, f, g)
  }

  ghost predicate HeldAcross(acts: seq<Action>, f: nat, g: Got) { exists i :: AcrossAt(acts, i, f, g) }

  predicate Expired(g: Got, at: int) { g.setAt.Some? && at > g.setAt.value + TTL }

  ghost predicate HeldInv(acts: seq<Action>, s: State) {
    && (forall p :: p in s.flights && s.flights[p].phase.Holding? && Expired(s.flights[p].phase.got, s.now) ==>
          HeldAcross(acts, s.flights[p].id, s.flights[p].phase.got))
    && (forall k :: 0 <= k < |s.served| && Expired(s.served[k].got, s.served[k].at) ==>
          s.served[k].via.Some? && HeldAcross(acts, s.served[k].via.value, s.served[k].got))
  }

  lemma HeldExtends(acts: seq<Action>, a: Action, f: nat, g: Got)
    requires HeldAcross(acts, f, g)
    ensures HeldAcross(acts + [a], f, g)
  {
    var i :| AcrossAt(acts, i, f, g);
    assert (acts + [a])[..i] == acts[..i];
    assert AcrossAt(acts + [a], i, f, g);
  }

  lemma TickCrosses(acts: seq<Action>, s: State, dt: nat, p: nat)
    requires Run(INIT, acts, s) && p in s.flights && s.flights[p].phase.Holding?
    requires !Expired(s.flights[p].phase.got, s.now) && Expired(s.flights[p].phase.got, s.now + dt)
    ensures HeldAcross(acts + [Tick(dt)], s.flights[p].id, s.flights[p].phase.got)
  {
    var f, g := s.flights[p].id, s.flights[p].phase.got;
    assert HoldsGot(s, f, g);
    assert (acts + [Tick(dt)])[..|acts|] == acts;
    assert AcrossAt(acts + [Tick(dt)], |acts|, f, g);
  }

  lemma HeldCarried(acts: seq<Action>, a: Action, s: State)
    requires HeldInv(acts, s)
    ensures HeldInv(acts + [a], s)
  {
    forall p | p in s.flights && s.flights[p].phase.Holding? && Expired(s.flights[p].phase.got, s.now)
      ensures HeldAcross(acts + [a], s.flights[p].id, s.flights[p].phase.got)
    {
      HeldExtends(acts, a, s.flights[p].id, s.flights[p].phase.got);
    }
    forall k | 0 <= k < |s.served| && Expired(s.served[k].got, s.served[k].at)
      ensures s.served[k].via.Some? && HeldAcross(acts + [a], s.served[k].via.value, s.served[k].got)
    {
      HeldExtends(acts, a, s.served[k].via.value, s.served[k].got);
    }
  }

  lemma HeldStep(acts: seq<Action>, s: State, a: Action)
    requires Run(INIT, acts, s) && HeldInv(acts, s) && Enabled(s, a)
    ensures HeldInv(acts + [a], Do(s, a))
  {
    HeldCarried(acts, a, s);
    if a.Tick? {
      forall p | p in s.flights && s.flights[p].phase.Holding? && Expired(s.flights[p].phase.got, s.now + a.dt)
        ensures HeldAcross(acts + [a], s.flights[p].id, s.flights[p].phase.got)
      {
        if !Expired(s.flights[p].phase.got, s.now) {
          TickCrosses(acts, s, a.dt, p);
        }
      }
    }
  }

  lemma {:induction false} HeldAlong(before: seq<Action>, s: State, acts: seq<Action>, s': State)
    requires Run(INIT, before, s) && HeldInv(before, s) && Run(s, acts, s')
    ensures HeldInv(before + acts, s')
    decreases |acts|
  {
    if acts == [] {
      assert before + acts == before;
    } else {
      HeldStep(before, s, acts[0]);
      RunSnoc(INIT, before, s, acts[0]);
      HeldAlong(before + [acts[0]], Do(s, acts[0]), acts[1..], s');
      assert before + acts == before + [acts[0]] + acts[1..];
    }
  }

  /** Flight f is over. */
  ghost predicate Over(s: State, f: nat) { f < s.nextFlight && forall p :: p in s.flights ==> s.flights[p].id != f }

  /** Answers by a flight exist only once it is over. */
  ghost predicate Closed(s: State) {
    forall k :: 0 <= k < |s.served| && s.served[k].via.Some? ==> Over(s, s.served[k].via.value)
  }

  lemma OverStep(s: State, a: Action, f: nat)
    requires Over(s, f) && Enabled(s, a)
    ensures Over(Do(s, a), f)
  {
  }

  lemma LandingIsOver(s: State, p: nat)
    requires FlightsNumbered(s) && Enabled(s, Land(p))
    ensures Over(Do(s, Land(p)), s.flights[p].id)
  {
  }

  lemma ClosedStep(s: State, a: Action)
    requires FlightsNumbered(s) && Closed(s) && Enabled(s, a)
    ensures Closed(Do(s, a))
  {
    var t := Do(s, a);
    forall k | 0 <= k < |t.served| && t.served[k].via.Some? ensures Over(t, t.served[k].via.value) {
      if k < |s.served| {
        assert t.served[k] == s.served[k];
        OverStep(s, a, s.served[k].via.value);
      } else {
        LandingIsOver(s, a.process);
      }
    }
  }

  lemma {:induction false} ClosedAlong(s: State, acts: seq<Action>, t: State)
    requires FlightsNumbered(s) && Closed(s) && Run(s, acts, t)
    ensures Closed(t)
    decreases |acts|
  {
    if acts != [] {
      ClosedStep(s, acts[0]);
      NumberedAlong(s, [acts[0]], Do(s, acts[0]));
      ClosedAlong(Do(s, acts[0]), acts[1..], t);
    }
  }

  lemma {:induction false} LaterAnswers(s: State, acts: seq<Action>, t: State, from: int)
    requires Run(s, acts, t) && from <= s.now
    ensures s.served <= t.served && forall k :: |s.served| <= k < |t.served| ==> t.served[k].at >= from
    decreases |acts|
  {
    if acts != [] {
      LaterAnswers(Do(s, acts[0]), acts[1..], t, from);
    }
  }

  lemma AcrossMeansLate(acts: seq<Action>, i: nat, s: State, t: State, v: Serve)
    requires i < |acts| && acts[i].Tick? && Run(INIT, acts[..i], s) && Run(INIT, acts, t) && v in t.served && v.via.Some?
    requires HoldsGot(s, v.via.value, v.got)
    ensures v.at >= s.now + acts[i].dt
  {
    ClosedAlong(INIT, acts[..i], s);
    assert acts == acts[..i] + acts[i..];
    var m := RunSplit(INIT, acts[..i], acts[i..], t);
    RunDeterministic(INIT, acts[..i], m, s);
    assert acts[i..][0] == acts[i];
    LaterAnswers(Do(s, acts[i]), acts[i..][1..], t, s.now + acts[i].dt);
    var k :| 0 <= k < |t.served| && t.served[k] == v;
    assert k < |s.served| ==> s.served[k] == v;
  }

  /** A cached row is served more than ten seconds after its Set if and only if a flight held it
      across the instant at which it expired. */
  lemma ServedLateIffHeldAcross(acts: seq<Action>, s: State, v: Serve)
    requires Run(INIT, acts, s) && v in s.served && v.got.setAt.Some?
    ensures v.at - v.got.setAt.value > 10_000 <==> v.via.Some? && HeldAcross(acts, v.via.value, v.got)
  {
    HeldAlong([], INIT, acts, s);
    assert [] + acts == acts;
    if v.via.Some? && HeldAcross(acts, v.via.value, v.got) {
      var i :| AcrossAt(acts, i, v.via.value, v.got);
      var m :| Run(INIT, acts[..i], m) && m.now <= v.got.setAt.value + TTL < m.now + acts[i].dt && HoldsGot(m, v.via.value, v.got);
      AcrossMeansLate(acts, i, m, s, v);
    }
  }

  // ---------- a set row can stay in the air ----------

  /** Some flight has read a row and not yet set it. */
  ghost predicate UnsetRead(s: State) { exists p :: p in s.flights && s.flights[p].phase.Fetched? }

  lemma ReachableStep(s: State, a: Action)
    requires Reachable(s) && Enabled(s, a)
    ensures Reachable(Do(s, a))
  {
    var acts :| Run(INIT, acts, s);
    RunSnoc(INIT, acts, s, a);
  }

  const FIRST := Source(1, 0)

  /** Row 1 is committed and cached; it was read and set by flight 0, which has landed. */
  const CACHED := State(0, 1, Some(Entry(FIRST, 0)), map[], 1, Between, [Serve(7, Got(FIRST, None, 0), 0, Some(0))])

  /** Flight 1 has then found row 1 in the cache, and row 2 has been committed. */
  const OVERTAKEN := State(0, 2, Some(Entry(FIRST, 0)), map[0 := Flight(1, [8], Holding(Got(FIRST, Some(0), 0)))], 2, Recorded,
                           [Serve(7, Got(FIRST, None, 0), 0, Some(0))])

  const ASKED := State(0, 1, None, map[0 := Flight(0, [7], Looking)], 1, Between, [])

  lemma AskedReached()
    ensures Reachable(ASKED)
  {
    assert Run(INIT, [], INIT);
    ReachableStep(INIT, Upsert);
    var s1 := Do(INIT, Upsert);
    ReachableStep(s1, GiveUp);
    var s2 := Do(s1, GiveUp);
    ReachableStep(s2, Lead(7, 0));
    assert Do(s2, Lead(7, 0)) == ASKED;
  }

  lemma CachedReached()
    ensures Reachable(CACHED)
  {
    AskedReached();
    ReachableStep(ASKED, Query(0));
    var s1 := Do(ASKED, Query(0));
    ReachableStep(s1, Set(0, true));
    var s2 := Do(s1, Set(0, true));
    ReachableStep(s2, Land(0));
    assert Do(s2, Land(0)) == CACHED;
  }

  lemma OvertakenReached()
    ensures Reachable(OVERTAKEN)
  {
    CachedReached();
    ReachableStep(CACHED, Lead(8, 0));
    var s1 := Do(CACHED, Lead(8, 0));
    ReachableStep(s1, Recheck(0));
    var s2 := Do(s1, Recheck(0));
    ReachableStep(s2, Upsert);
    var s3 := Do(s2, Upsert);
    ReachableStep(s3, Record);
    assert Do(s3, Record) == OVERTAKEN;
  }

  /** It is not only unset reads that race: at this delete every read row has been set, yet a caller
      who arrives after it joins an open flight and is served the old row. */
  lemma JoinerGetsDeletedRow()
    ensures exists d, s :: && JustInvalidated(d) && !UnsetRead(d)
                           && Run(d, [Join(9, 0), Land(0)], s)
                           && s.served[|s.served| - 1].caller == 9 && s.served[|s.served| - 1].got.src.row < d.committed
  {
    OvertakenReached();
    var d := Do(OVERTAKEN, Delete(true));
    assert JustInvalidated(d);
    var e := Do(d, Join(9, 0));
    TwoSteps(d, Join(9, 0), Land(0));
    var s := Do(e, Land(0));
    assert e.flights[0].callers == [8, 9];
    assert s.served[2] == Serve(9, Got(FIRST, Some(0), 0), 0, Some(1));
  }

  /** A slow flight: half a minute passes between its second look and its landing. */
  lemma ServedHalfAMinuteLate()
    ensures exists s, v :: Reachable(s) && v in s.served && v.got.setAt.Some? && v.at - v.got.setAt.value == 30_000
  {
    CachedReached();
    ReachableStep(CACHED, Lead(8, 0));
    var s1 := Do(CACHED, Lead(8, 0));
    ReachableStep(s1, Recheck(0));
    var s2 := Do(s1, Recheck(0));
    ReachableStep(s2, Tick(30_000));
    var s3 := Do(s2, Tick(30_000));
    ReachableStep(s3, Land(0));
    var s4 := Do(s3, Land(0));
    assert s4.served[1] == Serve(8, Got(FIRST, Some(0), 0), 30_000, Some(1));
  }
}
