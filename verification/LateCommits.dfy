/** Exactly which late commits the projector can lose (internal/projection/readmodel.go).  An event
    that becomes visible above the projector's horizon is never lost, whatever happens afterwards;
    one at or below it has a continuation that loses it for good. */
module LateCommits {
  import opened Market
  import opened EventStore
  import opened StoreTheorems
  import opened Appends
  import opened Projector
  import opened Pipeline
  import Unchecked

  // ---------- runs of well-formed callers ----------

  ghost predicate Reaches(h: CoinId -> int, s: Pipe, s': Pipe) {
    exists acts :: PipeRun(h, s, acts, s') && forall i :: 0 <= i < |acts| ==> Sound(acts[i])
  }

  lemma Stays(h: CoinId -> int, s: Pipe)
    ensures Reaches(h, s, s)
  {
    assert PipeRun(h, s, [], s);
  }

  lemma ReachesFirst(h: CoinId -> int, s: Pipe, x: PipeAction, s': Pipe)
    requires Can(h, s, x) && Sound(x) && Reaches(h, After(h, s, x), s')
    ensures Reaches(h, s, s')
  {
    var acts :| PipeRun(h, After(h, s, x), acts, s') && forall i :: 0 <= i < |acts| ==> Sound(acts[i]);
    var all := [x] + acts;
    assert all[0] == x && all[1..] == acts;
    assert PipeRun(h, s, all, s');
    assert forall i :: 0 <= i < |all| ==> Sound(all[i]);
  }

  lemma {:induction false} WritesReach(h: CoinId -> int, db: Db, acts: seq<Action>, db': Db, p: Proj)
    requires Run(h, db, acts, db') && AllWellFormed(acts)
    ensures Reaches(h, Pipe(db, p), Pipe(db', p))
    decreases |acts|
  {
    if acts == [] {
      Stays(h, Pipe(db, p));
    } else {
      WritesReach(h, Do(h, db, acts[0]), acts[1..], db', p);
      ReachesFirst(h, Pipe(db, p), PipeAction.Write(acts[0]), Pipe(db', p));
    }
  }

  lemma {:induction false} ReachesTransitive(h: CoinId -> int, s: Pipe, acts: seq<PipeAction>, m: Pipe, s': Pipe)
    requires PipeRun(h, s, acts, m) && (forall i :: 0 <= i < |acts| ==> Sound(acts[i])) && Reaches(h, m, s')
    ensures Reaches(h, s, s')
    decreases |acts|
  {
    if acts != [] {
      ReachesTransitive(h, After(h, s, acts[0]), acts[1..], m, s');
      ReachesFirst(h, s, acts[0], s');
    }
  }

  /** Some continuation leaves the event at or below the saved checkpoint without projecting it. */
  ghost predicate Losable(h: CoinId -> int, s: Pipe, id: nat) { exists s' :: Reaches(h, s, s') && Lost(s'.proj, id) }

  lemma LosableAfter(h: CoinId -> int, s: Pipe, m: Pipe, id: nat)
    requires Reaches(h, s, m) && Losable(h, m, id)
    ensures Losable(h, s, id)
  {
    var s' :| Reaches(h, m, s') && Lost(s'.proj, id);
    var acts :| PipeRun(h, s, acts, m) && forall i :: 0 <= i < |acts| ==> Sound(acts[i]);
    ReachesTransitive(h, s, acts, m, s');
  }

  lemma LosableStep(h: CoinId -> int, db: Db, p: Proj, a: ProjAction, id: nat)
    requires CanStep(p, db.log, a) && Losable(h, Pipe(db, Step(p, db.log, a)), id)
    ensures Losable(h, Pipe(db, p), id)
  {
    var s' :| Reaches(h, Pipe(db, Step(p, db.log, a)), s') && Lost(s'.proj, id);
    ReachesFirst(h, Pipe(db, p), Project(a), s');
  }

  // ---------- safe above the horizon ----------

  /** Row r has been projected if it was passed, and will be met before the batch in hand passes it. */
  ghost predicate RowSafe(p: Proj, r: Row) {
    && (r.id <= Front(p) ==> WasInserted(p.history, r.id))
    && (p.live.Some? && InRecordLoop(p.live.value) && p.live.value.lastId < r.id ==>
          var w := p.live.value;
          w.pos <= |w.batch| && (r in w.batch[w.pos..] || forall k :: w.pos <= k < |w.batch| ==> w.batch[k].id < r.id))
  }

  lemma SafeFetch(p: Proj, log: seq<Row>, r: Row)
    requires AnyOrder(p) && DistinctLog(log) && r in log && RowSafe(p, r) && CanStep(p, log, Fetch)
    ensures RowSafe(Step(p, log, Fetch), r)
  {
    var w := p.live.value;
    var b := NewEvents(log, w.lastId, FETCH);
    NewEventsFacts(log, w.lastId, FETCH);
    if b != [] && w.lastId < r.id && exists k :: 0 <= k < |b| && b[k].id >= r.id {
      var k :| 0 <= k < |b| && b[k].id >= r.id;
      var i :| 0 <= i < |log| && log[i] == r;
      RowUnique(log, b[k], r);
      assert b[k].id > r.id ==> log[i] in b[..k];
      assert r in b[0..];
    }
  }

  lemma SafeAdvance(p: Proj, p': Proj, log: seq<Row>, r: Row)
    requires AnyOrder(p) && RowSafe(p, r) && p.live.Some? && InRecordLoop(p.live.value) && p.live.value.pos < |p.live.value.batch|
    requires p'.live == Some(Advance(p.live.value)) && p.history <= p'.history
    requires p.live.value.batch[p.live.value.pos] == r ==> WasInserted(p'.history, r.id)
    ensures RowSafe(p', r)
  {
    var w, v := p.live.value, p'.live.value;
    assert w.batch[w.pos..] == [w.batch[w.pos]] + w.batch[v.pos..];
    if r.id <= w.lastId {
      var k :| 0 <= k < |p.history| && p.history[k].eventId == r.id;
      assert p'.history[k].eventId == r.id;
    } else if r in w.batch[w.pos..] {
      var k :| w.pos <= k < |w.batch| && w.batch[k] == r;
      assert k > w.pos ==> r in w.batch[v.pos..];
    }
  }

  lemma SafeStep(p: Proj, log: seq<Row>, a: ProjAction, r: Row)
    requires AnyOrder(p) && DistinctLog(log) && r in log && Decodable(r.base) && RowSafe(p, r) && CanStep(p, log, a)
    ensures RowSafe(Step(p, log, a), r)
  {
    match a {
      case Fetch => SafeFetch(p, log, r);
      case Skip => SafeAdvance(p, Step(p, log, a), log, r);
      case AddHistory =>
        var p' := Step(p, log, a);
        assert p'.history[|p.history|].eventId == p.live.value.batch[p.live.value.pos].id;
        SafeAdvance(p, p', log, r);
      case _ =>
    }
  }

  lemma {:induction false} SafeAlong(h: CoinId -> int, s: Pipe, acts: seq<PipeAction>, s': Pipe, r: Row)
    requires AnyOrderPipe(s) && PipeRun(h, s, acts, s') && r in s.db.log && Decodable(r.base) && RowSafe(s.proj, r)
    ensures AnyOrderPipe(s') && RowSafe(s'.proj, r)
    decreases |acts|
  {
    if acts != [] {
      var m := After(h, s, acts[0]);
      AnyOrderPipeStep(h, s, acts[0]);
      if acts[0].Project? {
        SafeStep(s.proj, s.db.log, acts[0].b, r);
      }
      assert s.db.log <= m.db.log;
      SafeAlong(h, m, acts[1..], s', r);
    }
  }

  /** An event above the horizon is not lost in any continuation, timely or not. */
  lemma AboveIsNeverLost(h: CoinId -> int, s: Pipe, r: Row)
    requires AnyOrderPipe(s) && r in s.db.log && Decodable(r.base) && r.id > Horizon(s.proj)
    ensures !Losable(h, s, r.id)
  {
    if Losable(h, s, r.id) {
      var s' :| Reaches(h, s, s') && Lost(s'.proj, r.id);
      var acts :| PipeRun(h, s, acts, s') && forall i :: 0 <= i < |acts| ==> Sound(acts[i]);
      AboveIsSafe(s.proj, r);
      SafeAlong(h, s, acts, s', r);
    }
  }

  lemma AboveIsSafe(p: Proj, r: Row)
    requires AnyOrder(p) && r.id > Horizon(p)
    ensures RowSafe(p, r)
  {
  }

  // ---------- lost at or below it ----------

  /** The record loop's variables fit together, in any visibility order. */
  ghost predicate Poised(p: Proj) {
    p.live.Some? && InRecordLoop(p.live.value) ==>
      var w := p.live.value;
      && w.batch != [] && w.pos <= |w.batch| && (w.pos > 0 ==> w.progressed && w.lastId == w.batch[w.pos - 1].id)
      && (w.stage.Upserted? ==> w.pos < |w.batch| && Decodable(w.batch[w.pos].base))
  }

  lemma PoisedStep(p: Proj, log: seq<Row>, a: ProjAction)
    requires Poised(p) && CanStep(p, log, a)
    ensures Poised(Step(p, log, a))
  {
  }

  lemma {:induction false} PoisedAlong(h: CoinId -> int, s: Pipe, acts: seq<PipeAction>, s': Pipe)
    requires Poised(s.proj) && PipeRun(h, s, acts, s')
    ensures Poised(s'.proj)
    decreases |acts|
  {
    if acts != [] {
      if acts[0].Project? {
        PoisedStep(s.proj, s.db.log, acts[0].b);
      }
      PoisedAlong(h, After(h, s, acts[0]), acts[1..], s');
    }
  }

  /** The id is not among the records still to come. */
  ghost predicate Missed(w: Process, id: nat) { forall k :: 0 <= w.pos <= k < |w.batch| ==> w.batch[k].id != id }

  lemma SaveLoses(h: CoinId -> int, db: Db, p: Proj, id: nat)
    requires p.live.Some? && p.live.value.stage.Saving? && id <= p.live.value.lastId && !WasInserted(p.history, id)
    ensures Losable(h, Pipe(db, p), id)
  {
    var q := Step(p, db.log, Save(true));
    assert Lost(q, id);
    Stays(h, Pipe(db, q));
    LosableStep(h, db, p, Save(true), id);
  }

  lemma NotAdded(history: seq<Inserted>, x: Inserted, id: nat)
    requires !WasInserted(history, id) && x.eventId != id
    ensures !WasInserted(history + [x], id)
  {
  }

  /** If nothing fails the batch in hand is finished and saved, without the missed event. */
  lemma {:induction false} LoopLoses(h: CoinId -> int, db: Db, p: Proj, id: nat)
    requires Poised(p) && p.live.Some? && InRecordLoop(p.live.value) && Missed(p.live.value, id)
    requires id <= p.live.value.batch[|p.live.value.batch| - 1].id && !WasInserted(p.history, id)
    ensures Losable(h, Pipe(db, p), id)
    decreases |p.live.value.batch| - p.live.value.pos, if p.live.value.stage.Upserted? then 0 else 1
  {
    var w := p.live.value;
    if w.stage.Upserted? {
      PoisedStep(p, db.log, AddHistory);
      NotAdded(p.history, InsertFor(w.batch[w.pos], p.starts), id);
      LoopLoses(h, db, Step(p, db.log, AddHistory), id);
      LosableStep(h, db, p, AddHistory, id);
    } else if w.pos == |w.batch| {
      SaveLoses(h, db, Step(p, db.log, EndBatch), id);
      LosableStep(h, db, p, EndBatch, id);
    } else if Decodable(w.batch[w.pos].base) {
      PoisedStep(p, db.log, Upsert);
      LoopLoses(h, db, Step(p, db.log, Upsert), id);
      LosableStep(h, db, p, Upsert, id);
    } else {
      PoisedStep(p, db.log, Skip);
      LoopLoses(h, db, Step(p, db.log, Skip), id);
      LosableStep(h, db, p, Skip, id);
    }
  }

  // ---------- an idle projector is woken by one more event ----------

  lemma {:induction false} FreshNumber(taken: set<nat>) returns (n: nat)
    ensures n !in taken && forall m :: m in taken ==> m < n
    decreases taken
  {
    if taken == {} {
      n := 0;
    } else {
      var x :| x in taken;
      var k := FreshNumber(taken - {x});
      n := if x >= k then x + 1 else k;
      forall m | m in taken ensures m < n {
        assert m != x ==> m in taken - {x};
      }
    }
  }

  function Active(s: Db): set<nat> { set t | t in s.writers && !s.writers[t].Done? }

  /** Every open call can fail, and then nobody holds anything. */
  lemma {:induction false} Quiesce(h: CoinId -> int, s: Db) returns (acts: seq<Action>, s': Db)
    ensures Run(h, s, acts, s') && AllWellFormed(acts) && AllDone(s') && s'.log == s.log && s'.nextId == s.nextId
    decreases Active(s)
  {
    if Active(s) == {} {
      acts, s' := [], s;
      forall t | t in s.writers ensures s.writers[t].Done? {
        assert t !in Active(s);
      }
    } else {
      var t :| t in Active(s);
      var m := Do(h, s, Fail(t));
      assert Active(m) == Active(s) - {t};
      var rest;
      rest, s' := Quiesce(h, m);
      acts := [Fail(t)] + rest;
      assert acts[1..] == rest;
    }
  }

  function Ping(c: CoinId, version: int): Event {
    NewDataFetched(c, version, Payload(c, "", "", 0.0, 0.0, 0.0, 0.0, 0), 0)
  }

  /** From every reachable store one more event can be committed, with the next id. */
  lemma OneMoreEvent(h: CoinId -> int, s: Db) returns (acts: seq<Action>, s': Db)
    requires Reachable(h, s)
    ensures Run(h, s, acts, s') && AllWellFormed(acts) && |s'.log| == |s.log| + 1 && s.log <= s'.log
    ensures s'.log[|s.log|].id == s.nextId
  {
    var p, m := Quiesce(h, s);
    ReachableRun(h, s, p, m);
    ReachableTables(h, m);
    var a := CoinId("a");
    var n := Count(m.log, a);
    var c := Call(a, n, [Ping(a, n + 1)]);
    LatestIsCount(m.log, a);
    KeysAreCounts(m.log, a, n + 1);
    var t := FreshNumber(m.writers.Keys);
    LoneAppendCommits(h, m, t, c);
    AppendIsWellFormed(t, c);
    s' := Appended(m, t, c);
    RunConcat(h, s, p, m, AppendSteps(t, c), s');
    acts := p + AppendSteps(t, c);
    WellFormedConcat(p, AppendSteps(t, c));
  }

  lemma WellFormedConcat(p: seq<Action>, q: seq<Action>)
    requires AllWellFormed(p) && AllWellFormed(q)
    ensures AllWellFormed(p + q)
  {
  }

  lemma FetchIsLate(p: Proj, log: seq<Row>, id: nat)
    requires DistinctLog(log) && Poised(p) && p.live.Some? && p.live.value.stage.Idle? && id <= p.live.value.lastId && NewEvents(log, p.live.value.lastId, FETCH) != []
    ensures var q := Step(p, log, Fetch);
            && Poised(q) && q.history == p.history && q.live.Some? && InRecordLoop(q.live.value) && Missed(q.live.value, id)
            && id <= q.live.value.batch[|q.live.value.batch| - 1].id
  {
    NewEventsFacts(log, p.live.value.lastId, FETCH);
    PoisedStep(p, log, Fetch);
  }

  lemma SomethingNew(log: seq<Row>, lastId: nat, i: nat)
    requires i < |log| && log[i].id > lastId
    ensures NewEvents(log, lastId, FETCH) != []
  {
    if NewEvents(log, lastId, FETCH) == [] {
      NothingNew(log, lastId, FETCH);
    }
  }

  lemma IdleLoses(h: CoinId -> int, s: Pipe, id: nat)
    requires AnyOrderPipe(s) && Poised(s.proj) && Reachable(h, s.db)
    requires s.proj.live.Some? && s.proj.live.value.stage.Idle? && id <= s.proj.live.value.lastId && !WasInserted(s.proj.history, id)
    ensures Losable(h, s, id)
  {
    var acts, db := OneMoreEvent(h, s.db);
    WritesReach(h, s.db, acts, db, s.proj);
    var m := Pipe(db, s.proj);
    assert s == Pipe(s.db, s.proj);
    NextIsNew(s, s.proj.live.value.lastId);
    SomethingNew(db.log, s.proj.live.value.lastId, |s.db.log|);
    ReachableRun(h, s.db, acts, db);
    ReachableTables(h, db);
    FetchIsLate(s.proj, db.log, id);
    LoopLoses(h, db, Step(s.proj, db.log, Fetch), id);
    LosableStep(h, db, s.proj, Fetch, id);
    LosableAfter(h, s, m, id);
  }

  lemma NextIsNew(s: Pipe, id: nat)
    requires PipeKnown(s) && (id == 0 || IsId(s.db.log, id))
    ensures id < s.db.nextId
  {
    if id > 0 {
      var i :| 0 <= i < |s.db.log| && s.db.log[i].id == id;
    }
  }

  lemma LateCanBeLost(h: CoinId -> int, s: Pipe, id: nat)
    requires AnyOrderPipe(s) && Poised(s.proj) && Reachable(h, s.db) && id <= Horizon(s.proj) && !WasInserted(s.proj.history, id)
    requires s.proj.live.Some? && InRecordLoop(s.proj.live.value) ==> Missed(s.proj.live.value, id)
    ensures Losable(h, s, id)
  {
    assert s == Pipe(s.db, s.proj);
    if s.proj.live.None? {
      Stays(h, s);
      assert Lost(s.proj, id);
    } else {
      match s.proj.live.value.stage {
        case Idle => IdleLoses(h, s, id);
        case Saving => SaveLoses(h, s.db, s.proj, id);
        case _ => LoopLoses(h, s.db, s.proj, id);
      }
    }
  }

  // ---------- exactly ----------

  /** The row is visible, was not projected, and the batch in hand was fetched without it. */
  ghost predicate JustVisible(s: Pipe, r: Row) {
    && r in s.db.log && Decodable(r.base) && !WasInserted(s.proj.history, r.id)
    && (s.proj.live.Some? && InRecordLoop(s.proj.live.value) ==> Missed(s.proj.live.value, r.id))
  }

  lemma RunFacts(h: CoinId -> int, acts: seq<PipeAction>, s: Pipe)
    requires PipeRun(h, LAUNCH, acts, s) && forall i :: 0 <= i < |acts| ==> Sound(acts[i])
    ensures AnyOrderPipe(s) && Poised(s.proj) && Reachable(h, s.db)
  {
    LaunchAnyOrder();
    AnyOrderRun(h, LAUNCH, acts, s);
    PoisedAlong(h, LAUNCH, acts, s);
    StoreShare(h, LAUNCH, acts, s);
    var w := Writes(acts);
    forall i | 0 <= i < |w| ensures WellFormedAction(w[i]) {
      assert w[i] in w;
    }
    assert WellFormedRun(h, w, s.db);
  }

  /** In every run, timely or not: an event that has become visible can still be lost if and only if
      it lies at or below the projector's horizon. */
  lemma LostIffBelowHorizon(h: CoinId -> int, acts: seq<PipeAction>, s: Pipe, r: Row)
    requires PipeRun(h, LAUNCH, acts, s) && (forall i :: 0 <= i < |acts| ==> Sound(acts[i])) && JustVisible(s, r)
    ensures Losable(h, s, r.id) <==> r.id <= Horizon(s.proj)
  {
    RunFacts(h, acts, s);
    if r.id <= Horizon(s.proj) {
      LateCanBeLost(h, s, r.id);
    } else {
      AboveIsNeverLost(h, s, r);
    }
  }
}
