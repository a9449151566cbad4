/** A projector whose statements succeed reaches the end of the log, and then the read model agrees
    with the events (internal/projection/projector.go). */
module CatchUp {
  import opened Market
  import opened EventStore
  import opened StoreTheorems
  import opened Projector
  import opened Pipeline
  import LateCommits
  import Unchecked
  import Ordering

  /** The step of a projector that neither fails nor crashes. */
  predicate Clean(x: PipeAction) { x.Project? && !x.b.ProjectFails? && !x.b.Crash? && x.b != Save(false) }

  ghost predicate CleanRun(h: CoinId -> int, s: Pipe, acts: seq<PipeAction>, s': Pipe) {
    PipeRun(h, s, acts, s') && forall i :: 0 <= i < |acts| ==> Clean(acts[i])
  }

  /** Some failure-free continuation reaches the end of the log. */
  ghost predicate CanCatchUp(h: CoinId -> int, s: Pipe) {
    exists acts, s' :: CleanRun(h, s, acts, s') && CaughtUp(s') && s'.db == s.db
  }

  lemma CatchUpStep(h: CoinId -> int, db: Db, p: Proj, b: ProjAction)
    requires CanStep(p, db.log, b) && Clean(Project(b)) && CanCatchUp(h, Pipe(db, Step(p, db.log, b)))
    ensures CanCatchUp(h, Pipe(db, p))
  {
    var acts, s' :| CleanRun(h, Pipe(db, Step(p, db.log, b)), acts, s') && CaughtUp(s') && s'.db == db;
    var all := [Project(b)] + acts;
    assert all[0] == Project(b) && all[1..] == acts;
    assert CleanRun(h, Pipe(db, p), all, s');
  }

  /** Where a live process stands between two rows: the closer to the next row, the smaller. */
  function Rank(w: Process): nat {
    match w.stage
    case Upserted => 0
    case AtRecord => if w.pos < |w.batch| then 1 else 4
    case Idle => 2
    case Saving => 3
  }

  /** What is needed of the projector's variables, in any visibility order. */
  ghost predicate Sane(p: Proj, log: seq<Row>) {
    AnyOrder(p) && KnownIds(p, log) && LateCommits.Poised(p) && DistinctLog(log)
  }

  lemma SaneStep(p: Proj, log: seq<Row>, b: ProjAction)
    requires Sane(p, log) && CanStep(p, log, b)
    ensures Sane(Step(p, log, b), log)
  {
    AnyOrderStep(p, log, b);
    KnownStep(p, log, b);
    LateCommits.PoisedStep(p, log, b);
  }

  /** The next step of a live projector that has not reached the end. */
  function NextStep(p: Proj): ProjAction
    requires p.live.Some?
  {
    var w := p.live.value;
    match w.stage
    case Idle => Fetch
    case Saving => Save(true)
    case Upserted => AddHistory
    case AtRecord =>
      if w.pos >= |w.batch| then EndBatch
      else if Decodable(w.batch[w.pos].base) then Upsert else Skip
  }

  lemma NextIsProgress(p: Proj, log: seq<Row>)
    requires Sane(p, log) && p.live.Some? && (p.live.value.stage.Idle? ==> NewEvents(log, p.live.value.lastId, FETCH) != [])
    ensures CanStep(p, log, NextStep(p)) && Clean(Project(NextStep(p)))
    ensures var w, q := p.live.value, Step(p, log, NextStep(p));
            && q.live.Some?
            && (Unread(log, q.live.value.lastId) < Unread(log, w.lastId) ||
                (q.live.value.lastId == w.lastId && Rank(q.live.value) < Rank(w)))
  {
    var w := p.live.value;
    if (w.stage.AtRecord? && w.pos < |w.batch|) || w.stage.Upserted? {
      UnreadShrinks(log, w.lastId, w.batch[w.pos]);
    }
  }

  lemma {:induction false} LiveCatchesUp(h: CoinId -> int, db: Db, p: Proj)
    requires Sane(p, db.log) && p.live.Some?
    ensures CanCatchUp(h, Pipe(db, p))
    decreases Unread(db.log, p.live.value.lastId), Rank(p.live.value)
  {
    var w := p.live.value;
    if w.stage.Idle? && NewEvents(db.log, w.lastId, FETCH) == [] {
      NothingNew(db.log, w.lastId, FETCH);
      assert CleanRun(h, Pipe(db, p), [], Pipe(db, p));
    } else {
      var b := NextStep(p);
      NextIsProgress(p, db.log);
      SaneStep(p, db.log, b);
      LiveCatchesUp(h, db, Step(p, db.log, b));
      CatchUpStep(h, db, p, b);
    }
  }

  /** From every reachable state, crashed or not and whatever was lost before, a failure-free
      continuation of the projector reaches the end of the log. */
  lemma AlwaysCatchesUp(h: CoinId -> int, acts: seq<PipeAction>, s: Pipe)
    requires PipeRun(h, LAUNCH, acts, s)
    ensures CanCatchUp(h, s)
  {
    LaunchAnyOrder();
    AnyOrderRun(h, LAUNCH, acts, s);
    LateCommits.PoisedAlong(h, LAUNCH, acts, s);
    assert s == Pipe(s.db, s.proj) && Sane(s.proj, s.db.log);
    if s.proj.live.None? {
      SaneStep(s.proj, s.db.log, Boot);
      LiveCatchesUp(h, s.db, Step(s.proj, s.db.log, Boot));
      CatchUpStep(h, s.db, s.proj, Boot);
    } else {
      LiveCatchesUp(h, s.db, s.proj);
    }
  }

  // ---------- and then the read model agrees ----------

  lemma {:induction false} CleanIsTimely(h: CoinId -> int, s: Pipe, acts: seq<PipeAction>, m: Pipe, more: seq<PipeAction>, s': Pipe)
    requires TimelyRun(h, s, acts, m) && CleanRun(h, m, more, s')
    ensures TimelyRun(h, s, acts + more, s')
    decreases |acts|, |more|
  {
    if acts != [] {
      assert (acts + more)[0] == acts[0] && (acts + more)[1..] == acts[1..] + more;
      CleanIsTimely(h, After(h, s, acts[0]), acts[1..], m, more, s');
    } else if more != [] {
      assert acts + more == more;
      assert OnTime(h, m, more[0]);
      CleanIsTimely(h, After(h, m, more[0]), [], After(h, m, more[0]), more[1..], s');
      assert [] + more[1..] == more[1..];
    } else {
      assert acts + more == [];
    }
  }

  /** In every run of concurrent processors whose commits lay above the horizon, wherever the projector
      has got to: some failure-free continuation makes every coin's row agree with its events. */
  lemma ReadModelConverges(h: CoinId -> int, acts: seq<PipeAction>, s: Pipe)
    requires TimelyRun(h, LAUNCH, acts, s) && forall i :: 0 <= i < |acts| ==> ByProcessor(acts[i])
    ensures exists more, s' :: CleanRun(h, s, more, s') && CaughtUp(s') && s'.db == s.db && forall c :: Agreed(s', c)
  {
    TimelyIsRun(h, LAUNCH, acts, s);
    AlwaysCatchesUp(h, acts, s);
    var more, s' :| CleanRun(h, s, more, s') && CaughtUp(s') && s'.db == s.db;
    CleanIsTimely(h, LAUNCH, acts, s, more, s');
    var all := acts + more;
    assert forall i :: 0 <= i < |all| ==> ByProcessor(all[i]);
    forall c ensures Agreed(s', c) {
      EndToEnd(h, all, s', c);
    }
  }

  /** One sequential aggregator needs no hypothesis on visibility. */
  lemma SequentialEndToEnd(h: CoinId -> int, acts: seq<PipeAction>, s: Pipe, c: CoinId)
    requires PipeRun(h, LAUNCH, acts, s) && SequentialRun(h, EMPTY, Writes(acts), s.db) && CaughtUp(s)
    requires forall i :: 0 <= i < |acts| ==> ByProcessor(acts[i])
    ensures Agreed(s, c)
  {
    SequentialIsIdOrdered(h, EMPTY, Writes(acts), s.db);
    IdOrderedIsTimely(h, LAUNCH, acts, s);
    EndToEnd(h, acts, s, c);
  }
}
