/** Writers and the projector together, and what their combination guarantees end to end. */
module Pipeline {
  import opened Market
  import opened EventStore
  import opened StoreTheorems
  import opened Projector
  import Unchecked
  import Ordering

  datatype Pipe = Pipe(db: Db, proj: Proj)

  const LAUNCH := Pipe(EMPTY, BLANK)

  datatype PipeAction = Write(a: Action) | Project(b: ProjAction)

  predicate Can(h: CoinId -> int, s: Pipe, x: PipeAction) {
    match x
    case Write(a) => Enabled(h, s.db, a)
    case Project(b) => CanStep(s.proj, s.db.log, b)
  }

  function After(h: CoinId -> int, s: Pipe, x: PipeAction): Pipe
    requires Can(h, s, x)
  {
    match x
    case Write(a) => s.(db := Do(h, s.db, a))
    case Project(b) => s.(proj := Step(s.proj, s.db.log, b))
  }

  ghost predicate PipeRun(h: CoinId -> int, s: Pipe, acts: seq<PipeAction>, s': Pipe)
    decreases |acts|
  {
    if acts == [] then s' == s
    else Can(h, s, acts[0]) && PipeRun(h, After(h, s, acts[0]), acts[1..], s')
  }

  predicate Sound(x: PipeAction) { x.Write? ==> WellFormedAction(x.a) }

  predicate ByProcessor(x: PipeAction) { x.Write? ==> !x.a.Arrive? }

  /** The writers' share of a run is itself a run of the store. */
  function Writes(acts: seq<PipeAction>): seq<Action> {
    if acts == [] then [] else (if acts[0].Write? then [acts[0].a] else []) + Writes(acts[1..])
  }

  lemma {:induction false} StoreShare(h: CoinId -> int, s: Pipe, acts: seq<PipeAction>, s': Pipe)
    requires PipeRun(h, s, acts, s')
    ensures Run(h, s.db, Writes(acts), s'.db)
    ensures forall a :: a in Writes(acts) ==> PipeAction.Write(a) in acts
    decreases |acts|
  {
    if acts != [] {
      StoreShare(h, After(h, s, acts[0]), acts[1..], s');
      var w := Writes(acts[1..]);
      if acts[0].Write? {
        assert ([acts[0].a] + w)[1..] == w;
      } else {
        assert [] + w == w;
      }
    }
  }

  lemma {:induction false} PipeLogGrows(h: CoinId -> int, s: Pipe, acts: seq<PipeAction>, s': Pipe)
    requires PipeRun(h, s, acts, s')
    ensures s.db.log <= s'.db.log
    decreases |acts|
  {
    if acts != [] {
      PipeLogGrows(h, After(h, s, acts[0]), acts[1..], s');
    }
  }

  // ---------- the visibility hypothesis ----------

  /** The step is not a commit of a row that the projector may already have passed. */
  ghost predicate OnTime(h: CoinId -> int, s: Pipe, x: PipeAction)
    requires Can(h, s, x)
  {
    Above(s.proj, s.db.log, After(h, s, x).db.log)
  }

  /** A run in which every commit lies above the projector's horizon. */
  ghost predicate TimelyRun(h: CoinId -> int, s: Pipe, acts: seq<PipeAction>, s': Pipe)
    decreases |acts|
  {
    if acts == [] then s' == s
    else Can(h, s, acts[0]) && OnTime(h, s, acts[0]) && TimelyRun(h, After(h, s, acts[0]), acts[1..], s')
  }

  lemma {:induction false} TimelyIsRun(h: CoinId -> int, s: Pipe, acts: seq<PipeAction>, s': Pipe)
    requires TimelyRun(h, s, acts, s')
    ensures PipeRun(h, s, acts, s')
    decreases |acts|
  {
    if acts != [] {
      TimelyIsRun(h, After(h, s, acts[0]), acts[1..], s');
    }
  }

  ghost predicate PipeKnown(s: Pipe) { Unchecked.IdsInv(s.db) && KnownIds(s.proj, s.db.log) }

  lemma KnownPipeStep(h: CoinId -> int, s: Pipe, x: PipeAction)
    requires PipeKnown(s) && Can(h, s, x)
    ensures PipeKnown(After(h, s, x))
  {
    match x {
      case Write(a) =>
        Unchecked.StepIds(h, s.db, a);
        KnownGrows(s.proj, s.db.log, After(h, s, x).db.log);
      case Project(b) => KnownStep(s.proj, s.db.log, b);
    }
  }

  /** Runs whose events become visible in id order are among them: the hypothesis is weaker. */
  lemma {:induction false} IdOrderedIsTimely(h: CoinId -> int, s: Pipe, acts: seq<PipeAction>, s': Pipe)
    requires PipeKnown(s) && PipeRun(h, s, acts, s') && IdOrdered(s'.db.log)
    ensures TimelyRun(h, s, acts, s')
    decreases |acts|
  {
    if acts != [] {
      var m := After(h, s, acts[0]);
      PipeLogGrows(h, m, acts[1..], s');
      assert IdOrdered(m.db.log);
      IdOrderedIsAbove(s.proj, s.db.log, m.db.log);
      KnownPipeStep(h, s, acts[0]);
      IdOrderedIsTimely(h, m, acts[1..], s');
    }
  }

  ghost predicate PipeInv(s: Pipe) { Unchecked.IdsInv(s.db) && ProjInv(s.proj, s.db.log) }

  lemma PipeStep(h: CoinId -> int, s: Pipe, x: PipeAction)
    requires PipeInv(s) && Can(h, s, x) && OnTime(h, s, x)
    ensures PipeInv(After(h, s, x))
  {
    match x {
      case Write(a) =>
        Unchecked.StepIds(h, s.db, a);
        LogStep(s.proj, s.db.log, After(h, s, x).db.log);
      case Project(b) => ProjStep(s.proj, s.db.log, b);
    }
  }

  /** If every commit lay above the horizon, every state of the run satisfies the projector's
      invariant. */
  lemma {:induction false} PipeKeeps(h: CoinId -> int, s: Pipe, acts: seq<PipeAction>, s': Pipe)
    requires TimelyRun(h, s, acts, s') && PipeInv(s)
    ensures PipeInv(s')
    decreases |acts|
  {
    if acts != [] {
      PipeStep(h, s, acts[0]);
      PipeKeeps(h, After(h, s, acts[0]), acts[1..], s');
    }
  }

  lemma LaunchInv()
    ensures PipeInv(LAUNCH)
  {
    EmptyWindow([], 0, 0);
  }

  // ---------- checkpoint safety, exact history, convergence ----------

  /** Checkpoint safety in every reachable state: the saved checkpoint never exceeds lastId, and
      every decodable event at or below either has been fully projected: its coin, price and instant are
      in the history and its coin's row is as new; every history row records some logged event. */
  lemma CheckpointSafety(h: CoinId -> int, acts: seq<PipeAction>, s: Pipe)
    requires TimelyRun(h, LAUNCH, acts, s)
    ensures s.proj.live.Some? ==> s.proj.checkpoint <= s.proj.live.value.lastId
    ensures s.proj.checkpoint <= Front(s.proj)
    ensures forall i :: 0 <= i < |s.db.log| && s.db.log[i].id <= Front(s.proj) && Decodable(s.db.log[i].base) ==>
                          FullyProjected(s.proj, s.db.log[i])
    ensures forall k :: 0 <= k < |s.proj.history| ==> RecordsSome(s.proj.history[k], s.db.log)
  {
    LaunchInv();
    PipeKeeps(h, LAUNCH, acts, s);
    forall k | 0 <= k < |s.proj.history| ensures RecordsSome(s.proj.history[k], s.db.log) {
      GenuineRecords(s.proj, s.db.log, k);
    }
    forall i | 0 <= i < |s.db.log| && s.db.log[i].id <= Front(s.proj) && Decodable(s.db.log[i].base)
      ensures FullyProjected(s.proj, s.db.log[i])
    {
      InsertedPoint(s.proj, s.db.log, i);
    }
  }

  ghost predicate RecordsSome(x: Inserted, log: seq<Row>) { exists i :: 0 <= i < |log| && Records(x, log[i]) }

  lemma GenuineRecords(p: Proj, log: seq<Row>, k: nat)
    requires AllGenuine(p, log) && k < |p.history|
    ensures RecordsSome(p.history[k], log)
  {
    var x := p.history[k];
    assert Genuine(log, x);
    var i :| 0 <= i < |log| && Decodable(log[i].base) && x == InsertFor(log[i], x.start);
    assert Records(x, log[i]);
  }

  /** The event has been recorded in the history and its coin's row comes from it or a later event. */
  ghost predicate FullyProjected(p: Proj, r: Row)
    requires Decodable(r.base)
  {
    NoOlder(p, r) && exists k :: 0 <= k < |p.history| && Records(p.history[k], r)
  }

  lemma InsertedPoint(p: Proj, log: seq<Row>, i: nat)
    requires ProjInv(p, log) && DistinctLog(log) && i < |log| && log[i].id <= Front(p) && Decodable(log[i].base)
    ensures FullyProjected(p, log[i])
  {
    assert WasInserted(p.history, log[i].id) && NoOlder(p, log[i]);
    var k :| 0 <= k < |p.history| && p.history[k].eventId == log[i].id;
    assert Genuine(log, p.history[k]);
    var j :| 0 <= j < |log| && Decodable(log[j].base) && p.history[k] == InsertFor(log[j], p.history[k].start);
    assert log[j].id == log[i].id && i == j;
    assert Records(p.history[k], log[i]);
  }

  /** Within a live process, the history inserts of its start record exactly the decodable events between
      its base checkpoint and lastId, each with its coin, price and instant, once each and in id order. */
  lemma HistoryExact(h: CoinId -> int, acts: seq<PipeAction>, s: Pipe)
    requires TimelyRun(h, LAUNCH, acts, s) && s.proj.live.Some?
    ensures var w := s.proj.live.value;
            var x, d := InsertsOf(s.proj.history, s.proj.starts), Ordering.Where(IsDecodable(), RowsBetween(s.db.log, w.base, w.lastId));
            && |x| == |d| && (forall k :: 0 <= k < |d| ==> Records(x[k], d[k]))
            && (forall i, j :: 0 <= i < j < |d| ==> d[i].id < d[j].id)
            && forall r :: r in d <==> r in s.db.log && Decodable(r.base) && w.base < r.id <= w.lastId
  {
    LaunchInv();
    PipeKeeps(h, LAUNCH, acts, s);
    var w := s.proj.live.value;
    var rows := RowsBetween(s.db.log, w.base, w.lastId);
    BetweenFacts(s.db.log, w.base, w.lastId);
    InsertsRecord(rows, s.proj.starts);
    WhereAscends(IsDecodable(), rows);
  }

  lemma {:induction false} WhereAscends(p: Row -> bool, rows: seq<Row>)
    requires Ordering.Ascending(RowIdBefore, rows)
    ensures Ordering.Ascending(RowIdBefore, Ordering.Where(p, rows))
  {
    if rows != [] {
      var r := rows[..|rows| - 1];
      WhereAscends(p, r);
      var d := Ordering.Where(p, r);
      forall k | 0 <= k < |d| ensures d[k].id < rows[|rows| - 1].id {
        assert d[k] in d;
        var j :| 0 <= j < |r| && r[j] == d[k];
        assert RowIdBefore(rows[j], rows[|rows| - 1]);
      }
    }
  }

  /** Convergence: each coin's row comes from an event no older than the latest decodable event
      of that coin at or below lastId, after any crashes, failed saves and half-done projections. */
  lemma Convergence(h: CoinId -> int, acts: seq<PipeAction>, s: Pipe, i: nat)
    requires TimelyRun(h, LAUNCH, acts, s)
    requires i < |s.db.log| && Decodable(s.db.log[i].base) && s.db.log[i].id <= Front(s.proj)
    ensures var c := PayloadOf(s.db.log[i].base).coinId;
            && c in s.proj.summaries && s.db.log[i].id <= s.proj.summaries[c].source
            && (exists j :: 0 <= j < |s.db.log| && s.db.log[j].id == s.proj.summaries[c].source && Mirrors(s.proj.summaries[c].row, s.db.log[j]))
  {
    LaunchInv();
    PipeKeeps(h, LAUNCH, acts, s);
    assert NoOlder(s.proj, s.db.log[i]);
    RowIsMirrored(s.proj, s.db.log, PayloadOf(s.db.log[i].base).coinId);
  }

  ghost predicate CaughtUp(s: Pipe) {
    forall i :: 0 <= i < |s.db.log| ==> s.db.log[i].id <= Front(s.proj)
  }

  ghost predicate Agrees(row: Summary, a: Aggregate) {
    && row.coinId == a.id && row.symbol == a.symbol && row.name == a.name && row.currentPrice == a.currentPrice
    && row.marketCap == a.marketCap && row.volume24h == a.volume24h && row.priceChange24h == a.priceChange24h
  }

  /** Within an aggregate, commit order is id order. */
  ghost predicate AggregateOrdered(log: seq<Row>) {
    forall i, j :: 0 <= i < j < |log| && log[i].base.aggId == log[j].base.aggId ==> log[i].id < log[j].id
  }

  /** A caught-up summary is the image of its coin's last event. */
  lemma CaughtUpIsLatest(p: Proj, log: seq<Row>, c: CoinId)
    requires UpToDate(p, log, Front(p)) && Images(p, log) && AggregateOrdered(log) && forall i :: 0 <= i < |log| ==> log[i].id <= Front(p)
    requires forall i :: 0 <= i < |log| ==> Readable(log[i].base)
    ensures var q := Ordering.Where(OfAggregate(c), log);
            if q == [] then c !in p.summaries
            else c in p.summaries && Decodable(q[|q| - 1].base) && p.summaries[c].row == SummaryOf(PayloadOf(q[|q| - 1].base))
  {
    if Ordering.Where(OfAggregate(c), log) != [] {
      var j := LastOf(log, c);
      assert NoOlder(p, log[j]);
      var i :| 0 <= i < |log| && log[i].id == p.summaries[c].source && Decodable(log[i].base) &&
               PayloadOf(log[i].base).coinId == c && p.summaries[c].row == SummaryOf(PayloadOf(log[i].base));
      assert log[j].id <= log[i].id && i <= j;
      assert i == j;
    } else {
      forall i | 0 <= i < |log| ensures log[i].base.aggId != c {
        assert log[i] in log;
      }
    }
  }

  /** The last row of an aggregate in the log. */
  lemma {:induction false} LastOf(log: seq<Row>, c: CoinId) returns (j: nat)
    requires Ordering.Where(OfAggregate(c), log) != []
    ensures var q := Ordering.Where(OfAggregate(c), log);
            j < |log| && log[j] == q[|q| - 1] && log[j].base.aggId == c && forall i :: j < i < |log| ==> log[i].base.aggId != c
  {
    if log[|log| - 1].base.aggId == c {
      j := |log| - 1;
    } else {
      j := LastOf(log[..|log| - 1], c);
    }
  }

  /** The coin's events decode and number its aggregate, and its summary row agrees with the aggregate
      replayed from them in version order; a coin without events has no row. */
  ghost predicate Agreed(s: Pipe, c: CoinId) {
    var q := LoadRows(s.db.log, c);
    && Decoded(q).Ok? && Replay(Fresh(c), Decoded(q).value).version == |q|
    && (q == [] <==> c !in s.proj.summaries)
    && (q != [] ==> Agrees(s.proj.summaries[c].row, Replay(Fresh(c), Decoded(q).value)))
  }

  /** End to end: in every run of concurrent processors and a crashing projector whose commits lay
      above the projector's horizon, once the projector has reached the end of the log each coin's
      summary row agrees with the aggregate replayed from that coin's events in version order. */
  lemma EndToEnd(h: CoinId -> int, acts: seq<PipeAction>, s: Pipe, c: CoinId)
    requires TimelyRun(h, LAUNCH, acts, s) && CaughtUp(s)
    requires forall i :: 0 <= i < |acts| ==> ByProcessor(acts[i])
    ensures Agreed(s, c)
  {
    TimelyIsRun(h, LAUNCH, acts, s);
    ProcessorPipe(h, acts, s);
    LaunchInv();
    PipeKeeps(h, LAUNCH, acts, s);
    EndToEndOfLog(s.proj, s.db.log, c);
  }

  lemma ProcessorPipe(h: CoinId -> int, acts: seq<PipeAction>, s: Pipe)
    requires PipeRun(h, LAUNCH, acts, s)
    requires forall i :: 0 <= i < |acts| ==> ByProcessor(acts[i])
    ensures Numbered(s.db.log) && AggregateOrdered(s.db.log)
    ensures forall i :: 0 <= i < |s.db.log| ==> Readable(s.db.log[i].base)
  {
    StoreShare(h, LAUNCH, acts, s);
    var w := Writes(acts);
    forall i | 0 <= i < |w| ensures !w[i].Arrive? {
      assert w[i] in w;
    }
    ProcessorRunReadable(h, w, s.db);
    assert WellFormedRun(h, w, s.db);
    RunTables(h, w, s.db);
  }

  lemma EndToEndOfLog(p: Proj, log: seq<Row>, c: CoinId)
    requires UpToDate(p, log, Front(p)) && Images(p, log) && AggregateOrdered(log) && forall i :: 0 <= i < |log| ==> log[i].id <= Front(p)
    requires Numbered(log) && forall i :: 0 <= i < |log| ==> Readable(log[i].base)
    ensures var q := LoadRows(log, c);
            && Decoded(q).Ok? && Replay(Fresh(c), Decoded(q).value).version == |q|
            && (q == [] <==> c !in p.summaries)
            && (q != [] ==> Agrees(p.summaries[c].row, Replay(Fresh(c), Decoded(q).value)))
  {
    HydrationOfLog(log, c);
    LoadRowsIsCommitOrder(log, c);
    LatestIsLastLoaded(log, c);
    CaughtUpIsLatest(p, log, c);
    var q := LoadRows(log, c);
    if q != [] {
      assert q[|q| - 1] in q;
      ReplayVersion(Fresh(c), Decoded(q).value);
    }
  }

  // ---------- without the visibility hypothesis ----------

  ghost predicate AnyOrderPipe(s: Pipe) { PipeKnown(s) && AnyOrder(s.proj) }

  lemma AnyOrderPipeStep(h: CoinId -> int, s: Pipe, x: PipeAction)
    requires AnyOrderPipe(s) && Can(h, s, x)
    ensures AnyOrderPipe(After(h, s, x)) && s.proj.checkpoint <= After(h, s, x).proj.checkpoint
    ensures forall id :: Lost(s.proj, id) ==> Lost(After(h, s, x).proj, id)
  {
    KnownPipeStep(h, s, x);
    if x.Project? {
      AnyOrderStep(s.proj, s.db.log, x.b);
      forall id | Lost(s.proj, id) ensures Lost(After(h, s, x).proj, id) {
        LostStep(s.proj, s.db.log, x.b, id);
      }
    }
  }

  lemma {:induction false} AnyOrderRun(h: CoinId -> int, s: Pipe, acts: seq<PipeAction>, s': Pipe)
    requires AnyOrderPipe(s) && PipeRun(h, s, acts, s')
    ensures AnyOrderPipe(s') && s.proj.checkpoint <= s'.proj.checkpoint
    ensures forall id :: Lost(s.proj, id) ==> Lost(s'.proj, id)
    decreases |acts|
  {
    if acts != [] {
      AnyOrderPipeStep(h, s, acts[0]);
      AnyOrderRun(h, After(h, s, acts[0]), acts[1..], s');
    }
  }

  lemma LaunchAnyOrder()
    ensures AnyOrderPipe(LAUNCH)
  {
  }

  /** Whatever the visibility order: the checkpoint never decreases, never exceeds lastId, and
      each process start inserts an event at most once, in ascending id order. */
  lemma OncePerStart(h: CoinId -> int, acts: seq<PipeAction>, s: Pipe, more: seq<PipeAction>, s': Pipe)
    requires PipeRun(h, LAUNCH, acts, s) && PipeRun(h, s, more, s')
    ensures s.proj.checkpoint <= s'.proj.checkpoint
    ensures s'.proj.live.Some? ==> s'.proj.checkpoint <= s'.proj.live.value.lastId
    ensures forall j, k :: 0 <= j < k < |s'.proj.history| && s'.proj.history[j].start == s'.proj.history[k].start ==>
                             s'.proj.history[j].eventId < s'.proj.history[k].eventId
  {
    LaunchAnyOrder();
    AnyOrderRun(h, LAUNCH, acts, s);
    AnyOrderRun(h, s, more, s');
  }

  /** An event that becomes visible at or below the saved checkpoint is never projected, in any
      continuation, restarts included. */
  lemma LateEventIsLostForever(h: CoinId -> int, acts: seq<PipeAction>, s: Pipe, more: seq<PipeAction>, s': Pipe, id: nat)
    requires PipeRun(h, LAUNCH, acts, s) && PipeRun(h, s, more, s')
    requires id <= s.proj.checkpoint && !WasInserted(s.proj.history, id)
    ensures !WasInserted(s'.proj.history, id)
  {
    LaunchAnyOrder();
    AnyOrderRun(h, LAUNCH, acts, s);
    AnyOrderRun(h, s, more, s');
    assert Lost(s.proj, id);
  }
}
