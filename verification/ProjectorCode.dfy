/** Projector.Start and Project as imperative code over the read tables.  The field m is the step
    machine of module Projector running in lock-step; the log may grow between any two statements,
    by rows above the horizon. */
module ProjectorCode {
  import opened Market
  import opened EventStore
  import opened StoreTheorems
  import opened Projector
  import Ordering

  function Points(history: seq<Inserted>): seq<Point> {
    if history == [] then [] else Points(history[..|history| - 1]) + [history[|history| - 1].point]
  }

  lemma {:induction false} PointsConcat(p: seq<Inserted>, q: seq<Inserted>)
    ensures Points(p + q) == Points(p) + Points(q)
  {
    if q == [] {
      assert p + q == p;
    } else {
      assert (p + q)[..|p + q| - 1] == p + q[..|q| - 1];
      PointsConcat(p, q[..|q| - 1]);
    }
  }

  function RowsOf(summaries: map<CoinId, Sourced>): map<CoinId, Summary> {
    map c | c in summaries :: summaries[c].row
  }

  /** A projector run against a growing log. */
  datatype Move = Grew(log: seq<Row>) | Did(a: ProjAction)

  ghost predicate ProjRun(p: Proj, log: seq<Row>, moves: seq<Move>, p': Proj, log': seq<Row>)
    decreases |moves|
  {
    if moves == [] then p' == p && log' == log
    else
      match moves[0]
      case Grew(l) => Above(p, log, l) && ProjRun(p, l, moves[1..], p', log')
      case Did(a) => CanStep(p, log, a) && ProjRun(Step(p, log, a), log, moves[1..], p', log')
  }

  ghost predicate Reached(p: Proj, log: seq<Row>) {
    DistinctLog(log) && exists moves :: ProjRun(BLANK, [], moves, p, log)
  }

  lemma {:induction false} RunSnoc(p: Proj, log: seq<Row>, moves: seq<Move>, p': Proj, log': seq<Row>, x: Move)
    requires ProjRun(p, log, moves, p', log')
    ensures x.Grew? && Above(p', log', x.log) ==> ProjRun(p, log, moves + [x], p', x.log)
    ensures x.Did? && CanStep(p', log', x.a) ==> ProjRun(p, log, moves + [x], Step(p', log', x.a), log')
    decreases |moves|
  {
    if moves == [] {
      assert ([] + [x])[1..] == [];
    } else {
      assert (moves + [x])[0] == moves[0];
      assert (moves + [x])[1..] == moves[1..] + [x];
      match moves[0] {
        case Grew(l) => RunSnoc(p, l, moves[1..], p', log', x);
        case Did(a) => RunSnoc(Step(p, log, a), log, moves[1..], p', log', x);
      }
    }
  }

  lemma ReachedStep(p: Proj, log: seq<Row>, a: ProjAction)
    requires Reached(p, log) && CanStep(p, log, a)
    ensures Reached(Step(p, log, a), log)
  {
    var moves :| ProjRun(BLANK, [], moves, p, log);
    RunSnoc(BLANK, [], moves, p, log, Did(a));
    assert ProjRun(BLANK, [], moves + [Did(a)], Step(p, log, a), log);
  }

  lemma ReachedGrow(p: Proj, log: seq<Row>, log': seq<Row>)
    requires Reached(p, log) && Above(p, log, log') && DistinctLog(log')
    ensures Reached(p, log')
  {
    var moves :| ProjRun(BLANK, [], moves, p, log);
    RunSnoc(BLANK, [], moves, p, log, Grew(log'));
    assert ProjRun(BLANK, [], moves + [Grew(log')], p, log');
  }

  lemma {:induction false} RunInv(p: Proj, log: seq<Row>, moves: seq<Move>, p': Proj, log': seq<Row>)
    requires ProjInv(p, log) && ProjRun(p, log, moves, p', log') && DistinctLog(log')
    ensures ProjInv(p', log') && log <= log'
    decreases |moves|
  {
    if moves != [] {
      RunGrows(p, log, moves, p', log');
      match moves[0] {
        case Grew(l) =>
          RunGrows(p, l, moves[1..], p', log');
          LogStep(p, log, l);
          RunInv(p, l, moves[1..], p', log');
        case Did(a) =>
          ProjStep(p, log, a);
          RunInv(Step(p, log, a), log, moves[1..], p', log');
      }
    }
  }

  lemma {:induction false} RunGrows(p: Proj, log: seq<Row>, moves: seq<Move>, p': Proj, log': seq<Row>)
    requires ProjRun(p, log, moves, p', log')
    ensures log <= log'
    decreases |moves|
  {
    if moves != [] {
      match moves[0] {
        case Grew(l) => RunGrows(p, l, moves[1..], p', log');
        case Did(a) => RunGrows(Step(p, log, a), log, moves[1..], p', log');
      }
    }
  }

  /** What every reached state guarantees about the read tables. */
  lemma ReachedFacts(p: Proj, log: seq<Row>)
    requires Reached(p, log)
    ensures Bounds(p) && UpToDate(p, log, Front(p)) && Images(p, log) && Exact(p, log)
  {
    var moves :| ProjRun(BLANK, [], moves, p, log);
    EmptyWindow([], 0, 0);
    RunInv(BLANK, [], moves, p, log);
  }

  lemma BootFacts(p: Proj, log: seq<Row>)
    requires Reached(p, log)
    ensures InsertsOf(p.history, p.starts + 1) == []
  {
    ReachedFacts(p, log);
    FreshStart(p.history, p.starts + 1);
  }

  lemma StopFacts(p: Proj, log: seq<Row>, w: Process, before: seq<Inserted>)
    requires Reached(p, log) && p.live == Some(w) && p.history == before + InsertsOf(p.history, p.starts)
    ensures Points(p.history) == Points(before) + Points(DecodableInserts(log, w.base, w.lastId, p.starts))
    ensures p.checkpoint <= w.lastId
    ensures UpToDate(p.(live := None), log, w.lastId) && Images(p.(live := None), log)
  {
    ReachedFacts(p, log);
    PointsConcat(before, InsertsOf(p.history, p.starts));
    forall i | 0 <= i < |log| && log[i].id <= w.lastId && Decodable(log[i].base) ensures NoOlder(p.(live := None), log[i]) {
      assert NoOlder(p, log[i]);
    }
  }

  /** What the surroundings of one poll do: which statements succeed, and which rows are committed while
      the loop sleeps, at each interruption inside a batch, and before the checkpoint is saved. */
  datatype Env = Env(fate: nat -> bool, asleep: seq<Row>, arrivals: nat -> seq<Row>, saving: seq<Row>)

  predicate NewIds(log: seq<Row>, rows: seq<Row>) {
    && (forall i, j :: 0 <= i < j < |rows| ==> rows[i].id != rows[j].id)
    && (forall i, j :: 0 <= i < |log| && 0 <= j < |rows| ==> log[i].id != rows[j].id)
  }

  /** The rows fit: they have ids of their own, above the horizon. */
  predicate Fits(p: Proj, log: seq<Row>, rows: seq<Row>) {
    NewIds(log, rows) && forall i :: 0 <= i < |rows| ==> rows[i].id > Horizon(p)
  }

  function Grown(p: Proj, log: seq<Row>, rows: seq<Row>): seq<Row> { if Fits(p, log, rows) then log + rows else log }

  /** Record i of a batch does not stop the loop: it is skipped, or both of its statements succeed. */
  predicate Passes(r: Row, fate: nat -> bool, i: nat) { Decodable(r.base) ==> fate(1 + 2 * i) && fate(2 + 2 * i) }

  /** The loop passes the first n records and stops at the next one, if there is one. */
  ghost predicate StopsAfter(records: seq<Row>, fate: nat -> bool, n: nat) {
    && n <= |records| && (forall i :: 0 <= i < n ==> Passes(records[i], fate, i))
    && (n < |records| ==> !Passes(records[n], fate, n))
  }

  lemma DecodedPayload(b: Base, ev: Event)
    requires Decode(b) == Ok(ev)
    ensures Decodable(b) && ev.MarketEvent? && ev.payload == PayloadOf(b)
  {
  }

  /** The payload's coin has its row, column by column, and no other row has changed. */
  ghost predicate Written(before: map<CoinId, Summary>, after: map<CoinId, Summary>, p: Payload) {
    p.coinId in after && Shows(after[p.coinId], p) && after == before[p.coinId := after[p.coinId]]
  }

  /** Nobody else commits anything. */
  ghost predicate Still(env: Env) { env.asleep == [] && env.saving == [] && forall k :: env.arrivals(k) == [] }

  /** Every statement succeeds and nobody else commits anything. */
  ghost predicate Smooth(env: Env) { Still(env) && forall k :: env.fate(k) }

  /** After a smooth poll everything it fetched is processed and saved, and less is left unread. */
  lemma SmoothPoll(log: seq<Row>, lastID: nat, env: Env, records: seq<Row>, last: nat, processed: nat)
    requires Smooth(env) && StopsAfter(records, env.fate, processed) && NextRows(log, lastID, records)
    requires last == if processed == 0 then lastID else records[processed - 1].id
    ensures processed == |records| && Saved(lastID, last, processed > 0) == last
    ensures records != [] ==> Unread(log, last) < Unread(log, lastID)
  {
    if processed < |records| {
      assert Passes(records[processed], env.fate, processed);
    }
    if records != [] {
      UnreadShrinks(log, lastID, records[|records| - 1]);
    }
  }

  /** The history has gained the coin, price and instant of each of these events, in order. */
  ghost predicate Gained(before: seq<Point>, after: seq<Point>, events: seq<Row>) {
    && |after| == |before| + |events| && before <= after
    && forall k :: 0 <= k < |events| ==>
         Decodable(events[k].base) &&
         var p := events[k].base.data.payload;
         after[|before| + k].coinId == p.coinId && after[|before| + k].price == p.currentPrice && after[|before| + k].recordedAt == p.lastUpdated
  }

  lemma {:induction false} PointsAt(x: seq<Inserted>)
    ensures |Points(x)| == |x| && forall k :: 0 <= k < |x| ==> Points(x)[k] == x[k].point
  {
    if x != [] {
      PointsAt(x[..|x| - 1]);
    }
  }

  lemma GainedPoints(before: seq<Point>, rows: seq<Row>, start: nat)
    ensures Gained(before, before + Points(InsertsFor(rows, start)), Ordering.Where(IsDecodable(), rows))
  {
    InsertsRecord(rows, start);
    PointsAt(InsertsFor(rows, start));
    var d, x := Ordering.Where(IsDecodable(), rows), InsertsFor(rows, start);
    forall k | 0 <= k < |d| ensures Records(x[k], d[k]) && (before + Points(x))[|before| + k] == x[k].point {
    }
  }

  /** Round r of a smooth run: what is read is saved, and every round that read something left less. */
  ghost predicate Draining(log: seq<Row>, seen: seq<Row>, start: seq<Row>, base: nat, checkpoint: nat, lastID: nat, drained: bool, r: nat) {
    && log == seen == start && checkpoint == lastID
    && (if drained then NewEvents(log, lastID, FETCH) == [] else r + Unread(log, lastID) <= Unread(log, base))
  }

  lemma StillDraining(log: seq<Row>, base: nat, from: nat, was: bool, r: nat, env: Env, last: nat, processed: nat)
    requires Smooth(env) && Draining(log, log, log, base, from, from, was, r) && NextRows(log, from, NewEvents(log, from, FETCH))
    requires StopsAfter(NewEvents(log, from, FETCH), env.fate, processed)
    requires last == if processed == 0 then from else NewEvents(log, from, FETCH)[processed - 1].id
    ensures Draining(log, log, log, base, last, last, NewEvents(log, from, FETCH) == [], r + 1)
    ensures Saved(from, last, processed > 0) == last
  {
    SmoothPoll(log, from, env, NewEvents(log, from, FETCH), last, processed);
  }

  /** What a poll does with the records it fetched: how many it processes, where it stands then, and
      what checkpoint it leaves. */
  ghost predicate Handled(records: seq<Row>, lastID: nat, env: Env, before: nat, last: nat, processed: nat, after: nat) {
    && StopsAfter(records, env.fate, processed) && last == (if processed == 0 then lastID else records[processed - 1].id)
    && after == Saved(before, last, processed > 0 && env.fate(1 + 2 * |records|))
  }

  /** A poll of this log. */
  ghost predicate Polled(log: seq<Row>, lastID: nat, env: Env, before: nat, last: nat, drained: bool, processed: nat, after: nat) {
    var records := Fetched(log, lastID, env);
    && (env.fate(0) ==> NextRows(log, lastID, records)) && (drained <==> env.fate(0) && records == [])
    && Handled(records, lastID, env, before, last, processed, after)
  }

  lemma FetchedIsNext(log: seq<Row>, lastID: nat, env: Env)
    requires DistinctLog(log) && env.fate(0)
    ensures NextRows(log, lastID, Fetched(log, lastID, env))
  {
    NewEventsAreNext(log, lastID);
  }

  lemma PolledBatch(log: seq<Row>, lastID: nat, env: Env, records: seq<Row>, before: nat, last: nat, processed: nat, after: nat)
    requires DistinctLog(log) && env.fate(0) && records == Fetched(log, lastID, env)
    requires Handled(records, lastID, env, before, last, processed, after)
    ensures Polled(log, lastID, env, before, last, records == [], processed, after)
  {
    FetchedIsNext(log, lastID, env);
  }

  class ProjectorLoop {
    var log: seq<Row>
    var summaries: map<CoinId, Summary>
    var history: seq<Point>
    var checkpoint: nat
    var m: Proj

    ghost predicate Valid()
      reads this
    {
      && Reached(m, log)
      && checkpoint == m.checkpoint && summaries == RowsOf(m.summaries) && history == Points(m.history)
    }

    /** The loop's own variables, as the machine sees them. */
    ghost predicate At(w: Process)
      reads this
    {
      Valid() && m.live == Some(w)
    }

    /** Other processes commit rows: those above the horizon with ids of their own (the visibility
        hypothesis); other offers are passed over. */
    method GrowLog(rows: seq<Row>)
      requires Valid()
      modifies this`log
      ensures Valid() && old(log) <= log
      ensures log == Grown(m, old(log), rows)
    {
      if Fits(m, log, rows) {
        assert Above(m, log, log + rows) && DistinctLog(log + rows);
        ReachedGrow(m, log, log + rows);
        log := log + rows;
      }
    }

    /** The same inside a batch, where only growth matters. */
    method Meanwhile(rows: seq<Row>)
      requires Valid()
      modifies this`log
      ensures Valid() && old(log) <= log && (rows == [] ==> log == old(log))
    {
      GrowLog(rows);
      assert old(log) + [] == old(log);
    }

    /** Moves the machine one step that touches no table. */
    method Tick(a: ProjAction)
      requires Valid() && CanStep(m, log, a) && !a.Upsert? && !a.AddHistory? && !a.Save?
      modifies this`m
      ensures Valid() && m == Step(old(m), log, a)
    {
      ReachedStep(m, log, a);
      m := Step(m, log, a);
    }

    /** The upsert of UpdateMarketSummary. */
    method UpdateMarketSummary(s: Summary, ghost w: Process)
      requires At(w) && CanStep(m, log, Upsert) && s == SummaryOf(PayloadOf(w.batch[w.pos].base))
      modifies this`summaries, this`m
      ensures At(w.(stage := Upserted)) && summaries == old(summaries)[s.coinId := s]
      ensures m.history == old(m).history && m.starts == old(m).starts
    {
      ReachedStep(m, log, Upsert);
      m := Step(m, log, Upsert);
      summaries := summaries[s.coinId := s];
      assert summaries == RowsOf(m.summaries);
    }

    method AddPriceHistory(p: Point, ghost w: Process)
      requires At(w) && CanStep(m, log, AddHistory) && p == PointOf(PayloadOf(w.batch[w.pos].base))
      modifies this`history, this`m
      ensures At(Advance(w)) && history == old(history) + [p]
      ensures m.starts == old(m).starts && m.history == old(m).history + [InsertFor(w.batch[w.pos], m.starts)]
    {
      ReachedStep(m, log, AddHistory);
      PointsConcat(m.history, [InsertFor(w.batch[w.pos], m.starts)]);
      m := Step(m, log, AddHistory);
      history := history + [p];
    }

    method UpdateLastEventID(lastId: nat, ok: bool, ghost w: Process)
      requires At(w) && w.stage.Saving? && w.lastId == lastId
      modifies this`checkpoint, this`m
      ensures At(w.(stage := Idle)) && checkpoint == if ok then Max(old(checkpoint), lastId) else old(checkpoint)
      ensures m.history == old(m).history && m.starts == old(m).starts
    {
      ReachedStep(m, log, Save(ok));
      m := Step(m, log, Save(ok));
      if ok {
        checkpoint := Max(checkpoint, lastId);
      }
    }

    /** The first statement of Project. */
    method ProjectSummary(p: Payload, upsertOk: bool, ghost w: Process) returns (ok: bool)
      requires At(w) && AtRow(m) && CanStep(m, log, Upsert) && p == PayloadOf(w.batch[w.pos].base)
      modifies this`summaries, this`m
      ensures ok == upsertOk && m.starts == old(m).starts && m.history == old(m).history
      ensures At(if ok then w.(stage := Upserted) else AfterLoop(w))
      ensures if ok then Written(old(summaries), summaries, p) else summaries == old(summaries)
    {
      if !upsertOk {
        Tick(ProjectFails);
        return false;
      }
      UpdateMarketSummary(Summary(p.coinId, p.symbol, p.name, p.currentPrice, p.marketCap, p.volume24h, p.priceChange24h, p.lastUpdated), w);
      ok := true;
    }

    /** The second statement of Project. */
    method ProjectHistory(p: Payload, insertOk: bool, ghost w: Process) returns (ok: bool)
      requires At(w) && CanStep(m, log, AddHistory) && p == PayloadOf(w.batch[w.pos].base)
      modifies this`history, this`m
      ensures ok == insertOk && m.starts == old(m).starts && At(if ok then Advance(w) else AfterLoop(w))
      ensures m.history == old(m).history + if ok then [InsertFor(w.batch[w.pos], m.starts)] else []
      ensures history == old(history) + if ok then [Point(p.coinId, p.currentPrice, p.lastUpdated)] else []
    {
      if !insertOk {
        Tick(ProjectFails);
        return false;
      }
      AddPriceHistory(Point(p.coinId, p.currentPrice, p.lastUpdated), w);
      ok := true;
    }

    /** Project: summary first, then history; either statement may fail and stop it half way. */
    method Project(ev: Event, upsertOk: bool, insertOk: bool, arrivals: seq<Row>, ghost w: Process) returns (ok: bool)
      requires At(w) && AtRow(m) && Decode(w.batch[w.pos].base) == Ok(ev)
      modifies this
      ensures old(log) <= log && checkpoint == old(checkpoint) && m.starts == old(m).starts
      ensures arrivals == [] ==> log == old(log)
      ensures ok <==> upsertOk && insertOk
      ensures ev.MarketEvent? && (if upsertOk then Written(old(summaries), summaries, ev.payload) else summaries == old(summaries))
      ensures history == old(history) + if ok then [Point(ev.payload.coinId, ev.payload.currentPrice, ev.payload.lastUpdated)] else []
      ensures At(if ok then Advance(w) else AfterLoop(w))
      ensures m.history == old(m).history + if ok then [InsertFor(w.batch[w.pos], m.starts)] else []
    {
      DecodedPayload(w.batch[w.pos].base, ev);
      ok := ProjectSummary(ev.payload, upsertOk, w);
      if ok {
        Meanwhile(arrivals);
        ok := ProjectHistory(ev.payload, insertOk, w.(stage := Upserted));
      }
    }

    /** One record: skipped if it does not decode, otherwise projected. */
    method Record(r: Row, i: nat, env: Env, ghost w: Process) returns (ok: bool)
      requires At(w) && AtRow(m) && w.batch[w.pos] == r
      modifies this
      ensures old(log) <= log && checkpoint == old(checkpoint) && m.starts == old(m).starts
      ensures ok <==> Passes(r, env.fate, i)
      ensures Still(env) ==> log == old(log)
      ensures ok ==> At(Advance(w)) && SinceStart(old(m).history, m)
      ensures !ok ==> Valid() && m.history == old(m).history && m.live.Some? && m.live.value.base == w.base &&
                      m.live.value.lastId == w.lastId && m.live.value.stage == AfterLoop(w).stage
    {
      Meanwhile(env.arrivals(2 * i));
      match Decode(r.base) {
        case Err(_) =>
          Tick(Skip);
          StartsHere(m);
          ok := true;
        case Ok(ev) =>
          StartsHere(m);
          ok := Project(ev, env.fate(1 + 2 * i), env.fate(2 + 2 * i), env.arrivals(2 * i + 1), w);
          if ok {
            SinceSnoc(old(m).history, old(m), m, InsertFor(r, m.starts));
          }
      }
    }

    /** The record loop: skips undecodable records, stops at the first projection that fails. */
    method Records(records: seq<Row>, lastID: nat, env: Env, ghost base: nat) returns (last: nat, processed: nat)
      requires At(Process(base, lastID, records, 0, AtRecord, false))
      modifies this
      ensures old(log) <= log && checkpoint == old(checkpoint) && m.starts == old(m).starts
      ensures Valid() && m.live.Some? && m.live.value.base == base && m.live.value.lastId == last
      ensures m.live.value.stage == if processed > 0 then Saving else Idle
      ensures StopsAfter(records, env.fate, processed) && last == if processed == 0 then lastID else records[processed - 1].id
      ensures SinceStart(old(m).history, m)
      ensures Still(env) ==> log == old(log)
    {
      last, processed := lastID, 0;
      var i := 0;
      StartsHere(m);
      while i < |records|
        invariant 0 <= i <= |records| && At(Process(base, last, records, i, AtRecord, processed > 0))
        invariant old(log) <= log && checkpoint == old(checkpoint) && m.starts == old(m).starts
        invariant SinceStart(old(m).history, m)
        invariant Still(env) ==> log == old(log)
        invariant processed == i && last == (if i == 0 then lastID else records[i - 1].id)
        invariant forall k :: 0 <= k < i ==> Passes(records[k], env.fate, k)
      {
        ghost var before := m;
        var ok := Record(records[i], i, env, Process(base, last, records, i, AtRecord, processed > 0));
        if !ok {
          return;
        }
        SinceChain(old(m).history, before, m);
        last, processed, i := records[i].id, processed + 1, i + 1;
      }
      Tick(EndBatch);
    }

    /** One round of Start: sleep, fetch the next 100 records past lastID, run them up to the first that
        stops the loop, save the checkpoint if any was processed.  It has drained the log if there was
        nothing to fetch. */
    method Poll(lastID: nat, env: Env, ghost base: nat) returns (last: nat, drained: bool, processed: nat)
      requires Valid() && m.live.Some? && m.live.value.base == base && m.live.value.lastId == lastID && m.live.value.stage.Idle?
      modifies this
      ensures old(log) <= log && m.starts == old(m).starts && old(checkpoint) <= checkpoint
      ensures Valid() && m.live.Some? && m.live.value.base == base && m.live.value.lastId == last && m.live.value.stage.Idle?
      ensures drained ==> AtEnd(log, last)
      ensures SinceStart(old(m).history, m)
      ensures Polled(Grown(old(m), old(log), env.asleep), lastID, env, old(checkpoint), last, drained, processed, checkpoint)
      ensures Still(env) ==> log == Grown(old(m), old(log), env.asleep) == old(log)
    {
      assert old(log) + [] == old(log);
      GrowLog(env.asleep);
      last, drained, processed := PollNow(lastID, env, base);
    }

    /** The round after the sleep. */
    method PollNow(lastID: nat, env: Env, ghost base: nat) returns (last: nat, drained: bool, processed: nat)
      requires Valid() && m.live.Some? && m.live.value.base == base && m.live.value.lastId == lastID && m.live.value.stage.Idle?
      modifies this
      ensures old(log) <= log && m.starts == old(m).starts && old(checkpoint) <= checkpoint
      ensures Valid() && m.live.Some? && m.live.value.base == base && m.live.value.lastId == last && m.live.value.stage.Idle?
      ensures drained ==> AtEnd(log, last)
      ensures SinceStart(old(m).history, m)
      ensures Polled(old(log), lastID, env, old(checkpoint), last, drained, processed, checkpoint)
      ensures Still(env) ==> log == old(log)
    {
      StartsHere(m);
      assert DistinctLog(log);
      if !env.fate(0) {
        return lastID, false, 0;
      }
      var records := NewEvents(log, lastID, FETCH);
      assert records == Fetched(log, lastID, env);
      Tick(Fetch);
      if |records| == 0 {
        NothingNew(log, lastID, FETCH);
        PolledBatch(log, lastID, env, records, checkpoint, lastID, 0, checkpoint);
        return lastID, true, 0;
      }
      last, processed := ProcessBatch(records, lastID, env, base);
      drained := false;
      PolledBatch(old(log), lastID, env, records, old(checkpoint), last, processed, checkpoint);
    }

    /** The record loop and the save after it. */
    method ProcessBatch(records: seq<Row>, lastID: nat, env: Env, ghost base: nat) returns (last: nat, processed: nat)
      requires At(Process(base, lastID, records, 0, AtRecord, false))
      modifies this
      ensures old(log) <= log && m.starts == old(m).starts && old(checkpoint) <= checkpoint
      ensures Valid() && m.live.Some? && m.live.value.base == base && m.live.value.lastId == last && m.live.value.stage.Idle?
      ensures SinceStart(old(m).history, m)
      ensures StopsAfter(records, env.fate, processed) && last == if processed == 0 then lastID else records[processed - 1].id
      ensures checkpoint == Saved(old(checkpoint), last, processed > 0 && env.fate(1 + 2 * |records|))
      ensures Still(env) ==> log == old(log)
    {
      last, processed := Records(records, lastID, env, base);
      Meanwhile(env.saving);
      if processed > 0 {
        UpdateLastEventID(last, env.fate(1 + 2 * |records|), m.live.value);
      }
    }

    /** Start until it is cancelled after `rounds` polls.  The history gains exactly the coins, prices and
        instants of the decodable events between the loaded checkpoint and lastID, in id order; the
        saved checkpoint stays at or below lastID; every summary is as new as its coin's events up to
        lastID; if the last poll found nothing, that is the end of the log `seen` by its fetch.  If
        every statement succeeds and nobody else commits, more polls than there are unread events
        drain the log and save its end. */
    method Start(rounds: nat, env: nat -> Env) returns (lastID: nat, drained: bool, ghost seen: seq<Row>)
      requires Valid() && m.live.None?
      modifies this
      ensures Valid() && m.live.None? && old(log) <= log
      ensures old(checkpoint) <= checkpoint <= lastID
      ensures Gained(old(history), history, Ordering.Where(IsDecodable(), RowsBetween(log, old(checkpoint), lastID)))
      ensures UpToDate(m, log, lastID) && Images(m, log)
      ensures old(log) <= seen <= log && (drained ==> AtEnd(seen, lastID))
      ensures (forall r :: Smooth(env(r))) && rounds > Unread(old(log), old(checkpoint)) ==>
                drained && log == seen == old(log) && checkpoint == lastID
    {
      lastID, drained, seen := checkpoint, false, log;
      ghost var base := checkpoint;
      ghost var before := m.history;
      BootFacts(m, log);
      Tick(Boot);
      assert m.history == before + InsertsOf(m.history, m.starts);
      var r := 0;
      while r < rounds
        invariant 0 <= r <= rounds && old(log) <= log && base <= checkpoint
        invariant Valid() && m.live.Some? && m.live.value.base == base && m.live.value.lastId == lastID && m.live.value.stage.Idle?
        invariant m.history == before + InsertsOf(m.history, m.starts)
        invariant old(log) <= seen <= log && (drained ==> AtEnd(seen, lastID))
        invariant (forall k :: Smooth(env(k))) ==> Draining(log, seen, old(log), base, checkpoint, lastID, drained, r)
      {
        ghost var m0 := m;
        var processed;
        ghost var from, was := lastID, drained;
        lastID, drained, processed := Poll(lastID, env(r), base);
        if forall k :: Smooth(env(k)) {
          StillDraining(old(log), base, from, was, r, env(r), lastID, processed);
        }
        SinceTrans(before, m0, m);
        seen := log;
        r := r + 1;
      }
      GrowLog(env(rounds).asleep);
      assert old(log) + [] == old(log);
      StopFacts(m, log, m.live.value, before);
      GainedPoints(old(history), RowsBetween(log, base, lastID), m.starts);
      Tick(Crash);
    }
  }

  /** What GetNewEvents returns on this log, if it succeeds. */
  function Fetched(log: seq<Row>, lastID: nat, env: Env): seq<Row> {
    if env.fate(0) then NewEvents(log, lastID, FETCH) else []
  }

  /** The checkpoint after a save of lastID that may fail. */
  function Saved(checkpoint: nat, lastID: nat, ok: bool): nat { if ok && checkpoint < lastID then lastID else checkpoint }

  ghost predicate AtEnd(log: seq<Row>, lastId: nat) { forall k :: 0 <= k < |log| ==> log[k].id <= lastId }

  /** Everything inserted since h was inserted by the current process start. */
  ghost predicate SinceStart(h: seq<Inserted>, m: Proj) {
    h <= m.history && InsertsOf(m.history[|h|..], m.starts) == m.history[|h|..]
  }

  lemma StartsHere(m: Proj)
    ensures SinceStart(m.history, m)
  {
  }

  lemma SinceSnoc(h: seq<Inserted>, m: Proj, m': Proj, x: Inserted)
    requires SinceStart(h, m) && m'.starts == m.starts && m'.history == m.history + [x] && x.start == m.starts
    ensures SinceStart(h, m')
  {
    var t := m'.history[|h|..];
    assert t == m.history[|h|..] + [x];
    assert t[..|t| - 1] == m.history[|h|..];
  }

  lemma SinceChain(h: seq<Inserted>, m: Proj, m': Proj)
    requires SinceStart(h, m) && SinceStart(m.history, m') && m'.starts == m.starts
    ensures SinceStart(h, m')
  {
    var a, b := m.history[|h|..], m'.history[|m.history|..];
    assert m'.history[|h|..] == a + b;
    InsertsConcat(a, b, m.starts);
  }

  lemma {:induction false} InsertsConcat(p: seq<Inserted>, q: seq<Inserted>, start: nat)
    ensures InsertsOf(p + q, start) == InsertsOf(p, start) + InsertsOf(q, start)
  {
    if q == [] {
      assert p + q == p;
    } else {
      assert (p + q)[..|p + q| - 1] == p + q[..|q| - 1];
      InsertsConcat(p, q[..|q| - 1], start);
    }
  }

  lemma SinceTrans(before: seq<Inserted>, m: Proj, m': Proj)
    requires m.history == before + InsertsOf(m.history, m.starts) && m'.starts == m.starts && SinceStart(m.history, m')
    ensures m'.history == before + InsertsOf(m'.history, m'.starts)
  {
    var t := m'.history[|m.history|..];
    assert m'.history == m.history + t;
    InsertsConcat(m.history, t, m.starts);
  }
}
