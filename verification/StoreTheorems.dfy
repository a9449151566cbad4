/** What every run of the event store keeps, whatever the interleaving and whatever the
    advisory-lock key function. */
module StoreTheorems {
  import opened Market
  import opened EventStore
  import Ordering

  function OfAggregate(a: CoinId): Row -> bool { (r: Row) => r.base.aggId == a }

  predicate VersionBefore(q: Row, r: Row) { q.base.version < r.base.version }

  /** SELECT ... WHERE aggregate_id = a ORDER BY version ASC */
  function LoadRows(log: seq<Row>, a: CoinId): seq<Row> {
    Ordering.Sort(VersionBefore, Ordering.Where(OfAggregate(a), log))
  }

  /** Rows of an aggregate in commit order are numbered 1, 2, ... with ascending ids. */
  lemma {:induction false} CommitOrder(log: seq<Row>, a: CoinId)
    requires Numbered(log)
    ensures var q := Ordering.Where(OfAggregate(a), log);
            && |q| == Count(log, a)
            && (forall i :: 0 <= i < |q| ==> q[i].base.version == i + 1 && q[i].base.aggId == a)
  {
    if log != [] {
      var p := log[..|log| - 1];
      assert forall i :: 0 <= i < |p| ==> p[..i] == log[..i];
      CommitOrder(p, a);
    }
  }

  lemma {:induction false} CommitOrderIds(log: seq<Row>, a: CoinId)
    requires forall i, j :: 0 <= i < j < |log| && log[i].base.aggId == log[j].base.aggId ==> log[i].id < log[j].id
    ensures var q := Ordering.Where(OfAggregate(a), log);
            IdOrdered(q)
  {
    if log != [] {
      var p := log[..|log| - 1];
      CommitOrderIds(p, a);
      var q := Ordering.Where(OfAggregate(a), p);
      var last := log[|log| - 1];
      if last.base.aggId == a {
        forall i | 0 <= i < |q| ensures q[i].id < last.id {
          assert q[i] in q;
          var k :| 0 <= k < |p| && p[k] == q[i];
          assert log[k] == q[i];
        }
        var r := Ordering.Where(OfAggregate(a), log);
        assert r == q + [last];
        forall i, j | 0 <= i < j < |r| ensures r[i].id < r[j].id {
          assert j < |q| ==> r[j] == q[j];
          assert r[i] == q[i];
        }
      } else {
        assert Ordering.Where(OfAggregate(a), log) == q;
      }
    }
  }

  lemma VersionsSeparate(q: seq<Row>)
    requires forall i :: 0 <= i < |q| ==> q[i].base.version == i + 1
    ensures Ordering.Separates(VersionBefore, q) && Ordering.Sorted(VersionBefore, q)
  {
    forall x, y | x in q && y in q && x != y ensures VersionBefore(x, y) || VersionBefore(y, x) {
      var i :| 0 <= i < |q| && q[i] == x;
      var j :| 0 <= j < |q| && q[j] == y;
    }
  }

  /** ORDER BY version returns the rows in commit order. */
  lemma LoadRowsIsCommitOrder(log: seq<Row>, a: CoinId)
    requires Numbered(log)
    ensures LoadRows(log, a) == Ordering.Where(OfAggregate(a), log)
  {
    var q := Ordering.Where(OfAggregate(a), log);
    CommitOrder(log, a);
    VersionsSeparate(q);
    Ordering.SortIsSorted(VersionBefore, q);
    Ordering.SortedUnique(VersionBefore, q, LoadRows(log, a));
  }

  lemma RunTables(h: CoinId -> int, acts: seq<Action>, s: Db)
    requires WellFormedRun(h, acts, s)
    ensures Numbered(s.log) && Aligned(s) && Paired(s)
  {
    RunKeepsInv(h, EMPTY, acts, s);
  }

  /** Gapless versions: in every run of any number of writers, each aggregate's committed
      versions are exactly 1..n, and loading them by version gives ascending event ids. */
  lemma GaplessVersions(h: CoinId -> int, acts: seq<Action>, s: Db, a: CoinId)
    requires WellFormedRun(h, acts, s)
    ensures var q := LoadRows(s.log, a);
            && (forall r :: r in q <==> r in s.log && r.base.aggId == a)
            && (forall i :: 0 <= i < |q| ==> q[i].base.version == i + 1)
            && IdOrdered(q)
  {
    RunTables(h, acts, s);
    LoadRowsIsCommitOrder(s.log, a);
    CommitOrder(s.log, a);
    CommitOrderIds(s.log, a);
  }

  /** Where a committed call's events stand: right after the version it expected. */
  lemma CommittedPosition(s: Db, c: Call, at: nat)
    requires |s.outbox| == |s.log| && Numbered(s.log) && WriterOk(s, Done(c, Committed(at)))
    ensures at + |c.events| <= |s.log| && Count(s.log[..at], c.aggId) == c.expected
  {
    assert s.log[at + 0].base == c.events[0].base;
  }

  lemma RunWriters(h: CoinId -> int, acts: seq<Action>, s: Db)
    requires WellFormedRun(h, acts, s)
    ensures |s.outbox| == |s.log| && Numbered(s.log) && Writers(s) && OneWinner(s)
  {
    RunKeepsInv(h, EMPTY, acts, s);
  }

  /** Of all calls that expected the same version of an aggregate at most one commits; no
      call ever ends in the unique-violation branch; a committed call's events are in the log
      consecutively, right after the version it expected. */
  lemma AtMostOneAppendWins(h: CoinId -> int, acts: seq<Action>, s: Db, t: nat, u: nat)
    requires WellFormedRun(h, acts, s)
    requires t in s.writers && u in s.writers && t != u && s.writers[t].Done? && s.writers[u].Done?
    ensures s.writers[t].outcome != UniqueViolation
    ensures s.writers[t].call.aggId == s.writers[u].call.aggId && s.writers[t].call.expected == s.writers[u].call.expected ==>
              !s.writers[t].outcome.Committed? || !s.writers[u].outcome.Committed?
    ensures s.writers[t].outcome.Committed? ==>
              var c, at := s.writers[t].call, s.writers[t].outcome.at;
              && at + |c.events| <= |s.log|
              && Count(s.log[..at], c.aggId) == c.expected
              && forall k :: 0 <= k < |c.events| ==> s.log[at + k].base == c.events[k].base
  {
    RunWriters(h, acts, s);
    assert WriterOk(s, s.writers[t]);
    if s.writers[t].outcome.Committed? {
      CommittedPosition(s, s.writers[t].call, s.writers[t].outcome.at);
    }
  }

  /** Within each aggregate, event-id order, outbox-id order, commit order and version order
      are the same order, for every lock-key function; and each committed event has exactly
      one outbox row, carrying its serialized form. */
  lemma OrdersAgree(h: CoinId -> int, acts: seq<Action>, s: Db)
    requires WellFormedRun(h, acts, s)
    ensures |s.outbox| == |s.log|
    ensures forall i :: 0 <= i < |s.log| ==>
                          s.outbox[i].eventId == s.log[i].id && s.outbox[i].payload == Serialize(s.log[i].base)
    ensures forall i, j :: 0 <= i < |s.log| && 0 <= j < |s.log| && i != j ==>
                             s.log[i].id != s.log[j].id && s.outbox[j].eventId != s.log[i].id
    ensures forall i, j :: 0 <= i < |s.log| && 0 <= j < |s.log| && s.log[i].base.aggId == s.log[j].base.aggId ==>
                             && (s.log[i].id < s.log[j].id <==> s.log[i].base.version < s.log[j].base.version)
                             && (s.outbox[i].id < s.outbox[j].id <==> s.log[i].base.version < s.log[j].base.version)
  {
    RunTables(h, acts, s);
    forall i, j | 0 <= i < |s.log| && 0 <= j < |s.log| && s.log[i].base.aggId == s.log[j].base.aggId
      ensures s.log[i].id < s.log[j].id <==> s.log[i].base.version < s.log[j].base.version
      ensures s.outbox[i].id < s.outbox[j].id <==> s.log[i].base.version < s.log[j].base.version
    {
      if i < j {
        CountUnique(s.log, i, j);
      } else if j < i {
        CountUnique(s.log, j, i);
      }
    }
  }

  // ---------- hydration ----------

  ghost predicate AllReadable(s: Db) {
    && (forall i :: 0 <= i < |s.log| ==> Readable(s.log[i].base))
    && (forall t, k :: t in s.writers && 0 <= k < |s.writers[t].call.events| ==> Readable(s.writers[t].call.events[k].base))
  }

  lemma ReadableCommit(h: CoinId -> int, s: Db, t: nat)
    requires Inv(h, s) && AllReadable(s) && Enabled(h, s, Commit(t))
    ensures AllReadable(Do(h, s, Commit(t)))
  {
    var w := s.writers[t];
    assert WriterOk(s, w);
    assert forall k :: 0 <= k < |w.rows| ==> Readable(w.rows[k].base);
  }

  lemma ReadableOwn(s: Db, s': Db, t: nat, w: Writer)
    requires AllReadable(s) && s'.log == s.log && s'.writers == s.writers[t := w]
    requires if t in s.writers then w.call == s.writers[t].call
             else |w.call.events| == 1 && Readable(w.call.events[0].base)
    ensures AllReadable(s')
  {
  }

  lemma ReadableStep(h: CoinId -> int, s: Db, a: Action)
    requires Inv(h, s) && AllReadable(s) && Enabled(h, s, a) && !a.Arrive?
    ensures AllReadable(Do(h, s, a))
  {
    if a.Commit? {
      ReadableCommit(h, s, a.t);
    } else {
      var s' := Do(h, s, a);
      if a.Hydrate? {
        PrepareWellFormed(s.log, a.data, a.now);
      }
      ReadableOwn(s, s', a.t, s'.writers[a.t]);
    }
  }

  lemma {:induction false} ProcessorsWriteReadable(h: CoinId -> int, s: Db, acts: seq<Action>, s': Db)
    requires Inv(h, s) && AllReadable(s) && Run(h, s, acts, s')
    requires forall i :: 0 <= i < |acts| ==> !acts[i].Arrive?
    ensures Inv(h, s') && AllReadable(s')
    decreases |acts|
  {
    if acts != [] {
      StepKeepsInv(h, s, acts[0]);
      ReadableStep(h, s, acts[0]);
      ProcessorsWriteReadable(h, Do(h, s, acts[0]), acts[1..], s');
    }
  }

  /** LoadEvents: decode every row in version order, stopping at the first that fails. */
  function Decoded(rows: seq<Row>): Result<seq<Event>> {
    if rows == [] then Ok([])
    else
      match Decoded(rows[..|rows| - 1])
      case Err(m) => Err(m)
      case Ok(es) =>
        match Decode(rows[|rows| - 1].base)
        case Err(m) => Err(m)
        case Ok(e) => Ok(es + [e])
  }

  lemma {:induction false} DecodedReadable(rows: seq<Row>)
    requires forall i :: 0 <= i < |rows| ==> Decodable(rows[i].base)
    ensures Decoded(rows).Ok? && |Decoded(rows).value| == |rows|
    ensures forall i :: 0 <= i < |rows| ==> Decode(rows[i].base) == Ok(Decoded(rows).value[i])
  {
    if rows != [] {
      DecodedReadable(rows[..|rows| - 1]);
    }
  }

  lemma {:induction false} LatestIsLastLoaded(log: seq<Row>, a: CoinId)
    requires Numbered(log)
    ensures var q := Ordering.Where(OfAggregate(a), log);
            LatestRow(log, a) == if q == [] then None else Some(q[|q| - 1])
  {
    if log != [] {
      var p := log[..|log| - 1];
      assert forall i :: 0 <= i < |p| ==> p[..i] == log[..i];
      LatestIsLastLoaded(p, a);
      CommitOrder(p, a);
      CommitOrder(log, a);
    }
  }

  /** In a numbered log of readable events the latest row alone rebuilds the aggregate. */
  lemma HydrationOfLog(log: seq<Row>, a: CoinId)
    requires Numbered(log)
    requires forall i :: 0 <= i < |log| ==> Decodable(log[i].base)
    ensures var q := LoadRows(log, a);
            && Decoded(q).Ok? && |Decoded(q).value| == |q|
            && Replay(Fresh(a), Decoded(q).value).version == |q|
            && match LatestRow(log, a)
               case None => q == []
               case Some(r) =>
                 && q != [] && r == q[|q| - 1] && Decodable(r.base)
                 && Applied(Fresh(a), Decode(r.base).value) == Replay(Fresh(a), Decoded(q).value)
  {
    var q := LoadRows(log, a);
    LoadRowsIsCommitOrder(log, a);
    CommitOrder(log, a);
    LatestIsLastLoaded(log, a);
    forall i | 0 <= i < |q| ensures Decodable(q[i].base) {
      assert q[i] in log;
    }
    DecodedReadable(q);
    var es := Decoded(q).value;
    ReplayVersion(Fresh(a), es);
    if es != [] {
      assert Decode(q[|q| - 1].base) == Ok(es[|q| - 1]);
      HydrationExact(Fresh(a), es);
    }
  }

  lemma ProcessorRunReadable(h: CoinId -> int, acts: seq<Action>, s: Db)
    requires Run(h, EMPTY, acts, s)
    requires forall i :: 0 <= i < |acts| ==> !acts[i].Arrive?
    ensures Numbered(s.log)
    ensures forall i :: 0 <= i < |s.log| ==> Readable(s.log[i].base)
  {
    ProcessorsWriteReadable(h, EMPTY, acts, s);
  }

  /** Latest-event hydration equals full replay: in every run of processors, applying only the
      highest-version event to a fresh aggregate gives the version and all six fields of the
      whole history, and the version is the number of events. */
  lemma HydrationEqualsReplay(h: CoinId -> int, acts: seq<Action>, s: Db, a: CoinId)
    requires Run(h, EMPTY, acts, s)
    requires forall i :: 0 <= i < |acts| ==> !acts[i].Arrive?
    ensures var q := LoadRows(s.log, a);
            && Decoded(q).Ok?
            && Replay(Fresh(a), Decoded(q).value).version == |q|
            && match LatestRow(s.log, a)
               case None => q == []
               case Some(r) => Decodable(r.base) && Applied(Fresh(a), Decode(r.base).value) == Replay(Fresh(a), Decoded(q).value)
  {
    ProcessorRunReadable(h, acts, s);
    HydrationOfLog(s.log, a);
  }

  // ---------- visibility order ----------

  ghost predicate IdOrdered(log: seq<Row>) {
    forall i, j :: 0 <= i < j < |log| ==> log[i].id < log[j].id
  }

  ghost predicate DistinctLog(log: seq<Row>) { forall i, j :: 0 <= i < j < |log| ==> log[i].id != log[j].id }

  predicate AllDone(s: Db) { forall t | t in s.writers :: s.writers[t].Done? }

  /** One sequential aggregator loop: a new call starts only after the previous one returned. */
  ghost predicate SequentialRun(h: CoinId -> int, s: Db, acts: seq<Action>, s': Db)
    decreases |acts|
  {
    if acts == [] then s' == s
    else
      && Enabled(h, s, acts[0])
      && (acts[0].Arrive? || acts[0].Hydrate? ==> AllDone(s))
      && SequentialRun(h, Do(h, s, acts[0]), acts[1..], s')
  }

  /** Staged ids ascend and lie beyond every committed id. */
  ghost predicate Beyond(s: Db, w: Writer)
    requires w.Inserting?
  {
    && IdOrdered(w.rows)
    && (forall k :: 0 <= k < |w.rows| ==> w.rows[k].id < s.nextId)
    && (forall i, k :: 0 <= i < |s.log| && 0 <= k < |w.rows| ==> s.log[i].id < w.rows[k].id)
  }

  ghost predicate OneActive(s: Db) {
    && IdOrdered(s.log)
    && (forall i :: 0 <= i < |s.log| ==> s.log[i].id < s.nextId)
    && (forall t, u :: t in s.writers && u in s.writers && t != u ==> s.writers[t].Done? || s.writers[u].Done?)
    && (forall t :: t in s.writers && s.writers[t].Inserting? ==> Beyond(s, s.writers[t]))
  }

  lemma OneActiveCommit(h: CoinId -> int, s: Db, t: nat)
    requires OneActive(s) && Enabled(h, s, Commit(t))
    ensures OneActive(Do(h, s, Commit(t)))
  {
    var w, l := s.writers[t], s.log + s.writers[t].rows;
    assert forall i :: |s.log| <= i < |l| ==> l[i] == w.rows[i - |s.log|];
  }

  lemma BeyondSnoc(s: Db, s': Db, w: Writer, r: Row)
    requires w.Inserting? && Beyond(s, w) && r.id == s.nextId && s'.nextId == s.nextId + 1 && s'.log == s.log
    requires forall i :: 0 <= i < |s.log| ==> s.log[i].id < s.nextId
    ensures Beyond(s', w.(rows := w.rows + [r]))
  {
  }

  lemma OneActiveOwn(s: Db, s': Db, t: nat, w: Writer)
    requires OneActive(s) && s'.log == s.log && s.nextId <= s'.nextId && s'.writers == s.writers[t := w]
    requires t in s.writers && s.writers[t].Done? ==> w.Done?
    requires t !in s.writers ==> AllDone(s)
    requires w.Inserting? ==> Beyond(s', w)
    ensures OneActive(s')
  {
  }

  lemma OneActiveStep(h: CoinId -> int, s: Db, a: Action)
    requires OneActive(s) && Enabled(h, s, a) && (a.Arrive? || a.Hydrate? ==> AllDone(s))
    ensures OneActive(Do(h, s, a))
  {
    if a.Commit? {
      OneActiveCommit(h, s, a.t);
    } else {
      var s' := Do(h, s, a);
      var w := s'.writers[a.t];
      if a.InsertEvent? && w.Inserting? {
        BeyondSnoc(s, s', s.writers[a.t], w.rows[|w.rows| - 1]);
      }
      OneActiveOwn(s, s', a.t, w);
    }
  }

  /** The sequential aggregator makes events visible in id order. */
  lemma {:induction false} SequentialIsIdOrdered(h: CoinId -> int, s: Db, acts: seq<Action>, s': Db)
    requires OneActive(s) && SequentialRun(h, s, acts, s')
    ensures OneActive(s') && IdOrdered(s'.log)
    decreases |acts|
  {
    if acts != [] {
      OneActiveStep(h, s, acts[0]);
      SequentialIsIdOrdered(h, Do(h, s, acts[0]), acts[1..], s');
    }
  }

  lemma {:induction false} LogGrows(h: CoinId -> int, s: Db, acts: seq<Action>, s': Db)
    requires Run(h, s, acts, s')
    ensures s.log <= s'.log
    decreases |acts|
  {
    if acts != [] {
      LogGrows(h, Do(h, s, acts[0]), acts[1..], s');
    }
  }

  // ---------- reachable states ----------

  ghost predicate Reachable(h: CoinId -> int, s: Db) {
    exists acts :: WellFormedRun(h, acts, s)
  }

  lemma {:induction false} RunConcat(h: CoinId -> int, s: Db, p: seq<Action>, m: Db, q: seq<Action>, s': Db)
    requires Run(h, s, p, m) && Run(h, m, q, s')
    ensures Run(h, s, p + q, s')
    decreases |p|
  {
    if p == [] {
      assert p + q == q;
    } else {
      assert (p + q)[0] == p[0];
      assert (p + q)[1..] == p[1..] + q;
      RunConcat(h, Do(h, s, p[0]), p[1..], m, q, s');
    }
  }

  lemma ReachableRun(h: CoinId -> int, s: Db, acts: seq<Action>, s': Db)
    requires Reachable(h, s) && Run(h, s, acts, s')
    requires forall i :: 0 <= i < |acts| ==> WellFormedAction(acts[i])
    ensures Reachable(h, s')
  {
    var p :| WellFormedRun(h, p, s);
    RunConcat(h, EMPTY, p, s, acts, s');
    assert WellFormedRun(h, p + acts, s');
  }

  lemma RunOne(h: CoinId -> int, s: Db, a: Action)
    requires Enabled(h, s, a)
    ensures Run(h, s, [a], Do(h, s, a))
  {
    assert Run(h, Do(h, s, a), [a][1..], Do(h, s, a));
  }

  lemma ReachableStep(h: CoinId -> int, s: Db, a: Action)
    requires Reachable(h, s) && Enabled(h, s, a) && WellFormedAction(a)
    ensures Reachable(h, Do(h, s, a))
  {
    RunOne(h, s, a);
    ReachableRun(h, s, [a], Do(h, s, a));
  }

  /** Reached by a run in which, if `checked`, every caller numbers its events. */
  ghost predicate ReachableAs(checked: bool, h: CoinId -> int, s: Db) {
    exists acts :: Run(h, EMPTY, acts, s) && (checked ==> forall i :: 0 <= i < |acts| ==> WellFormedAction(acts[i]))
  }

  lemma CheckedIsReachable(h: CoinId -> int, s: Db)
    ensures ReachableAs(true, h, s) <==> Reachable(h, s)
  {
    if ReachableAs(true, h, s) {
      var acts :| Run(h, EMPTY, acts, s) && forall i :: 0 <= i < |acts| ==> WellFormedAction(acts[i]);
      assert WellFormedRun(h, acts, s);
    }
    if Reachable(h, s) {
      var acts :| WellFormedRun(h, acts, s);
    }
  }

  lemma ReachableAsStep(checked: bool, h: CoinId -> int, s: Db, a: Action)
    requires ReachableAs(checked, h, s) && Enabled(h, s, a) && (checked ==> WellFormedAction(a))
    ensures ReachableAs(checked, h, Do(h, s, a))
  {
    var acts :| Run(h, EMPTY, acts, s) && (checked ==> forall i :: 0 <= i < |acts| ==> WellFormedAction(acts[i]));
    RunOne(h, s, a);
    RunConcat(h, EMPTY, acts, s, [a], Do(h, s, a));
    var more := acts + [a];
    assert checked ==> forall i :: 0 <= i < |more| ==> WellFormedAction(more[i]);
  }

  lemma ReachableTables(h: CoinId -> int, s: Db)
    requires Reachable(h, s)
    ensures Numbered(s.log) && Aligned(s) && Paired(s)
  {
    var acts :| WellFormedRun(h, acts, s);
    RunTables(h, acts, s);
  }
}
