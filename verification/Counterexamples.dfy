/** Concrete runs showing which guarantees need their hypotheses. */
module Counterexamples {
  import opened Market
  import opened EventStore
  import opened StoreTheorems
  import opened Appends
  import opened Projector
  import Ordering
  import Outbox
  import Pipeline

  const BTC := CoinId("bitcoin")
  const ETH := CoinId("ethereum")

  function Quote(c: CoinId, version: int): Event {
    NewDataFetched(c, version, Payload(c, "sym", "name", 1.0, 1.0, 1.0, 0.0, 0), 0)
  }

  function First(c: CoinId): Call { Call(c, 0, [Quote(c, 1)]) }

  lemma InsertUnchecked(h: CoinId -> int, s: Db, t: nat, c: Call)
    requires t in s.writers && s.writers[t] == Inserting(c, [], []) && |c.events| == 1
    requires forall u :: u in s.writers && u != t ==> s.writers[u].Done?
    requires HasKey(s.log, c.events[0].base.aggId, c.events[0].base.version)
    ensures Run(h, s, [InsertEvent(t)], s.(nextId := s.nextId + 1, writers := s.writers[t := Done(c, UniqueViolation)]))
  {
    assert Enabled(h, s, InsertEvent(t));
    RunOne(h, s, InsertEvent(t));
  }

  ghost predicate From(h: CoinId -> int, s: Db) { exists acts :: Run(h, EMPTY, acts, s) }

  lemma FromRun(h: CoinId -> int, s: Db, acts: seq<Action>, s': Db)
    requires From(h, s) && Run(h, s, acts, s')
    ensures From(h, s')
  {
    var p :| Run(h, EMPTY, p, s);
    RunConcat(h, EMPTY, p, s, acts, s');
  }

  function BtcOnce(): Db { Appended(EMPTY, 0, First(BTC)) }

  lemma BtcOnceReached(h: CoinId -> int)
    ensures Run(h, EMPTY, AppendSteps(0, First(BTC)), BtcOnce()) && From(h, BtcOnce())
    ensures BtcOnce().log == [Row(1, Quote(BTC, 1).base)] && BtcOnce().outbox == [Relay(1, 1)]
    ensures BtcOnce().writers == map[0 := Done(First(BTC), Committed(0))] && BtcOnce().nextId == 2 && BtcOnce().nextOutboxId == 2
  {
    LoneAppendCommits(h, EMPTY, 0, First(BTC));
  }

  function Relay(id: nat, v: int): EventStore.OutboxRow { EventStore.OutboxRow(id, id, Serialize(Quote(BTC, v).base)) }

  /** A negative expected version skips the check, and then the UNIQUE constraint does fire:
      without well-formed callers the unique-violation branch is reachable. */
  lemma UncheckedAppendHitsUnique(h: CoinId -> int)
    ensures exists s :: From(h, s) && 1 in s.writers && s.writers[1] == Done(Call(BTC, -1, [Quote(BTC, 1)]), UniqueViolation)
  {
    var s := BtcOnce();
    BtcOnceReached(h);
    var c := Call(BTC, -1, [Quote(BTC, 1)]);
    ToInserting(h, s, 1, c);
    var s4 := s.(writers := s.writers[1 := Inserting(c, [], [])]);
    FromRun(h, s, [Arrive(1, c), Begin(1), Lock(1), Check(1)], s4);
    assert s4.log[0].base == Quote(BTC, 1).base;
    InsertUnchecked(h, s4, 1, c);
    FromRun(h, s4, [InsertEvent(1)], s4.(nextId := s4.nextId + 1, writers := s4.writers[1 := Done(c, UniqueViolation)]));
  }

  // ---------- publishing ----------

  lemma {:induction false} SysWrites(h: CoinId -> int, s: Outbox.Sys, acts: seq<Action>, db: Db)
    requires Outbox.SysReachable(h, s) && Run(h, s.db, acts, db) && AllWellFormed(acts)
    ensures Outbox.SysReachable(h, s.(db := db))
    decreases |acts|
  {
    if acts == [] {
      assert s.(db := db) == s;
    } else {
      Outbox.SysReachableStep(h, s, Outbox.PubAction.Write(acts[0]));
      SysWrites(h, s.(db := Do(h, s.db, acts[0])), acts[1..], db);
    }
  }

  function Selected(s: Outbox.Sys, w: nat, r: EventStore.OutboxRow): Outbox.Sys {
    s.(workers := s.workers[w := Outbox.Worker([r], 0, false)])
  }

  function Sent(s: Outbox.Sys, w: nat, r: EventStore.OutboxRow): Outbox.Sys {
    s.(workers := s.workers[w := Outbox.Worker([r], 1, false)], published := s.published + [r.id], inflight := s.inflight + {r.id})
  }

  lemma SelectOne(h: CoinId -> int, s: Outbox.Sys, w: nat, r: EventStore.OutboxRow)
    requires Outbox.SysReachable(h, s) && w !in s.workers && Outbox.Batch(s) == [r]
    ensures Outbox.SysReachable(h, Selected(s, w, r))
  {
    Outbox.SysReachableStep(h, s, Outbox.Select(w));
  }

  lemma SelectAndPublish(h: CoinId -> int, s: Outbox.Sys, w: nat, r: EventStore.OutboxRow)
    requires Outbox.SysReachable(h, s) && w !in s.workers && Outbox.Batch(s) == [r]
    ensures Outbox.SysReachable(h, Sent(s, w, r))
  {
    SelectOne(h, s, w, r);
    var s1 := Selected(s, w, r);
    assert s1.workers[w := Outbox.Worker([r], 1, false)] == Sent(s, w, r).workers;
    Outbox.SysReachableStep(h, s1, Outbox.Publish(w));
    assert Outbox.Next(h, s1, Outbox.Publish(w)) == Sent(s, w, r);
  }

  lemma OnlyRow(s: Outbox.Sys, r: EventStore.OutboxRow)
    requires s.db.outbox == [r] && r.id !in s.deleted && s.workers == map[]
    ensures Outbox.Batch(s) == [r]
  {
    Ordering.OneRow(Outbox.Unlocked(s), Outbox.IdBefore, r, Outbox.BATCH);
  }

  function Pending(): Outbox.Sys { Outbox.START.(db := BtcOnce()) }

  lemma PendingReached(h: CoinId -> int)
    ensures Outbox.SysReachable(h, Pending()) && Outbox.Batch(Pending()) == [Relay(1, 1)]
  {
    BtcOnceReached(h);
    assert Outbox.ProperRun(h, [], Outbox.START);
    AppendIsWellFormed(0, First(BTC));
    SysWrites(h, Outbox.START, AppendSteps(0, First(BTC)), BtcOnce());
    OnlyRow(Pending(), Relay(1, 1));
  }

  /** A transaction that published r and then failed leaves r pending, published once more. */
  lemma PublishThenAbort(h: CoinId -> int, s: Outbox.Sys, r: EventStore.OutboxRow)
    requires Outbox.SysReachable(h, s) && s.workers == map[] && s.inflight == {} && Outbox.Batch(s) == [r]
    ensures Outbox.SysReachable(h, s.(published := s.published + [r.id], aborted := s.aborted + multiset{r.id}))
  {
    SelectAndPublish(h, s, 0, r);
    var b := Sent(s, 0, r);
    Outbox.SysReachableStep(h, b, Outbox.AbortBatch(0));
    var c := Outbox.Next(h, b, Outbox.AbortBatch(0));
    assert Outbox.SentIds(b.workers[0]) == {r.id};
    assert c.workers == map[] && c.inflight == {};
    assert multiset({r.id}) == multiset{r.id};
  }

  lemma PublishTwice(h: CoinId -> int, s: Outbox.Sys, r: EventStore.OutboxRow)
    requires Outbox.SysReachable(h, s) && s.workers == map[] && s.inflight == {} && s.deleted == {} && s.published == []
    requires s.db.outbox == [r]
    ensures exists s' :: Outbox.SysReachable(h, s') && s'.published == [r.id, r.id]
  {
    OnlyRow(s, r);
    PublishThenAbort(h, s, r);
    var b := s.(published := s.published + [r.id], aborted := s.aborted + multiset{r.id});
    OnlyRow(b, r);
    SelectAndPublish(h, b, 0, r);
    assert Sent(b, 0, r).published == [r.id, r.id];
  }

  /** The outbox does not promise "no duplicates": one publisher, one abort after publishing,
      and the same row is published again. */
  lemma AbortRepublishes(h: CoinId -> int)
    ensures exists s :: Outbox.SysReachable(h, s) && s.published == [1, 1]
  {
    PendingReached(h);
    PublishTwice(h, Pending(), Relay(1, 1));
  }

  /** A publication that Redis delivered but reported as failed: the transaction commits, nothing is
      deleted, and the row stays pending. */
  lemma PublishThenLoseReply(h: CoinId -> int, s: Outbox.Sys, r: EventStore.OutboxRow)
    requires Outbox.SysReachable(h, s) && s.workers == map[] && s.inflight == {} && Outbox.Batch(s) == [r]
    ensures Outbox.SysReachable(h, s.(published := s.published + [r.id], unconfirmed := s.unconfirmed + multiset{r.id}))
  {
    SelectOne(h, s, 0, r);
    var b := Selected(s, 0, r);
    Outbox.SysReachableStep(h, b, Outbox.PublishFails(0, true));
    var c := Outbox.Next(h, b, Outbox.PublishFails(0, true));
    Outbox.SysReachableStep(h, c, Outbox.CommitBatch(0));
    var d := Outbox.Next(h, c, Outbox.CommitBatch(0));
    assert Outbox.SentIds(c.workers[0]) == {};
    assert d.workers == map[] && d.inflight == {} && d.deleted == s.deleted;
  }

  lemma LoseReplyAndPublish(h: CoinId -> int, s: Outbox.Sys, r: EventStore.OutboxRow)
    requires Outbox.SysReachable(h, s) && s.workers == map[] && s.inflight == {} && s.deleted == {} && s.published == []
    requires s.db.outbox == [r]
    ensures exists s' :: Outbox.SysReachable(h, s') && s'.published == [r.id, r.id] && s'.aborted == s.aborted
  {
    OnlyRow(s, r);
    PublishThenLoseReply(h, s, r);
    var b := s.(published := s.published + [r.id], unconfirmed := s.unconfirmed + multiset{r.id});
    OnlyRow(b, r);
    SelectAndPublish(h, b, 0, r);
    assert Sent(b, 0, r).published == [r.id, r.id];
  }

  /** A lost reply publishes twice without any transaction being aborted. */
  lemma LostReplyRepublishes(h: CoinId -> int)
    ensures exists s :: Outbox.SysReachable(h, s) && s.published == [1, 1] && s.aborted == multiset{}
  {
    PendingReached(h);
    LoseReplyAndPublish(h, Pending(), Relay(1, 1));
  }

  lemma SecondRow(s: Outbox.Sys, r: EventStore.OutboxRow, q: EventStore.OutboxRow)
    requires s.db.outbox == [r, q] && q.id !in s.deleted && r.id != q.id
    requires s.workers == map[0 := Outbox.Worker([r], 0, false)]
    ensures Outbox.Batch(s) == [q]
  {
    var u := Outbox.Unlocked(s);
    assert [r] + [q] == [r, q];
    assert Outbox.InBatch(s.workers[0], r.id) by { assert s.workers[0].batch[0].id == r.id; }
    assert u(q) && !u(r);
    Ordering.WhereConcat(u, [r], [q]);
    Ordering.OneRow(u, Outbox.IdBefore, q, Outbox.BATCH);
    assert [r][..0] == [];
    assert Ordering.Where(u, [r]) == [];
    assert [q][..0] == [];
    assert Ordering.Where(u, [r, q]) == [q] == Ordering.Where(u, [q]);
  }

  function BtcTwice(): Db { Appended(BtcOnce(), 1, Call(BTC, 1, [Quote(BTC, 2)])) }

  lemma BtcTwiceReached(h: CoinId -> int)
    ensures Run(h, BtcOnce(), AppendSteps(1, Call(BTC, 1, [Quote(BTC, 2)])), BtcTwice())
    ensures BtcTwice().log == [Row(1, Quote(BTC, 1).base), Row(2, Quote(BTC, 2).base)] && BtcTwice().outbox == [Relay(1, 1), Relay(2, 2)]
  {
    BtcOnceReached(h);
    var l := BtcOnce().log;
    assert l[..0] == [] && LatestRow([], BTC) == None;
    assert LatestRow(l, BTC) == Some(Row(1, Quote(BTC, 1).base));
    LoneAppendCommits(h, BtcOnce(), 1, Call(BTC, 1, [Quote(BTC, 2)]));
  }

  /** A second publisher overtakes the first: it locks and publishes the next row. */
  lemma Overtake(h: CoinId -> int, s: Outbox.Sys, db: Db, acts: seq<Action>, r: EventStore.OutboxRow, q: EventStore.OutboxRow)
    requires Outbox.SysReachable(h, s) && s.workers == map[0 := Outbox.Worker([r], 0, false)] && s.published == [] && s.deleted == {}
    requires Run(h, s.db, acts, db) && AllWellFormed(acts) && db.outbox == [r, q] && r.id != q.id
    ensures exists s' :: Outbox.SysReachable(h, s') && s'.published == [q.id] && s'.db == db
  {
    SysWrites(h, s, acts, db);
    var e := s.(db := db);
    SecondRow(e, r, q);
    SelectAndPublish(h, e, 1, q);
    assert Sent(e, 1, q).published == [q.id] && Sent(e, 1, q).db == db;
  }

  ghost predicate FirstLocked(s: Outbox.Sys) {
    && s.workers == map[0 := Outbox.Worker([Relay(1, 1)], 0, false)] && s.published == [] && s.deleted == {}
    && s.db == BtcOnce()
  }

  lemma FirstLockedReached(h: CoinId -> int)
    ensures exists s :: Outbox.SysReachable(h, s) && FirstLocked(s)
  {
    PendingReached(h);
    SelectOne(h, Pending(), 0, Relay(1, 1));
    assert FirstLocked(Selected(Pending(), 0, Relay(1, 1)));
  }

  ghost predicate SecondFirst(s: Outbox.Sys) {
    && s.published == [2] && s.db.log == [Row(1, Quote(BTC, 1).base), Row(2, Quote(BTC, 2).base)]
    && s.db.outbox == [Relay(1, 1), Relay(2, 2)]
  }

  /** With two publishers the order of first publications is lost: version 2 goes out while
      version 1 is still locked and unpublished. */
  lemma TwoPublishersReorder(h: CoinId -> int)
    ensures exists s :: Outbox.SysReachable(h, s) && SecondFirst(s)
  {
    FirstLockedReached(h);
    var s :| Outbox.SysReachable(h, s) && FirstLocked(s);
    BtcTwiceReached(h);
    AppendIsWellFormed(1, Call(BTC, 1, [Quote(BTC, 2)]));
    Overtake(h, s, BtcTwice(), AppendSteps(1, Call(BTC, 1, [Quote(BTC, 2)])), Relay(1, 1), Relay(2, 2));
  }

  /** A publisher is about to send version 2; version 1 is pending and no transaction holds it. */
  ghost predicate SecondNext(s: Outbox.Sys) {
    && s.published == [] && s.deleted == {} && s.db.outbox == [Relay(1, 1), Relay(2, 2)]
    && s.workers == map[1 := Outbox.Worker([Relay(2, 2)], 0, false)]
  }

  lemma FirstReleased(h: CoinId -> int, s: Outbox.Sys, db: Db, acts: seq<Action>)
    requires Outbox.SysReachable(h, s) && FirstLocked(s)
    requires Run(h, s.db, acts, db) && AllWellFormed(acts) && db.outbox == [Relay(1, 1), Relay(2, 2)]
    ensures exists s' :: Outbox.SysReachable(h, s') && SecondNext(s')
  {
    SysWrites(h, s, acts, db);
    var e := s.(db := db);
    SecondRow(e, Relay(1, 1), Relay(2, 2));
    SelectOne(h, e, 1, Relay(2, 2));
    var u := Selected(e, 1, Relay(2, 2));
    Outbox.SysReachableStep(h, u, Outbox.AbortBatch(0));
    assert SecondNext(Outbox.Next(h, u, Outbox.AbortBatch(0)));
  }

  /** The lock that lets a publisher overtake need not last until it publishes. */
  lemma LockMayBeGone(h: CoinId -> int)
    ensures exists s :: Outbox.SysReachable(h, s) && SecondNext(s) && Outbox.Allowed(h, s, Outbox.Publish(1)) && !Outbox.RowLocked(s, 1)
  {
    FirstLockedReached(h);
    var s :| Outbox.SysReachable(h, s) && FirstLocked(s);
    BtcTwiceReached(h);
    AppendIsWellFormed(1, Call(BTC, 1, [Quote(BTC, 2)]));
    FirstReleased(h, s, BtcTwice(), AppendSteps(1, Call(BTC, 1, [Quote(BTC, 2)])));
  }

  // ---------- a late commit ----------

  /** BTC has inserted its row (id 1) but not committed; ETH (id 2) has. */
  function Overtaken(): Db {
    var c := First(BTC);
    Appended(Db([], [], 2, 2, map[0 := Inserting(c, [Row(1, Quote(BTC, 1).base)], [Relay(1, 1)])]), 1, First(ETH))
  }

  lemma StagedBtc(h: CoinId -> int)
    ensures Reachable(h, Db([], [], 2, 2, map[0 := Inserting(First(BTC), [Row(1, Quote(BTC, 1).base)], [Relay(1, 1)])]))
  {
    var c := First(BTC);
    var r := Row(1, Quote(BTC, 1).base);
    assert WellFormedRun(h, [], EMPTY);
    var s0 := EMPTY.(writers := map[0 := Inserting(c, [], [])]);
    ToInserting(h, EMPTY, 0, c);
    ReachableRun(h, EMPTY, [Arrive(0, c), Begin(0), Lock(0), Check(0)], s0);
    assert Enabled(h, s0, InsertEvent(0));
    ReachableStep(h, s0, InsertEvent(0));
    var s1 := Do(h, s0, InsertEvent(0));
    assert [] + [r] == [r];
    assert s1 == Db([], [], 2, 1, map[0 := Inserting(c, [r], [])]);
    ReachableStep(h, s1, InsertOutbox(0));
    assert [] + [Relay(1, 1)] == [Relay(1, 1)];
    assert Do(h, s1, InsertOutbox(0)) == Db([], [], 2, 2, map[0 := Inserting(c, [r], [Relay(1, 1)])]);
  }

  lemma OvertakenReached(h: CoinId -> int)
    requires h(BTC) != h(ETH)
    ensures Reachable(h, Overtaken())
  {
    StagedBtc(h);
    var s := Db([], [], 2, 2, map[0 := Inserting(First(BTC), [Row(1, Quote(BTC, 1).base)], [Relay(1, 1)])]);
    LoneAppendCommits(h, s, 1, First(ETH));
    ReachableRun(h, s, AppendSteps(1, First(ETH)), Overtaken());
  }

  lemma OvertakenReady(h: CoinId -> int)
    ensures Overtaken().log == [Row(2, Quote(ETH, 1).base)] && Enabled(h, Overtaken(), Commit(0))
  {
  }

  /** Two aggregates can commit out of id order: the later id becomes visible first. */
  lemma CommitsOutOfIdOrder(h: CoinId -> int)
    requires h(BTC) != h(ETH)
    ensures exists s :: Reachable(h, s) && s.log == [Row(2, Quote(ETH, 1).base), Row(1, Quote(BTC, 1).base)] && !IdOrdered(s.log)
  {
    OvertakenReached(h);
    OvertakenReady(h);
    ReachableStep(h, Overtaken(), Commit(0));
    var s := Do(h, Overtaken(), Commit(0));
    assert s.log == [Row(2, Quote(ETH, 1).base), Row(1, Quote(BTC, 1).base)];
    assert s.log[0].id == 2 && s.log[1].id == 1;
  }

  ghost predicate PipeFrom(h: CoinId -> int, s: Pipeline.Pipe) {
    exists acts :: Pipeline.PipeRun(h, Pipeline.LAUNCH, acts, s) && forall i :: 0 <= i < |acts| ==> Pipeline.Sound(acts[i])
  }

  lemma {:induction false} PipeSnoc(h: CoinId -> int, s: Pipeline.Pipe, acts: seq<Pipeline.PipeAction>, s': Pipeline.Pipe, x: Pipeline.PipeAction)
    requires Pipeline.PipeRun(h, s, acts, s') && Pipeline.Can(h, s', x)
    ensures Pipeline.PipeRun(h, s, acts + [x], Pipeline.After(h, s', x))
    decreases |acts|
  {
    if acts == [] {
      assert ([] + [x])[1..] == [];
    } else {
      assert (acts + [x])[0] == acts[0];
      assert (acts + [x])[1..] == acts[1..] + [x];
      PipeSnoc(h, Pipeline.After(h, s, acts[0]), acts[1..], s', x);
    }
  }

  lemma PipeFromStep(h: CoinId -> int, s: Pipeline.Pipe, x: Pipeline.PipeAction)
    requires PipeFrom(h, s) && Pipeline.Can(h, s, x) && Pipeline.Sound(x)
    ensures PipeFrom(h, Pipeline.After(h, s, x))
  {
    var acts :| Pipeline.PipeRun(h, Pipeline.LAUNCH, acts, s) && forall i :: 0 <= i < |acts| ==> Pipeline.Sound(acts[i]);
    PipeSnoc(h, Pipeline.LAUNCH, acts, s, x);
    assert forall i :: 0 <= i < |acts + [x]| ==> Pipeline.Sound((acts + [x])[i]);
  }

  lemma {:induction false} PipeFromWrites(h: CoinId -> int, s: Pipeline.Pipe, acts: seq<Action>, db: Db)
    requires PipeFrom(h, s) && Run(h, s.db, acts, db) && forall i :: 0 <= i < |acts| ==> WellFormedAction(acts[i])
    ensures PipeFrom(h, s.(db := db))
    decreases |acts|
  {
    if acts == [] {
      assert s.(db := db) == s;
    } else {
      PipeFromStep(h, s, Pipeline.PipeAction.Write(acts[0]));
      PipeFromWrites(h, s.(db := Do(h, s.db, acts[0])), acts[1..], db);
    }
  }

  lemma ProjectorMoves(h: CoinId -> int, db: Db, p: Proj, a: ProjAction)
    requires PipeFrom(h, Pipeline.Pipe(db, p)) && CanStep(p, db.log, a)
    ensures PipeFrom(h, Pipeline.Pipe(db, Step(p, db.log, a)))
  {
    PipeFromStep(h, Pipeline.Pipe(db, p), Pipeline.Project(a));
  }

  /** A projector that sees a one-row log projects it and saves its checkpoint. */
  lemma ProjectOnly(h: CoinId -> int, db: Db, r: Row)
    requires PipeFrom(h, Pipeline.Pipe(db, BLANK)) && db.log == [r] && Decodable(r.base)
    ensures exists p :: PipeFrom(h, Pipeline.Pipe(db, p)) && p.checkpoint == r.id && p.history == [InsertFor(r, 1)]
  {
    var l := db.log;
    var p1 := Step(BLANK, l, Boot);
    ProjectorMoves(h, db, BLANK, Boot);
    Ordering.OneRow(Past(0), RowIdBefore, r, FETCH);
    assert NewEvents(l, 0, FETCH) == [r];
    var p2 := Step(p1, l, Fetch);
    ProjectorMoves(h, db, p1, Fetch);
    assert p2 == Proj(0, Some(Process(0, 0, [r], 0, AtRecord, false)), map[], [], 1);
    ProjectRow(h, db, p2, r);
  }

  lemma ProjectRow(h: CoinId -> int, db: Db, p: Proj, r: Row)
    requires PipeFrom(h, Pipeline.Pipe(db, p)) && Decodable(r.base)
    requires p == Proj(0, Some(Process(0, 0, [r], 0, AtRecord, false)), map[], [], 1)
    ensures exists q :: PipeFrom(h, Pipeline.Pipe(db, q)) && q.checkpoint == r.id && q.history == [InsertFor(r, 1)]
  {
    var l := db.log;
    ProjectorMoves(h, db, p, Upsert);
    var p3 := Step(p, l, Upsert);
    ProjectorMoves(h, db, p3, AddHistory);
    var p4 := Step(p3, l, AddHistory);
    assert p4.history == [InsertFor(r, 1)];
    ProjectorMoves(h, db, p4, EndBatch);
    var p5 := Step(p4, l, EndBatch);
    ProjectorMoves(h, db, p5, Save(true));
    assert Step(p5, l, Save(true)).checkpoint == r.id;
  }

  lemma OvertakenProjected(h: CoinId -> int)
    requires h(BTC) != h(ETH)
    ensures exists p :: PipeFrom(h, Pipeline.Pipe(Overtaken(), p)) && p.checkpoint == 2 && |p.history| == 1 && p.history[0].eventId == 2
  {
    OvertakenReached(h);
    OvertakenReady(h);
    var acts :| WellFormedRun(h, acts, Overtaken());
    assert Pipeline.PipeRun(h, Pipeline.LAUNCH, [], Pipeline.LAUNCH);
    PipeFromWrites(h, Pipeline.LAUNCH, acts, Overtaken());
    var r := Row(2, Quote(ETH, 1).base);
    ProjectOnly(h, Overtaken(), r);
    var p :| PipeFrom(h, Pipeline.Pipe(Overtaken(), p)) && p.checkpoint == 2 && p.history == [InsertFor(r, 1)];
  }

  /** Without id-ordered visibility checkpoint safety fails: a run reaches a state where a readable
      committed event lies below the checkpoint and was never projected; by
      Pipeline.LateEventIsLostForever no continuation projects it. */
  lemma LateCommitIsSkipped(h: CoinId -> int)
    requires h(BTC) != h(ETH)
    ensures exists s :: && PipeFrom(h, s) && |s.db.log| == 2 && s.db.log[1] == Row(1, Quote(BTC, 1).base)
                        && Readable(s.db.log[1].base) && Lost(s.proj, 1)
  {
    OvertakenProjected(h);
    OvertakenReady(h);
    var p :| PipeFrom(h, Pipeline.Pipe(Overtaken(), p)) && p.checkpoint == 2 && |p.history| == 1 && p.history[0].eventId == 2;
    Skipped(h, Overtaken(), p, Row(1, Quote(BTC, 1).base));
  }

  lemma CommitOne(h: CoinId -> int, db: Db, r: Row)
    requires Enabled(h, db, Commit(0)) && |db.log| == 1 && db.writers[0].rows == [r]
    ensures var log := Do(h, db, Commit(0)).log; |log| == 2 && log[1] == r
  {
  }

  lemma SkipCommit(h: CoinId -> int, db: Db, p: Proj)
    requires PipeFrom(h, Pipeline.Pipe(db, p)) && Enabled(h, db, Commit(0))
    requires p.checkpoint == 2 && |p.history| == 1 && p.history[0].eventId == 2
    ensures PipeFrom(h, Pipeline.Pipe(Do(h, db, Commit(0)), p)) && Lost(p, 1)
  {
    PipeFromStep(h, Pipeline.Pipe(db, p), Pipeline.PipeAction.Write(Commit(0)));
  }

  lemma Skipped(h: CoinId -> int, db: Db, p: Proj, r: Row)
    requires PipeFrom(h, Pipeline.Pipe(db, p)) && Enabled(h, db, Commit(0)) && |db.log| == 1 && db.writers[0].rows == [r]
    requires p.checkpoint == 2 && |p.history| == 1 && p.history[0].eventId == 2
    ensures exists s :: PipeFrom(h, s) && |s.db.log| == 2 && s.db.log[1] == r && Lost(s.proj, 1)
  {
    SkipCommit(h, db, p);
    CommitOne(h, db, r);
  }
}
