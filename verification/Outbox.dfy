/** The transactional outbox: any number of publishers drain the rows that writers commit
    (internal/eventstore/outbox.go).  A publisher's transaction locks up to 100 rows that no
    other transaction holds, publishes them in id order, and only then deletes and commits;
    an abort in between leaves the rows to be published again. */
module Outbox {
  import opened Market
  import opened EventStore
  import opened StoreTheorems
  import Ordering

  const BATCH := 100

  /** One open publisher transaction: its locked rows and how many of them were published. */
  datatype Worker = Worker(batch: seq<OutboxRow>, sent: nat, stopped: bool)

  /** The table outbox_events is db.outbox without `deleted`.  `published` is the message log;
      `inflight` holds the rows published by open transactions, `aborted` counts the
      publications whose transaction did not commit, and `unconfirmed` those that Redis delivered
      although the publisher was told that they failed. */
  datatype Sys = Sys(db: Db, deleted: set<nat>, workers: map<nat, Worker>,
                     published: seq<nat>, inflight: set<nat>, aborted: multiset<nat>, unconfirmed: multiset<nat>)

  const START := Sys(EMPTY, {}, map[], [], {}, multiset{}, multiset{})

  datatype PubAction =
    | Write(a: Action)
    | Select(w: nat)
    | Publish(w: nat)
    | PublishFails(w: nat, delivered: bool)
    | CommitBatch(w: nat)
    | AbortBatch(w: nat)

  predicate IdBefore(q: OutboxRow, r: OutboxRow) { q.id < r.id }

  predicate InBatch(w: Worker, id: nat) { exists k :: 0 <= k < |w.batch| && w.batch[k].id == id }

  predicate SentBy(w: Worker, id: nat) { exists k :: 0 <= k < w.sent <= |w.batch| && w.batch[k].id == id }

  predicate RowLocked(s: Sys, id: nat) { exists w | w in s.workers :: InBatch(s.workers[w], id) }

  function Unlocked(s: Sys): OutboxRow -> bool {
    (r: OutboxRow) => r.id !in s.deleted && !RowLocked(s, r.id)
  }

  /** SELECT ... ORDER BY id ASC LIMIT 100 FOR UPDATE SKIP LOCKED */
  function Batch(s: Sys): seq<OutboxRow> {
    Ordering.Limit(Ordering.Sort(IdBefore, Ordering.Where(Unlocked(s), s.db.outbox)), BATCH)
  }

  function SentIds(w: Worker): set<nat>
    requires w.sent <= |w.batch|
  {
    set k | 0 <= k < w.sent :: w.batch[k].id
  }

  predicate Allowed(h: CoinId -> int, s: Sys, p: PubAction) {
    match p
    case Write(a) => Enabled(h, s.db, a)
    case Select(w) => w !in s.workers && Batch(s) != []
    case Publish(w) => w in s.workers && !s.workers[w].stopped && s.workers[w].sent < |s.workers[w].batch|
    case PublishFails(w, _) => w in s.workers && !s.workers[w].stopped && s.workers[w].sent < |s.workers[w].batch|
    case CommitBatch(w) =>
      w in s.workers && s.workers[w].sent <= |s.workers[w].batch| &&
      (s.workers[w].stopped || s.workers[w].sent == |s.workers[w].batch|)
    case AbortBatch(w) => w in s.workers && s.workers[w].sent <= |s.workers[w].batch|
  }

  function Next(h: CoinId -> int, s: Sys, p: PubAction): Sys
    requires Allowed(h, s, p)
  {
    match p
    case Write(a) => s.(db := Do(h, s.db, a))
    case Select(w) => s.(workers := s.workers[w := Worker(Batch(s), 0, false)])
    case Publish(w) =>
      var k := s.workers[w];
      var id := k.batch[k.sent].id;
      s.(workers := s.workers[w := k.(sent := k.sent + 1)], published := s.published + [id], inflight := s.inflight + {id})
    case PublishFails(w, delivered) =>
      var k := s.workers[w];
      var s' := s.(workers := s.workers[w := k.(stopped := true)]);
      var id := k.batch[k.sent].id;
      if delivered then s'.(published := s.published + [id], unconfirmed := s.unconfirmed + multiset{id}) else s'
    case CommitBatch(w) =>
      var ids := SentIds(s.workers[w]);
      s.(workers := s.workers - {w}, deleted := s.deleted + ids, inflight := s.inflight - ids)
    case AbortBatch(w) =>
      var ids := SentIds(s.workers[w]);
      s.(workers := s.workers - {w}, aborted := s.aborted + multiset(ids), inflight := s.inflight - ids)
  }

  ghost predicate SysRun(h: CoinId -> int, s: Sys, acts: seq<PubAction>, s': Sys)
    decreases |acts|
  {
    if acts == [] then s' == s
    else Allowed(h, s, acts[0]) && SysRun(h, Next(h, s, acts[0]), acts[1..], s')
  }

  predicate Proper(p: PubAction) { p.Write? ==> WellFormedAction(p.a) }

  ghost predicate ProperRun(h: CoinId -> int, acts: seq<PubAction>, s: Sys) {
    SysRun(h, START, acts, s) && forall i :: 0 <= i < |acts| ==> Proper(acts[i])
  }

  ghost predicate SysReachable(h: CoinId -> int, s: Sys) { exists acts :: ProperRun(h, acts, s) }

  lemma {:induction false} SysRunSnoc(h: CoinId -> int, s: Sys, acts: seq<PubAction>, s': Sys, p: PubAction)
    requires SysRun(h, s, acts, s') && Allowed(h, s', p)
    ensures SysRun(h, s, acts + [p], Next(h, s', p))
    decreases |acts|
  {
    if acts == [] {
      assert ([] + [p])[1..] == [];
    } else {
      assert (acts + [p])[0] == acts[0];
      assert (acts + [p])[1..] == acts[1..] + [p];
      SysRunSnoc(h, Next(h, s, acts[0]), acts[1..], s', p);
    }
  }

  lemma SysReachableStep(h: CoinId -> int, s: Sys, p: PubAction)
    requires SysReachable(h, s) && Allowed(h, s, p) && Proper(p)
    ensures SysReachable(h, Next(h, s, p))
  {
    var acts :| ProperRun(h, acts, s);
    SysRunSnoc(h, START, acts, s, p);
    assert ProperRun(h, acts + [p], Next(h, s, p));
  }

  // ---------- the invariant ----------

  ghost predicate IsRow(outbox: seq<OutboxRow>, id: nat) { exists i :: 0 <= i < |outbox| && outbox[i].id == id }

  /** A transaction holds undeleted rows of the table, in ascending id order. */
  ghost predicate WorkerFine(outbox: seq<OutboxRow>, deleted: set<nat>, w: Worker) {
    && w.sent <= |w.batch|
    && (forall k :: 0 <= k < |w.batch| ==> w.batch[k] in outbox && w.batch[k].id !in deleted)
    && (forall k, l :: 0 <= k < l < |w.batch| ==> w.batch[k].id < w.batch[l].id)
  }

  ghost predicate Disjoint(v: Worker, w: Worker) {
    forall k, l :: 0 <= k < |v.batch| && 0 <= l < |w.batch| ==> v.batch[k].id != w.batch[l].id
  }

  ghost predicate Workers(s: Sys) {
    && (forall w :: w in s.workers ==> WorkerFine(s.db.outbox, s.deleted, s.workers[w]))
    && (forall v, w :: v in s.workers && w in s.workers && v != w ==> Disjoint(s.workers[v], s.workers[w]))
  }

  ghost predicate Known(s: Sys) {
    && (forall id :: id in s.deleted ==> IsRow(s.db.outbox, id))
    && (forall p :: 0 <= p < |s.published| ==> IsRow(s.db.outbox, s.published[p]))
  }

  ghost predicate AnySent(workers: map<nat, Worker>, id: nat) {
    exists w :: w in workers && SentBy(workers[w], id)
  }

  ghost predicate InFlight(s: Sys) {
    forall id :: id in s.inflight <==> AnySent(s.workers, id)
  }

  function Bit(b: bool): nat { if b then 1 else 0 }

  /** Conservation: every publication of a row is accounted for by an aborted transaction, by a
      lost reply, by the open transaction that made it, or by the one that deleted the row. */
  ghost predicate Conserved(s: Sys) {
    forall id :: multiset(s.published)[id] == s.aborted[id] + s.unconfirmed[id] + Bit(id in s.deleted) + Bit(id in s.inflight)
  }

  ghost predicate DistinctIds(outbox: seq<OutboxRow>) {
    forall i, j :: 0 <= i < j < |outbox| ==> outbox[i].id != outbox[j].id
  }

  ghost predicate PubInv(s: Sys) {
    Workers(s) && Known(s) && InFlight(s) && Conserved(s)
  }

  // ---------- selecting a batch ----------

  lemma BatchFacts(s: Sys)
    requires DistinctIds(s.db.outbox)
    ensures forall k :: 0 <= k < |Batch(s)| ==> Batch(s)[k] in s.db.outbox && Batch(s)[k].id !in s.deleted && !RowLocked(s, Batch(s)[k].id)
    ensures forall k, l :: 0 <= k < l < |Batch(s)| ==> Batch(s)[k].id < Batch(s)[l].id
    ensures forall r, k :: r in s.db.outbox && r.id !in s.deleted && !RowLocked(s, r.id) && 0 <= k < |Batch(s)| && r.id < Batch(s)[k].id ==>
                             r in Batch(s)[..k]
  {
    var q := Ordering.Where(Unlocked(s), s.db.outbox);
    Ordering.WhereNoDup(Unlocked(s), s.db.outbox);
    assert Ordering.Separates(IdBefore, q);
    Ordering.LimitKeepsLeast(IdBefore, q, BATCH);
    var b := Batch(s);
    assert b == Ordering.Limit(Ordering.Sort(IdBefore, q), BATCH);
    forall k | 0 <= k < |b| ensures b[k] in q { assert b[k] in b; }
    forall k, l | 0 <= k < l < |b| ensures b[k].id < b[l].id { assert IdBefore(b[k], b[l]); }
    forall r, k | r in s.db.outbox && Unlocked(s)(r) && 0 <= k < |b| && r.id < b[k].id ensures r in b[..k] {
      assert r in q && IdBefore(r, b[k]);
    }
  }

  /** The batch is 100 rows, or all that are pending and unlocked. */
  lemma BatchIsFull(s: Sys)
    requires DistinctIds(s.db.outbox)
    ensures |Batch(s)| <= 100
    ensures forall r :: r in s.db.outbox && r.id !in s.deleted && !RowLocked(s, r.id) && r !in Batch(s) ==> |Batch(s)| == 100
  {
    var q := Ordering.Where(Unlocked(s), s.db.outbox);
    Ordering.WhereNoDup(Unlocked(s), s.db.outbox);
    assert Ordering.Separates(IdBefore, q);
    Ordering.SortNoDup(IdBefore, q);
    forall r | r in s.db.outbox && Unlocked(s)(r) && r !in Batch(s) ensures |Batch(s)| == 100 {
      assert r in q && r in Ordering.Sort(IdBefore, q);
    }
  }

  /** Replacing or adding one transaction's record changes only what that record has sent. */
  lemma SentUpdate(workers: map<nat, Worker>, w: nat, k: Worker, id: nat)
    requires w in workers ==> SentBy(workers[w], id) ==> SentBy(k, id)
    ensures AnySent(workers[w := k], id) <==> AnySent(workers, id) || SentBy(k, id)
  {
    var ws := workers[w := k];
    if AnySent(workers, id) {
      var v :| v in workers && SentBy(workers[v], id);
      assert v in ws && SentBy(ws[v], id);
    }
    if SentBy(k, id) {
      assert w in ws && SentBy(ws[w], id);
    }
  }

  lemma SelectWorkers(s: Sys, s': Sys, w: nat, b: Worker)
    requires Workers(s) && DistinctIds(s.db.outbox) && w !in s.workers
    requires b == Worker(Batch(s), 0, false) && s'.workers == s.workers[w := b]
    requires s'.db == s.db && s'.deleted == s.deleted
    ensures Workers(s')
  {
    BatchFacts(s);
    forall v | v in s'.workers ensures WorkerFine(s'.db.outbox, s'.deleted, s'.workers[v]) {
      assert v != w ==> WorkerFine(s.db.outbox, s.deleted, s.workers[v]);
    }
    forall v | v in s.workers ensures Disjoint(s.workers[v], b) && Disjoint(b, s.workers[v]) {
      forall k, l | 0 <= k < |s.workers[v].batch| && 0 <= l < |b.batch| ensures s.workers[v].batch[k].id != b.batch[l].id {
        assert !RowLocked(s, b.batch[l].id);
        assert InBatch(s.workers[v], s.workers[v].batch[k].id);
      }
    }
    forall u, v | u in s'.workers && v in s'.workers && u != v ensures Disjoint(s'.workers[u], s'.workers[v]) {
      assert u != w && v != w ==> Disjoint(s.workers[u], s.workers[v]);
    }
  }

  lemma StepSelect(h: CoinId -> int, s: Sys, w: nat)
    requires PubInv(s) && DistinctIds(s.db.outbox) && Allowed(h, s, Select(w))
    ensures PubInv(Next(h, s, Select(w)))
  {
    var s' := Next(h, s, Select(w));
    SelectWorkers(s, s', w, s'.workers[w]);
    forall id ensures AnySent(s'.workers, id) <==> AnySent(s.workers, id) {
      SentUpdate(s.workers, w, s'.workers[w], id);
    }
  }

  // ---------- publishing ----------

  /** The row about to be published is new to every open transaction's published rows. */
  lemma NextIsUnsent(s: Sys, w: nat)
    requires PubInv(s) && w in s.workers && s.workers[w].sent < |s.workers[w].batch|
    ensures s.workers[w].batch[s.workers[w].sent].id !in s.inflight
    ensures s.workers[w].batch[s.workers[w].sent].id !in s.deleted
  {
    var k := s.workers[w];
    var id := k.batch[k.sent].id;
    assert WorkerFine(s.db.outbox, s.deleted, k);
  }

  lemma SentGrows(k: Worker, id: nat)
    requires k.sent < |k.batch|
    ensures SentBy(k.(sent := k.sent + 1), id) <==> SentBy(k, id) || k.batch[k.sent].id == id
  {
    var k' := k.(sent := k.sent + 1);
    if SentBy(k, id) {
      var i :| 0 <= i < k.sent && k.batch[i].id == id;
      assert k'.batch[i].id == id;
    }
    if k.batch[k.sent].id == id {
      assert k'.batch[k.sent].id == id;
    }
  }

  /** Progress inside a transaction keeps its rows, so the batches stay in order and disjoint. */
  lemma SameBatch(s: Sys, s': Sys, w: nat, k: Worker)
    requires Workers(s) && w in s.workers && s'.workers == s.workers[w := k]
    requires k.batch == s.workers[w].batch && k.sent <= |k.batch|
    requires s'.db == s.db && s'.deleted == s.deleted
    ensures Workers(s')
  {
    forall v | v in s'.workers ensures WorkerFine(s'.db.outbox, s'.deleted, s'.workers[v]) {
      assert WorkerFine(s.db.outbox, s.deleted, s.workers[v]);
    }
    forall u, v | u in s'.workers && v in s'.workers && u != v ensures Disjoint(s'.workers[u], s'.workers[v]) {
      assert Disjoint(s.workers[u], s.workers[v]);
    }
  }

  lemma PublishInFlight(s: Sys, s': Sys, w: nat, k: Worker)
    requires InFlight(s) && w in s.workers && k == s.workers[w] && k.sent < |k.batch|
    requires s'.workers == s.workers[w := k.(sent := k.sent + 1)] && s'.inflight == s.inflight + {k.batch[k.sent].id}
    ensures InFlight(s')
  {
    forall id ensures id in s'.inflight <==> AnySent(s'.workers, id) {
      SentGrows(k, id);
      SentUpdate(s.workers, w, k.(sent := k.sent + 1), id);
      assert SentBy(k, id) ==> AnySent(s.workers, id);
    }
  }

  lemma PublishConserved(s: Sys, s': Sys, id: nat)
    requires Conserved(s) && id !in s.inflight && id !in s.deleted
    requires s'.published == s.published + [id] && s'.inflight == s.inflight + {id}
    requires s'.deleted == s.deleted && s'.aborted == s.aborted && s'.unconfirmed == s.unconfirmed
    ensures Conserved(s')
  {
    assert multiset(s'.published) == multiset(s.published) + multiset{id};
  }

  lemma StepPublish(h: CoinId -> int, s: Sys, w: nat)
    requires PubInv(s) && Allowed(h, s, Publish(w))
    ensures PubInv(Next(h, s, Publish(w)))
  {
    var s' := Next(h, s, Publish(w));
    var k := s.workers[w];
    var id := k.batch[k.sent].id;
    NextIsUnsent(s, w);
    PublishInFlight(s, s', w, k);
    SameBatch(s, s', w, s'.workers[w]);
    PublishConserved(s, s', id);
    PublishKnown(s, s', k);
  }

  lemma PublishKnown(s: Sys, s': Sys, k: Worker)
    requires Known(s) && WorkerFine(s.db.outbox, s.deleted, k) && k.sent < |k.batch|
    requires s'.db == s.db && s'.deleted == s.deleted && s'.published == s.published + [k.batch[k.sent].id]
    ensures Known(s')
  {
    assert k.batch[k.sent] in s.db.outbox;
    assert IsRow(s.db.outbox, k.batch[k.sent].id);
  }

  lemma FailWorkers(s: Sys, s': Sys, w: nat)
    requires PubInv(s) && w in s.workers && s'.workers == s.workers[w := s.workers[w].(stopped := true)]
    requires s'.db == s.db && s'.deleted == s.deleted && s'.inflight == s.inflight
    ensures Workers(s') && InFlight(s')
  {
    var k, k' := s.workers[w], s'.workers[w];
    assert WorkerFine(s.db.outbox, s.deleted, k);
    SameBatch(s, s', w, k');
    forall id ensures AnySent(s'.workers, id) <==> AnySent(s.workers, id) {
      assert SentBy(k', id) <==> SentBy(k, id);
      SentUpdate(s.workers, w, k', id);
      assert SentBy(k, id) ==> AnySent(s.workers, id);
    }
  }

  lemma StepPublishFails(h: CoinId -> int, s: Sys, w: nat, delivered: bool)
    requires PubInv(s) && Allowed(h, s, PublishFails(w, delivered))
    ensures PubInv(Next(h, s, PublishFails(w, delivered)))
  {
    var s' := Next(h, s, PublishFails(w, delivered));
    FailWorkers(s, s', w);
    if delivered {
      var k := s.workers[w];
      assert WorkerFine(s.db.outbox, s.deleted, k);
      PublishKnown(s, s', k);
      assert multiset(s'.published) == multiset(s.published) + multiset{k.batch[k.sent].id};
    }
  }

  // ---------- ending a transaction ----------

  lemma SentIdsExact(w: Worker, id: nat)
    requires w.sent <= |w.batch|
    ensures id in SentIds(w) <==> SentBy(w, id)
  {
  }

  /** Closing a transaction takes exactly its published rows out of flight. */
  lemma CloseInFlight(s: Sys, w: nat, workers: map<nat, Worker>, inflight: set<nat>)
    requires Workers(s) && InFlight(s) && w in s.workers
    requires workers == s.workers - {w} && inflight == s.inflight - SentIds(s.workers[w])
    ensures forall id :: id in inflight <==> AnySent(workers, id)
  {
    var k := s.workers[w];
    forall id ensures id in inflight <==> AnySent(workers, id) {
      SentIdsExact(k, id);
      if id in inflight {
        var v :| v in s.workers && SentBy(s.workers[v], id);
        assert v in workers && SentBy(workers[v], id);
      }
      if AnySent(workers, id) {
        var v :| v in workers && SentBy(workers[v], id);
        assert v in s.workers && SentBy(s.workers[v], id) && Disjoint(s.workers[v], k);
      }
    }
  }

  lemma SentAreInFlight(s: Sys, w: nat)
    requires Workers(s) && InFlight(s) && w in s.workers
    ensures SentIds(s.workers[w]) <= s.inflight && SentIds(s.workers[w]) !! s.deleted
    ensures forall id :: id in SentIds(s.workers[w]) ==> IsRow(s.db.outbox, id)
  {
    var k := s.workers[w];
    assert WorkerFine(s.db.outbox, s.deleted, k);
    forall id | id in SentIds(k) ensures id in s.inflight && id !in s.deleted && IsRow(s.db.outbox, id) {
      SentIdsExact(k, id);
      var i :| 0 <= i < k.sent && k.batch[i].id == id;
      assert k.batch[i] in s.db.outbox;
    }
  }

  lemma StepClose(h: CoinId -> int, s: Sys, p: PubAction)
    requires PubInv(s) && Allowed(h, s, p) && (p.CommitBatch? || p.AbortBatch?)
    ensures PubInv(Next(h, s, p))
  {
    var s' := Next(h, s, p);
    SentAreInFlight(s, p.w);
    CloseInFlight(s, p.w, s'.workers, s'.inflight);
    forall v | v in s'.workers ensures WorkerFine(s'.db.outbox, s'.deleted, s'.workers[v]) {
      assert WorkerFine(s.db.outbox, s.deleted, s.workers[v]) && Disjoint(s.workers[v], s.workers[p.w]);
      forall k | 0 <= k < |s.workers[v].batch| ensures s.workers[v].batch[k].id !in SentIds(s.workers[p.w]) {
        SentIdsExact(s.workers[p.w], s.workers[v].batch[k].id);
      }
    }
  }

  // ---------- writers in between ----------

  lemma RowsStay(p: seq<OutboxRow>, q: seq<OutboxRow>, id: nat)
    requires p <= q && IsRow(p, id)
    ensures IsRow(q, id)
  {
    var i :| 0 <= i < |p| && p[i].id == id;
    assert q[i] == p[i];
  }

  lemma StepWrite(h: CoinId -> int, s: Sys, a: Action)
    requires PubInv(s) && Enabled(h, s.db, a)
    ensures PubInv(Next(h, s, Write(a)))
  {
    var s' := Next(h, s, Write(a));
    assert s.db.outbox <= s'.db.outbox;
    forall id | IsRow(s.db.outbox, id) ensures IsRow(s'.db.outbox, id) {
      RowsStay(s.db.outbox, s'.db.outbox, id);
    }
    forall w | w in s.workers ensures WorkerFine(s'.db.outbox, s.deleted, s.workers[w]) {
      assert WorkerFine(s.db.outbox, s.deleted, s.workers[w]);
    }
  }

  lemma PubStep(h: CoinId -> int, s: Sys, p: PubAction)
    requires PubInv(s) && DistinctIds(s.db.outbox) && Allowed(h, s, p)
    ensures PubInv(Next(h, s, p))
  {
    match p {
      case Write(a) => StepWrite(h, s, a);
      case Select(w) => StepSelect(h, s, w);
      case Publish(w) => StepPublish(h, s, w);
      case PublishFails(w, delivered) => StepPublishFails(h, s, w, delivered);
      case CommitBatch(w) => StepClose(h, s, p);
      case AbortBatch(w) => StepClose(h, s, p);
    }
  }

  lemma InvDistinct(h: CoinId -> int, db: Db)
    requires Inv(h, db)
    ensures DistinctIds(db.outbox) && |db.outbox| == |db.log|
    ensures forall i, j :: 0 <= i < j < |db.log| && db.log[i].base.aggId == db.log[j].base.aggId ==> db.outbox[i].id < db.outbox[j].id
  {
  }

  lemma {:induction false} SysRunKeeps(h: CoinId -> int, s: Sys, acts: seq<PubAction>, s': Sys)
    requires Inv(h, s.db) && PubInv(s) && SysRun(h, s, acts, s')
    requires forall i :: 0 <= i < |acts| ==> Proper(acts[i])
    ensures Inv(h, s'.db) && PubInv(s')
    decreases |acts|
  {
    if acts != [] {
      InvDistinct(h, s.db);
      PubStep(h, s, acts[0]);
      if acts[0].Write? {
        StepKeepsInv(h, s.db, acts[0].a);
      }
      SysRunKeeps(h, Next(h, s, acts[0]), acts[1..], s');
    }
  }

  // ---------- conservation ----------

  /** Outbox conservation, for any number of publishers and any interleaving with writers:
      one outbox row per committed event, open batches hold disjoint rows, every committed event
      is still pending or has been published, and a row's publication count is exactly its
      aborted and its unconfirmed publications plus one if it is deleted or published by an open
      transaction. */
  lemma OutboxConservation(h: CoinId -> int, acts: seq<PubAction>, s: Sys)
    requires ProperRun(h, acts, s)
    ensures |s.db.outbox| == |s.db.log| && DistinctIds(s.db.outbox)
    ensures forall v, w :: v in s.workers && w in s.workers && v != w ==> Disjoint(s.workers[v], s.workers[w])
    ensures forall i :: 0 <= i < |s.db.log| ==>
                          var id := s.db.outbox[i].id;
                          && (id !in s.deleted || id in s.published)
                          && multiset(s.published)[id] == s.aborted[id] + s.unconfirmed[id] + Bit(id in s.deleted) + Bit(AnySent(s.workers, id))
                          && multiset(s.published)[id] <= 1 + s.aborted[id] + s.unconfirmed[id]
    ensures forall p :: 0 <= p < |s.published| ==> IsRow(s.db.outbox, s.published[p])
  {
    RunPub(h, acts, s);
    forall i | 0 <= i < |s.db.log|
      ensures var id := s.db.outbox[i].id;
              && (id !in s.deleted || id in s.published)
              && multiset(s.published)[id] == s.aborted[id] + s.unconfirmed[id] + Bit(id in s.deleted) + Bit(AnySent(s.workers, id))
              && multiset(s.published)[id] <= 1 + s.aborted[id] + s.unconfirmed[id]
    {
      RowConserved(s, s.db.outbox[i].id);
    }
  }

  lemma RunPub(h: CoinId -> int, acts: seq<PubAction>, s: Sys)
    requires ProperRun(h, acts, s)
    ensures PubInv(s) && DistinctIds(s.db.outbox) && |s.db.outbox| == |s.db.log|
  {
    SysRunKeeps(h, START, acts, s);
    InvDistinct(h, s.db);
  }

  lemma RowConserved(s: Sys, id: nat)
    requires PubInv(s)
    ensures id !in s.deleted || id in s.published
    ensures multiset(s.published)[id] == s.aborted[id] + s.unconfirmed[id] + Bit(id in s.deleted) + Bit(AnySent(s.workers, id))
    ensures multiset(s.published)[id] <= 1 + s.aborted[id] + s.unconfirmed[id]
  {
    assert id in s.inflight <==> AnySent(s.workers, id);
    if AnySent(s.workers, id) {
      SentNotDeleted(s, id);
    }
    assert multiset(s.published)[id] > 0 ==> id in multiset(s.published);
  }

  lemma SentNotDeleted(s: Sys, id: nat)
    requires Workers(s) && AnySent(s.workers, id)
    ensures id !in s.deleted
  {
    var w :| w in s.workers && SentBy(s.workers[w], id);
    assert WorkerFine(s.db.outbox, s.deleted, s.workers[w]);
  }

  ghost predicate Drained(s: Sys) {
    s.workers == map[] && forall i :: 0 <= i < |s.db.outbox| ==> s.db.outbox[i].id in s.deleted
  }

  /** Exactly once: when the table has been drained, every committed event was published exactly
      once if and only if no transaction that had published something was aborted and no delivered
      publication was reported as failed. */
  lemma ExactlyOnceIff(h: CoinId -> int, acts: seq<PubAction>, s: Sys)
    requires ProperRun(h, acts, s) && Drained(s)
    ensures forall i :: 0 <= i < |s.db.outbox| ==>
                          var id := s.db.outbox[i].id; multiset(s.published)[id] == 1 + s.aborted[id] + s.unconfirmed[id]
    ensures (forall i :: 0 <= i < |s.db.outbox| ==> multiset(s.published)[s.db.outbox[i].id] == 1) <==>
            s.aborted == multiset{} && s.unconfirmed == multiset{}
  {
    OutboxConservation(h, acts, s);
    forall i | 0 <= i < |s.db.outbox|
      ensures var id := s.db.outbox[i].id; multiset(s.published)[id] == 1 + s.aborted[id] + s.unconfirmed[id]
    {
      assert !AnySent(s.workers, s.db.outbox[i].id);
    }
    if s.aborted != multiset{} || s.unconfirmed != multiset{} {
      var id :| id in s.aborted || id in s.unconfirmed;
      RepeatsAreRows(h, acts, s, id);
      var i :| 0 <= i < |s.db.outbox| && s.db.outbox[i].id == id;
    }
  }

  lemma RepeatsAreRows(h: CoinId -> int, acts: seq<PubAction>, s: Sys, id: nat)
    requires ProperRun(h, acts, s) && (id in s.aborted || id in s.unconfirmed)
    ensures IsRow(s.db.outbox, id)
  {
    RunPub(h, acts, s);
    assert multiset(s.published)[id] > 0;
    assert id in multiset(s.published);
    assert id in s.published;
    var p :| 0 <= p < |s.published| && s.published[p] == id;
  }

  // ---------- publication order with one publisher ----------

  ghost predicate SameAggregate(db: Db, i: int, j: int) {
    0 <= i < j < |db.log| && |db.outbox| == |db.log| && db.log[i].base.aggId == db.log[j].base.aggId
  }

  ghost predicate Earlier(batch: seq<OutboxRow>, k: int, id: nat) {
    exists l :: 0 <= l < k <= |batch| && batch[l].id == id
  }

  /** Older rows of the same aggregate are deleted or stand before it in the batch. */
  ghost predicate BatchInOrder(s: Sys, w: Worker) {
    forall i, j, k :: SameAggregate(s.db, i, j) && 0 <= k < |w.batch| && w.batch[k].id == s.db.outbox[j].id ==>
                        s.db.outbox[i].id in s.deleted || Earlier(w.batch, k, s.db.outbox[i].id)
  }

  ghost predicate PublishedInOrder(s: Sys) {
    forall i, j, p :: SameAggregate(s.db, i, j) && 0 <= p < |s.published| && s.published[p] == s.db.outbox[j].id ==>
                        s.db.outbox[i].id in s.published[..p]
  }

  ghost predicate OneInOrder(s: Sys) {
    && (forall w :: w in s.workers ==> w == 0 && BatchInOrder(s, s.workers[w]))
    && PublishedInOrder(s)
  }

  ghost predicate OutboxAligned(db: Db) {
    && |db.outbox| == |db.log| && DistinctIds(db.outbox)
    && forall i, j :: SameAggregate(db, i, j) ==> db.outbox[i].id < db.outbox[j].id
  }

  lemma SelectInOrder(s: Sys, b: Worker)
    requires OutboxAligned(s.db) && s.workers == map[] && b.batch == Batch(s)
    ensures BatchInOrder(s, b)
  {
    BatchFacts(s);
    forall i, j, k | SameAggregate(s.db, i, j) && 0 <= k < |b.batch| && b.batch[k].id == s.db.outbox[j].id
      ensures s.db.outbox[i].id in s.deleted || Earlier(b.batch, k, s.db.outbox[i].id)
    {
      var r := s.db.outbox[i];
      if r.id !in s.deleted {
        assert !RowLocked(s, r.id) && r in b.batch[..k];
        var l :| 0 <= l < k && b.batch[..k][l] == r;
        assert b.batch[l].id == r.id;
      }
    }
  }

  lemma PublishInOrder(s: Sys, s': Sys, w: nat, k: Worker)
    requires PubInv(s) && OneInOrder(s) && w in s.workers && k == s.workers[w] && k.sent < |k.batch|
    requires s'.db == s.db && s'.published == s.published + [k.batch[k.sent].id]
    ensures PublishedInOrder(s')
  {
    forall i, j, p | SameAggregate(s.db, i, j) && 0 <= p < |s'.published| && s'.published[p] == s.db.outbox[j].id
      ensures s.db.outbox[i].id in s'.published[..p]
    {
      if p < |s.published| {
        assert s'.published[..p] == s.published[..p];
      } else {
        var id := s.db.outbox[i].id;
        assert s'.published[..p] == s.published;
        if id !in s.deleted {
          var l :| 0 <= l < k.sent && k.batch[l].id == id;
          assert SentBy(k, id);
          assert AnySent(s.workers, id);
        }
        assert multiset(s.published)[id] > 0;
        assert id in multiset(s.published);
      }
    }
  }

  lemma WriteInOrder(s: Sys, s': Sys)
    requires PubInv(s) && OneInOrder(s) && OutboxAligned(s.db) && OutboxAligned(s'.db)
    requires s.db.outbox <= s'.db.outbox && s.db.log <= s'.db.log
    requires s' == s.(db := s'.db)
    ensures OneInOrder(s')
  {
    forall i, j, p | SameAggregate(s'.db, i, j) && 0 <= p < |s.published| && s.published[p] == s'.db.outbox[j].id
      ensures s'.db.outbox[i].id in s.published[..p]
    {
      var m :| 0 <= m < |s.db.outbox| && s.db.outbox[m].id == s.published[p];
      assert s'.db.outbox[m] == s.db.outbox[m];
      assert m == j;
      assert SameAggregate(s.db, i, j);
    }
    forall w | w in s.workers ensures BatchInOrder(s', s.workers[w]) {
      WriteBatchInOrder(s, s', s.workers[w]);
    }
  }

  lemma WriteBatchInOrder(s: Sys, s': Sys, w: Worker)
    requires BatchInOrder(s, w) && WorkerFine(s.db.outbox, s.deleted, w) && OutboxAligned(s.db) && OutboxAligned(s'.db)
    requires s.db.outbox <= s'.db.outbox && s.db.log <= s'.db.log && s'.deleted == s.deleted
    ensures BatchInOrder(s', w)
  {
    forall i, j, k | SameAggregate(s'.db, i, j) && 0 <= k < |w.batch| && w.batch[k].id == s'.db.outbox[j].id
      ensures s'.db.outbox[i].id in s'.deleted || Earlier(w.batch, k, s'.db.outbox[i].id)
    {
      var m :| 0 <= m < |s.db.outbox| && s.db.outbox[m] == w.batch[k];
      assert s'.db.outbox[m] == s.db.outbox[m];
      assert m == j;
      assert SameAggregate(s.db, i, j);
    }
  }

  lemma InvAligned(h: CoinId -> int, db: Db)
    requires Inv(h, db)
    ensures OutboxAligned(db)
  {
    InvDistinct(h, db);
  }

  predicate OnlyPublisher(p: PubAction) { p.Write? || p.w == 0 }

  lemma OneInOrderStep(h: CoinId -> int, s: Sys, p: PubAction)
    requires PubInv(s) && OneInOrder(s) && OutboxAligned(s.db) && Allowed(h, s, p) && OnlyPublisher(p)
    requires OutboxAligned(Next(h, s, p).db)
    ensures OneInOrder(Next(h, s, p))
  {
    var s' := Next(h, s, p);
    match p {
      case Write(a) => WriteInOrder(s, s');
      case Select(w) =>
        assert s.workers == map[];
        SelectInOrder(s, s'.workers[0]);
      case Publish(w) =>
        PublishInOrder(s, s', w, s.workers[w]);
        assert BatchInOrder(s, s.workers[0]);
        assert BatchInOrder(s', s'.workers[0]);
      case PublishFails(w, delivered) =>
        if delivered {
          PublishInOrder(s, s', w, s.workers[w]);
        }
        assert BatchInOrder(s, s.workers[0]);
        assert BatchInOrder(s', s'.workers[0]);
      case CommitBatch(w) => assert s'.workers == map[];
      case AbortBatch(w) => assert s'.workers == map[];
    }
  }

  lemma {:induction false} OnePublisherRun(h: CoinId -> int, s: Sys, acts: seq<PubAction>, s': Sys)
    requires Inv(h, s.db) && PubInv(s) && OneInOrder(s) && SysRun(h, s, acts, s')
    requires forall i :: 0 <= i < |acts| ==> Proper(acts[i]) && OnlyPublisher(acts[i])
    ensures Inv(h, s'.db) && OneInOrder(s')
    decreases |acts|
  {
    if acts != [] {
      InvAligned(h, s.db);
      var m := Next(h, s, acts[0]);
      PubStep(h, s, acts[0]);
      if acts[0].Write? {
        StepKeepsInv(h, s.db, acts[0].a);
      }
      InvAligned(h, m.db);
      OneInOrderStep(h, s, acts[0]);
      OnePublisherRun(h, m, acts[1..], s');
    }
  }

  /** With one publisher, whatever writers do and wherever batches fail, every publication of an
      event is preceded by a publication of every older version of its aggregate. */
  lemma FirstPublicationsInVersionOrder(h: CoinId -> int, acts: seq<PubAction>, s: Sys, p: nat, i: nat, j: nat)
    requires ProperRun(h, acts, s) && forall n :: 0 <= n < |acts| ==> OnlyPublisher(acts[n])
    requires p < |s.published| && i < |s.db.log| && j < |s.db.log| && |s.db.outbox| == |s.db.log|
    requires s.db.log[i].base.aggId == s.db.log[j].base.aggId && s.db.log[i].base.version < s.db.log[j].base.version
    requires s.published[p] == s.db.outbox[j].id
    ensures exists q :: 0 <= q < p && s.published[q] == s.db.outbox[i].id
  {
    OnePublisherRun(h, START, acts, s);
    NumberedOrder(h, s.db, i, j);
    assert SameAggregate(s.db, i, j);
    assert s.db.outbox[i].id in s.published[..p];
  }

  lemma NumberedOrder(h: CoinId -> int, db: Db, i: nat, j: nat)
    requires Inv(h, db) && i < |db.log| && j < |db.log|
    requires db.log[i].base.aggId == db.log[j].base.aggId && db.log[i].base.version < db.log[j].base.version
    ensures i < j
  {
    if j < i {
      CountUnique(db.log, j, i);
    }
  }
}
