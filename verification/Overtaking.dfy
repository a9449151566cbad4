/** When publications of one aggregate go out of order, with any number of publishers
    (internal/eventstore/outbox.go). */
module Overtaking {
  import opened Market
  import opened EventStore
  import opened Outbox

  // ---------- the states of a run ----------

  ghost predicate StepAt(h: CoinId -> int, acts: seq<PubAction>, trail: seq<Sys>, i: int) {
    0 <= i < |acts| && i + 1 < |trail| && Allowed(h, trail[i], acts[i]) && trail[i + 1] == Next(h, trail[i], acts[i])
  }

  ghost predicate Trail(h: CoinId -> int, acts: seq<PubAction>, trail: seq<Sys>) {
    |trail| == |acts| + 1 && forall i :: 0 <= i < |acts| ==> StepAt(h, acts, trail, i)
  }

  lemma TrailCons(h: CoinId -> int, s: Sys, acts: seq<PubAction>, rest: seq<Sys>)
    requires acts != [] && Allowed(h, s, acts[0]) && Trail(h, acts[1..], rest) && rest[0] == Next(h, s, acts[0])
    ensures Trail(h, acts, [s] + rest)
  {
    forall i | 0 <= i < |acts| ensures StepAt(h, acts, [s] + rest, i) {
      if i > 0 {
        assert StepAt(h, acts[1..], rest, i - 1);
      }
    }
  }

  lemma {:induction false} TrailOf(h: CoinId -> int, s: Sys, acts: seq<PubAction>, s': Sys) returns (trail: seq<Sys>)
    requires SysRun(h, s, acts, s')
    ensures Trail(h, acts, trail) && trail[0] == s && trail[|acts|] == s'
    decreases |acts|
  {
    if acts == [] {
      trail := [s];
    } else {
      var rest := TrailOf(h, Next(h, s, acts[0]), acts[1..], s');
      TrailCons(h, s, acts, rest);
      trail := [s] + rest;
    }
  }

  lemma {:induction false} TrailRuns(h: CoinId -> int, acts: seq<PubAction>, trail: seq<Sys>, n: nat)
    requires Trail(h, acts, trail) && trail[0] == START && n <= |acts|
    ensures SysRun(h, START, acts[..n], trail[n])
  {
    if n > 0 {
      TrailRuns(h, acts, trail, n - 1);
      assert StepAt(h, acts, trail, n - 1);
      SysRunSnoc(h, START, acts[..n - 1], trail[n - 1], acts[n - 1]);
      assert acts[..n] == acts[..n - 1] + [acts[n - 1]];
    }
  }

  // ---------- who selected a batch ----------

  /** Step i of the run selected this batch for worker w. */
  ghost predicate SelectedAt(acts: seq<PubAction>, trail: seq<Sys>, i: int, w: nat, batch: seq<OutboxRow>) {
    0 <= i < |acts| && i < |trail| && acts[i] == Select(w) && Batch(trail[i]) == batch
  }

  lemma BatchIsKept(h: CoinId -> int, s: Sys, p: PubAction, w: nat)
    requires Allowed(h, s, p) && w in Next(h, s, p).workers && p != Select(w)
    ensures w in s.workers && s.workers[w].batch == Next(h, s, p).workers[w].batch
  {
  }

  lemma {:induction false} WasSelected(h: CoinId -> int, acts: seq<PubAction>, trail: seq<Sys>, n: nat, w: nat)
    requires Trail(h, acts, trail) && trail[0] == START && n <= |acts| && w in trail[n].workers
    ensures exists i :: i < n && SelectedAt(acts, trail, i, w, trail[n].workers[w].batch)
  {
    if n > 0 {
      assert StepAt(h, acts, trail, n - 1);
      if acts[n - 1] == Select(w) {
        assert SelectedAt(acts, trail, n - 1, w, trail[n].workers[w].batch);
      } else {
        BatchIsKept(h, trail[n - 1], acts[n - 1], w);
        WasSelected(h, acts, trail, n - 1, w);
      }
    }
  }

  lemma {:induction false} SysRunSplit(h: CoinId -> int, s: Sys, a: seq<PubAction>, b: seq<PubAction>, s': Sys) returns (m: Sys)
    requires SysRun(h, s, a + b, s')
    ensures SysRun(h, s, a, m) && SysRun(h, m, b, s')
    decreases |a|
  {
    if a == [] {
      assert a + b == b;
      m := s;
    } else {
      assert (a + b)[0] == a[0] && (a + b)[1..] == a[1..] + b;
      m := SysRunSplit(h, Next(h, s, a[0]), a[1..], b, s');
    }
  }

  lemma {:induction false} SysRunDeterministic(h: CoinId -> int, s: Sys, acts: seq<PubAction>, t: Sys, u: Sys)
    requires SysRun(h, s, acts, t) && SysRun(h, s, acts, u)
    ensures t == u
    decreases |acts|
  {
    if acts != [] {
      SysRunDeterministic(h, Next(h, s, acts[0]), acts[1..], t, u);
    }
  }

  lemma {:induction false} HistoriesGrow(h: CoinId -> int, s: Sys, acts: seq<PubAction>, t: Sys)
    requires SysRun(h, s, acts, t)
    ensures s.db.outbox <= t.db.outbox && s.db.log <= t.db.log && s.published <= t.published
    decreases |acts|
  {
    if acts != [] {
      HistoriesGrow(h, Next(h, s, acts[0]), acts[1..], t);
    }
  }

  lemma ProperPrefix(h: CoinId -> int, acts: seq<PubAction>, n: nat, m: Sys)
    requires n <= |acts| && SysRun(h, START, acts[..n], m) && forall i :: 0 <= i < |acts| ==> Proper(acts[i])
    ensures PubInv(m) && OutboxAligned(m.db)
  {
    assert ProperRun(h, acts[..n], m);
    RunPub(h, acts[..n], m);
    SysRunKeeps(h, START, acts[..n], m);
    InvAligned(h, m.db);
  }

  lemma SentIsPublished(s: Sys, w: nat, k: nat)
    requires PubInv(s) && w in s.workers && k < s.workers[w].sent <= |s.workers[w].batch|
    ensures s.workers[w].batch[k].id in s.published
  {
    var id := s.workers[w].batch[k].id;
    assert SentBy(s.workers[w], id);
    assert AnySent(s.workers, id);
    assert multiset(s.published)[id] > 0;
    assert id in multiset(s.published);
  }

  lemma DeletedIsPublished(s: Sys, id: nat)
    requires PubInv(s) && id in s.deleted
    ensures id in s.published
  {
    assert multiset(s.published)[id] > 0;
    assert id in multiset(s.published);
  }

  lemma TakenIsPublished(m: Sys, s: Sys, w: nat, r: OutboxRow)
    requires PubInv(s) && w in s.workers && s.workers[w].batch == Batch(m) && s.workers[w].sent <= |Batch(m)|
    requires r in Batch(m)[..s.workers[w].sent]
    ensures r.id in s.published
  {
    var k := s.workers[w].sent;
    var q :| 0 <= q < k && Batch(m)[..k][q] == r;
    SentIsPublished(s, w, q);
  }

  /** An earlier state of the same run. */
  ghost predicate Earlier(m: Sys, s: Sys) {
    && PubInv(m) && OutboxAligned(m.db) && PubInv(s) && OutboxAligned(s.db)
    && m.db.outbox <= s.db.outbox && m.db.log <= s.db.log && m.published <= s.published
  }

  lemma PrefixIsEarlier(h: CoinId -> int, acts: seq<PubAction>, s: Sys, n: nat, m: Sys)
    requires ProperRun(h, acts, s) && n <= |acts| && SysRun(h, START, acts[..n], m)
    ensures Earlier(m, s)
  {
    assert acts == acts[..n] + acts[n..];
    var m' := SysRunSplit(h, START, acts[..n], acts[n..], s);
    SysRunDeterministic(h, START, acts[..n], m, m');
    HistoriesGrow(h, m, acts[n..], s);
    ProperPrefix(h, acts, n, m);
    assert acts[..|acts|] == acts;
    ProperPrefix(h, acts, |acts|, s);
  }

  lemma BatchIndex(m: Sys, s: Sys, k: nat, i: nat, j: nat)
    requires Earlier(m, s) && SameAggregate(s.db, i, j) && k < |Batch(m)| && Batch(m)[k].id == s.db.outbox[j].id
    ensures SameAggregate(m.db, i, j) && m.db.outbox[i] == s.db.outbox[i] && m.db.outbox[j] == Batch(m)[k]
  {
    BatchFacts(m);
    var l :| 0 <= l < |m.db.outbox| && m.db.outbox[l] == Batch(m)[k];
    assert s.db.outbox[l] == m.db.outbox[l] && l == j;
  }

  /** In the state where the batch was selected, the older row was not there to be taken. */
  lemma OlderWasLocked(m: Sys, s: Sys, w: nat, i: nat, j: nat)
    requires Earlier(m, s) && w in s.workers && s.workers[w].batch == Batch(m) && s.workers[w].sent < |Batch(m)|
    requires SameAggregate(s.db, i, j) && Batch(m)[s.workers[w].sent].id == s.db.outbox[j].id
    ensures s.db.outbox[i].id in s.published || RowLocked(m, s.db.outbox[i].id)
  {
    var k, r := s.workers[w].sent, s.db.outbox[i];
    BatchIndex(m, s, k, i, j);
    BatchFacts(m);
    if r.id in m.deleted {
      DeletedIsPublished(m, r.id);
      assert r.id in s.published;
    } else if !RowLocked(m, r.id) {
      assert r in m.db.outbox && r.id < Batch(m)[k].id;
      TakenIsPublished(m, s, w, r);
    }
  }

  /** With any number of publishers, an event is published before an older one of its aggregate only
      if, when its publisher selected its batch, another open transaction held the older row. */
  lemma OvertakingNeedsALock(h: CoinId -> int, acts: seq<PubAction>, s: Sys, w: nat, i: nat, j: nat)
    requires ProperRun(h, acts, s) && Allowed(h, s, Publish(w)) && SameAggregate(s.db, i, j) && |s.db.outbox| == |s.db.log|
    requires s.workers[w].batch[s.workers[w].sent].id == s.db.outbox[j].id && s.db.outbox[i].id !in s.published
    ensures exists n, m :: 0 <= n < |acts| && acts[n] == Select(w) && SysRun(h, START, acts[..n], m) && RowLocked(m, s.db.outbox[i].id)
  {
    var trail := TrailOf(h, START, acts, s);
    WasSelected(h, acts, trail, |acts|, w);
    var n :| n < |acts| && SelectedAt(acts, trail, n, w, s.workers[w].batch);
    var m := trail[n];
    TrailRuns(h, acts, trail, n);
    PrefixIsEarlier(h, acts, s, n, m);
    OlderWasLocked(m, s, w, i, j);
  }
}
