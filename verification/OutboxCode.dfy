/** OutboxPublisher.publishBatch as imperative code under interference: between its statements
    writers and other publishers take any number of steps. */
module OutboxCode {
  import opened Market
  import opened EventStore
  import opened Outbox

  /** What the surroundings of a call do: which statements succeed, which refused publications
      were delivered all the same, and what everyone else does at each interruption. */
  datatype Env = Env(fate: nat -> bool, delivered: nat -> bool, others: nat -> seq<PubAction>)

  /** Redis accepts message k of the batch. */
  predicate Accepted(env: Env, k: nat) { env.fate(1 + k) }

  predicate NotBy(p: PubAction, w: nat) { p.Write? || p.w != w }

  predicate Theirs(h: CoinId -> int, s: Sys, w: nat, p: PubAction) { NotBy(p, w) && Proper(p) && Allowed(h, s, p) }

  /** Everyone but worker w follows a schedule, passing over steps that are not theirs to take. */
  function Others(h: CoinId -> int, w: nat, s: Sys, schedule: seq<PubAction>): Sys
    decreases |schedule|
  {
    if schedule == [] then s
    else Others(h, w, if Theirs(h, s, w, schedule[0]) then Next(h, s, schedule[0]) else s, schedule[1..])
  }

  ghost predicate Elsewhere(h: CoinId -> int, w: nat, s: Sys, acts: seq<PubAction>, s': Sys) {
    SysRun(h, s, acts, s') && forall i :: 0 <= i < |acts| ==> NotBy(acts[i], w) && Proper(acts[i])
  }

  /** Every run of the others is a schedule. */
  lemma {:induction false} RunsAreSchedules(h: CoinId -> int, w: nat, s: Sys, acts: seq<PubAction>, s': Sys)
    requires Elsewhere(h, w, s, acts, s')
    ensures Others(h, w, s, acts) == s'
    decreases |acts|
  {
    if acts != [] {
      RunsAreSchedules(h, w, Next(h, s, acts[0]), acts[1..], s');
    }
  }

  /** Steps of others leave worker w's transaction alone, and histories only grow. */
  lemma {:induction false} OthersKeep(h: CoinId -> int, w: nat, s: Sys, schedule: seq<PubAction>)
    requires SysReachable(h, s)
    ensures SysReachable(h, Others(h, w, s, schedule)) && Undisturbed(w, s, Others(h, w, s, schedule))
    decreases |schedule|
  {
    if schedule != [] {
      var p := schedule[0];
      if Theirs(h, s, w, p) {
        SysReachableStep(h, s, p);
        OthersKeep(h, w, Next(h, s, p), schedule[1..]);
      } else {
        OthersKeep(h, w, s, schedule[1..]);
      }
    }
  }

  ghost predicate Undisturbed(w: nat, s: Sys, s': Sys) {
    && (w in s'.workers <==> w in s.workers)
    && (w in s.workers ==> s'.workers[w] == s.workers[w])
    && s.published <= s'.published && s.deleted <= s'.deleted && s.aborted <= s'.aborted
  }

  // ---------- what happens to the rows of a batch ----------

  /** How often a row was published, how many of these publications were aborted, and whether it is gone. */
  datatype Tally = Tally(published: nat, aborted: nat, deleted: bool)

  function TallyOf(s: Sys, id: nat): Tally { Tally(multiset(s.published)[id], s.aborted[id], id in s.deleted) }

  function Plus(y: Tally, published: nat): Tally { y.(published := y.published + published) }

  /** Nobody else touches the rows of worker w's batch. */
  ghost predicate Spared(w: nat, s: Sys, s': Sys) {
    w in s.workers ==>
      forall k :: 0 <= k < |s.workers[w].batch| ==> TallyOf(s', s.workers[w].batch[k].id) == TallyOf(s, s.workers[w].batch[k].id)
  }

  lemma PublishCounts(p: seq<nat>, id: nat, x: nat)
    ensures multiset(p + [id])[x] == multiset(p)[x] + if x == id then 1 else 0
  {
  }

  lemma OtherSpares(h: CoinId -> int, s: Sys, w: nat, p: PubAction)
    requires PubInv(s) && Theirs(h, s, w, p)
    ensures Spared(w, s, Next(h, s, p))
  {
    if w in s.workers && !p.Write? && !p.Select? {
      var v := s.workers[p.w];
      forall k | 0 <= k < |s.workers[w].batch| ensures TallyOf(Next(h, s, p), s.workers[w].batch[k].id) == TallyOf(s, s.workers[w].batch[k].id) {
        var x := s.workers[w].batch[k].id;
        assert Disjoint(v, s.workers[w]);
        if p.Publish? || p.PublishFails? {
          PublishCounts(s.published, v.batch[v.sent].id, x);
        } else {
          SentIdsExact(v, x);
          assert multiset(SentIds(v))[x] == 0;
        }
      }
    }
  }

  lemma StepSpares(h: CoinId -> int, s: Sys, w: nat, p: PubAction)
    requires SysReachable(h, s) && Theirs(h, s, w, p)
    ensures SysReachable(h, Next(h, s, p)) && Spared(w, s, Next(h, s, p))
    ensures w in s.workers ==> w in Next(h, s, p).workers && Next(h, s, p).workers[w] == s.workers[w]
  {
    var acts :| ProperRun(h, acts, s);
    RunPub(h, acts, s);
    OtherSpares(h, s, w, p);
    SysReachableStep(h, s, p);
  }

  lemma SparedTwice(w: nat, s: Sys, m: Sys, s': Sys)
    requires Spared(w, s, m) && Spared(w, m, s') && (w in s.workers ==> w in m.workers && m.workers[w] == s.workers[w])
    ensures Spared(w, s, s')
  {
  }

  lemma {:induction false} OthersSpare(h: CoinId -> int, w: nat, s: Sys, schedule: seq<PubAction>)
    requires SysReachable(h, s)
    ensures Spared(w, s, Others(h, w, s, schedule))
    decreases |schedule|
  {
    if schedule != [] {
      var p := schedule[0];
      if Theirs(h, s, w, p) {
        var m := Next(h, s, p);
        StepSpares(h, s, w, p);
        OthersSpare(h, w, m, schedule[1..]);
        SparedTwice(w, s, m, Others(h, w, m, schedule[1..]));
      } else {
        OthersSpare(h, w, s, schedule[1..]);
      }
    }
  }

  function Ids(rows: seq<OutboxRow>): seq<nat> {
    seq(|rows|, i requires 0 <= i < |rows| => rows[i].id)
  }

  predicate Ascends(rows: seq<OutboxRow>) { forall k, l :: 0 <= k < l < |rows| ==> rows[k].id < rows[l].id }

  /** The first `count` rows have been published once more, and the next one too if its refused
      publication was delivered. */
  ghost predicate SentUpTo(s: Sys, s': Sys, records: seq<OutboxRow>, count: nat, delivered: bool) {
    forall k :: 0 <= k < |records| ==>
      TallyOf(s', records[k].id) == Plus(TallyOf(s, records[k].id), if k < count || (delivered && k == count) then 1 else 0)
  }

  lemma SentSpared(w: nat, s: Sys, m: Sys, s': Sys, records: seq<OutboxRow>, count: nat, delivered: bool)
    requires SentUpTo(s, m, records, count, delivered) && Spared(w, m, s') && w in m.workers && m.workers[w].batch == records
    ensures SentUpTo(s, s', records, count, delivered)
  {
  }

  lemma SentOneMore(s: Sys, m: Sys, s': Sys, records: seq<OutboxRow>, count: nat)
    requires SentUpTo(s, m, records, count, false) && count < |records| && Ascends(records)
    requires s'.published == m.published + [records[count].id] && s'.aborted == m.aborted && s'.deleted == m.deleted
    ensures SentUpTo(s, s', records, count + 1, false) && SentUpTo(s, s', records, count, true)
  {
    forall k | 0 <= k < |records|
      ensures TallyOf(s', records[k].id) == Plus(TallyOf(s, records[k].id), if k < count + 1 then 1 else 0)
    {
      PublishCounts(m.published, records[count].id, records[k].id);
    }
  }

  /** After a commit the published rows are gone, otherwise each has one more aborted publication. */
  ghost predicate Closed(s: Sys, s': Sys, records: seq<OutboxRow>, count: nat, delivered: bool, committed: bool) {
    forall k :: 0 <= k < |records| ==>
      var before, after := TallyOf(s, records[k].id), TallyOf(s', records[k].id);
      && after.published == before.published + (if k < count || (delivered && k == count) then 1 else 0)
      && after.aborted == before.aborted + (if k < count && !committed then 1 else 0)
      && (after.deleted <==> before.deleted || (k < count && committed))
  }

  lemma CloseCounts(s: Sys, m: Sys, s': Sys, k: Worker, delivered: bool, committed: bool)
    requires SentUpTo(s, m, k.batch, k.sent, delivered) && Ascends(k.batch) && k.sent <= |k.batch|
    requires s'.published == m.published
    requires s'.deleted == m.deleted + (if committed then SentIds(k) else {})
    requires s'.aborted == m.aborted + (if committed then multiset{} else multiset(SentIds(k)))
    ensures Closed(s, s', k.batch, k.sent, delivered, committed)
  {
    forall i | 0 <= i < |k.batch| ensures k.batch[i].id in SentIds(k) <==> i < k.sent {
      SentIdsExact(k, k.batch[i].id);
    }
  }

  /** How a batch that was selected ends: published up to the first refusal, then deleted and committed
      if these statements succeed. */
  ghost predicate Handled(s: Sys, s': Sys, records: seq<OutboxRow>, env: Env, count: nat, ok: bool, committed: bool) {
    && count <= |records| && (forall k :: 0 <= k < count ==> Accepted(env, k)) && (count < |records| ==> !Accepted(env, count))
    && committed == ((count == 0 || env.fate(1 + |records|)) && env.fate(2 + |records|))
    && ok == (committed && count == |records|)
    && Closed(s, s', records, count, count < |records| && env.delivered(count), committed)
  }

  class OutboxPublisher {
    var sys: Sys
    const lockKey: CoinId -> int

    ghost predicate Mine(w: nat, k: Worker)
      reads this
    {
      SysReachable(lockKey, sys) && w in sys.workers && sys.workers[w] == k
    }

    /** Everyone else runs. */
    method Interfere(w: nat, schedule: seq<PubAction>)
      requires SysReachable(lockKey, sys)
      modifies this
      ensures SysReachable(lockKey, sys) && Undisturbed(w, old(sys), sys) && Spared(w, old(sys), sys)
    {
      OthersKeep(lockKey, w, sys, schedule);
      OthersSpare(lockKey, w, sys, schedule);
      sys := Others(lockKey, w, sys, schedule);
    }

    method Exec(p: PubAction)
      requires SysReachable(lockKey, sys) && Allowed(lockKey, sys, p) && Proper(p)
      modifies this
      ensures sys == Next(lockKey, old(sys), p) && SysReachable(lockKey, sys)
    {
      SysReachableStep(lockKey, sys, p);
      sys := Next(lockKey, sys, p);
    }

    method SelectForUpdate(w: nat) returns (records: seq<OutboxRow>)
      requires SysReachable(lockKey, sys) && w !in sys.workers
      modifies this
      ensures records == Batch(old(sys)) && Ascends(records)
      ensures if records == [] then sys == old(sys) else Mine(w, Worker(records, 0, false))
      ensures sys.published == old(sys).published && sys.aborted == old(sys).aborted && sys.deleted == old(sys).deleted
    {
      BatchAscends(lockKey, sys);
      records := Batch(sys);
      if records != [] {
        Exec(Select(w));
      }
    }

    method PublishOne(w: nat, ghost k: Worker)
      requires Mine(w, k) && !k.stopped && k.sent < |k.batch|
      modifies this
      ensures Mine(w, k.(sent := k.sent + 1)) && sys.published == old(sys).published + [k.batch[k.sent].id]
      ensures sys.aborted == old(sys).aborted && sys.deleted == old(sys).deleted
    {
      Exec(Publish(w));
    }

    /** An error from Publish: the message may have been delivered before the reply was lost. */
    method Refused(w: nat, delivered: bool, ghost k: Worker)
      requires Mine(w, k) && !k.stopped && k.sent < |k.batch|
      modifies this
      ensures Mine(w, k.(stopped := true)) && sys.aborted == old(sys).aborted && sys.deleted == old(sys).deleted
      ensures sys.published == if delivered then old(sys).published + [k.batch[k.sent].id] else old(sys).published
      ensures sys.unconfirmed == old(sys).unconfirmed + if delivered then multiset{k.batch[k.sent].id} else multiset{}
    {
      Exec(PublishFails(w, delivered));
    }

    /** Delete what was published and commit, or lose the transaction. */
    method Finish(w: nat, commit: bool, ghost k: Worker)
      requires Mine(w, k) && k.sent <= |k.batch| && (k.stopped || k.sent == |k.batch|)
      modifies this
      ensures SysReachable(lockKey, sys) && w !in sys.workers && sys.published == old(sys).published
      ensures sys.deleted == old(sys).deleted + if commit then SentIds(k) else {}
      ensures sys.aborted == old(sys).aborted + if commit then multiset{} else multiset(SentIds(k))
    {
      if commit {
        Exec(CommitBatch(w));
      } else {
        Exec(AbortBatch(w));
      }
    }

    /** The publish loop: stops at the first message the broker refuses. */
    method PublishAll(w: nat, records: seq<OutboxRow>, env: Env) returns (count: nat, failed: bool)
      requires Mine(w, Worker(records, 0, false)) && Ascends(records)
      modifies this
      ensures count <= |records| && Mine(w, Worker(records, count, failed)) && failed == (count < |records|)
      ensures old(sys).published <= sys.published
      ensures forall k :: 0 <= k < count ==> Accepted(env, k)
      ensures failed ==> !Accepted(env, count)
      ensures SentUpTo(old(sys), sys, records, count, failed && env.delivered(count))
    {
      count, failed := 0, false;
      while count < |records|
        invariant count <= |records| && Mine(w, Worker(records, count, false))
        invariant old(sys).published <= sys.published && SentUpTo(old(sys), sys, records, count, false)
        invariant forall k :: 0 <= k < count ==> Accepted(env, k)
      {
        PublishNext(w, records, count, env, old(sys));
        if !Accepted(env, count) {
          failed := true;
          return;
        }
        count := count + 1;
      }
    }

    /** One message of the loop: published, or refused by the broker. */
    method PublishNext(w: nat, records: seq<OutboxRow>, count: nat, env: Env, ghost start: Sys)
      requires count < |records| && Mine(w, Worker(records, count, false)) && Ascends(records) && SentUpTo(start, sys, records, count, false)
      modifies this
      ensures Mine(w, if Accepted(env, count) then Worker(records, count + 1, false) else Worker(records, count, true))
      ensures old(sys).published <= sys.published
      ensures if Accepted(env, count) then SentUpTo(start, sys, records, count + 1, false) else SentUpTo(start, sys, records, count, env.delivered(count))
    {
      Interfere(w, env.others(1 + count));
      SentSpared(w, start, old(sys), sys, records, count, false);
      ghost var m := sys;
      if Accepted(env, count) {
        PublishOne(w, Worker(records, count, false));
        SentOneMore(start, m, sys, records, count);
      } else {
        Refused(w, env.delivered(count), Worker(records, count, false));
        if env.delivered(count) {
          SentOneMore(start, m, sys, records, count);
        }
      }
    }

    /** publishBatch: selects the lowest unlocked pending rows, publishes them in id order up to the
        first refusal, deletes what was published and commits.  `ids` are the rows it published.
        Each of these was published exactly once more; after a commit they are deleted, and if the
        delete or the commit fails they stay pending with one more aborted publication each. */
    method PublishBatch(w: nat, env: Env) returns (count: nat, ok: bool, committed: bool, ids: seq<nat>)
      requires SysReachable(lockKey, sys) && w !in sys.workers
      modifies this
      ensures SysReachable(lockKey, sys) && w !in sys.workers && old(sys).published <= sys.published
      ensures count <= |Batch(old(sys))| && ids == Ids(Batch(old(sys))[..count])
      ensures !env.fate(0) ==> count == 0 && !ok && !committed && sys == old(sys)
      ensures env.fate(0) && Batch(old(sys)) == [] ==> ok && !committed && sys == old(sys)
      ensures env.fate(0) && Batch(old(sys)) != [] ==> Handled(old(sys), sys, Batch(old(sys)), env, count, ok, committed)
    {
      count, ok, committed, ids := 0, false, false, [];
      if !env.fate(0) {
        return;
      }
      var records := SelectForUpdate(w);
      if |records| == 0 {
        ok := true;
        return;
      }
      count, ok, committed := PublishAndDelete(w, records, env, old(sys));
      ids := Ids(records[..count]);
    }

    /** The rest of publishBatch once rows have been selected. */
    method PublishAndDelete(w: nat, records: seq<OutboxRow>, env: Env, ghost start: Sys) returns (count: nat, ok: bool, committed: bool)
      requires Mine(w, Worker(records, 0, false)) && Ascends(records)
      requires start.published == sys.published && start.aborted == sys.aborted && start.deleted == sys.deleted
      modifies this
      ensures SysReachable(lockKey, sys) && w !in sys.workers && old(sys).published <= sys.published
      ensures Handled(start, sys, records, env, count, ok, committed)
    {
      var failed;
      count, failed := PublishAll(w, records, env);
      ghost var k, m := Worker(records, count, failed), sys;
      Interfere(w, env.others(1 + |records|));
      SentSpared(w, start, m, sys, records, count, failed && env.delivered(count));
      m := sys;
      var deleted := count == 0 || env.fate(1 + |records|);
      committed := deleted && env.fate(2 + |records|);
      Finish(w, committed, k);
      CloseCounts(start, m, sys, k, failed && env.delivered(count), committed);
      ok := committed && !failed;
    }
  }

  lemma BatchAscends(h: CoinId -> int, s: Sys)
    requires SysReachable(h, s)
    ensures forall k, l :: 0 <= k < l < |Batch(s)| ==> Batch(s)[k].id < Batch(s)[l].id
  {
    var acts :| ProperRun(h, acts, s);
    RunPub(h, acts, s);
    BatchFacts(s);
  }
}
