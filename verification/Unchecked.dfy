/** Writers whose callers promise nothing: any versions, any aggregate ids, any expected version
    (internal/eventstore/store.go).  What AppendEvents still guarantees in every run. */
module Unchecked {
  import opened Market
  import opened EventStore
  import opened StoreTheorems
  import opened Appends

  predicate SameKey(a: Base, b: Base) { a.aggId == b.aggId && a.version == b.version }

  predicate Won(w: Writer) { w.Done? && w.outcome.Committed? }

  /** A committed call's events stand in the log in order; an open one's staged rows are its events. */
  ghost predicate Filed(log: seq<Row>, w: Writer) {
    && (Won(w) ==> w.outcome.at + |w.call.events| <= |log| &&
                   forall k :: 0 <= k < |w.call.events| ==> log[w.outcome.at + k].base == w.call.events[k].base)
    && (w.Inserting? ==> |w.mail| <= |w.rows| <= |w.call.events| &&
                         forall k :: 0 <= k < |w.rows| ==> w.rows[k].base == w.call.events[k].base)
  }

  /** Row i of the log was committed by this call. */
  ghost predicate Owns(w: Writer, i: int) { Won(w) && w.outcome.at <= i < w.outcome.at + |w.call.events| }

  ghost predicate HasOwner(s: Db, i: int) { exists t :: t in s.writers && Owns(s.writers[t], i) }

  /** The log is exactly what the committed calls carried. */
  ghost predicate CallsInv(s: Db) {
    && (forall t :: t in s.writers ==> Filed(s.log, s.writers[t]))
    && (forall i :: 0 <= i < |s.log| ==> HasOwner(s, i))
  }

  lemma CommitFiled(s: Db, s': Db, t: nat, w: Writer)
    requires CallsInv(s) && t in s.writers && w == s.writers[t] && w.Inserting? && |w.rows| == |w.call.events|
    requires s'.log == s.log + w.rows && s'.writers == s.writers[t := Done(w.call, Committed(|s.log|))]
    ensures CallsInv(s')
  {
    forall u | u in s'.writers ensures Filed(s'.log, s'.writers[u]) {
      if u == t {
        CommittedIsFiled(s.log, w);
      } else {
        FiledLater(s.log, w.rows, s.writers[u]);
      }
    }
    CommitOwns(s, s', t, w);
  }

  lemma CommittedIsFiled(log: seq<Row>, w: Writer)
    requires w.Inserting? && Filed(log, w) && |w.rows| == |w.call.events|
    ensures Filed(log + w.rows, Done(w.call, Committed(|log|)))
  {
  }

  lemma FiledLater(log: seq<Row>, more: seq<Row>, w: Writer)
    requires Filed(log, w)
    ensures Filed(log + more, w)
  {
  }

  lemma CommitOwns(s: Db, s': Db, t: nat, w: Writer)
    requires (forall i :: 0 <= i < |s.log| ==> HasOwner(s, i)) && t in s.writers && w == s.writers[t] && w.Inserting? && |w.rows| == |w.call.events|
    requires s'.log == s.log + w.rows && s'.writers == s.writers[t := Done(w.call, Committed(|s.log|))]
    ensures forall i :: 0 <= i < |s'.log| ==> HasOwner(s', i)
  {
    forall i | 0 <= i < |s'.log| ensures HasOwner(s', i) {
      if i < |s.log| {
        assert HasOwner(s, i);
        var u :| u in s.writers && Owns(s.writers[u], i);
        assert u in s'.writers && Owns(s'.writers[u], i);
      } else {
        assert Owns(s'.writers[t], i);
      }
    }
  }

  lemma OwnFiled(s: Db, s': Db, t: nat, w: Writer)
    requires CallsInv(s) && s'.log == s.log && s'.writers == s.writers[t := w]
    requires Filed(s.log, w) && !Won(w) && (t in s.writers ==> !Won(s.writers[t]))
    ensures CallsInv(s')
  {
    forall i | 0 <= i < |s'.log| ensures HasOwner(s', i) {
      assert HasOwner(s, i);
      var u :| u in s.writers && Owns(s.writers[u], i);
      assert u in s'.writers && Owns(s'.writers[u], i);
    }
  }

  lemma StepCalls(h: CoinId -> int, s: Db, a: Action)
    requires CallsInv(s) && Enabled(h, s, a)
    ensures CallsInv(Do(h, s, a))
  {
    var s' := Do(h, s, a);
    if a.Commit? {
      CommitFiled(s, s', a.t, s.writers[a.t]);
    } else {
      assert a.t in s.writers ==> Filed(s.log, s.writers[a.t]);
      OwnFiled(s, s', a.t, s'.writers[a.t]);
    }
  }

  lemma {:induction false} RunCalls(h: CoinId -> int, s: Db, acts: seq<Action>, s': Db)
    requires CallsInv(s) && Run(h, s, acts, s')
    ensures CallsInv(s')
    decreases |acts|
  {
    if acts != [] {
      StepCalls(h, s, acts[0]);
      RunCalls(h, Do(h, s, acts[0]), acts[1..], s');
    }
  }

  // ---------- the UNIQUE constraint ----------

  ghost predicate Carries(w: Writer, b: Base) { Won(w) && exists k :: 0 <= k < |w.call.events| && SameKey(w.call.events[k].base, b) }

  /** Some committed call has used this aggregate id and version. */
  ghost predicate TakenByCall(s: Db, b: Base) { exists u :: u in s.writers && Carries(s.writers[u], b) }

  /** An earlier event of the same call uses the same aggregate id and version. */
  ghost predicate RepeatedInCall(c: Call, n: nat)
    requires n < |c.events|
  {
    exists k :: 0 <= k < n && SameKey(c.events[k].base, c.events[n].base)
  }

  lemma KeyIsTaken(s: Db, b: Base)
    requires CallsInv(s)
    ensures HasKey(s.log, b.aggId, b.version) <==> TakenByCall(s, b)
  {
    if HasKey(s.log, b.aggId, b.version) {
      var i :| 0 <= i < |s.log| && s.log[i].base.aggId == b.aggId && s.log[i].base.version == b.version;
      assert HasOwner(s, i);
      var u :| u in s.writers && Owns(s.writers[u], i);
      var w := s.writers[u];
      assert Filed(s.log, w) && s.log[w.outcome.at + (i - w.outcome.at)].base == w.call.events[i - w.outcome.at].base;
      assert SameKey(w.call.events[i - w.outcome.at].base, b);
      assert Carries(w, b);
    }
    if TakenByCall(s, b) {
      var u :| u in s.writers && Carries(s.writers[u], b);
      var w := s.writers[u];
      var k :| 0 <= k < |w.call.events| && SameKey(w.call.events[k].base, b);
      assert Filed(s.log, w) && s.log[w.outcome.at + k].base == w.call.events[k].base;
    }
  }

  lemma KeyIsRepeated(s: Db, w: Writer)
    requires w.Inserting? && Filed(s.log, w) && |w.rows| < |w.call.events|
    ensures var b := w.call.events[|w.rows|].base; HasKey(w.rows, b.aggId, b.version) <==> RepeatedInCall(w.call, |w.rows|)
  {
    var b := w.call.events[|w.rows|].base;
    if RepeatedInCall(w.call, |w.rows|) {
      var k :| 0 <= k < |w.rows| && SameKey(w.call.events[k].base, b);
      assert w.rows[k].base == w.call.events[k].base;
    }
  }

  /** In every run of any callers an insert is refused as a duplicate if and only if its aggregate id
      and version were used by a call that has committed, or by an earlier event of its own call. */
  lemma ViolationExactly(h: CoinId -> int, acts: seq<Action>, s: Db, t: nat)
    requires Run(h, EMPTY, acts, s) && Enabled(h, s, InsertEvent(t))
    ensures var c, n := s.writers[t].call, |s.writers[t].rows|;
            Do(h, s, InsertEvent(t)).writers[t] == Done(c, UniqueViolation) <==> TakenByCall(s, c.events[n].base) || RepeatedInCall(c, n)
  {
    RunCalls(h, EMPTY, acts, s);
    var w := s.writers[t];
    assert Filed(s.log, w);
    KeyIsTaken(s, w.call.events[|w.rows|].base);
    KeyIsRepeated(s, w);
  }

  // ---------- the UNIQUE constraint holds ----------

  ghost predicate Distinct(rows: seq<Row>) {
    forall i, j :: 0 <= i < j < |rows| ==> !SameKey(rows[i].base, rows[j].base)
  }

  ghost predicate Foreign(p: seq<Row>, q: seq<Row>) {
    forall i, j :: 0 <= i < |p| && 0 <= j < |q| ==> !SameKey(p[i].base, q[j].base)
  }

  ghost predicate KeysInv(s: Db) {
    && Distinct(s.log)
    && (forall t :: t in s.writers && s.writers[t].Inserting? ==> Distinct(s.writers[t].rows) && Foreign(s.log, s.writers[t].rows))
    && (forall t, u :: t in s.writers && u in s.writers && t != u && s.writers[t].Inserting? && s.writers[u].Inserting? ==>
          Foreign(s.writers[t].rows, s.writers[u].rows))
  }

  lemma KeysCommit(s: Db, s': Db, t: nat, w: Writer)
    requires KeysInv(s) && t in s.writers && w == s.writers[t] && w.Inserting?
    requires s'.log == s.log + w.rows && s'.writers == s.writers[t := Done(w.call, Committed(|s.log|))]
    ensures KeysInv(s')
  {
    assert Distinct(w.rows) && Foreign(s.log, w.rows);
    forall u | u in s'.writers && s'.writers[u].Inserting? ensures Foreign(s'.log, s'.writers[u].rows) {
      assert Foreign(s.log, s.writers[u].rows) && Foreign(w.rows, s.writers[u].rows);
    }
  }

  lemma KeysInsert(h: CoinId -> int, s: Db, t: nat)
    requires KeysInv(s) && Enabled(h, s, InsertEvent(t))
    ensures KeysInv(Do(h, s, InsertEvent(t)))
  {
    var s' := Do(h, s, InsertEvent(t));
    var w, w' := s.writers[t], s'.writers[t];
    var b := w.call.events[|w.rows|].base;
    if w'.Inserting? {
      assert Distinct(w.rows) && Foreign(s.log, w.rows);
      forall u | u in s.writers && u != t && s.writers[u].Inserting?
        ensures Foreign(w'.rows, s.writers[u].rows) && Foreign(s.writers[u].rows, w'.rows)
      {
        assert Foreign(w.rows, s.writers[u].rows) && Foreign(s.writers[u].rows, w.rows);
        assert !HasKey(s.writers[u].rows, b.aggId, b.version);
      }
    }
  }

  lemma StepKeys(h: CoinId -> int, s: Db, a: Action)
    requires KeysInv(s) && Enabled(h, s, a)
    ensures KeysInv(Do(h, s, a))
  {
    if a.Commit? {
      KeysCommit(s, Do(h, s, a), a.t, s.writers[a.t]);
    } else if a.InsertEvent? {
      KeysInsert(h, s, a.t);
    }
  }

  /** Whatever callers do, no two committed events share aggregate id and version. */
  lemma {:induction false} KeysStayUnique(h: CoinId -> int, s: Db, acts: seq<Action>, s': Db)
    requires KeysInv(s) && Run(h, s, acts, s')
    ensures KeysInv(s') && Distinct(s'.log)
    decreases |acts|
  {
    if acts != [] {
      StepKeys(h, s, acts[0]);
      KeysStayUnique(h, Do(h, s, acts[0]), acts[1..], s');
    }
  }

  // ---------- event ids ----------

  ghost predicate Below(rows: seq<Row>, n: int) { forall i :: 0 <= i < |rows| ==> rows[i].id < n }

  ghost predicate Disjoint(p: seq<Row>, q: seq<Row>) {
    forall i, j :: 0 <= i < |p| && 0 <= j < |q| ==> p[i].id != q[j].id
  }

  /** Ids come from a sequence that never goes back, so no two rows share one, committed or not. */
  ghost predicate IdsInv(s: Db) {
    && DistinctLog(s.log) && Below(s.log, s.nextId)
    && (forall t :: t in s.writers && s.writers[t].Inserting? ==>
          DistinctLog(s.writers[t].rows) && Below(s.writers[t].rows, s.nextId) && Disjoint(s.log, s.writers[t].rows))
    && (forall t, u :: t in s.writers && u in s.writers && t != u && s.writers[t].Inserting? && s.writers[u].Inserting? ==>
          Disjoint(s.writers[t].rows, s.writers[u].rows))
  }

  lemma IdsCommit(s: Db, s': Db, t: nat, w: Writer)
    requires IdsInv(s) && t in s.writers && w == s.writers[t] && w.Inserting?
    requires s'.log == s.log + w.rows && s'.nextId == s.nextId && s'.writers == s.writers[t := Done(w.call, Committed(|s.log|))]
    ensures IdsInv(s')
  {
    assert DistinctLog(w.rows) && Below(w.rows, s.nextId) && Disjoint(s.log, w.rows);
    forall u | u in s'.writers && s'.writers[u].Inserting? ensures Disjoint(s'.log, s'.writers[u].rows) {
      assert Disjoint(s.log, s.writers[u].rows) && Disjoint(w.rows, s.writers[u].rows);
    }
  }

  /** A row with the next id is new to everyone. */
  lemma NextIdIsNew(rows: seq<Row>, r: Row, others: seq<Row>)
    requires Below(rows, r.id) && Below(others, r.id) && DistinctLog(rows) && Disjoint(rows, others) && Disjoint(others, rows)
    ensures DistinctLog(rows + [r]) && Below(rows + [r], r.id + 1) && Disjoint(rows + [r], others) && Disjoint(others, rows + [r])
    ensures Below(others, r.id + 1)
  {
  }

  lemma IdsInsert(h: CoinId -> int, s: Db, t: nat)
    requires IdsInv(s) && Enabled(h, s, InsertEvent(t))
    ensures IdsInv(Do(h, s, InsertEvent(t)))
  {
    var s' := Do(h, s, InsertEvent(t));
    var w, r := s.writers[t], Row(s.nextId, s.writers[t].call.events[|s.writers[t].rows|].base);
    assert DistinctLog(w.rows) && Below(w.rows, s.nextId) && Disjoint(s.log, w.rows);
    NextIdIsNew(w.rows, r, s.log);
    forall u | u in s.writers && u != t && s.writers[u].Inserting?
      ensures Below(s.writers[u].rows, s'.nextId)
      ensures Disjoint(w.rows + [r], s.writers[u].rows) && Disjoint(s.writers[u].rows, w.rows + [r])
    {
      assert Disjoint(w.rows, s.writers[u].rows) && Disjoint(s.writers[u].rows, w.rows) && Below(s.writers[u].rows, s.nextId);
      NextIdIsNew(w.rows, r, s.writers[u].rows);
    }
  }

  lemma StepIds(h: CoinId -> int, s: Db, a: Action)
    requires IdsInv(s) && Enabled(h, s, a)
    ensures IdsInv(Do(h, s, a))
  {
    if a.Commit? {
      IdsCommit(s, Do(h, s, a), a.t, s.writers[a.t]);
    } else if a.InsertEvent? {
      IdsInsert(h, s, a.t);
    }
  }

  // ---------- gaps ----------

  function CountEvents(events: seq<Event>, a: CoinId): nat {
    if events == [] then 0
    else CountEvents(events[..|events| - 1], a) + if events[|events| - 1].base.aggId == a then 1 else 0
  }

  /** Every event carries the version after its own aggregate's rows and its call's earlier events. */
  ghost predicate Continues(log: seq<Row>, events: seq<Event>) {
    forall k :: 0 <= k < |events| ==>
      events[k].base.version == Count(log, events[k].base.aggId) + CountEvents(events[..k], events[k].base.aggId) + 1
  }

  lemma {:induction false} CountMatches(rows: seq<Row>, events: seq<Event>, a: CoinId)
    requires |rows| == |events| && forall k :: 0 <= k < |rows| ==> rows[k].base == events[k].base
    ensures Count(rows, a) == CountEvents(events, a)
    decreases |rows|
  {
    if rows != [] {
      CountMatches(rows[..|rows| - 1], events[..|events| - 1], a);
    }
  }

  lemma NumberedAt(log: seq<Row>, rows: seq<Row>, events: seq<Event>, k: nat)
    requires |rows| == |events| && k < |rows| && forall j :: 0 <= j < |rows| ==> rows[j].base == events[j].base
    ensures Count((log + rows)[..|log| + k], events[k].base.aggId) ==
            Count(log, events[k].base.aggId) + CountEvents(events[..k], events[k].base.aggId)
  {
    assert (log + rows)[..|log| + k] == log + rows[..k];
    CountConcat(log, rows[..k], events[k].base.aggId);
    CountMatches(rows[..k], events[..k], events[k].base.aggId);
  }

  lemma NumberedConcat(log: seq<Row>, rows: seq<Row>, events: seq<Event>)
    requires |rows| == |events| && Numbered(log) && forall j :: 0 <= j < |rows| ==> rows[j].base == events[j].base
    ensures Numbered(log + rows) <==> Continues(log, events)
  {
    var l := log + rows;
    forall i | 0 <= i < |log| ensures l[i].base.version == Count(l[..i], l[i].base.aggId) + 1 {
      assert l[..i] == log[..i];
    }
    forall k | 0 <= k < |events|
      ensures l[|log| + k].base.version == Count(l[..|log| + k], l[|log| + k].base.aggId) + 1 <==>
              events[k].base.version == Count(log, events[k].base.aggId) + CountEvents(events[..k], events[k].base.aggId) + 1
    {
      NumberedAt(log, rows, events, k);
    }
    if Continues(log, events) {
      forall i | 0 <= i < |l| ensures l[i].base.version == Count(l[..i], l[i].base.aggId) + 1 {
        assert i >= |log| ==> l[i] == l[|log| + (i - |log|)];
      }
    }
  }

  /** A commit keeps every aggregate's versions gapless if and only if its events continue the
      counts of their own aggregates, which a caller can see before the call. */
  lemma CommitStaysGaplessIff(h: CoinId -> int, acts: seq<Action>, s: Db, t: nat)
    requires Run(h, EMPTY, acts, s) && Enabled(h, s, Commit(t)) && Numbered(s.log)
    ensures Numbered(Do(h, s, Commit(t)).log) <==> Continues(s.log, s.writers[t].call.events)
  {
    RunCalls(h, EMPTY, acts, s);
    assert Filed(s.log, s.writers[t]);
    NumberedConcat(s.log, s.writers[t].rows, s.writers[t].call.events);
  }

  /** One unchecked append of any single event to the empty store leaves a log that starts at that
      event's version: a gap unless it is 1. */
  lemma UncheckedAppendLeavesGap(h: CoinId -> int, e: Event)
    ensures exists s :: Run(h, EMPTY, AppendSteps(0, Call(e.base.aggId, -1, [e])), s) && s.log == [Row(1, e.base)]
    ensures Numbered([Row(1, e.base)]) <==> e.base.version == 1
  {
    LoneAppendCommits(h, EMPTY, 0, Call(e.base.aggId, -1, [e]));
    var l := [Row(1, e.base)];
    assert l[..0] == [];
  }
}
