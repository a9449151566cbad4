/** The seven steps of an append that nobody disturbs. */
module Appends {
  import opened Market
  import opened EventStore
  import opened StoreTheorems

  /** No open transaction holds c's lock key or c's first event key. */
  predicate Clear(h: CoinId -> int, s: Db, c: Call)
    requires |c.events| == 1
  {
    forall u | u in s.writers :: Holds(s.writers[u]) ==>
      && h(s.writers[u].call.aggId) != h(c.aggId)
      && (s.writers[u].Inserting? ==> !HasKey(s.writers[u].rows, c.events[0].base.aggId, c.events[0].base.version))
  }

  function AppendSteps(t: nat, c: Call): seq<Action> {
    [Arrive(t, c), Begin(t), Lock(t), Check(t), InsertEvent(t), InsertOutbox(t), Commit(t)]
  }

  function Appended(s: Db, t: nat, c: Call): Db
    requires |c.events| == 1
  {
    var b := c.events[0].base;
    Db(s.log + [Row(s.nextId, b)], s.outbox + [OutboxRow(s.nextOutboxId, s.nextId, Serialize(b))],
       s.nextId + 1, s.nextOutboxId + 1, s.writers[t := Done(c, Committed(|s.log|))])
  }

  lemma ToInserting(h: CoinId -> int, s: Db, t: nat, c: Call)
    requires t !in s.writers && |c.events| == 1 && Clear(h, s, c)
    requires c.expected < 0 || MaxVersion(s.log, c.aggId) == c.expected
    ensures Run(h, s, [Arrive(t, c), Begin(t), Lock(t), Check(t)], s.(writers := s.writers[t := Inserting(c, [], [])]))
  {
    var s1, s2, s3, s4 := Set(s, t, Ready(c)), Set(s, t, Begun(c)), Set(s, t, Locked(c)), Set(s, t, Inserting(c, [], []));
    assert Do(h, s, Arrive(t, c)) == s1;
    assert Set(s1, t, Begun(c)) == s2;
    assert Enabled(h, s2, Lock(t)) && Set(s2, t, Locked(c)) == s3;
    assert Set(s3, t, Inserting(c, [], [])) == s4;
    RunOne(h, s, Arrive(t, c));
    RunOne(h, s1, Begin(t));
    RunOne(h, s2, Lock(t));
    RunOne(h, s3, Check(t));
    RunConcat(h, s, [Arrive(t, c)], s1, [Begin(t)], s2);
    RunConcat(h, s, [Arrive(t, c)] + [Begin(t)], s2, [Lock(t)], s3);
    RunConcat(h, s, [Arrive(t, c)] + [Begin(t)] + [Lock(t)], s3, [Check(t)], s4);
    assert [Arrive(t, c)] + [Begin(t)] + [Lock(t)] + [Check(t)] == [Arrive(t, c), Begin(t), Lock(t), Check(t)];
  }

  lemma RunThree(h: CoinId -> int, s: Db, a: Action, s1: Db, b: Action, s2: Db, c: Action)
    requires Enabled(h, s, a) && s1 == Do(h, s, a) && Enabled(h, s1, b) && s2 == Do(h, s1, b) && Enabled(h, s2, c)
    ensures Run(h, s, [a, b, c], Do(h, s2, c))
  {
    RunOne(h, s, a);
    RunOne(h, s1, b);
    RunOne(h, s2, c);
    RunConcat(h, s, [a], s1, [b], s2);
    RunConcat(h, s, [a] + [b], s2, [c], Do(h, s2, c));
    assert [a] + [b] + [c] == [a, b, c];
  }

  lemma FromInserting(h: CoinId -> int, s: Db, t: nat, c: Call)
    requires |c.events| == 1 && Clear(h, s, c) && !HasKey(s.log, c.events[0].base.aggId, c.events[0].base.version)
    ensures Run(h, s.(writers := s.writers[t := Inserting(c, [], [])]), [InsertEvent(t), InsertOutbox(t), Commit(t)], Appended(s, t, c))
  {
    var b := c.events[0].base;
    var r, m := Row(s.nextId, b), OutboxRow(s.nextOutboxId, s.nextId, Serialize(b));
    var s4 := s.(writers := s.writers[t := Inserting(c, [], [])]);
    var s5 := Set(s.(nextId := s.nextId + 1), t, Inserting(c, [r], []));
    var s6 := Set(s.(nextId := s.nextId + 1, nextOutboxId := s.nextOutboxId + 1), t, Inserting(c, [r], [m]));
    assert Enabled(h, s4, InsertEvent(t));
    assert Do(h, s4, InsertEvent(t)) == s5 by {
      assert [] + [r] == [r];
      assert s4.writers[t := Inserting(c, [r], [])] == s5.writers;
    }
    assert Do(h, s5, InsertOutbox(t)) == s6 by {
      assert [] + [m] == [m];
      assert s5.writers[t := Inserting(c, [r], [m])] == s6.writers;
    }
    assert Do(h, s6, Commit(t)) == Appended(s, t, c) by {
      assert s6.writers[t := Done(c, Committed(|s.log|))] == Appended(s, t, c).writers;
    }
    RunThree(h, s4, InsertEvent(t), s5, InsertOutbox(t), s6, Commit(t));
  }

  /** A lone append whose expected version is current always goes through. */
  lemma LoneAppendCommits(h: CoinId -> int, s: Db, t: nat, c: Call)
    requires t !in s.writers && |c.events| == 1 && Clear(h, s, c)
    requires c.expected < 0 || MaxVersion(s.log, c.aggId) == c.expected
    requires !HasKey(s.log, c.events[0].base.aggId, c.events[0].base.version)
    ensures Run(h, s, AppendSteps(t, c), Appended(s, t, c))
  {
    ToInserting(h, s, t, c);
    FromInserting(h, s, t, c);
    RunConcat(h, s, [Arrive(t, c), Begin(t), Lock(t), Check(t)], s.(writers := s.writers[t := Inserting(c, [], [])]),
              [InsertEvent(t), InsertOutbox(t), Commit(t)], Appended(s, t, c));
    assert [Arrive(t, c), Begin(t), Lock(t), Check(t)] + [InsertEvent(t), InsertOutbox(t), Commit(t)] == AppendSteps(t, c);
  }

  ghost predicate AllWellFormed(acts: seq<Action>) { forall i :: 0 <= i < |acts| ==> WellFormedAction(acts[i]) }

  lemma AppendIsWellFormed(t: nat, c: Call)
    requires WellFormed(c)
    ensures AllWellFormed(AppendSteps(t, c))
  {
  }
}
