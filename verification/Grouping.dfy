/** How the dataloader groups a batch of keys by limit (api/graphql/dataloader.go). */
module Grouping {
  import opened Market
  import Ordering

  datatype Key = Key(coin: CoinId, limit: int)

  datatype Group = Group(limit: int, coins: seq<CoinId>)

  /** The distinct coins asked for with this limit, in order of first appearance. */
  function CoinsOf(keys: seq<Key>, limit: int): (r: seq<CoinId>)
    ensures Ordering.NoDup(r)
    ensures forall c :: c in r <==> Key(c, limit) in keys
  {
    if keys == [] then [] else
      var k, before := keys[|keys| - 1], CoinsOf(keys[..|keys| - 1], limit);
      assert keys == keys[..|keys| - 1] + [k];
      if k.limit == limit && k.coin !in before then before + [k.coin] else before
  }

  predicate HasLimit(keys: seq<Key>, l: int) { exists i :: 0 <= i < |keys| && keys[i].limit == l }

  /** An order in which a range over the group map may visit the limits. */
  predicate Enumerates(order: seq<int>, keys: seq<Key>) {
    && (forall i, j :: 0 <= i < j < |order| ==> order[i] != order[j])
    && (forall l :: l in order ==> HasLimit(keys, l)) && (forall i :: 0 <= i < |keys| ==> keys[i].limit in order)
  }

  function Plan(keys: seq<Key>, order: seq<int>): seq<Group> {
    seq(|order|, i requires 0 <= i < |order| => Group(order[i], CoinsOf(keys, order[i])))
  }

  /** The key is in one of the groups. */
  ghost predicate InPlan(groups: seq<Group>, k: Key) {
    exists i :: 0 <= i < |groups| && groups[i].limit == k.limit && k.coin in groups[i].coins
  }

  /** One group per limit and no coin twice in a group. */
  ghost predicate Proper(groups: seq<Group>) {
    && (forall i, j :: 0 <= i < j < |groups| ==> groups[i].limit != groups[j].limit)
    && (forall i :: 0 <= i < |groups| ==> Ordering.NoDup(groups[i].coins))
  }

  lemma PlanCovers(keys: seq<Key>, order: seq<int>)
    requires Enumerates(order, keys)
    ensures Proper(Plan(keys, order))
    ensures forall k :: InPlan(Plan(keys, order), k) <==> k in keys
  {
    var groups := Plan(keys, order);
    forall k ensures InPlan(groups, k) <==> k in keys {
      if k in keys {
        var j :| 0 <= j < |keys| && keys[j] == k;
        assert HasLimit(keys, k.limit);
        var i :| 0 <= i < |order| && order[i] == k.limit;
        assert groups[i].limit == k.limit && k.coin in groups[i].coins;
      }
      if InPlan(groups, k) {
        var i :| 0 <= i < |groups| && groups[i].limit == k.limit && k.coin in groups[i].coins;
        assert Key(k.coin, k.limit) == k;
      }
    }
  }

  // ---------- the plan is a partition ----------

  function KeysOf(g: Group): (r: seq<Key>)
    ensures forall k :: k in r <==> k.limit == g.limit && k.coin in g.coins
  {
    var r := seq(|g.coins|, i requires 0 <= i < |g.coins| => Key(g.coins[i], g.limit));
    assert forall i :: 0 <= i < |g.coins| ==> r[i] == Key(g.coins[i], g.limit);
    r
  }

  function Flat(groups: seq<Group>): seq<Key> {
    if groups == [] then [] else KeysOf(groups[0]) + Flat(groups[1..])
  }

  lemma {:induction false} FlatMembers(groups: seq<Group>, k: Key)
    ensures k in Flat(groups) <==> InPlan(groups, k)
  {
    if groups != [] {
      FlatMembers(groups[1..], k);
      if InPlan(groups, k) && k !in KeysOf(groups[0]) {
        var i :| 0 <= i < |groups| && groups[i].limit == k.limit && k.coin in groups[i].coins;
        assert groups[1..][i - 1] == groups[i];
      }
    }
  }

  lemma ConcatNoDup<T>(a: seq<T>, b: seq<T>)
    requires Ordering.NoDup(a) && Ordering.NoDup(b) && forall x :: x in a ==> x !in b
    ensures Ordering.NoDup(a + b)
  {
    forall i, j | 0 <= i < j < |a + b| ensures (a + b)[i] != (a + b)[j] {
      if i < |a| <= j {
        assert a[i] in a && b[j - |a|] in b;
      }
    }
  }

  lemma {:induction false} FlatNoDup(groups: seq<Group>)
    requires Proper(groups)
    ensures Ordering.NoDup(Flat(groups))
  {
    if groups != [] {
      FlatNoDup(groups[1..]);
      forall k | k in KeysOf(groups[0]) ensures k !in Flat(groups[1..]) {
        FlatMembers(groups[1..], k);
      }
      ConcatNoDup(KeysOf(groups[0]), Flat(groups[1..]));
    }
  }

  /** Grouping partitions the distinct keys by limit: in whatever order the groups are visited,
      every requested key is asked for once and nothing else is. */
  lemma GroupingPartitions(keys: seq<Key>, order: seq<int>, k: Key)
    requires Enumerates(order, keys)
    ensures multiset(Flat(Plan(keys, order)))[k] == if k in keys then 1 else 0
  {
    PlanCovers(keys, order);
    FlatMembers(Plan(keys, order), k);
    FlatNoDup(Plan(keys, order));
    Ordering.NoDupMultiset(Flat(Plan(keys, order)));
  }

  // ---------- the grouping loop ----------

  /** coinIDsByLimit holds one entry per limit, with that limit's distinct coins. */
  ghost predicate Grouped(keys: seq<Key>, byLimit: map<int, seq<CoinId>>) {
    && (forall l :: l in byLimit <==> HasLimit(keys, l))
    && (forall l :: l in byLimit ==> byLimit[l] == CoinsOf(keys, l))
  }

  lemma GroupStep(keys: seq<Key>, k: Key, byLimit: map<int, seq<CoinId>>)
    requires Grouped(keys, byLimit)
    ensures k in keys ==> Grouped(keys + [k], byLimit)
    ensures k !in keys ==> Grouped(keys + [k], byLimit[k.limit := (if k.limit in byLimit then byLimit[k.limit] else []) + [k.coin]])
  {
    var all := keys + [k];
    assert all[..|keys|] == keys;
    forall l ensures HasLimit(all, l) <==> HasLimit(keys, l) || l == k.limit {
      if HasLimit(keys, l) {
        var i :| 0 <= i < |keys| && keys[i].limit == l;
        assert all[i].limit == l;
      }
      assert all[|keys|].limit == k.limit;
    }
    if k.limit !in byLimit {
      NoCoins(keys, k.limit);
    }
    assert Key(k.coin, k.limit) == k;
    if k in keys {
      var i :| 0 <= i < |keys| && keys[i] == k;
      assert HasLimit(keys, k.limit);
    }
  }

  lemma NoCoins(keys: seq<Key>, l: int)
    requires !HasLimit(keys, l)
    ensures CoinsOf(keys, l) == []
  {
  }

  method GroupByLimit(keys: seq<Key>) returns (byLimit: map<int, seq<CoinId>>)
    ensures Grouped(keys, byLimit)
  {
    var unique: map<Key, bool> := map[];
    byLimit := map[];
    var i := 0;
    while i < |keys|
      invariant 0 <= i <= |keys|
      invariant forall k :: k in unique <==> k in keys[..i]
      invariant Grouped(keys[..i], byLimit)
    {
      var k := keys[i];
      assert keys[..i + 1] == keys[..i] + [k];
      GroupStep(keys[..i], k, byLimit);
      if k !in unique {
        unique := unique[k := true];
        byLimit := byLimit[k.limit := (if k.limit in byLimit then byLimit[k.limit] else []) + [k.coin]];
      }
      i := i + 1;
    }
    assert keys[..i] == keys;
  }
}
