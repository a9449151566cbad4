/** Which other lists of ids have the batch key of a given one (internal/query/cached_repo.go): a
    printed slice separates ids by spaces, so one id with spaces can stand for several. */
module KeyCollisions {
  import opened CacheKeys
  import Ordering

  /** All ids of the list, sorted and joined, as one id. */
  function Whole(q: seq<string>): string { Join(SortStrings(q)) }

  lemma ShowOne(w: string)
    ensures Join([w]) == w && SortStrings([w]) == [w]
  {
    assert [w][1..] == [];
    assert SortStrings([]) == [];
  }

  lemma WholeKey(l: int, q: seq<string>)
    ensures HistoriesKey(l, [Whole(q)]) == HistoriesKey(l, q)
  {
    ShowOne(Whole(q));
  }

  lemma {:induction false} JoinIsLonger(q: seq<string>, x: string)
    requires |q| >= 2 && x in q
    ensures |Join(q)| > |x|
    decreases |q|
  {
    var r := q[1..];
    assert q == [q[0]] + r;
    if x != q[0] {
      if |r| == 1 {
        assert r[0] == x;
      } else {
        JoinIsLonger(r, x);
      }
    }
  }

  lemma WholeIsLonger(q: seq<string>, x: string)
    requires |q| >= 2 && x in q
    ensures |Whole(q)| > |x|
  {
    Ordering.SameMembers(SortStrings(q), q);
    JoinIsLonger(SortStrings(q), x);
  }

  /** The text falls at some space into two ids in sorted order. */
  ghost predicate SplitsSorted(t: string) { exists i :: SplitsAt(t, i) }

  ghost predicate SplitsAt(t: string, i: int) { 0 <= i < |t| && t[i] == ' ' && !StrLt(t[i + 1..], t[..i]) }

  lemma SortTwo(a: string, b: string)
    requires !StrLt(b, a)
    ensures SortStrings([a, b]) == [a, b]
  {
    StrOrder();
    StrSeparates([a, b]);
    assert Ordering.Sorted(StrLt, [a, b]);
    Ordering.SortIsSorted(StrLt, [a, b]);
    Ordering.SortedUnique(StrLt, [a, b], SortStrings([a, b]));
  }

  lemma SplitKey(l: int, t: string, i: nat)
    requires SplitsAt(t, i)
    ensures HistoriesKey(l, [t[..i], t[i + 1..]]) == HistoriesKey(l, [t])
  {
    var a, b := t[..i], t[i + 1..];
    SortTwo(a, b);
    ShowOne(t);
    ShowOne(b);
    assert [a, b][1..] == [b];
    assert t == a + " " + b;
  }

  // ---------- a single id collides only by splitting ----------

  lemma {:induction false} PrefixBelow(a: string, x: string, s: string)
    requires StrLt(a + x, s)
    ensures StrLt(a, s)
  {
    if a != "" {
      assert (a + x)[0] == a[0] && (a + x)[1..] == a[1..] + x;
      if a[0] == s[0] {
        PrefixBelow(a[1..], x, s[1..]);
      }
    }
  }

  lemma PrefixNotBelow(a: string, x: string, s: string)
    requires !StrLt(a, s)
    ensures !StrLt(a + x, s)
  {
    if StrLt(a + x, s) {
      PrefixBelow(a, x, s);
    }
  }

  lemma ShowDetermines(l: int, p: seq<string>, t: string)
    requires p != [] && HistoriesKey(l, p) == HistoriesKey(l, [t])
    ensures Join(SortStrings(p)) == t
  {
    ShowOne(t);
    DropPrefix("sf:histories:", Dec(l) + ":" + Show(SortStrings(p)), Dec(l) + ":" + Show([t]));
    DropPrefix(Dec(l) + ":", Show(SortStrings(p)), Show([t]));
    assert Show(SortStrings(p))[1..|Show(SortStrings(p))| - 1] == Join(SortStrings(p));
    assert Show([t])[1..|Show([t])| - 1] == t;
  }

  lemma SortedIsSorted(p: seq<string>)
    ensures Ordering.Sorted(StrLt, SortStrings(p)) && |SortStrings(p)| == |p|
  {
    StrOrder();
    StrSeparates(p);
    Ordering.SortIsSorted(StrLt, p);
    Ordering.SameMembers(SortStrings(p), p);
  }

  lemma JoinSplits(q: seq<string>)
    requires |q| >= 2 && Ordering.Sorted(StrLt, q)
    ensures SplitsSorted(Join(q))
  {
    var a, r := q[0], q[1..];
    var t := Join(q);
    assert t == a + " " + Join(r);
    assert t[..|a|] == a && t[|a|] == ' ' && t[|a| + 1..] == Join(r);
    JoinBegins(r);
    PrefixNotBelow(r[0], Join(r)[|r[0]|..], a);
    assert SplitsAt(t, |a|);
  }

  lemma JoinBegins(r: seq<string>)
    requires r != []
    ensures |Join(r)| >= |r[0]| && Join(r) == r[0] + Join(r)[|r[0]|..]
  {
  }

  /** Another list has the key of a single id only if that id splits. */
  lemma OnlySplitting(l: int, p: seq<string>, t: string)
    requires p != [] && HistoriesKey(l, p) == HistoriesKey(l, [t])
    ensures p == [t] || SplitsSorted(t)
  {
    ShowDetermines(l, p, t);
    SortedIsSorted(p);
    if |p| == 1 {
      ShowOne(p[0]);
      assert p == [p[0]];
    } else {
      JoinSplits(SortStrings(p));
    }
  }
}
