/** Sorting by a strict order, as SQL's ORDER BY and Go's sort.Strings do it.  A query's
    result is determined by its rows and its order alone: any two sorted arrangements of
    the same rows are equal. */
module Ordering {

  ghost predicate Linear<T(!new)>(lt: (T, T) -> bool) {
    && (forall x, y :: lt(x, y) ==> !lt(y, x))
    && (forall x, y, z :: lt(x, y) && lt(y, z) ==> lt(x, z))
  }

  /** Elements of s that the order cannot tell apart are equal. */
  ghost predicate Separates<T(!new)>(lt: (T, T) -> bool, s: seq<T>) {
    forall x, y :: x in s && y in s && x != y ==> lt(x, y) || lt(y, x)
  }

  ghost predicate Sorted<T>(lt: (T, T) -> bool, s: seq<T>) {
    forall i, j :: 0 <= i < j < |s| ==> !lt(s[j], s[i])
  }

  ghost predicate Ascending<T>(lt: (T, T) -> bool, s: seq<T>) {
    forall i, j :: 0 <= i < j < |s| ==> lt(s[i], s[j])
  }

  ghost predicate NoDup<T>(s: seq<T>) {
    forall i, j :: 0 <= i < j < |s| ==> s[i] != s[j]
  }

  function Insert<T>(lt: (T, T) -> bool, x: T, s: seq<T>): (r: seq<T>)
    ensures multiset(r) == multiset(s) + multiset{x}
  {
    if s == [] then [x]
    else if lt(x, s[0]) then [x] + s
    else
      assert s == [s[0]] + s[1..];
      [s[0]] + Insert(lt, x, s[1..])
  }

  function Sort<T>(lt: (T, T) -> bool, s: seq<T>): (r: seq<T>)
    ensures multiset(r) == multiset(s)
  {
    if s == [] then []
    else
      assert s == [s[0]] + s[1..];
      Insert(lt, s[0], Sort(lt, s[1..]))
  }

  function Limit<T>(s: seq<T>, n: nat): (r: seq<T>) {
    if |s| <= n then s else s[..n]
  }

  lemma SameMembers<T>(s: seq<T>, r: seq<T>)
    requires multiset(s) == multiset(r)
    ensures |s| == |r|
    ensures forall x :: x in s <==> x in r
  {
    assert |multiset(s)| == |s| && |multiset(r)| == |r|;
    forall x ensures x in s <==> x in r {
      assert x in multiset(s) <==> x in s;
      assert x in multiset(r) <==> x in r;
    }
  }

  lemma {:induction false} InsertSorted<T(!new)>(lt: (T, T) -> bool, x: T, s: seq<T>)
    requires Linear(lt) && Separates(lt, [x] + s) && Sorted(lt, s)
    ensures Sorted(lt, Insert(lt, x, s))
  {
    var r := Insert(lt, x, s);
    if s == [] {
    } else if lt(x, s[0]) {
      forall i, j | 0 <= i < j < |r| ensures !lt(r[j], r[i]) {
        if i == 0 && j > 1 {
          assert s[j - 1] in [x] + s && s[0] in [x] + s;
          assert !lt(s[j - 1], s[0]);
        }
      }
    } else {
      assert forall y :: y in [x] + s[1..] ==> y in [x] + s;
      InsertSorted(lt, x, s[1..]);
      var t := Insert(lt, x, s[1..]);
      SameMembers(t, s[1..] + [x]);
      forall i, j | 0 <= i < j < |r| ensures !lt(r[j], r[i]) {
        if i == 0 {
          assert r[j] == t[j - 1] && t[j - 1] in t;
          assert r[j] in s[1..] + [x];
        }
      }
    }
  }

  lemma {:induction false} SortIsSorted<T(!new)>(lt: (T, T) -> bool, s: seq<T>)
    requires Linear(lt) && Separates(lt, s)
    ensures Sorted(lt, Sort(lt, s))
  {
    if s != [] {
      var t := Sort(lt, s[1..]);
      SortIsSorted(lt, s[1..]);
      SameMembers(t, s[1..]);
      assert forall y :: y in [s[0]] + t ==> y in s;
      InsertSorted(lt, s[0], t);
    }
  }

  lemma LeastFirst<T(!new)>(lt: (T, T) -> bool, r: seq<T>, s: seq<T>)
    requires Separates(lt, r) && Sorted(lt, r) && Sorted(lt, s)
    requires r != [] && s != [] && r[0] in s && s[0] in r
    ensures r[0] == s[0]
  {
  }

  lemma TailMultiset<T>(r: seq<T>)
    requires r != []
    ensures multiset(r[1..]) == multiset(r) - multiset{r[0]}
  {
    assert r == [r[0]] + r[1..];
  }

  /** A sorted arrangement of given rows is unique. */
  lemma {:induction false} SortedUnique<T(!new)>(lt: (T, T) -> bool, r: seq<T>, s: seq<T>)
    requires Separates(lt, r)
    requires Sorted(lt, r) && Sorted(lt, s)
    requires multiset(r) == multiset(s)
    ensures r == s
  {
    SameMembers(r, s);
    if r != [] {
      LeastFirst(lt, r, s);
      TailMultiset(r);
      TailMultiset(s);
      SortedUnique(lt, r[1..], s[1..]);
      assert r == [r[0]] + r[1..] && s == [s[0]] + s[1..];
    }
  }

  lemma NoDupMultiset<T>(s: seq<T>)
    requires NoDup(s)
    ensures forall x :: x in s ==> multiset(s)[x] == 1
  {
    if s != [] {
      assert s == [s[0]] + s[1..];
      NoDupMultiset(s[1..]);
      assert s[0] !in s[1..];
    }
  }

  lemma MultisetNoDup<T>(s: seq<T>)
    requires forall x :: x in s ==> multiset(s)[x] == 1
    ensures NoDup(s)
  {
    forall i, j | 0 <= i < j < |s| ensures s[i] != s[j] {
      assert s == s[..j] + s[j..];
      assert multiset(s) == multiset(s[..j]) + multiset(s[j..]);
      assert s[..j][i] in multiset(s[..j]);
      assert s[j..][0] in multiset(s[j..]);
      assert s[i] in s;
    }
  }

  /** Without duplicates the sorted sequence is strictly ascending, and what LIMIT keeps
      precedes what it drops. */
  lemma SortNoDup<T(!new)>(lt: (T, T) -> bool, s: seq<T>)
    requires Linear(lt) && Separates(lt, s) && NoDup(s)
    ensures Ascending(lt, Sort(lt, s)) && |Sort(lt, s)| == |s|
    ensures forall x :: x in Sort(lt, s) <==> x in s
  {
    var r := Sort(lt, s);
    SortIsSorted(lt, s);
    SameMembers(r, s);
    NoDupMultiset(s);
    MultisetNoDup(r);
    forall i, j | 0 <= i < j < |r| ensures lt(r[i], r[j]) {
      assert r[i] in s && r[j] in s;
    }
  }

  lemma LimitMembers<T>(lt: (T, T) -> bool, q: seq<T>, n: nat, x: T, y: T)
    requires Ascending(lt, q)
    ensures x in q && x !in Limit(q, n) && y in Limit(q, n) ==> lt(y, x)
    ensures x in Limit(q, n) ==> x in q
  {
    var r := Limit(q, n);
    if x in q && x !in r && y in r {
      var i :| 0 <= i < |q| && q[i] == x;
      var j :| 0 <= j < |r| && r[j] == y;
    }
  }

  lemma LimitBefore<T(!new)>(lt: (T, T) -> bool, q: seq<T>, n: nat, x: T, j: nat)
    requires Linear(lt) && Ascending(lt, q) && x in q && j < |Limit(q, n)| && lt(x, Limit(q, n)[j])
    ensures x in Limit(q, n)[..j]
  {
    var i :| 0 <= i < |q| && q[i] == x;
    assert i < j;
    assert Limit(q, n)[..j][i] == x;
  }

  lemma LimitKeepsLeast<T(!new)>(lt: (T, T) -> bool, s: seq<T>, n: nat)
    requires Linear(lt) && Separates(lt, s) && NoDup(s)
    ensures var r := Limit(Sort(lt, s), n);
            && Ascending(lt, r)
            && (forall x :: x in r ==> x in s)
            && (forall x, y :: x in s && x !in r && y in r ==> lt(y, x))
            && (s != [] && n > 0 ==> r != [])
            && (forall x, j :: x in s && 0 <= j < |r| && lt(x, r[j]) ==> x in r[..j])
  {
    var q := Sort(lt, s);
    SortNoDup(lt, s);
    var r := Limit(q, n);
    forall x, y | x in s && x !in r && y in r ensures lt(y, x) {
      LimitMembers(lt, q, n, x, y);
    }
    forall x, j | x in s && 0 <= j < |r| && lt(x, r[j]) ensures x in r[..j] {
      LimitBefore(lt, q, n, x, j);
    }
  }

  lemma TailMembers<T(!new)>(lt: (T, T) -> bool, p: seq<T>, x: T)
    requires p != [] && Linear(lt) && Ascending(lt, p)
    ensures x in p[1..] <==> x in p && x != p[0]
  {
    assert p == [p[0]] + p[1..];
    if x in p[1..] {
      var k :| 0 <= k < |p[1..]| && p[1..][k] == x;
      assert lt(p[0], p[k + 1]);
    }
  }

  lemma HeadIsMember<T>(s: seq<T>)
    ensures s == [] || s[0] in s
  {
  }

  lemma HeadsAgree<T(!new)>(lt: (T, T) -> bool, p: seq<T>, q: seq<T>)
    requires Linear(lt) && Ascending(lt, p) && Ascending(lt, q)
    requires p != [] && forall x :: x in p <==> x in q
    ensures q != [] && q[0] == p[0]
  {
    assert p[0] in q;
    assert q[0] in p;
    var i :| 0 <= i < |q| && q[i] == p[0];
    var j :| 0 <= j < |p| && p[j] == q[0];
  }

  /** Two ascending sequences with the same members are equal. */
  lemma {:induction false} AscendingUnique<T(!new)>(lt: (T, T) -> bool, p: seq<T>, q: seq<T>)
    requires Linear(lt) && Ascending(lt, p) && Ascending(lt, q)
    requires forall x :: x in p <==> x in q
    ensures p == q
    decreases |p|
  {
    if p == [] {
      HeadIsMember(q);
    } else {
      HeadsAgree(lt, p, q);
      forall x ensures x in p[1..] <==> x in q[1..] {
        TailMembers(lt, p, x);
        TailMembers(lt, q, x);
      }
      AscendingUnique(lt, p[1..], q[1..]);
      assert p == [p[0]] + p[1..] && q == [q[0]] + q[1..];
    }
  }

  /** A sub-sequence picked by a test: the WHERE clause. */
  function Where<T(!new)>(p: T -> bool, s: seq<T>): (r: seq<T>)
    ensures forall x :: x in r <==> x in s && p(x)
  {
    if s == [] then []
    else if p(s[|s| - 1]) then Where(p, s[..|s| - 1]) + [s[|s| - 1]]
    else Where(p, s[..|s| - 1])
  }

  lemma {:induction false} WhereNoDup<T(!new)>(p: T -> bool, s: seq<T>)
    requires NoDup(s)
    ensures NoDup(Where(p, s))
  {
    if s != [] {
      WhereNoDup(p, s[..|s| - 1]);
      assert s[|s| - 1] !in s[..|s| - 1];
    }
  }

  lemma {:induction false} WhereConcat<T(!new)>(p: T -> bool, s: seq<T>, t: seq<T>)
    ensures Where(p, s + t) == Where(p, s) + Where(p, t)
  {
    if t == [] {
      assert s + t == s;
    } else {
      assert (s + t)[..|s + t| - 1] == s + t[..|t| - 1];
      WhereConcat(p, s, t[..|t| - 1]);
    }
  }

  lemma OneRow<T(!new)>(p: T -> bool, lt: (T, T) -> bool, x: T, n: nat)
    requires n > 0
    ensures Limit(Sort(lt, Where(p, [x])), n) == if p(x) then [x] else []
  {
    assert [x][..0] == [];
    assert Where(p, [x]) == if p(x) then [] + [x] else [];
    assert [x][1..] == [];
    assert Sort(lt, [x]) == Insert(lt, x, Sort(lt, []));
  }
}
