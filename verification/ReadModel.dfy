/** The price-history queries of internal/projection/readmodel.go.  A table is a set of rows; ties
    in recorded_at are broken by row id, the same way in both queries. */
module ReadModel {
  import opened Market
  import Ordering

  datatype HistoryRow = HistoryRow(id: nat, coinId: CoinId, price: real, recordedAt: int)

  datatype PricePoint = PricePoint(price: real, recordedAt: int)

  function PointOf(r: HistoryRow): PricePoint { PricePoint(r.price, r.recordedAt) }

  function PointsOf(rows: seq<HistoryRow>): seq<PricePoint> {
    if rows == [] then [] else PointsOf(rows[..|rows| - 1]) + [PointOf(rows[|rows| - 1])]
  }

  /** A limit that is not positive means 100. */
  function Effective(limit: int): nat { if limit <= 0 then 100 else limit }

  /** ORDER BY recorded_at DESC, newest first. */
  predicate Newer(q: HistoryRow, r: HistoryRow) {
    q.recordedAt > r.recordedAt || (q.recordedAt == r.recordedAt && q.id > r.id)
  }

  function OfCoin(c: CoinId): HistoryRow -> bool { (r: HistoryRow) => r.coinId == c }

  predicate UniqueIds(table: seq<HistoryRow>) {
    forall i, j :: 0 <= i < j < |table| ==> table[i].id != table[j].id
  }

  /** SELECT price, recorded_at ... WHERE coin_id = c ORDER BY recorded_at DESC LIMIT n */
  function NewestRows(table: seq<HistoryRow>, c: CoinId, limit: int): seq<HistoryRow> {
    Ordering.Limit(Ordering.Sort(Newer, Ordering.Where(OfCoin(c), table)), Effective(limit))
  }

  function Newest(table: seq<HistoryRow>, c: CoinId, limit: int): seq<PricePoint> {
    PointsOf(NewestRows(table, c, limit))
  }

  // ---------- what the queries promise, in the table's own terms ----------

  ghost predicate HasRow(table: seq<HistoryRow>, c: CoinId) { exists r :: r in table && r.coinId == c }

  ghost function RowsFor(table: seq<HistoryRow>, c: CoinId): set<HistoryRow> { set r | r in table && r.coinId == c }

  /** As many of the coin's rows as the limit allows (a limit that is not positive allows 100), and none
      of the others is later in time than any of them. */
  ghost predicate Latest(table: seq<HistoryRow>, c: CoinId, limit: int, rows: seq<HistoryRow>) {
    && Ordering.NoDup(rows) && (forall r :: r in rows ==> r in table && r.coinId == c)
    && (forall r, q :: r in RowsFor(table, c) && r !in rows && q in rows ==> r.recordedAt <= q.recordedAt)
    && |rows| == (var n := if limit <= 0 then 100 else limit; if |RowsFor(table, c)| < n then |RowsFor(table, c)| else n)
  }

  ghost predicate LatestFirst(rows: seq<HistoryRow>) {
    forall i, j :: 0 <= i < j < |rows| ==> rows[i].recordedAt >= rows[j].recordedAt
  }

  ghost predicate PricesOf(rows: seq<HistoryRow>, points: seq<PricePoint>) {
    |points| == |rows| && forall k :: 0 <= k < |rows| ==> points[k].price == rows[k].price && points[k].recordedAt == rows[k].recordedAt
  }

  /** A correct answer: price and instant of the coin's latest rows, the latest first. */
  ghost predicate LatestPoints(table: seq<HistoryRow>, c: CoinId, limit: int, points: seq<PricePoint>) {
    exists rows :: Latest(table, c, limit, rows) && LatestFirst(rows) && PricesOf(rows, points)
  }

  lemma {:induction false} PointsArePrices(rows: seq<HistoryRow>)
    ensures PricesOf(rows, PointsOf(rows))
  {
    if rows != [] {
      PointsArePrices(rows[..|rows| - 1]);
    }
  }

  lemma {:induction false} PricesDetermine(rows: seq<HistoryRow>, points: seq<PricePoint>)
    requires PricesOf(rows, points)
    ensures points == PointsOf(rows)
  {
    PointsArePrices(rows);
    forall k | 0 <= k < |rows| ensures points[k] == PointsOf(rows)[k] {
    }
  }

  lemma SameElements(q: seq<HistoryRow>, s: set<HistoryRow>)
    requires Ordering.NoDup(q) && forall r :: r in q <==> r in s
    ensures |q| == |s|
  {
    NoDupSize(q);
    assert Elements(q) == s;
  }

  /** The single-coin query finds the coin's latest rows, the latest first. */
  lemma NewestRowsAreLatest(table: seq<HistoryRow>, c: CoinId, limit: int)
    requires UniqueIds(table)
    ensures Latest(table, c, limit, NewestRows(table, c, limit)) && LatestFirst(NewestRows(table, c, limit))
  {
    var q, n := Ordering.Where(OfCoin(c), table), Effective(limit);
    var rows := NewestRows(table, c, limit);
    PartitionFacts(table, c);
    Ordering.LimitKeepsLeast(Newer, q, n);
    Ordering.SortNoDup(Newer, q);
    SameElements(q, RowsFor(table, c));
    forall r, x | r in RowsFor(table, c) && r !in rows && x in rows ensures r.recordedAt <= x.recordedAt {
      assert r in q && Newer(x, r);
    }
  }

  /** The single-coin query's points are a correct answer on every table. */
  lemma NewestIsLatest(table: seq<HistoryRow>, c: CoinId, limit: int)
    requires UniqueIds(table)
    ensures LatestPoints(table, c, limit, Newest(table, c, limit))
  {
    NewestRowsAreLatest(table, c, limit);
    PointsArePrices(NewestRows(table, c, limit));
  }

  lemma HasPoints(table: seq<HistoryRow>, c: CoinId, limit: int)
    requires UniqueIds(table)
    ensures Newest(table, c, limit) != [] <==> HasRow(table, c)
  {
    var rows := NewestRows(table, c, limit);
    NewestRowsAreLatest(table, c, limit);
    PointsArePrices(rows);
    if rows != [] {
      assert rows[0] in rows;
    }
    if HasRow(table, c) {
      var r :| r in table && r.coinId == c;
      assert r in RowsFor(table, c);
      assert |RowsFor(table, c)| > 0;
    }
  }

  ghost predicate DistinctInstants(table: seq<HistoryRow>, c: CoinId) {
    forall r, q :: r in RowsFor(table, c) && q in RowsFor(table, c) && r != q ==> r.recordedAt != q.recordedAt
  }

  lemma SmallerMisses(p: set<HistoryRow>, q: set<HistoryRow>, r: HistoryRow)
    requires |p| == |q| && r in p && r !in q
    ensures exists x :: x in q && x !in p
  {
    if forall x :: x in q ==> x in p {
      SubsetSize(q, p - {r});
    }
  }

  lemma SubsetSize(q: set<HistoryRow>, p: set<HistoryRow>)
    requires q <= p
    ensures |q| <= |p|
  {
    assert p == q + (p - q);
  }

  lemma LatestTies(table: seq<HistoryRow>, c: CoinId, limit: int, p: seq<HistoryRow>, q: seq<HistoryRow>, r: HistoryRow)
    requires Latest(table, c, limit, p) && Latest(table, c, limit, q) && r in p && r !in q
    ensures exists x :: x in RowsFor(table, c) && x in q && x !in p && x.recordedAt == r.recordedAt
  {
    NoDupSize(p);
    NoDupSize(q);
    SmallerMisses(Elements(p), Elements(q), r);
    var x :| x in Elements(q) && x !in Elements(p);
    assert r in RowsFor(table, c) && x in RowsFor(table, c);
  }

  lemma LatestWithin(table: seq<HistoryRow>, c: CoinId, limit: int, p: seq<HistoryRow>, q: seq<HistoryRow>, r: HistoryRow)
    requires DistinctInstants(table, c) && Latest(table, c, limit, p) && Latest(table, c, limit, q) && r in p
    ensures r in q
  {
    assert r in RowsFor(table, c);
    if r !in q {
      LatestTies(table, c, limit, p, q, r);
    }
  }

  /** Where no two rows of the coin share an instant, there is only one correct answer: the query's. */
  lemma LatestIsNewest(table: seq<HistoryRow>, c: CoinId, limit: int, points: seq<PricePoint>)
    requires UniqueIds(table) && DistinctInstants(table, c)
    ensures LatestPoints(table, c, limit, points) <==> points == Newest(table, c, limit)
  {
    NewestIsLatest(table, c, limit);
    if LatestPoints(table, c, limit, points) {
      var rows :| Latest(table, c, limit, rows) && LatestFirst(rows) && PricesOf(rows, points);
      NewestRowsAreLatest(table, c, limit);
      var b := NewestRows(table, c, limit);
      forall r ensures r in rows <==> r in b {
        if r in rows { LatestWithin(table, c, limit, rows, b, r); }
        if r in b { LatestWithin(table, c, limit, b, rows, r); }
      }
      DistinctAscend(table, c, rows);
      DistinctAscend(table, c, b);
      PartitionFacts(table, c);
      Ordering.AscendingUnique(Newer, rows, b);
      PricesDetermine(rows, points);
    }
  }

  lemma DistinctAscend(table: seq<HistoryRow>, c: CoinId, rows: seq<HistoryRow>)
    requires DistinctInstants(table, c) && Ordering.NoDup(rows) && LatestFirst(rows)
    requires forall r :: r in rows ==> r in RowsFor(table, c)
    ensures Ordering.Ascending(Newer, rows)
  {
    forall i, j | 0 <= i < j < |rows| ensures Newer(rows[i], rows[j]) {
      assert rows[i] in rows && rows[j] in rows;
    }
  }

  /** GetPriceHistory: scan the query's rows. */
  method GetPriceHistory(table: seq<HistoryRow>, c: CoinId, limit: int) returns (points: seq<PricePoint>)
    requires UniqueIds(table)
    ensures points == Newest(table, c, limit) && LatestPoints(table, c, limit, points)
  {
    NewestIsLatest(table, c, limit);
    var rows := NewestRows(table, c, limit);
    points := [];
    var i := 0;
    while i < |rows|
      invariant 0 <= i <= |rows| && points == PointsOf(rows[..i])
    {
      assert rows[..i + 1][..i] == rows[..i];
      points := points + [PointOf(rows[i])];
      i := i + 1;
    }
    assert rows[..|rows|] == rows;
  }

  // ---------- the batch query ----------

  /** ROW_NUMBER() OVER (PARTITION BY coin_id ORDER BY recorded_at DESC): one more than the number
      of newer rows in the same partition. */
  ghost function RowNumber(table: seq<HistoryRow>, r: HistoryRow): nat {
    1 + |set q | q in table && q.coinId == r.coinId && Newer(q, r)|
  }

  /** The rows of the batch query: the requested coins' rows numbered at most n, each once; within
      a coin they arrive in window order, across coins in any order. */
  ghost predicate BatchRows(table: seq<HistoryRow>, coins: seq<CoinId>, limit: int, rows: seq<HistoryRow>) {
    && Ordering.NoDup(rows)
    && (forall r :: r in rows <==> r in table && r.coinId in coins && RowNumber(table, r) <= Effective(limit))
  }

  ghost predicate WindowOrder(rows: seq<HistoryRow>) {
    forall i, j :: 0 <= i < j < |rows| && rows[i].coinId == rows[j].coinId ==> Newer(rows[i], rows[j])
  }

  lemma PartitionFacts(table: seq<HistoryRow>, c: CoinId)
    requires UniqueIds(table)
    ensures var q := Ordering.Where(OfCoin(c), table);
            Ordering.Linear(Newer) && Ordering.NoDup(q) && Ordering.Separates(Newer, q)
  {
    var q := Ordering.Where(OfCoin(c), table);
    assert Ordering.NoDup(table);
    Ordering.WhereNoDup(OfCoin(c), table);
    forall x, y | x in q && y in q && x != y ensures Newer(x, y) || Newer(y, x) {
      var i :| 0 <= i < |table| && table[i] == x;
      var j :| 0 <= j < |table| && table[j] == y;
    }
  }

  function Elements<T>(s: seq<T>): set<T> { set x | x in s }

  lemma {:induction false} NoDupSize<T>(s: seq<T>)
    requires Ordering.NoDup(s)
    ensures |Elements(s)| == |s|
  {
    if s != [] {
      var p, x := s[..|s| - 1], s[|s| - 1];
      NoDupSize(p);
      assert s == p + [x] && x !in p;
      assert Elements(s) == Elements(p) + {x};
    }
  }

  /** The rows newer than the one at position i are those before it. */
  lemma NewerAreBefore(s: seq<HistoryRow>, i: nat, x: HistoryRow)
    requires Ordering.Ascending(Newer, s) && i < |s|
    ensures x in s[..i] <==> x in s && Newer(x, s[i])
  {
    if x in s && Newer(x, s[i]) {
      var k :| 0 <= k < |s| && s[k] == x;
      assert k < i;
      assert s[..i][k] == x;
    }
  }

  /** In the sorted partition the row at position i has row number i + 1. */
  lemma RowNumberIsPosition(table: seq<HistoryRow>, c: CoinId, s: seq<HistoryRow>, i: nat)
    requires Ordering.Ascending(Newer, s) && i < |s|
    requires forall x :: x in s <==> x in table && x.coinId == c
    ensures RowNumber(table, s[i]) == i + 1
  {
    var newer := set x | x in table && x.coinId == s[i].coinId && Newer(x, s[i]);
    assert s[i] in s;
    forall x ensures x in newer <==> x in Elements(s[..i]) {
      NewerAreBefore(s, i, x);
    }
    assert newer == Elements(s[..i]);
    assert Ordering.NoDup(s[..i]);
    NoDupSize(s[..i]);
  }

  lemma NewestMembers(table: seq<HistoryRow>, c: CoinId, limit: int)
    requires UniqueIds(table)
    ensures var b := NewestRows(table, c, limit);
            && Ordering.Ascending(Newer, b)
            && forall r :: r in b <==> r in table && r.coinId == c && RowNumber(table, r) <= Effective(limit)
  {
    var q := Ordering.Where(OfCoin(c), table);
    var s := Ordering.Sort(Newer, q);
    var b := NewestRows(table, c, limit);
    PartitionFacts(table, c);
    Ordering.SortNoDup(Newer, q);
    forall r ensures r in b <==> r in table && r.coinId == c && RowNumber(table, r) <= Effective(limit) {
      if r in s {
        var i :| 0 <= i < |s| && s[i] == r;
        RowNumberIsPosition(table, c, s, i);
        assert i < Effective(limit) ==> b[i] == r;
      }
      if r in b {
        var i :| 0 <= i < |b| && b[i] == r;
        assert s[i] == r && r in s;
        RowNumberIsPosition(table, c, s, i);
      }
    }
  }

  lemma {:induction false} WhereOrdered(rows: seq<HistoryRow>, c: CoinId)
    requires forall i, j :: 0 <= i < j < |rows| && rows[i].coinId == rows[j].coinId == c ==> Newer(rows[i], rows[j])
    ensures Ordering.Ascending(Newer, Ordering.Where(OfCoin(c), rows))
  {
    if rows != [] {
      var p, last := rows[..|rows| - 1], rows[|rows| - 1];
      WhereOrdered(p, c);
      var q := Ordering.Where(OfCoin(c), p);
      if last.coinId == c {
        forall k | 0 <= k < |q| ensures Newer(q[k], last) {
          assert q[k] in q;
          var m :| 0 <= m < |p| && p[m] == q[k];
          assert rows[m] == q[k];
        }
        assert Ordering.Ascending(Newer, q + [last]);
      }
    }
  }

  /** The batch query refines the single-coin query exactly when its rows keep window order: the
      rows of a coin are then its newest rows, in the same order. */
  lemma BatchRefinesSingle(table: seq<HistoryRow>, coins: seq<CoinId>, limit: int, rows: seq<HistoryRow>, c: CoinId)
    requires UniqueIds(table) && BatchRows(table, coins, limit, rows)
    ensures Ordering.Where(OfCoin(c), rows) == (if c in coins then NewestRows(table, c, limit) else []) <==>
            Ordering.Ascending(Newer, Ordering.Where(OfCoin(c), rows))
  {
    var w := Ordering.Where(OfCoin(c), rows);
    NewestMembers(table, c, limit);
    PartitionFacts(table, c);
    if c in coins {
      if Ordering.Ascending(Newer, w) {
        Ordering.AscendingUnique(Newer, w, NewestRows(table, c, limit));
      }
    } else {
      Ordering.HeadIsMember(w);
    }
  }

  /** The row loop of GetPriceHistories: append each scanned row to its coin's slice. */
  method Collect(rows: seq<HistoryRow>) returns (res: map<CoinId, seq<PricePoint>>)
    ensures forall c :: c in res <==> Ordering.Where(OfCoin(c), rows) != []
    ensures forall c :: c in res ==> res[c] == PointsOf(Ordering.Where(OfCoin(c), rows))
  {
    res := map[];
    var i := 0;
    while i < |rows|
      invariant 0 <= i <= |rows|
      invariant forall c :: c in res <==> Ordering.Where(OfCoin(c), rows[..i]) != []
      invariant forall c :: c in res ==> res[c] == PointsOf(Ordering.Where(OfCoin(c), rows[..i]))
    {
      var r := rows[i];
      var before := if r.coinId in res then res[r.coinId] else [];
      assert rows[..i + 1][..i] == rows[..i];
      CollectStep(rows, i);
      res := res[r.coinId := before + [PointOf(r)]];
      i := i + 1;
    }
    assert rows[..|rows|] == rows;
  }

  lemma CollectStep(rows: seq<HistoryRow>, i: nat)
    requires i < |rows|
    ensures forall c :: Ordering.Where(OfCoin(c), rows[..i + 1]) ==
                        Ordering.Where(OfCoin(c), rows[..i]) + if rows[i].coinId == c then [rows[i]] else []
    ensures PointsOf(Ordering.Where(OfCoin(rows[i].coinId), rows[..i + 1])) ==
            PointsOf(Ordering.Where(OfCoin(rows[i].coinId), rows[..i])) + [PointOf(rows[i])]
  {
    assert rows[..i + 1][..i] == rows[..i];
    var q := Ordering.Where(OfCoin(rows[i].coinId), rows[..i]);
    assert (q + [rows[i]])[..|q|] == q;
  }

  function Lookup(res: map<CoinId, seq<PricePoint>>, c: CoinId): seq<PricePoint> {
    if c in res then res[c] else []
  }

  /** The batch query's rows of a coin are its latest rows, whatever their order. */
  lemma BatchIsLatest(table: seq<HistoryRow>, coins: seq<CoinId>, limit: int, rows: seq<HistoryRow>, c: CoinId)
    requires UniqueIds(table) && BatchRows(table, coins, limit, rows) && c in coins
    ensures Latest(table, c, limit, Ordering.Where(OfCoin(c), rows))
  {
    var w, b := Ordering.Where(OfCoin(c), rows), NewestRows(table, c, limit);
    BatchMembers(table, coins, limit, rows, c);
    NewestRowsAreLatest(table, c, limit);
    Ordering.WhereNoDup(OfCoin(c), rows);
    NoDupSize(w);
    NoDupSize(b);
    assert Elements(w) == Elements(b);
  }

  /** GetPriceHistories over the batch query's rows, whatever their order: no coin that was not asked
      for; an entry for every requested coin that has rows; its points are price and instant of the coin's
      latest rows, in the order in which the query returned these; in window order they are the answer
      GetPriceHistory gives. */
  method GetPriceHistories(table: seq<HistoryRow>, coins: seq<CoinId>, limit: int, rows: seq<HistoryRow>)
    returns (res: map<CoinId, seq<PricePoint>>)
    requires UniqueIds(table) && BatchRows(table, coins, limit, rows)
    ensures forall c :: c in res <==> c in coins && HasRow(table, c)
    ensures forall c :: c in coins ==>
                          Latest(table, c, limit, Ordering.Where(OfCoin(c), rows)) && PricesOf(Ordering.Where(OfCoin(c), rows), Lookup(res, c))
    ensures forall c :: c in coins && LatestFirst(Ordering.Where(OfCoin(c), rows)) ==> LatestPoints(table, c, limit, Lookup(res, c))
    ensures forall c :: c in coins && Ordering.Ascending(Newer, Ordering.Where(OfCoin(c), rows)) ==>
                          Lookup(res, c) == Newest(table, c, limit)
  {
    if |coins| == 0 {
      return map[];
    }
    res := Collect(rows);
    forall c | c in coins
      ensures Latest(table, c, limit, Ordering.Where(OfCoin(c), rows)) && PricesOf(Ordering.Where(OfCoin(c), rows), Lookup(res, c))
    {
      BatchIsLatest(table, coins, limit, rows, c);
      PointsArePrices(Ordering.Where(OfCoin(c), rows));
    }
    forall c ensures Ordering.Where(OfCoin(c), rows) != [] <==> c in coins && HasRow(table, c) {
      SomeRow(table, coins, limit, rows, c);
    }
    forall c | c in coins && Ordering.Ascending(Newer, Ordering.Where(OfCoin(c), rows))
      ensures Ordering.Where(OfCoin(c), rows) == NewestRows(table, c, limit)
    {
      BatchRefinesSingle(table, coins, limit, rows, c);
    }
  }

  lemma SomeRow(table: seq<HistoryRow>, coins: seq<CoinId>, limit: int, rows: seq<HistoryRow>, c: CoinId)
    requires UniqueIds(table) && BatchRows(table, coins, limit, rows)
    ensures Ordering.Where(OfCoin(c), rows) != [] <==> c in coins && HasRow(table, c)
  {
    var w := Ordering.Where(OfCoin(c), rows);
    Ordering.HeadIsMember(w);
    if c in coins {
      BatchIsLatest(table, coins, limit, rows, c);
      if HasRow(table, c) {
        var r :| r in table && r.coinId == c;
        assert r in RowsFor(table, c);
        assert |RowsFor(table, c)| > 0;
      }
    }
  }

  /** Whatever their order, the batch query's rows of a coin are its newest rows. */
  lemma BatchMembers(table: seq<HistoryRow>, coins: seq<CoinId>, limit: int, rows: seq<HistoryRow>, c: CoinId)
    requires UniqueIds(table) && BatchRows(table, coins, limit, rows)
    ensures c in coins ==> forall r :: r in Ordering.Where(OfCoin(c), rows) <==> r in NewestRows(table, c, limit)
    ensures Ordering.Where(OfCoin(c), rows) != [] <==> c in coins && NewestRows(table, c, limit) != []
  {
    NewestMembers(table, c, limit);
    Ordering.HeadIsMember(Ordering.Where(OfCoin(c), rows));
    Ordering.HeadIsMember(NewestRows(table, c, limit));
  }
}
