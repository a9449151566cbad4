/** The Redis and singleflight keys of internal/query/cached_repo.go, as the strings that
    fmt.Sprintf builds. */
module CacheKeys {
  import Ordering

  // ---------- %d ----------

  function Digit(k: nat): (c: char)
    requires k < 10
    ensures '0' <= c <= '9'
  {
    ('0' as int + k) as char
  }

  function Digits(n: nat): string {
    if n < 10 then [Digit(n)] else Digits(n / 10) + [Digit(n % 10)]
  }

  function Dec(n: int): string {
    if n < 0 then "-" + Digits(-n) else Digits(n)
  }

  function DigitValue(c: char): nat {
    if '0' <= c <= '9' then c as nat - '0' as nat else 0
  }

  function Value(s: string): nat {
    if s == "" then 0 else 10 * Value(s[..|s| - 1]) + DigitValue(s[|s| - 1])
  }

  lemma ValueSnoc(s: string, k: nat)
    requires k < 10
    ensures Value(s + [Digit(k)]) == 10 * Value(s) + k
  {
    assert (s + [Digit(k)])[..|s|] == s;
  }

  lemma LastDigit(n: nat)
    ensures 10 * (n / 10) + n % 10 == n
  {
  }

  /** Reading back the digits gives the number. */
  lemma {:induction false} DigitsRoundTrip(n: nat)
    ensures Value(Digits(n)) == n
  {
    if n >= 10 {
      DigitsRoundTrip(n / 10);
      ValueSnoc(Digits(n / 10), n % 10);
      LastDigit(n);
    } else {
      ValueSnoc("", n);
      assert "" + [Digit(n)] == [Digit(n)];
    }
  }

  ghost predicate OnlyDigits(s: string) { forall i :: 0 <= i < |s| ==> '0' <= s[i] <= '9' }

  /** The digits contain neither sign nor separator, and there is at least one. */
  lemma {:induction false} DigitsPlain(n: nat)
    ensures Digits(n) != "" && OnlyDigits(Digits(n))
  {
    if n >= 10 {
      DigitsPlain(n / 10);
    }
  }

  predicate Plain(s: string) { ':' !in s }

  lemma DecFacts(n: int)
    ensures Plain(Dec(n))
  {
    DigitsPlain(if n < 0 then -n else n);
  }

  lemma DecInjective(m: int, n: int)
    requires Dec(m) == Dec(n)
    ensures m == n
  {
    var a, b := if m < 0 then -m else m, if n < 0 then -n else n;
    DigitsRoundTrip(a);
    DigitsRoundTrip(b);
    DigitsPlain(a);
    DigitsPlain(b);
    assert m < 0 ==> Dec(m)[0] == '-' && Dec(m)[1..] == Digits(a);
    assert n < 0 ==> Dec(n)[0] == '-' && Dec(n)[1..] == Digits(b);
  }

  // ---------- splitting at a colon ----------

  lemma SplitLast(a: string, d: string, b: string, e: string)
    requires Plain(d) && Plain(e) && a + ":" + d == b + ":" + e
    ensures a == b && d == e
  {
    var s := a + ":" + d;
    assert s[|a|] == ':' && s[|b|] == ':';
    assert s[..|a|] == a && s[..|b|] == b;
    assert s[|a| + 1..] == d && s[|b| + 1..] == e;
  }

  lemma SplitFirst(d: string, a: string, e: string, b: string)
    requires Plain(d) && Plain(e) && d + ":" + a == e + ":" + b
    ensures d == e && a == b
  {
    var s := d + ":" + a;
    assert s[|d|] == ':' && s[|e|] == ':';
    assert s[..|d|] == d && s[..|e|] == e;
    assert s[|d| + 1..] == a && s[|e| + 1..] == b;
  }

  lemma DropPrefix(p: string, a: string, b: string)
    requires p + a == p + b
    ensures a == b
  {
    assert (p + a)[|p|..] == a && (p + b)[|p|..] == b;
  }

  // ---------- %v of a string slice ----------

  function Join(ids: seq<string>): string {
    if ids == [] then "" else if |ids| == 1 then ids[0] else ids[0] + " " + Join(ids[1..])
  }

  function Show(ids: seq<string>): string { "[" + Join(ids) + "]" }

  function Split(s: string): (r: seq<string>)
    ensures r != []
  {
    if s == "" then [""]
    else if s[0] == ' ' then [""] + Split(s[1..])
    else
      var r := Split(s[1..]);
      [[s[0]] + r[0]] + r[1..]
  }

  /** Every id cut at its spaces. */
  function Pieces(ids: seq<string>): seq<string> {
    if ids == [] then [] else Split(ids[0]) + Pieces(ids[1..])
  }

  lemma {:induction false} SplitConcat(a: string, b: string)
    ensures Split(a + " " + b) == Split(a) + Split(b)
  {
    var s := a + " " + b;
    if a == "" {
      assert s[0] == ' ' && s[1..] == b;
    } else {
      assert s[0] == a[0] && s[1..] == a[1..] + " " + b;
      SplitConcat(a[1..], b);
    }
  }

  lemma {:induction false} SplitJoin(ids: seq<string>)
    requires ids != []
    ensures Split(Join(ids)) == Pieces(ids)
  {
    if |ids| == 1 {
      assert ids[1..] == [];
    } else {
      SplitConcat(ids[0], Join(ids[1..]));
      SplitJoin(ids[1..]);
    }
  }

  lemma JoinCons(x: string, r: seq<string>)
    requires r != []
    ensures Join([x] + r) == x + " " + Join(r)
  {
    assert ([x] + r)[1..] == r;
  }

  lemma PushAssoc(c: char, x: string, t: string)
    ensures ([c] + x) + " " + t == [c] + (x + " " + t)
  {
  }

  lemma JoinPushMany(c: char, x: string, t: seq<string>)
    requires t != []
    ensures Join([[c] + x] + t) == [c] + Join([x] + t)
  {
    JoinCons([c] + x, t);
    JoinCons(x, t);
    PushAssoc(c, x, Join(t));
  }

  lemma JoinPush(c: char, r: seq<string>)
    requires r != []
    ensures Join([[c] + r[0]] + r[1..]) == [c] + Join(r)
  {
    assert r == [r[0]] + r[1..];
    if |r| > 1 {
      JoinPushMany(c, r[0], r[1..]);
    } else {
      assert [[c] + r[0]] + r[1..] == [[c] + r[0]];
    }
  }

  lemma {:induction false} JoinSplit(s: string)
    ensures Join(Split(s)) == s
  {
    if s != "" {
      var r := Split(s[1..]);
      JoinSplit(s[1..]);
      assert s == [s[0]] + s[1..];
      if s[0] == ' ' {
        JoinCons("", r);
        assert "" + " " + s[1..] == s;
      } else {
        JoinPush(s[0], r);
      }
    }
  }

  lemma {:induction false} SpaceFreeSplit(s: string)
    requires ' ' !in s
    ensures Split(s) == [s]
  {
    if s != "" {
      SpaceFreeSplit(s[1..]);
      assert [s[0]] + s[1..] == s;
    }
  }

  ghost predicate SpaceFree(ids: seq<string>) { forall i :: 0 <= i < |ids| ==> ' ' !in ids[i] }

  lemma {:induction false} SpaceFreePieces(ids: seq<string>)
    requires SpaceFree(ids)
    ensures Pieces(ids) == ids
  {
    if ids != [] {
      SpaceFreeSplit(ids[0]);
      SpaceFreePieces(ids[1..]);
    }
  }

  /** Printed slices collide exactly when their ids, cut at spaces, give the same pieces. */
  lemma ShowEqualIff(xs: seq<string>, ys: seq<string>)
    requires xs != [] && ys != []
    ensures Show(xs) == Show(ys) <==> Pieces(xs) == Pieces(ys)
  {
    SplitJoin(xs);
    SplitJoin(ys);
    JoinSplit(Join(xs));
    JoinSplit(Join(ys));
    assert Show(xs)[1..|Show(xs)| - 1] == Join(xs) && Show(ys)[1..|Show(ys)| - 1] == Join(ys);
  }

  // ---------- sort.Strings ----------

  predicate StrLt(a: string, b: string) {
    if b == "" then false
    else if a == "" then true
    else a[0] < b[0] || (a[0] == b[0] && StrLt(a[1..], b[1..]))
  }

  lemma {:induction false} StrAsym(a: string, b: string)
    requires StrLt(a, b)
    ensures !StrLt(b, a)
  {
    if a != "" && a[0] == b[0] {
      StrAsym(a[1..], b[1..]);
    }
  }

  lemma {:induction false} StrTrans(a: string, b: string, c: string)
    requires StrLt(a, b) && StrLt(b, c)
    ensures StrLt(a, c)
  {
    if a != "" && a[0] == b[0] == c[0] {
      StrTrans(a[1..], b[1..], c[1..]);
    }
  }

  lemma {:induction false} StrTotal(a: string, b: string)
    requires a != b
    ensures StrLt(a, b) || StrLt(b, a)
  {
    if a != "" && b != "" && a[0] == b[0] {
      assert a == [a[0]] + a[1..] && b == [b[0]] + b[1..];
      StrTotal(a[1..], b[1..]);
    }
  }

  lemma StrOrder()
    ensures Ordering.Linear(StrLt)
  {
    forall x, y | StrLt(x, y) ensures !StrLt(y, x) { StrAsym(x, y); }
    forall x, y, z | StrLt(x, y) && StrLt(y, z) ensures StrLt(x, z) { StrTrans(x, y, z); }
  }

  lemma StrSeparates(s: seq<string>)
    ensures Ordering.Separates(StrLt, s)
  {
    forall x, y | x in s && y in s && x != y ensures StrLt(x, y) || StrLt(y, x) { StrTotal(x, y); }
  }

  function SortStrings(ids: seq<string>): seq<string> { Ordering.Sort(StrLt, ids) }

  /** Sorting forgets the order of the misses and nothing else. */
  lemma SortEqualIff(xs: seq<string>, ys: seq<string>)
    ensures SortStrings(xs) == SortStrings(ys) <==> multiset(xs) == multiset(ys)
  {
    StrOrder();
    StrSeparates(xs);
    StrSeparates(ys);
    Ordering.SortIsSorted(StrLt, xs);
    Ordering.SortIsSorted(StrLt, ys);
    if multiset(xs) == multiset(ys) {
      StrSeparates(SortStrings(xs));
      Ordering.SortedUnique(StrLt, SortStrings(xs), SortStrings(ys));
    }
  }

  // ---------- the four key families ----------

  datatype Request =
    | Summaries(limit: int, offset: int)
    | Summary(coin: string)
    | History(coin: string, limit: int)
    | Histories(limit: int, coins: seq<string>)

  function SummariesKey(limit: int, offset: int): string { "cache:summaries:" + (Dec(limit) + ":" + Dec(offset)) }

  function SummaryKey(coin: string): string { "cache:summary:" + coin }

  function HistoryKey(coin: string, limit: int): string { "cache:history:" + (coin + ":" + Dec(limit)) }

  function HistoriesKey(limit: int, misses: seq<string>): string { "sf:histories:" + (Dec(limit) + ":" + Show(SortStrings(misses))) }

  function FlightKey(r: Request): string {
    match r
    case Summaries(limit, offset) => SummariesKey(limit, offset)
    case Summary(coin) => SummaryKey(coin)
    case History(coin, limit) => HistoryKey(coin, limit)
    case Histories(limit, coins) => HistoriesKey(limit, coins)
  }

  /** The same request, up to the order of a batch's coins. */
  ghost predicate SameRequest(q: Request, r: Request) {
    match q
    case Histories(limit, coins) => r.Histories? && r.limit == limit && multiset(r.coins) == multiset(coins)
    case _ => q == r
  }

  lemma FamiliesDisjoint(q: Request, r: Request)
    requires FlightKey(q) == FlightKey(r)
    ensures q.Summaries? <==> r.Summaries?
    ensures q.Summary? <==> r.Summary?
    ensures q.History? <==> r.History?
    ensures q.Histories? <==> r.Histories?
  {
    Marks(q);
    Marks(r);
  }

  /** Characters that tell the families apart. */
  lemma Marks(r: Request)
    ensures r.Histories? <==> FlightKey(r)[0] == 's'
    ensures r.History? <==> FlightKey(r)[6] == 'h' && !r.Histories?
    ensures r.Summaries? ==> FlightKey(r)[0] == 'c' && FlightKey(r)[6] == 's' && FlightKey(r)[12] == 'i'
    ensures r.Summary? ==> FlightKey(r)[0] == 'c' && FlightKey(r)[6] == 's' && FlightKey(r)[12] == 'y'
  {
    match r {
      case Summaries(limit, offset) => assert FlightKey(r)[..16] == "cache:summaries:";
      case Summary(coin) => assert FlightKey(r)[..14] == "cache:summary:";
      case History(coin, limit) => assert FlightKey(r)[..14] == "cache:history:";
      case Histories(limit, coins) => assert FlightKey(r)[..13] == "sf:histories:";
    }
  }

  lemma CacheKeyInjective(q: Request, r: Request)
    requires FlightKey(q) == FlightKey(r) && !q.Histories?
    ensures q == r
  {
    FamiliesDisjoint(q, r);
    match q {
      case Summary(coin) => DropPrefix("cache:summary:", coin, r.coin);
      case Summaries(limit, offset) =>
        DropPrefix("cache:summaries:", Dec(limit) + ":" + Dec(offset), Dec(r.limit) + ":" + Dec(r.offset));
        DecFacts(limit); DecFacts(r.limit);
        SplitFirst(Dec(limit), Dec(offset), Dec(r.limit), Dec(r.offset));
        DecInjective(limit, r.limit); DecInjective(offset, r.offset);
      case History(coin, limit) =>
        DropPrefix("cache:history:", coin + ":" + Dec(limit), r.coin + ":" + Dec(r.limit));
        DecFacts(limit); DecFacts(r.limit);
        SplitLast(coin, Dec(limit), r.coin, Dec(r.limit));
        DecInjective(limit, r.limit);
    }
  }

  /** Batch keys of non-empty lists collide exactly when the limits agree and the sorted ids, cut
      at spaces, give the same pieces. */
  lemma HistoriesKeyEqualIff(l: int, xs: seq<string>, m: int, ys: seq<string>)
    requires xs != [] && ys != []
    ensures HistoriesKey(l, xs) == HistoriesKey(m, ys) <==> l == m && Pieces(SortStrings(xs)) == Pieces(SortStrings(ys))
  {
    assert |multiset(SortStrings(xs))| == |xs| && |multiset(SortStrings(ys))| == |ys|;
    ShowEqualIff(SortStrings(xs), SortStrings(ys));
    if HistoriesKey(l, xs) == HistoriesKey(m, ys) {
      DropPrefix("sf:histories:", Dec(l) + ":" + Show(SortStrings(xs)), Dec(m) + ":" + Show(SortStrings(ys)));
      DecFacts(l); DecFacts(m);
      SplitFirst(Dec(l), Show(SortStrings(xs)), Dec(m), Show(SortStrings(ys)));
      DecInjective(l, m);
    }
  }

  lemma SortedSpaceFree(ids: seq<string>)
    requires SpaceFree(ids)
    ensures SpaceFree(SortStrings(ids))
  {
    Ordering.SameMembers(SortStrings(ids), ids);
    forall i | 0 <= i < |SortStrings(ids)| ensures ' ' !in SortStrings(ids)[i] {
      assert SortStrings(ids)[i] in SortStrings(ids);
      var j :| 0 <= j < |ids| && ids[j] == SortStrings(ids)[i];
    }
  }

  predicate Ordinary(r: Request) {
    r.Histories? ==> r.coins != [] && forall i :: 0 <= i < |r.coins| ==> ' ' !in r.coins[i]
  }

  /** Key soundness: for all coin ids and limits in the three cache families, and for non-empty
      batches of space-free ids, equal keys mean the same request up to reordering. */
  lemma KeyDeterminesRequest(q: Request, r: Request)
    requires Ordinary(q) && Ordinary(r)
    ensures FlightKey(q) == FlightKey(r) <==> SameRequest(q, r)
  {
    if FlightKey(q) == FlightKey(r) {
      FamiliesDisjoint(q, r);
      if !q.Histories? {
        CacheKeyInjective(q, r);
      }
    }
    if q.Histories? && r.Histories? {
      HistoriesKeyEqualIff(q.limit, q.coins, r.limit, r.coins);
      SortedSpaceFree(q.coins);
      SortedSpaceFree(r.coins);
      SpaceFreePieces(SortStrings(q.coins));
      SpaceFreePieces(SortStrings(r.coins));
      SortEqualIff(q.coins, r.coins);
    }
  }

  /** With spaces the batch key is ambiguous: one coin "a b" and two coins "a", "b" share a flight. */
  lemma SpacesCollide()
    ensures FlightKey(Histories(10, ["a b"])) == FlightKey(Histories(10, ["a", "b"]))
    ensures !SameRequest(Histories(10, ["a b"]), Histories(10, ["a", "b"]))
  {
    assert Join(["a b"]) == "a b";
    assert ["a", "b"][1..] == ["b"] && Join(["b"]) == "b";
    assert Join(["a", "b"]) == "a" + " " + "b" == "a b";
    assert ["a b"][1..] == [] && ["b"][1..] == [];
    assert SortStrings(["a b"]) == ["a b"];
    assert SortStrings(["b"]) == ["b"];
    assert StrLt("a", "b");
    assert SortStrings(["a", "b"]) == ["a", "b"];
    assert |multiset(["a b"])| == 1 && |multiset(["a", "b"])| == 2;
  }

  // ---------- what a shared flight returns ----------

  /** The Go type a request's flight returns and its callers assert. */
  datatype Kind = SummaryList | SummaryPointer | PointList | PointMap

  function KindOf(r: Request): Kind {
    match r
    case Summaries(_, _) => SummaryList
    case Summary(_) => SummaryPointer
    case History(_, _) => PointList
    case Histories(_, _) => PointMap
  }

  /** A caller that joins a flight gets a value of the type it asserts, whatever its coin ids; and
      for ordinary requests the flight's leader asked for the same thing. */
  lemma SharedFlightIsSafe(leader: Request, joined: Request)
    requires FlightKey(leader) == FlightKey(joined)
    ensures KindOf(leader) == KindOf(joined)
    ensures Ordinary(leader) && Ordinary(joined) ==> SameRequest(leader, joined)
  {
    FamiliesDisjoint(leader, joined);
    if Ordinary(leader) && Ordinary(joined) {
      KeyDeterminesRequest(leader, joined);
    }
  }
}
