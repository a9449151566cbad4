/** The projector: one process reads the log past its checkpoint and maintains the read model
    (internal/projection/projector.go, the tables of internal/projection/readmodel.go).

    Upsert, history insert and checkpoint save are separate statements, any of them may fail,
    and the process may crash and restart anywhere; the log may grow at any time. */
module Projector {
  import opened Market
  import opened EventStore
  import opened StoreTheorems
  import Ordering

  const FETCH := 100

  datatype Summary = Summary(coinId: CoinId, symbol: string, name: string, currentPrice: real, marketCap: real,
                             volume24h: real, priceChange24h: real, lastUpdated: int)

  function SummaryOf(p: Payload): Summary {
    Summary(p.coinId, p.symbol, p.name, p.currentPrice, p.marketCap, p.volume24h, p.priceChange24h, p.lastUpdated)
  }

  /** A market_summaries row and the id of the event it was written from. */
  datatype Sourced = Sourced(row: Summary, source: nat)

  /** A price_history row. */
  datatype Point = Point(coinId: CoinId, price: real, recordedAt: int)

  /** A price_history insert: the event it came from and the process start that made it. */
  datatype Inserted = Inserted(eventId: nat, start: nat, point: Point)

  function PointOf(p: Payload): Point { Point(p.coinId, p.currentPrice, p.lastUpdated) }

  function InsertFor(r: Row, start: nat): Inserted
    requires Decodable(r.base)
  {
    Inserted(r.id, start, PointOf(PayloadOf(r.base)))
  }

  datatype Stage =
    | Idle              // between polls
    | AtRecord          // at the head of the record loop
    | Upserted          // summary written, history not yet
    | Saving            // batch over, checkpoint about to be saved

  /** The running loop: where it started, lastID, and its position in the fetched batch. */
  datatype Process = Process(base: nat, lastId: nat, batch: seq<Row>, pos: nat, stage: Stage, progressed: bool)

  datatype Proj = Proj(checkpoint: nat, live: Option<Process>, summaries: map<CoinId, Sourced>,
                       history: seq<Inserted>, starts: nat)

  const BLANK := Proj(0, None, map[], [], 0)

  datatype ProjAction = Boot | Fetch | Skip | Upsert | AddHistory | ProjectFails | EndBatch | Save(ok: bool) | Crash

  predicate RowIdBefore(q: Row, r: Row) { q.id < r.id }

  function Past(lastId: nat): Row -> bool { (r: Row) => r.id > lastId }

  /** SELECT ... WHERE id > lastId ORDER BY id ASC LIMIT n */
  function NewEvents(log: seq<Row>, lastId: nat, n: nat): seq<Row> {
    Ordering.Limit(Ordering.Sort(RowIdBefore, Ordering.Where(Past(lastId), log)), n)
  }

  predicate AtRow(p: Proj) {
    p.live.Some? && p.live.value.stage.AtRecord? && p.live.value.pos < |p.live.value.batch|
  }

  predicate CanStep(p: Proj, log: seq<Row>, a: ProjAction) {
    match a
    case Boot => p.live.None?
    case Fetch => p.live.Some? && p.live.value.stage.Idle?
    case Skip => AtRow(p) && !Decodable(p.live.value.batch[p.live.value.pos].base)
    case Upsert => AtRow(p) && Decodable(p.live.value.batch[p.live.value.pos].base)
    case AddHistory =>
      p.live.Some? && p.live.value.stage.Upserted? && p.live.value.pos < |p.live.value.batch| &&
      Decodable(p.live.value.batch[p.live.value.pos].base)
    case ProjectFails =>
      p.live.Some? &&
      ((AtRow(p) && Decodable(p.live.value.batch[p.live.value.pos].base)) || p.live.value.stage.Upserted?)
    case EndBatch => p.live.Some? && p.live.value.stage.AtRecord? && p.live.value.pos >= |p.live.value.batch|
    case Save(_) => p.live.Some? && p.live.value.stage.Saving?
    case Crash => p.live.Some?
  }

  function Max(a: nat, b: nat): nat { if a < b then b else a }

  /** After the record loop the checkpoint is saved only if some record was processed. */
  function AfterLoop(w: Process): Process {
    w.(stage := if w.progressed then Saving else Idle)
  }

  function Advance(w: Process): Process
    requires w.pos < |w.batch|
  {
    w.(lastId := w.batch[w.pos].id, pos := w.pos + 1, stage := AtRecord, progressed := true)
  }

  function Step(p: Proj, log: seq<Row>, a: ProjAction): Proj
    requires CanStep(p, log, a)
  {
    match a
    case Boot => p.(live := Some(Process(p.checkpoint, p.checkpoint, [], 0, Idle, false)), starts := p.starts + 1)
    case Fetch =>
      var w := p.live.value;
      var rows := NewEvents(log, w.lastId, FETCH);
      if rows == [] then p
      else p.(live := Some(w.(batch := rows, pos := 0, stage := AtRecord, progressed := false)))
    case Skip => p.(live := Some(Advance(p.live.value)))
    case Upsert =>
      var w := p.live.value;
      var r := w.batch[w.pos];
      var s := SummaryOf(PayloadOf(r.base));
      p.(live := Some(w.(stage := Upserted)), summaries := p.summaries[s.coinId := Sourced(s, r.id)])
    case AddHistory =>
      var w := p.live.value;
      p.(live := Some(Advance(w)), history := p.history + [InsertFor(w.batch[w.pos], p.starts)])
    case ProjectFails => p.(live := Some(AfterLoop(p.live.value)))
    case EndBatch => p.(live := Some(AfterLoop(p.live.value)))
    case Save(ok) =>
      var w := p.live.value;
      p.(live := Some(w.(stage := Idle)), checkpoint := if ok then Max(p.checkpoint, w.lastId) else p.checkpoint)
    case Crash => p.(live := None)
  }

  // ---------- the invariant, while arrivals lie above the horizon ----------

  /** How far the read model is known to be complete. */
  function Front(p: Proj): nat { if p.live.Some? then p.live.value.lastId else p.checkpoint }

  predicate InRecordLoop(w: Process) { w.stage.AtRecord? || w.stage.Upserted? }

  /** The id the projector may pass without fetching again: the last id of the batch in hand inside
      the record loop, otherwise how far it has come. */
  function Horizon(p: Proj): nat {
    if p.live.Some? && InRecordLoop(p.live.value) && p.live.value.batch != []
    then Max(p.live.value.lastId, p.live.value.batch[|p.live.value.batch| - 1].id)
    else Front(p)
  }

  ghost predicate WasInserted(history: seq<Inserted>, id: nat) {
    exists k :: 0 <= k < |history| && history[k].eventId == id
  }

  /** Every decodable event at or below f has been projected. */
  ghost predicate Complete(p: Proj, log: seq<Row>, f: nat) {
    forall i :: 0 <= i < |log| && log[i].id <= f && Decodable(log[i].base) ==> WasInserted(p.history, log[i].id)
  }

  /** Row c was written from an event no older than r. */
  ghost predicate NoOlder(p: Proj, r: Row)
    requires Decodable(r.base)
  {
    var c := PayloadOf(r.base).coinId;
    c in p.summaries && r.id <= p.summaries[c].source
  }

  ghost predicate UpToDate(p: Proj, log: seq<Row>, f: nat) {
    forall i :: 0 <= i < |log| && log[i].id <= f && Decodable(log[i].base) ==> NoOlder(p, log[i])
  }

  /** Each summary row is the image of a logged event of its coin. */
  ghost predicate FromLog(log: seq<Row>, c: CoinId, s: Sourced) {
    exists i :: 0 <= i < |log| && log[i].id == s.source && Decodable(log[i].base) &&
                PayloadOf(log[i].base).coinId == c && s.row == SummaryOf(PayloadOf(log[i].base))
  }

  ghost predicate Images(p: Proj, log: seq<Row>) {
    forall c :: c in p.summaries ==> FromLog(log, c, p.summaries[c])
  }

  /** The rest of the batch is exactly the log's next rows after lastId. */
  ghost predicate Contiguous(w: Process, log: seq<Row>) {
    && w.pos <= |w.batch|
    && (forall k :: w.pos <= k < |w.batch| ==> w.batch[k] in log && w.lastId < w.batch[k].id)
    && (forall k, l :: w.pos <= k < l < |w.batch| ==> w.batch[k].id < w.batch[l].id)
    && (forall i, k :: 0 <= i < |log| && w.pos <= k < |w.batch| && w.lastId < log[i].id < w.batch[k].id ==>
          log[i] in w.batch[w.pos..k])
  }

  ghost predicate InLoop(w: Process, log: seq<Row>) {
    InRecordLoop(w) ==> Contiguous(w, log)
  }

  ghost predicate JustUpserted(p: Proj) {
    p.live.Some? && p.live.value.stage.Upserted? ==>
      var w := p.live.value;
      && w.pos < |w.batch| && Decodable(w.batch[w.pos].base)
      && NoOlder(p, w.batch[w.pos])
  }

  function Window(lo: nat, hi: nat): Row -> bool { (r: Row) => lo < r.id <= hi }

  /** The logged rows with ids in (lo, hi], in id order. */
  function RowsBetween(log: seq<Row>, lo: nat, hi: nat): seq<Row> {
    Ordering.Sort(RowIdBefore, Ordering.Where(Window(lo, hi), log))
  }

  function InsertsFor(rows: seq<Row>, start: nat): seq<Inserted> {
    if rows == [] then []
    else
      var last := rows[|rows| - 1];
      InsertsFor(rows[..|rows| - 1], start) + if Decodable(last.base) then [InsertFor(last, start)] else []
  }

  /** The inserts due for the decodable events in (lo, hi], in id order. */
  function DecodableInserts(log: seq<Row>, lo: nat, hi: nat, start: nat): seq<Inserted> {
    InsertsFor(RowsBetween(log, lo, hi), start)
  }

  /** The events inserted by one process start, in insertion order. */
  function InsertsOf(history: seq<Inserted>, start: nat): seq<Inserted> {
    if history == [] then []
    else
      var last := history[|history| - 1];
      InsertsOf(history[..|history| - 1], start) + if last.start == start then [last] else []
  }

  ghost predicate Exact(p: Proj, log: seq<Row>) {
    && (forall k :: 0 <= k < |p.history| ==> p.history[k].start <= p.starts)
    && (p.live.Some? ==> InsertsOf(p.history, p.starts) == DecodableInserts(log, p.live.value.base, p.live.value.lastId, p.starts))
  }

  ghost predicate Bounds(p: Proj) {
    p.live.Some? ==> p.checkpoint <= p.live.value.lastId && p.live.value.base <= p.live.value.lastId
  }

  /** Each history row was inserted for a logged event and carries its price point. */
  ghost predicate Genuine(log: seq<Row>, x: Inserted) {
    exists i :: 0 <= i < |log| && Decodable(log[i].base) && x == InsertFor(log[i], x.start)
  }

  ghost predicate AllGenuine(p: Proj, log: seq<Row>) { forall k :: 0 <= k < |p.history| ==> Genuine(log, p.history[k]) }

  ghost predicate ProjInv(p: Proj, log: seq<Row>) {
    && Bounds(p) && Complete(p, log, Front(p)) && UpToDate(p, log, Front(p)) && Images(p, log) && AllGenuine(p, log)
    && (p.live.Some? ==> InLoop(p.live.value, log)) && JustUpserted(p) && Exact(p, log)
  }

  // ---------- what a row of the read model holds ----------

  /** The insert was made for this event, with the event's coin, price and instant. */
  ghost predicate Records(x: Inserted, r: Row) {
    Decodable(r.base) && x.eventId == r.id &&
    var p := r.base.data.payload;
    x.point.coinId == p.coinId && x.point.price == p.currentPrice && x.point.recordedAt == p.lastUpdated
  }

  /** Every column of the summary is the payload's. */
  ghost predicate Shows(s: Summary, p: Payload) {
    && s.coinId == p.coinId && s.symbol == p.symbol && s.name == p.name && s.currentPrice == p.currentPrice
    && s.marketCap == p.marketCap && s.volume24h == p.volume24h && s.priceChange24h == p.priceChange24h
    && s.lastUpdated == p.lastUpdated
  }

  ghost predicate Mirrors(s: Summary, r: Row) { Decodable(r.base) && Shows(s, r.base.data.payload) }

  function IsDecodable(): Row -> bool { (r: Row) => Decodable(r.base) }

  /** One insert per decodable row, in order. */
  lemma {:induction false} InsertsRecord(rows: seq<Row>, start: nat)
    ensures var d, x := Ordering.Where(IsDecodable(), rows), InsertsFor(rows, start);
            |x| == |d| && forall k :: 0 <= k < |d| ==> Records(x[k], d[k]) && x[k].start == start
  {
    if rows != [] {
      InsertsRecord(rows[..|rows| - 1], start);
    }
  }

  lemma RowIsMirrored(p: Proj, log: seq<Row>, c: CoinId)
    requires Images(p, log) && c in p.summaries
    ensures exists i :: 0 <= i < |log| && log[i].id == p.summaries[c].source && Mirrors(p.summaries[c].row, log[i]) && p.summaries[c].row.coinId == c
  {
    assert FromLog(log, c, p.summaries[c]);
    var i :| 0 <= i < |log| && log[i].id == p.summaries[c].source && Decodable(log[i].base) &&
             PayloadOf(log[i].base).coinId == c && p.summaries[c].row == SummaryOf(PayloadOf(log[i].base));
    assert Mirrors(p.summaries[c].row, log[i]);
  }

  // ---------- lemmas on the log ----------

  lemma PastRows(log: seq<Row>, lastId: nat)
    requires DistinctLog(log)
    ensures var q := Ordering.Where(Past(lastId), log);
            Ordering.NoDup(q) && Ordering.Separates(RowIdBefore, q)
  {
    var q := Ordering.Where(Past(lastId), log);
    assert Ordering.NoDup(log);
    Ordering.WhereNoDup(Past(lastId), log);
    forall x, y | x in q && y in q && x != y ensures RowIdBefore(x, y) || RowIdBefore(y, x) {
      var i :| 0 <= i < |log| && log[i] == x;
      var j :| 0 <= j < |log| && log[j] == y;
    }
  }

  /** How many committed rows lie past lastId. */
  function Unread(log: seq<Row>, lastId: nat): nat { |Ordering.Where(Past(lastId), log)| }

  lemma {:induction false} UnreadMonotone(log: seq<Row>, a: nat, b: nat)
    requires a <= b
    ensures Unread(log, b) <= Unread(log, a)
  {
    if log != [] {
      UnreadMonotone(log[..|log| - 1], a, b);
    }
  }

  lemma {:induction false} UnreadShrinks(log: seq<Row>, a: nat, r: Row)
    requires r in log && a < r.id
    ensures Unread(log, r.id) < Unread(log, a)
  {
    var p := log[..|log| - 1];
    assert log == p + [log[|log| - 1]];
    if r in p {
      UnreadShrinks(p, a, r);
    } else {
      UnreadMonotone(p, a, r.id);
    }
  }

  /** The log's next rows past lastId: at most 100, in id order, none skipped, fewer only at the end. */
  ghost predicate NextRows(log: seq<Row>, lastId: nat, rows: seq<Row>) {
    && |rows| <= 100 && (forall k :: 0 <= k < |rows| ==> rows[k] in log && lastId < rows[k].id)
    && (forall k, l :: 0 <= k < l < |rows| ==> rows[k].id < rows[l].id)
    && (forall r :: r in log && lastId < r.id && r !in rows ==> |rows| == 100 && forall k :: 0 <= k < |rows| ==> rows[k].id < r.id)
  }

  lemma NewEventsAreNext(log: seq<Row>, lastId: nat)
    requires DistinctLog(log)
    ensures NextRows(log, lastId, NewEvents(log, lastId, FETCH))
  {
    NewEventsFacts(log, lastId, FETCH);
    var b, q := NewEvents(log, lastId, FETCH), Ordering.Where(Past(lastId), log);
    PastRows(log, lastId);
    Ordering.SortNoDup(RowIdBefore, q);
    forall r | r in log && lastId < r.id && r !in b ensures |b| == 100 && forall k :: 0 <= k < |b| ==> b[k].id < r.id {
      assert r in q && r in Ordering.Sort(RowIdBefore, q);
      forall k | 0 <= k < |b| ensures b[k].id < r.id {
        Ordering.LimitMembers(RowIdBefore, Ordering.Sort(RowIdBefore, q), FETCH, r, b[k]);
      }
    }
  }

  lemma NewEventsFacts(log: seq<Row>, lastId: nat, n: nat)
    requires DistinctLog(log)
    ensures var b := NewEvents(log, lastId, n);
            && (forall k :: 0 <= k < |b| ==> b[k] in log && lastId < b[k].id)
            && (forall k, l :: 0 <= k < l < |b| ==> b[k].id < b[l].id)
            && (forall i, k :: 0 <= i < |log| && 0 <= k < |b| && lastId < log[i].id < b[k].id ==> log[i] in b[..k])
  {
    var q := Ordering.Where(Past(lastId), log);
    PastRows(log, lastId);
    Ordering.LimitKeepsLeast(RowIdBefore, q, n);
    var b := NewEvents(log, lastId, n);
    forall k | 0 <= k < |b| ensures b[k] in q { assert b[k] in b; }
    forall k, l | 0 <= k < l < |b| ensures b[k].id < b[l].id { assert RowIdBefore(b[k], b[l]); }
    forall i, k | 0 <= i < |log| && 0 <= k < |b| && lastId < log[i].id < b[k].id ensures log[i] in b[..k] {
      assert log[i] in log;
      assert log[i] in q && RowIdBefore(log[i], b[k]);
    }
  }

  /** An empty fetch means the end of the log has been reached. */
  lemma NothingNew(log: seq<Row>, lastId: nat, n: nat)
    requires NewEvents(log, lastId, n) == [] && n > 0
    ensures forall i :: 0 <= i < |log| ==> log[i].id <= lastId
  {
    var q := Ordering.Where(Past(lastId), log);
    Ordering.SameMembers(Ordering.Sort(RowIdBefore, q), q);
    forall i | 0 <= i < |log| ensures log[i].id <= lastId {
      assert log[i] in log;
      assert log[i] !in q;
    }
  }

  lemma BetweenFacts(log: seq<Row>, lo: nat, hi: nat)
    requires DistinctLog(log)
    ensures Ordering.Linear(RowIdBefore) && Ordering.Ascending(RowIdBefore, RowsBetween(log, lo, hi))
    ensures forall r :: r in RowsBetween(log, lo, hi) <==> r in log && lo < r.id <= hi
  {
    var q := Ordering.Where(Window(lo, hi), log);
    assert Ordering.NoDup(log);
    Ordering.WhereNoDup(Window(lo, hi), log);
    forall x, y | x in q && y in q && x != y ensures RowIdBefore(x, y) || RowIdBefore(y, x) {
      var i :| 0 <= i < |log| && log[i] == x;
      var j :| 0 <= j < |log| && log[j] == y;
    }
    Ordering.SortNoDup(RowIdBefore, q);
  }

  lemma NoneBetween(log: seq<Row>, lo: nat, hi: nat)
    requires forall i :: 0 <= i < |log| ==> !(lo < log[i].id <= hi)
    ensures Ordering.Where(Window(lo, hi), log) == []
  {
    var q := Ordering.Where(Window(lo, hi), log);
    Ordering.HeadIsMember(q);
  }

  /** Rows beyond the window do not matter. */
  lemma InsertsGrow(log: seq<Row>, lo: nat, hi: nat, start: nat, more: seq<Row>)
    requires forall k :: 0 <= k < |more| ==> more[k].id > hi
    ensures DecodableInserts(log + more, lo, hi, start) == DecodableInserts(log, lo, hi, start)
  {
    var q := Ordering.Where(Window(lo, hi), log);
    Ordering.WhereConcat(Window(lo, hi), log, more);
    NoneBetween(more, lo, hi);
    assert q + [] == q;
    assert RowsBetween(log + more, lo, hi) == RowsBetween(log, lo, hi);
  }

  /** Moving the front past one row appends that row's insert if it is decodable. */
  lemma WindowGrows(log: seq<Row>, lo: nat, mid: nat, r: Row, x: Row)
    requires DistinctLog(log) && lo <= mid < r.id && r in log && x in log
    requires forall i :: 0 <= i < |log| ==> !(mid < log[i].id < r.id)
    ensures lo < x.id <= r.id <==> lo < x.id <= mid || x == r
  {
    var i :| 0 <= i < |log| && log[i] == x;
    RowUnique(log, x, r);
  }

  lemma AscendingSnoc(p: seq<Row>, r: Row)
    requires Ordering.Ascending(RowIdBefore, p) && forall x :: x in p ==> x.id < r.id
    ensures Ordering.Ascending(RowIdBefore, p + [r])
  {
  }

  lemma RowsAdvance(log: seq<Row>, lo: nat, mid: nat, r: Row)
    requires DistinctLog(log) && lo <= mid < r.id && r in log
    requires forall i :: 0 <= i < |log| ==> !(mid < log[i].id < r.id)
    ensures RowsBetween(log, lo, r.id) == RowsBetween(log, lo, mid) + [r]
  {
    var p, q := RowsBetween(log, lo, mid), RowsBetween(log, lo, r.id);
    BetweenFacts(log, lo, mid);
    BetweenFacts(log, lo, r.id);
    AscendingSnoc(p, r);
    forall x ensures x in q <==> x in p + [r] {
      if x in log {
        WindowGrows(log, lo, mid, r, x);
      }
    }
    Ordering.AscendingUnique(RowIdBefore, q, p + [r]);
  }

  lemma InsertsSnoc(p: seq<Row>, r: Row, start: nat)
    ensures InsertsFor(p + [r], start) == InsertsFor(p, start) + if Decodable(r.base) then [InsertFor(r, start)] else []
  {
    assert (p + [r])[..|p|] == p;
  }

  lemma InsertsAdvance(log: seq<Row>, lo: nat, mid: nat, r: Row, start: nat)
    requires DistinctLog(log) && lo <= mid < r.id && r in log
    requires forall i :: 0 <= i < |log| ==> !(mid < log[i].id < r.id)
    ensures DecodableInserts(log, lo, r.id, start) == DecodableInserts(log, lo, mid, start) + if Decodable(r.base) then [InsertFor(r, start)] else []
  {
    RowsAdvance(log, lo, mid, r);
    InsertsSnoc(RowsBetween(log, lo, mid), r, start);
  }

  lemma RowUnique(log: seq<Row>, q: Row, r: Row)
    requires DistinctLog(log) && q in log && r in log
    ensures q.id == r.id ==> q == r
  {
    var i :| 0 <= i < |log| && log[i] == q;
    var j :| 0 <= j < |log| && log[j] == r;
  }

  /** At the head of the loop no row lies between lastId and the current record. */
  lemma NothingBetween(w: Process, log: seq<Row>, i: nat)
    requires Contiguous(w, log) && w.pos < |w.batch| && i < |log|
    ensures !(w.lastId < log[i].id < w.batch[w.pos].id)
  {
    assert w.batch[w.pos..w.pos] == [];
  }

  // ---------- every step keeps the invariant ----------

  lemma StepBoot(p: Proj, log: seq<Row>)
    requires ProjInv(p, log) && CanStep(p, log, Boot)
    ensures ProjInv(Step(p, log, Boot), log)
  {
    BootExact(p, log);
    SameTables(p, Step(p, log, Boot), log, p.checkpoint);
  }

  lemma BootExact(p: Proj, log: seq<Row>)
    requires Exact(p, log) && CanStep(p, log, Boot)
    ensures Exact(Step(p, log, Boot), log) && Bounds(Step(p, log, Boot)) && JustUpserted(Step(p, log, Boot))
  {
    FreshStart(p.history, p.starts + 1);
    EmptyWindow(log, p.checkpoint, p.starts + 1);
  }

  /** What is projected depends on the tables alone. */
  lemma SameTables(p: Proj, q: Proj, log: seq<Row>, f: nat)
    requires q.summaries == p.summaries && q.history == p.history
    requires Complete(p, log, f) && UpToDate(p, log, f) && Images(p, log) && AllGenuine(p, log)
    ensures Complete(q, log, f) && UpToDate(q, log, f) && Images(q, log) && AllGenuine(q, log)
  {
    forall i | 0 <= i < |log| && log[i].id <= f && Decodable(log[i].base) ensures NoOlder(q, log[i]) {
      assert NoOlder(p, log[i]);
    }
  }

  lemma {:induction false} FreshStart(history: seq<Inserted>, start: nat)
    requires forall k :: 0 <= k < |history| ==> history[k].start < start
    ensures InsertsOf(history, start) == []
  {
    if history != [] {
      FreshStart(history[..|history| - 1], start);
    }
  }

  lemma EmptyWindow(log: seq<Row>, x: nat, start: nat)
    ensures DecodableInserts(log, x, x, start) == []
  {
    NoneBetween(log, x, x);
  }

  lemma StepFetch(p: Proj, log: seq<Row>)
    requires ProjInv(p, log) && DistinctLog(log) && CanStep(p, log, Fetch)
    ensures ProjInv(Step(p, log, Fetch), log)
  {
    var w := p.live.value;
    NewEventsFacts(log, w.lastId, FETCH);
    var b := NewEvents(log, w.lastId, FETCH);
    assert forall k :: 0 <= k < |b| ==> b[..k] == b[0..k];
    assert b != [] ==> Contiguous(w.(batch := b, pos := 0, stage := AtRecord, progressed := false), log);
  }

  lemma AdvanceContiguous(w: Process, log: seq<Row>)
    requires Contiguous(w, log) && w.pos < |w.batch|
    ensures Contiguous(Advance(w), log)
  {
    var v := Advance(w);
    forall i, k | 0 <= i < |log| && v.pos <= k < |v.batch| && v.lastId < log[i].id < v.batch[k].id
      ensures log[i] in v.batch[v.pos..k]
    {
      assert log[i] in w.batch[w.pos..k];
      assert w.batch[w.pos..k] == [w.batch[w.pos]] + w.batch[v.pos..k];
    }
  }

  /** What moving past the current record asks of the read model. */
  lemma AdvanceFront(p: Proj, p': Proj, log: seq<Row>, w: Process)
    requires DistinctLog(log) && Contiguous(w, log) && w.pos < |w.batch|
    requires Complete(p, log, w.lastId) && UpToDate(p, log, w.lastId)
    requires p'.summaries == p.summaries && p.history <= p'.history
    requires var r := w.batch[w.pos]; Decodable(r.base) ==> WasInserted(p'.history, r.id) && NoOlder(p', r)
    ensures Complete(p', log, w.batch[w.pos].id) && UpToDate(p', log, w.batch[w.pos].id)
  {
    var r := w.batch[w.pos];
    forall i | 0 <= i < |log| && log[i].id <= r.id && Decodable(log[i].base)
      ensures WasInserted(p'.history, log[i].id) && NoOlder(p', log[i])
    {
      NothingBetween(w, log, i);
      if log[i].id == r.id {
        RowUnique(log, log[i], r);
      } else {
        assert WasInserted(p.history, log[i].id) && NoOlder(p, log[i]);
        var k :| 0 <= k < |p.history| && p.history[k].eventId == log[i].id;
        assert p'.history[k] == p.history[k];
      }
    }
  }

  lemma AdvanceInserts(log: seq<Row>, w: Process, start: nat)
    requires DistinctLog(log) && Contiguous(w, log) && w.pos < |w.batch| && w.base <= w.lastId
    ensures var r := w.batch[w.pos];
            DecodableInserts(log, w.base, r.id, start) ==
              DecodableInserts(log, w.base, w.lastId, start) + if Decodable(r.base) then [InsertFor(r, start)] else []
  {
    forall i | 0 <= i < |log| ensures !(w.lastId < log[i].id < w.batch[w.pos].id) {
      NothingBetween(w, log, i);
    }
    InsertsAdvance(log, w.base, w.lastId, w.batch[w.pos], start);
  }

  lemma StepSkip(p: Proj, log: seq<Row>)
    requires ProjInv(p, log) && DistinctLog(log) && CanStep(p, log, Skip)
    ensures ProjInv(Step(p, log, Skip), log)
  {
    var p' := Step(p, log, Skip);
    var w := p.live.value;
    AdvanceContiguous(w, log);
    AdvanceFront(p, p', log, w);
    AdvanceInserts(log, w, p.starts);
  }

  lemma UpsertFresh(p: Proj, p': Proj, log: seq<Row>, w: Process)
    requires UpToDate(p, log, w.lastId) && Contiguous(w, log) && w.pos < |w.batch| && Decodable(w.batch[w.pos].base)
    requires var r := w.batch[w.pos]; var s := SummaryOf(PayloadOf(r.base)); p'.summaries == p.summaries[s.coinId := Sourced(s, r.id)]
    ensures UpToDate(p', log, w.lastId)
  {
    forall i | 0 <= i < |log| && log[i].id <= w.lastId && Decodable(log[i].base) ensures NoOlder(p', log[i]) {
      assert NoOlder(p, log[i]);
    }
  }

  lemma StepUpsert(p: Proj, log: seq<Row>)
    requires ProjInv(p, log) && CanStep(p, log, Upsert)
    ensures ProjInv(Step(p, log, Upsert), log)
  {
    var p' := Step(p, log, Upsert);
    var w := p.live.value;
    var r := w.batch[w.pos];
    UpsertFresh(p, p', log, w);
    assert Images(p', log) by {
      var i :| 0 <= i < |log| && log[i] == r;
      var c := PayloadOf(r.base).coinId;
      assert FromLog(log, c, p'.summaries[c]);
    }
  }

  lemma StepAddHistory(p: Proj, log: seq<Row>)
    requires ProjInv(p, log) && DistinctLog(log) && CanStep(p, log, AddHistory)
    ensures ProjInv(Step(p, log, AddHistory), log)
  {
    var p' := Step(p, log, AddHistory);
    var w := p.live.value;
    assert p'.history[|p.history|].eventId == w.batch[w.pos].id;
    assert p'.history[..|p'.history| - 1] == p.history;
    AdvanceContiguous(w, log);
    AdvanceFront(p, p', log, w);
    AdvanceInserts(log, w, p.starts);
    AddGenuine(p, p', log, w.batch[w.pos]);
  }

  lemma AddGenuine(p: Proj, p': Proj, log: seq<Row>, r: Row)
    requires AllGenuine(p, log) && r in log && Decodable(r.base) && p'.history == p.history + [InsertFor(r, p.starts)]
    ensures AllGenuine(p', log)
  {
    var i :| 0 <= i < |log| && log[i] == r;
    assert Genuine(log, InsertFor(r, p.starts));
  }

  lemma StepEasy(p: Proj, log: seq<Row>, a: ProjAction)
    requires ProjInv(p, log) && CanStep(p, log, a)
    requires a.ProjectFails? || a.EndBatch? || a.Save? || a.Crash?
    ensures ProjInv(Step(p, log, a), log)
  {
  }

  lemma ProjStep(p: Proj, log: seq<Row>, a: ProjAction)
    requires ProjInv(p, log) && DistinctLog(log) && CanStep(p, log, a)
    ensures ProjInv(Step(p, log, a), log)
  {
    match a {
      case Boot => StepBoot(p, log);
      case Fetch => StepFetch(p, log);
      case Skip => StepSkip(p, log);
      case Upsert => StepUpsert(p, log);
      case AddHistory => StepAddHistory(p, log);
      case _ => StepEasy(p, log, a);
    }
  }

  /** The rows that became visible between log and log' lie above the horizon. */
  ghost predicate Above(p: Proj, log: seq<Row>, log': seq<Row>) {
    log <= log' && forall i :: |log| <= i < |log'| ==> log'[i].id > Horizon(p)
  }

  /** Arrivals above the horizon disturb nothing. */
  lemma LogStep(p: Proj, log: seq<Row>, log': seq<Row>)
    requires ProjInv(p, log) && Above(p, log, log')
    ensures ProjInv(p, log')
  {
    var more := log'[|log|..];
    assert log' == log + more;
    LogStepTables(p, log, log');
    LogStepHistory(p, log, log');
    if p.live.Some? {
      InsertsGrow(log, p.live.value.base, p.live.value.lastId, p.starts, more);
      if InRecordLoop(p.live.value) {
        LogStepLoop(p, p.live.value, log, log');
      }
    }
  }

  lemma LogStepTables(p: Proj, log: seq<Row>, log': seq<Row>)
    requires log <= log' && Complete(p, log, Front(p)) && UpToDate(p, log, Front(p)) && Images(p, log)
    requires forall i :: |log| <= i < |log'| ==> log'[i].id > Front(p)
    ensures Complete(p, log', Front(p)) && UpToDate(p, log', Front(p)) && Images(p, log')
  {
    forall i | 0 <= i < |log'| && log'[i].id <= Front(p) && Decodable(log'[i].base)
      ensures WasInserted(p.history, log'[i].id) && NoOlder(p, log'[i])
    {
      assert log'[i] == log[i];
    }
    forall c | c in p.summaries ensures FromLog(log', c, p.summaries[c]) {
      var i :| 0 <= i < |log| && log[i].id == p.summaries[c].source && Decodable(log[i].base) &&
               PayloadOf(log[i].base).coinId == c && p.summaries[c].row == SummaryOf(PayloadOf(log[i].base));
      assert log'[i] == log[i];
    }
  }

  lemma LogStepHistory(p: Proj, log: seq<Row>, log': seq<Row>)
    requires AllGenuine(p, log) && log <= log'
    ensures AllGenuine(p, log')
  {
    forall k | 0 <= k < |p.history| ensures Genuine(log', p.history[k]) {
      assert Genuine(log, p.history[k]);
      var i :| 0 <= i < |log| && Decodable(log[i].base) && p.history[k] == InsertFor(log[i], p.history[k].start);
      assert log'[i] == log[i];
    }
  }

  lemma LogStepLoop(p: Proj, w: Process, log: seq<Row>, log': seq<Row>)
    requires p.live == Some(w) && InRecordLoop(w) && Contiguous(w, log) && Above(p, log, log')
    ensures Contiguous(w, log')
  {
    forall k | w.pos <= k < |w.batch| ensures w.batch[k] in log' && w.batch[k].id <= Horizon(p) {
      var j :| 0 <= j < |log| && log[j] == w.batch[k];
      assert log'[j] == log[j];
    }
    forall i, k | 0 <= i < |log'| && w.pos <= k < |w.batch| && w.lastId < log'[i].id < w.batch[k].id
      ensures log'[i] in w.batch[w.pos..k]
    {
      assert i < |log| && log[i] == log'[i];
    }
  }

  // ---------- what holds in any visibility order ----------

  /** Within one process start, inserts carry ascending event ids, all at or below lastId. */
  ghost predicate Once(p: Proj) {
    && (forall k :: 0 <= k < |p.history| ==> p.history[k].start <= p.starts)
    && (forall j, k :: 0 <= j < k < |p.history| && p.history[j].start == p.history[k].start ==>
          p.history[j].eventId < p.history[k].eventId)
    && (p.live.Some? ==> forall k :: 0 <= k < |p.history| && p.history[k].start == p.starts ==>
                                       p.history[k].eventId <= p.live.value.lastId)
  }

  ghost predicate Ahead(w: Process) {
    InRecordLoop(w) ==>
      && w.pos <= |w.batch|
      && (forall k :: w.pos <= k < |w.batch| ==> w.lastId < w.batch[k].id)
      && (forall k, l :: w.pos <= k < l < |w.batch| ==> w.batch[k].id < w.batch[l].id)
  }

  ghost predicate AnyOrder(p: Proj) {
    Bounds(p) && Once(p) && (p.live.Some? ==> Ahead(p.live.value))
  }

  lemma AnyOrderStep(p: Proj, log: seq<Row>, a: ProjAction)
    requires AnyOrder(p) && DistinctLog(log) && CanStep(p, log, a)
    ensures AnyOrder(Step(p, log, a)) && p.checkpoint <= Step(p, log, a).checkpoint
  {
    if a.Fetch? {
      NewEventsFacts(log, p.live.value.lastId, FETCH);
    }
  }

  /** An event at or below the saved checkpoint that was never projected. */
  ghost predicate Lost(p: Proj, id: nat) {
    id <= p.checkpoint && !WasInserted(p.history, id)
  }

  lemma LostStep(p: Proj, log: seq<Row>, a: ProjAction, id: nat)
    requires AnyOrder(p) && CanStep(p, log, a) && Lost(p, id)
    ensures Lost(Step(p, log, a), id)
  {
  }

  ghost predicate IsId(log: seq<Row>, id: nat) { exists i :: 0 <= i < |log| && log[i].id == id }

  /** The checkpoint, lastId and everything in the batch in hand come from the log. */
  ghost predicate KnownIds(p: Proj, log: seq<Row>) {
    && (p.checkpoint == 0 || IsId(log, p.checkpoint))
    && (p.live.Some? ==>
          && (p.live.value.lastId == 0 || IsId(log, p.live.value.lastId))
          && (InRecordLoop(p.live.value) ==> forall k :: 0 <= k < |p.live.value.batch| ==> p.live.value.batch[k] in log))
  }

  lemma MemberIsId(log: seq<Row>, r: Row)
    requires r in log
    ensures IsId(log, r.id)
  {
    var i :| 0 <= i < |log| && log[i] == r;
  }

  lemma KnownStep(p: Proj, log: seq<Row>, a: ProjAction)
    requires KnownIds(p, log) && DistinctLog(log) && CanStep(p, log, a)
    ensures KnownIds(Step(p, log, a), log)
  {
    if a.Fetch? {
      NewEventsFacts(log, p.live.value.lastId, FETCH);
    }
    if a.Skip? || a.AddHistory? {
      MemberIsId(log, p.live.value.batch[p.live.value.pos]);
    }
  }

  lemma KnownGrows(p: Proj, log: seq<Row>, log': seq<Row>)
    requires KnownIds(p, log) && log <= log'
    ensures KnownIds(p, log')
  {
    forall id | IsId(log, id) ensures IsId(log', id) {
      var i :| 0 <= i < |log| && log[i].id == id;
      assert log'[i] == log[i];
    }
    assert forall r :: r in log ==> r in log';
  }

  lemma HorizonIsKnown(p: Proj, log: seq<Row>)
    requires KnownIds(p, log)
    ensures Horizon(p) == 0 || IsId(log, Horizon(p))
  {
    if p.live.Some? && InRecordLoop(p.live.value) && p.live.value.batch != [] {
      MemberIsId(log, p.live.value.batch[|p.live.value.batch| - 1]);
    }
  }

  /** Rows that become visible in id order lie above the horizon. */
  lemma IdOrderedIsAbove(p: Proj, log: seq<Row>, log': seq<Row>)
    requires KnownIds(p, log) && log <= log' && IdOrdered(log')
    ensures Above(p, log, log')
  {
    HorizonIsKnown(p, log);
    if Horizon(p) > 0 {
      var j :| 0 <= j < |log| && log[j].id == Horizon(p);
      assert log'[j] == log[j];
    }
  }
}
