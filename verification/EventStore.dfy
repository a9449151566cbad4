/** The write side as a step machine: any number of writers run Store.AppendEvents against
    one database (internal/eventstore/store.go, internal/aggregator/processor.go).

    Each database round trip of a writer is one step, so every interleaving is a run.
    Assumed of PostgreSQL: READ COMMITTED, a failed statement or commit has no effect,
    advisory locks are released only once the commit is visible, sequences never roll back. */
module EventStore {
  import opened Market

  /** BIGSERIAL ids start at 1. */
  type Id = n: int | 0 < n witness 1

  datatype Row = Row(id: Id, base: Base)

  datatype OutboxRow = OutboxRow(id: nat, eventId: nat, payload: Wrapper)

  /** The arguments of one AppendEvents call. */
  datatype Call = Call(aggId: CoinId, expected: int, events: seq<Event>)

  datatype Outcome = Committed(at: nat) | Conflict | UniqueViolation | Failed

  datatype Writer =
    | Ready(call: Call)                                               // arguments computed
    | Begun(call: Call)                                               // waiting for the advisory lock
    | Locked(call: Call)                                              // lock held, version not read
    | Inserting(call: Call, rows: seq<Row>, mail: seq<OutboxRow>)     // version check passed
    | Done(call: Call, outcome: Outcome)

  /** log and outbox hold committed rows in commit order; outbox keeps every row ever
      committed, the publisher records deletions separately. */
  datatype Db = Db(log: seq<Row>, outbox: seq<OutboxRow>, nextId: Id, nextOutboxId: nat, writers: map<nat, Writer>)

  const EMPTY := Db([], [], 1, 1, map[])

  datatype Action =
    | Arrive(t: nat, call: Call)                        // some caller invokes AppendEvents
    | Hydrate(t: nat, data: MarketData, now: int)       // ProcessMarketData reads and decides
    | Begin(t: nat)
    | Lock(t: nat)
    | Check(t: nat)
    | InsertEvent(t: nat)
    | InsertOutbox(t: nat)
    | Commit(t: nat)
    | Fail(t: nat)

  // ---------- queries on the events table ----------

  function Count(log: seq<Row>, a: CoinId): nat {
    if log == [] then 0
    else Count(log[..|log| - 1], a) + if log[|log| - 1].base.aggId == a then 1 else 0
  }

  /** SELECT ... WHERE aggregate_id = a ORDER BY version DESC LIMIT 1 */
  function LatestRow(log: seq<Row>, a: CoinId): Option<Row> {
    if log == [] then None
    else
      var last := log[|log| - 1];
      var before := LatestRow(log[..|log| - 1], a);
      if last.base.aggId == a && (before.None? || before.value.base.version < last.base.version)
      then Some(last) else before
  }

  /** SELECT COALESCE(MAX(version), 0) ... WHERE aggregate_id = a */
  function MaxVersion(log: seq<Row>, a: CoinId): int {
    match LatestRow(log, a)
    case None => 0
    case Some(r) => r.base.version
  }

  predicate HasKey(rows: seq<Row>, a: CoinId, v: int) {
    exists i :: 0 <= i < |rows| && rows[i].base.aggId == a && rows[i].base.version == v
  }

  // ---------- what a processor decides ----------

  /** ProcessMarketData up to its AppendEvents call: hydrate from the latest row, handle the
      command.  None: it returned an error before touching the store. */
  function Prepare(log: seq<Row>, data: MarketData, now: int): Option<Call> {
    var version :=
      match LatestRow(log, data.id)
      case None => Ok(0)
      case Some(r) => (match Decode(r.base) case Ok(e) => Ok(e.base.version) case Err(m) => Err(m));
    if version.Err? then None
    else
      match HandleCommandValue(version.value, CommandOf(data), now)
      case Err(_) => None
      case Ok(e) => Some(Call(data.id, e.base.version - 1, [e]))
  }

  // ---------- the machine ----------

  predicate Holds(w: Writer) { w.Locked? || w.Inserting? }

  predicate LockFree(h: CoinId -> int, s: Db, t: nat)
    requires t in s.writers
  {
    forall u | u in s.writers :: u != t && Holds(s.writers[u]) ==> h(s.writers[u].call.aggId) != h(s.writers[t].call.aggId)
  }

  /** An insert waits while another transaction holds the same key uncommitted. */
  predicate KeyFree(s: Db, t: nat, b: Base) {
    forall u | u in s.writers :: u != t && s.writers[u].Inserting? ==> !HasKey(s.writers[u].rows, b.aggId, b.version)
  }

  predicate Enabled(h: CoinId -> int, s: Db, a: Action) {
    match a
    case Arrive(t, c) => t !in s.writers && c.events != []
    case Hydrate(t, d, now) => t !in s.writers && Prepare(s.log, d, now).Some?
    case Begin(t) => t in s.writers && s.writers[t].Ready?
    case Lock(t) => t in s.writers && s.writers[t].Begun? && LockFree(h, s, t)
    case Check(t) => t in s.writers && s.writers[t].Locked?
    case InsertEvent(t) =>
      && t in s.writers && s.writers[t].Inserting?
      && |s.writers[t].mail| == |s.writers[t].rows| < |s.writers[t].call.events|
      && KeyFree(s, t, s.writers[t].call.events[|s.writers[t].rows|].base)
    case InsertOutbox(t) =>
      && t in s.writers && s.writers[t].Inserting?
      && |s.writers[t].mail| < |s.writers[t].rows| <= |s.writers[t].call.events|
    case Commit(t) =>
      && t in s.writers && s.writers[t].Inserting?
      && |s.writers[t].mail| == |s.writers[t].rows| == |s.writers[t].call.events|
    case Fail(t) => t in s.writers && !s.writers[t].Done?
  }

  function Set(s: Db, t: nat, w: Writer): Db { s.(writers := s.writers[t := w]) }

  function Do(h: CoinId -> int, s: Db, a: Action): Db
    requires Enabled(h, s, a)
  {
    match a
    case Arrive(t, c) => Set(s, t, Ready(c))
    case Hydrate(t, d, now) => Set(s, t, Ready(Prepare(s.log, d, now).value))
    case Begin(t) => Set(s, t, Begun(s.writers[t].call))
    case Lock(t) => Set(s, t, Locked(s.writers[t].call))
    case Check(t) =>
      var c := s.writers[t].call;
      if c.expected >= 0 && MaxVersion(s.log, c.aggId) != c.expected
      then Set(s, t, Done(c, Conflict))
      else Set(s, t, Inserting(c, [], []))
    case InsertEvent(t) =>
      var w := s.writers[t];
      var b := w.call.events[|w.rows|].base;
      var s' := s.(nextId := s.nextId + 1);
      if HasKey(s.log, b.aggId, b.version) || HasKey(w.rows, b.aggId, b.version)
      then Set(s', t, Done(w.call, UniqueViolation))
      else Set(s', t, w.(rows := w.rows + [Row(s.nextId, b)]))
    case InsertOutbox(t) =>
      var w := s.writers[t];
      var k := |w.mail|;
      var m := OutboxRow(s.nextOutboxId, w.rows[k].id, Serialize(w.call.events[k].base));
      Set(s.(nextOutboxId := s.nextOutboxId + 1), t, w.(mail := w.mail + [m]))
    case Commit(t) =>
      var w := s.writers[t];
      Set(s.(log := s.log + w.rows, outbox := s.outbox + w.mail), t, Done(w.call, Committed(|s.log|)))
    case Fail(t) => Set(s, t, Done(s.writers[t].call, Failed))
  }

  ghost predicate Run(h: CoinId -> int, s: Db, acts: seq<Action>, s': Db)
    decreases |acts|
  {
    if acts == [] then s' == s
    else Enabled(h, s, acts[0]) && Run(h, Do(h, s, acts[0]), acts[1..], s')
  }

  /** AppendEvents does not check its events; callers must number them after the expected
      version and address them to the locked aggregate. */
  predicate WellFormed(c: Call) {
    && c.expected >= 0 && c.events != []
    && forall k :: 0 <= k < |c.events| ==>
                     c.events[k].base.aggId == c.aggId && c.events[k].base.version == c.expected + 1 + k
  }

  predicate WellFormedAction(a: Action) { a.Arrive? ==> WellFormed(a.call) }

  ghost predicate WellFormedRun(h: CoinId -> int, acts: seq<Action>, s: Db) {
    && Run(h, EMPTY, acts, s)
    && forall i :: 0 <= i < |acts| ==> WellFormedAction(acts[i])
  }

  // ---------- the invariant ----------

  /** Row i of its aggregate carries the next free version. */
  ghost predicate Numbered(log: seq<Row>) {
    forall i :: 0 <= i < |log| ==> log[i].base.version == Count(log[..i], log[i].base.aggId) + 1
  }

  /** Within an aggregate, commit order, event-id order and outbox-id order agree. */
  ghost predicate Aligned(s: Db) {
    && |s.outbox| == |s.log|
    && forall i, j :: 0 <= i < j < |s.log| && s.log[i].base.aggId == s.log[j].base.aggId ==>
                        s.log[i].id < s.log[j].id && s.outbox[i].id < s.outbox[j].id
  }

  /** Every committed event has its own outbox row, and ids are never reused. */
  ghost predicate Paired(s: Db) {
    && |s.outbox| == |s.log|
    && (forall i :: 0 <= i < |s.log| ==>
          && s.outbox[i].eventId == s.log[i].id && s.outbox[i].payload == Serialize(s.log[i].base)
          && s.log[i].id < s.nextId && s.outbox[i].id < s.nextOutboxId)
    && (forall i, j :: 0 <= i < j < |s.log| ==> s.log[i].id != s.log[j].id && s.outbox[i].id != s.outbox[j].id)
  }

  /** A transaction's staged rows: the call's events in order, with fresh ascending ids. */
  ghost predicate Staged(s: Db, w: Writer)
    requires w.Inserting?
  {
    && |w.mail| <= |w.rows| <= |w.mail| + 1 && |w.rows| <= |w.call.events|
    && (forall k :: 0 <= k < |w.rows| ==> w.rows[k].base == w.call.events[k].base && w.rows[k].id < s.nextId)
    && (forall k, l :: 0 <= k < l < |w.rows| ==> w.rows[k].id < w.rows[l].id)
    && (forall k :: 0 <= k < |w.mail| ==>
          && w.mail[k].eventId == w.rows[k].id && w.mail[k].payload == Serialize(w.rows[k].base)
          && w.mail[k].id < s.nextOutboxId)
    && (forall k, l :: 0 <= k < l < |w.mail| ==> w.mail[k].id < w.mail[l].id)
  }

  /** Staged ids are new with respect to the log, and later than its rows of the same aggregate. */
  ghost predicate Later(s: Db, w: Writer)
    requires w.Inserting? && |s.outbox| == |s.log|
  {
    && (forall i, k :: 0 <= i < |s.log| && 0 <= k < |w.rows| ==>
          && s.log[i].id != w.rows[k].id
          && (s.log[i].base.aggId == w.call.aggId ==> s.log[i].id < w.rows[k].id))
    && (forall i, k :: 0 <= i < |s.log| && 0 <= k < |w.mail| ==>
          && s.outbox[i].id != w.mail[k].id
          && (s.log[i].base.aggId == w.call.aggId ==> s.outbox[i].id < w.mail[k].id))
  }

  ghost predicate Apart(v: Writer, w: Writer)
    requires v.Inserting? && w.Inserting?
  {
    && (forall k, l :: 0 <= k < |v.rows| && 0 <= l < |w.rows| ==> v.rows[k].id != w.rows[l].id)
    && (forall k, l :: 0 <= k < |v.mail| && 0 <= l < |w.mail| ==> v.mail[k].id != w.mail[l].id)
  }

  ghost predicate WriterOk(s: Db, w: Writer)
    requires |s.outbox| == |s.log|
  {
    && WellFormed(w.call)
    && match w
       case Ready(_) => true
       case Begun(_) => true
       case Locked(_) => true
       case Inserting(c, _, _) => Count(s.log, c.aggId) == c.expected && Staged(s, w) && Later(s, w)
       case Done(c, Committed(at)) =>
         && at + |c.events| <= |s.log|
         && (forall k :: 0 <= k < |c.events| ==> s.log[at + k].base == c.events[k].base)
       case Done(_, o) => o != UniqueViolation
  }

  ghost predicate Writers(s: Db)
    requires |s.outbox| == |s.log|
  {
    forall t :: t in s.writers ==> WriterOk(s, s.writers[t])
  }

  /** Two lock holders have different keys, and staged ids never collide. */
  ghost predicate Exclusive(h: CoinId -> int, s: Db) {
    forall t, u :: t in s.writers && u in s.writers && t != u ==>
      && (Holds(s.writers[t]) && Holds(s.writers[u]) ==> h(s.writers[t].call.aggId) != h(s.writers[u].call.aggId))
      && (s.writers[t].Inserting? && s.writers[u].Inserting? ==> Apart(s.writers[t], s.writers[u]))
  }

  /** Of the calls that expected the same version of an aggregate, at most one has committed. */
  ghost predicate OneWinner(s: Db) {
    forall t, u :: t in s.writers && u in s.writers && t != u &&
                   s.writers[t].Done? && s.writers[t].outcome.Committed? &&
                   s.writers[u].Done? && s.writers[u].outcome.Committed? &&
                   s.writers[t].call.aggId == s.writers[u].call.aggId ==>
                   s.writers[t].call.expected != s.writers[u].call.expected
  }

  ghost predicate Inv(h: CoinId -> int, s: Db) {
    Numbered(s.log) && Aligned(s) && Paired(s) && Writers(s) && Exclusive(h, s) && OneWinner(s)
  }

  // ---------- counting lemmas ----------

  lemma {:induction false} CountConcat(p: seq<Row>, q: seq<Row>, a: CoinId)
    ensures Count(p + q, a) == Count(p, a) + Count(q, a)
  {
    if q == [] {
      assert p + q == p;
    } else {
      assert (p + q)[..|p + q| - 1] == p + q[..|q| - 1];
      CountConcat(p, q[..|q| - 1], a);
    }
  }

  lemma {:induction false} CountUniform(q: seq<Row>, a: CoinId, b: CoinId)
    requires forall k :: 0 <= k < |q| ==> q[k].base.aggId == a
    ensures Count(q, b) == if a == b then |q| else 0
  {
    if q != [] {
      CountUniform(q[..|q| - 1], a, b);
    }
  }

  /** In a numbered log the latest row of an aggregate carries the aggregate's row count. */
  lemma {:induction false} LatestIsCount(log: seq<Row>, a: CoinId)
    requires Numbered(log)
    ensures MaxVersion(log, a) == Count(log, a)
    ensures LatestRow(log, a).Some? <==> Count(log, a) > 0
    ensures LatestRow(log, a).Some? ==> LatestRow(log, a).value in log && LatestRow(log, a).value.base.aggId == a
  {
    if log != [] {
      var p := log[..|log| - 1];
      assert forall i :: 0 <= i < |p| ==> p[..i] == log[..i];
      LatestIsCount(p, a);
    }
  }

  /** In any log the latest row of an aggregate has the highest version of its rows. */
  lemma {:induction false} LatestIsHighest(log: seq<Row>, a: CoinId)
    ensures LatestRow(log, a).None? <==> forall r :: r in log ==> r.base.aggId != a
    ensures LatestRow(log, a).Some? ==>
              var q := LatestRow(log, a).value;
              q in log && q.base.aggId == a && forall r :: r in log && r.base.aggId == a ==> r.base.version <= q.base.version
    ensures forall v :: v > MaxVersion(log, a) ==> !HasKey(log, a, v)
  {
    if log != [] {
      var p := log[..|log| - 1];
      LatestIsHighest(p, a);
      assert log == p + [log[|log| - 1]];
    }
  }

  lemma HasKeySnoc(log: seq<Row>, r: Row, a: CoinId, v: int)
    ensures HasKey(log + [r], a, v) <==> HasKey(log, a, v) || (r.base.aggId == a && r.base.version == v)
  {
    var l := log + [r];
    if HasKey(log, a, v) {
      var i :| 0 <= i < |log| && log[i].base.aggId == a && log[i].base.version == v;
      assert l[i] == log[i];
    }
    if r.base.aggId == a && r.base.version == v {
      assert l[|log|] == r;
    }
  }

  /** In a numbered log every version from 1 to the count is present and no other. */
  lemma NumberedPrefix(log: seq<Row>)
    requires Numbered(log) && log != []
    ensures var p := log[..|log| - 1]; Numbered(p) && log == p + [log[|log| - 1]] && log[|log| - 1].base.version == Count(p, log[|log| - 1].base.aggId) + 1
  {
    var p := log[..|log| - 1];
    assert forall i :: 0 <= i < |p| ==> p[..i] == log[..i];
  }

  lemma {:induction false} KeysAreCounts(log: seq<Row>, a: CoinId, v: int)
    requires Numbered(log)
    ensures HasKey(log, a, v) <==> 1 <= v <= Count(log, a)
  {
    if log != [] {
      var p, last := log[..|log| - 1], log[|log| - 1];
      NumberedPrefix(log);
      KeysAreCounts(p, a, v);
      HasKeySnoc(p, last, a, v);
    }
  }

  lemma CountUnique(log: seq<Row>, i: nat, j: nat)
    requires Numbered(log) && i < j < |log| && log[i].base.aggId == log[j].base.aggId
    ensures log[i].base.version < log[j].base.version
  {
    var a := log[i].base.aggId;
    assert log[..j] == log[..i] + [log[i]] + log[i + 1..j];
    CountConcat(log[..i] + [log[i]], log[i + 1..j], a);
    CountConcat(log[..i], [log[i]], a);
    CountUniform([log[i]], a, a);
  }

  // ---------- every step keeps the invariant ----------

  lemma NumberedCommit(s: Db, w: Writer)
    requires Numbered(s.log) && w.Inserting? && WellFormed(w.call) && Count(s.log, w.call.aggId) == w.call.expected
    requires |w.rows| == |w.call.events|
    requires forall k :: 0 <= k < |w.rows| ==> w.rows[k].base == w.call.events[k].base
    ensures Numbered(s.log + w.rows)
  {
    var l := s.log + w.rows;
    forall i | 0 <= i < |l| ensures l[i].base.version == Count(l[..i], l[i].base.aggId) + 1 {
      if i < |s.log| {
        assert l[..i] == s.log[..i];
      } else {
        var k := i - |s.log|;
        assert l[..i] == s.log + w.rows[..k];
        CountConcat(s.log, w.rows[..k], w.call.aggId);
        CountUniform(w.rows[..k], w.call.aggId, w.call.aggId);
      }
    }
  }

  lemma AlignedCommit(s: Db, s': Db, w: Writer)
    requires Aligned(s) && w.Inserting? && WellFormed(w.call) && Staged(s, w) && Later(s, w)
    requires |w.mail| == |w.rows| && s'.log == s.log + w.rows && s'.outbox == s.outbox + w.mail
    ensures Aligned(s')
  {
    forall i, j | 0 <= i < j < |s'.log| && s'.log[i].base.aggId == s'.log[j].base.aggId
      ensures s'.log[i].id < s'.log[j].id && s'.outbox[i].id < s'.outbox[j].id
    {
      if j >= |s.log| {
        assert s'.log[j] == w.rows[j - |s.log|] && s'.outbox[j] == w.mail[j - |s.log|];
      }
    }
  }

  lemma PairedCommit(s: Db, s': Db, w: Writer)
    requires Paired(s) && w.Inserting? && Staged(s, w) && Later(s, w)
    requires |w.mail| == |w.rows| && s'.log == s.log + w.rows && s'.outbox == s.outbox + w.mail
    requires s'.nextId == s.nextId && s'.nextOutboxId == s.nextOutboxId
    ensures Paired(s')
  {
  }

  lemma StepCommitTables(h: CoinId -> int, s: Db, t: nat)
    requires Inv(h, s) && Enabled(h, s, Commit(t))
    ensures var s' := Do(h, s, Commit(t)); Numbered(s'.log) && Aligned(s') && Paired(s')
  {
    var w := s.writers[t];
    assert WriterOk(s, w);
    NumberedCommit(s, w);
    AlignedCommit(s, Do(h, s, Commit(t)), w);
    PairedCommit(s, Do(h, s, Commit(t)), w);
  }

  /** A commit of another aggregate's rows leaves a transaction in order. */
  lemma LaterAfterCommit(s: Db, s': Db, w: Writer, v: Writer)
    requires |s.outbox| == |s.log| && w.Inserting? && v.Inserting? && Later(s, v) && Apart(v, w)
    requires |w.mail| == |w.rows| && v.call.aggId != w.call.aggId
    requires forall k :: 0 <= k < |w.rows| ==> w.rows[k].base.aggId == w.call.aggId
    requires s'.log == s.log + w.rows && s'.outbox == s.outbox + w.mail
    ensures Later(s', v)
  {
    forall i, k | 0 <= i < |s'.log| && 0 <= k < |v.rows|
      ensures s'.log[i].id != v.rows[k].id
      ensures s'.log[i].base.aggId == v.call.aggId ==> s'.log[i].id < v.rows[k].id
    {
      assert i >= |s.log| ==> s'.log[i] == w.rows[i - |s.log|];
    }
    forall i, k | 0 <= i < |s'.log| && 0 <= k < |v.mail|
      ensures s'.outbox[i].id != v.mail[k].id
      ensures s'.log[i].base.aggId == v.call.aggId ==> s'.outbox[i].id < v.mail[k].id
    {
      assert i >= |s.log| ==> s'.outbox[i] == w.mail[i - |s.log|] && s'.log[i] == w.rows[i - |s.log|];
    }
  }

  lemma WriterAfterCommit(s: Db, s': Db, w: Writer, v: Writer)
    requires |s.outbox| == |s.log| && WriterOk(s, v) && WriterOk(s, w) && w.Inserting?
    requires |w.mail| == |w.rows| == |w.call.events|
    requires s'.log == s.log + w.rows && s'.outbox == s.outbox + w.mail
    requires s'.nextId == s.nextId && s'.nextOutboxId == s.nextOutboxId
    requires v.Inserting? ==> v.call.aggId != w.call.aggId && Apart(v, w)
    ensures WriterOk(s', v)
  {
    if v.Inserting? {
      CountConcat(s.log, w.rows, v.call.aggId);
      CountUniform(w.rows, w.call.aggId, v.call.aggId);
      LaterAfterCommit(s, s', w, v);
    }
  }

  lemma StepCommitWriters(h: CoinId -> int, s: Db, t: nat)
    requires Inv(h, s) && Enabled(h, s, Commit(t)) && Paired(Do(h, s, Commit(t)))
    ensures Writers(Do(h, s, Commit(t)))
  {
    var s' := Do(h, s, Commit(t));
    var w := s.writers[t];
    assert WriterOk(s, w);
    forall u | u in s'.writers ensures WriterOk(s', s'.writers[u]) {
      if u != t {
        assert WriterOk(s, s.writers[u]);
        WriterAfterCommit(s, s', w, s.writers[u]);
      }
    }
  }

  lemma StepCommitWinner(h: CoinId -> int, s: Db, t: nat)
    requires Inv(h, s) && Enabled(h, s, Commit(t))
    ensures OneWinner(Do(h, s, Commit(t)))
  {
    var w := s.writers[t];
    assert WriterOk(s, w);
    forall u | u in s.writers && u != t && s.writers[u].Done? && s.writers[u].outcome.Committed? &&
               s.writers[u].call.aggId == w.call.aggId
      ensures s.writers[u].call.expected < w.call.expected
    {
      var c, at := s.writers[u].call, s.writers[u].outcome.at;
      assert WriterOk(s, s.writers[u]);
      assert s.log[at].base == c.events[0].base;
      assert HasKey(s.log, c.aggId, c.expected + 1);
      KeysAreCounts(s.log, c.aggId, c.expected + 1);
    }
  }

  lemma StepCommit(h: CoinId -> int, s: Db, t: nat)
    requires Inv(h, s) && Enabled(h, s, Commit(t))
    ensures Inv(h, Do(h, s, Commit(t)))
  {
    StepCommitTables(h, s, t);
    StepCommitWriters(h, s, t);
    StepCommitWinner(h, s, t);
  }

  /** The unique-violation branch is dead: the version check has caught every conflict. */
  lemma NoViolation(h: CoinId -> int, s: Db, t: nat)
    requires Inv(h, s) && Enabled(h, s, InsertEvent(t))
    ensures var w := s.writers[t];
            var b := w.call.events[|w.rows|].base;
            !HasKey(s.log, b.aggId, b.version) && !HasKey(w.rows, b.aggId, b.version)
  {
    var w := s.writers[t];
    assert WriterOk(s, w);
    KeysAreCounts(s.log, w.call.aggId, w.call.expected + 1 + |w.rows|);
  }

  /** Steps that only advance the sequences leave other transactions in order. */
  lemma WriterFrame(s: Db, s': Db, v: Writer)
    requires |s.outbox| == |s.log| && WriterOk(s, v)
    requires s'.log == s.log && s'.outbox == s.outbox && s.nextId <= s'.nextId && s.nextOutboxId <= s'.nextOutboxId
    ensures WriterOk(s', v)
  {
  }

  /** The step of writer t replaces its own record by w and touches no table. */
  lemma StepOwn(h: CoinId -> int, s: Db, s': Db, t: nat, w: Writer)
    requires Inv(h, s)
    requires s'.log == s.log && s'.outbox == s.outbox && s.nextId <= s'.nextId && s.nextOutboxId <= s'.nextOutboxId
    requires s'.writers == s.writers[t := w]
    requires WriterOk(s', w)
    requires w.Done? ==> !w.outcome.Committed?
    requires Holds(w) ==> forall u :: u in s.writers && u != t && Holds(s.writers[u]) ==> h(s.writers[u].call.aggId) != h(w.call.aggId)
    requires w.Inserting? ==> forall u :: u in s.writers && u != t && s.writers[u].Inserting? ==> Apart(w, s.writers[u]) && Apart(s.writers[u], w)
    ensures Inv(h, s')
  {
    forall u | u in s'.writers ensures WriterOk(s', s'.writers[u]) {
      if u != t {
        assert WriterOk(s, s.writers[u]);
        WriterFrame(s, s', s.writers[u]);
      }
    }
  }

  lemma OwnRow(s: Db, s': Db, w: Writer, r: Row)
    requires Paired(s) && w.Inserting? && WriterOk(s, w) && |w.mail| == |w.rows| < |w.call.events|
    requires r == Row(s.nextId, w.call.events[|w.rows|].base)
    requires s' == s.(nextId := s.nextId + 1, writers := s'.writers)
    ensures WriterOk(s', w.(rows := w.rows + [r]))
  {
    var w' := w.(rows := w.rows + [r]);
    assert Staged(s', w');
    assert Later(s', w');
  }

  lemma StepInsertEvent(h: CoinId -> int, s: Db, t: nat)
    requires Inv(h, s) && Enabled(h, s, InsertEvent(t))
    ensures Inv(h, Do(h, s, InsertEvent(t)))
  {
    NoViolation(h, s, t);
    var s' := Do(h, s, InsertEvent(t));
    var w, w' := s.writers[t], s'.writers[t];
    assert WriterOk(s, w);
    OwnRow(s, s', w, w'.rows[|w.rows|]);
    forall u | u in s.writers && u != t && s.writers[u].Inserting?
      ensures Apart(w', s.writers[u]) && Apart(s.writers[u], w')
    {
      assert Apart(w, s.writers[u]) && Apart(s.writers[u], w) && WriterOk(s, s.writers[u]);
    }
    StepOwn(h, s, s', t, w');
  }

  lemma OwnMail(s: Db, s': Db, w: Writer, m: OutboxRow)
    requires Paired(s) && w.Inserting? && WriterOk(s, w) && |w.mail| < |w.rows|
    requires m == OutboxRow(s.nextOutboxId, w.rows[|w.mail|].id, Serialize(w.call.events[|w.mail|].base))
    requires s' == s.(nextOutboxId := s.nextOutboxId + 1, writers := s'.writers)
    ensures WriterOk(s', w.(mail := w.mail + [m]))
  {
    var w' := w.(mail := w.mail + [m]);
    assert Staged(s', w');
    assert Later(s', w');
  }

  lemma StepInsertOutbox(h: CoinId -> int, s: Db, t: nat)
    requires Inv(h, s) && Enabled(h, s, InsertOutbox(t))
    ensures Inv(h, Do(h, s, InsertOutbox(t)))
  {
    var s' := Do(h, s, InsertOutbox(t));
    var w, w' := s.writers[t], s'.writers[t];
    assert WriterOk(s, w);
    OwnMail(s, s', w, w'.mail[|w.mail|]);
    forall u | u in s.writers && u != t && s.writers[u].Inserting?
      ensures Apart(w', s.writers[u]) && Apart(s.writers[u], w')
    {
      assert Apart(w, s.writers[u]) && Apart(s.writers[u], w) && WriterOk(s, s.writers[u]);
    }
    StepOwn(h, s, s', t, w');
  }

  /** ProcessMarketData's call is well formed, and every event it appends is a readable market
      event for its own coin. */
  lemma PrepareWellFormed(log: seq<Row>, data: MarketData, now: int)
    requires Numbered(log) && Prepare(log, data, now).Some?
    ensures var c := Prepare(log, data, now).value;
            && WellFormed(c) && c.aggId == data.id && |c.events| == 1
            && c.expected == Count(log, data.id)
            && Readable(c.events[0].base)
  {
    LatestIsCount(log, data.id);
  }

  /** Readable market events whose payload names the aggregate they are filed under. */
  predicate Readable(b: Base) {
    Decodable(b) && PayloadOf(b).coinId == b.aggId
  }

  lemma StepOther(h: CoinId -> int, s: Db, a: Action)
    requires Inv(h, s) && Enabled(h, s, a) && WellFormedAction(a)
    requires !a.Commit? && !a.InsertEvent? && !a.InsertOutbox?
    ensures Inv(h, Do(h, s, a))
  {
    var s' := Do(h, s, a);
    if a.Hydrate? {
      PrepareWellFormed(s.log, a.data, a.now);
    }
    if a.Check? {
      LatestIsCount(s.log, s.writers[a.t].call.aggId);
    }
    assert a.t in s.writers ==> WriterOk(s, s.writers[a.t]);
    StepOwn(h, s, s', a.t, s'.writers[a.t]);
  }

  lemma StepKeepsInv(h: CoinId -> int, s: Db, a: Action)
    requires Inv(h, s) && Enabled(h, s, a) && WellFormedAction(a)
    ensures Inv(h, Do(h, s, a))
  {
    match a {
      case Commit(t) => StepCommit(h, s, t);
      case InsertEvent(t) => StepInsertEvent(h, s, t);
      case InsertOutbox(t) => StepInsertOutbox(h, s, t);
      case _ => StepOther(h, s, a);
    }
  }

  lemma {:induction false} RunKeepsInv(h: CoinId -> int, s: Db, acts: seq<Action>, s': Db)
    requires Inv(h, s) && Run(h, s, acts, s')
    requires forall i :: 0 <= i < |acts| ==> WellFormedAction(acts[i])
    ensures Inv(h, s')
    decreases |acts|
  {
    if acts != [] {
      StepKeepsInv(h, s, acts[0]);
      RunKeepsInv(h, Do(h, s, acts[0]), acts[1..], s');
    }
  }
}
