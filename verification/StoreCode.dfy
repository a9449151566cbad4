/** Store and Processor as imperative code.  `db` is the PostgreSQL server; between any two
    statements Interfere lets every other writer take any number of steps.  `checked` says whether
    all callers number their events (WellFormed); without it callers may pass anything. */
module StoreCode {
  import opened Market
  import opened EventStore
  import opened StoreTheorems
  import Unchecked
  import Ordering

  /** What the surroundings of a call do: which statements succeed, how many rounds a lock is waited
      for, and what the other writers do at each interruption (and round of waiting). */
  datatype Env = Env(fate: nat -> bool, patience: nat, others: (nat, nat) -> seq<Action>)

  predicate Theirs(checked: bool, h: CoinId -> int, s: Db, t: nat, a: Action) {
    a.t != t && (checked ==> WellFormedAction(a)) && Enabled(h, s, a)
  }

  /** Every writer but t follows a schedule, passing over steps that are not theirs to take. */
  function Others(checked: bool, h: CoinId -> int, t: nat, s: Db, schedule: seq<Action>): Db
    decreases |schedule|
  {
    if schedule == [] then s
    else Others(checked, h, t, if Theirs(checked, h, s, t, schedule[0]) then Do(h, s, schedule[0]) else s, schedule[1..])
  }

  /** Every run of the others is a schedule. */
  lemma {:induction false} RunsAreSchedules(checked: bool, h: CoinId -> int, t: nat, s: Db, acts: seq<Action>, s': Db)
    requires Run(h, s, acts, s') && forall i :: 0 <= i < |acts| ==> acts[i].t != t && (checked ==> WellFormedAction(acts[i]))
    ensures Others(checked, h, t, s, acts) == s'
    decreases |acts|
  {
    if acts != [] {
      RunsAreSchedules(checked, h, t, Do(h, s, acts[0]), acts[1..], s');
    }
  }

  ghost predicate Undisturbed(t: nat, s: Db, s': Db) {
    && (t in s'.writers <==> t in s.writers) && (t in s.writers ==> s'.writers[t] == s.writers[t])
    && s.log <= s'.log
  }

  /** Steps of others leave writer t's transaction alone, and the log only grows. */
  lemma {:induction false} OthersKeep(checked: bool, h: CoinId -> int, t: nat, s: Db, schedule: seq<Action>)
    requires ReachableAs(checked, h, s)
    ensures ReachableAs(checked, h, Others(checked, h, t, s, schedule)) && Undisturbed(t, s, Others(checked, h, t, s, schedule))
    decreases |schedule|
  {
    if schedule != [] {
      var a := schedule[0];
      if Theirs(checked, h, s, t, a) {
        ReachableAsStep(checked, h, s, a);
        OthersKeep(checked, h, t, Do(h, s, a), schedule[1..]);
      } else {
        OthersKeep(checked, h, t, s, schedule[1..]);
      }
    }
  }

  // ---------- waiting, and calls that nobody disturbs ----------

  /** The database after n + 1 rounds of waiting at this point. */
  function Waited(checked: bool, h: CoinId -> int, t: nat, s: Db, env: Env, point: nat, n: nat): Db {
    Others(checked, h, t, if n == 0 then s else Waited(checked, h, t, s, env, point, n - 1), env.others(point, n))
  }

  /** Every statement succeeds and no other writer moves. */
  ghost predicate Calm(env: Env) { (forall k :: env.fate(k)) && forall point, n :: env.others(point, n) == [] }

  predicate MayLock(h: CoinId -> int, s: Db, t: nat) { t in s.writers && LockFree(h, s, t) }

  /** The advisory lock is still held by another writer when all rounds of waiting are over. */
  ghost predicate LockTimesOut(checked: bool, h: CoinId -> int, t: nat, s: Db, env: Env) {
    !MayLock(h, Waited(checked, h, t, s, env, 0, env.patience), t)
  }

  /** So is this key, for which an insert has been waiting at this point. */
  ghost predicate KeyTimesOut(checked: bool, h: CoinId -> int, t: nat, s: Db, env: Env, point: nat, b: Base) {
    !KeyFree(Waited(checked, h, t, s, env, point, env.patience), t, b)
  }

  /** In some state on the way an insert of the call started to wait for its key in vain. */
  ghost predicate SomeKeyTimesOut(checked: bool, h: CoinId -> int, t: nat, c: Call, env: Env) {
    exists s, i :: 0 <= i < |c.events| && ReachableAs(checked, h, s) && KeyTimesOut(checked, h, t, s, env, 2 + 2 * i, c.events[i].base)
  }

  ghost predicate SomeStatementFails(env: Env, n: nat) { exists k :: 0 <= k <= n && !env.fate(k) }

  /** No open transaction has an uncommitted row with the key of one of the events. */
  ghost predicate KeysFree(s: Db, t: nat, c: Call) {
    forall k :: 0 <= k < |c.events| ==> KeyFree(s, t, c.events[k].base)
  }

  /** Only writer t's own state has changed. */
  ghost predicate OnlyMine(t: nat, s: Db, s': Db) {
    && s'.log == s.log && s'.outbox == s.outbox
    && forall u :: u != t ==> (u in s'.writers <==> u in s.writers) && (u in s.writers ==> s'.writers[u] == s.writers[u])
  }

  lemma OnlyMineKeeps(t: nat, s: Db, s': Db, c: Call)
    requires OnlyMine(t, s, s') && KeysFree(s, t, c)
    ensures KeysFree(s', t, c)
  {
  }

  lemma CountGrows(p: seq<Row>, q: seq<Row>, a: CoinId)
    requires p <= q
    ensures Count(p, a) <= Count(q, a)
  {
    assert q == p + q[|p|..];
    CountConcat(p, q[|p|..], a);
  }

  /** Under the lock no insert ever waits for another transaction's uncommitted key. */
  lemma InsertNeverWaits(h: CoinId -> int, s: Db, t: nat, c: Call, rows: seq<Row>, mail: seq<OutboxRow>)
    requires Reachable(h, s) && t in s.writers && s.writers[t] == Inserting(c, rows, mail)
    requires |rows| == |mail| < |c.events|
    ensures Enabled(h, s, InsertEvent(t))
    ensures Do(h, s, InsertEvent(t)).writers[t] == Inserting(c, rows + [Row(s.nextId, c.events[|rows|].base)], mail)
  {
    var acts :| WellFormedRun(h, acts, s);
    RunKeepsInv(h, EMPTY, acts, s);
    KeyFreeUnderLock(h, s, t);
    NoViolation(h, s, t);
  }

  lemma KeyFreeUnderLock(h: CoinId -> int, s: Db, t: nat)
    requires Inv(h, s) && t in s.writers && s.writers[t].Inserting? && |s.writers[t].rows| < |s.writers[t].call.events|
    ensures KeyFree(s, t, s.writers[t].call.events[|s.writers[t].rows|].base)
  {
    assert WriterOk(s, s.writers[t]);
    forall u | u in s.writers && u != t && s.writers[u].Inserting?
      ensures forall k :: 0 <= k < |s.writers[u].rows| ==> s.writers[u].rows[k].base.aggId != s.writers[t].call.aggId
    {
      assert WriterOk(s, s.writers[u]);
    }
  }

  /** Where all callers number their events, a call passes the version check exactly when the
      aggregate has the expected number of rows. */
  lemma CheckCompares(h: CoinId -> int, s: Db, t: nat, c: Call)
    requires Reachable(h, s) && t in s.writers && s.writers[t] == Locked(c)
    ensures Do(h, s, Check(t)).writers[t] == if Count(s.log, c.aggId) == c.expected then Inserting(c, [], []) else Done(c, Conflict)
  {
    var acts :| WellFormedRun(h, acts, s);
    RunWriters(h, acts, s);
    assert WriterOk(s, s.writers[t]);
    LatestIsCount(s.log, c.aggId);
  }

  datatype AppendResult = Appended | ConcurrencyConflict | StoreError(message: string)

  datatype InsertResult = Inserted | Violated | Lost

  /** The call's events are in the log consecutively, as one block. */
  ghost predicate FiledAt(log: seq<Row>, at: nat, events: seq<Event>) {
    at + |events| <= |log| && forall k :: 0 <= k < |events| ==> log[at + k].base == events[k].base
  }

  /** One of the call's events cannot be inserted: its key is committed, or repeats in the call. */
  ghost predicate Clashes(log: seq<Row>, c: Call) {
    exists k :: 0 <= k < |c.events| && Taken(log, c, k)
  }

  /** Event k cannot be inserted: its key is committed, or repeats in the call. */
  ghost predicate Taken(log: seq<Row>, c: Call, k: nat)
    requires k < |c.events|
  {
    HasKey(log, c.events[k].base.aggId, c.events[k].base.version) || Unchecked.RepeatedInCall(c, k)
  }

  /** The transaction has staged the first n events, each with its outbox row. */
  ghost predicate InsertedUpTo(w: Writer, c: Call, n: nat) {
    && w.Inserting? && w.call == c && |w.rows| == |w.mail| == n <= |c.events|
    && (forall k :: 0 <= k < n ==> w.rows[k].base == c.events[k].base)
    && (forall k :: 0 <= k < n ==> w.mail[k].eventId == w.rows[k].id && w.mail[k].payload == Serialize(c.events[k].base))
  }

  /** Its next row is staged, without the outbox row. */
  ghost predicate HalfInserted(w: Writer, c: Call, n: nat) {
    && w.Inserting? && w.call == c && |w.rows| == n + 1 == |w.mail| + 1 <= |c.events|
    && (forall k :: 0 <= k <= n ==> w.rows[k].base == c.events[k].base)
    && (forall k :: 0 <= k < n ==> w.mail[k].eventId == w.rows[k].id && w.mail[k].payload == Serialize(c.events[k].base))
  }

  /** The call's rows are the last ones of the log. */
  ghost predicate CommittedLast(s: Db, t: nat, c: Call) {
    && t in s.writers && |s.log| >= |c.events| && s.writers[t] == Done(c, Committed(|s.log| - |c.events|))
    && FiledAt(s.log, |s.log| - |c.events|, c.events)
  }

  lemma CommitExtends(h: CoinId -> int, s: Db, t: nat, c: Call)
    requires Enabled(h, s, Commit(t)) && InsertedUpTo(s.writers[t], c, |c.events|)
    ensures Extended(s.log, s.outbox, Do(h, s, Commit(t)), c) && CommittedLast(Do(h, s, Commit(t)), t, c)
  {
  }

  /** The log has gained exactly the call's events, and the outbox one row for each. */
  ghost predicate Extended(log: seq<Row>, outbox: seq<OutboxRow>, s: Db, c: Call) {
    && |s.log| == |log| + |c.events| && log <= s.log && FiledAt(s.log, |log|, c.events)
    && |s.outbox| == |outbox| + |c.events| && outbox <= s.outbox
    && forall k :: 0 <= k < |c.events| ==>
         s.outbox[|outbox| + k].eventId == s.log[|log| + k].id && s.outbox[|outbox| + k].payload == Serialize(c.events[k].base)
  }

  ghost predicate Unchanged(log: seq<Row>, outbox: seq<OutboxRow>, s: Db) { s.log == log && s.outbox == outbox }

  /** The events have gone in, unless one of them clashes. */
  ghost predicate Written(log: seq<Row>, outbox: seq<OutboxRow>, s: Db, c: Call, r: AppendResult) {
    if Clashes(log, c) then r.ConcurrencyConflict? && Unchanged(log, outbox, s) else r.Appended? && Extended(log, outbox, s, c)
  }

  /** What an append comes to when nothing is in its way but the log itself. */
  ghost predicate Served(log: seq<Row>, outbox: seq<OutboxRow>, s: Db, c: Call, r: AppendResult) {
    if c.expected < 0 || MaxVersion(log, c.aggId) == c.expected then Written(log, outbox, s, c, r)
    else r.ConcurrencyConflict? && Unchanged(log, outbox, s)
  }

  /** The first n inserts have changed nothing but the writer's own state. */
  ghost predicate InsertedCalmly(s: Db, s': Db, t: nat, c: Call, n: nat) {
    OnlyMine(t, s, s') && KeysFree(s', t, c) && n <= |c.events| && forall k :: 0 <= k < n ==> !Taken(s.log, c, k)
  }

  lemma CalmInsert(s: Db, m: Db, s': Db, t: nat, c: Call, n: nat)
    requires InsertedCalmly(s, m, t, c, n) && OnlyMine(t, m, s') && n < |c.events| && !Taken(m.log, c, n)
    ensures InsertedCalmly(s, s', t, c, n + 1)
  {
    OnlyMineKeeps(t, m, s', c);
  }

  class Store {
    var db: Db
    const lockKey: CoinId -> int
    const checked: bool

    ghost predicate Mine(t: nat, w: Writer)
      reads this
    {
      ReachableAs(checked, lockKey, db) && t in db.writers && db.writers[t] == w
    }

    /** The other writers run. */
    method Interfere(t: nat, schedule: seq<Action>)
      requires ReachableAs(checked, lockKey, db)
      modifies this
      ensures ReachableAs(checked, lockKey, db) && Undisturbed(t, old(db), db)
      ensures db == Others(checked, lockKey, t, old(db), schedule)
    {
      OthersKeep(checked, lockKey, t, db, schedule);
      db := Others(checked, lockKey, t, db, schedule);
    }

    /** One round trip of writer a.t. */
    method Exec(a: Action)
      requires ReachableAs(checked, lockKey, db) && Enabled(lockKey, db, a) && (checked ==> WellFormedAction(a))
      modifies this
      ensures db == Do(lockKey, old(db), a) && ReachableAs(checked, lockKey, db)
    {
      ReachableAsStep(checked, lockKey, db, a);
      db := Do(lockKey, db, a);
    }

    method Rollback(t: nat, ghost w: Writer)
      requires Mine(t, w) && !w.Done?
      modifies this
      ensures Mine(t, Done(w.call, Failed)) && db.log == old(db).log
    {
      Exec(Fail(t));
    }

    /** pg_advisory_xact_lock waits until the key is free, or all rounds are over. */
    method AwaitLock(t: nat, c: Call, env: Env)
      requires Mine(t, Begun(c))
      modifies this
      ensures Mine(t, Begun(c)) && old(db).log <= db.log
      ensures LockFree(lockKey, db, t) || LockTimesOut(checked, lockKey, t, old(db), env)
      ensures Calm(env) && LockFree(lockKey, old(db), t) ==> db == old(db)
    {
      Interfere(t, env.others(0, 0));
      var tries := 0;
      while tries < env.patience && !LockFree(lockKey, db, t)
        invariant Mine(t, Begun(c)) && old(db).log <= db.log && tries <= env.patience
        invariant db == Waited(checked, lockKey, t, old(db), env, 0, tries)
        invariant Calm(env) && LockFree(lockKey, old(db), t) ==> db == old(db)
      {
        Interfere(t, env.others(0, 1 + tries));
        tries := tries + 1;
      }
    }

    /** Begin, and the lock. */
    method BeginAndLock(t: nat, c: Call, env: Env) returns (ok: bool)
      requires Mine(t, Ready(c))
      modifies this
      ensures Mine(t, if ok then Locked(c) else Done(c, Failed)) && old(db).log <= db.log
      ensures !ok ==> !env.fate(0) || !env.fate(1) || LockTimesOut(checked, lockKey, t, Set(old(db), t, Begun(c)), env)
      ensures Calm(env) && LockFree(lockKey, old(db), t) ==> ok && OnlyMine(t, old(db), db)
    {
      if !env.fate(0) {
        Rollback(t, Ready(c));
        return false;
      }
      Exec(Begin(t));
      AwaitLock(t, c, env);
      if !env.fate(1) || !LockFree(lockKey, db, t) {
        Rollback(t, Begun(c));
        return false;
      }
      Exec(Lock(t));
      return true;
    }

    /** Reads the current version and compares it with the expected one, unless that is negative. */
    method CheckVersion(t: nat, c: Call, env: Env) returns (ok: bool)
      requires Mine(t, Locked(c))
      modifies this
      ensures old(db).log <= db.log && t in db.writers && Mine(t, db.writers[t])
      ensures ok <==> env.fate(2) && (c.expected < 0 || MaxVersion(db.log, c.aggId) == c.expected)
      ensures db.writers[t] == if ok then Inserting(c, [], []) else Done(c, if env.fate(2) then Conflict else Failed)
      ensures Calm(env) ==> OnlyMine(t, old(db), db)
    {
      Interfere(t, env.others(1, 0));
      if !env.fate(2) {
        Rollback(t, Locked(c));
        return false;
      }
      Exec(Check(t));
      ok := db.writers[t].Inserting?;
    }

    /** An INSERT waits for an uncommitted row with its key, and gives up after some rounds. */
    method AwaitKey(t: nat, point: nat, b: Base, env: Env, ghost w: Writer)
      requires Mine(t, w)
      modifies this
      ensures Mine(t, w) && old(db).log <= db.log
      ensures KeyFree(db, t, b) || KeyTimesOut(checked, lockKey, t, old(db), env, point, b)
      ensures Calm(env) && KeyFree(old(db), t, b) ==> db == old(db)
    {
      Interfere(t, env.others(point, 0));
      var tries := 0;
      while tries < env.patience && !KeyFree(db, t, b)
        invariant Mine(t, w) && old(db).log <= db.log && tries <= env.patience
        invariant db == Waited(checked, lockKey, t, old(db), env, point, tries)
        invariant Calm(env) && KeyFree(old(db), t, b) ==> db == old(db)
      {
        Interfere(t, env.others(point, 1 + tries));
        tries := tries + 1;
      }
    }

    /** The INSERT of event i once its key is free: inserted, or refused because its key is taken. */
    method TryInsert(t: nat, c: Call, i: nat) returns (r: InsertResult)
      requires i < |c.events| && t in db.writers && Mine(t, db.writers[t]) && InsertedUpTo(db.writers[t], c, i)
      requires KeyFree(db, t, c.events[i].base)
      modifies this
      ensures t in db.writers && Mine(t, db.writers[t]) && OnlyMine(t, old(db), db)
      ensures r == if Taken(old(db).log, c, i) then Violated else Inserted
      ensures r.Inserted? ==> HalfInserted(db.writers[t], c, i)
      ensures r.Violated? ==> !checked && db.writers[t] == Done(c, UniqueViolation) && Clashes(db.log, c)
    {
      InsertOutcome(checked, lockKey, db, t, c, i);
      Exec(InsertEvent(t));
      r := if db.writers[t].Inserting? then Inserted else Violated;
    }

    /** The INSERT of event i, with the wait for its key. */
    method InsertOne(t: nat, c: Call, i: nat, env: Env) returns (r: InsertResult)
      requires i < |c.events| && t in db.writers && Mine(t, db.writers[t]) && InsertedUpTo(db.writers[t], c, i)
      modifies this
      ensures old(db).log <= db.log && t in db.writers && Mine(t, db.writers[t])
      ensures r.Inserted? ==> HalfInserted(db.writers[t], c, i)
      ensures r.Violated? ==> !checked && db.writers[t] == Done(c, UniqueViolation) && Clashes(db.log, c)
      ensures r.Lost? ==> db.writers[t] == Done(c, Failed)
      ensures r.Lost? ==> !env.fate(3 + 2 * i) || KeyTimesOut(checked, lockKey, t, old(db), env, 2 + 2 * i, c.events[i].base)
      ensures Calm(env) && KeyFree(old(db), t, c.events[i].base) ==> OnlyMine(t, old(db), db) && r == if Taken(old(db).log, c, i) then Violated else Inserted
    {
      AwaitKey(t, 2 + 2 * i, c.events[i].base, env, db.writers[t]);
      if !env.fate(3 + 2 * i) || !KeyFree(db, t, c.events[i].base) {
        Rollback(t, db.writers[t]);
        return Lost;
      }
      r := TryInsert(t, c, i);
    }

    /** The INSERT of its outbox row. */
    method InsertMail(t: nat, c: Call, i: nat, env: Env) returns (ok: bool)
      requires i < |c.events| && t in db.writers && Mine(t, db.writers[t]) && HalfInserted(db.writers[t], c, i)
      modifies this
      ensures old(db).log <= db.log && t in db.writers && Mine(t, db.writers[t]) && ok == env.fate(4 + 2 * i)
      ensures if ok then InsertedUpTo(db.writers[t], c, i + 1) else db.writers[t] == Done(c, Failed)
      ensures Calm(env) ==> OnlyMine(t, old(db), db)
    {
      Interfere(t, env.others(3 + 2 * i, 0));
      ok := env.fate(4 + 2 * i);
      if ok {
        MailStep(lockKey, db, t, c, i);
        Exec(InsertOutbox(t));
      } else {
        Rollback(t, db.writers[t]);
      }
    }

    /** One round of the loop: event i and its outbox row. */
    method InsertBoth(t: nat, c: Call, i: nat, env: Env) returns (r: InsertResult)
      requires i < |c.events| && t in db.writers && Mine(t, db.writers[t]) && InsertedUpTo(db.writers[t], c, i)
      modifies this
      ensures old(db).log <= db.log && t in db.writers && Mine(t, db.writers[t])
      ensures r.Inserted? ==> InsertedUpTo(db.writers[t], c, i + 1)
      ensures r.Violated? ==> !checked && db.writers[t] == Done(c, UniqueViolation) && Clashes(db.log, c)
      ensures r.Lost? ==> db.writers[t] == Done(c, Failed)
      ensures r.Lost? ==> SomeStatementFails(env, 3 + 2 * |c.events|) || SomeKeyTimesOut(checked, lockKey, t, c, env)
      ensures Calm(env) && KeyFree(old(db), t, c.events[i].base) ==> OnlyMine(t, old(db), db) && r == if Taken(old(db).log, c, i) then Violated else Inserted
    {
      r := InsertOne(t, c, i, env);
      if r.Inserted? {
        var ok := InsertMail(t, c, i, env);
        if !ok {
          r := Lost;
        }
      }
    }

    /** The loop that inserts each event and its outbox row. */
    method InsertAll(t: nat, c: Call, env: Env) returns (r: InsertResult)
      requires Mine(t, Inserting(c, [], []))
      modifies this
      ensures old(db).log <= db.log && t in db.writers && Mine(t, db.writers[t])
      ensures r.Inserted? ==> InsertedUpTo(db.writers[t], c, |c.events|) && Enabled(lockKey, db, Commit(t))
      ensures r.Violated? ==> !checked && db.writers[t] == Done(c, UniqueViolation) && Clashes(db.log, c)
      ensures r.Lost? ==> db.writers[t] == Done(c, Failed)
      ensures r.Lost? ==> SomeStatementFails(env, 3 + 2 * |c.events|) || SomeKeyTimesOut(checked, lockKey, t, c, env)
      ensures Calm(env) && KeysFree(old(db), t, c) ==> OnlyMine(t, old(db), db) && r == if Clashes(old(db).log, c) then Violated else Inserted
    {
      r := Inserted;
      var i := 0;
      while i < |c.events|
        invariant 0 <= i <= |c.events|
        invariant t in db.writers && Mine(t, db.writers[t]) && old(db).log <= db.log
        invariant InsertedUpTo(db.writers[t], c, i) && r.Inserted?
        invariant Calm(env) && KeysFree(old(db), t, c) ==> InsertedCalmly(old(db), db, t, c, i)
      {
        ghost var before := db;
        r := InsertBoth(t, c, i, env);
        if !r.Inserted? {
          return;
        }
        if Calm(env) && KeysFree(old(db), t, c) {
          CalmInsert(old(db), before, db, t, c, i);
        }
        i := i + 1;
      }
    }

    /** The call's rows become visible at the end of the log, or the transaction is lost. */
    method CommitAll(t: nat, c: Call, env: Env) returns (ok: bool)
      requires t in db.writers && Mine(t, db.writers[t]) && InsertedUpTo(db.writers[t], c, |c.events|) && Enabled(lockKey, db, Commit(t))
      modifies this
      ensures old(db).log <= db.log && t in db.writers && Mine(t, db.writers[t])
      ensures ok == env.fate(3 + 2 * |c.events|)
      ensures ok ==> CommittedLast(db, t, c)
      ensures !ok ==> db.writers[t] == Done(c, Failed)
      ensures Calm(env) ==> Extended(old(db).log, old(db).outbox, db, c)
    {
      Interfere(t, env.others(2 + 2 * |c.events|, 0));
      ok := env.fate(3 + 2 * |c.events|);
      if ok {
        CommitExtends(lockKey, db, t, c);
        Exec(Commit(t));
      } else {
        Rollback(t, db.writers[t]);
      }
    }

    /** AppendEvents under interference, for any call.  On success the events stand in the log as one
        block; a conflict means that a non-negative expected version is not the aggregate's, or that
        an event's key is taken; any other error leaves nothing behind.  Where all callers number
        their events, the block stands right after the expected version and the conflict is always
        found by the version check. */
    method AppendEvents(t: nat, aggId: CoinId, expected: int, events: seq<Event>, env: Env) returns (r: AppendResult)
      requires events != [] ==> Mine(t, Ready(Call(aggId, expected, events)))
      modifies this
      ensures events == [] ==> r == Appended && db == old(db)
      ensures events != [] ==>
                && ReachableAs(checked, lockKey, db) && old(db).log <= db.log
                && t in db.writers && db.writers[t].Done? && db.writers[t].call == Call(aggId, expected, events)
      ensures events != [] && r.Appended? ==> db.writers[t].outcome.Committed? && FiledAt(db.log, db.writers[t].outcome.at, events)
      ensures events != [] && r.Appended? && checked ==> Count(db.log[..db.writers[t].outcome.at], aggId) == expected
      ensures r.ConcurrencyConflict? ==>
                || (db.writers[t].outcome.Conflict? && expected >= 0 && MaxVersion(db.log, aggId) != expected)
                || (db.writers[t].outcome.UniqueViolation? && Clashes(db.log, Call(aggId, expected, events)))
      ensures r.ConcurrencyConflict? && checked ==>
                db.writers[t].outcome.Conflict? && (Count(old(db).log, aggId) >= expected ==> Count(db.log, aggId) > expected)
      ensures r.StoreError? ==> db.writers[t].outcome.Failed?
      ensures r.StoreError? ==> Unlucky(old(db), t, Call(aggId, expected, events), env)
      ensures events != [] && Lucky(old(db), t, Call(aggId, expected, events), env) ==> Served(old(db).log, old(db).outbox, db, Call(aggId, expected, events), r)
    {
      if |events| == 0 {
        return Appended;
      }
      var c := Call(aggId, expected, events);
      var locked := BeginAndLock(t, c, env);
      if !locked {
        return StoreError("failed to acquire advisory lock");
      }
      var current := CheckVersion(t, c, env);
      if !current {
        CountGrows(old(db).log, db.log, aggId);
        if checked {
          CountIsMax(lockKey, db, aggId);
        }
        return if db.writers[t].outcome.Conflict? then ConcurrencyConflict else StoreError("failed to query current version");
      }
      r := InsertAndCommit(t, c, env);
    }

    /** A statement failed, or the lock or a key was held by others in every round of waiting. */
    ghost predicate Unlucky(s: Db, t: nat, c: Call, env: Env)
    {
      || SomeStatementFails(env, 3 + 2 * |c.events|) || SomeKeyTimesOut(checked, lockKey, t, c, env)
      || LockTimesOut(checked, lockKey, t, Set(s, t, Begun(c)), env)
    }

    /** Nothing fails, nobody moves, and nobody holds the lock or a key. */
    ghost predicate Lucky(s: Db, t: nat, c: Call, env: Env)
    {
      Calm(env) && t in s.writers && LockFree(lockKey, s, t) && KeysFree(s, t, c)
    }

    /** The rest of AppendEvents once the version check has passed. */
    method InsertAndCommit(t: nat, c: Call, env: Env) returns (r: AppendResult)
      requires Mine(t, Inserting(c, [], []))
      modifies this
      ensures old(db).log <= db.log && t in db.writers && Mine(t, db.writers[t]) && db.writers[t].Done? && db.writers[t].call == c
      ensures r.Appended? ==> db.writers[t].outcome.Committed? && FiledAt(db.log, db.writers[t].outcome.at, c.events)
      ensures r.Appended? && checked ==> Count(db.log[..db.writers[t].outcome.at], c.aggId) == c.expected
      ensures r.ConcurrencyConflict? ==> !checked && db.writers[t].outcome.UniqueViolation? && Clashes(db.log, c)
      ensures r.StoreError? ==> db.writers[t].outcome.Failed?
      ensures r.StoreError? ==> SomeStatementFails(env, 3 + 2 * |c.events|) || SomeKeyTimesOut(checked, lockKey, t, c, env)
      ensures Calm(env) && KeysFree(old(db), t, c) ==> Written(old(db).log, old(db).outbox, db, c, r)
    {
      var inserted := InsertAll(t, c, env);
      if !inserted.Inserted? {
        return if inserted.Violated? then ConcurrencyConflict else StoreError("failed to insert event");
      }
      var committed := CommitAll(t, c, env);
      if !committed {
        return StoreError("failed to commit transaction");
      }
      AppendedAt(checked, lockKey, db, t);
      r := Appended;
    }

    /** LoadEvents: rows of one aggregate by version, decoded one by one. */
    method LoadEvents(aggId: CoinId) returns (r: Result<seq<Event>>)
      ensures r == Decoded(LoadRows(db.log, aggId))
      ensures r.Ok? <==> AllDecodable(db.log, aggId)
    {
      r := DecodeRows(LoadRows(db.log, aggId));
      LoadedIff(db.log, aggId);
    }

    /** GetLatestEvent: no row is not an error. */
    method GetLatestEvent(aggId: CoinId) returns (r: Result<Option<Event>>)
      ensures match LatestRow(db.log, aggId)
              case None => r == Ok(None)
              case Some(row) => if Decodable(row.base) then r == Ok(Some(Decode(row.base).value)) else r.Err?
    {
      match LatestRow(db.log, aggId) {
        case None => r := Ok(None);
        case Some(row) =>
          match Decode(row.base) {
            case Ok(e) => r := Ok(Some(e));
            case Err(m) => r := Err(m);
          }
      }
    }
  }

  ghost predicate AllDecodable(log: seq<Row>, aggId: CoinId) {
    forall row :: row in log && row.base.aggId == aggId ==> Decodable(row.base)
  }

  lemma LoadedIff(log: seq<Row>, aggId: CoinId)
    ensures Decoded(LoadRows(log, aggId)).Ok? <==> AllDecodable(log, aggId)
  {
    Ordering.SameMembers(LoadRows(log, aggId), Ordering.Where(OfAggregate(aggId), log));
    DecodedIff(LoadRows(log, aggId));
  }

  /** The row loop: stops at the first row that does not decode. */
  method DecodeRows(rows: seq<Row>) returns (r: Result<seq<Event>>)
    ensures r == Decoded(rows)
  {
    var events: seq<Event> := [];
    var i := 0;
    while i < |rows|
      invariant 0 <= i <= |rows| && Decoded(rows[..i]) == Ok(events)
    {
      assert rows[..i + 1][..i] == rows[..i];
      match Decode(rows[i].base) {
        case Err(m) =>
          DecodedStops(rows, i + 1);
          return Err(m);
        case Ok(e) =>
          events := events + [e];
      }
      i := i + 1;
    }
    assert rows[..|rows|] == rows;
    r := Ok(events);
  }

  lemma {:induction false} DecodedIff(rows: seq<Row>)
    ensures Decoded(rows).Ok? <==> forall row :: row in rows ==> Decodable(row.base)
  {
    if rows != [] {
      DecodedIff(rows[..|rows| - 1]);
      assert rows == rows[..|rows| - 1] + [rows[|rows| - 1]];
    }
  }

  lemma {:induction false} DecodedStops(rows: seq<Row>, n: nat)
    requires n <= |rows| && Decoded(rows[..n]).Err?
    ensures Decoded(rows) == Err(Decoded(rows[..n]).error)
  {
    if n == |rows| {
      assert rows[..n] == rows;
    } else {
      var p := rows[..|rows| - 1];
      assert p[..n] == rows[..n];
      DecodedStops(p, n);
    }
  }

  lemma CountIsMax(h: CoinId -> int, s: Db, a: CoinId)
    requires ReachableAs(true, h, s)
    ensures MaxVersion(s.log, a) == Count(s.log, a)
  {
    CheckedIsReachable(h, s);
    ReachableTables(h, s);
    LatestIsCount(s.log, a);
  }

  lemma TakenExactly(log: seq<Row>, s: Db, t: nat, c: Call, i: nat)
    requires t in s.writers && i < |c.events| && InsertedUpTo(s.writers[t], c, i) && log == s.log
    ensures var b := c.events[i].base;
            Taken(log, c, i) <==> HasKey(log, b.aggId, b.version) || HasKey(s.writers[t].rows, b.aggId, b.version)
    ensures Taken(log, c, i) ==> Clashes(log, c)
  {
    Unchecked.KeyIsRepeated(s, s.writers[t]);
  }

  lemma InsertStep(h: CoinId -> int, s: Db, t: nat, c: Call, i: nat)
    requires Enabled(h, s, InsertEvent(t)) && i < |c.events| && InsertedUpTo(s.writers[t], c, i)
    ensures var b, s' := c.events[i].base, Do(h, s, InsertEvent(t));
            && OnlyMine(t, s, s')
            && if HasKey(s.log, b.aggId, b.version) || HasKey(s.writers[t].rows, b.aggId, b.version)
               then s'.writers[t] == Done(c, UniqueViolation) else HalfInserted(s'.writers[t], c, i)
  {
  }

  /** What an INSERT does: refused exactly if its key is taken, and never where all callers number their
      events. */
  lemma InsertOutcome(checked: bool, h: CoinId -> int, s: Db, t: nat, c: Call, i: nat)
    requires ReachableAs(checked, h, s) && Enabled(h, s, InsertEvent(t)) && i < |c.events| && InsertedUpTo(s.writers[t], c, i)
    ensures var s' := Do(h, s, InsertEvent(t));
            && OnlyMine(t, s, s')
            && if Taken(s.log, c, i) then !checked && s'.writers[t] == Done(c, UniqueViolation) && Clashes(s.log, c)
               else HalfInserted(s'.writers[t], c, i)
  {
    TakenExactly(s.log, s, t, c, i);
    InsertStep(h, s, t, c, i);
    if checked {
      CheckedIsReachable(h, s);
      InsertNeverWaits(h, s, t, c, s.writers[t].rows, s.writers[t].mail);
    }
  }

  lemma MailStep(h: CoinId -> int, s: Db, t: nat, c: Call, i: nat)
    requires t in s.writers && i < |c.events| && HalfInserted(s.writers[t], c, i)
    ensures Enabled(h, s, InsertOutbox(t))
    ensures OnlyMine(t, s, Do(h, s, InsertOutbox(t))) && InsertedUpTo(Do(h, s, InsertOutbox(t)).writers[t], c, i + 1)
  {
  }

  lemma AppendedBlock(h: CoinId -> int, acts: seq<Action>, s: Db, t: nat)
    requires Run(h, EMPTY, acts, s) && t in s.writers && s.writers[t].Done? && s.writers[t].outcome.Committed?
    ensures FiledAt(s.log, s.writers[t].outcome.at, s.writers[t].call.events)
  {
    Unchecked.RunCalls(h, EMPTY, acts, s);
    assert Unchecked.Filed(s.log, s.writers[t]);
  }

  lemma AppendedAfter(h: CoinId -> int, acts: seq<Action>, s: Db, t: nat)
    requires WellFormedRun(h, acts, s) && t in s.writers && s.writers[t].Done? && s.writers[t].outcome.Committed?
    ensures FiledAt(s.log, s.writers[t].outcome.at, s.writers[t].call.events)
    ensures Count(s.log[..s.writers[t].outcome.at], s.writers[t].call.aggId) == s.writers[t].call.expected
  {
    RunWriters(h, acts, s);
    assert WriterOk(s, s.writers[t]);
    CommittedPosition(s, s.writers[t].call, s.writers[t].outcome.at);
  }

  lemma AppendedAt(checked: bool, h: CoinId -> int, s: Db, t: nat)
    requires ReachableAs(checked, h, s) && t in s.writers && s.writers[t].Done? && s.writers[t].outcome.Committed?
    ensures FiledAt(s.log, s.writers[t].outcome.at, s.writers[t].call.events)
    ensures checked ==> Count(s.log[..s.writers[t].outcome.at], s.writers[t].call.aggId) == s.writers[t].call.expected
  {
    if checked {
      CheckedIsReachable(h, s);
      var acts :| WellFormedRun(h, acts, s);
      AppendedAfter(h, acts, s, t);
    } else {
      var acts :| Run(h, EMPTY, acts, s);
      AppendedBlock(h, acts, s, t);
    }
  }

  datatype ProcessResult = Processed | Rejected(message: string) | NotAppended(why: AppendResult)

  /** Every field of the payload is the fetched one. */
  ghost predicate Carries(p: Payload, d: MarketData) {
    && p.coinId == d.id && p.symbol == d.symbol && p.name == d.name && p.currentPrice == d.currentPrice
    && p.marketCap == d.marketCap && p.volume24h == d.totalVolume && p.priceChange24h == d.priceChange24h
    && p.lastUpdated == d.lastUpdated
  }

  /** The base event is version v of the coin, carries the fetched data and was made at this instant. */
  ghost predicate Quotes(b: Base, d: MarketData, v: int, now: int) {
    b.aggId == d.id && b.version == v && b.time == now && Decodable(b) && Carries(PayloadOf(b), d)
  }

  /** The new version v of the coin is in the log with the fetched data. */
  ghost predicate Filed(log: seq<Row>, d: MarketData, v: int, now: int) {
    exists at :: 0 <= at < |log| && Quotes(log[at].base, d, v, now)
  }

  /** The command is refused, or the latest stored event cannot be read. */
  ghost predicate Unusable(log: seq<Row>, d: MarketData) {
    d.id.text == "" || d.currentPrice < 0.0 || (LatestRow(log, d.id).Some? && !Decodable(LatestRow(log, d.id).value.base))
  }

  /** Hydrate, build the command, handle it and apply the event locally. */
  method Decide(store: Store, data: MarketData, now: int) returns (r: Result<Call>)
    ensures match Prepare(store.db.log, data, now)
            case None => r.Err?
            case Some(c) => r == Ok(c)
    ensures r.Err? <==> Unusable(store.db.log, data)
    ensures r.Ok? ==> Proposes(store.db.log, data, r.value, now)
  {
    PreparedCall(store.db.log, data, now);
    var latest := store.GetLatestEvent(data.id);
    if latest.Err? {
      return Err("failed to load latest event");
    }
    var agg := new MarketAggregate(data.id);
    if latest.value.Some? {
      agg.Apply(latest.value.value, false);
    }
    var event := agg.HandleCommand(CommandOf(data), now);
    if event.Err? {
      return Err("failed to handle fetch command");
    }
    agg.Apply(event.value, true);
    assert agg.uncommitted == [event.value] && agg.id == data.id;
    r := Ok(Call(agg.id, agg.version - 1, agg.uncommitted));
  }

  /** The call expects the coin's highest version and carries the fetched data as the next one. */
  ghost predicate Proposes(log: seq<Row>, data: MarketData, c: Call, now: int) {
    && c.aggId == data.id && c.expected == MaxVersion(log, data.id) && |c.events| == 1
    && Quotes(c.events[0].base, data, c.expected + 1, now)
  }

  /** What ProcessMarketData passes to AppendEvents, whatever is in the log. */
  lemma PreparedCall(log: seq<Row>, data: MarketData, now: int)
    ensures Prepare(log, data, now).None? <==> Unusable(log, data)
    ensures Prepare(log, data, now).Some? ==> Proposes(log, data, Prepare(log, data, now).value, now)
  {
  }

  /** The next version is never taken by a committed row. */
  lemma ProposedFits(log: seq<Row>, data: MarketData, c: Call, now: int)
    requires Proposes(log, data, c, now)
    ensures !Clashes(log, c)
  {
    LatestIsHighest(log, data.id);
  }

  /** No open transaction holds the coin's lock key or an uncommitted row with its next version. */
  ghost predicate Unclaimed(h: CoinId -> int, s: Db, a: CoinId) {
    forall u :: u in s.writers && Holds(s.writers[u]) ==>
      && h(s.writers[u].call.aggId) != h(a)
      && (s.writers[u].Inserting? ==> !HasKey(s.writers[u].rows, a, MaxVersion(s.log, a) + 1))
  }

  /** ProcessMarketData: hydrate from the latest event outside any transaction, decide, append.
      It is rejected exactly for unusable data.  Success files the data as the version after the one
      that was read; a conflict means that the highest version has changed or the next one is taken,
      and where all callers number their events, that some other writer appended in between; any other
      failure has a failed statement or a lock or key held throughout behind it.  With nothing in its
      way usable data is always appended. */
  method ProcessMarketData(store: Store, t: nat, data: MarketData, now: int, env: Env)
    returns (r: ProcessResult)
    requires ReachableAs(store.checked, store.lockKey, store.db) && t !in store.db.writers
    modifies store
    ensures ReachableAs(store.checked, store.lockKey, store.db) && old(store.db).log <= store.db.log
    ensures r.Rejected? <==> Unusable(old(store.db).log, data)
    ensures r.Rejected? ==> store.db == old(store.db)
    ensures r.Processed? ==> Filed(store.db.log, data, MaxVersion(old(store.db).log, data.id) + 1, now)
    ensures r == NotAppended(ConcurrencyConflict) ==>
              var v := MaxVersion(old(store.db).log, data.id);
              (v >= 0 && MaxVersion(store.db.log, data.id) != v) || HasKey(store.db.log, data.id, v + 1)
    ensures r == NotAppended(ConcurrencyConflict) && store.checked ==>
              Count(store.db.log, data.id) > Count(old(store.db).log, data.id)
    ensures r.NotAppended? && r.why.StoreError? ==>
              exists s, c :: Proposes(old(store.db).log, data, c, now) && store.Unlucky(s, t, c, env)
    ensures Calm(env) && Unclaimed(store.lockKey, old(store.db), data.id) && !r.Rejected? ==>
              r.Processed? && FiledNext(old(store.db), store.db, data, now)
  {
    var decided := Decide(store, data, now);
    if decided.Err? {
      return Rejected(decided.error);
    }
    store.Exec(Hydrate(t, data, now));
    if store.checked {
      CountIsMax(store.lockKey, store.db, data.id);
    }
    r := AppendDecided(store, t, data, decided.value, now, env, old(store.db));
  }

  /** The log and the outbox have gained the one event. */
  ghost predicate FiledNext(s: Db, s': Db, data: MarketData, now: int) {
    && |s'.log| == |s.log| + 1 && s.log <= s'.log && Quotes(s'.log[|s.log|].base, data, MaxVersion(s.log, data.id) + 1, now)
    && |s'.outbox| == |s.outbox| + 1 && s.outbox <= s'.outbox && s'.outbox[|s.outbox|].eventId == s'.log[|s.log|].id
  }

  lemma ExtendedIsFiled(s: Db, s': Db, data: MarketData, c: Call, now: int)
    requires Proposes(s.log, data, c, now) && Extended(s.log, s.outbox, s', c)
    ensures FiledNext(s, s', data, now)
  {
    assert s'.log[|s.log| + 0].base == c.events[0].base;
    assert s'.outbox[|s.outbox| + 0].eventId == s'.log[|s.log| + 0].id;
  }

  /** Conflicts and successes of the append, in terms of the log that was read. */
  ghost predicate Settled(before: seq<Row>, log: seq<Row>, data: MarketData, now: int, r: ProcessResult) {
    var v := MaxVersion(before, data.id);
    && !r.Rejected?
    && (r.Processed? ==> Filed(log, data, v + 1, now))
    && (r == NotAppended(ConcurrencyConflict) ==> (v >= 0 && MaxVersion(log, data.id) != v) || HasKey(log, data.id, v + 1))
  }

  lemma BlockIsFiled(before: seq<Row>, log: seq<Row>, data: MarketData, c: Call, now: int, at: nat)
    requires Proposes(before, data, c, now) && FiledAt(log, at, c.events)
    ensures Filed(log, data, MaxVersion(before, data.id) + 1, now)
  {
    assert log[at + 0].base == c.events[0].base;
  }

  lemma ClashIsTaken(before: seq<Row>, log: seq<Row>, data: MarketData, c: Call, now: int)
    requires Proposes(before, data, c, now) && Clashes(log, c)
    ensures HasKey(log, data.id, MaxVersion(before, data.id) + 1)
  {
  }

  lemma UnclaimedIsLucky(store: Store, s: Db, t: nat, data: MarketData, c: Call, now: int)
    requires t in s.writers && s.writers[t] == Ready(c) && Proposes(s.log, data, c, now) && Unclaimed(store.lockKey, s, data.id)
    ensures LockFree(store.lockKey, s, t) && KeysFree(s, t, c)
  {
  }

  method AppendDecided(store: Store, t: nat, data: MarketData, c: Call, now: int, env: Env, ghost before: Db) returns (r: ProcessResult)
    requires store.Mine(t, Ready(c)) && Proposes(before.log, data, c, now) && before.log <= store.db.log
    requires store.checked ==> Count(before.log, data.id) == c.expected
    modifies store
    ensures ReachableAs(store.checked, store.lockKey, store.db) && before.log <= store.db.log && Settled(before.log, store.db.log, data, now, r)
    ensures r == NotAppended(ConcurrencyConflict) && store.checked ==> Count(store.db.log, data.id) > Count(before.log, data.id)
    ensures r.NotAppended? && r.why.StoreError? ==> exists s :: store.Unlucky(s, t, c, env)
    ensures Calm(env) && Unclaimed(store.lockKey, old(store.db), data.id) && OnlyMine(t, before, old(store.db)) ==>
              r.Processed? && FiledNext(before, store.db, data, now)
  {
    store.Interfere(t, env.others(1, 1));
    CountGrows(before.log, store.db.log, data.id);
    assert c == Call(c.aggId, c.expected, c.events);
    ghost var start := store.db;
    var appended := store.AppendEvents(t, c.aggId, c.expected, c.events, env);
    if Calm(env) && Unclaimed(store.lockKey, old(store.db), data.id) && OnlyMine(t, before, old(store.db)) {
      assert start == old(store.db);
      UnclaimedIsLucky(store, start, t, data, c, now);
      ProposedFits(before.log, data, c, now);
      ExtendedIsFiled(before, store.db, data, c, now);
    }
    match appended {
      case Appended =>
        BlockIsFiled(before.log, store.db.log, data, c, now, store.db.writers[t].outcome.at);
        r := Processed;
      case ConcurrencyConflict =>
        if store.db.writers[t].outcome.UniqueViolation? {
          ClashIsTaken(before.log, store.db.log, data, c, now);
        }
        r := NotAppended(appended);
      case StoreError(_) => r := NotAppended(appended);
    }
  }
}
