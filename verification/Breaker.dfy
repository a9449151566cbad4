/** The circuit breaker and the retry loop of the CoinGecko client
    (internal/aggregator/coingecko/client.go).  Instants and durations are milliseconds. */
module Breaker {

  datatype State = Closed | Open | HalfOpen

  datatype Limits = Limits(threshold: int, cooldown: int)

  /** The breaker's mutable fields. */
  datatype Cb = Cb(state: State, failures: int, successes: int, lastActivity: int, inFlight: bool)

  function New(now: int): Cb { Cb(Closed, 0, 0, now, false) }

  predicate Admits(l: Limits, b: Cb, now: int) {
    match b.state
    case Closed => true
    case Open => now - b.lastActivity > l.cooldown
    case HalfOpen => !b.inFlight
  }

  /** Allow at instant `now`; the clock is read again, as `stamp`, when the breaker half-opens. */
  function AfterAllow(l: Limits, b: Cb, now: int, stamp: int): Cb {
    match b.state
    case Closed => b
    case Open => if now - b.lastActivity > l.cooldown then b.(state := HalfOpen, lastActivity := stamp, inFlight := true) else b
    case HalfOpen => b.(inFlight := true)
  }

  function AfterFailure(l: Limits, b: Cb, now: int): Cb {
    var c := b.(lastActivity := now, inFlight := false);
    match b.state
    case Closed => c.(failures := b.failures + 1, state := if b.failures + 1 >= l.threshold then Open else Closed)
    case HalfOpen => c.(state := Open)
    case Open => c
  }

  function AfterSuccess(b: Cb, now: int): Cb {
    var c := b.(lastActivity := now, inFlight := false);
    match b.state
    case HalfOpen =>
      if b.successes + 1 >= 2 then c.(state := Closed, failures := 0, successes := 0) else c.(successes := b.successes + 1)
    case Closed => c.(failures := 0)
    case Open => c
  }

  class CircuitBreaker {
    var state: State
    var failures: int
    var successes: int
    var lastActivity: int
    var halfOpenInFlight: bool
    const limits: Limits

    ghost function Value(): Cb
      reads this
    {
      Cb(state, failures, successes, lastActivity, halfOpenInFlight)
    }

    constructor (threshold: int, cooldown: int, now: int)
      ensures Value() == New(now) && limits == Limits(threshold, cooldown)
    {
      state, failures, successes, lastActivity, halfOpenInFlight := Closed, 0, 0, now, false;
      limits := Limits(threshold, cooldown);
    }

    method Allow(now: int, stamp: int) returns (ok: bool)
      modifies this
      ensures ok == Admits(limits, old(Value()), now) && Value() == AfterAllow(limits, old(Value()), now, stamp)
      ensures !ok ==> Value() == old(Value())
      ensures ok ==> failures == old(failures) && successes == old(successes)
      ensures ok && old(state) == Closed ==> Value() == old(Value())
      ensures ok && old(state) != Closed ==> state == HalfOpen && halfOpenInFlight
      ensures ok ==> lastActivity == if old(state) == Open then stamp else old(lastActivity)
    {
      if state == Open {
        if now - lastActivity > limits.cooldown {
          state := HalfOpen;
          lastActivity := stamp;
          halfOpenInFlight := true;
          return true;
        }
        return false;
      }
      if state == HalfOpen {
        if halfOpenInFlight {
          return false;
        }
        halfOpenInFlight := true;
        return true;
      }
      return true;
    }

    method RecordFailure(now: int)
      modifies this
      ensures Value() == AfterFailure(limits, old(Value()), now)
      ensures lastActivity == now && !halfOpenInFlight && successes == old(successes)
      ensures failures == old(failures) + if old(state) == Closed then 1 else 0
      ensures state == if old(state) == Closed && failures < limits.threshold then Closed else Open
    {
      lastActivity := now;
      halfOpenInFlight := false;
      if state == Closed {
        failures := failures + 1;
        if failures >= limits.threshold {
          state := Open;
        }
      } else if state == HalfOpen {
        state := Open;
      }
    }

    method RecordSuccess(now: int)
      modifies this
      ensures Value() == AfterSuccess(old(Value()), now)
      ensures lastActivity == now && !halfOpenInFlight
      ensures old(state) == Closed ==> state == Closed && failures == 0 && successes == old(successes)
      ensures old(state) == Open ==> state == Open && failures == old(failures) && successes == old(successes)
      ensures old(state) == HalfOpen && old(successes) + 1 < 2 ==> state == HalfOpen && failures == old(failures) && successes == old(successes) + 1
      ensures old(state) == HalfOpen && old(successes) + 1 >= 2 ==> state == Closed && failures == 0 && successes == 0
    {
      lastActivity := now;
      halfOpenInFlight := false;
      if state == HalfOpen {
        successes := successes + 1;
        if successes >= 2 {
          state := Closed;
          failures := 0;
          successes := 0;
        }
      } else if state == Closed {
        failures := 0;
      }
    }
  }

  // ---------- concurrent use ----------

  /** The breaker's calls in lock order, by any number of goroutines. */
  datatype Call = Ask(now: int, stamp: int) | Failed(now: int) | Succeeded(now: int)

  function Do(l: Limits, b: Cb, c: Call): Cb {
    match c
    case Ask(now, stamp) => AfterAllow(l, b, now, stamp)
    case Failed(now) => AfterFailure(l, b, now)
    case Succeeded(now) => AfterSuccess(b, now)
  }

  function Final(l: Limits, b: Cb, calls: seq<Call>): Cb
    decreases |calls|
  {
    if calls == [] then b else Final(l, Do(l, b, calls[0]), calls[1..])
  }

  /** How many of the calls were Allow calls that returned true. */
  function Admitted(l: Limits, b: Cb, calls: seq<Call>): nat
    decreases |calls|
  {
    if calls == [] then 0
    else (if calls[0].Ask? && Admits(l, b, calls[0].now) then 1 else 0) + Admitted(l, Do(l, b, calls[0]), calls[1..])
  }

  /** The clock never runs backwards. */
  ghost predicate Timely(from: int, calls: seq<Call>, until: int)
    decreases |calls|
  {
    if calls == [] then from <= until
    else
      && from <= calls[0].now
      && (calls[0].Ask? ==> calls[0].now <= calls[0].stamp)
      && Timely(if calls[0].Ask? then calls[0].stamp else calls[0].now, calls[1..], until)
  }

  /** Tripped for good while nothing succeeds: k attempts were admitted since the trip. */
  ghost predicate Budget(l: Limits, b: Cb, trip: int, k: nat) {
    && !b.state.Closed? && (b.state.HalfOpen? ==> b.inFlight)
    && trip <= b.lastActivity && (k > 0 ==> k * l.cooldown < b.lastActivity - trip)
  }

  lemma BudgetStep(l: Limits, b: Cb, trip: int, k: nat, c: Call, clock: int)
    requires Budget(l, b, trip, k) && !c.Succeeded? && b.lastActivity <= clock <= c.now && (c.Ask? ==> c.now <= c.stamp)
    ensures Budget(l, Do(l, b, c), trip, k + if c.Ask? && Admits(l, b, c.now) then 1 else 0)
    ensures Do(l, b, c).lastActivity <= if c.Ask? then c.stamp else c.now
  {
    assert (k + 1) * l.cooldown == k * l.cooldown + l.cooldown;
  }

  lemma {:induction false} BudgetRun(l: Limits, b: Cb, trip: int, k: nat, calls: seq<Call>, clock: int, until: int)
    requires Budget(l, b, trip, k) && b.lastActivity <= clock && Timely(clock, calls, until)
    requires forall i :: 0 <= i < |calls| ==> !calls[i].Succeeded?
    ensures var n := k + Admitted(l, b, calls); n > 0 ==> n * l.cooldown < until - trip
    decreases |calls|
  {
    if calls != [] {
      var c := calls[0];
      BudgetStep(l, b, trip, k, c, clock);
      BudgetRun(l, Do(l, b, c), trip, k + if c.Ask? && Admits(l, b, c.now) then 1 else 0, calls[1..],
                if c.Ask? then c.stamp else c.now, until);
    }
  }

  /** A breaker that trips, or is open when another attempt fails, admits nobody before its cooldown has
      passed since then, and everybody from the next instant on. */
  lemma CooldownExactly(l: Limits, b: Cb, trip: int, now: int)
    requires b.state.Closed? ==> b.failures + 1 >= l.threshold
    ensures Admits(l, AfterFailure(l, b, trip), now) <==> now > trip + l.cooldown
  {
  }

  /** Request budget: after the breaker trips, as long as no attempt succeeds, the number k of
      attempts admitted up to instant T satisfies k * cooldown < T - trip whenever k >= 1, for any
      concurrent use. */
  lemma RequestBudget(l: Limits, b: Cb, trip: int, calls: seq<Call>, until: int)
    requires b.state.Closed? && b.failures + 1 >= l.threshold
    requires Timely(trip, calls, until)
    requires forall i :: 0 <= i < |calls| ==> !calls[i].Succeeded?
    ensures var k := Admitted(l, AfterFailure(l, b, trip), calls); k >= 1 ==> k * l.cooldown < until - trip
  {
    BudgetRun(l, AfterFailure(l, b, trip), trip, 0, calls, trip, until);
  }

  /** A half-open probe that is never recorded blocks the breaker: without a record, Allow
      refuses every caller at every later instant and changes nothing. */
  lemma {:induction false} UnrecordedProbeBlocks(l: Limits, b: Cb, calls: seq<Call>)
    requires b.state.HalfOpen? && b.inFlight
    requires forall i :: 0 <= i < |calls| ==> calls[i].Ask?
    ensures Final(l, b, calls) == b && Admitted(l, b, calls) == 0
    decreases |calls|
  {
    if calls != [] {
      assert Do(l, b, calls[0]) == b;
      UnrecordedProbeBlocks(l, b, calls[1..]);
    }
  }

  // ---------- sequential use ----------

  datatype Outcome = Ok | Retryable | Unrecorded

  /** One turn of a sequential caller: refused, or one attempt and its recorded outcome. */
  datatype Turn = Refused(now: int) | Tried(now: int, stamp: int, outcome: Outcome, done: int)

  function Recorded(l: Limits, b: Cb, o: Outcome, now: int): Cb {
    match o
    case Ok => AfterSuccess(b, now)
    case Retryable => AfterFailure(l, b, now)
    case Unrecorded => b
  }

  predicate Fits(l: Limits, b: Cb, t: Turn) { Admits(l, b, t.now) <==> t.Tried? }

  function AfterTurn(l: Limits, b: Cb, t: Turn): Cb {
    match t
    case Refused(now) => AfterAllow(l, b, now, now)
    case Tried(now, stamp, o, done) => Recorded(l, AfterAllow(l, b, now, stamp), o, done)
  }

  ghost predicate Plays(l: Limits, b: Cb, turns: seq<Turn>, b': Cb)
    decreases |turns|
  {
    if turns == [] then b' == b else Fits(l, b, turns[0]) && Plays(l, AfterTurn(l, b, turns[0]), turns[1..], b')
  }

  /** What the breaker is meant to be, without clock or flags: calm with a count of failures in a
      row; tripped with a count of good probes since the trip; or blocked by a lost probe. */
  datatype Phase = Calm(failures: nat) | Tripped(probes: nat) | Blocked(probes: nat)

  function Trip(l: Limits): nat { if l.threshold < 1 then 1 else l.threshold }

  function NextPhase(l: Limits, p: Phase, t: Turn): Phase {
    if t.Refused? then p
    else
      match p
      case Calm(n) =>
        (match t.outcome
         case Ok => Calm(0)
         case Retryable => if n + 1 >= Trip(l) then Tripped(0) else Calm(n + 1)
         case Unrecorded => p)
      case Tripped(g) =>
        (match t.outcome
         case Ok => if g + 1 >= 2 then Calm(0) else Tripped(g + 1)
         case Retryable => p
         case Unrecorded => Blocked(g))
      case Blocked(_) => p
  }

  function PhaseAfter(l: Limits, p: Phase, turns: seq<Turn>): Phase
    decreases |turns|
  {
    if turns == [] then p else PhaseAfter(l, NextPhase(l, p, turns[0]), turns[1..])
  }

  /** The fields that realise a phase. */
  ghost predicate Realises(l: Limits, b: Cb, p: Phase) {
    match p
    case Calm(n) => b.state == Closed && b.failures == n < Trip(l) && b.successes == 0 && !b.inFlight
    case Tripped(g) => !b.state.Closed? && b.failures == Trip(l) && b.successes == g < 2 && !b.inFlight
    case Blocked(g) => b.state == HalfOpen && b.failures == Trip(l) && b.successes == g < 2 && b.inFlight
  }

  lemma TurnRealises(l: Limits, b: Cb, p: Phase, t: Turn)
    requires Realises(l, b, p) && Fits(l, b, t)
    ensures Realises(l, AfterTurn(l, b, t), NextPhase(l, p, t))
  {
  }

  /** Sequential trace semantics: from a realised phase, after any turns the breaker's fields are
      exactly those of the phase that the turns alone determine. */
  lemma {:induction false} SequentialSemantics(l: Limits, b: Cb, p: Phase, turns: seq<Turn>, b': Cb)
    requires Realises(l, b, p) && Plays(l, b, turns, b')
    ensures Realises(l, b', PhaseAfter(l, p, turns))
    decreases |turns|
  {
    if turns != [] {
      TurnRealises(l, b, p, turns[0]);
      SequentialSemantics(l, AfterTurn(l, b, turns[0]), NextPhase(l, p, turns[0]), turns[1..], b');
    }
  }

  /** A new breaker closes, trips and blocks exactly as its trace says. */
  lemma NewBreakerSemantics(l: Limits, now: int, turns: seq<Turn>, b: Cb)
    requires Plays(l, New(now), turns, b)
    ensures Realises(l, b, PhaseAfter(l, Calm(0), turns))
  {
    SequentialSemantics(l, New(now), Calm(0), turns, b);
  }

  /** The in-flight flag marks exactly an unrecorded half-open attempt: between turns it is set only
      after a lost probe, and an admitted attempt carries it if and only if it is half-open. */
  lemma FlagMarksProbe(l: Limits, now: int, turns: seq<Turn>, b: Cb, t: Turn)
    requires Plays(l, New(now), turns, b) && Fits(l, b, t)
    ensures b.inFlight <==> PhaseAfter(l, Calm(0), turns).Blocked?
    ensures t.Tried? ==> (AfterAllow(l, b, t.now, t.stamp).inFlight <==> AfterAllow(l, b, t.now, t.stamp).state.HalfOpen?)
  {
    NewBreakerSemantics(l, now, turns, b);
  }

  /** The breaker can be reached by some caller at some instant if and only if no probe was lost. */
  lemma RecoversIffNotBlocked(l: Limits, now: int, turns: seq<Turn>, b: Cb)
    requires Plays(l, New(now), turns, b)
    ensures (exists t :: Admits(l, b, t)) <==> !PhaseAfter(l, Calm(0), turns).Blocked?
  {
    NewBreakerSemantics(l, now, turns, b);
    if !PhaseAfter(l, Calm(0), turns).Blocked? {
      assert Admits(l, b, b.lastActivity + l.cooldown + 1);
    }
  }

  /** Turn i was a probe of a tripped breaker that nobody recorded. */
  ghost predicate LosesProbe(l: Limits, turns: seq<Turn>, i: int) {
    0 <= i < |turns| && turns[i].Tried? && turns[i].outcome.Unrecorded? && PhaseAfter(l, Calm(0), turns[..i]).Tripped?
  }

  /** Exactly the traces with a lost probe are blocked, and once lost nothing brings it back. */
  lemma {:induction false} BlockedIffProbeLost(l: Limits, turns: seq<Turn>)
    ensures PhaseAfter(l, Calm(0), turns).Blocked? <==> exists i :: LosesProbe(l, turns, i)
    decreases |turns|
  {
    if turns != [] {
      var n := |turns| - 1;
      var p, t := turns[..n], turns[n];
      assert turns == p + [t];
      BlockedIffProbeLost(l, p);
      PhaseSnoc(l, Calm(0), p, t);
      forall i | 0 <= i < n ensures LosesProbe(l, turns, i) <==> LosesProbe(l, p, i) {
        assert p[..i] == turns[..i];
      }
      if PhaseAfter(l, Calm(0), turns).Blocked? && !PhaseAfter(l, Calm(0), p).Blocked? {
        assert LosesProbe(l, turns, n);
      }
    }
  }

  /** An attempt in minute i that is answered at once. */
  function Minute(i: nat, reply: Reply): Turn { Tried(60_000 * i, 60_000 * i, OutcomeOf(reply), 60_000 * i) }

  /** Three server errors, a cooldown, then a 404: the client's breaker admits nobody ever again. */
  lemma NotFoundBlocks(b: Cb)
    requires b == Cb(HalfOpen, 3, 0, 240_000, true)
    ensures Plays(Limits(3, 30_000), New(0), [Minute(1, Status(500)), Minute(2, TransportError), Minute(3, Status(503)), Minute(4, Status(404))], b)
    ensures forall t :: !Admits(Limits(3, 30_000), b, t)
  {
    var p := [Minute(1, Status(500))];
    var q, r := p + [Minute(2, TransportError)], p + [Minute(2, TransportError)] + [Minute(3, Status(503))];
    PlaysSnoc(Limits(3, 30_000), New(0), [], New(0), Minute(1, Status(500)));
    assert [] + p == p;
    PlaysSnoc(Limits(3, 30_000), New(0), p, Cb(Closed, 1, 0, 60_000, false), Minute(2, TransportError));
    PlaysSnoc(Limits(3, 30_000), New(0), q, Cb(Closed, 2, 0, 120_000, false), Minute(3, Status(503)));
    PlaysSnoc(Limits(3, 30_000), New(0), r, Cb(Open, 3, 0, 180_000, false), Minute(4, Status(404)));
    assert r + [Minute(4, Status(404))] ==
           [Minute(1, Status(500)), Minute(2, TransportError), Minute(3, Status(503)), Minute(4, Status(404))];
  }

  function Successes(turns: seq<Turn>): nat
    decreases |turns|
  {
    if turns == [] then 0 else (if turns[0].Tried? && turns[0].outcome.Ok? then 1 else 0) + Successes(turns[1..])
  }

  /** Failures in a row at the end of the trace: those after the last success. */
  function Trailing(turns: seq<Turn>): nat
    decreases |turns|
  {
    if turns == [] then 0
    else
      var last := turns[|turns| - 1];
      if last.Refused? || last.outcome.Unrecorded? then Trailing(turns[..|turns| - 1])
      else if last.outcome.Ok? then 0
      else 1 + Trailing(turns[..|turns| - 1])
  }

  lemma {:induction false} PhaseSnoc(l: Limits, p: Phase, turns: seq<Turn>, t: Turn)
    ensures PhaseAfter(l, p, turns + [t]) == NextPhase(l, PhaseAfter(l, p, turns), t)
    decreases |turns|
  {
    if turns == [] {
      assert ([] + [t])[1..] == [];
    } else {
      assert (turns + [t])[0] == turns[0];
      assert (turns + [t])[1..] == turns[1..] + [t];
      PhaseSnoc(l, NextPhase(l, p, turns[0]), turns[1..], t);
    }
  }

  /** While calm the failure count is exactly the trailing failures of the whole trace. */
  lemma {:induction false} CalmCountsTrailing(l: Limits, turns: seq<Turn>)
    ensures PhaseAfter(l, Calm(0), turns).Calm? ==> PhaseAfter(l, Calm(0), turns).failures == Trailing(turns)
    decreases |turns|
  {
    if turns != [] {
      var p, t := turns[..|turns| - 1], turns[|turns| - 1];
      assert turns == p + [t];
      CalmCountsTrailing(l, p);
      PhaseSnoc(l, Calm(0), p, t);
    }
  }

  /** A blocked breaker admits nobody. */
  ghost predicate Possible(l: Limits, p: Phase, turns: seq<Turn>)
    decreases |turns|
  {
    turns == [] || ((p.Blocked? ==> turns[0].Refused?) && Possible(l, NextPhase(l, p, turns[0]), turns[1..]))
  }

  lemma {:induction false} PlaysPossible(l: Limits, b: Cb, p: Phase, turns: seq<Turn>, b': Cb)
    requires Realises(l, b, p) && Plays(l, b, turns, b')
    ensures Possible(l, p, turns)
    decreases |turns|
  {
    if turns != [] {
      TurnRealises(l, b, p, turns[0]);
      PlaysPossible(l, AfterTurn(l, b, turns[0]), NextPhase(l, p, turns[0]), turns[1..], b');
    }
  }

  /** The breaker has not been closed at any point of the trace. */
  ghost predicate NeverClosed(l: Limits, p: Phase, turns: seq<Turn>)
    decreases |turns|
  {
    !p.Calm? && (turns == [] || NeverClosed(l, NextPhase(l, p, turns[0]), turns[1..]))
  }

  /** From a trip on, the breaker has never closed exactly as long as fewer than two probes have
      succeeded in total: a failed probe in between costs a cooldown but not the first success. */
  lemma {:induction false} TwoSuccessesClose(l: Limits, p: Phase, turns: seq<Turn>)
    requires !p.Calm? && p.probes < 2 && Possible(l, p, turns)
    ensures NeverClosed(l, p, turns) <==> p.probes + Successes(turns) < 2
    decreases |turns|
  {
    if turns != [] {
      var q := NextPhase(l, p, turns[0]);
      if !q.Calm? {
        TwoSuccessesClose(l, q, turns[1..]);
      }
    }
  }

  // ---------- the retry loop ----------

  datatype Reply = Status(code: int) | TransportError

  function OutcomeOf(r: Reply): Outcome {
    match r
    case TransportError => Retryable
    case Status(code) => if code == 200 then Ok else if code == 429 || code >= 500 then Retryable else Unrecorded
  }

  datatype Response = Success | BreakerOpen | ClientError(code: int) | Cancelled | Exhausted

  const MAX_BACKOFF := 5000

  function Tries(turns: seq<Turn>): nat
    decreases |turns|
  {
    if turns == [] then 0 else Tries(turns[..|turns| - 1]) + if turns[|turns| - 1].Tried? then 1 else 0
  }

  lemma {:induction false} PlaysSnoc(l: Limits, b: Cb, turns: seq<Turn>, b': Cb, t: Turn)
    requires Plays(l, b, turns, b') && Fits(l, b', t)
    ensures Plays(l, b, turns + [t], AfterTurn(l, b', t))
    decreases |turns|
  {
    if turns == [] {
      assert ([] + [t])[1..] == [];
    } else {
      assert (turns + [t])[0] == turns[0];
      assert (turns + [t])[1..] == turns[1..] + [t];
      PlaysSnoc(l, AfterTurn(l, b, turns[0]), turns[1..], b', t);
    }
  }

  /** Round 0 is a half-open probe, and round 1 would come before its cooldown has passed. */
  ghost predicate ProbeFails(l: Limits, b: Cb, ask: nat -> int, done: nat -> int) {
    !b.state.Closed? && Admits(l, b, ask(0)) && ask(1) - done(0) <= l.cooldown
  }

  /** No answer, too many requests, or a failing server. */
  predicate WorthRetrying(r: Reply) { r.TransportError? || r.code == 429 || r.code >= 500 }

  /** One round of the loop: ask the breaker, send the request, record the outcome. */
  method Attempt(cb: CircuitBreaker, ask: int, stamp: int, done: int, reply: Reply) returns (admitted: bool, ghost t: Turn)
    modifies cb
    ensures admitted == Admits(cb.limits, old(cb.Value()), ask)
    ensures t == if admitted then Tried(ask, stamp, OutcomeOf(reply), done) else Refused(ask)
    ensures Fits(cb.limits, old(cb.Value()), t) && cb.Value() == AfterTurn(cb.limits, old(cb.Value()), t)
  {
    t := Refused(ask);
    admitted := cb.Allow(ask, stamp);
    if !admitted {
      return;
    }
    t := Tried(ask, stamp, OutcomeOf(reply), done);
    match OutcomeOf(reply) {
      case Ok => cb.RecordSuccess(done);
      case Retryable => cb.RecordFailure(done);
      case Unrecorded =>
    }
  }

  /** executeWithRetry.  ask(i), stamp(i) and done(i) are the clock readings of round i, reply(i)
      the server's answer, jitter(i) the random part of the sleep, cancel(i) whether the context
      ends during it.  At most three attempts; every turn is one the breaker plays; a client error
      is returned at once and leaves the breaker unrecorded; between two attempts it sleeps half a
      second and then a whole one, plus the jitter, which stays below the cap. */
  method ExecuteWithRetry(cb: CircuitBreaker, ask: nat -> int, stamp: nat -> int, done: nat -> int,
                          reply: nat -> Reply, jitter: nat -> int, cancel: nat -> bool)
    returns (r: Response, attempts: nat, slept: seq<int>, ghost turns: seq<Turn>)
    requires forall i :: 0 <= jitter(i) < 100
    modifies cb
    ensures attempts <= 3 && attempts == Tries(turns) && Plays(cb.limits, old(cb.Value()), turns, cb.Value())
    ensures |turns| == attempts + (if r.BreakerOpen? then 1 else 0)
    ensures forall i :: 0 <= i < attempts ==> turns[i] == Tried(ask(i), stamp(i), OutcomeOf(reply(i)), done(i))
    ensures r.BreakerOpen? ==> turns[attempts] == Refused(ask(attempts)) && !Admits(cb.limits, cb.Value(), ask(attempts))
    ensures r.Success? ==> attempts >= 1 && reply(attempts - 1) == Status(200)
    ensures r.ClientError? ==> attempts >= 1 && reply(attempts - 1) == Status(r.code) && r.code != 200 && r.code != 429 && r.code < 500
    ensures r.Exhausted? ==> attempts == 3 && WorthRetrying(reply(2))
    ensures r.Cancelled? ==> 1 <= attempts < 3 && cancel(attempts - 1)
    ensures forall i :: 0 <= i < |slept| ==> WorthRetrying(reply(i)) && slept[i] == 500 * (i + 1) + jitter(i)
    ensures |slept| == attempts - (if r.BreakerOpen? || r.Cancelled? then 0 else 1)
    ensures forall i :: 0 <= i < |slept| - (if r.Cancelled? then 1 else 0) ==> !cancel(i)
    ensures ProbeFails(cb.limits, old(cb.Value()), ask, done) && OutcomeOf(reply(0)).Retryable? ==> attempts == 1
  {
    attempts, slept, turns := 0, [], [];
    var backoff := 500;
    var i := 0;
    while i < 3
      invariant 0 <= i <= 3 && attempts == i == Tries(turns) == |slept|
      invariant i < 3 ==> backoff == 500 * (if i == 0 then 1 else if i == 1 then 2 else 4)
      invariant Plays(cb.limits, old(cb.Value()), turns, cb.Value())
      invariant |turns| == i && forall k :: 0 <= k < i ==> turns[k] == Tried(ask(k), stamp(k), OutcomeOf(reply(k)), done(k))
      invariant forall k :: 0 <= k < i ==> WorthRetrying(reply(k)) && !cancel(k)
      invariant i == 0 ==> cb.Value() == old(cb.Value())
      invariant forall k :: 0 <= k < |slept| ==> slept[k] == 500 * (k + 1) + jitter(k)
      invariant i >= 1 && ProbeFails(cb.limits, old(cb.Value()), ask, done) ==> i == 1 && cb.state == Open && cb.lastActivity == done(0)
    {
      ghost var b := cb.Value();
      var admitted;
      ghost var turn;
      admitted, turn := Attempt(cb, ask(i), stamp(i), done(i), reply(i));
      PlaysSnoc(cb.limits, old(cb.Value()), turns, b, turn);
      turns := turns + [turn];
      if !admitted {
        return BreakerOpen, attempts, slept, turns;
      }
      attempts := attempts + 1;
      match OutcomeOf(reply(i)) {
        case Ok => return Success, attempts, slept, turns;
        case Unrecorded => return ClientError(reply(i).code), attempts, slept, turns;
        case Retryable =>
      }
      if i == 2 {
        break;
      }
      var sleep := backoff + jitter(i);
      if sleep > MAX_BACKOFF {
        sleep := MAX_BACKOFF;
      }
      slept := slept + [sleep];
      if cancel(i) {
        return Cancelled, attempts, slept, turns;
      }
      backoff := backoff * 2;
      i := i + 1;
    }
    r := Exhausted;
  }
}
