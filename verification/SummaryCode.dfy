/** GetMarketSummary as imperative code (internal/query/cached_repo.go): between its cache, flight
    and database calls other requests, other processes and the projector take any steps. */
module SummaryCode {
  import opened Market
  import opened SummaryCache

  /** The step advances process p's open flight, which only its leader does. */
  predicate ByLeader(a: Action, p: nat) {
    (a.Recheck? || a.Query? || a.Abandon? || a.Set? || a.Land?) && a.process == p
  }

  /** Process p's flight is this one, in this phase, and the caller waits for it. */
  ghost predicate Open(s: State, p: nat, id: nat, phase: Phase, caller: nat) {
    p in s.flights && s.flights[p].id == id && s.flights[p].phase == phase && caller in s.flights[p].callers
  }

  /** What the surroundings of a request do: which calls succeed (a Set or query that fails, a Get that
      errs), and what everyone else does at each interruption. */
  datatype Env = Env(get1: bool, get2: bool, dbOk: bool, setTook: bool, others: nat -> seq<Action>)

  /** Everyone follows a schedule, except that the leader of p's flight, if any, does nothing. */
  function Others(p: Option<nat>, s: State, schedule: seq<Action>): State
    decreases |schedule|
  {
    if schedule == [] then s
    else
      var a := schedule[0];
      Others(p, if Enabled(s, a) && (p.Some? ==> !ByLeader(a, p.value)) then Do(s, a) else s, schedule[1..])
  }

  /** Every run of the others is a schedule. */
  lemma {:induction false} RunsAreSchedules(p: Option<nat>, s: State, acts: seq<Action>, t: State)
    requires Run(s, acts, t) && (p.Some? ==> forall i :: 0 <= i < |acts| ==> !ByLeader(acts[i], p.value))
    ensures Others(p, s, acts) == t
    decreases |acts|
  {
    if acts != [] {
      RunsAreSchedules(p, Do(s, acts[0]), acts[1..], t);
    }
  }

  lemma {:induction false} OthersSnoc(p: Option<nat>, s: State, schedule: seq<Action>, a: Action)
    ensures var t := Others(p, s, schedule);
            Others(p, s, schedule + [a]) == if Enabled(t, a) && (p.Some? ==> !ByLeader(a, p.value)) then Do(t, a) else t
    decreases |schedule|
  {
    if schedule == [] {
      assert ([] + [a])[1..] == [];
    } else {
      var b := schedule[0];
      assert (schedule + [a])[1..] == schedule[1..] + [a];
      OthersSnoc(p, if Enabled(s, b) && (p.Some? ==> !ByLeader(b, p.value)) then Do(s, b) else s, schedule[1..], a);
    }
  }

  /** Nobody else does anything. */
  ghost predicate Alone(env: Env) { forall n :: env.others(n) == [] }

  lemma {:induction false} OthersKeep(p: Option<nat>, s: State, schedule: seq<Action>)
    requires Reachable(s)
    ensures var t := Others(p, s, schedule); Reachable(t) && s.served <= t.served && s.committed <= t.committed
    decreases |schedule|
  {
    if schedule != [] {
      var a := schedule[0];
      if Enabled(s, a) && (p.Some? ==> !ByLeader(a, p.value)) {
        ReachableStep(s, a);
        OthersKeep(p, Do(s, a), schedule[1..]);
      } else {
        OthersKeep(p, s, schedule[1..]);
      }
    }
  }

  /** The leader's flight only gains callers. */
  lemma {:induction false} LeaderUndisturbed(p: nat, s: State, schedule: seq<Action>, id: nat, phase: Phase, caller: nat)
    requires Open(s, p, id, phase, caller)
    ensures Open(Others(Some(p), s, schedule), p, id, phase, caller)
    decreases |schedule|
  {
    if schedule != [] {
      var a := schedule[0];
      if Enabled(s, a) && !ByLeader(a, p) {
        LeaderUndisturbed(p, Do(s, a), schedule[1..], id, phase, caller);
      } else {
        LeaderUndisturbed(p, s, schedule[1..], id, phase, caller);
      }
    }
  }

  lemma {:induction false} AnswersAccumulate(s: State, acts: seq<Action>, t: State)
    requires Run(s, acts, t)
    ensures s.served <= t.served
    decreases |acts|
  {
    if acts != [] {
      AnswersAccumulate(Do(s, acts[0]), acts[1..], t);
    }
  }

  /** Since `from` answers, the caller has been given this row. */
  ghost predicate Answered(s: State, from: nat, caller: nat, row: nat) {
    exists k :: from <= k < |s.served| && s.served[k].caller == caller && s.served[k].got.src.row == row
  }

  lemma StillAnswered(s: State, t: State, from: nat, caller: nat, row: nat)
    requires Answered(s, from, caller, row) && s.served <= t.served
    ensures Answered(t, from, caller, row)
  {
    var k :| from <= k < |s.served| && s.served[k].caller == caller && s.served[k].got.src.row == row;
    assert t.served[k] == s.served[k];
  }

  lemma LandAnswers(s: State, p: nat, caller: nat)
    requires Enabled(s, Land(p)) && caller in s.flights[p].callers
    ensures Answered(Do(s, Land(p)), |s.served|, caller, s.flights[p].phase.got.src.row)
  {
    var i :| 0 <= i < |s.flights[p].callers| && s.flights[p].callers[i] == caller;
    assert Do(s, Land(p)).served[|s.served| + i].caller == caller;
  }

  ghost predicate Waits(s: State, p: nat, id: nat, caller: nat) {
    p in s.flights && s.flights[p].id == id && caller in s.flights[p].callers
  }

  /** Whoever joined a flight is answered when it is over, unless the flight was abandoned. */
  lemma {:induction false} JoinedIsServed(s: State, acts: seq<Action>, t: State, p: nat, id: nat, caller: nat)
    requires Run(s, acts, t) && Waits(s, p, id, caller) && !Waits(t, p, id, caller)
    ensures (exists row :: Answered(t, |s.served|, caller, row)) || (exists i :: 0 <= i < |acts| && acts[i] == Abandon(p))
    decreases |acts|
  {
    var a, m := acts[0], Do(s, acts[0]);
    if Waits(m, p, id, caller) {
      JoinedIsServed(m, acts[1..], t, p, id, caller);
      if i :| 0 <= i < |acts[1..]| && acts[1..][i] == Abandon(p) {
        assert acts[i + 1] == Abandon(p);
      } else {
        AnswersAccumulate(s, [a], m);
        var row :| Answered(t, |m.served|, caller, row);
        assert Answered(t, |s.served|, caller, row);
      }
    } else if a.Land? {
      LandAnswers(s, p, caller);
      AnswersAccumulate(m, acts[1..], t);
      StillAnswered(m, t, |s.served|, caller, s.flights[p].phase.got.src.row);
    }
  }

  /** What a flight gets when nobody interferes: the live entry if the second look finds it, otherwise the
      committed row, which is then set. */
  ghost predicate FetchedAs(s: State, t: State, env: Env, id: nat, got: Got) {
    if env.get2 && Live(s) then got.src == s.entry.value.src && t.entry == s.entry
    else got.src == Source(s.committed, id) && t.entry == if env.setTook then Some(Entry(got.src, s.now)) else s.entry
  }

  /** What a request comes to when nobody interferes and no flight is open in its process; `get` says
      whether a lookup reaches the cache. */
  ghost predicate AnsweredAlone(s: State, t: State, env: Env, get: bool, r: Result<nat>) {
    if get && Live(s) then r == Ok(s.entry.value.src.row) && t.entry == s.entry
    else if env.dbOk && s.committed > 0 then
      && r == Ok(s.committed)
      && t.entry == if env.setTook then Some(Entry(Source(s.committed, s.nextFlight), s.now)) else s.entry
    else r.Err? && t.entry == s.entry
  }

  /** The flight the caller joined was still open when everyone had done what they would. */
  ghost predicate LeftWaiting(s: State, p: nat, caller: nat, env: Env) {
    exists id, m :: Waits(m, p, id, caller) && Waits(s, p, id, caller) && s == Others(None, m, env.others(1))
  }

  class SummaryRepository {
    var s: State

    ghost predicate Leads(p: nat, id: nat, phase: Phase, caller: nat)
      reads this
    {
      Reachable(s) && Open(s, p, id, phase, caller)
    }

    /** Everyone else runs. */
    method Interfere(schedule: seq<Action>)
      requires Reachable(s)
      modifies this
      ensures Reachable(s) && old(s).served <= s.served && old(s).committed <= s.committed
      ensures s == Others(None, old(s), schedule)
    {
      OthersKeep(None, s, schedule);
      s := Others(None, s, schedule);
    }

    /** Everyone but this flight's leader runs. */
    method InterfereWithLeader(p: nat, schedule: seq<Action>, ghost id: nat, ghost phase: Phase, ghost caller: nat)
      requires Leads(p, id, phase, caller)
      modifies this
      ensures Leads(p, id, phase, caller) && old(s).served <= s.served && old(s).committed <= s.committed
      ensures s == Others(Some(p), old(s), schedule)
    {
      OthersKeep(Some(p), s, schedule);
      LeaderUndisturbed(p, s, schedule, id, phase, caller);
      s := Others(Some(p), s, schedule);
    }

    method Exec(a: Action)
      requires Reachable(s) && Enabled(s, a)
      modifies this
      ensures Reachable(s) && s == Do(old(s), a)
    {
      ReachableStep(s, a);
      s := Do(s, a);
    }

    /** A caller that joined waits while everyone else runs, here by the given schedule (steps that
        are not enabled are passed over).  It is answered when the flight lands; it is left without
        an answer only if the flight is abandoned, or still open when the schedule is over. */
    method Wait(p: nat, ghost id: nat, caller: nat, schedule: seq<Action>) returns (r: Result<nat>)
      requires Reachable(s) && Waits(s, p, id, caller)
      modifies this
      ensures Reachable(s) && old(s).served <= s.served
      ensures r.Ok? ==> Answered(s, |old(s).served|, caller, r.value)
      ensures r.Err? ==> (Abandon(p) in schedule && p !in s.flights) || (Waits(s, p, id, caller) && s == Others(None, old(s), schedule))
    {
      var i := 0;
      while i < |schedule|
        invariant 0 <= i <= |schedule| && s == Others(None, old(s), schedule[..i])
        invariant Reachable(s) && Waits(s, p, id, caller) && old(s).served <= s.served
      {
        var a := schedule[i];
        assert schedule[..i + 1] == schedule[..i] + [a];
        OthersSnoc(None, old(s), schedule[..i], a);
        i := i + 1;
        if Enabled(s, a) {
          if a == Land(p) {
            var row := s.flights[p].phase.got.src.row;
            LandAnswers(s, p, caller);
            Exec(a);
            return Ok(row);
          }
          if a == Abandon(p) {
            Exec(a);
            return Err("failed to query market summary");
          }
          Exec(a);
        }
      }
      assert schedule[..|schedule|] == schedule;
      r := Err("still waiting");
    }

    /** The flight's second look, its query and its Set. */
    method Fetch(p: nat, ghost id: nat, caller: nat, env: Env) returns (r: Result<Got>)
      requires Leads(p, id, Looking, caller)
      modifies this
      ensures old(s).served <= s.served
      ensures r.Ok? ==> Leads(p, id, Holding(r.value), caller)
      ensures r.Err? ==> Reachable(s) && p !in s.flights
      ensures env.dbOk && old(s).committed > 0 ==> r.Ok?
      ensures Alone(env) ==> (r.Ok? <==> (env.get2 && Live(old(s))) || (env.dbOk && old(s).committed > 0))
      ensures Alone(env) ==> if r.Ok? then FetchedAs(old(s), s, env, id, r.value) else s.entry == old(s).entry
    {
      InterfereWithLeader(p, env.others(1), id, Looking, caller);
      if env.get2 && Live(s) {
        var got := FromCache(s);
        Exec(Recheck(p));
        return Ok(got);
      }
      InterfereWithLeader(p, env.others(2), id, Looking, caller);
      if !env.dbOk || s.committed == 0 {
        Exec(Abandon(p));
        return Err("failed to query market summary");
      }
      Exec(Query(p));
      var x := s.flights[p].phase;
      InterfereWithLeader(p, env.others(3), id, x, caller);
      Exec(Set(p, env.setTook));
      r := Ok(Got(x.src, None, x.at));
    }

    /** GetMarketSummary: whatever happens in between, the row it returns is recorded as an answer
        to this caller, so ServedWasCommitted and StaleOnlyInTheAir apply to it. */
    method GetMarketSummary(caller: nat, p: nat, env: Env) returns (r: Result<nat>)
      requires Reachable(s)
      modifies this
      ensures Reachable(s) && old(s).served <= s.served
      ensures r.Ok? ==> Answered(s, |old(s).served|, caller, r.value)
      ensures env.get1 && Live(old(s)) ==> r == Ok(old(s).entry.value.src.row)
      ensures r.Err? ==> !env.dbOk || old(s).committed == 0 || Abandon(p) in env.others(1) || LeftWaiting(s, p, caller, env)
      ensures Alone(env) && p !in old(s).flights ==> AnsweredAlone(old(s), s, env, env.get1 || env.get2, r)
    {
      if env.get1 && Live(s) {
        r := Ok(s.entry.value.src.row);
        Exec(Hit(caller));
        assert s.served[|old(s).served|].caller == caller;
        return;
      }
      Interfere(env.others(0));
      if p in s.flights {
        ghost var id := s.flights[p].id;
        Exec(Join(caller, p));
        assert s.flights[p].callers[|s.flights[p].callers| - 1] == caller;
        r := Wait(p, id, caller, env.others(1));
      } else {
        r := LeadFlight(caller, p, env);
      }
    }

    /** A leader fails only if its query fails or there is no row. */
    method LeadFlight(caller: nat, p: nat, env: Env) returns (r: Result<nat>)
      requires Reachable(s) && p !in s.flights
      modifies this
      ensures Reachable(s) && old(s).served <= s.served
      ensures r.Ok? ==> Answered(s, |old(s).served|, caller, r.value)
      ensures env.dbOk && old(s).committed > 0 ==> r.Ok?
      ensures Alone(env) ==> AnsweredAlone(old(s), s, env, env.get2, r)
    {
      ghost var id := s.nextFlight;
      Exec(Lead(caller, p));
      var got := Fetch(p, id, caller, env);
      if got.Err? {
        return Err(got.error);
      }
      InterfereWithLeader(p, env.others(4), id, Holding(got.value), caller);
      LandAnswers(s, p, caller);
      Exec(Land(p));
      r := Ok(got.value.src.row);
    }
  }
}
