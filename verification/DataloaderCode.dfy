/** PriceHistoryDataloader as imperative code (api/graphql/dataloader.go): the mutex-guarded fields,
    the critical sections and the dispatch loops, with other goroutines running between them.
    `protocol` is the state of the step machine the object is in. */
module DataloaderCode {
  import opened Market
  import opened ReadModel
  import opened Grouping
  import opened Dataloader
  import opened DataloaderTheorems
  import HC = HistoryCache
  import Ordering

  lemma {:induction false} RunSnoc(s: State, acts: seq<Action>, t: State, a: Action)
    requires Run(s, acts, t) && Enabled(t, a)
    ensures Run(s, acts + [a], Do(t, a))
    decreases |acts|
  {
    if acts == [] {
      assert ([] + [a])[1..] == [];
    } else {
      assert (acts + [a])[1..] == acts[1..] + [a];
      RunSnoc(Do(s, acts[0]), acts[1..], t, a);
    }
  }

  lemma ReachableStep(s: State, a: Action)
    requires Reachable(s) && Enabled(s, a)
    ensures Reachable(Do(s, a))
  {
    var t, acts :| Run(Init(t), acts, s);
    RunSnoc(Init(t), acts, s, a);
  }

  ghost predicate Grown(l: Listeners, r: Listeners) { forall k :: k in l ==> k in r && l[k] <= r[k] }

  /** Others leave dispatcher d where it is, answered queries stay answered, and as long as d
      sleeps no listener leaves the pending map. */
  ghost predicate Undisturbed(d: nat, s: State, t: State) {
    && (d in s.dispatchers ==> d in t.dispatchers && t.dispatchers[d] == s.dispatchers[d])
    && s.asks <= t.asks
    && (Asleep(s, d) ==> Grown(s.listeners, t.listeners))
  }

  lemma OtherKeeps(s: State, a: Action, d: nat)
    requires Batching(s) && Enabled(s, a) && !By(a, d)
    ensures Undisturbed(d, s, Do(s, a))
  {
    if d in s.dispatchers {
      OtherStep(s, a, d);
    }
    if a.Take? && Asleep(s, d) {
      assert Asleep(s, a.d);
    }
  }

  /** What the surroundings of a dispatch do: what everyone else does at each interruption (point and
      round), including the query service and whoever else uses it. */
  datatype Env = Env(process: nat, others: (nat, nat) -> seq<Action>)

  /** Everyone but dispatcher d follows a schedule, passing over steps that are not theirs to take. */
  function Others(d: nat, s: State, schedule: seq<Action>): State
    decreases |schedule|
  {
    if schedule == [] then s
    else Others(d, if Enabled(s, schedule[0]) && !By(schedule[0], d) then Do(s, schedule[0]) else s, schedule[1..])
  }

  function Asked(d: nat, s: State, process: nat): State { if Enabled(s, Call(d, process)) then Do(s, Call(d, process)) else s }

  /** Where the protocol stands when dispatcher d, having called the query service, stops waiting for it:
      everyone else has followed the schedules for before and after its call. */
  function Waited(d: nat, s: State, env: Env): State {
    Others(d, Asked(d, Others(d, s, env.others(0, 0)), env.process), env.others(1, 0))
  }

  /** Every run of the others is a schedule. */
  lemma {:induction false} RunsAreSchedules(d: nat, s: State, acts: seq<Action>, t: State)
    requires Run(s, acts, t) && forall i :: 0 <= i < |acts| ==> !By(acts[i], d)
    ensures Others(d, s, acts) == t
    decreases |acts|
  {
    if acts != [] {
      RunsAreSchedules(d, Do(s, acts[0]), acts[1..], t);
    }
  }

  lemma {:induction false} OthersKeep(d: nat, s: State, schedule: seq<Action>)
    requires Reachable(s) && d in s.dispatchers
    ensures Reachable(Others(d, s, schedule)) && Undisturbed(d, s, Others(d, s, schedule))
    decreases |schedule|
  {
    if schedule != [] {
      var a := schedule[0];
      if Enabled(s, a) && !By(a, d) {
        ReachableInv(s);
        OtherKeeps(s, a, d);
        ReachableStep(s, a);
        OthersKeep(d, Do(s, a), schedule[1..]);
      } else {
        OthersKeep(d, s, schedule[1..]);
      }
    }
  }

  /** The head of a sending list has an empty buffer. */
  lemma SendIsEnabled(s: State, d: nat)
    requires Reachable(s) && AtWork(s, d) && s.dispatchers[d].sending.Some? && s.dispatchers[d].sending.value != []
    ensures Enabled(s, Send(d))
  {
    ReachableInv(s);
    SendingIsOwn(s, d);
    assert WorkOk(s.asks, s.dispatchers[d]);
    assert Accounted(s, d, Sending(s.dispatchers[d]));
  }

  // ---------- what a dispatcher makes of the answers ----------

  /** The query service had answered the call when the dispatcher looked. */
  ghost predicate Found(served: seq<HC.Serve>, a: Ask, j: int) { 0 <= j < a.seen <= |served| && served[j].call == a.call }

  ghost predicate WasServed(served: seq<HC.Serve>, a: Ask) { exists j :: Found(served, a, j) }

  /** The answer that was there is used as it is; without one it is an error. */
  ghost predicate Honest(served: seq<HC.Serve>, a: Ask) {
    a.seen <= |served| &&
    if WasServed(served, a) then exists j :: Found(served, a, j) && a.outcome == Ok(served[j].answer) else a.outcome.Err?
  }

  /** Entry i of the deliveries is this batch query's answer for the key: the points of its own coin (none
      if the answer has no entry for it), or the error. */
  ghost predicate SentAt(s: State, i: int, ch: nat, k: Key, a: Ask, ask: nat) {
    && 0 <= i < |s.sent| && s.sent[i].ch == ch && s.sent[i].key == k && s.sent[i].ask == ask
    && (match a.outcome
        case Ok(res) => s.sent[i].answer == Ok(if k.coin in res then res[k.coin].points else [])
        case Err(e) => s.sent[i].answer == Err(e))
  }

  ghost predicate SentFrom(s: State, ch: nat, k: Key, ask: nat) { ask < |s.asks| && exists i :: SentAt(s, i, ch, k, s.asks[ask], ask) }

  ghost predicate AllSentFrom(s: State, chs: seq<nat>, n: nat, k: Key, ask: nat) {
    forall i :: 0 <= i < n <= |chs| ==> SentFrom(s, chs[i], k, ask)
  }

  /** All listeners of the key were sent this batch query's answer, and if that has points they are cached. */
  ghost predicate KeyServed(s: State, ls: Listeners, k: Key, ask: nat) {
    AllSentFrom(s, ListenersOf(ls, k), |ListenersOf(ls, k)|, k, ask) && ask < |s.asks| && (s.asks[ask].outcome.Ok? ==> k in s.cache)
  }

  /** The first n coins of the group have been served from this batch query. */
  ghost predicate CoinsServed(s: State, ls: Listeners, g: Group, n: nat, ask: nat) {
    n <= |g.coins| && forall i :: 0 <= i < n ==> KeyServed(s, ls, Key(g.coins[i], g.limit), ask)
  }

  ghost predicate ServedBy(s: State, ls: Listeners, g: Group, ask: nat) {
    ask < |s.asks| && s.asks[ask].group == g && Honest(s.svc.served, s.asks[ask]) && CoinsServed(s, ls, g, |g.coins|, ask)
  }

  ghost predicate GroupServed(s: State, ls: Listeners, g: Group) { exists ask :: ServedBy(s, ls, g, ask) }

  /** Histories only grow. */
  ghost predicate Grows(s: State, t: State) {
    && s.asks <= t.asks && s.sent <= t.sent && s.svc.served <= t.svc.served && s.svc.asked <= t.svc.asked
    && s.cache.Keys <= t.cache.Keys
  }

  lemma StepGrows(s: State, a: Action)
    requires Enabled(s, a)
    ensures Grows(s, Do(s, a))
  {
    if a.Service? {
      ServiceGrows(s.svc, a.a);
    }
  }

  lemma ServiceGrows(s: HC.State, a: HC.Action)
    requires HC.Enabled(s, a)
    ensures s.served <= HC.Do(s, a).served && s.asked <= HC.Do(s, a).asked
  {
  }

  lemma {:induction false} OthersGrow(d: nat, s: State, schedule: seq<Action>)
    ensures Grows(s, Others(d, s, schedule))
    decreases |schedule|
  {
    if schedule != [] {
      var a := schedule[0];
      if Enabled(s, a) && !By(a, d) {
        StepGrows(s, a);
        OthersGrow(d, Do(s, a), schedule[1..]);
      } else {
        OthersGrow(d, s, schedule[1..]);
      }
    }
  }

  lemma SentFromLater(s: State, t: State, ch: nat, k: Key, ask: nat)
    requires Grows(s, t) && SentFrom(s, ch, k, ask)
    ensures SentFrom(t, ch, k, ask)
  {
    var i :| SentAt(s, i, ch, k, s.asks[ask], ask);
    assert SentAt(t, i, ch, k, t.asks[ask], ask);
  }

  lemma AllSentFromLater(s: State, t: State, chs: seq<nat>, n: nat, k: Key, ask: nat)
    requires Grows(s, t) && AllSentFrom(s, chs, n, k, ask)
    ensures AllSentFrom(t, chs, n, k, ask)
  {
    forall i | 0 <= i < n <= |chs| ensures SentFrom(t, chs[i], k, ask) {
      SentFromLater(s, t, chs[i], k, ask);
    }
  }

  lemma KeyServedLater(s: State, t: State, ls: Listeners, k: Key, ask: nat)
    requires Grows(s, t) && KeyServed(s, ls, k, ask)
    ensures KeyServed(t, ls, k, ask)
  {
    AllSentFromLater(s, t, ListenersOf(ls, k), |ListenersOf(ls, k)|, k, ask);
    assert k in s.cache ==> k in t.cache.Keys;
  }

  lemma CoinsServedLater(s: State, t: State, ls: Listeners, g: Group, n: nat, ask: nat)
    requires Grows(s, t) && CoinsServed(s, ls, g, n, ask)
    ensures CoinsServed(t, ls, g, n, ask)
  {
    forall i | 0 <= i < n ensures KeyServed(t, ls, Key(g.coins[i], g.limit), ask) {
      KeyServedLater(s, t, ls, Key(g.coins[i], g.limit), ask);
    }
  }

  lemma CoinsServedSnoc(s: State, t: State, ls: Listeners, g: Group, n: nat, ask: nat)
    requires Grows(s, t) && CoinsServed(s, ls, g, n, ask) && n < |g.coins|
    requires KeyServed(t, ls, Key(g.coins[n], g.limit), ask)
    ensures CoinsServed(t, ls, g, n + 1, ask)
  {
    CoinsServedLater(s, t, ls, g, n, ask);
  }

  lemma FoundLater(served: seq<HC.Serve>, more: seq<HC.Serve>, a: Ask, j: int)
    requires served <= more && a.seen <= |served|
    ensures Found(more, a, j) <==> Found(served, a, j)
  {
  }

  lemma HonestLater(served: seq<HC.Serve>, more: seq<HC.Serve>, a: Ask)
    requires served <= more && Honest(served, a)
    ensures Honest(more, a)
  {
    forall j ensures Found(more, a, j) <==> Found(served, a, j) {
      FoundLater(served, more, a, j);
    }
    if WasServed(served, a) {
      var j :| Found(served, a, j) && a.outcome == Ok(served[j].answer);
      assert Found(more, a, j) && more[j] == served[j];
    }
  }

  lemma ServedByLater(s: State, t: State, ls: Listeners, g: Group, ask: nat)
    requires Grows(s, t) && ServedBy(s, ls, g, ask)
    ensures ServedBy(t, ls, g, ask)
  {
    HonestLater(s.svc.served, t.svc.served, s.asks[ask]);
    CoinsServedLater(s, t, ls, g, |g.coins|, ask);
  }

  lemma GroupsServedLater(s: State, t: State, ls: Listeners, groups: seq<Group>, n: nat)
    requires Grows(s, t) && n <= |groups| && forall j :: 0 <= j < n ==> GroupServed(s, ls, groups[j])
    ensures forall j :: 0 <= j < n ==> GroupServed(t, ls, groups[j])
  {
    forall j | 0 <= j < n ensures GroupServed(t, ls, groups[j]) {
      var ask :| ServedBy(s, ls, groups[j], ask);
      ServedByLater(s, t, ls, groups[j], ask);
    }
  }

  lemma ReplyIsHonest(s: State, d: nat, found: Result<nat>)
    requires Enabled(s, Reply(d, found))
    requires found.Err? ==> forall j :: 0 <= j < |s.svc.served| ==> s.svc.served[j].call != s.dispatchers[d].call.value
    ensures Honest(s.svc.served, Do(s, Reply(d, found)).asks[|s.asks|])
  {
    var a := Do(s, Reply(d, found)).asks[|s.asks|];
    if found.Ok? {
      assert Found(s.svc.served, a, found.value);
    }
  }

  /** The call was started for this group, after state s. */
  ghost predicate OwnCall(s: State, t: State, g: Group, call: nat) {
    |s.svc.asked| <= call < |t.svc.asked| && t.svc.asked[call] == HC.Many(g.coins, g.limit)
  }

  /** The channel was told the outcome of a batch query that asked for its key; points are cached as well. */
  ghost predicate Told(s: State, k: Key, ch: nat) {
    exists ask :: && 0 <= ask < |s.asks| && Covers(s.asks[ask], k) && Honest(s.svc.served, s.asks[ask]) && SentFrom(s, ch, k, ask)
                  && (s.asks[ask].outcome.Ok? ==> k in s.cache)
  }

  ghost predicate AllTold(s: State, l: Listeners) { forall k, ch :: Holds(l, k, ch) ==> Told(s, k, ch) }

  lemma PendingInKeys(s: State)
    requires Reachable(s)
    ensures forall k :: k in s.listeners ==> k in s.keys
  {
    ReachableInv(s);
  }

  lemma GroupTells(s: State, ls: Listeners, g: Group, k: Key, ch: nat)
    requires GroupServed(s, ls, g) && g.limit == k.limit && k.coin in g.coins && Holds(ls, k, ch)
    ensures Told(s, k, ch)
  {
    var ask :| ServedBy(s, ls, g, ask);
    var i :| 0 <= i < |g.coins| && g.coins[i] == k.coin;
    assert Key(g.coins[i], g.limit) == k;
    var chs := ListenersOf(ls, k);
    assert KeyServed(s, ls, k, ask) && AllSentFrom(s, chs, |chs|, k, ask);
    var j :| 0 <= j < |chs| && chs[j] == ch;
    assert SentFrom(s, chs[j], k, ask);
  }

  lemma AllGroupsTold(s: State, ls: Listeners, ks: seq<Key>, order: seq<int>, l: Listeners)
    requires Enumerates(order, ks) && Grown(l, ls) && forall k :: k in ls ==> k in ks
    requires forall j :: 0 <= j < |order| ==> GroupServed(s, ls, Plan(ks, order)[j])
    ensures AllTold(s, l)
  {
    PlanCovers(ks, order);
    forall k, ch: nat | Holds(l, k, ch) ensures Told(s, k, ch) {
      assert l[k] <= ls[k] && InPlan(Plan(ks, order), k);
      var j :| 0 <= j < |Plan(ks, order)| && Plan(ks, order)[j].limit == k.limit && k.coin in Plan(ks, order)[j].coins;
      GroupTells(s, ls, Plan(ks, order)[j], k, ch);
    }
  }

  ghost predicate AllSent(s: State, l: Listeners) { forall k, ch :: Holds(l, k, ch) ==> IsSent(s, ch) }

  lemma DoneSentAll(s: State, d: nat, l: Listeners)
    requires Reachable(s) && d in s.dispatchers && s.dispatchers[d].Done? && Grown(l, s.dispatchers[d].listeners)
    ensures AllSent(s, l)
  {
    forall k, ch: nat | Holds(l, k, ch) ensures IsSent(s, ch) {
      assert l[k] <= s.dispatchers[d].listeners[k];
      CompletionServesAll(s, d, k, ch);
    }
  }

  lemma PlanHead(ks: seq<Key>, order: seq<int>, byLimit: map<int, seq<CoinId>>, i: nat)
    requires Grouped(ks, byLimit) && Enumerates(order, ks) && i < |order|
    ensures order[i] in byLimit && Plan(ks, order)[i] == Group(order[i], byLimit[order[i]])
    ensures Plan(ks, order)[i..] == [Group(order[i], byLimit[order[i]])] + Plan(ks, order)[i + 1..]
  {
    assert order[i] in order;
  }

  class PriceHistoryDataloader {
    var cache: map<Key, Points>
    var keys: seq<Key>
    var listeners: Listeners
    /** How many channels have been made. */
    var made: nat
    /** The protocol state behind the fields, with the query service and its table. */
    var protocol: State

    ghost predicate Valid()
      reads this
    {
      && Reachable(protocol)
      && protocol.cache == cache && protocol.keys == keys && protocol.listeners == listeners
      && |protocol.registered| == made
    }

    ghost predicate At(d: nat, w: Dispatcher)
      reads this
    {
      Valid() && d in protocol.dispatchers && protocol.dispatchers[d] == w
    }

    constructor (t: HC.Table)
      ensures Valid() && cache == map[] && keys == [] && listeners == map[] && protocol == Init(t)
    {
      cache, keys, listeners, made := map[], [], map[], 0;
      protocol := Init(t);
      assert Run(Init(t), [], Init(t));
    }

    /** Other goroutines run, and the fields are what they leave. */
    method Interfere(d: nat, schedule: seq<Action>)
      requires Valid() && d in protocol.dispatchers
      modifies this
      ensures Valid() && Undisturbed(d, old(protocol), protocol) && Grows(old(protocol), protocol)
      ensures protocol == Others(d, old(protocol), schedule)
    {
      OthersKeep(d, protocol, schedule);
      OthersGrow(d, protocol, schedule);
      protocol := Others(d, protocol, schedule);
      cache, keys, listeners, made := protocol.cache, protocol.keys, protocol.listeners, |protocol.registered|;
    }

    /** Load up to the point where it waits: a hit returns at once; a miss registers a channel, and
        the Load that finds no pending key starts the dispatcher. */
    method Load(key: Key) returns (hit: Option<Points>, ch: nat, isFirst: bool)
      requires Valid()
      modifies this
      ensures Valid() && protocol == Do(old(protocol), Action.Load(key)) && cache == old(cache)
      ensures hit == if key in old(cache) then Some(old(cache)[key]) else None
      ensures hit.Some? ==> keys == old(keys) && listeners == old(listeners) && !isFirst
      ensures hit.None? ==> ch == old(made) && isFirst == (old(keys) == []) && keys == old(keys) + [key]
      ensures hit.None? ==> Pending(protocol, ch) && (isFirst ==> Asleep(protocol, ch))
    {
      ReachableStep(protocol, Action.Load(key));
      protocol := Do(protocol, Action.Load(key));
      ch := made;
      if key in cache {
        return Some(cache[key]), ch, false;
      }
      made := made + 1;
      listeners := listeners[key := (if key in listeners then listeners[key] else []) + [ch]];
      isFirst := |keys| == 0;
      keys := keys + [key];
      hit := None;
      assert listeners[key][|listeners[key]| - 1] == ch;
    }

    /** dispatch's critical section and the grouping of what it took. */
    method TakeBatch(d: nat) returns (ls: Listeners, ks: seq<Key>, order: seq<int>, byLimit: map<int, seq<CoinId>>)
      requires At(d, Sleeping)
      modifies this
      ensures keys == [] && listeners == map[] && ks == old(keys) && ls == old(listeners)
      ensures Grouped(ks, byLimit) && Enumerates(order, ks)
      ensures At(d, if ks == [] then Done(ls) else Working(ls, Plan(ks, order), None, None, None))
    {
      ks, ls := keys, listeners;
      keys, listeners := [], map[];
      byLimit := GroupByLimit(ks);
      order := RangeOrder(byLimit);
      RangeEnumerates(ks, byLimit, order);
      ReachableStep(protocol, Take(d, order));
      protocol := Do(protocol, Take(d, order));
    }

    /** One send per listener of the coin; by SendIsEnabled none of them blocks. */
    method Deliver(d: nat, ls: Listeners, env: Env, ghost groups: seq<Group>, ghost ask: nat, key: Key, answer: Result<Points>)
      requires groups != [] && groups[0].coins != [] && key == Key(groups[0].coins[0], groups[0].limit)
      requires At(d, Working(ls, groups, None, Some(ask), Some(ListenersOf(ls, key))))
      requires ask < |protocol.asks| && answer == AnswerFor(protocol.asks[ask], key.coin)
      modifies this
      ensures At(d, Working(ls, groups, None, Some(ask), Some([])))
      ensures Grows(old(protocol), protocol) && AllSentFrom(protocol, ListenersOf(ls, key), |ListenersOf(ls, key)|, key, ask)
    {
      var chs := ListenersOf(ls, key);
      var i := 0;
      while i < |chs|
        invariant 0 <= i <= |chs|
        invariant At(d, Working(ls, groups, None, Some(ask), Some(chs[i..])))
        invariant Grows(old(protocol), protocol) && AllSentFrom(protocol, chs, i, key, ask)
      {
        ghost var before := protocol;
        Interfere(d, env.others(3, i));
        Put(d, chs[i], key, answer);
        AllSentFromLater(before, protocol, chs, i, key, ask);
        assert chs[i..][1..] == chs[i + 1..];
        i := i + 1;
      }
      assert chs[i..] == [];
    }

    /** ch <- answer */
    method Put(d: nat, ch: nat, key: Key, answer: Result<Points>)
      requires Valid() && AtWork(protocol, d) && AtCoin(protocol.dispatchers[d]) && key == Current(protocol.dispatchers[d])
      requires protocol.dispatchers[d].sending.Some? && protocol.dispatchers[d].sending.value != []
      requires ch == protocol.dispatchers[d].sending.value[0]
      requires protocol.dispatchers[d].asked.value < |protocol.asks|
      requires answer == AnswerFor(protocol.asks[protocol.dispatchers[d].asked.value], key.coin)
      modifies this`protocol
      ensures Valid() && protocol.asks == old(protocol).asks && protocol.svc == old(protocol).svc
      ensures At(d, old(protocol).dispatchers[d].(sending := Some(old(protocol).dispatchers[d].sending.value[1..])))
      ensures protocol.sent == old(protocol).sent + [Sent(ch, key, answer, old(protocol).dispatchers[d].asked.value, protocol.svc.w.now)]
      ensures SentFrom(protocol, ch, key, old(protocol).dispatchers[d].asked.value)
    {
      ghost var n, ask := |protocol.sent|, protocol.dispatchers[d].asked.value;
      SendIsEnabled(protocol, d);
      ReachableStep(protocol, Send(d));
      protocol := Do(protocol, Send(d));
      assert SentAt(protocol, n, ch, key, protocol.asks[ask], ask);
    }

    /** One coin of an answered group: cache it if the query succeeded, then tell its listeners. */
    method ServeCoin(d: nat, ls: Listeners, env: Env, ghost groups: seq<Group>, ghost ask: nat, key: Key, answer: Result<Points>)
      requires groups != [] && groups[0].coins != [] && key == Key(groups[0].coins[0], groups[0].limit)
      requires At(d, Working(ls, groups, None, Some(ask), None))
      requires ask < |protocol.asks| && answer == AnswerFor(protocol.asks[ask], key.coin)
      modifies this
      ensures At(d, Working(ls, [groups[0].(coins := groups[0].coins[1..])] + groups[1..], None, Some(ask), None))
      ensures Grows(old(protocol), protocol) && KeyServed(protocol, ls, key, ask)
    {
      Interfere(d, env.others(2, 0));
      ReachableStep(protocol, Store(d));
      protocol := Do(protocol, Store(d));
      if answer.Ok? {
        cache := cache[key := answer.value];
      }
      Deliver(d, ls, env, groups, ask, key, answer);
      ghost var delivered := protocol;
      ReachableStep(protocol, NextCoin(d));
      protocol := Do(protocol, NextCoin(d));
      KeyServedLater(delivered, protocol, ls, key, ask);
    }

    /** The answer served to a call, if there is one by now. */
    method AnswerOf(call: nat) returns (r: Result<nat>)
      ensures Returns(protocol, call, r)
      ensures r.Err? ==> forall j :: 0 <= j < |protocol.svc.served| ==> protocol.svc.served[j].call != call
    {
      var served := protocol.svc.served;
      var j := 0;
      while j < |served|
        invariant 0 <= j <= |served|
        invariant forall i :: 0 <= i < j ==> served[i].call != call
      {
        if served[j].call == call {
          return Ok(j);
        }
        j := j + 1;
      }
      r := Err("context deadline exceeded");
    }

    /** Calls the query service, and waits while it and everyone else run. */
    method AskService(d: nat, ls: Listeners, g: Group, ghost rest: seq<Group>, env: Env) returns (call: nat)
      requires At(d, Working(ls, [g] + rest, None, None, None))
      modifies this
      ensures At(d, Working(ls, [g] + rest, Some(call), None, None)) && Grows(old(protocol), protocol)
      ensures OwnCall(old(protocol), protocol, g, call) && protocol == Waited(d, old(protocol), env)
    {
      Interfere(d, env.others(0, 0));
      call := |protocol.svc.asked|;
      StartCall(d, ls, g, rest, env.process);
      Interfere(d, env.others(1, 0));
    }

    /** The request is on its way to the query service. */
    method StartCall(d: nat, ls: Listeners, g: Group, ghost rest: seq<Group>, process: nat)
      requires At(d, Working(ls, [g] + rest, None, None, None))
      modifies this`protocol
      ensures At(d, Working(ls, [g] + rest, Some(|old(protocol).svc.asked|), None, None)) && Grows(old(protocol), protocol)
      ensures OwnCall(old(protocol), protocol, g, |old(protocol).svc.asked|) && protocol == Asked(d, old(protocol), process)
    {
      ReachableStep(protocol, Call(d, process));
      protocol := Do(protocol, Call(d, process));
    }

    /** Takes the answer if there is one by now. */
    method TakeReply(d: nat, ls: Listeners, g: Group, ghost rest: seq<Group>, call: nat)
      returns (outcome: Result<map<CoinId, HC.Got>>, ghost ask: nat)
      requires At(d, Working(ls, [g] + rest, Some(call), None, None))
      modifies this`protocol
      ensures At(d, Working(ls, [g] + rest, None, Some(ask), None)) && Grows(old(protocol), protocol) && protocol.svc == old(protocol).svc
      ensures ask < |protocol.asks| && protocol.asks[ask].outcome == outcome
      ensures protocol.asks[ask].group == g && protocol.asks[ask].call == call
      ensures Honest(protocol.svc.served, protocol.asks[ask]) && protocol.asks[ask].seen == |protocol.svc.served|
    {
      var found := AnswerOf(call);
      ask := |protocol.asks|;
      ReachableStep(protocol, Reply(d, found));
      ReplyIsHonest(protocol, d, found);
      protocol := Do(protocol, Reply(d, found));
      outcome := protocol.asks[|protocol.asks| - 1].outcome;
    }

    /** The batch query of one limit: call the query service, wait, and take its answer if there is one by
        then. */
    method QueryGroup(d: nat, ls: Listeners, g: Group, ghost rest: seq<Group>, env: Env)
      returns (outcome: Result<map<CoinId, HC.Got>>, ghost ask: nat)
      requires At(d, Working(ls, [g] + rest, None, None, None))
      modifies this
      ensures At(d, Working(ls, [g] + rest, None, Some(ask), None)) && Grows(old(protocol), protocol)
      ensures ask < |protocol.asks| && protocol.asks[ask].outcome == outcome
      ensures protocol.asks[ask].group == g && OwnCall(old(protocol), protocol, g, protocol.asks[ask].call)
      ensures protocol.svc == Waited(d, old(protocol), env).svc
      ensures Honest(protocol.svc.served, protocol.asks[ask]) && protocol.asks[ask].seen == |protocol.svc.served|
    {
      var call := AskService(d, ls, g, rest, env);
      outcome, ask := TakeReply(d, ls, g, rest, call);
    }

    /** The coins of an answered group, in order. */
    method ServeCoins(d: nat, ls: Listeners, g: Group, ghost rest: seq<Group>, outcome: Result<map<CoinId, HC.Got>>, env: Env, ghost ask: nat)
      requires At(d, Working(ls, [g] + rest, None, Some(ask), None))
      requires ask < |protocol.asks| && protocol.asks[ask].outcome == outcome
      modifies this
      ensures At(d, Working(ls, [Group(g.limit, [])] + rest, None, Some(ask), None))
      ensures Grows(old(protocol), protocol) && CoinsServed(protocol, ls, g, |g.coins|, ask)
    {
      var i := 0;
      assert Group(g.limit, g.coins[0..]) == g;
      while i < |g.coins|
        invariant 0 <= i <= |g.coins|
        invariant At(d, Working(ls, [Group(g.limit, g.coins[i..])] + rest, None, Some(ask), None))
        invariant ask < |protocol.asks| && protocol.asks[ask].outcome == outcome
        invariant Grows(old(protocol), protocol) && CoinsServed(protocol, ls, g, i, ask)
      {
        var key := Key(g.coins[i], g.limit);
        var answer := Answer(outcome, key.coin);
        ghost var groups := [Group(g.limit, g.coins[i..])] + rest;
        ghost var before := protocol;
        ServeCoin(d, ls, env, groups, ask, key, answer);
        CoinsServedSnoc(before, protocol, ls, g, i, ask);
        assert g.coins[i..][1..] == g.coins[i + 1..] && groups[1..] == rest;
        i := i + 1;
      }
      assert g.coins[i..] == [];
    }

    /** One limit group: query, then serve its coins in order. */
    method ServeGroup(d: nat, ls: Listeners, g: Group, ghost rest: seq<Group>, env: Env)
      requires At(d, Working(ls, [g] + rest, None, None, None))
      modifies this
      ensures At(d, Working(ls, rest, None, None, None))
      ensures Grows(old(protocol), protocol) && GroupServed(protocol, ls, g)
    {
      var outcome;
      ghost var ask;
      outcome, ask := QueryGroup(d, ls, g, rest, env);
      ghost var asked := protocol;
      ServeCoins(d, ls, g, rest, outcome, env, ask);
      HonestLater(asked.svc.served, protocol.svc.served, protocol.asks[ask]);
      ghost var served := protocol;
      assert ([Group(g.limit, [])] + rest)[1..] == rest;
      ReachableStep(protocol, NextGroup(d));
      protocol := Do(protocol, NextGroup(d));
      ServedByLater(served, protocol, ls, g, ask);
    }

    /** The loop over the limit groups. */
    method ServeGroups(d: nat, ls: Listeners, ghost ks: seq<Key>, order: seq<int>, byLimit: map<int, seq<CoinId>>, env: nat -> Env)
      requires Grouped(ks, byLimit) && Enumerates(order, ks)
      requires At(d, Working(ls, Plan(ks, order), None, None, None))
      modifies this
      ensures At(d, Done(ls))
      ensures forall j :: 0 <= j < |order| ==> GroupServed(protocol, ls, Plan(ks, order)[j])
    {
      ghost var groups := Plan(ks, order);
      var i := 0;
      assert groups[0..] == groups;
      while i < |order|
        invariant 0 <= i <= |order| == |groups|
        invariant At(d, Working(ls, groups[i..], None, None, None))
        invariant forall j :: 0 <= j < i ==> GroupServed(protocol, ls, groups[j])
      {
        PlanHead(ks, order, byLimit, i);
        ghost var before := protocol;
        ServeGroup(d, ls, Group(order[i], byLimit[order[i]]), groups[i + 1..], env(1 + i));
        GroupsServedLater(before, protocol, ls, groups, i);
        i := i + 1;
      }
      Return(d, ls, groups);
    }

    /** The dispatcher is done. */
    method Return(d: nat, ls: Listeners, ghost groups: seq<Group>)
      requires At(d, Working(ls, [], None, None, None)) && forall j :: 0 <= j < |groups| ==> GroupServed(protocol, ls, groups[j])
      modifies this`protocol
      ensures At(d, Done(ls)) && forall j :: 0 <= j < |groups| ==> GroupServed(protocol, ls, groups[j])
    {
      ghost var before := protocol;
      ReachableStep(protocol, Finish(d));
      protocol := Do(protocol, Finish(d));
      GroupsServedLater(before, protocol, ls, groups, |groups|);
    }

    /** dispatch, from its sleep to its return: everyone who was waiting when it started has been
        sent a result, whatever the queries return and however other goroutines interleave; and where the
        query service had answered by the time the dispatcher looked, the points of their own coin. */
    method Dispatch(d: nat, env: nat -> Env)
      requires At(d, Sleeping)
      modifies this
      ensures Valid() && d in protocol.dispatchers && protocol.dispatchers[d].Done?
      ensures AllSent(protocol, old(listeners)) && AllTold(protocol, old(listeners))
    {
      Interfere(d, env(0).others(0, 0));
      PendingInKeys(protocol);
      var ls, ks, order, byLimit := TakeBatch(d);
      if |ks| != 0 {
        ServeGroups(d, ls, ks, order, byLimit, env);
        AllGroupsTold(protocol, ls, ks, order, old(listeners));
      }
      DoneSentAll(protocol, d, old(listeners));
    }
  }

  /** What a coin's listeners get: the error, or the points found. */
  function Answer(outcome: Result<map<CoinId, HC.Got>>, c: CoinId): Result<Points> {
    if outcome.Err? then Err(outcome.error) else if c in outcome.value then Ok(outcome.value[c].points) else Ok([])
  }

  lemma RangeEnumerates(ks: seq<Key>, byLimit: map<int, seq<CoinId>>, order: seq<int>)
    requires Grouped(ks, byLimit) && Ordering.NoDup(order) && forall l :: l in order <==> l in byLimit
    ensures Enumerates(order, ks)
  {
    forall i | 0 <= i < |ks| ensures ks[i].limit in order {
      assert HasLimit(ks, ks[i].limit);
    }
  }

  lemma SomeMember(s: set<int>)
    ensures s == {} || exists l :: l in s
  {
    if forall l :: l !in s {
      assert s == {};
    }
  }

  /** range over the group map: every limit once, in some order. */
  method RangeOrder(byLimit: map<int, seq<CoinId>>) returns (order: seq<int>)
    ensures Ordering.NoDup(order) && forall l :: l in order <==> l in byLimit
  {
    order := [];
    var left := byLimit.Keys;
    while left != {}
      invariant Ordering.NoDup(order) && left <= byLimit.Keys
      invariant forall l :: l in order <==> l in byLimit.Keys - left
    {
      SomeMember(left);
      var l :| l in left;
      assert l !in order;
      order := order + [l];
      left := left - {l};
    }
  }
}
