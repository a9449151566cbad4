/** The batching protocol of PriceHistoryDataloader (api/graphql/dataloader.go) as a step machine:
    any number of Loads and dispatchers, interleaved at every point where the mutex is free, over the
    cached history queries of module HistoryCache.  Channels are numbered by registration; a dispatcher
    is named by the channel whose Load starts it. */
module Dataloader {
  import opened Market
  import opened ReadModel
  import opened Grouping
  import HC = HistoryCache
  import HistoryTheorems
  import Ordering

  type Points = seq<PricePoint>

  type Listeners = map<Key, seq<nat>>

  /** An answered batch query: its group, its call of the query service and how many answers that had given
      when the dispatcher looked, what came back, the misses of its call and of the flight that completed
      it, since when its call or flight was open, and when it was answered. */
  datatype Ask = Ask(group: Group, call: nat, seen: nat, outcome: Result<map<CoinId, HC.Got>>, misses: seq<CoinId>, from: seq<CoinId>, since: int, at: int)

  /** A result put into a channel, with the number of the batch query it came from, and when. */
  datatype Sent = Sent(ch: nat, key: Key, answer: Result<Points>, ask: nat, at: int)

  /** A working dispatcher has groups left; the first one's query may be under way or answered, and
      the channels of its first coin may be partly served. */
  datatype Dispatcher =
    | Sleeping
    | Working(listeners: Listeners, groups: seq<Group>, call: Option<nat>, asked: Option<nat>, sending: Option<seq<nat>>)
    | Done(listeners: Listeners)

  datatype State = State(
    cache: map<Key, Points>,
    keys: seq<Key>,
    listeners: Listeners,
    registered: seq<Key>,
    dispatchers: map<nat, Dispatcher>,
    svc: HC.State,
    asks: seq<Ask>,
    sent: seq<Sent>)

  datatype Action =
    | Load(key: Key)
    | Take(d: nat, order: seq<int>)
    | Call(d: nat, process: nat)
    | Reply(d: nat, outcome: Result<nat>)
    | Store(d: nat)
    | Send(d: nat)
    | NextCoin(d: nat)
    | NextGroup(d: nat)
    | Finish(d: nat)
    | Service(a: HC.Action)

  function Init(t: HC.Table): State { State(map[], [], map[], [], map[], HC.Init(t), [], []) }

  function ListenersOf(l: Listeners, k: Key): seq<nat> { if k in l then l[k] else [] }

  predicate AtWork(s: State, d: nat) { d in s.dispatchers && s.dispatchers[d].Working? }

  /** The query for the first group has been answered and the group has coins left. */
  predicate AtCoin(w: Dispatcher) { w.Working? && w.groups != [] && w.asked.Some? && w.groups[0].coins != [] }

  function Current(w: Dispatcher): Key
    requires AtCoin(w)
  {
    Key(w.groups[0].coins[0], w.groups[0].limit)
  }

  /** What a coin's listeners get: the group's error, or the points found (none if absent). */
  function AnswerFor(a: Ask, c: CoinId): Result<Points> {
    match a.outcome
    case Ok(res) => Ok(if c in res then res[c].points else [])
    case Err(e) => Err(e)
  }

  /** The query of a group, as a call of the query service. */
  function QueryOf(g: Group): HC.Ask { HC.Many(g.coins, g.limit) }

  /** GetPriceHistories returns the answer served to this dispatcher's call, or fails at any time
      (its context ends after five seconds). */
  predicate Returns(s: State, call: nat, outcome: Result<nat>) {
    outcome.Ok? ==> outcome.value < |s.svc.served| && s.svc.served[outcome.value].call == call
  }

  predicate Enabled(s: State, a: Action) {
    match a
    case Load(_) => true
    case Take(d, order) => d in s.dispatchers && s.dispatchers[d].Sleeping? && Enumerates(order, s.keys)
    case Call(d, _) => AtWork(s, d) && s.dispatchers[d].groups != [] && s.dispatchers[d].asked.None? && s.dispatchers[d].call.None?
    case Reply(d, outcome) =>
      AtWork(s, d) && s.dispatchers[d].groups != [] && s.dispatchers[d].call.Some? && Returns(s, s.dispatchers[d].call.value, outcome)
    case Store(d) => AtWork(s, d) && AtCoin(s.dispatchers[d]) && s.dispatchers[d].asked.value < |s.asks| && s.dispatchers[d].sending.None?
    case Send(d) =>
      && AtWork(s, d) && AtCoin(s.dispatchers[d]) && s.dispatchers[d].asked.value < |s.asks|
      && s.dispatchers[d].sending.Some? && s.dispatchers[d].sending.value != []
      && !IsSent(s, Sending(s.dispatchers[d]))
    case NextCoin(d) => AtWork(s, d) && AtCoin(s.dispatchers[d]) && s.dispatchers[d].sending == Some([])
    case NextGroup(d) =>
      AtWork(s, d) && s.dispatchers[d].groups != [] && s.dispatchers[d].asked.Some? && s.dispatchers[d].groups[0].coins == []
    case Finish(d) => AtWork(s, d) && s.dispatchers[d].groups == []
    case Service(a) => HC.Enabled(s.svc, a)
  }

  /** A value is in (or has passed through) the channel's one-place buffer: a second send to it
      could block, so Send is enabled only on an unused channel. */
  predicate IsSent(s: State, ch: nat) { exists i :: 0 <= i < |s.sent| && s.sent[i].ch == ch }

  function Started(w: Dispatcher): Dispatcher
    requires AtCoin(w)
  {
    w.(sending := Some(ListenersOf(w.listeners, Current(w))))
  }

  function Advanced(w: Dispatcher): Dispatcher
    requires AtCoin(w)
  {
    w.(groups := [w.groups[0].(coins := w.groups[0].coins[1..])] + w.groups[1..], sending := None)
  }

  function Popped(w: Dispatcher): Dispatcher
    requires w.Working? && w.groups != []
  {
    w.(groups := w.groups[1..], call := None, asked := None, sending := None)
  }

  function Sending(w: Dispatcher): nat
    requires w.Working? && w.sending.Some? && w.sending.value != []
  {
    w.sending.value[0]
  }

  function Answered(s: State, g: Group, call: nat, outcome: Result<nat>): Ask
    requires outcome.Ok? ==> outcome.value < |s.svc.served|
  {
    match outcome
    case Ok(j) =>
      var v := s.svc.served[j];
      Ask(g, call, |s.svc.served|, Ok(v.answer), v.misses, v.from, v.since, s.svc.w.now)
    case Err(e) => Ask(g, call, |s.svc.served|, Err(e), [], [], s.svc.w.now, s.svc.w.now)
  }

  function With(s: State, d: nat, w: Dispatcher): State { s.(dispatchers := s.dispatchers[d := w]) }

  function Do(s: State, a: Action): State
    requires Enabled(s, a)
  {
    match a
    case Load(k) =>
      if k in s.cache then s else
        var ch := |s.registered|;
        var t := s.(listeners := s.listeners[k := ListenersOf(s.listeners, k) + [ch]],
                    keys := s.keys + [k],
                    registered := s.registered + [k]);
        if s.keys == [] then With(t, ch, Sleeping) else t
    case Take(d, order) =>
      var t := s.(keys := [], listeners := map[]);
      With(t, d, if s.keys == [] then Done(s.listeners) else Working(s.listeners, Plan(s.keys, order), None, None, None))
    case Call(d, p) =>
      var w := s.dispatchers[d];
      With(s.(svc := HC.Do(s.svc, HC.Start(p, QueryOf(w.groups[0])))), d, w.(call := Some(|s.svc.asked|)))
    case Reply(d, outcome) =>
      var w := s.dispatchers[d];
      With(s.(asks := s.asks + [Answered(s, w.groups[0], w.call.value, outcome)]), d, w.(call := None, asked := Some(|s.asks|)))
    case Store(d) =>
      var w := s.dispatchers[d];
      var answer := AnswerFor(s.asks[w.asked.value], Current(w).coin);
      var t := if answer.Ok? then s.(cache := s.cache[Current(w) := answer.value]) else s;
      With(t, d, Started(w))
    case Send(d) =>
      var w := s.dispatchers[d];
      var m := Sent(Sending(w), Current(w), AnswerFor(s.asks[w.asked.value], Current(w).coin), w.asked.value, s.svc.w.now);
      With(s.(sent := s.sent + [m]), d, w.(sending := Some(w.sending.value[1..])))
    case NextCoin(d) => With(s, d, Advanced(s.dispatchers[d]))
    case NextGroup(d) => With(s, d, Popped(s.dispatchers[d]))
    case Finish(d) => With(s, d, Done(s.dispatchers[d].listeners))
    case Service(x) => s.(svc := HC.Do(s.svc, x))
  }

  ghost predicate Run(s: State, acts: seq<Action>, s': State)
    decreases |acts|
  {
    if acts == [] then s == s'
    else Enabled(s, acts[0]) && Run(Do(s, acts[0]), acts[1..], s')
  }

  // ---------- pending keys and the waiting dispatcher ----------

  /** Every listener list is non-empty, repeats no channel and holds channels registered for its key. */
  ghost predicate Belongs(registered: seq<Key>, l: Listeners) {
    forall k :: k in l ==> l[k] != [] && Ordering.NoDup(l[k]) && OwnChannels(registered, k, l[k])
  }

  ghost predicate OwnChannels(registered: seq<Key>, k: Key, chs: seq<nat>) {
    forall i :: 0 <= i < |chs| ==> chs[i] < |registered| && registered[chs[i]] == k
  }

  ghost predicate Asleep(s: State, d: nat) { d in s.dispatchers && s.dispatchers[d].Sleeping? }

  /** Keys are pending exactly when a dispatcher is waiting for them, and never two. */
  ghost predicate Batching(s: State) {
    && Belongs(s.registered, s.listeners)
    && (forall k :: k in s.keys <==> k in s.listeners)
    && (s.keys != [] <==> exists d :: Asleep(s, d))
    && (forall d, e :: Asleep(s, d) && Asleep(s, e) ==> d == e)
    && (forall d :: d in s.dispatchers ==> d < |s.registered|)
  }

  lemma RegisterBelongs(registered: seq<Key>, l: Listeners, k: Key)
    requires Belongs(registered, l)
    ensures Belongs(registered + [k], l[k := ListenersOf(l, k) + [|registered|]])
  {
  }

  /** Steps other than Load and Take keep the critical section's fields and who holds what. */
  predicate Inner(a: Action) { !a.Load? && !a.Take? }

  ghost predicate SameShape(v: Dispatcher, w: Dispatcher) {
    (v.Sleeping? <==> w.Sleeping?) && (!v.Sleeping? && !w.Sleeping? ==> v.listeners == w.listeners)
  }

  lemma InnerFrame(s: State, a: Action)
    requires Enabled(s, a) && Inner(a)
    ensures var t := Do(s, a);
            && t.keys == s.keys && t.listeners == s.listeners && t.registered == s.registered
            && t.dispatchers.Keys == s.dispatchers.Keys
            && forall d :: d in s.dispatchers ==> SameShape(s.dispatchers[d], t.dispatchers[d])
  {
  }

  lemma LoadBatching(s: State, k: Key)
    requires Batching(s)
    ensures Batching(Do(s, Load(k)))
  {
    var t := Do(s, Load(k));
    if k !in s.cache {
      RegisterBelongs(s.registered, s.listeners, k);
      if s.keys == [] {
        assert Asleep(t, |s.registered|);
      } else {
        var d :| Asleep(s, d);
        assert Asleep(t, d);
      }
      assert t.keys[|s.keys|] == k;
      assert forall d :: Asleep(t, d) ==> Asleep(s, d) || (s.keys == [] && d == |s.registered|);
    }
  }

  lemma TakeBatching(s: State, d: nat, order: seq<int>)
    requires Batching(s) && Enabled(s, Take(d, order))
    ensures Batching(Do(s, Take(d, order)))
  {
    var t := Do(s, Take(d, order));
    assert Asleep(s, d);
    forall e ensures !Asleep(t, e) {
      if e != d && Asleep(t, e) {
        assert Asleep(s, e);
      }
    }
  }

  lemma StepBatching(s: State, a: Action)
    requires Batching(s) && Enabled(s, a)
    ensures Batching(Do(s, a))
  {
    if a.Load? {
      LoadBatching(s, a.key);
    } else if a.Take? {
      TakeBatching(s, a.d, a.order);
    } else {
      InnerFrame(s, a);
      var t := Do(s, a);
      assert forall d :: Asleep(t, d) <==> Asleep(s, d);
    }
  }

  // ---------- every channel has one home ----------

  ghost predicate Holds(l: Listeners, k: Key, ch: nat) { k in l && ch in l[k] }

  ghost predicate Pending(s: State, ch: nat) { ch < |s.registered| && Holds(s.listeners, s.registered[ch], ch) }

  /** The channel is among those dispatcher d took, served or not. */
  ghost predicate HeldBy(s: State, d: nat, ch: nat) {
    ch < |s.registered| && d in s.dispatchers && !s.dispatchers[d].Sleeping? && Holds(s.dispatchers[d].listeners, s.registered[ch], ch)
  }

  ghost predicate HasHome(s: State, ch: nat) { Pending(s, ch) || exists d :: HeldBy(s, d, ch) }

  /** Every channel is pending or was taken by one dispatcher. */
  ghost predicate Homes(s: State) {
    && (forall d :: d in s.dispatchers && !s.dispatchers[d].Sleeping? ==> Belongs(s.registered, s.dispatchers[d].listeners))
    && (forall ch :: 0 <= ch < |s.registered| ==> HasHome(s, ch))
    && (forall d, ch :: HeldBy(s, d, ch) ==> !Pending(s, ch))
    && (forall d, e, ch :: HeldBy(s, d, ch) && HeldBy(s, e, ch) ==> d == e)
  }

  lemma BelongsExtends(registered: seq<Key>, k: Key, l: Listeners)
    requires Belongs(registered, l)
    ensures Belongs(registered + [k], l)
  {
  }

  lemma LoadHomes(s: State, k: Key)
    requires Batching(s) && Homes(s)
    ensures Homes(Do(s, Load(k)))
  {
    if k !in s.cache {
      var t, n := Do(s, Load(k)), |s.registered|;
      forall d | d in s.dispatchers && !s.dispatchers[d].Sleeping? ensures Belongs(t.registered, s.dispatchers[d].listeners) {
        BelongsExtends(s.registered, k, s.dispatchers[d].listeners);
      }
      assert t.listeners[k][|t.listeners[k]| - 1] == n;
      assert Pending(t, n);
      forall ch | 0 <= ch < n ensures Pending(t, ch) <==> Pending(s, ch) {
        assert t.registered[ch] == s.registered[ch];
      }
      forall d: nat, ch: nat | HeldBy(t, d, ch) ensures HeldBy(s, d, ch) {
        NotHeldYet(s, d, n, t.registered[ch]);
      }
      forall ch | 0 <= ch < n ensures HasHome(t, ch) {
        assert HasHome(s, ch);
        if !Pending(s, ch) {
          var d :| HeldBy(s, d, ch);
          assert HeldBy(t, d, ch);
        }
      }
    }
  }

  lemma NotHeldYet(s: State, d: nat, n: nat, k: Key)
    requires Homes(s) && n == |s.registered|
    ensures d in s.dispatchers && !s.dispatchers[d].Sleeping? ==> !Holds(s.dispatchers[d].listeners, k, n)
  {
    if d in s.dispatchers && !s.dispatchers[d].Sleeping? && k in s.dispatchers[d].listeners {
      assert OwnChannels(s.registered, k, s.dispatchers[d].listeners[k]);
    }
  }

  lemma TakeHomes(s: State, d: nat, order: seq<int>)
    requires Batching(s) && Homes(s) && Enabled(s, Take(d, order))
    ensures Homes(Do(s, Take(d, order)))
  {
    var t := Do(s, Take(d, order));
    forall e: nat, ch: nat ensures HeldBy(t, e, ch) <==> if e == d then Pending(s, ch) else HeldBy(s, e, ch) {
    }
    forall ch | 0 <= ch < |t.registered| ensures HasHome(t, ch) {
      assert HasHome(s, ch);
      if Pending(s, ch) {
        assert HeldBy(t, d, ch);
      } else {
        var e :| HeldBy(s, e, ch);
        assert HeldBy(t, e, ch);
      }
    }
  }

  lemma InnerHomes(s: State, a: Action)
    requires Homes(s) && Enabled(s, a) && Inner(a)
    ensures Homes(Do(s, a))
    ensures forall ch :: Pending(Do(s, a), ch) <==> Pending(s, ch)
    ensures forall d, ch :: HeldBy(Do(s, a), d, ch) <==> HeldBy(s, d, ch)
  {
    var t := Do(s, a);
    InnerFrame(s, a);
    forall d: nat, ch: nat ensures HeldBy(t, d, ch) <==> HeldBy(s, d, ch) {
      if d in s.dispatchers {
        assert SameShape(s.dispatchers[d], t.dispatchers[d]);
      }
    }
    forall ch | 0 <= ch < |t.registered| ensures HasHome(t, ch) {
      assert HasHome(s, ch);
      if !Pending(s, ch) {
        var d :| HeldBy(s, d, ch);
        assert HeldBy(t, d, ch);
      }
    }
  }

  lemma StepHomes(s: State, a: Action)
    requires Batching(s) && Homes(s) && Enabled(s, a)
    ensures Homes(Do(s, a))
  {
    if a.Load? {
      LoadHomes(s, a.key);
    } else if a.Take? {
      TakeHomes(s, a.d, a.order);
    } else {
      InnerHomes(s, a);
    }
  }

  // ---------- what a dispatcher still owes ----------

  ghost predicate AllIn(chs: seq<nat>, other: seq<nat>) { forall i :: 0 <= i < |chs| ==> chs[i] in other }

  ghost predicate AskFits(asks: seq<Ask>, i: nat, g: Group) {
    i < |asks| && asks[i].group.limit == g.limit && forall c :: c in g.coins ==> c in asks[i].group.coins
  }

  ghost predicate WorkOk(asks: seq<Ask>, w: Dispatcher) {
    w.Working? ==>
      && Proper(w.groups)
      && (w.call.Some? ==> w.groups != [] && w.asked.None?)
      && (w.asked.Some? ==> w.groups != [] && AskFits(asks, w.asked.value, w.groups[0]))
      && (w.sending.Some? ==> AtCoin(w) && Ordering.NoDup(w.sending.value) && AllIn(w.sending.value, ListenersOf(w.listeners, Current(w))))
  }

  /** The dispatcher has yet to serve this channel of key k. */
  ghost predicate Owes(w: Dispatcher, k: Key, ch: nat) {
    w.Working? &&
    if w.sending.Some? && AtCoin(w) && k == Current(w) then ch in w.sending.value
    else InPlan(w.groups, k) && Holds(w.listeners, k, ch)
  }

  /** Of the channels a dispatcher took, those it does not owe have been sent a result. */
  ghost predicate Accounted(s: State, d: nat, ch: nat) {
    HeldBy(s, d, ch) ==> (Owes(s.dispatchers[d], s.registered[ch], ch) <==> !IsSent(s, ch))
  }

  ghost predicate Debts(s: State) {
    && (forall d :: d in s.dispatchers ==> WorkOk(s.asks, s.dispatchers[d]))
    && (forall d, ch :: Accounted(s, d, ch))
    && (forall ch :: Pending(s, ch) ==> !IsSent(s, ch))
    && (forall i :: 0 <= i < |s.sent| ==> s.sent[i].ch < |s.registered|)
  }

  /** Store, NextCoin and NextGroup leave the debts as they are. */
  ghost predicate SameDebts(w: Dispatcher, v: Dispatcher) {
    forall k, ch :: Owes(w, k, ch) <==> Owes(v, k, ch)
  }

  lemma StartedOk(asks: seq<Ask>, registered: seq<Key>, w: Dispatcher)
    requires WorkOk(asks, w) && AtCoin(w) && w.sending.None? && Belongs(registered, w.listeners)
    ensures WorkOk(asks, Started(w)) && SameDebts(w, Started(w))
  {
    assert w.groups[0].coins[0] in w.groups[0].coins;
    assert InPlan(w.groups, Current(w));
  }

  lemma AdvancedPlan(w: Dispatcher, k: Key)
    requires AtCoin(w) && Proper(w.groups)
    ensures InPlan(Advanced(w).groups, k) <==> InPlan(w.groups, k) && k != Current(w)
  {
    var g, h, c := w.groups, Advanced(w).groups, w.groups[0].coins;
    assert c == [c[0]] + c[1..];
    assert c[0] !in c[1..];
    assert forall i :: 1 <= i < |g| ==> h[i] == g[i];
    if InPlan(g, k) && k != Current(w) {
      var i :| 0 <= i < |g| && g[i].limit == k.limit && k.coin in g[i].coins;
      assert h[i].limit == k.limit && k.coin in h[i].coins;
    }
    if InPlan(h, k) {
      var i :| 0 <= i < |h| && h[i].limit == k.limit && k.coin in h[i].coins;
      assert g[i].limit == k.limit && k.coin in g[i].coins;
    }
  }

  lemma AdvancedOk(asks: seq<Ask>, w: Dispatcher)
    requires WorkOk(asks, w) && AtCoin(w) && w.sending == Some([])
    ensures WorkOk(asks, Advanced(w)) && SameDebts(w, Advanced(w))
  {
    var c := w.groups[0].coins;
    assert c == [c[0]] + c[1..];
    forall k, ch ensures Owes(w, k, ch) <==> Owes(Advanced(w), k, ch) {
      AdvancedPlan(w, k);
    }
  }

  lemma PoppedOk(asks: seq<Ask>, w: Dispatcher)
    requires WorkOk(asks, w) && w.Working? && w.groups != [] && w.groups[0].coins == []
    ensures WorkOk(asks, Popped(w)) && SameDebts(w, Popped(w))
  {
    var g := w.groups;
    forall k ensures InPlan(g[1..], k) <==> InPlan(g, k) {
      if InPlan(g, k) {
        var i :| 0 <= i < |g| && g[i].limit == k.limit && k.coin in g[i].coins;
        assert g[1..][i - 1] == g[i];
      }
    }
  }

  lemma FinishedDebts(w: Dispatcher)
    requires w.Working? && w.groups == []
    ensures SameDebts(w, Done(w.listeners))
  {
  }

  lemma AskedOk(asks: seq<Ask>, w: Dispatcher, a: Ask)
    requires WorkOk(asks, w) && w.Working? && w.groups != [] && w.call.Some? && a.group == w.groups[0]
    ensures var v := w.(call := None, asked := Some(|asks|)); WorkOk(asks + [a], v) && SameDebts(w, v)
  {
  }

  lemma CalledOk(asks: seq<Ask>, w: Dispatcher, n: nat)
    requires WorkOk(asks, w) && w.Working? && w.groups != [] && w.asked.None?
    ensures WorkOk(asks, w.(call := Some(n))) && SameDebts(w, w.(call := Some(n)))
  {
  }

  /** Call, Reply, Store, NextCoin, NextGroup and Finish: debts unchanged, nothing sent. */
  lemma QuietStep(s: State, a: Action)
    requires Homes(s) && Debts(s) && Enabled(s, a) && Inner(a) && !a.Send? && !a.Service?
    ensures SameDebts(s.dispatchers[a.d], Do(s, a).dispatchers[a.d])
    ensures WorkOk(Do(s, a).asks, Do(s, a).dispatchers[a.d])
    ensures Do(s, a).sent == s.sent && s.asks <= Do(s, a).asks
  {
    var w := s.dispatchers[a.d];
    match a {
      case Call(d, p) => CalledOk(s.asks, w, |s.svc.asked|);
      case Reply(d, outcome) => AskedOk(s.asks, w, Answered(s, w.groups[0], w.call.value, outcome));
      case Store(d) => StartedOk(s.asks, s.registered, w);
      case NextCoin(d) => AdvancedOk(s.asks, w);
      case NextGroup(d) => PoppedOk(s.asks, w);
      case Finish(d) => FinishedDebts(w);
    }
  }

  lemma WorkOkExtends(asks: seq<Ask>, more: seq<Ask>, w: Dispatcher)
    requires WorkOk(asks, w) && asks <= more
    ensures WorkOk(more, w)
  {
  }

  lemma OthersKept(s: State, a: Action, e: nat)
    requires Enabled(s, a) && Inner(a) && e in s.dispatchers && (a.Service? || e != a.d)
    ensures e in Do(s, a).dispatchers && Do(s, a).dispatchers[e] == s.dispatchers[e]
  {
  }

  lemma QuietDebts(s: State, a: Action)
    requires Homes(s) && Debts(s) && Enabled(s, a) && Inner(a) && !a.Send?
    ensures Debts(Do(s, a))
  {
    var t := Do(s, a);
    InnerHomes(s, a);
    InnerFrame(s, a);
    if !a.Service? {
      QuietStep(s, a);
    }
    forall e | e in t.dispatchers ensures WorkOk(t.asks, t.dispatchers[e]) && SameDebts(s.dispatchers[e], t.dispatchers[e]) {
      if a.Service? || e != a.d {
        OthersKept(s, a, e);
        WorkOkExtends(s.asks, t.asks, s.dispatchers[e]);
      }
    }
    forall d: nat, ch: nat ensures Accounted(t, d, ch) {
      assert Accounted(s, d, ch);
      assert IsSent(t, ch) <==> IsSent(s, ch);
    }
    forall ch: nat | Pending(t, ch) ensures !IsSent(t, ch) {
      assert IsSent(t, ch) <==> IsSent(s, ch);
    }
  }

  // ---------- the sending step ----------

  lemma SendOne(asks: seq<Ask>, w: Dispatcher)
    requires WorkOk(asks, w) && w.Working? && w.sending.Some? && w.sending.value != []
    ensures var v := w.(sending := Some(w.sending.value[1..]));
            && WorkOk(asks, v)
            && forall k, ch :: Owes(v, k, ch) <==> Owes(w, k, ch) && !(k == Current(w) && ch == Sending(w))
  {
    var q := w.sending.value;
    assert q == [q[0]] + q[1..];
    assert q[0] !in q[1..];
  }

  /** The channel a dispatcher is about to serve is its own, registered for the current key. */
  lemma SendingIsOwn(s: State, d: nat)
    requires Homes(s) && Debts(s) && AtWork(s, d) && s.dispatchers[d].sending.Some? && s.dispatchers[d].sending.value != []
    ensures var w := s.dispatchers[d];
            && HeldBy(s, d, Sending(w)) && s.registered[Sending(w)] == Current(w) && Owes(w, Current(w), Sending(w))
  {
    var w := s.dispatchers[d];
    assert Sending(w) in ListenersOf(w.listeners, Current(w));
    assert Belongs(s.registered, w.listeners);
  }

  lemma SendDebts(s: State, d: nat)
    requires Homes(s) && Debts(s) && Enabled(s, Send(d))
    ensures Debts(Do(s, Send(d)))
  {
    var t, w := Do(s, Send(d)), s.dispatchers[d];
    InnerHomes(s, Send(d));
    InnerFrame(s, Send(d));
    SendOne(s.asks, w);
    SendingIsOwn(s, d);
    forall ch: nat ensures IsSent(t, ch) <==> IsSent(s, ch) || ch == Sending(w) {
      SentGrows(s.sent, t.sent[|s.sent|], ch);
    }
    forall e | e in t.dispatchers ensures WorkOk(t.asks, t.dispatchers[e]) {
      if e != d {
        OthersKept(s, Send(d), e);
      }
    }
    forall e: nat, ch: nat ensures Accounted(t, e, ch) {
      assert Accounted(s, e, ch);
      if HeldBy(t, e, ch) && e != d {
        OthersKept(s, Send(d), e);
        assert ch != Sending(w);
      }
    }
  }

  lemma SentGrows(sent: seq<Sent>, m: Sent, ch: nat)
    ensures (exists i :: 0 <= i < |sent + [m]| && (sent + [m])[i].ch == ch) <==>
            (exists i :: 0 <= i < |sent| && sent[i].ch == ch) || ch == m.ch
  {
    assert (sent + [m])[|sent|] == m;
    if i :| 0 <= i < |sent| && sent[i].ch == ch {
      assert (sent + [m])[i].ch == ch;
    }
  }

  lemma LoadDebts(s: State, k: Key)
    requires Batching(s) && Homes(s) && Debts(s)
    ensures Debts(Do(s, Load(k)))
  {
    if k !in s.cache {
      var t, n := Do(s, Load(k)), |s.registered|;
      assert forall ch: nat :: IsSent(t, ch) <==> IsSent(s, ch);
      forall d: nat, ch: nat ensures Accounted(t, d, ch) {
        assert Accounted(s, d, ch);
        NotHeldYet(s, d, n, k);
      }
      forall ch: nat | Pending(t, ch) ensures !IsSent(t, ch) {
        assert ch < n ==> Pending(s, ch);
      }
    }
  }

  lemma TakeDebts(s: State, d: nat, order: seq<int>)
    requires Batching(s) && Homes(s) && Debts(s) && Enabled(s, Take(d, order))
    ensures Debts(Do(s, Take(d, order)))
  {
    var t := Do(s, Take(d, order));
    assert Asleep(s, d) && s.keys != [];
    PlanCovers(s.keys, order);
    assert forall ch: nat :: IsSent(t, ch) <==> IsSent(s, ch);
    assert WorkOk(t.asks, t.dispatchers[d]);
    forall e: nat, ch: nat ensures Accounted(t, e, ch) {
      assert Accounted(s, e, ch);
      if e == d && HeldBy(t, d, ch) {
        assert Pending(s, ch);
      }
    }
  }

  lemma StepDebts(s: State, a: Action)
    requires Batching(s) && Homes(s) && Debts(s) && Enabled(s, a)
    ensures Debts(Do(s, a))
  {
    if a.Load? {
      LoadDebts(s, a.key);
    } else if a.Take? {
      TakeDebts(s, a.d, a.order);
    } else if a.Send? {
      SendDebts(s, a.d);
    } else {
      QuietDebts(s, a);
    }
  }
}
