/** What every run of the dataloader over the cached history queries guarantees
    (api/graphql/dataloader.go over internal/query/cached_repo.go). */
module DataloaderTheorems {
  import opened Market
  import opened ReadModel
  import opened Grouping
  import opened Dataloader
  import HC = HistoryCache
  import HT = HistoryTheorems
  import Ordering

  // ---------- what is delivered ----------

  /** Ask a was about this key. */
  ghost predicate Covers(a: Ask, k: Key) { a.group.limit == k.limit && k.coin in a.group.coins }

  ghost predicate SentOk(registered: seq<Key>, asks: seq<Ask>, now: int, m: Sent) {
    && m.ch < |registered| && registered[m.ch] == m.key
    && m.ask < |asks| && Covers(asks[m.ask], m.key) && m.answer == AnswerFor(asks[m.ask], m.key.coin)
    && asks[m.ask].at <= m.at <= now
  }

  ghost predicate Learned(asks: seq<Ask>, k: Key, points: Points) {
    exists i :: 0 <= i < |asks| && Covers(asks[i], k) && AnswerFor(asks[i], k.coin) == Ok(points)
  }

  ghost predicate AllSentOk(registered: seq<Key>, asks: seq<Ask>, now: int, sent: seq<Sent>) {
    && (forall i :: 0 <= i < |sent| ==> SentOk(registered, asks, now, sent[i]))
    && (forall i, j :: 0 <= i < j < |sent| ==> sent[i].ch != sent[j].ch)
  }

  ghost predicate CacheOk(asks: seq<Ask>, cache: map<Key, Points>) {
    forall k :: k in cache ==> Learned(asks, k, cache[k])
  }

  ghost predicate ClearAsk(a: Ask) { HT.Clear(QueryOf(a.group), a.misses, a.from) }

  /** An answer holds, for its group's limit, points the cached queries vouch for; if the key of the
      flight it used leaves no doubt it holds them for every coin of the group. */
  ghost predicate AskOk(w: HC.World, a: Ask) {
    && a.since <= a.at <= w.now
    && (a.outcome.Ok? ==>
          && HC.GotsOk(w, a.group.limit, a.outcome.value, a.since) && HT.TakenBy(a.outcome.value, a.at)
          && (ClearAsk(a) ==> forall c :: c in a.group.coins ==> c in a.outcome.value))
  }

  ghost predicate AsksOk(w: HC.World, asks: seq<Ask>) {
    forall i :: 0 <= i < |asks| ==> AskOk(w, asks[i])
  }

  ghost predicate Results(s: State) {
    && AsksOk(s.svc.w, s.asks) && AllSentOk(s.registered, s.asks, s.svc.w.now, s.sent) && CacheOk(s.asks, s.cache)
  }

  // ---------- the query service underneath ----------

  ghost predicate CallFits(asked: seq<HC.Ask>, w: Dispatcher) {
    w.Working? && w.call.Some? ==> w.groups != [] && w.call.value < |asked| && asked[w.call.value] == QueryOf(w.groups[0])
  }

  ghost predicate Backend(s: State) {
    && HT.Inv(s.svc)
    && (forall d :: d in s.dispatchers ==> CallFits(s.svc.asked, s.dispatchers[d]))
  }

  lemma LoadBackend(s: State, k: Key)
    requires Backend(s)
    ensures Backend(Do(s, Load(k)))
  {
  }

  lemma TakeBackend(s: State, d: nat, order: seq<int>)
    requires Backend(s) && Enabled(s, Take(d, order))
    ensures Backend(Do(s, Take(d, order)))
  {
  }

  lemma ServiceBackend(s: State, a: HC.Action)
    requires Backend(s) && Enabled(s, Action.Service(a))
    ensures Backend(Do(s, Action.Service(a)))
  {
    HT.StepKeepsInv(s.svc, a);
    AskedGrows(s.svc, a);
  }

  lemma AskedGrows(s: HC.State, a: HC.Action)
    requires HC.Enabled(s, a)
    ensures s.asked <= HC.Do(s, a).asked
  {
  }

  lemma CallBackend(s: State, d: nat, p: nat)
    requires Backend(s) && Enabled(s, Call(d, p))
    ensures Backend(Do(s, Call(d, p)))
  {
    var w := s.dispatchers[d];
    HT.StepKeepsInv(s.svc, HC.Start(p, QueryOf(w.groups[0])));
  }

  /** Other steps of a dispatcher only drop coins and groups, and end the call before they do. */
  lemma OwnBackend(s: State, s': State, d: nat, v: Dispatcher)
    requires Backend(s) && d in s.dispatchers && s'.svc == s.svc && s'.keys == s.keys && s'.dispatchers == s.dispatchers[d := v]
    requires CallFits(s.svc.asked, v)
    ensures Backend(s')
  {
  }

  lemma DispatcherBackend(s: State, a: Action)
    requires Debts(s) && Backend(s) && Enabled(s, a) && Inner(a) && !a.Service? && !a.Call?
    ensures Backend(Do(s, a))
  {
    var w, v := s.dispatchers[a.d], Do(s, a).dispatchers[a.d];
    assert WorkOk(s.asks, w) && CallFits(s.svc.asked, w);
    OwnBackend(s, Do(s, a), a.d, v);
  }

  lemma StepBackend(s: State, a: Action)
    requires Debts(s) && Backend(s) && Enabled(s, a)
    ensures Backend(Do(s, a))
  {
    match a {
      case Load(k) => LoadBackend(s, k);
      case Take(d, order) => TakeBackend(s, d, order);
      case Service(x) => ServiceBackend(s, x);
      case Call(d, p) => CallBackend(s, d, p);
      case _ => DispatcherBackend(s, a);
    }
  }

  // ---------- every step keeps the results ----------

  lemma LearnedExtends(asks: seq<Ask>, more: seq<Ask>, k: Key, points: Points)
    requires Learned(asks, k, points) && asks <= more
    ensures Learned(more, k, points)
  {
    var i :| 0 <= i < |asks| && Covers(asks[i], k) && AnswerFor(asks[i], k.coin) == Ok(points);
    assert more[i] == asks[i];
  }

  lemma SendAppends(registered: seq<Key>, asks: seq<Ask>, now: int, sent: seq<Sent>, m: Sent)
    requires AllSentOk(registered, asks, now, sent) && SentOk(registered, asks, now, m)
    requires forall i :: 0 <= i < |sent| ==> sent[i].ch != m.ch
    ensures AllSentOk(registered, asks, now, sent + [m])
  {
  }

  lemma SentExtends(registered: seq<Key>, asks: seq<Ask>, now: int, sent: seq<Sent>, r: seq<Key>, a: seq<Ask>, t: int)
    requires AllSentOk(registered, asks, now, sent) && registered <= r && asks <= a && now <= t
    ensures AllSentOk(r, a, t, sent)
  {
  }

  lemma CurrentIsCovered(s: State, d: nat)
    requires Debts(s) && AtWork(s, d) && AtCoin(s.dispatchers[d])
    ensures var w := s.dispatchers[d]; w.asked.value < |s.asks| && Covers(s.asks[w.asked.value], Current(w))
  {
    var w := s.dispatchers[d];
    assert WorkOk(s.asks, w);
    assert w.groups[0].coins[0] in w.groups[0].coins;
  }

  /** The reply to a call answers the call's own group. */
  lemma ReplyIsOk(s: State, d: nat, outcome: Result<nat>)
    requires Backend(s) && Enabled(s, Reply(d, outcome))
    ensures AskOk(s.svc.w, Answered(s, s.dispatchers[d].groups[0], s.dispatchers[d].call.value, outcome))
  {
    var w := s.dispatchers[d];
    assert CallFits(s.svc.asked, w);
    if outcome.Ok? {
      assert HT.ServeOk(s.svc.w, s.svc.asked, s.svc.served[outcome.value]);
    }
  }

  lemma ReplyResults(s: State, d: nat, outcome: Result<nat>)
    requires Backend(s) && Results(s) && Enabled(s, Reply(d, outcome))
    ensures Results(Do(s, Reply(d, outcome)))
  {
    var t := Do(s, Reply(d, outcome));
    ReplyIsOk(s, d, outcome);
    SentExtends(s.registered, s.asks, s.svc.w.now, s.sent, s.registered, t.asks, s.svc.w.now);
    forall k | k in s.cache ensures Learned(t.asks, k, s.cache[k]) {
      LearnedExtends(s.asks, t.asks, k, s.cache[k]);
    }
  }

  lemma StoreResults(s: State, d: nat)
    requires Debts(s) && Results(s) && Enabled(s, Store(d))
    ensures Results(Do(s, Store(d)))
  {
    CurrentIsCovered(s, d);
  }

  lemma SendResults(s: State, d: nat)
    requires Homes(s) && Debts(s) && Results(s) && Enabled(s, Send(d))
    ensures Results(Do(s, Send(d)))
  {
    var w := s.dispatchers[d];
    CurrentIsCovered(s, d);
    SendingIsOwn(s, d);
    assert !IsSent(s, Sending(w));
    assert AskOk(s.svc.w, s.asks[w.asked.value]);
    SendAppends(s.registered, s.asks, s.svc.w.now, s.sent,
                Sent(Sending(w), Current(w), AnswerFor(s.asks[w.asked.value], Current(w).coin), w.asked.value, s.svc.w.now));
  }

  /** The world of the query service only moves on. */
  lemma WorldMoves(s: HC.State, a: HC.Action)
    requires HC.WorldOk(s.w) && HC.Enabled(s, a)
    ensures HT.Later(s.w, HC.Do(s, a).w)
  {
    if a.Tick? {
      HT.TickedIsLater(s.w, a.dt);
    } else if a.Change? {
      HT.ChangedIsLater(s.w, a.table);
    }
  }

  lemma AsksLater(w: HC.World, w': HC.World, asks: seq<Ask>)
    requires AsksOk(w, asks) && HT.Later(w, w')
    ensures AsksOk(w', asks)
  {
    forall i | 0 <= i < |asks| ensures AskOk(w', asks[i]) {
      if asks[i].outcome.Ok? {
        HT.GotsLater(w, w', asks[i].group.limit, asks[i].outcome.value, asks[i].since);
      }
    }
  }

  lemma MovedResults(s: State, t: State)
    requires Results(s) && HT.Later(s.svc.w, t.svc.w)
    requires t.asks == s.asks && t.sent == s.sent && t.cache == s.cache && s.registered <= t.registered
    ensures Results(t)
  {
    AsksLater(s.svc.w, t.svc.w, s.asks);
    SentExtends(s.registered, s.asks, s.svc.w.now, s.sent, t.registered, t.asks, t.svc.w.now);
  }

  lemma StayLater(w: HC.World)
    requires HC.WorldOk(w)
    ensures HT.Later(w, w)
  {
  }

  /** No other step touches queries, results or the cache. */
  lemma MovingResults(s: State, a: Action)
    requires HC.WorldOk(s.svc.w) && Results(s) && Enabled(s, a) && !a.Reply? && !a.Store? && !a.Send?
    ensures Results(Do(s, a))
  {
    match a {
      case Call(d, p) => WorldMoves(s.svc, HC.Start(p, QueryOf(s.dispatchers[d].groups[0])));
      case Service(x) => WorldMoves(s.svc, x);
      case _ => StayLater(s.svc.w);
    }
    var t := Do(s, a);
    assert t.asks == s.asks && t.sent == s.sent && t.cache == s.cache && s.registered <= t.registered;
    MovedResults(s, t);
  }

  lemma StepResults(s: State, a: Action)
    requires Homes(s) && Debts(s) && Backend(s) && Results(s) && Enabled(s, a)
    ensures Results(Do(s, a))
  {
    match a {
      case Reply(d, outcome) => ReplyResults(s, d, outcome);
      case Store(d) => StoreResults(s, d);
      case Send(d) => SendResults(s, d);
      case _ => MovingResults(s, a);
    }
  }

  // ---------- every run ----------

  ghost predicate Inv(s: State) { Batching(s) && Homes(s) && Debts(s) && Backend(s) && Results(s) }

  lemma StepKeepsInv(s: State, a: Action)
    requires Inv(s) && Enabled(s, a)
    ensures Inv(Do(s, a))
  {
    StepBatching(s, a);
    StepHomes(s, a);
    StepDebts(s, a);
    StepBackend(s, a);
    StepResults(s, a);
  }

  lemma {:induction false} RunKeepsInv(s: State, acts: seq<Action>, s': State)
    requires Inv(s) && Run(s, acts, s')
    ensures Inv(s')
    decreases |acts|
  {
    if acts != [] {
      StepKeepsInv(s, acts[0]);
      RunKeepsInv(Do(s, acts[0]), acts[1..], s');
    }
  }

  ghost predicate Reachable(s: State) { exists t, acts :: Run(Init(t), acts, s) }

  lemma InitInv(t: HC.Table)
    ensures Inv(Init(t))
  {
    HT.InitInv(t);
  }

  lemma ReachableInv(s: State)
    requires Reachable(s)
    ensures Inv(s)
  {
    var t, acts :| Run(Init(t), acts, s);
    InitInv(t);
    RunKeepsInv(Init(t), acts, s);
  }

  // ---------- the protocol's promises ----------

  /** Pending keys are non-empty exactly when one dispatcher is waiting, and no two ever wait. */
  lemma OneDispatcherWaits(s: State)
    requires Reachable(s)
    ensures s.keys != [] <==> exists d :: Asleep(s, d)
    ensures forall d, e :: Asleep(s, d) && Asleep(s, e) ==> d == e
    ensures forall k :: k in s.keys <==> k in s.listeners
  {
    ReachableInv(s);
  }

  /** The channel is in a running batch that has yet to serve it. */
  ghost predicate InFlight(s: State, d: nat, ch: nat) {
    HeldBy(s, d, ch) && Owes(s.dispatchers[d], s.registered[ch], ch)
  }

  ghost predicate AnyFlight(s: State, ch: nat) { exists d :: InFlight(s, d, ch) }

  /** Until it is delivered, a registered channel is pending or in one running batch: exactly one of
      the three always holds. */
  lemma OneHome(s: State, ch: nat)
    requires Reachable(s) && ch < |s.registered|
    ensures Pending(s, ch) || AnyFlight(s, ch) || IsSent(s, ch)
    ensures !(Pending(s, ch) && AnyFlight(s, ch)) && !(Pending(s, ch) && IsSent(s, ch)) && !(AnyFlight(s, ch) && IsSent(s, ch))
    ensures forall d, e :: InFlight(s, d, ch) && InFlight(s, e, ch) ==> d == e
  {
    ReachableInv(s);
    assert HasHome(s, ch);
    if !Pending(s, ch) {
      var d :| HeldBy(s, d, ch);
      assert Accounted(s, d, ch);
      if !IsSent(s, ch) {
        assert InFlight(s, d, ch);
      }
    }
    if AnyFlight(s, ch) {
      var d :| InFlight(s, d, ch);
      assert Accounted(s, d, ch);
    }
  }

  /** Each channel receives at most one result. */
  lemma AtMostOneResult(s: State, i: nat, j: nat)
    requires Reachable(s) && i < |s.sent| && j < |s.sent| && s.sent[i].ch == s.sent[j].ch
    ensures i == j
  {
    ReachableInv(s);
  }

  /** No working dispatcher is ever blocked: a send always finds its channel's buffer empty, and a
      query under way can at least fail. */
  lemma NeverBlocked(s: State, d: nat)
    requires Reachable(s) && AtWork(s, d)
    ensures Enabled(s, Call(d, 0)) || Enabled(s, Reply(d, Err(""))) || Enabled(s, Store(d)) || Enabled(s, Send(d)) ||
            Enabled(s, NextCoin(d)) || Enabled(s, NextGroup(d)) || Enabled(s, Finish(d))
  {
    ReachableInv(s);
    WorkHasNext(s, d);
  }

  lemma WorkHasNext(s: State, d: nat)
    requires Homes(s) && Debts(s) && AtWork(s, d)
    ensures Enabled(s, Call(d, 0)) || Enabled(s, Reply(d, Err(""))) || Enabled(s, Store(d)) || Enabled(s, Send(d)) ||
            Enabled(s, NextCoin(d)) || Enabled(s, NextGroup(d)) || Enabled(s, Finish(d))
  {
    var w := s.dispatchers[d];
    assert WorkOk(s.asks, w);
    if w.sending.Some? && w.sending.value != [] {
      SendingIsOwn(s, d);
      assert Accounted(s, d, Sending(w));
    }
  }

  /** A dispatch that has run to completion has served every channel it took. */
  lemma CompletionServesAll(s: State, d: nat, k: Key, ch: nat)
    requires Reachable(s) && d in s.dispatchers && s.dispatchers[d].Done?
    requires k in s.dispatchers[d].listeners && ch in s.dispatchers[d].listeners[k]
    ensures IsSent(s, ch)
  {
    ReachableInv(s);
    assert Belongs(s.registered, s.dispatchers[d].listeners);
    assert HeldBy(s, d, ch) && Accounted(s, d, ch);
  }

  /** The points are the direct query's on a table that was current when they were read.  Served at
      instant t they are as old as the time since the batch's call (or the flight it shared) opened,
      plus, from the cache, 30 s and the open time of the flight that had set them. */
  ghost predicate DirectAndRecent(w: HC.World, k: Key, points: Points, g: HC.Got, since: int, t: int) {
    && g.points == points && HC.WasCurrent(w, g.version, g.readAt) && points == Newest(w.versions[g.version], k.coin, k.limit)
    && since <= g.at <= t
    && (g.setAt.None? ==> t - g.readAt <= t - since)
    && (g.setAt.Some? ==> t - g.readAt <= (t - since) + 30_000 + (g.setAt.value - g.openedAt))
  }

  lemma AnswerIsDirect(w: HC.World, a: Ask, k: Key, t: int)
    requires AskOk(w, a) && Covers(a, k) && a.outcome.Ok? && k.coin in a.outcome.value && a.at <= t
    ensures AnswerFor(a, k.coin).Ok? && DirectAndRecent(w, k, AnswerFor(a, k.coin).value, a.outcome.value[k.coin], a.since, t)
  {
    assert HC.GotOk(w, k.coin, a.group.limit, a.outcome.value[k.coin]);
  }

  /** Each delivered result is the direct query's answer for its own coin and limit, on a table that was
      current recently, or the error of its own limit's batch. */
  lemma DeliveredRefinesDirect(s: State, i: nat)
    requires Reachable(s) && i < |s.sent|
    ensures var m := s.sent[i];
            && m.ch < |s.registered| && m.key == s.registered[m.ch]
            && m.ask < |s.asks| && Covers(s.asks[m.ask], m.key)
            && match s.asks[m.ask].outcome {
                 case Err(e) => m.answer == Err(e)
                 case Ok(res) =>
                   && (ClearAsk(s.asks[m.ask]) ==> m.key.coin in res)
                   && (m.key.coin in res ==> m.answer.Ok? && DirectAndRecent(s.svc.w, m.key, m.answer.value, res[m.key.coin], s.asks[m.ask].since, m.at))
               }
  {
    ReachableInv(s);
    var m := s.sent[i];
    assert SentOk(s.registered, s.asks, s.svc.w.now, m) && AskOk(s.svc.w, s.asks[m.ask]);
    if s.asks[m.ask].outcome.Ok? && m.key.coin in s.asks[m.ask].outcome.value {
      AnswerIsDirect(s.svc.w, s.asks[m.ask], m.key, m.at);
    }
  }

  /** The cache holds only direct answers of batches that succeeded. */
  lemma CacheHoldsAnswers(s: State, k: Key)
    requires Reachable(s) && k in s.cache
    ensures exists i :: && 0 <= i < |s.asks| && s.asks[i].outcome.Ok? && Covers(s.asks[i], k) && AnswerFor(s.asks[i], k.coin) == Ok(s.cache[k])
                        && (ClearAsk(s.asks[i]) ==> k.coin in s.asks[i].outcome.value)
                        && (k.coin in s.asks[i].outcome.value ==>
                              DirectAndRecent(s.svc.w, k, s.cache[k], s.asks[i].outcome.value[k.coin], s.asks[i].since, s.asks[i].at))
  {
    ReachableInv(s);
    var i :| 0 <= i < |s.asks| && Covers(s.asks[i], k) && AnswerFor(s.asks[i], k.coin) == Ok(s.cache[k]);
    assert AskOk(s.svc.w, s.asks[i]);
    if k.coin in s.asks[i].outcome.value {
      AnswerIsDirect(s.svc.w, s.asks[i], k, s.asks[i].at);
    }
  }

  // ---------- every dispatch completes ----------

  function CoinsWeight(l: Listeners, limit: int, coins: seq<CoinId>): nat {
    if coins == [] then 0 else 2 + |ListenersOf(l, Key(coins[0], limit))| + CoinsWeight(l, limit, coins[1..])
  }

  function GroupsWeight(l: Listeners, groups: seq<Group>): nat {
    if groups == [] then 0 else 3 + CoinsWeight(l, groups[0].limit, groups[0].coins) + GroupsWeight(l, groups[1..])
  }

  function GroupLeft(l: Listeners, g: Group, sending: Option<seq<nat>>): nat {
    if sending.Some? && g.coins != [] then 1 + |sending.value| + CoinsWeight(l, g.limit, g.coins[1..])
    else CoinsWeight(l, g.limit, g.coins)
  }

  /** The steps a dispatcher has left. */
  function Weight(w: Dispatcher): nat {
    if !w.Working? then 0
    else if w.groups == [] then 1
    else 2 + (if w.asked.Some? then 0 else if w.call.Some? then 1 else 2) + GroupLeft(w.listeners, w.groups[0], w.sending) + GroupsWeight(w.listeners, w.groups[1..])
  }

  predicate By(a: Action, d: nat) { !a.Load? && !a.Service? && a.d == d }

  function StepsOf(acts: seq<Action>, d: nat): nat {
    if acts == [] then 0 else (if By(acts[0], d) then 1 else 0) + StepsOf(acts[1..], d)
  }

  lemma OwnStep(s: State, a: Action, d: nat)
    requires Debts(s) && AtWork(s, d) && Enabled(s, a) && By(a, d)
    ensures d in Do(s, a).dispatchers && !Do(s, a).dispatchers[d].Sleeping?
    ensures Weight(Do(s, a).dispatchers[d]) + 1 == Weight(s.dispatchers[d])
  {
    var w, v := s.dispatchers[d], Do(s, a).dispatchers[d];
    assert WorkOk(s.asks, w);
    match a {
      case NextCoin(_) => assert v.groups[0].coins == w.groups[0].coins[1..] && v.groups[1..] == w.groups[1..];
      case Send(_) => assert v.groups == w.groups;
      case _ =>
    }
  }

  lemma OtherStep(s: State, a: Action, d: nat)
    requires Batching(s) && d in s.dispatchers && Enabled(s, a) && !By(a, d)
    ensures d in Do(s, a).dispatchers && Do(s, a).dispatchers[d] == s.dispatchers[d]
  {
  }

  lemma DoneStays(s: State, a: Action, d: nat)
    requires Batching(s) && d in s.dispatchers && s.dispatchers[d].Done? && Enabled(s, a)
    ensures !By(a, d)
  {
  }

  /** However it is interleaved, a dispatch that has taken its batch makes exactly Weight steps of
      its own before it is done; until then NeverBlocked gives it a next one. */
  lemma {:induction false} DispatchCompletes(s: State, acts: seq<Action>, s': State, d: nat)
    requires Inv(s) && Run(s, acts, s') && d in s.dispatchers && !s.dispatchers[d].Sleeping?
    ensures d in s'.dispatchers && !s'.dispatchers[d].Sleeping?
    ensures StepsOf(acts, d) + Weight(s'.dispatchers[d]) == Weight(s.dispatchers[d])
    ensures s'.dispatchers[d].Done? <==> StepsOf(acts, d) == Weight(s.dispatchers[d])
    decreases |acts|
  {
    if acts != [] {
      var a, t := acts[0], Do(s, acts[0]);
      StepKeepsInv(s, a);
      if s.dispatchers[d].Done? {
        DoneStays(s, a, d);
      }
      if By(a, d) {
        OwnStep(s, a, d);
      } else {
        OtherStep(s, a, d);
      }
      DispatchCompletes(t, acts[1..], s', d);
    }
  }
}
