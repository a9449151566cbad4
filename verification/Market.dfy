/** The market domain: events, the state-replacing aggregate and its commands
    (internal/domain, internal/domain/market). */
module Market {

  datatype Option<+T> = None | Some(value: T)

  datatype Result<+T> = Ok(value: T) | Err(error: string)

  /** A coin id is also the aggregate id of its market aggregate. */
  datatype CoinId = CoinId(text: string)

  /** The event_type column: the one type the code knows, or any other text. */
  datatype EventType = NewDataFetchedType | UnknownType(text: string)

  const MARKET := "Market"

  /** Prices are exact numbers and instants are integers: rounding is not modelled. */
  datatype Payload = Payload(coinId: CoinId, symbol: string, name: string,
                             currentPrice: real, marketCap: real, volume24h: real,
                             priceChange24h: real, lastUpdated: int)

  /** The data column: either a document the payload decoder accepts, or one it rejects. */
  datatype Json = Encoded(payload: Payload) | Unreadable(text: string)

  function Marshal(p: Payload): Json { Encoded(p) }

  function Unmarshal(j: Json): Option<Payload> {
    match j
    case Encoded(p) => Some(p)
    case Unreadable(_) => None
  }

  datatype Base = Base(eventType: EventType, aggId: CoinId, aggType: string, version: int, time: int, data: Json)

  /** A MarketEvent carries its decoded payload beside the stored base event. */
  datatype Event = MarketEvent(base: Base, payload: Payload) | OtherEvent(base: Base)

  /** What the outbox publishes: the base event without its aggregate type. */
  datatype Wrapper = Wrapper(eventType: EventType, aggId: CoinId, version: int, time: int, data: Json)

  function Serialize(b: Base): Wrapper {
    Wrapper(b.eventType, b.aggId, b.version, b.time, b.data)
  }

  function Deserialize(eventType: EventType, aggId: CoinId, version: int, time: int, data: Json): (r: Result<Event>)
  {
    if eventType.NewDataFetchedType? then
      match Unmarshal(data)
      case Some(p) => Ok(MarketEvent(Base(eventType, aggId, MARKET, version, time, data), p))
      case None => Err("cannot unmarshal payload")
    else
      Err("unknown event type")
  }

  function Decode(b: Base): Result<Event> {
    Deserialize(b.eventType, b.aggId, b.version, b.time, b.data)
  }

  predicate Decodable(b: Base) { Decode(b).Ok? }

  function PayloadOf(b: Base): Payload
    requires Decodable(b)
  {
    b.data.payload
  }

  datatype MarketData = MarketData(id: CoinId, symbol: string, name: string,
                                   currentPrice: real, marketCap: real, totalVolume: real,
                                   priceChange24h: real, lastUpdated: int)

  datatype Command = FetchMarketData(coinId: CoinId, symbol: string, name: string,
                                     currentPrice: real, marketCap: real, volume24h: real,
                                     priceChange24h: real, lastUpdated: int)
                   | UnknownCommand

  function NewDataFetched(coinId: CoinId, version: int, p: Payload, now: int): Event {
    MarketEvent(Base(NewDataFetchedType, coinId, MARKET, version, now, Marshal(p)), p)
  }

  /** A relayed event reads back as the event that was appended. */
  lemma RelayRoundTrip(coinId: CoinId, version: int, p: Payload, now: int)
    ensures var e := NewDataFetched(coinId, version, p, now);
            var w := Serialize(e.base);
            && Deserialize(w.eventType, w.aggId, w.version, w.time, w.data) == Ok(e)
            && Decode(e.base) == Ok(e)
  {
  }

  /** The value of a MarketAggregate. */
  datatype Aggregate = Aggregate(id: CoinId, version: int, symbol: string, name: string,
                                 currentPrice: real, marketCap: real, volume24h: real, priceChange24h: real)

  function Fresh(coinId: CoinId): Aggregate {
    Aggregate(coinId, 0, "", "", 0.0, 0.0, 0.0, 0.0)
  }

  function Applied(a: Aggregate, e: Event): Aggregate {
    if e.base.eventType.NewDataFetchedType? && e.MarketEvent? then
      Aggregate(a.id, e.base.version, e.payload.symbol, e.payload.name, e.payload.currentPrice,
                e.payload.marketCap, e.payload.volume24h, e.payload.priceChange24h)
    else
      a.(version := e.base.version)
  }

  function Replay(a: Aggregate, events: seq<Event>): Aggregate {
    if events == [] then a else Applied(Replay(a, events[..|events| - 1]), events[|events| - 1])
  }

  predicate Replaces(e: Event) { e.base.eventType.NewDataFetchedType? && e.MarketEvent? }

  /** Replaying keeps the identity and takes the version of the last event, whatever its type. */
  lemma {:induction false} ReplayVersion(a: Aggregate, events: seq<Event>)
    ensures Replay(a, events).id == a.id
    ensures events != [] ==> Replay(a, events).version == events[|events| - 1].base.version
  {
    if events != [] {
      ReplayVersion(a, events[..|events| - 1]);
    }
  }

  /** Hydrating from the last event alone agrees with a full replay exactly when that event
      replaces the state, or the events before it left the six fields untouched. */
  lemma HydrationExact(a: Aggregate, events: seq<Event>)
    requires events != []
    ensures var last := events[|events| - 1];
            var before := Replay(a, events[..|events| - 1]);
            Applied(a, last) == Replay(a, events) <==>
            Replaces(last) || before == a.(version := before.version)
  {
    ReplayVersion(a, events[..|events| - 1]);
  }

  function HandleCommandValue(version: int, cmd: Command, now: int): (r: Result<Event>) {
    match cmd
    case FetchMarketData(coinId, symbol, name, price, cap, volume, change, updated) =>
      if coinId.text == "" then Err("coin ID cannot be empty")
      else if price < 0.0 then Err("current price cannot be negative")
      else Ok(NewDataFetched(coinId, version + 1, Payload(coinId, symbol, name, price, cap, volume, change, updated), now))
    case UnknownCommand => Err("unknown command type")
  }

  function CommandOf(d: MarketData): Command {
    FetchMarketData(d.id, d.symbol, d.name, d.currentPrice, d.marketCap, d.totalVolume, d.priceChange24h, d.lastUpdated)
  }

  /** MarketAggregate with its embedded BaseAggregateRoot. */
  class MarketAggregate {
    var id: CoinId
    var typeName: string
    var version: int
    var uncommitted: seq<Event>
    var symbol: string
    var name: string
    var currentPrice: real
    var marketCap: real
    var volume24h: real
    var priceChange24h: real

    ghost function Value(): Aggregate
      reads this
    {
      Aggregate(id, version, symbol, name, currentPrice, marketCap, volume24h, priceChange24h)
    }

    constructor (coinId: CoinId)
      ensures Value() == Fresh(coinId) && uncommitted == [] && typeName == MARKET
    {
      id, typeName, version, uncommitted := coinId, MARKET, 0, [];
      symbol, name, currentPrice, marketCap, volume24h, priceChange24h := "", "", 0.0, 0.0, 0.0, 0.0;
    }

    method RaiseEvent(e: Event)
      modifies this`uncommitted
      ensures uncommitted == old(uncommitted) + [e]
    {
      uncommitted := uncommitted + [e];
    }

    method ClearUncommittedEvents()
      modifies this`uncommitted
      ensures uncommitted == []
    {
      uncommitted := [];
    }

    method Apply(e: Event, isNew: bool)
      modifies this
      ensures Value() == Applied(old(Value()), e)
      ensures id == old(id) && version == e.base.version
      ensures Replaces(e) ==>
                && symbol == e.payload.symbol && name == e.payload.name && currentPrice == e.payload.currentPrice
                && marketCap == e.payload.marketCap && volume24h == e.payload.volume24h && priceChange24h == e.payload.priceChange24h
      ensures uncommitted == old(uncommitted) + if isNew then [e] else []
      ensures typeName == old(typeName)
    {
      if isNew {
        RaiseEvent(e);
      }
      version := e.base.version;
      if e.base.eventType.NewDataFetchedType? {
        match e {
          case MarketEvent(_, p) =>
            symbol, name := p.symbol, p.name;
            currentPrice, marketCap := p.currentPrice, p.marketCap;
            volume24h, priceChange24h := p.volume24h, p.priceChange24h;
          case OtherEvent(_) =>
        }
      }
    }

    /** Computes an event one version ahead and leaves the aggregate alone. */
    method HandleCommand(cmd: Command, now: int) returns (r: Result<Event>)
      ensures r.Ok? <==> cmd.FetchMarketData? && cmd.coinId.text != "" && cmd.currentPrice >= 0.0
      ensures r.Ok? ==>
                && r.value.base.version == version + 1 && r.value.base.aggId == cmd.coinId
                && Replaces(r.value) && Decode(r.value.base) == r
                && r.value.base.time == now && r.value.base.eventType.NewDataFetchedType? && r.value.base.aggType == "Market"
                && var p := r.value.payload;
                   && p.coinId == cmd.coinId && p.symbol == cmd.symbol && p.name == cmd.name && p.currentPrice == cmd.currentPrice
                   && p.marketCap == cmd.marketCap && p.volume24h == cmd.volume24h && p.priceChange24h == cmd.priceChange24h
                   && p.lastUpdated == cmd.lastUpdated
      ensures r == HandleCommandValue(version, cmd, now)
    {
      match cmd {
        case UnknownCommand => r := Err("unknown command type");
        case FetchMarketData(coinId, symbol, name, price, cap, volume, change, updated) =>
          if coinId.text == "" {
            return Err("coin ID cannot be empty");
          }
          if price < 0.0 {
            return Err("current price cannot be negative");
          }
          var p := Payload(coinId, symbol, name, price, cap, volume, change, updated);
          r := Ok(NewDataFetched(coinId, version + 1, p, now));
      }
    }
  }
}
