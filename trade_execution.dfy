/**
 * TradeExecution: the exchange operations. Each request operation draws a
 * correlation id from the shared counter, sends one envelope over the
 * socket and takes the very next message read as its reply. Market data is
 * routed by symbol to the handler registered for it.
 */
module Trading {
  import opened Wrappers
  import opened Json
  import opened Requests
  import opened RequestIds
  import opened Socket

  /** A registered callback, known only by identity. */
  type HandlerId = nat

  /** What `handleMarketData` does with one message. */
  datatype Delivery =
    | Invoked(handler: HandlerId, payload: Json)
    | NoSubscribers(symbol: string)  // logged: "No subscribers for symbol"
    | MissingSymbol                  // logged: "Invalid market data: Missing 'symbol'"
    | SymbolNotString                // converting `data["symbol"]` to a string throws to the caller

  /** `handleMarketData`: exact-key lookup of the message's symbol in the subscriber table. */
  function Route(subscribers: map<string, HandlerId>, data: Json): (d: Delivery)
    ensures d == MissingSymbol <==> !Contains(data, "symbol")
    ensures d == SymbolNotString <==> Contains(data, "symbol") && !Get(data, "symbol").value.Str?
    ensures d.Invoked? <==>
      Contains(data, "symbol") && Get(data, "symbol").value.Str? && Get(data, "symbol").value.s in subscribers
    ensures d.Invoked? ==> d.handler == subscribers[Get(data, "symbol").value.s] && d.payload == data
    ensures d.NoSubscribers? ==> Get(data, "symbol") == Some(Str(d.symbol)) && d.symbol !in subscribers
  {
    match Get(data, "symbol")
    case None => MissingSymbol
    case Some(Str(symbol)) => if symbol in subscribers then Invoked(subscribers[symbol], data) else NoSubscribers(symbol)
    case Some(_) => SymbolNotString
  }

  /** Registering a handler changes the routing of its own symbol only. */
  lemma RouteAfterAdd(subscribers: map<string, HandlerId>, symbol: string, handler: HandlerId, data: Json)
    ensures Route(subscribers[symbol := handler], data) ==
      if Get(data, "symbol") == Some(Str(symbol)) then Invoked(handler, data) else Route(subscribers, data)
  {
  }

  /** With the table cleared, no handler is ever invoked. */
  lemma RouteAfterClear(data: Json)
    ensures !Route(map[], data).Invoked?
  {
  }

  /** `authenticate`'s check of the reply: the `result` member, or failure carrying the whole reply. */
  function AuthOutcome(reply: Json): (r: Result<Json, Json>)
    ensures r.Success? <==> Contains(reply, "result")
    ensures r.Success? ==> Get(reply, "result") == Some(r.value)
    ensures r.Failure? ==> r.error == reply
  {
    match Get(reply, "result")
    case Some(result) => Success(result)
    case None => Failure(reply)
  }

  /** A failed read yields null, and null has no `result`: authentication then fails. */
  lemma AuthFailsWithoutReply()
    ensures AuthOutcome(NextMessage([])).Failure?
    ensures AuthOutcome(NextMessage([Garbled])).Failure?
  {
  }

  class TradeExecution {
    const websocket: WebSocketHandler
    /** The static counter: every instance is given the same object. */
    const ids: RequestCounter
    /** `market_data_subscribers_`, an ordered map from symbol to callback. */
    var subscribers: map<string, HandlerId>

    constructor (websocket: WebSocketHandler, ids: RequestCounter)
      ensures this.websocket == websocket && this.ids == ids
      ensures subscribers == map[]
    {
      this.websocket := websocket;
      this.ids := ids;
      subscribers := map[];
    }

    /** One envelope for `c` went out, under the id the counter held, and the counter moved on by one. */
    twostate predicate Sent(c: Command)
      reads websocket, ids
    {
      && websocket.sent == old(websocket.sent) + [Encode(old(ids.next) as int, c)]
      && ids.next == Successor(old(ids.next))
    }

    /** Exactly one frame was consumed from the socket. */
    twostate predicate ReadOne()
      reads websocket
    {
      websocket.incoming == if old(websocket.incoming) == [] then [] else old(websocket.incoming)[1..]
    }

    /** Send `c` under a fresh id and take the next message as the reply. */
    method Exchange(c: Command) returns (reply: Json)
      modifies websocket, ids
      ensures Sent(c) && ReadOne()
      ensures reply == NextMessage(old(websocket.incoming))
    {
      var id := ids.GetNextRequestId();
      websocket.SendMessage(Encode(id as int, c));
      reply := websocket.ReadMessage();
    }

    /** `authenticate`: client credentials; succeeds with the reply's `result`, fails without one. */
    method Authenticate(clientId: string, clientSecret: string) returns (r: Result<Json, Json>)
      modifies websocket, ids
      ensures Sent(Auth(clientId, clientSecret)) && ReadOne()
      ensures r == AuthOutcome(NextMessage(old(websocket.incoming)))
    {
      var reply := Exchange(Auth(clientId, clientSecret));
      r := AuthOutcome(reply);
    }

    /** `getInstruments`. */
    method GetInstruments(currency: string, kind: string, expired: bool) returns (reply: Json)
      modifies websocket, ids
      ensures Sent(Command.GetInstruments(currency, kind, expired)) && ReadOne()
      ensures reply == NextMessage(old(websocket.incoming))
    {
      reply := Exchange(Command.GetInstruments(currency, kind, expired));
    }

    /** `placeBuyOrder`: a limit buy for the amount at the price given. */
    method PlaceBuyOrder(instrument: string, amount: Double, price: Double) returns (reply: Json)
      modifies websocket, ids
      ensures Sent(Buy(instrument, amount, price)) && ReadOne()
      ensures reply == NextMessage(old(websocket.incoming))
    {
      reply := Exchange(Buy(instrument, amount, price));
    }

    /** `cancelOrder`. */
    method CancelOrder(orderId: string) returns (reply: Json)
      modifies websocket, ids
      ensures Sent(Cancel(orderId)) && ReadOne()
      ensures reply == NextMessage(old(websocket.incoming))
    {
      reply := Exchange(Cancel(orderId));
    }

    /** `modifyOrder`: note the argument order, price before amount. */
    method ModifyOrder(orderId: string, newPrice: Double, newAmount: Double) returns (reply: Json)
      modifies websocket, ids
      ensures Sent(Edit(orderId, newPrice, newAmount)) && ReadOne()
      ensures reply == NextMessage(old(websocket.incoming))
    {
      reply := Exchange(Edit(orderId, newPrice, newAmount));
    }

    /** `getOrderBook`. */
    method GetOrderBook(instrument: string) returns (reply: Json)
      modifies websocket, ids
      ensures Sent(Command.GetOrderBook(instrument)) && ReadOne()
      ensures reply == NextMessage(old(websocket.incoming))
    {
      reply := Exchange(Command.GetOrderBook(instrument));
    }

    /** `getPosition`. */
    method GetPosition(instrument: string) returns (reply: Json)
      modifies websocket, ids
      ensures Sent(Command.GetPosition(instrument)) && ReadOne()
      ensures reply == NextMessage(old(websocket.incoming))
    {
      reply := Exchange(Command.GetPosition(instrument));
    }

    /** `getOrderDetails`: asks for the order's state. */
    method GetOrderDetails(orderId: string) returns (reply: Json)
      modifies websocket, ids
      ensures Sent(GetOrderState(orderId)) && ReadOne()
      ensures reply == NextMessage(old(websocket.incoming))
    {
      reply := Exchange(GetOrderState(orderId));
    }

    /** `subscribeToOrderBook`: sends the subscription and reads nothing back. */
    method SubscribeToOrderBook(instrument: string, interval: string := DefaultInterval)
      modifies websocket, ids
      ensures Sent(Command.Subscribe(BookChannel(instrument, interval)))
      ensures websocket.incoming == old(websocket.incoming)
    {
      var id := ids.GetNextRequestId();
      websocket.SendMessage(Encode(id as int, Command.Subscribe(BookChannel(instrument, interval))));
    }

    /** `unsubscribeFromOrderBook`: drops every subscription; the instrument name is not used. */
    method UnsubscribeFromOrderBook(instrument: string)
      modifies websocket, ids
      ensures Sent(UnsubscribeAll)
      ensures websocket.incoming == old(websocket.incoming)
    {
      var id := ids.GetNextRequestId();
      websocket.SendMessage(Encode(id as int, UnsubscribeAll));
    }

    /** `addMarketDataSubscriber`: sets or overwrites the entry for `symbol` only. */
    method AddMarketDataSubscriber(symbol: string, handler: HandlerId)
      modifies this
      ensures subscribers == old(subscribers)[symbol := handler]
    {
      subscribers := subscribers[symbol := handler];
    }

    /** `handleMarketData`: which handler, if any, receives the message. */
    method HandleMarketData(data: Json) returns (d: Delivery)
      ensures d == Route(subscribers, data)
    {
      d := Route(subscribers, data);
    }

    /** The destructor: the subscriber table is cleared. */
    method ClearSubscribers()
      modifies this
      ensures subscribers == map[]
    {
      subscribers := map[];
    }
  }

  // ---------------------------------------------------------------------------
  // TradeExecution::handleOrderBookUpdate, which prints every entry without a size check

  /** `entry[i]` on a const value: an array element, a type_error off arrays, and undefined behaviour past the end. */
  datatype Access = Element(value: Json) | TypeError | PastEnd

  function At(entry: Json, i: nat): (a: Access)
    ensures a.Element? <==> entry.Arr? && i < |entry.items|
    ensures a.TypeError? <==> !entry.Arr?
  {
    if !entry.Arr? then TypeError else if i < |entry.items| then Element(entry.items[i]) else PastEnd
  }

  datatype RawLine = Banner | RawHeader(side: Side) | RawLevel(side: Side, price: Json, size: Json)

  /** Completed; ended by a caught exception; or ended in undefined behaviour. */
  datatype Status = Completed | Caught | Undefined

  datatype RawOutput = RawOutput(lines: seq<RawLine>, status: Status)

  /** An entry both indexes reach: an array of two or more elements. */
  predicate Indexable(entry: Json)
  {
    entry.Arr? && |entry.items| >= 2
  }

  /**
   * The loop over one side as written: `entry[0]` then `entry[1]`, whatever
   * the entry's size. It completes exactly when every entry is indexable,
   * and then prints one level per entry, in order.
   */
  function RawSide(side: Side, entries: seq<Json>): (r: (seq<RawLine>, Status))
    ensures r.1 == Completed <==> forall i :: 0 <= i < |entries| ==> Indexable(entries[i])
    ensures r.1 == Completed ==> |r.0| == |entries|
    ensures r.1 == Completed ==>
      forall i :: 0 <= i < |entries| ==> r.0[i] == RawLevel(side, entries[i].items[0], entries[i].items[1])
    ensures r.1 == Caught ==> exists i :: 0 <= i < |entries| && !entries[i].Arr?
    ensures r.1 == Undefined ==> exists i :: 0 <= i < |entries| && entries[i].Arr? && |entries[i].items| < 2
    decreases |entries|
  {
    if entries == [] then ([], Completed)
    else
      match (At(entries[0], 0), At(entries[0], 1))
      case (TypeError, _) => ([], Caught)
      case (Element(price), Element(size)) =>
        var rest := RawSide(side, entries[1..]);
        assert forall i :: 0 < i < |entries| ==> entries[i] == entries[1..][i - 1];
        ([RawLevel(side, price, size)] + rest.0, rest.1)
      case _ => ([], Undefined)
  }

  /** The loop over one side with the size check `handleOrderBookUpdate` in WebSocketHandler has. */
  function CheckedRawSide(side: Side, entries: seq<Json>): (r: (seq<RawLine>, Status))
    ensures r.1 != Undefined
    decreases |entries|
  {
    if entries == [] then ([], Completed)
    else if !Long(entries[0]) then CheckedRawSide(side, entries[1..])
    else
      match (At(entries[0], 0), At(entries[0], 1))
      case (Element(price), Element(size)) =>
        var rest := CheckedRawSide(side, entries[1..]);
        ([RawLevel(side, price, size)] + rest.0, rest.1)
      case _ => ([], Caught)
  }

  /** A side's header and levels when the key is present (even if empty). */
  function RawSection(side: Side, book: Json, key: string, checked: bool): (seq<RawLine>, Status)
  {
    match Get(book, key)
    case None => ([], Completed)
    case Some(entries) =>
      var levels := if checked then CheckedRawSide(side, Elements(entries)) else RawSide(side, Elements(entries));
      ([RawHeader(side)] + levels.0, levels.1)
  }

  function RawAssemble(bids: (seq<RawLine>, Status), asks: (seq<RawLine>, Status)): RawOutput
  {
    if bids.1 != Completed then RawOutput([Banner] + bids.0, bids.1)
    else RawOutput([Banner] + bids.0 + asks.0, asks.1)
  }

  /**
   * TradeExecution::handleOrderBookUpdate as written: a banner whenever
   * `params.data` is present, and a side's header whenever its key is
   * present, even when the side is empty.
   */
  function RawBookUpdate(message: Json): (r: RawOutput)
    ensures BookData(message).None? ==> r == RawOutput([], Completed)
    ensures BookData(message).Some? ==> r.lines != [] && r.lines[0] == Banner
    ensures BookData(message).Some? && Contains(BookData(message).value, "bids") ==>
      |r.lines| >= 2 && r.lines[1] == RawHeader(Bids)
  {
    match BookData(message)
    case None => RawOutput([], Completed)
    case Some(book) => RawAssemble(RawSection(Bids, book, "bids", false), RawSection(Asks, book, "asks", false))
  }

  /** TradeExecution::handleOrderBookUpdate with entries shorter than two skipped. */
  function CheckedRawBookUpdate(message: Json): RawOutput
  {
    match BookData(message)
    case None => RawOutput([], Completed)
    case Some(book) => RawAssemble(RawSection(Bids, book, "bids", true), RawSection(Asks, book, "asks", true))
  }

  /** As written, a one-element bid `[1]` makes `bid[1]` read past the end of the array. */
  lemma RawBookUpdateShortEntry()
    ensures RawBookUpdate(Obj([("params", Obj([("data", Obj([("bids", Arr([Arr([Int(1)])]))]))]))])).status == Undefined
  {
  }

  /** With the size check, no message leads to undefined behaviour. */
  lemma CheckedRawBookUpdateDefined(message: Json)
    ensures CheckedRawBookUpdate(message).status != Undefined
  {
  }

  /** Where every entry has two or more elements, the check changes nothing. */
  lemma {:induction false} CheckedAgreesOnLongEntries(side: Side, entries: seq<Json>)
    requires forall i :: 0 <= i < |entries| ==> Long(entries[i])
    ensures CheckedRawSide(side, entries) == RawSide(side, entries)
  {
    if entries != [] {
      assert forall i :: 0 < i < |entries| ==> entries[i] == entries[1..][i - 1];
      CheckedAgreesOnLongEntries(side, entries[1..]);
    }
  }
}
