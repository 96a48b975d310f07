# HFT trading CLI (Deribit client) — Dafny model

This project models the request/response core of a command-line trading
client for the Deribit exchange, which speaks JSON-RPC 2.0 over a secure
WebSocket. It covers:

- the **request envelopes** built by `TradeExecution` (`authenticate`,
  `getInstruments`, `placeBuyOrder`, `cancelOrder`, `modifyOrder`,
  `getOrderBook`, `getPosition`, `getOrderDetails`, `subscribeToOrderBook`,
  `unsubscribeFromOrderBook`) and the fixed-id `subscribe`/`unsubscribe`
  envelopes built by `WebSocketHandler` (module `Requests`, the class
  methods in `Trading` and `Socket`);
- the **correlation-id counter** shared by every `TradeExecution`, a 32-bit
  signed `std::atomic<int>` starting at 1 and post-incremented with
  two's-complement wrap-around (module `RequestIds`);
- the **symbol-keyed subscriber table** and market-data routing
  (`addMarketDataSubscriber`, `handleMarketData`, the destructor);
- the **inbound message classification** of `WebSocketHandler::onMessage`
  and the **order-book delta extraction** of both `handleOrderBookUpdate`
  functions (module `Socket` and the end of `Trading`).

JSON values are a datatype (`Json.Json`) with objects as association lists
whose keys are stored sorted, as nlohmann::json's `std::map` keeps them;
the library's access semantics that the source relies on are written out
(`contains` is false on non-objects, iterating a scalar yields it once,
`null` has size 0, `{"params", {}}` is `null`, a one-element braced list
is an array). The socket is a class holding the sequence of messages sent
(an outbox) and the sequence of frames still to be read; a read of a
frame that fails to parse, or of a closed connection, yields `null`, as
`readMessage` does. Printed output is modelled as the sequence of lines
printed, and a caught exception as a flag on that output.

Replies are not matched by id: each request takes the next message read.
There is no authenticated/unauthenticated session state.
`unsubscribeFromOrderBook` sends `public/unsubscribe_all` whatever the
instrument, and nothing local is cleared on unsubscribe.

Every value the client builds is canonical in nlohmann's sense (object
members sorted by key, no key twice), which `Json.Canonical` states and
`Requests.EncodeCanonical` proves; messages received are taken to be
canonical as well.

## Model

| member | source | states |
|---|---|---|
| RequestIds.Successor | HFT_trading_CLI/trade_execution.cpp:18-20 | the next counter value is congruent to the old one plus one modulo 2^32, and is exactly one more below the 32-bit maximum |
| RequestIds.RequestCounter.constructor | HFT_trading_CLI/trade_execution.cpp:7 | the shared counter starts at 1 |
| RequestIds.RequestCounter.GetNextRequestId | HFT_trading_CLI/trade_execution.cpp:18-20 | returns the value held before the call and advances the counter by one with 32-bit wrap-around |
| RequestIds.RequestCounter.GetNextRequestIds | HFT_trading_CLI/trade_execution.cpp:18-20 | n successive requests receive the first n draws from the counter, the counter is left at the next draw, and the n ids are pairwise distinct whenever n is at most 2^32 |
| RequestIds.DrawnCongruent | HFT_trading_CLI/trade_execution.cpp:18-20 | the k-th id drawn from a start is congruent to start + k modulo 2^32 |
| RequestIds.DrawnWithoutWrap | HFT_trading_CLI/trade_execution.cpp:18-20 | while no wrap occurs, the k-th id drawn is exactly start + k |
| RequestIds.DrawnIncreasing | HFT_trading_CLI/trade_execution.cpp:18-20 | ids drawn without reaching the 32-bit maximum strictly increase |
| RequestIds.DrawnDistinct | HFT_trading_CLI/trade_execution.cpp:18-20 | any 2^32 or fewer consecutive ids are pairwise distinct |
| RequestIds.FirstIds | HFT_trading_CLI/trade_execution.cpp:7 | from a fresh counter the k-th request carries id k + 1 |
| RequestIds.IdRepeatsAfterWrap | HFT_trading_CLI/trade_execution.h:45 | after 2^32 requests an id is reused, so uniqueness is bounded by the 32-bit width |
| Requests.MethodName | HFT_trading_CLI/trade_execution.cpp:46-272 | authentication, the instrument list, the order book and unsubscribe_all are in the public/ scope, every other operation in the private/ scope |
| Requests.Params | HFT_trading_CLI/trade_execution.cpp:46-272 | params are null exactly for unsubscribe_all (an empty brace list) and a non-empty object for every other operation |
| Requests.ParamsCanonical | HFT_trading_CLI/trade_execution.cpp:46-272 | every params value has its members sorted by key, as nlohmann's ordered map holds them |
| Requests.EncodeCanonical | HFT_trading_CLI/trade_execution.cpp:48-57 | every envelope, params included, is canonical: sorted keys at every level |
| Requests.Encode | HFT_trading_CLI/trade_execution.cpp:48-57 | every envelope has exactly the members id, jsonrpc, method and params, with jsonrpc "2.0", the given id and the operation's method name and parameters |
| Requests.BookChannel | HFT_trading_CLI/trade_execution.cpp:202-211 | the channel is "book." followed by the instrument, ".", and the interval |
| Requests.ParamsLookup | HFT_trading_CLI/trade_execution.cpp:52-56 | every operation's params object has distinct keys, each looked up to its own value |
| Requests.DecodeAuthParams | HFT_trading_CLI/trade_execution.cpp:52-56 | the auth parameters (grant_type client_credentials, client_id, client_secret) determine the credentials |
| Requests.DecodeGetInstrumentsParams | HFT_trading_CLI/trade_execution.cpp:75-80 | the get_instruments parameters determine currency, kind and expired |
| Requests.DecodeBuyParams | HFT_trading_CLI/trade_execution.cpp:93-103 | the buy parameters determine instrument, amount and price |
| Requests.DecodeEditParams | HFT_trading_CLI/trade_execution.cpp:139-149 | the edit parameters determine order id, new price and new amount |
| Requests.DecodeQueryParams | HFT_trading_CLI/trade_execution.cpp:121-126 | cancel, get_order_book, get_position and get_order_state parameters determine their single argument |
| Requests.DecodeChannelParams | HFT_trading_CLI/trade_execution.cpp:221-226 | subscribe, unsubscribe and unsubscribe_all parameters determine the command |
| Requests.DecodeParams | HFT_trading_CLI/trade_execution.cpp:46-272 | method name and params together determine every command |
| Requests.DecodeEncode | HFT_trading_CLI/trade_execution.cpp:46-272 | decoding any envelope built by the client gives back its id and command |
| Requests.EncodeInjective | HFT_trading_CLI/trade_execution.cpp:46-272 | two envelopes are equal only when id and command are equal |
| Requests.BuyParamsExact | HFT_trading_CLI/trade_execution.cpp:93-103 | a buy carries exactly amount, instrument_name, price and type, with type "limit" |
| Requests.EditParamsAgree | HFT_trading_CLI/trade_execution.cpp:139-149 | an edit sends the new amount both as contracts and as new_amount, the new price as new_price, and the order id |
| Requests.SubscribeBookParams | HFT_trading_CLI/trade_execution.cpp:202-211 | an order-book subscription's params are exactly channels, a one-element array holding the book channel |
| Requests.UnsubscribeAllParams | HFT_trading_CLI/trade_execution.cpp:221-226 | unsubscribe_all sends null params, which have no members |
| Socket.NextMessage | HFT_trading_CLI/websocket_handler.cpp:74-94 | a read yields the parsed frame, or null when the frame does not parse or nothing is left |
| Socket.WebSocketHandler.constructor | HFT_trading_CLI/websocket_handler.cpp:5-14 | a new handler has sent nothing and holds the frames to come |
| Socket.WebSocketHandler.SendMessage | HFT_trading_CLI/websocket_handler.cpp:61-72 | the message is appended to what was sent and nothing is read |
| Socket.WebSocketHandler.ReadMessage | HFT_trading_CLI/websocket_handler.cpp:74-94 | returns the next message (null on failure) and consumes exactly one frame |
| Socket.WebSocketHandler.Subscribe | HFT_trading_CLI/websocket_handler.cpp:154-164 | sends one private/subscribe envelope with id 42 for the channel |
| Socket.WebSocketHandler.Unsubscribe | HFT_trading_CLI/websocket_handler.cpp:166-175 | sends one private/unsubscribe envelope with id 42 for the channel |
| Socket.SubscribeRequestShape | HFT_trading_CLI/websocket_handler.cpp:155-162 | the subscribe envelope has id 42, method private/subscribe and params {channels: [channel]} |
| Socket.UnsubscribeRequestShape | HFT_trading_CLI/websocket_handler.cpp:167-174 | the unsubscribe envelope has id 42, method private/unsubscribe and params {channels: [channel]} |
| Socket.Substr | HFT_trading_CLI/websocket_handler.cpp:23 | the substring is the longest prefix of at most count characters from pos |
| Socket.Classify | HFT_trading_CLI/websocket_handler.cpp:16-31 | a message reaches the book handler iff it is a subscription whose params.channel is a string starting with "book"; non-subscriptions are ignored; it is dropped with an error iff unparsable or the channel is not a string |
| Socket.SubscribedBookChannelRoutes | HFT_trading_CLI/websocket_handler.cpp:21-24 | a notification on any channel built for an order-book subscription reaches the book handler |
| Socket.OnMessage | HFT_trading_CLI/websocket_handler.cpp:16-31 | routes to the book handler exactly when classified so, with its output, and reports a dropped message exactly when classified so |
| Socket.LevelOf | HFT_trading_CLI/websocket_handler.cpp:124-127 | a level is tagged deleted iff its price is the string "delete" |
| Socket.SideLevels | HFT_trading_CLI/websocket_handler.cpp:122-130 | a side yields at most one level per entry of size two or more, and nothing at all (and no exception) when every entry is shorter |
| Socket.SideLevelsThrown | HFT_trading_CLI/websocket_handler.cpp:122-130 | a side's loop ends in an exception iff some entry has two or more members and is not an array |
| Socket.SideLevelsCount | HFT_trading_CLI/websocket_handler.cpp:122-130 | without such an entry, one level is printed per entry of size two or more, the shorter ones skipped |
| Socket.SideLevelsAt | HFT_trading_CLI/websocket_handler.cpp:122-130 | each printed level is the price and size of its entry, in the entries' order |
| Socket.ExtractLevels | HFT_trading_CLI/websocket_handler.cpp:122-130 | the loop computes the levels and the exception flag of SideLevels |
| Socket.PrintSide | HFT_trading_CLI/websocket_handler.cpp:120-131 | a side prints its header and levels only when present and non-empty |
| Socket.SideSection | HFT_trading_CLI/websocket_handler.cpp:120-145 | a side prints lines exactly when its key is present and its value non-empty, the first of them its header, and can only throw after printing that header |
| Socket.HandleOrderBookUpdate | HFT_trading_CLI/websocket_handler.cpp:106-152 | the handler's output is that of BookUpdate |
| Socket.BookUpdate | HFT_trading_CLI/websocket_handler.cpp:106-152 | without params.data nothing is printed; with it, an update that throws nothing ends with the separator line |
| Socket.NoDataNoOutput | HFT_trading_CLI/websocket_handler.cpp:108 | without params.data nothing is printed and nothing is thrown |
| Socket.BidsBeforeAsks | HFT_trading_CLI/websocket_handler.cpp:120-145 | every bid line is printed before every ask line |
| Socket.AbsentSideSilent | HFT_trading_CLI/websocket_handler.cpp:120-145 | a side that is absent or empty prints no line at all |
| Trading.Route | HFT_trading_CLI/trade_execution.cpp:23-36 | the handler registered for the message's string symbol receives the whole message; a missing symbol, an unregistered symbol and a non-string symbol are told apart |
| Trading.RouteAfterAdd | HFT_trading_CLI/trade_execution.cpp:196-198 | registering a handler changes routing for its own symbol only |
| Trading.RouteAfterClear | HFT_trading_CLI/trade_execution.cpp:12-15 | with the table cleared no handler is invoked |
| Trading.AuthOutcome | HFT_trading_CLI/trade_execution.cpp:58-64 | authentication succeeds with the reply's result iff the reply has one, and otherwise fails carrying the reply |
| Trading.AuthFailsWithoutReply | HFT_trading_CLI/websocket_handler.cpp:90-93 | a failed read makes authentication fail |
| Trading.TradeExecution.constructor | HFT_trading_CLI/trade_execution.cpp:9-10 | a new instance uses the given socket and shared counter and has no subscribers |
| Trading.TradeExecution.Exchange | HFT_trading_CLI/trade_execution.cpp:73-88 | one envelope goes out under the counter's id, the counter advances by one, and the next message is the reply |
| Trading.TradeExecution.Authenticate | HFT_trading_CLI/trade_execution.cpp:46-70 | sends public/auth with the credentials, reads one reply and returns AuthOutcome of it |
| Trading.TradeExecution.GetInstruments | HFT_trading_CLI/trade_execution.cpp:73-88 | sends public/get_instruments and returns the next message |
| Trading.TradeExecution.PlaceBuyOrder | HFT_trading_CLI/trade_execution.cpp:91-116 | sends private/buy and returns the next message |
| Trading.TradeExecution.CancelOrder | HFT_trading_CLI/trade_execution.cpp:119-134 | sends private/cancel and returns the next message |
| Trading.TradeExecution.ModifyOrder | HFT_trading_CLI/trade_execution.cpp:137-157 | sends private/edit and returns the next message |
| Trading.TradeExecution.GetOrderBook | HFT_trading_CLI/trade_execution.cpp:160-175 | sends public/get_order_book and returns the next message |
| Trading.TradeExecution.GetPosition | HFT_trading_CLI/trade_execution.cpp:178-193 | sends private/get_position and returns the next message |
| Trading.TradeExecution.GetOrderDetails | HFT_trading_CLI/trade_execution.cpp:258-272 | sends private/get_order_state and returns the next message |
| Trading.TradeExecution.SubscribeToOrderBook | HFT_trading_CLI/trade_execution.cpp:200-217 | sends private/subscribe for the book channel (interval "agg2" by default) and reads nothing |
| Trading.TradeExecution.UnsubscribeFromOrderBook | HFT_trading_CLI/trade_execution.cpp:219-232 | sends public/unsubscribe_all whatever the instrument and reads nothing |
| Trading.TradeExecution.AddMarketDataSubscriber | HFT_trading_CLI/trade_execution.cpp:196-198 | sets or overwrites the entry for the symbol and leaves every other entry |
| Trading.TradeExecution.HandleMarketData | HFT_trading_CLI/trade_execution.cpp:23-36 | delivers the message as Route decides on the current table |
| Trading.TradeExecution.ClearSubscribers | HFT_trading_CLI/trade_execution.cpp:12-15 | the table is empty afterwards |
| Trading.At | HFT_trading_CLI/trade_execution.cpp:242 | indexing yields an element only of an array within range, and a type error on anything that is not an array |
| Trading.RawSide | HFT_trading_CLI/trade_execution.cpp:241-249 | as written, a side's loop completes exactly when every entry is an array of two or more elements, then printing one level per entry in order; it is caught only after a non-array entry and undefined only after a short array |
| Trading.RawBookUpdate | HFT_trading_CLI/trade_execution.cpp:234-256 | as written, nothing without params.data; otherwise the banner first, and the bids header whenever the bids key is present, even for an empty side |
| Trading.CheckedRawSide | HFT_trading_CLI/trade_execution.cpp:241-243 | with entries shorter than two skipped, a side's loop never reaches undefined behaviour |
| Trading.RawBookUpdateShortEntry | HFT_trading_CLI/trade_execution.cpp:241-243 | as written, a one-element bid makes the handler read past the end of the array |
| Trading.CheckedRawBookUpdateDefined | HFT_trading_CLI/trade_execution.cpp:234-256 | the corrected handler is defined on every message |
| Trading.CheckedAgreesOnLongEntries | HFT_trading_CLI/trade_execution.cpp:241-243 | on entries of two or more elements the corrected loop prints exactly what the written one does |

## Left out

- Connecting, TLS handshake and closing the socket (`connect`, `close`): network I/O.
- Send failures: `sendMessage` swallows every write or serialisation error; the model's send always records the message.
- Parsing and serialising JSON text: frames arrive already parsed or as unparsable; double values are opaque 64-bit patterns and no arithmetic is done on them.
- `onMarketDataReceived`: it is `handleMarketData` wrapped in a latency timer; timing is not modelled.
- The latency module, the interactive command loop (`deribit_trader.cpp`) and all printing other than which lines are printed.
- Callbacks are handler identities; what a callback does when invoked, and an empty `std::function` being called, are not modelled.
- Concurrency: the counter's atomicity is not modelled; calls are sequential.
- Trading.TradeExecution.Authenticate: the failure is a `Failure` result rather than a re-thrown exception.
- The message text of logged errors (stderr) is not modelled, only that an error was reported.
- Received objects with a duplicated key: `Json.Lookup` finds the first occurrence where nlohmann's parser keeps the last; inbound messages are taken to be canonical.

## Findings

| source | as written | input that shows it | evidently intended | confidence | as-written member | corrected member |
|---|---|---|---|---|---|---|
| HFT_trading_CLI/trade_execution.cpp:241-249 | every bid and ask entry is indexed at 0 and 1 with no size check; on a const array too short this is undefined behaviour | a book update whose bids are `[[1]]` | skip entries with fewer than two elements, as `WebSocketHandler::handleOrderBookUpdate` does | not executed | Trading.RawBookUpdateShortEntry | Trading.CheckedRawBookUpdateDefined |
