/**
 * The JSON-RPC 2.0 requests the client sends. Every builder in
 * trade_execution.cpp and websocket_handler.cpp produces the same envelope
 * `{jsonrpc: "2.0", id, method, params}`; a Command names the operation and
 * carries the caller's arguments, and Encode writes the envelope.
 */
module Requests {
  import opened Wrappers
  import opened Json

  datatype Command =
    | Auth(clientId: string, clientSecret: string)
    | GetInstruments(currency: string, kind: string, expired: bool)
    | Buy(instrument: string, amount: Double, price: Double)
    | Cancel(orderId: string)
    | Edit(orderId: string, newPrice: Double, newAmount: Double)
    | GetOrderBook(instrument: string)
    | GetPosition(instrument: string)
    | GetOrderState(orderId: string)
    | Subscribe(channel: string)
    | Unsubscribe(channel: string)
    | UnsubscribeAll

  /** A request as it travels: its correlation id and what it asks for. */
  datatype Request = Request(id: int, command: Command)

  /**
   * The fixed JSON-RPC method name of each operation. Deribit's `private/`
   * scope needs an authenticated connection; authentication, the instrument
   * list, the order book and unsubscribe_all are `public/`.
   */
  function MethodName(c: Command): (r: string)
    ensures |r| > 8
    ensures r[..7] == "public/" <==> IsPublic(c)
    ensures r[..8] == "private/" <==> !IsPublic(c)
  {
    var r :=
      match c
      case Auth(_, _) => "public/auth"
      case GetInstruments(_, _, _) => "public/get_instruments"
      case Buy(_, _, _) => "private/buy"
      case Cancel(_) => "private/cancel"
      case Edit(_, _, _) => "private/edit"
      case GetOrderBook(_) => "public/get_order_book"
      case GetPosition(_) => "private/get_position"
      case GetOrderState(_) => "private/get_order_state"
      case Subscribe(_) => "private/subscribe"
      case Unsubscribe(_) => "private/unsubscribe"
      case UnsubscribeAll => "public/unsubscribe_all";
    assert r[..7] == "public/" ==> r[1] == 'u';
    assert r[..8] == "private/" ==> r[1] == 'r';
    r
  }

  /** The operations callable without authenticating. */
  predicate IsPublic(c: Command)
  {
    c.Auth? || c.GetInstruments? || c.GetOrderBook? || c.UnsubscribeAll?
  }

  /**
   * The `params` member. Members are listed in key order, as the ordered map
   * inside nlohmann::json stores them. `{"params", {}}` in nlohmann's
   * initializer-list syntax is a null value, not an empty object.
   */
  function Params(c: Command): (r: Json)
    ensures r == Null <==> c.UnsubscribeAll?
    ensures r != Null ==> r.Obj? && |r.members| > 0
  {
    match c
    case Auth(id, secret) =>
      Obj([("client_id", Str(id)), ("client_secret", Str(secret)), ("grant_type", Str("client_credentials"))])
    case GetInstruments(currency, kind, expired) =>
      Obj([("currency", Str(currency)), ("expired", Bool(expired)), ("kind", Str(kind))])
    case Buy(instrument, amount, price) =>
      Obj([("amount", Float(amount)), ("instrument_name", Str(instrument)), ("price", Float(price)), ("type", Str("limit"))])
    case Cancel(orderId) => Obj([("order_id", Str(orderId))])
    case Edit(orderId, newPrice, newAmount) =>
      Obj([("contracts", Float(newAmount)), ("new_amount", Float(newAmount)), ("new_price", Float(newPrice)), ("order_id", Str(orderId))])
    case GetOrderBook(instrument) => Obj([("instrument_name", Str(instrument))])
    case GetPosition(instrument) => Obj([("instrument_name", Str(instrument))])
    case GetOrderState(orderId) => Obj([("order_id", Str(orderId))])
    case Subscribe(channel) => Obj([("channels", Arr([Str(channel)]))])
    case Unsubscribe(channel) => Obj([("channels", Arr([Str(channel)]))])
    case UnsubscribeAll => Null
  }

  /** The envelope sent for command `c` under correlation id `id`. */
  function Encode(id: int, c: Command): (r: Json)
    ensures Keys(r) == {"id", "jsonrpc", "method", "params"}
    ensures Get(r, "jsonrpc") == Some(Str("2.0"))
    ensures Get(r, "id") == Some(Int(id))
    ensures Get(r, "method") == Some(Str(MethodName(c)))
    ensures Get(r, "params") == Some(Params(c))
  {
    var members := [("id", Int(id)), ("jsonrpc", Str("2.0")), ("method", Str(MethodName(c))), ("params", Params(c))];
    assert MemberKeys(members[3..]) == {"params"};
    assert MemberKeys(members[2..]) == {"method", "params"};
    assert MemberKeys(members[1..]) == {"jsonrpc", "method", "params"};
    Obj(members)
  }

  /** The channel `subscribeToOrderBook` asks for: "book." + instrument + "." + interval. */
  function BookChannel(instrument: string, interval: string): (ch: string)
    ensures |ch| == 6 + |instrument| + |interval|
    ensures ch[..5] == "book." && ch[5..5 + |instrument|] == instrument
    ensures ch[5 + |instrument|] == '.' && ch[6 + |instrument|..] == interval
  {
    "book." + instrument + "." + interval
  }

  /** The interval `subscribeToOrderBook` uses when the caller gives none. */
  const DefaultInterval: string := "agg2"

  function StrAt(p: Json, key: string): Option<string>
  {
    match Get(p, key)
    case Some(Str(s)) => Some(s)
    case _ => None
  }

  function FloatAt(p: Json, key: string): Option<Double>
  {
    match Get(p, key)
    case Some(Float(d)) => Some(d)
    case _ => None
  }

  /** The channel of a one-element `channels` list of strings. */
  function SingleChannel(p: Json): Option<string>
  {
    match Get(p, "channels")
    case Some(Arr(items)) => if |items| == 1 && items[0].Str? then Some(items[0].s) else None
    case _ => None
  }

  function DecodeAuth(p: Json): Option<Command>
  {
    if Get(p, "grant_type") == Some(Str("client_credentials")) && StrAt(p, "client_id").Some? && StrAt(p, "client_secret").Some?
    then Some(Auth(StrAt(p, "client_id").value, StrAt(p, "client_secret").value)) else None
  }

  function DecodeGetInstruments(p: Json): Option<Command>
  {
    match (StrAt(p, "currency"), StrAt(p, "kind"), Get(p, "expired"))
    case (Some(currency), Some(kind), Some(Bool(expired))) => Some(GetInstruments(currency, kind, expired))
    case _ => None
  }

  function DecodeBuy(p: Json): Option<Command>
  {
    if Get(p, "type") == Some(Str("limit")) && StrAt(p, "instrument_name").Some? && FloatAt(p, "amount").Some? && FloatAt(p, "price").Some?
    then Some(Buy(StrAt(p, "instrument_name").value, FloatAt(p, "amount").value, FloatAt(p, "price").value)) else None
  }

  function DecodeEdit(p: Json): Option<Command>
  {
    if StrAt(p, "order_id").Some? && FloatAt(p, "new_price").Some? && FloatAt(p, "new_amount").Some? && Get(p, "contracts") == Get(p, "new_amount")
    then Some(Edit(StrAt(p, "order_id").value, FloatAt(p, "new_price").value, FloatAt(p, "new_amount").value)) else None
  }

  /** Reads a command back from a method name and its params (the exchange's view of a request). */
  function DecodeCommand(name: string, p: Json): Option<Command>
  {
    if name == "public/auth" then DecodeAuth(p)
    else if name == "public/get_instruments" then DecodeGetInstruments(p)
    else if name == "private/buy" then DecodeBuy(p)
    else if name == "private/cancel" then
      if StrAt(p, "order_id").Some? then Some(Cancel(StrAt(p, "order_id").value)) else None
    else if name == "private/edit" then DecodeEdit(p)
    else if name == "public/get_order_book" then
      if StrAt(p, "instrument_name").Some? then Some(GetOrderBook(StrAt(p, "instrument_name").value)) else None
    else if name == "private/get_position" then
      if StrAt(p, "instrument_name").Some? then Some(GetPosition(StrAt(p, "instrument_name").value)) else None
    else if name == "private/get_order_state" then
      if StrAt(p, "order_id").Some? then Some(GetOrderState(StrAt(p, "order_id").value)) else None
    else if name == "private/subscribe" then
      match SingleChannel(p)
      case Some(channel) => Some(Subscribe(channel))
      case None => None
    else if name == "private/unsubscribe" then
      match SingleChannel(p)
      case Some(channel) => Some(Unsubscribe(channel))
      case None => None
    else if name == "public/unsubscribe_all" then
      if p == Null then Some(UnsubscribeAll) else None
    else None
  }

  /** Reads a request back from a JSON-RPC 2.0 envelope. */
  function Decode(j: Json): Option<Request>
  {
    if Get(j, "jsonrpc") != Some(Str("2.0")) then None
    else
      match (Get(j, "id"), Get(j, "method"), Get(j, "params"))
      case (Some(Int(id)), Some(Str(name)), Some(p)) =>
        (match DecodeCommand(name, p)
         case Some(c) => Some(Request(id, c))
         case None => None)
      case _ => None
  }

  /** Every params value is canonical: its members are in key order. */
  lemma ParamsCanonical(c: Command)
    ensures Canonical(Params(c))
  {
    match c
    case Auth(id, secret) => AuthCanonical(id, secret);
    case GetInstruments(currency, kind, expired) => InstrumentsCanonical(currency, kind, expired);
    case Buy(instrument, amount, price) => BuyCanonical(instrument, amount, price);
    case Edit(orderId, newPrice, newAmount) => EditCanonical(orderId, newPrice, newAmount);
    case Subscribe(channel) => assert Canonical(Arr([Str(channel)]));
    case Unsubscribe(channel) => assert Canonical(Arr([Str(channel)]));
    case UnsubscribeAll =>
    case _ => CanonicalFlat(Params(c));
  }

  lemma AuthCanonical(id: string, secret: string)
    ensures Canonical(Params(Auth(id, secret)))
  {
    BeforeAt("client_id", "client_secret", 7);
    BeforeAt("client_secret", "grant_type", 0);
    CanonicalFlat(Params(Auth(id, secret)));
  }

  lemma InstrumentsCanonical(currency: string, kind: string, expired: bool)
    ensures Canonical(Params(GetInstruments(currency, kind, expired)))
  {
    BeforeAt("currency", "expired", 0);
    BeforeAt("expired", "kind", 0);
    CanonicalFlat(Params(GetInstruments(currency, kind, expired)));
  }

  lemma BuyCanonical(instrument: string, amount: Double, price: Double)
    ensures Canonical(Params(Buy(instrument, amount, price)))
  {
    BeforeAt("amount", "instrument_name", 0);
    BeforeAt("instrument_name", "price", 0);
    BeforeAt("price", "type", 0);
    CanonicalFlat(Params(Buy(instrument, amount, price)));
  }

  lemma EditCanonical(orderId: string, newPrice: Double, newAmount: Double)
    ensures Canonical(Params(Edit(orderId, newPrice, newAmount)))
  {
    BeforeAt("contracts", "new_amount", 0);
    BeforeAt("new_amount", "new_price", 4);
    BeforeAt("new_price", "order_id", 0);
    CanonicalFlat(Params(Edit(orderId, newPrice, newAmount)));
  }

  /** Every envelope is a canonical value: its members, and those of its params, are in key order. */
  lemma EncodeCanonical(id: int, c: Command)
    ensures Canonical(Encode(id, c))
  {
    var r := Encode(id, c);
    ParamsCanonical(c);
    BeforeAt("id", "jsonrpc", 0);
    BeforeAt("jsonrpc", "method", 0);
    BeforeAt("method", "params", 0);
    assert SortedKeys(r.members);
    assert forall i :: 0 <= i < |r.members| ==> Canonical(r.members[i].1);
  }

  /** Each params object has distinct keys, so every member is found by its key. */
  lemma ParamsLookup(c: Command)
    ensures Params(c).Obj? ==> DistinctKeys(Params(c).members)
    ensures Params(c).Obj? ==> forall i :: 0 <= i < |Params(c).members| ==>
      Get(Params(c), Params(c).members[i].0) == Some(Params(c).members[i].1)
  {
    if Params(c).Obj? {
      LookupDistinct(Params(c).members);
    }
  }

  lemma DecodeAuthParams(c: Command)
    requires c.Auth?
    ensures DecodeAuth(Params(c)) == Some(c)
  {
    var p := Params(c);
    LookupDistinct(p.members);
    assert Get(p, "client_id") == Some(p.members[0].1);
    assert Get(p, "client_secret") == Some(p.members[1].1);
    assert Get(p, "grant_type") == Some(p.members[2].1);
  }

  lemma DecodeGetInstrumentsParams(c: Command)
    requires c.GetInstruments?
    ensures DecodeGetInstruments(Params(c)) == Some(c)
  {
    var p := Params(c);
    LookupDistinct(p.members);
    assert Get(p, "currency") == Some(p.members[0].1);
    assert Get(p, "expired") == Some(p.members[1].1);
    assert Get(p, "kind") == Some(p.members[2].1);
  }

  lemma DecodeBuyParams(c: Command)
    requires c.Buy?
    ensures DecodeBuy(Params(c)) == Some(c)
  {
    var p := Params(c);
    LookupDistinct(p.members);
    assert Get(p, "amount") == Some(p.members[0].1);
    assert Get(p, "instrument_name") == Some(p.members[1].1);
    assert Get(p, "price") == Some(p.members[2].1);
    assert Get(p, "type") == Some(p.members[3].1);
  }

  lemma DecodeEditParams(c: Command)
    requires c.Edit?
    ensures DecodeEdit(Params(c)) == Some(c)
  {
    var p := Params(c);
    LookupDistinct(p.members);
    assert Get(p, "contracts") == Some(p.members[0].1);
    assert Get(p, "new_amount") == Some(p.members[1].1);
    assert Get(p, "new_price") == Some(p.members[2].1);
    assert Get(p, "order_id") == Some(p.members[3].1);
  }

  lemma DecodeQueryParams(c: Command)
    requires c.Cancel? || c.GetOrderBook? || c.GetPosition? || c.GetOrderState?
    ensures DecodeCommand(MethodName(c), Params(c)) == Some(c)
  {
  }

  lemma DecodeChannelParams(c: Command)
    requires c.Subscribe? || c.Unsubscribe? || c.UnsubscribeAll?
    ensures DecodeCommand(MethodName(c), Params(c)) == Some(c)
  {
  }

  /** Reading the params back under the operation's method name gives back the command. */
  lemma DecodeParams(c: Command)
    ensures DecodeCommand(MethodName(c), Params(c)) == Some(c)
  {
    if c.Auth? {
      DecodeAuthParams(c);
    } else if c.GetInstruments? {
      DecodeGetInstrumentsParams(c);
    } else if c.Buy? {
      DecodeBuyParams(c);
    } else if c.Edit? {
      DecodeEditParams(c);
    } else if c.Cancel? || c.GetOrderBook? || c.GetPosition? || c.GetOrderState? {
      DecodeQueryParams(c);
    } else {
      DecodeChannelParams(c);
    }
  }

  /** Every envelope carries the caller's arguments recoverably: decoding it gives back the request. */
  lemma DecodeEncode(id: int, c: Command)
    ensures Decode(Encode(id, c)) == Some(Request(id, c))
  {
    DecodeParams(c);
  }

  /** Two different requests (a different id or a different command) never produce the same message. */
  lemma EncodeInjective(id1: int, c1: Command, id2: int, c2: Command)
    requires Encode(id1, c1) == Encode(id2, c2)
    ensures id1 == id2 && c1 == c2
  {
    DecodeEncode(id1, c1);
    DecodeEncode(id2, c2);
  }

  /** `placeBuyOrder` params: the instrument, amount and price as passed, type "limit", and nothing else. */
  lemma BuyParamsExact(instrument: string, amount: Double, price: Double)
    ensures Keys(Params(Buy(instrument, amount, price))) == {"amount", "instrument_name", "price", "type"}
    ensures Get(Params(Buy(instrument, amount, price)), "instrument_name") == Some(Str(instrument))
    ensures Get(Params(Buy(instrument, amount, price)), "amount") == Some(Float(amount))
    ensures Get(Params(Buy(instrument, amount, price)), "price") == Some(Float(price))
    ensures Get(Params(Buy(instrument, amount, price)), "type") == Some(Str("limit"))
  {
    var ms := Params(Buy(instrument, amount, price)).members;
    assert MemberKeys(ms[3..]) == {"type"};
    assert MemberKeys(ms[2..]) == {"price", "type"};
    assert MemberKeys(ms[1..]) == {"instrument_name", "price", "type"};
  }

  /** `modifyOrder` params: both new_amount and contracts carry the caller's new amount, new_price its new price. */
  lemma EditParamsAgree(orderId: string, newPrice: Double, newAmount: Double)
    ensures Get(Params(Edit(orderId, newPrice, newAmount)), "new_amount") == Some(Float(newAmount))
    ensures Get(Params(Edit(orderId, newPrice, newAmount)), "contracts") == Some(Float(newAmount))
    ensures Get(Params(Edit(orderId, newPrice, newAmount)), "new_price") == Some(Float(newPrice))
    ensures Get(Params(Edit(orderId, newPrice, newAmount)), "order_id") == Some(Str(orderId))
  {
    var p := Params(Edit(orderId, newPrice, newAmount));
    ParamsLookup(Edit(orderId, newPrice, newAmount));
    assert Get(p, "contracts") == Some(p.members[0].1);
    assert Get(p, "new_amount") == Some(p.members[1].1);
    assert Get(p, "new_price") == Some(p.members[2].1);
    assert Get(p, "order_id") == Some(p.members[3].1);
  }

  /** `subscribeToOrderBook` sends a one-element channel list holding the book channel. */
  lemma SubscribeBookParams(instrument: string, interval: string)
    ensures Get(Params(Subscribe(BookChannel(instrument, interval))), "channels") == Some(Arr([Str(BookChannel(instrument, interval))]))
    ensures Keys(Params(Subscribe(BookChannel(instrument, interval)))) == {"channels"}
  {
  }

  /** `unsubscribeFromOrderBook` sends no params at all: the envelope holds null, which has no members. */
  lemma UnsubscribeAllParams()
    ensures Params(UnsubscribeAll) == Null && Keys(Params(UnsubscribeAll)) == {}
  {
  }
}
