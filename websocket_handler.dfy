/**
 * WebSocketHandler: the single socket the client owns. Sending appends to
 * the list of messages written; reading takes the next frame the peer
 * delivers. Inbound pushes are classified by `OnMessage`, and order-book
 * pushes are turned by `HandleOrderBookUpdate` into the lines the client
 * prints, each price level tagged as an upsert or a deletion.
 */
module Socket {
  import opened Wrappers
  import opened Json
  import opened Requests

  /** One frame from the peer: a JSON text, or bytes that fail to parse (or a failed read). */
  datatype Frame = Text(message: Json) | Garbled

  /** The id `subscribe` and `unsubscribe` always use. */
  const FixedRequestId: int := 42

  /** What `readMessage` returns for the next frame: the parsed message, or null after any failure. */
  function NextMessage(incoming: seq<Frame>): (m: Json)
    ensures incoming != [] && incoming[0].Text? ==> m == incoming[0].message
    ensures incoming == [] || incoming[0].Garbled? ==> m == Null
  {
    if incoming == [] then Null
    else match incoming[0]
      case Text(message) => message
      case Garbled => Null
  }

  class WebSocketHandler {
    /** Every message written to the socket, oldest first. */
    var sent: seq<Json>
    /** The frames the peer will deliver, in arrival order; none left means the peer has closed. */
    var incoming: seq<Frame>

    constructor (incoming: seq<Frame>)
      ensures sent == [] && this.incoming == incoming
    {
      sent := [];
      this.incoming := incoming;
    }

    /** `sendMessage`: the message goes out after everything sent before it. */
    method SendMessage(message: Json)
      modifies this
      ensures sent == old(sent) + [message]
      ensures incoming == old(incoming)
    {
      sent := sent + [message];
    }

    /** `readMessage`: the next frame, parsed; a read or parse failure yields null and consumes the frame. */
    method ReadMessage() returns (message: Json)
      modifies this
      ensures message == NextMessage(old(incoming))
      ensures incoming == if old(incoming) == [] then [] else old(incoming)[1..]
      ensures sent == old(sent)
    {
      message := NextMessage(incoming);
      if incoming != [] {
        incoming := incoming[1..];
      }
    }

    /** `subscribe`: asks for one channel, always under id 42. */
    method Subscribe(channel: string)
      modifies this
      ensures sent == old(sent) + [Encode(FixedRequestId, Command.Subscribe(channel))]
      ensures incoming == old(incoming)
    {
      SendMessage(Encode(FixedRequestId, Command.Subscribe(channel)));
    }

    /** `unsubscribe`: drops one channel, always under id 42. */
    method Unsubscribe(channel: string)
      modifies this
      ensures sent == old(sent) + [Encode(FixedRequestId, Command.Unsubscribe(channel))]
      ensures incoming == old(incoming)
    {
      SendMessage(Encode(FixedRequestId, Command.Unsubscribe(channel)));
    }
  }

  /** The `subscribe` message: id 42, method private/subscribe, and a one-element channel list. */
  lemma SubscribeRequestShape(channel: string)
    ensures Get(Encode(FixedRequestId, Command.Subscribe(channel)), "id") == Some(Int(42))
    ensures Get(Encode(FixedRequestId, Command.Subscribe(channel)), "method") == Some(Str("private/subscribe"))
    ensures Get(Encode(FixedRequestId, Command.Subscribe(channel)), "params") == Some(Obj([("channels", Arr([Str(channel)]))]))
  {
  }

  /** The `unsubscribe` message: id 42, method private/unsubscribe, and a one-element channel list. */
  lemma UnsubscribeRequestShape(channel: string)
    ensures Get(Encode(FixedRequestId, Command.Unsubscribe(channel)), "id") == Some(Int(42))
    ensures Get(Encode(FixedRequestId, Command.Unsubscribe(channel)), "method") == Some(Str("private/unsubscribe"))
    ensures Get(Encode(FixedRequestId, Command.Unsubscribe(channel)), "params") == Some(Obj([("channels", Arr([Str(channel)]))]))
  {
  }

  // ---------------------------------------------------------------------------
  // Classification of inbound messages (onMessage)

  /** `std::string::substr(pos, count)` for `pos <= |s|`: at most `count` characters from `pos`. */
  function Substr(s: string, pos: nat, count: nat): (r: string)
    requires pos <= |s|
    ensures |r| <= count && pos + |r| <= |s| && r == s[pos..pos + |r|]
    ensures |r| == count || pos + |r| == |s|
  {
    if pos + count <= |s| then s[pos..pos + count] else s[pos..]
  }

  /** `params.channel` of a message, when present. */
  function Channel(message: Json): Option<Json>
  {
    match Get(message, "params")
    case Some(params) => Get(params, "channel")
    case None => None
  }

  /** Where `onMessage` sends a frame. Dropped: an exception was caught and logged, nothing else happened. */
  datatype Disposition = ToBookHandler | NotForBook | Dropped

  /** The routing decision of `onMessage`. */
  function Classify(frame: Frame): (d: Disposition)
    ensures d == ToBookHandler <==>
      && frame.Text?
      && Get(frame.message, "method") == Some(Str("subscription"))
      && Channel(frame.message).Some? && Channel(frame.message).value.Str?
      && |Channel(frame.message).value.s| >= 4 && Channel(frame.message).value.s[..4] == "book"
    ensures frame.Text? && Get(frame.message, "method") != Some(Str("subscription")) ==> d == NotForBook
    ensures d == Dropped <==>
      || frame.Garbled?
      || (&& Get(frame.message, "method") == Some(Str("subscription"))
          && Channel(frame.message).Some? && !Channel(frame.message).value.Str?)
  {
    match frame
    case Garbled => Dropped
    case Text(message) =>
      if Get(message, "method") == Some(Str("subscription")) then
        match Channel(message)
        case Some(Str(channel)) => if Substr(channel, 0, 4) == "book" then ToBookHandler else NotForBook
        case Some(_) => Dropped
        case None => NotForBook
      else NotForBook
  }

  /** A push on a channel that `subscribeToOrderBook` asked for always reaches the book handler. */
  lemma SubscribedBookChannelRoutes(instrument: string, interval: string, data: Json)
    ensures Classify(Text(Obj([
      ("method", Str("subscription")),
      ("params", Obj([("channel", Str(BookChannel(instrument, interval))), ("data", data)]))])))
      == ToBookHandler
  {
    var ch := BookChannel(instrument, interval);
    var params := Obj([("channel", Str(ch)), ("data", data)]);
    var message := Obj([("method", Str("subscription")), ("params", params)]);
    LookupDistinct(message.members);
    assert Get(message, "method") == Some(message.members[0].1);
    assert Get(message, "params") == Some(message.members[1].1);
    assert Get(params, "channel") == Some(Str(ch));
    assert ch[..4] == ch[..5][..4];
    assert Substr(ch, 0, 4) == "book";
  }

  // ---------------------------------------------------------------------------
  // Order-book deltas (handleOrderBookUpdate)

  datatype Side = Bids | Asks

  /** A price level change: set the size at a price, or delete the level (price "delete"). */
  datatype Level = Upsert(price: Json, size: Json) | Delete(size: Json)

  /** One printed line of an order-book update. */
  datatype BookLine =
    | Timestamp(value: Json)
    | Instrument(value: Json)
    | SideHeader(side: Side)
    | LevelLine(side: Side, level: Level)
    | Separator

  /** The lines printed for one update, and whether a caught exception cut it short. */
  datatype BookOutput = BookOutput(lines: seq<BookLine>, caught: bool)

  /** The level for an entry `[price, size, ...]`: a deletion exactly when the price is the string "delete". */
  function LevelOf(price: Json, size: Json): (l: Level)
    ensures l.Delete? <==> price == Str("delete")
    ensures l.size == size
    ensures l.Upsert? ==> l.price == price
  {
    if price == Str("delete") then Delete(size) else Upsert(price, size)
  }

  /** An entry the size check lets through: two or more elements. */
  predicate Long(entry: Json)
  {
    Size(entry) >= 2
  }

  /** An entry whose `entry[0]` throws: an object of two or more members (numeric operator[] on an object). */
  predicate Throws(entry: Json)
  {
    Long(entry) && !entry.Arr?
  }

  /**
   * The levels of one side, in entry order: entries with fewer than two
   * elements are skipped, arrays yield a level, and the first entry that
   * throws ends the side (and the whole update) with `thrown` set.
   */
  function SideLevels(entries: seq<Json>): (r: (seq<Level>, bool))
    ensures |r.0| <= LongCount(entries)
    ensures (forall i :: 0 <= i < |entries| ==> !Long(entries[i])) ==> r == ([], false)
    decreases |entries|
  {
    if entries == [] then ([], false)
    else if !Long(entries[0]) then SideLevels(entries[1..])
    else if Throws(entries[0]) then ([], true)
    else
      var rest := SideLevels(entries[1..]);
      ([LevelOf(entries[0].items[0], entries[0].items[1])] + rest.0, rest.1)
  }

  /** How many entries pass the size check. */
  function LongCount(entries: seq<Json>): (n: nat)
    ensures n <= |entries|
  {
    if entries == [] then 0 else (if Long(entries[0]) then 1 else 0) + LongCount(entries[1..])
  }

  /** The side is cut short exactly when one of its entries throws. */
  lemma {:induction false} SideLevelsThrown(entries: seq<Json>)
    ensures SideLevels(entries).1 <==> exists i :: 0 <= i < |entries| && Throws(entries[i])
  {
    if entries != [] {
      SideLevelsThrown(entries[1..]);
      assert forall i :: 0 < i < |entries| ==> entries[i] == entries[1..][i - 1];
    }
  }

  /** When no entry throws, there is exactly one level per entry that passes the size check. */
  lemma {:induction false} SideLevelsCount(entries: seq<Json>)
    requires forall i :: 0 <= i < |entries| ==> !Throws(entries[i])
    ensures |SideLevels(entries).0| == LongCount(entries)
  {
    if entries != [] {
      assert forall i :: 0 < i < |entries| ==> entries[i] == entries[1..][i - 1];
      SideLevelsCount(entries[1..]);
    }
  }

  /**
   * Input order is kept: the entry at index i that passes the size check
   * gives the level numbered by the count of passing entries before it,
   * provided no entry up to it throws.
   */
  lemma {:induction false} SideLevelsAt(entries: seq<Json>, i: nat)
    requires i < |entries| && Long(entries[i]) && entries[i].Arr?
    requires forall j :: 0 <= j < i ==> !Throws(entries[j])
    ensures LongCount(entries[..i]) < |SideLevels(entries).0|
    ensures SideLevels(entries).0[LongCount(entries[..i])] == LevelOf(entries[i].items[0], entries[i].items[1])
  {
    if i > 0 {
      assert entries[..i][1..] == entries[1..][..i - 1];
      assert forall j :: 0 <= j < i - 1 ==> entries[1..][j] == entries[j + 1];
      SideLevelsAt(entries[1..], i - 1);
    }
  }

  /** The lines of one side: its header and its levels, or nothing when the side is absent or empty. */
  function SideSection(side: Side, book: Json, key: string): (r: (seq<BookLine>, bool))
    ensures r.0 != [] <==> Contains(book, key) && !IsEmpty(Get(book, key).value)
    ensures r.0 != [] ==> r.0[0] == SideHeader(side)
    ensures r.1 ==> r.0 != []
  {
    match Get(book, key)
    case Some(entries) =>
      if IsEmpty(entries) then ([], false)
      else
        var levels := SideLevels(Elements(entries));
        ([SideHeader(side)] + Tagged(side, levels.0), levels.1)
    case None => ([], false)
  }

  function Tagged(side: Side, levels: seq<Level>): (lines: seq<BookLine>)
    ensures |lines| == |levels|
    ensures forall i :: 0 <= i < |levels| ==> lines[i] == LevelLine(side, levels[i])
  {
    seq(|levels|, i requires 0 <= i < |levels| => LevelLine(side, levels[i]))
  }

  /** `params.data` of a message, when present. */
  function BookData(message: Json): Option<Json>
  {
    match Get(message, "params")
    case Some(params) => Get(params, "data")
    case None => None
  }

  /** The optional timestamp and instrument lines. */
  function HeaderLines(book: Json): seq<BookLine>
  {
    (if Contains(book, "timestamp") then [Timestamp(Get(book, "timestamp").value)] else [])
    + (if Contains(book, "instrument_name") then [Instrument(Get(book, "instrument_name").value)] else [])
  }

  /** The specification of `handleOrderBookUpdate`: what one message prints. */
  function BookUpdate(message: Json): (r: BookOutput)
    ensures BookData(message).None? ==> r == BookOutput([], false)
    ensures BookData(message).Some? && !r.caught ==> r.lines != [] && r.lines[|r.lines| - 1] == Separator
  {
    match BookData(message)
    case None => BookOutput([], false)
    case Some(book) =>
      Assemble(HeaderLines(book), SideSection(Bids, book, "bids"), SideSection(Asks, book, "asks"))
  }

  /** Header, bid section, ask section and closing line, stopping at the first side that throws. */
  function Assemble(head: seq<BookLine>, bids: (seq<BookLine>, bool), asks: (seq<BookLine>, bool)): BookOutput
  {
    if bids.1 then BookOutput(head + bids.0, true)
    else if asks.1 then BookOutput(head + bids.0 + asks.0, true)
    else BookOutput(head + bids.0 + asks.0 + [Separator], false)
  }

  /** The side a line belongs to, if it belongs to one. */
  function SideOf(line: BookLine): Option<Side>
  {
    match line
    case SideHeader(side) => Some(side)
    case LevelLine(side, _) => Some(side)
    case _ => None
  }

  predicate OnSide(lines: seq<BookLine>, side: Option<Side>)
  {
    forall k :: 0 <= k < |lines| ==> SideOf(lines[k]) == side
  }

  /** No bid line follows an ask line. */
  predicate BidsFirst(lines: seq<BookLine>)
  {
    forall i, j :: 0 <= i < j < |lines| && SideOf(lines[i]) == Some(Asks) ==> SideOf(lines[j]) != Some(Bids)
  }

  lemma SectionOnSide(side: Side, book: Json, key: string)
    ensures OnSide(SideSection(side, book, key).0, Some(side))
  {
  }

  lemma HeaderOnNoSide(book: Json)
    ensures OnSide(HeaderLines(book), None)
  {
  }

  lemma {:induction false} BidsFirstConcat(head: seq<BookLine>, bids: seq<BookLine>, asks: seq<BookLine>, tail: seq<BookLine>)
    requires OnSide(head, None) && OnSide(bids, Some(Bids)) && OnSide(asks, Some(Asks)) && OnSide(tail, None)
    ensures BidsFirst(head + bids + asks + tail)
  {
    var lines := head + bids + asks + tail;
    var b, a := |head| + |bids|, |head| + |bids| + |asks|;
    assert forall k :: 0 <= k < |head| ==> lines[k] == head[k];
    assert forall k :: |head| <= k < b ==> lines[k] == bids[k - |head|];
    assert forall k :: b <= k < a ==> lines[k] == asks[k - b];
    assert forall k :: a <= k < |lines| ==> lines[k] == tail[k - a];
  }

  /** Nothing is printed unless the message has `params.data`. */
  lemma NoDataNoOutput(message: Json)
    requires BookData(message).None?
    ensures BookUpdate(message) == BookOutput([], false)
  {
  }

  /** Every bid line comes before every ask line. */
  lemma BidsBeforeAsks(message: Json)
    ensures BidsFirst(BookUpdate(message).lines)
  {
    match BookData(message)
    case None =>
    case Some(book) =>
      var head, bids, asks := HeaderLines(book), SideSection(Bids, book, "bids"), SideSection(Asks, book, "asks");
      HeaderOnNoSide(book);
      SectionOnSide(Bids, book, "bids");
      SectionOnSide(Asks, book, "asks");
      if bids.1 {
        BidsFirstConcat(head, bids.0, [], []);
        assert head + bids.0 + [] + [] == head + bids.0;
      } else if asks.1 {
        BidsFirstConcat(head, bids.0, asks.0, []);
        assert head + bids.0 + asks.0 + [] == head + bids.0 + asks.0;
      } else {
        BidsFirstConcat(head, bids.0, asks.0, [Separator]);
      }
  }

  /** A side that is absent or empty prints no header and no level. */
  lemma AbsentSideSilent(message: Json, side: Side)
    requires BookData(message).Some?
    requires var entries := Get(BookData(message).value, if side == Bids then "bids" else "asks");
      entries.None? || IsEmpty(entries.value)
    ensures forall i :: 0 <= i < |BookUpdate(message).lines| ==> SideOf(BookUpdate(message).lines[i]) != Some(side)
  {
    var book := BookData(message).value;
    var head, bids, asks := HeaderLines(book), SideSection(Bids, book, "bids"), SideSection(Asks, book, "asks");
    HeaderOnNoSide(book);
    SectionOnSide(Bids, book, "bids");
    SectionOnSide(Asks, book, "asks");
    var lines := BookUpdate(message).lines;
    if side == Bids {
      assert bids.0 == [] && !bids.1;
    } else {
      assert asks.0 == [] && !asks.1;
    }
    assert lines == head + bids.0 + asks.0 + [Separator] || lines == head + bids.0 + asks.0 || lines == head + bids.0;
  }

  /** The loop over one side's entries. */
  method ExtractLevels(entries: seq<Json>) returns (levels: seq<Level>, thrown: bool)
    ensures (levels, thrown) == SideLevels(entries)
  {
    levels, thrown := [], false;
    var i := 0;
    while i < |entries|
      invariant 0 <= i <= |entries|
      invariant SideLevels(entries).0 == levels + SideLevels(entries[i..]).0
      invariant SideLevels(entries).1 == SideLevels(entries[i..]).1
    {
      var entry := entries[i];
      assert entries[i..][1..] == entries[i + 1..];
      if Long(entry) {
        if !entry.Arr? {
          assert entries[i..][0] == entry;
          assert SideLevels(entries[i..]) == ([], true);
          assert levels + [] == levels;
          thrown := true;
          return;
        }
        levels := levels + [LevelOf(entry.items[0], entry.items[1])];
      }
      i := i + 1;
    }
    assert entries[i..] == [];
    assert levels + [] == levels;
  }

  /** One side's section: its header and levels when the side is present and not empty. */
  method PrintSide(side: Side, book: Json, key: string) returns (lines: seq<BookLine>, thrown: bool)
    ensures (lines, thrown) == SideSection(side, book, key)
  {
    lines, thrown := [], false;
    var entries := Get(book, key);
    if entries.Some? && !IsEmpty(entries.value) {
      var levels;
      levels, thrown := ExtractLevels(Elements(entries.value));
      lines := [SideHeader(side)] + Tagged(side, levels);
    }
  }

  /** `handleOrderBookUpdate`: the lines one order-book message prints. */
  method HandleOrderBookUpdate(message: Json) returns (out: BookOutput)
    ensures out == BookUpdate(message)
  {
    var data := BookData(message);
    if data.None? {
      return BookOutput([], false);
    }
    var book := data.value;
    var head := HeaderLines(book);
    var bids, bidsThrown := PrintSide(Bids, book, "bids");
    if bidsThrown {
      return BookOutput(head + bids, true);
    }
    var asks, asksThrown := PrintSide(Asks, book, "asks");
    if asksThrown {
      return BookOutput(head + bids + asks, true);
    }
    out := BookOutput(head + bids + asks + [Separator], false);
  }

  /** What `onMessage` did with a frame. */
  datatype Handled = Routed(output: BookOutput) | Ignored | DroppedWithError

  /** `onMessage`: book pushes go to the book handler; nothing ever escapes as an exception. */
  method OnMessage(frame: Frame) returns (h: Handled)
    ensures h.Routed? <==> Classify(frame) == ToBookHandler
    ensures h.Routed? ==> h.output == BookUpdate(frame.message)
    ensures h.DroppedWithError? <==> Classify(frame) == Dropped
  {
    match Classify(frame)
    case ToBookHandler =>
      var output := HandleOrderBookUpdate(frame.message);
      h := Routed(output);
    case NotForBook =>
      h := Ignored;
    case Dropped =>
      h := DroppedWithError;
  }
}
