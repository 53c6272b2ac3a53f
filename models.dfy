/**
 * The wire-message decoder of the Gemini market-data client (src/models.rs):
 * the domain types, the two string-to-enum maps, the decoding of one JSON
 * document into a `MarketMessage`, and the all-zero starting best bid/offer.
 *
 * Every `unwrap` that would panic in the source is a `Failure` here, naming
 * the field that caused it. Number parsing (`str::parse::<f64>`) is a
 * parameter `parse`: the decoder's behaviour is stated for every parser.
 */
module Models {
  import opened Wrappers
  import opened Json

  /** The side of the book an order rests on; `UnknownSide` for any other wire string. */
  datatype MarketSide = Bid | Ask | UnknownSide

  /** The kind of a wire event; `UnknownKind` for any other wire string. */
  datatype MessageType = TradeKind | ChangeKind | UnknownKind

  /** A price-level change ("change" event). */
  datatype Quote = Quote(price: real, reason: string, remaining: real, side: MarketSide, delta: Option<real>)

  /** A matched trade ("trade" event). */
  datatype Trade = Trade(price: real, amount: real, makerSide: MarketSide)

  /** One decoded event; `UnknownEvent` carries nothing. */
  datatype Event = TradeEvent(trade: Trade) | QuoteEvent(quote: Quote) | UnknownEvent

  /** The decoded envelope of one wire message. */
  datatype MarketMessage = MarketMessage(
    eventId: U64,
    events: seq<Event>,
    timestamp: Option<U64>,
    timestampms: Option<U64>,
    socketSequence: U32)

  /** Top of book: best prices and the amounts remaining at them. */
  datatype BestBidOffer = BestBidOffer(bestBid: real, bestOffer: real, bidAmountRemaining: real, askAmountRemaining: real)

  /** `str::parse::<f64>`: `None` when the text is not a number. */
  type NumParser = string -> Option<real>

  /** Why a field of an event made the decode fail. */
  datatype Fault = NotAString | NotANumber
  datatype FieldError = FieldError(field: string, fault: Fault)

  /** Why a whole message failed to decode (a panic in the source). */
  datatype DecodeError =
    | EventsNotArray
    | BadEvent(index: nat, cause: FieldError)
    | NotU64(field: string)

  // ---------------------------------------------------------------------
  // String-to-enum maps

  /** `MarketSide::from_string`: exact, case-sensitive, total. */
  function SideFromString(message: string): (side: MarketSide)
    ensures side != UnknownSide ==> SideName(side) == Some(message)
    ensures side == UnknownSide <==> forall known :: SideName(known) != Some(message)
  {
    if message == "ask" then Ask
    else if message == "bid" then Bid
    else UnknownSide
  }

  /** `MessageType::from_string`: exact, case-sensitive, total. */
  function TypeFromString(message: string): (kind: MessageType)
    ensures kind != UnknownKind ==> TypeName(kind) == Some(message)
    ensures kind == UnknownKind <==> forall known :: TypeName(known) != Some(message)
  {
    if message == "trade" then TradeKind
    else if message == "change" then ChangeKind
    else UnknownKind
  }

  /** The wire spelling of a known side. */
  function SideName(side: MarketSide): Option<string> {
    match side
    case Ask => Some("ask")
    case Bid => Some("bid")
    case UnknownSide => None
  }

  /** The wire spelling of a known event type. */
  function TypeName(kind: MessageType): Option<string> {
    match kind
    case TradeKind => Some("trade")
    case ChangeKind => Some("change")
    case UnknownKind => None
  }

  /**
   * `SideFromString` is the exact inverse of the wire spelling: each known
   * side is recovered from its name, a known side comes only from its own
   * name, and every other string (including "Ask" or "BID") is UnknownSide.
   */
  lemma SideFromStringInvertsName(message: string, side: MarketSide)
    ensures SideName(side).Some? ==> SideFromString(SideName(side).value) == side
    ensures SideFromString(message) == side && side != UnknownSide ==> SideName(side) == Some(message)
    ensures SideFromString(message) == UnknownSide <==> message != "ask" && message != "bid"
  {
  }

  /** The same for event types: "trade" and "change" are the only known spellings. */
  lemma TypeFromStringInvertsName(message: string, kind: MessageType)
    ensures TypeName(kind).Some? ==> TypeFromString(TypeName(kind).value) == kind
    ensures TypeFromString(message) == kind && kind != UnknownKind ==> TypeName(kind) == Some(message)
    ensures TypeFromString(message) == UnknownKind <==> message != "trade" && message != "change"
  {
  }

  // ---------------------------------------------------------------------
  // Field readers

  /** `e[field].as_str().unwrap().parse::<f64>().unwrap()`: a mandatory number sent as a string. */
  function ReadNumber(e: Value, field: string, parse: NumParser): Result<real, FieldError> {
    match AsStr(Index(e, field))
    case None => Failure(FieldError(field, NotAString))
    case Some(text) => parse(text).ToResult(FieldError(field, NotANumber))
  }

  /**
   * `match e[field].as_str() { Some(n) => Some(n.parse::<f64>().unwrap()), None => None }`:
   * an optional number; absent or not a string gives `None`, a string that
   * does not parse fails.
   */
  function ReadOptionalNumber(e: Value, field: string, parse: NumParser): Result<Option<real>, FieldError> {
    match AsStr(Index(e, field))
    case None => Success(None)
    case Some(text) =>
      match parse(text)
      case None => Failure(FieldError(field, NotANumber))
      case Some(x) => Success(Some(x))
  }

  /** An optional side: absent or not a string gives UnknownSide. */
  function ReadSide(e: Value, field: string): MarketSide {
    match AsStr(Index(e, field))
    case None => UnknownSide
    case Some(text) => SideFromString(text)
  }

  // ---------------------------------------------------------------------
  // Decoding

  /** The body of the `MessageType::Change` arm: a Quote with its defaults. */
  function DecodeChange(e: Value, price: real, parse: NumParser): (r: Result<Quote, FieldError>)
    ensures r.Success? <==> OptionalNumberParses(e, "remaining", parse) && OptionalNumberParses(e, "delta", parse)
    ensures r.Failure? ==> r.error in {FieldError("remaining", NotANumber), FieldError("delta", NotANumber)}
    ensures r.Success? ==>
      && r.value.price == price
      && (!Index(e, "reason").Str? ==> r.value.reason == "")
      && (!Index(e, "remaining").Str? ==> r.value.remaining == 0.0)
      && (!Index(e, "side").Str? ==> r.value.side == UnknownSide)
      && (r.value.delta.Some? <==> Index(e, "delta").Str?)
  {
    var reason := AsStr(Index(e, "reason")).GetOr("");
    var remaining :- ReadOptionalNumber(e, "remaining", parse);
    var side := ReadSide(e, "side");
    var delta :- ReadOptionalNumber(e, "delta", parse);
    Success(Quote(price, reason, remaining.GetOr(0.0), side, delta))
  }

  /** The body of the `MessageType::Trade` arm. */
  function DecodeTrade(e: Value, price: real, parse: NumParser): (r: Result<Trade, FieldError>)
    ensures r.Success? <==> Index(e, "amount").Str? && parse(Index(e, "amount").s).Some?
    ensures r.Failure? ==> r.error.field == "amount"
    ensures r.Success? ==>
      && r.value.price == price
      && r.value.amount == parse(Index(e, "amount").s).value
      && (!Index(e, "makerSide").Str? ==> r.value.makerSide == UnknownSide)
  {
    var amount :- ReadNumber(e, "amount", parse);
    Success(Trade(price, amount, ReadSide(e, "makerSide")))
  }

  /**
   * The closure mapped over the `events` array: `price` is read and parsed
   * first, then `type`, and only then does the event's kind decide which
   * other fields are read.
   */
  function DecodeEvent(e: Value, parse: NumParser): (r: Result<Event, FieldError>)
    ensures r.Success? ==> HasPriceAndType(e, parse)
    ensures r.Success? ==>
      var kind := TypeFromString(Index(e, "type").s);
      && (r.value.QuoteEvent? <==> kind == ChangeKind)
      && (r.value.TradeEvent? <==> kind == TradeKind)
      && (r.value.UnknownEvent? <==> kind == UnknownKind)
    ensures r.Success? && r.value.QuoteEvent? ==> r.value.quote.price == parse(Index(e, "price").s).value
    ensures r.Success? && r.value.TradeEvent? ==> r.value.trade.price == parse(Index(e, "price").s).value
    ensures r.Failure? ==> r.error.field in {"price", "type", "remaining", "delta", "amount"}
  {
    var price :- ReadNumber(e, "price", parse);
    var kind :- AsStr(Index(e, "type")).ToResult(FieldError("type", NotAString));
    match TypeFromString(kind)
    case ChangeKind =>
      var q :- DecodeChange(e, price, parse);
      Success(QuoteEvent(q))
    case TradeKind =>
      var t :- DecodeTrade(e, price, parse);
      Success(TradeEvent(t))
    case UnknownKind => Success(UnknownEvent)
  }

  /**
   * `.iter().map(..).collect()`: decodes the elements in order and stops at
   * the first one that fails. On success the i-th event is decoded from the
   * i-th element; on failure the reported element is the first bad one.
   */
  function DecodeEvents(items: seq<Value>, parse: NumParser): (r: Result<seq<Event>, DecodeError>)
    ensures r.Success? <==> forall i :: 0 <= i < |items| ==> DecodeEvent(items[i], parse).Success?
    ensures r.Success? ==>
      |r.value| == |items| &&
      forall i :: 0 <= i < |items| ==> DecodeEvent(items[i], parse) == Success(r.value[i])
    ensures r.Failure? ==>
      r.error.BadEvent? && r.error.index < |items| &&
      DecodeEvent(items[r.error.index], parse) == Failure(r.error.cause) &&
      forall i :: 0 <= i < r.error.index ==> DecodeEvent(items[i], parse).Success?
  {
    if |items| == 0 then Success([])
    else
      var last := |items| - 1;
      var front :- DecodeEvents(items[..last], parse);
      match DecodeEvent(items[last], parse)
      case Failure(cause) => Failure(BadEvent(last, cause))
      case Success(ev) => Success(front + [ev])
  }

  /** `socket_sequence as u32`: the low 32 bits. */
  function TruncateToU32(n: U64): (r: U32)
    ensures (n - r) % U32_LIMIT == 0
    ensures n < U32_LIMIT ==> r == n
  {
    (n % U32_LIMIT) as U32
  }

  /**
   * `Event::new` after the JSON text has been parsed: the `events` array
   * first, then `eventId`, the two optional timestamps and `socket_sequence`,
   * in the order the source evaluates them.
   */
  function Decode(m: Value, parse: NumParser): (r: Result<MarketMessage, DecodeError>)
    ensures AsArray(Index(m, "events")).None? ==> r == Failure(EventsNotArray)
    ensures r.Success? <==>
      AsArray(Index(m, "events")).Some? &&
      DecodeEvents(AsArray(Index(m, "events")).value, parse).Success? &&
      AsU64(Index(m, "eventId")).Some? &&
      AsU64(Index(m, "socket_sequence")).Some?
    ensures r.Success? ==>
      var items := AsArray(Index(m, "events")).value;
      && |r.value.events| == |items|
      && (forall i :: 0 <= i < |items| ==> DecodeEvent(items[i], parse) == Success(r.value.events[i]))
      && r.value.eventId == AsU64(Index(m, "eventId")).value
      && r.value.timestamp == AsU64(Index(m, "timestamp"))
      && r.value.timestampms == AsU64(Index(m, "timestampms"))
      && r.value.socketSequence == AsU64(Index(m, "socket_sequence")).value % U32_LIMIT
  {
    var items :- AsArray(Index(m, "events")).ToResult(EventsNotArray);
    var events :- DecodeEvents(items, parse);
    var eventId :- AsU64(Index(m, "eventId")).ToResult(NotU64("eventId"));
    var timestamp := AsU64(Index(m, "timestamp"));
    var timestampms := AsU64(Index(m, "timestampms"));
    var sequence :- AsU64(Index(m, "socket_sequence")).ToResult(NotU64("socket_sequence"));
    Success(MarketMessage(eventId, events, timestamp, timestampms, TruncateToU32(sequence)))
  }

  /** `BestBidOffer::new`: nothing observed yet, every field zero. */
  function NewBestBidOffer(): (b: BestBidOffer)
    ensures b.bestBid == 0.0 && b.bestOffer == 0.0
    ensures b.bidAmountRemaining == 0.0 && b.askAmountRemaining == 0.0
  {
    BestBidOffer(0.0, 0.0, 0.0, 0.0)
  }

  // ---------------------------------------------------------------------
  // Properties of the decoder

  /** An element has the two fields every element must have: a numeric `price` string and a string `type`. */
  predicate HasPriceAndType(e: Value, parse: NumParser) {
    && AsStr(Index(e, "price")).Some?
    && parse(AsStr(Index(e, "price")).value).Some?
    && AsStr(Index(e, "type")).Some?
  }

  /** An optional numeric field is either not a string or a string that parses. */
  predicate OptionalNumberParses(e: Value, field: string, parse: NumParser) {
    AsStr(Index(e, field)).Some? ==> parse(AsStr(Index(e, field)).value).Some?
  }

  /**
   * Every element of a decoded message, whatever its type turns out to be,
   * had a numeric `price` string and a string `type`: `price` is read before
   * the type is looked at.
   */
  lemma DecodedEventsHadPriceAndType(m: Value, parse: NumParser)
    requires Decode(m, parse).Success?
    ensures forall e :: e in AsArray(Index(m, "events")).value ==> HasPriceAndType(e, parse)
  {
    var items := AsArray(Index(m, "events")).value;
    forall e | e in items
      ensures HasPriceAndType(e, parse)
    {
      var i :| 0 <= i < |items| && items[i] == e;
      assert DecodeEvent(items[i], parse).Success?;
    }
  }

  /** A missing or non-string `price` is reported before anything else about the element. */
  lemma PriceIsReadFirst(e: Value, parse: NumParser)
    ensures AsStr(Index(e, "price")).None? ==> DecodeEvent(e, parse) == Failure(FieldError("price", NotAString))
    ensures AsStr(Index(e, "price")).Some? && parse(AsStr(Index(e, "price")).value).None? ==>
      DecodeEvent(e, parse) == Failure(FieldError("price", NotANumber))
    ensures HasPriceAndType(e, parse) || DecodeEvent(e, parse).Failure?
  {
  }

  /**
   * An element whose `type` is a string other than "trade" and "change"
   * decodes to UnknownEvent as soon as its price parses, and no field other
   * than `price` and `type` is looked at: two such elements that agree on
   * those two fields decode alike.
   */
  lemma UnknownTypeReadsOnlyPriceAndType(e1: Value, e2: Value, parse: NumParser)
    requires Index(e1, "price") == Index(e2, "price") && Index(e1, "type") == Index(e2, "type")
    requires AsStr(Index(e1, "type")).Some? && TypeFromString(AsStr(Index(e1, "type")).value) == UnknownKind
    ensures DecodeEvent(e1, parse) == DecodeEvent(e2, parse)
    ensures DecodeEvent(e1, parse).Success? <==> HasPriceAndType(e1, parse)
    ensures DecodeEvent(e1, parse).Success? ==> DecodeEvent(e1, parse).value == UnknownEvent
  {
  }

  /**
   * A "change" element with a numeric price: it fails only on a `remaining`
   * or `delta` string that does not parse; otherwise each optional field
   * falls back to its default when absent or not a string ("", 0,
   * UnknownSide, no delta) and a present `delta` string is never dropped.
   */
  lemma ChangeFieldsAndDefaults(e: Value, parse: NumParser)
    requires AsStr(Index(e, "type")) == Some("change") && HasPriceAndType(e, parse)
    ensures DecodeEvent(e, parse).Success? <==>
      OptionalNumberParses(e, "remaining", parse) && OptionalNumberParses(e, "delta", parse)
    ensures DecodeEvent(e, parse).Success? ==>
      var ev := DecodeEvent(e, parse).value;
      && ev.QuoteEvent?
      && ev.quote.price == parse(AsStr(Index(e, "price")).value).value
      && ev.quote.reason == (if Index(e, "reason").Str? then Index(e, "reason").s else "")
      && ev.quote.remaining ==
           (if Index(e, "remaining").Str? then parse(Index(e, "remaining").s).value else 0.0)
      && ev.quote.side == (if Index(e, "side").Str? then SideFromString(Index(e, "side").s) else UnknownSide)
      && ev.quote.delta ==
           (if Index(e, "delta").Str? then Some(parse(Index(e, "delta").s).value) else None)
  {
  }

  /**
   * A "trade" element with a numeric price: it fails exactly when `amount`
   * is missing, not a string, or does not parse; `makerSide` falls back to
   * UnknownSide when absent or not a string.
   */
  lemma TradeFieldsAndDefaults(e: Value, parse: NumParser)
    requires AsStr(Index(e, "type")) == Some("trade") && HasPriceAndType(e, parse)
    ensures DecodeEvent(e, parse).Success? <==>
      Index(e, "amount").Str? && parse(Index(e, "amount").s).Some?
    ensures DecodeEvent(e, parse).Success? ==>
      DecodeEvent(e, parse).value == TradeEvent(Trade(
        parse(AsStr(Index(e, "price")).value).value,
        parse(Index(e, "amount").s).value,
        if Index(e, "makerSide").Str? then SideFromString(Index(e, "makerSide").s) else UnknownSide))
  {
  }

  /**
   * A message with an element of an unrecognised type still decodes when
   * everything else is in order: that element becomes UnknownEvent in its
   * own position and the other elements are decoded as usual.
   */
  lemma UnknownTypeIsTolerated(m: Value, parse: NumParser, k: nat)
    requires Decode(m, parse).Success?
    requires k < |AsArray(Index(m, "events")).value|
    requires Index(AsArray(Index(m, "events")).value[k], "type").Str?
    requires TypeFromString(Index(AsArray(Index(m, "events")).value[k], "type").s) == UnknownKind
    ensures Decode(m, parse).value.events[k] == UnknownEvent
  {
  }

  /**
   * A bad element fails the whole message, and the element reported is the
   * first bad one in wire order.
   */
  lemma FirstBadEventIsReported(m: Value, parse: NumParser)
    requires AsArray(Index(m, "events")).Some?
    requires !DecodeEvents(AsArray(Index(m, "events")).value, parse).Success?
    ensures Decode(m, parse).Failure? && Decode(m, parse).error.BadEvent?
    ensures var k := Decode(m, parse).error.index;
      && k < |AsArray(Index(m, "events")).value|
      && DecodeEvent(AsArray(Index(m, "events")).value[k], parse).Failure?
      && forall i :: 0 <= i < k ==> DecodeEvent(AsArray(Index(m, "events")).value[i], parse).Success?
  {
  }

  /**
   * `socket_sequence` above the u32 range is narrowed, not rejected: the
   * decoded value is the wire value minus a whole number of 2^32 steps, and
   * equals it when it fits.
   */
  lemma SocketSequenceIsNarrowed(m: Value, parse: NumParser)
    requires Decode(m, parse).Success?
    ensures var wire := AsU64(Index(m, "socket_sequence")).value;
      var narrowed := Decode(m, parse).value.socketSequence;
      && (wire - narrowed) % U32_LIMIT == 0
      && (wire < U32_LIMIT ==> narrowed == wire)
  {
  }

  /**
   * A "change" element that carries nothing but its type and price decodes
   * to a Quote with every default: empty reason, zero remaining, unknown
   * side and no delta (absent, not zero).
   */
  lemma BareChangeGetsDefaults(e: Value, parse: NumParser)
    requires e.Object? && Index(e, "type") == Str("change") && HasPriceAndType(e, parse)
    requires "reason" !in e.fields && "remaining" !in e.fields
    requires "side" !in e.fields && "delta" !in e.fields
    ensures DecodeEvent(e, parse) ==
      Success(QuoteEvent(Quote(parse(Index(e, "price").s).value, "", 0.0, UnknownSide, None)))
  {
  }
}
