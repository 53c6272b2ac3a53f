/**
 * The per-message handling of the client's stream loop (src/main.rs): an
 * empty frame is skipped, any other frame is decoded, and its events are
 * applied one after the other to the single best bid/offer record. A trade
 * is reported with its notional value and leaves the record alone; a quote
 * overwrites the price and remaining amount of its own side and is reported
 * with a snapshot of the whole record; an unknown event does nothing.
 *
 * The record is single-owner state here (`BboState`); the mutex around it,
 * the socket and the text written to stdout are not modelled.
 */
module Client {
  import opened Wrappers
  import opened Json
  import opened Models

  type Byte = x: int | 0 <= x < 256

  /** `serde_json::from_slice`: `None` when the bytes are not one JSON document. */
  type JsonParser = seq<Byte> -> Option<Value>

  /** What the loop writes out: a trade with `amount * price`, or a snapshot of the record. */
  datatype Report = TradeReport(trade: Trade, notional: real) | BboReport(snapshot: BestBidOffer)

  /** Why handling a frame panicked. */
  datatype FrameError = InvalidJson | Malformed(cause: DecodeError)

  /** What handling one frame came to. */
  datatype FrameOutcome =
    | Skipped
    | Processed(message: MarketMessage, reports: seq<Report>)
    | Panicked(error: FrameError)

  // ---------------------------------------------------------------------
  // Specification of the per-event dispatch

  /** The record after one event: only a quote on a known side changes it, and only on that side. */
  function Step(b: BestBidOffer, e: Event): BestBidOffer {
    match e
    case QuoteEvent(q) =>
      (match q.side
       case Ask => b.(bestOffer := q.price, askAmountRemaining := q.remaining)
       case Bid => b.(bestBid := q.price, bidAmountRemaining := q.remaining)
       case UnknownSide => b)
    case TradeEvent(_) => b
    case UnknownEvent => b
  }

  /** `t.amount * t.price`: the dollar value of a trade. */
  function Notional(t: Trade): real {
    t.amount * t.price
  }

  /** The reports one event produces, given the record after it. */
  function Emitted(after: BestBidOffer, e: Event): seq<Report> {
    match e
    case TradeEvent(t) => [TradeReport(t, Notional(t))]
    case QuoteEvent(_) => [BboReport(after)]
    case UnknownEvent => []
  }

  /** The record after a batch: the left fold of `Step` in wire order. */
  function Fold(b: BestBidOffer, events: seq<Event>): BestBidOffer
    decreases |events|
  {
    if |events| == 0 then b
    else Step(Fold(b, events[..|events| - 1]), events[|events| - 1])
  }

  /** The reports of a batch, event by event in wire order. */
  function FoldReports(b: BestBidOffer, events: seq<Event>): seq<Report>
    decreases |events|
  {
    if |events| == 0 then []
    else FoldReports(b, events[..|events| - 1]) + Emitted(Fold(b, events), events[|events| - 1])
  }

  /** The last quote of the batch on `side`, if there is one. */
  function LastQuoteOn(events: seq<Event>, side: MarketSide): Option<Quote>
    decreases |events|
  {
    if |events| == 0 then None
    else
      var e := events[|events| - 1];
      if e.QuoteEvent? && e.quote.side == side then Some(e.quote)
      else LastQuoteOn(events[..|events| - 1], side)
  }

  /** How many events of the batch produce a report: every trade and every quote. */
  function ReportedCount(events: seq<Event>): nat
    decreases |events|
  {
    if |events| == 0 then 0
    else ReportedCount(events[..|events| - 1]) + (if events[|events| - 1].UnknownEvent? then 0 else 1)
  }

  // ---------------------------------------------------------------------
  // Properties of the dispatch

  /**
   * Side independence: what a step leaves in the bid fields depends only on
   * the bid fields before it, and likewise for the ask fields.
   */
  lemma StepSidesAreIndependent(b1: BestBidOffer, b2: BestBidOffer, e: Event)
    ensures b1.bestBid == b2.bestBid && b1.bidAmountRemaining == b2.bidAmountRemaining ==>
      Step(b1, e).bestBid == Step(b2, e).bestBid &&
      Step(b1, e).bidAmountRemaining == Step(b2, e).bidAmountRemaining
    ensures b1.bestOffer == b2.bestOffer && b1.askAmountRemaining == b2.askAmountRemaining ==>
      Step(b1, e).bestOffer == Step(b2, e).bestOffer &&
      Step(b1, e).askAmountRemaining == Step(b2, e).askAmountRemaining
  {
  }

  /**
   * After a batch, the bid fields hold the price and remaining amount of the
   * last Bid quote in it (or what they held before, if there was none), and
   * the ask fields those of the last Ask quote.
   */
  lemma {:induction false} FoldKeepsLastQuotePerSide(b: BestBidOffer, events: seq<Event>)
    ensures var bid := LastQuoteOn(events, Bid);
      && Fold(b, events).bestBid == (if bid.Some? then bid.value.price else b.bestBid)
      && Fold(b, events).bidAmountRemaining == (if bid.Some? then bid.value.remaining else b.bidAmountRemaining)
    ensures var ask := LastQuoteOn(events, Ask);
      && Fold(b, events).bestOffer == (if ask.Some? then ask.value.price else b.bestOffer)
      && Fold(b, events).askAmountRemaining == (if ask.Some? then ask.value.remaining else b.askAmountRemaining)
    decreases |events|
  {
    if |events| > 0 {
      FoldKeepsLastQuotePerSide(b, events[..|events| - 1]);
    }
  }

  /**
   * Applying two batches one after the other is applying their
   * concatenation, for the record and for the reports alike.
   */
  lemma {:induction false} FoldConcatenation(b: BestBidOffer, first: seq<Event>, second: seq<Event>)
    ensures Fold(b, first + second) == Fold(Fold(b, first), second)
    ensures FoldReports(b, first + second) == FoldReports(b, first) + FoldReports(Fold(b, first), second)
    decreases |second|
  {
    if |second| == 0 {
      assert first + second == first;
    } else {
      var front := second[..|second| - 1];
      FoldConcatenation(b, first, front);
      assert (first + second)[..|first + second| - 1] == first + front;
      assert (first + second)[|first + second| - 1] == second[|second| - 1];
    }
  }

  /** Exactly one report per trade and per quote, whatever its side; none per unknown event. */
  lemma {:induction false} OneReportPerTradeOrQuote(b: BestBidOffer, events: seq<Event>)
    ensures |FoldReports(b, events)| == ReportedCount(events)
    decreases |events|
  {
    if |events| > 0 {
      OneReportPerTradeOrQuote(b, events[..|events| - 1]);
    }
  }

  /** A batch without quotes leaves the record as it was. */
  lemma {:induction false} NoQuoteNoChange(b: BestBidOffer, events: seq<Event>)
    requires forall i :: 0 <= i < |events| ==> !events[i].QuoteEvent?
    ensures Fold(b, events) == b
    decreases |events|
  {
    if |events| > 0 {
      NoQuoteNoChange(b, events[..|events| - 1]);
    }
  }

  /** A bid at 50000 with 1.5 remaining, and an ask at 50010 with 0.8 remaining. */
  const BidChange: Value :=
    Object(map["type" := Str("change"), "side" := Str("bid"), "price" := Str("50000.00"), "remaining" := Str("1.5")])
  const AskChange: Value :=
    Object(map["type" := Str("change"), "side" := Str("ask"), "price" := Str("50010.00"), "remaining" := Str("0.8")])

  /** The two changes, bid first, in one message. */
  const BidThenAsk: Value :=
    Object(map["eventId" := Int(5585), "socket_sequence" := Int(1), "events" := Array([BidChange, AskChange])])

  lemma DecodeBidChange(parse: NumParser)
    requires parse("50000.00") == Some(50000.0) && parse("1.5") == Some(1.5)
    ensures DecodeEvent(BidChange, parse) == Success(QuoteEvent(Quote(50000.0, "", 1.5, Bid, None)))
  {
    assert Index(BidChange, "price") == Str("50000.00");
    assert Index(BidChange, "type") == Str("change");
    assert Index(BidChange, "reason") == Null;
    assert Index(BidChange, "delta") == Null;
  }

  lemma DecodeAskChange(parse: NumParser)
    requires parse("50010.00") == Some(50010.0) && parse("0.8") == Some(0.8)
    ensures DecodeEvent(AskChange, parse) == Success(QuoteEvent(Quote(50010.0, "", 0.8, Ask, None)))
  {
    assert Index(AskChange, "price") == Str("50010.00");
    assert Index(AskChange, "type") == Str("change");
    assert Index(AskChange, "reason") == Null;
    assert Index(AskChange, "delta") == Null;
  }

  lemma DecodeBidThenAsk(parse: NumParser)
    requires parse("50000.00") == Some(50000.0) && parse("1.5") == Some(1.5)
    requires parse("50010.00") == Some(50010.0) && parse("0.8") == Some(0.8)
    ensures Decode(BidThenAsk, parse) == Success(MarketMessage(5585, [
      QuoteEvent(Quote(50000.0, "", 1.5, Bid, None)),
      QuoteEvent(Quote(50010.0, "", 0.8, Ask, None))], None, None, 1))
  {
    DecodeBidChange(parse);
    DecodeAskChange(parse);
    var items := [BidChange, AskChange];
    assert Index(BidThenAsk, "events") == Array(items);
    assert Index(BidThenAsk, "eventId") == Int(5585);
    assert Index(BidThenAsk, "socket_sequence") == Int(1);
    assert Index(BidThenAsk, "timestamp") == Null;
    assert Index(BidThenAsk, "timestampms") == Null;
    var decoded := DecodeEvents(items, parse);
    assert DecodeEvent(items[0], parse).Success? && DecodeEvent(items[1], parse).Success?;
    assert decoded.Success?;
    assert decoded.value == [QuoteEvent(Quote(50000.0, "", 1.5, Bid, None)), QuoteEvent(Quote(50010.0, "", 0.8, Ask, None))];
  }

  /**
   * Decoding that message and applying it to the starting record gives
   * best bid 50000 with 1.5 remaining and best offer 50010 with 0.8
   * remaining, and one snapshot report per quote.
   */
  lemma BidThenAskExample(parse: NumParser)
    requires parse("50000.00") == Some(50000.0) && parse("1.5") == Some(1.5)
    requires parse("50010.00") == Some(50010.0) && parse("0.8") == Some(0.8)
    ensures Decode(BidThenAsk, parse).Success?
    ensures var events := Decode(BidThenAsk, parse).value.events;
      && Fold(NewBestBidOffer(), events) == BestBidOffer(50000.0, 50010.0, 1.5, 0.8)
      && |FoldReports(NewBestBidOffer(), events)| == 2
  {
    DecodeBidThenAsk(parse);
    var bid := QuoteEvent(Quote(50000.0, "", 1.5, Bid, None));
    var ask := QuoteEvent(Quote(50010.0, "", 0.8, Ask, None));
    assert [bid, ask][..1] == [bid];
    assert Fold(NewBestBidOffer(), [bid]) == BestBidOffer(50000.0, 0.0, 1.5, 0.0);
  }

  /** A trade at 100.50 for 2.0 is reported with notional 201. */
  lemma TradeNotionalExample(parse: NumParser, after: BestBidOffer)
    requires parse("100.50") == Some(100.5) && parse("2.0") == Some(2.0)
    ensures var e := Object(map["type" := Str("trade"), "price" := Str("100.50"), "amount" := Str("2.0"), "makerSide" := Str("bid")]);
      && DecodeEvent(e, parse) == Success(TradeEvent(Trade(100.5, 2.0, Bid)))
      && Emitted(after, DecodeEvent(e, parse).value) == [TradeReport(Trade(100.5, 2.0, Bid), 201.0)]
  {
  }

  // ---------------------------------------------------------------------
  // The record, updated in place

  /** The shared best bid/offer record of the stream loop. */
  class BboState {
    var bestBid: real
    var bestOffer: real
    var bidAmountRemaining: real
    var askAmountRemaining: real

    /** A copy of the record, as the loop prints it. */
    function Snapshot(): BestBidOffer
      reads this
    {
      BestBidOffer(bestBid, bestOffer, bidAmountRemaining, askAmountRemaining)
    }

    /** `BestBidOffer::new()`: the record starts all zero. */
    constructor ()
      ensures Snapshot() == NewBestBidOffer()
    {
      var b := NewBestBidOffer();
      bestBid, bestOffer := b.bestBid, b.bestOffer;
      bidAmountRemaining, askAmountRemaining := b.bidAmountRemaining, b.askAmountRemaining;
    }

    /** One arm of the per-event `match`. */
    method Apply(e: Event) returns (reports: seq<Report>)
      modifies this
      ensures Snapshot() == Step(old(Snapshot()), e)
      ensures reports == Emitted(Snapshot(), e)
      ensures e.QuoteEvent? && e.quote.side == Ask ==>
        && bestOffer == e.quote.price && askAmountRemaining == e.quote.remaining
        && bestBid == old(bestBid) && bidAmountRemaining == old(bidAmountRemaining)
      ensures e.QuoteEvent? && e.quote.side == Bid ==>
        && bestBid == e.quote.price && bidAmountRemaining == e.quote.remaining
        && bestOffer == old(bestOffer) && askAmountRemaining == old(askAmountRemaining)
      ensures !(e.QuoteEvent? && e.quote.side != UnknownSide) ==> Snapshot() == old(Snapshot())
      ensures e.QuoteEvent? ==> reports == [BboReport(Snapshot())]
      ensures e.TradeEvent? ==> reports == [TradeReport(e.trade, e.trade.amount * e.trade.price)]
      ensures e.UnknownEvent? ==> reports == []
    {
      match e
      case TradeEvent(t) =>
        reports := [TradeReport(t, Notional(t))];
        assert reports[0].notional == e.trade.amount * e.trade.price;
      case QuoteEvent(q) =>
        match q.side {
          case Ask =>
            bestOffer := q.price;
            askAmountRemaining := q.remaining;
          case Bid =>
            bestBid := q.price;
            bidAmountRemaining := q.remaining;
          case UnknownSide =>
        }
        reports := [BboReport(Snapshot())];
      case UnknownEvent =>
        reports := [];
    }

    /** `for e in event.events { .. }`: the events of one message, in wire order. */
    method ApplyAll(events: seq<Event>) returns (reports: seq<Report>)
      modifies this
      ensures Snapshot() == Fold(old(Snapshot()), events)
      ensures reports == FoldReports(old(Snapshot()), events)
    {
      reports := [];
      for i := 0 to |events|
        invariant Snapshot() == Fold(old(Snapshot()), events[..i])
        invariant reports == FoldReports(old(Snapshot()), events[..i])
      {
        var out := Apply(events[i]);
        assert events[..i + 1][..i] == events[..i];
        reports := reports + out;
      }
      assert events[..|events|] == events;
    }

    /**
     * The body of the closure given to `read.for_each`: skip an empty frame,
     * otherwise parse and decode it (a failure panics before any event is
     * applied) and apply its events.
     */
    method HandleFrame(frame: seq<Byte>, parseJson: JsonParser, parse: NumParser) returns (outcome: FrameOutcome)
      modifies this
      ensures |frame| == 0 ==> outcome == Skipped
      ensures |frame| > 0 && parseJson(frame).None? ==> outcome == Panicked(InvalidJson)
      ensures |frame| > 0 && parseJson(frame).Some? && Decode(parseJson(frame).value, parse).Failure? ==>
        outcome == Panicked(Malformed(Decode(parseJson(frame).value, parse).error))
      ensures outcome.Processed? <==>
        |frame| > 0 && parseJson(frame).Some? && Decode(parseJson(frame).value, parse).Success?
      ensures outcome.Processed? ==>
        && outcome.message == Decode(parseJson(frame).value, parse).value
        && Snapshot() == Fold(old(Snapshot()), outcome.message.events)
        && outcome.reports == FoldReports(old(Snapshot()), outcome.message.events)
      ensures !outcome.Processed? ==> Snapshot() == old(Snapshot())
    {
      if |frame| == 0 {
        return Skipped;
      }
      var document := parseJson(frame);
      if document.None? {
        return Panicked(InvalidJson);
      }
      var message := Decode(document.value, parse);
      if message.Failure? {
        return Panicked(Malformed(message.error));
      }
      var reports := ApplyAll(message.value.events);
      outcome := Processed(message.value, reports);
    }
  }
}
