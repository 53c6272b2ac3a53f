# Gemini market-data client: decoder and best bid/offer record

This project models the core of a small Rust client for the Gemini exchange's
market-data WebSocket feed, in Dafny, and proves properties of the model.

- **The wire-message decoder** (`src/models.rs`, module `Models` in
  `models.dfy`). `Event::new` turns one JSON document into a `MarketMessage`:
  an event id, the batch of events in wire order, two optional timestamps and
  a socket sequence number. Each element of the `events` array becomes a
  `Trade` ("trade"), a `Quote` ("change") or `UnknownEvent` (any other type).
  Prices and amounts arrive as JSON strings and are parsed as numbers.
  Mandatory fields that are missing or malformed make the source panic
  (`unwrap`). Here they make `Decode` return `Failure` with a `DecodeError`
  that names the field and, for an event, its index. Optional fields fall back
  to fixed defaults. `MarketSide::from_string` and `MessageType::from_string`
  are total, case-sensitive maps.
- **The per-message handling of the stream loop** (`src/main.rs`, module
  `Client` in `client.dfy`). An empty frame is skipped. Any other frame is
  parsed and decoded, and its events are applied in order to the one
  best bid/offer record:
  - a quote on the Ask side overwrites `best_offer` and `ask_amount_remaining`;
  - a quote on the Bid side overwrites `best_bid` and `bid_amount_remaining`;
  - a quote on an unknown side changes nothing;
  - every quote is reported with a snapshot of the record;
  - a trade is reported with its notional value `amount * price` and leaves
    the record alone;
  - an unknown event does nothing.

  The record is the class `BboState`, with one field per field of
  `BestBidOffer`. It is updated in place by `Apply` (one event), `ApplyAll`
  (the `for` loop over a batch) and `HandleFrame` (one frame). Each method is
  proved against the functions `Step`, `Emitted`, `Fold` and `FoldReports`,
  and the lemmas beside them state what a batch does to the record.

The JSON document is the datatype `Json.Value`. It has null, booleans,
integral numbers, other numbers, strings, arrays, and objects as maps from
key to value. Its lookups follow serde_json's:
- indexing a non-object or a missing key gives `Null`;
- `as_str` is defined only on strings;
- `as_u64` is defined only on integral numbers in `[0, 2^64)`;
- `as_array` is defined only on arrays.

Prices and amounts (`f64` in the source) are `real`. Two steps the source
delegates to libraries are parameters of the model, so every property holds
for any implementation of them:
- number parsing (`str::parse::<f64>`) is the parameter `parse: string -> Option<real>`;
- byte-to-JSON parsing (`serde_json::from_slice`) is the parameter
  `parseJson: seq<Byte> -> Option<Value>`.

Three behaviours of the source worth noting:
- `socket_sequence` is read as any `u64` and narrowed with `as u32`. The
  source keeps the low 32 bits; it does not reject values above the `u32`
  range.
- A malformed message makes the source panic, which ends the stream.
  `HandleFrame` reports this as `Panicked` and leaves the record untouched:
  the panic happens before any event of the frame is applied.
- A `price` that is missing or does not parse fails the message even when
  the element's type is unrecognised. The source reads `price` before it
  looks at `type`.

## Model

| member | source | states |
|---|---|---|
| Models.SideFromString | src/models.rs:12-18 | `MarketSide::from_string`: a known side is returned only for its own wire name, and UnknownSide exactly when the string is no side's wire name (see SideFromStringInvertsName) |
| Models.TypeFromString | src/models.rs:29-35 | `MessageType::from_string`: a known type is returned only for its own wire name, and UnknownKind exactly when the string is no type's wire name (see TypeFromStringInvertsName) |
| Models.DecodeChange | src/models.rs:78-98 | the `Change` arm: fails only with NotANumber on `remaining` or `delta`, exactly when one of them is a string that does not parse; keeps the price; "", 0 and UnknownSide for a non-string reason, remaining and side; a delta exactly when `delta` is a string (see ChangeFieldsAndDefaults) |
| Models.DecodeTrade | src/models.rs:100-110 | the `Trade` arm: succeeds exactly when `amount` is a string that parses, failing on field `amount` otherwise; keeps the price, takes the parsed amount, UnknownSide for a non-string makerSide (see TradeFieldsAndDefaults) |
| Models.DecodeEvent | src/models.rs:75-112 | the closure mapped over `events`: on success the element had a parseable price string and a string type, the event is a Quote, a Trade or UnknownEvent exactly as the type maps to change, trade or neither, and a quote or trade carries the parsed price; a failure names one of price, type, remaining, delta, amount |
| Models.TruncateToU32 | src/models.rs:120 | `as u32`: the result differs from the input by a multiple of 2^32 and equals it when it fits |
| Models.SideFromStringInvertsName | src/models.rs:12-18 | each known side comes back from its wire name ("ask", "bid") and only from it; every other string, including other capitalisations, gives UnknownSide and never fails |
| Models.TypeFromStringInvertsName | src/models.rs:29-35 | "trade" and "change" are the only strings that give a known event type; every other string gives UnknownKind |
| Models.DecodeEvents | src/models.rs:74-113 | the batch decodes exactly when every element decodes; on success it has the array's length and its i-th event is the i-th element decoded (wire order kept); on failure the reported index is the first element that fails |
| Models.Decode | src/models.rs:71-122 | a missing or non-array `events` fails with EventsNotArray (never an empty batch); decoding succeeds exactly when every element decodes and `eventId` and `socket_sequence` are u64 values; on success the events correspond to the array element by element, the id is `eventId`, each timestamp is `as_u64` of its own field (None when absent or not a u64), and the sequence is the wire value mod 2^32 |
| Models.NewBestBidOffer | src/models.rs:134-141 | the starting record has all four fields zero |
| Models.DecodedEventsHadPriceAndType | src/models.rs:76-77 | in a message that decodes, every element had a `price` string that parses and a string `type`, whatever its type |
| Models.PriceIsReadFirst | src/models.rs:76-77 | a missing or non-string `price` fails the element as NotAString, and an unparseable one as NotANumber, before `type` is looked at |
| Models.UnknownTypeReadsOnlyPriceAndType | src/models.rs:76-111 | an element with an unrecognised string `type` decodes to UnknownEvent exactly when its price parses, and two such elements that agree on `price` and `type` decode alike, so no other field is read |
| Models.ChangeFieldsAndDefaults | src/models.rs:78-98 | a "change" element fails only on a `remaining` or `delta` string that does not parse; otherwise reason, remaining, side and delta take the field's value when it is a string and "", 0, UnknownSide, None when it is not; a present delta string is never None |
| Models.BareChangeGetsDefaults | src/models.rs:78-98 | a "change" element with only `type` and `price` gives Quote(price, "", 0, UnknownSide, None) |
| Models.TradeFieldsAndDefaults | src/models.rs:100-110 | a "trade" element fails exactly when `amount` is missing, not a string or unparseable; makerSide is the mapped `makerSide` string, or UnknownSide when absent or not a string |
| Models.UnknownTypeIsTolerated | src/models.rs:74-113 | in a message that decodes, an element of unrecognised type becomes UnknownEvent at its own position |
| Models.FirstBadEventIsReported | src/models.rs:74-76 | one bad element fails the whole message, and the error names the first bad element in wire order |
| Models.SocketSequenceIsNarrowed | src/models.rs:120 | the decoded sequence differs from the wire value by a multiple of 2^32 and equals it when it fits in 32 bits |
| Client.BboState.constructor | src/main.rs:29 | the record starts as `BestBidOffer::new()` |
| Client.BboState.Apply | src/main.rs:39-69 | an Ask quote sets best_offer and ask_amount_remaining and keeps the bid fields; a Bid quote sets best_bid and bid_amount_remaining and keeps the ask fields; an unknown-side quote, a trade and an unknown event leave the record unchanged; a quote reports the record after the update, a trade reports notional amount × price, an unknown event reports nothing |
| Client.BboState.ApplyAll | src/main.rs:38-70 | after the loop the record is the left fold of the per-event step over the batch in wire order, and the reports are those of each event in order |
| Client.BboState.HandleFrame | src/main.rs:32-70 | an empty frame is skipped; unparseable JSON or a failed decode panics and leaves the record unchanged; otherwise the decoded message's events are folded into the record and their reports returned |
| Client.StepSidesAreIndependent | src/main.rs:46-62 | what a step leaves in the bid fields depends only on the bid fields before it, and likewise for the ask fields |
| Client.FoldKeepsLastQuotePerSide | src/main.rs:38-70 | after a batch the bid fields hold the price and remaining amount of its last Bid quote (or their old values when there is none), and the ask fields those of its last Ask quote |
| Client.FoldConcatenation | src/main.rs:38-70 | applying two batches one after the other equals applying their concatenation, for the record and the reports |
| Client.OneReportPerTradeOrQuote | src/main.rs:40-68 | a batch produces exactly one report per trade and per quote, whatever the quote's side, and none per unknown event |
| Client.NoQuoteNoChange | src/main.rs:40-68 | a batch of trades and unknown events leaves the record as it was |
| Client.BidThenAskExample | src/main.rs:32-70 | a message holding a bid change at 50000.00 / 1.5 and then an ask change at 50010.00 / 0.8 decodes, and applying it to the starting record gives bid 50000 / 1.5 and offer 50010 / 0.8 with two reports |
| Client.TradeNotionalExample | src/main.rs:40-44 | a trade at "100.50" for "2.0" with makerSide "bid" decodes to Trade(100.5, 2.0, Bid) and is reported with notional 201 |

## Left out

- The WebSocket connection, URL building, the handshake and the tokio runtime (src/main.rs:18-31, 74) are network I/O and async plumbing. A transport error (`message.unwrap()`, src/main.rs:32) is also left out.
- Command-line parsing with clap (src/main.rs:12-16, 20) is a thin library wrapper.
- Byte-level JSON parsing (`serde_json::from_slice`, src/models.rs:72) is the parameter `parseJson`. Its failure is modelled as `Panicked(InvalidJson)`. The JSON grammar itself is not modelled.
- `str::parse::<f64>` is the parameter `parse`. IEEE-754 semantics are not modelled: NaN, infinities, rounding of the parsed value, and rounding of `amount * price`. Prices, amounts and notionals are exact reals.
- The `Mutex`/`Arc` around the record (src/main.rs:29, 49, 56, 64) and any atomicity claim for concurrent readers are concurrency. The record is single-owner state changed only by `BboState`'s methods.
- The `Debug` text of reports and the writes to stdout (src/main.rs:42-43, 64-65) are output formatting. A report is the structured value `Report`.
- The `Serialize`/`Deserialize` derives are unused generated code.
- The stream loop across frames (`read.for_each`) is asynchronous I/O. `HandleFrame` models one iteration, and `FoldConcatenation` states how successive batches compose.
