/**
 * The FIX 4.4 records the acceptor exchanges with its counterparty, and the
 * builders that fill them in.  Every value the original draws from a random
 * source, a clock or a UUID generator arrives here as a parameter; the
 * builders' preconditions state the ranges those sources deliver.
 */
module Messages {
  import opened Wrappers

  /** A price with five decimal places, held exactly as a count of 10^-5 units. */
  datatype Price = Price(ticks: int)

  /** A size with one decimal place, held exactly as a count of tenths. */
  datatype Size = Size(tenths: int)

  const PriceScale: int := 100000
  const SizeScale: int := 10

  /** lo <= p <= hi, for whole-number bounds */
  predicate PriceWithin(p: Price, lo: int, hi: int) {
    lo * PriceScale <= p.ticks <= hi * PriceScale
  }

  /** lo <= s <= hi, for whole-number bounds */
  predicate SizeWithin(s: Size, lo: int, hi: int) {
    lo * SizeScale <= s.tenths <= hi * SizeScale
  }

  // What the price generator can deliver once rounded to its precision:
  // `nextDouble() * 100 + 1` lies in [1, 101), `nextDouble() * 100` in [0, 100)
  // and `nextDouble() * 10` in [0, 10); rounding may reach the upper bound.

  predicate OffsetPriceDraw(ticks: int) { 1 * PriceScale <= ticks <= 101 * PriceScale }
  predicate PlainPriceDraw(ticks: int) { 0 <= ticks <= 100 * PriceScale }
  predicate SizeDraw(tenths: int) { 0 <= tenths <= 10 * SizeScale }

  // FIX 4.4 enumerated field values the acceptor uses.
  const ExecTypeFill: char := '2'
  const OrdStatusFilled: char := '2'
  const SideBuy: char := '1'
  const SecurityResponseAccepted: int := 1
  const SecurityTypeFxContract: string := "FOR"
  const DefinitionCurrency: string := "USD"

  datatype Quote = Quote(symbol: string, bidPx: Price, offerPx: Price)

  datatype ExecutionReport = ExecutionReport(
    symbol: string,
    execType: char,
    ordStatus: char,
    side: char,
    leavesQty: int,
    cumQty: int,
    lastQty: int,
    avgPx: Price,
    lastPx: Price)

  /** One repeating group of NoMDEntries (tag 268). */
  datatype MDEntry = MDEntry(entryType: char, px: Price, size: Size)

  datatype MarketDataSnapshot = MarketDataSnapshot(mdReqId: string, symbol: string, entries: seq<MDEntry>)

  datatype TradeCaptureReport = TradeCaptureReport(symbol: string, lastPx: Price, lastQty: int)

  datatype SecurityDefinition = SecurityDefinition(
    symbol: string,
    responseType: int,
    securityType: string,
    currency: string)

  /** Any record the acceptor sends. */
  datatype Message =
    | QuoteMsg(quote: Quote)
    | ExecMsg(report: ExecutionReport)
    | SnapshotMsg(snapshot: MarketDataSnapshot)
    | TradeMsg(trade: TradeCaptureReport)
    | DefinitionMsg(definition: SecurityDefinition)

  /**
   * An inbound MarketDataRequest: MDReqID (tag 262), the Symbol of each
   * NoRelatedSym group (tag 146) and the MDEntryType of each NoMDEntryTypes
   * group (tag 267), as the strings the engine delivers.
   */
  datatype MarketDataRequest = MarketDataRequest(mdReqId: string, relatedSyms: seq<string>, entryTypes: seq<string>)

  /** An inbound TradeCaptureReportRequest; only its Symbol (tag 55) is read. */
  datatype TradeCaptureReportRequest = TradeCaptureReportRequest(symbol: Option<string>)

  /** An inbound SecurityDefinitionRequest; only its Symbol (tag 55) is read. */
  datatype SecurityDefinitionRequest = SecurityDefinitionRequest(symbol: Option<string>)

  /** The two random values one snapshot entry consumes. */
  datatype EntryDraw = EntryDraw(pxTicks: int, sizeTenths: int)

  predicate ValidEntryDraw(d: EntryDraw) {
    PlainPriceDraw(d.pxTicks) && SizeDraw(d.sizeTenths)
  }

  /** A report of a completely filled buy order. */
  predicate IsFullFill(r: ExecutionReport) {
    && r.execType == ExecTypeFill
    && r.ordStatus == OrdStatusFilled
    && r.side == SideBuy
    && r.leavesQty == 0
    && r.cumQty == r.lastQty
    && r.avgPx == r.lastPx
  }

  /** A two-sided quote whose bid and offer lie in [1, 101]. */
  function BuildQuote(symbol: string, bidTicks: int, offerTicks: int): (q: Quote)
    requires OffsetPriceDraw(bidTicks) && OffsetPriceDraw(offerTicks)
    ensures q.symbol == symbol
    ensures PriceWithin(q.bidPx, 1, 101) && PriceWithin(q.offerPx, 1, 101)
  {
    Quote(symbol, Price(bidTicks), Price(offerTicks))
  }

  /**
   * The quantity of a synthetic fill: `nextInt(900)` returns a value in
   * [0, 900) and the report adds 100 to it.
   */
  function FillQty(qtyDraw: int): int {
    qtyDraw + 100
  }

  /** A synthetic fully filled buy order of 100 to 999 units. */
  function BuildExecutionReport(symbol: string, qtyDraw: int, pxTicks: int): (r: ExecutionReport)
    requires 0 <= qtyDraw < 900 && OffsetPriceDraw(pxTicks)
    ensures r.symbol == symbol
    ensures IsFullFill(r)
    ensures r.lastQty == FillQty(qtyDraw) && r.lastPx == Price(pxTicks)
    ensures 100 <= r.lastQty <= 999
    ensures PriceWithin(r.lastPx, 1, 101)
  {
    var qty := FillQty(qtyDraw);
    var px := Price(pxTicks);
    ExecutionReport(symbol, ExecTypeFill, OrdStatusFilled, SideBuy, 0, qty, qty, px, px)
  }

  /**
   * Every quantity in [100, 999] is the LastQty of the report built from
   * exactly one `nextInt(900)` draw.
   */
  lemma FillQtyIsBijective(symbol: string, pxTicks: int, q: int)
    requires OffsetPriceDraw(pxTicks) && 100 <= q <= 999
    ensures exists d :: 0 <= d < 900 && BuildExecutionReport(symbol, d, pxTicks).lastQty == q
    ensures forall d1, d2 ::
      (0 <= d1 < 900 && 0 <= d2 < 900 &&
       BuildExecutionReport(symbol, d1, pxTicks).lastQty == BuildExecutionReport(symbol, d2, pxTicks).lastQty)
      ==> d1 == d2
  {
    assert BuildExecutionReport(symbol, q - 100, pxTicks).lastQty == q;
  }


  /** A single synthetic trade of 1 to 500 units at a price in [0, 100]. */
  function BuildTradeCaptureReport(symbol: string, pxTicks: int, qtyDraw: int): (r: TradeCaptureReport)
    requires PlainPriceDraw(pxTicks) && 0 <= qtyDraw < 500
    ensures r.symbol == symbol
    ensures 1 <= r.lastQty <= 500
    ensures PriceWithin(r.lastPx, 0, 100)
  {
    TradeCaptureReport(symbol, Price(pxTicks), qtyDraw + 1)
  }

  /** An accepted definition of `symbol` as a foreign exchange contract quoted in USD. */
  function BuildSecurityDefinition(symbol: string): (d: SecurityDefinition)
  {
    SecurityDefinition(symbol, SecurityResponseAccepted, SecurityTypeFxContract, DefinitionCurrency)
  }

  /** Every requested entry type can be read as a single FIX `char`. */
  predicate AllSingleChars(types: seq<string>) {
    forall i :: 0 <= i < |types| ==> |types[i]| == 1
  }

  /**
   * The full-refresh reply to a market-data request: one entry per requested
   * entry type, in request order, each with its own price and size.  Reading
   * an entry type that is not exactly one character throws inside the
   * builder's `try`, so the whole snapshot is abandoned (None).
   */
  method BuildMarketDataSnapshot(req: MarketDataRequest, symbol: string, draws: seq<EntryDraw>)
    returns (r: Option<MarketDataSnapshot>)
    requires |req.entryTypes| <= |draws|
    requires forall i :: 0 <= i < |draws| ==> ValidEntryDraw(draws[i])
    ensures r.Some? <==> AllSingleChars(req.entryTypes)
    ensures r.Some? ==> r.value.mdReqId == req.mdReqId && r.value.symbol == symbol
    ensures r.Some? ==> |r.value.entries| == |req.entryTypes|
    ensures r.Some? ==> forall i :: 0 <= i < |req.entryTypes| ==>
      r.value.entries[i] == MDEntry(req.entryTypes[i][0], Price(draws[i].pxTicks), Size(draws[i].sizeTenths))
    ensures r.Some? ==> forall e :: e in r.value.entries ==> PriceWithin(e.px, 0, 100) && SizeWithin(e.size, 0, 10)
  {
    var entries: seq<MDEntry> := [];
    var i := 0;
    while i < |req.entryTypes|
      invariant 0 <= i <= |req.entryTypes|
      invariant |entries| == i
      invariant forall k :: 0 <= k < i ==> |req.entryTypes[k]| == 1
      invariant forall k :: 0 <= k < i ==>
        entries[k] == MDEntry(req.entryTypes[k][0], Price(draws[k].pxTicks), Size(draws[k].sizeTenths))
    {
      var t := req.entryTypes[i];
      if |t| != 1 {
        return None;
      }
      entries := entries + [MDEntry(t[0], Price(draws[i].pxTicks), Size(draws[i].sizeTenths))];
      i := i + 1;
    }
    r := Some(MarketDataSnapshot(req.mdReqId, symbol, entries));
  }
}
