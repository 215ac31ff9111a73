/**
  The event types the client knows, with the names and types of their fields. Field names are in
  the camel case they have on the wire. Only Quote leaves fields without a value out of its JSON.
 */
module DxEvents {
  import opened FeedCodec
  import opened FeedEvents
  import opened JsonModel
  import opened Wrappers

  /** A type whose only required field is a string. */
  function RequiresOnly(n: string, types: map<string, FieldType>, omitNone: bool): (v: Variant)
    requires n in types && types[n] == TString && TAG !in types
    ensures WellFormedVariant(v) && v.required == {n} && v.omitNone == omitNone && v.types == types
  {
    assert n in {n};
    Variant({n}, types, omitNone)
  }

  function QuoteVariant(): (v: Variant)
    ensures WellFormedVariant(v) && v.required == {"eventSymbol"} && v.omitNone
    ensures "bidPrice" in v.types && v.types["bidPrice"] == TDouble
    ensures "askExchangeCode" in v.types && v.types["askExchangeCode"] == TString
  {
    RequiresOnly("eventSymbol", map[
      "eventSymbol" := TString, "eventTime" := TU64, "sequence" := TU64, "timeNanoPart" := TU64,
      "bidTime" := TU64, "bidExchangeCode" := TString, "bidPrice" := TDouble, "bidSize" := TDouble,
      "askTime" := TU64, "askExchangeCode" := TString, "askPrice" := TDouble, "askSize" := TDouble], true)
  }

  function ProfileVariant(): (v: Variant)
    ensures WellFormedVariant(v) && v.required == {"eventSymbol"} && !v.omitNone
    ensures "shortSaleRestriction" in v.types && v.types["shortSaleRestriction"] == TString
  {
    RequiresOnly("eventSymbol", map[
      "eventSymbol" := TString, "eventTime" := TU64, "description" := TString,
      "shortSaleRestriction" := TString, "tradingStatus" := TString, "haltStartTime" := TU64,
      "haltEndTime" := TU64, "highLimitPrice" := TDouble, "lowLimitPrice" := TDouble,
      "high52WeekPrice" := TDouble, "low52WeekPrice" := TDouble, "beta" := TDouble,
      "earningsPerShare" := TDouble, "dividendFrequency" := TDouble, "exDividendAmount" := TDouble,
      "exDividendDayId" := TU64, "shares" := TDouble, "freeFloat" := TDouble], false)
  }

  /** Extended-hours trades have the same fields. */
  function TradeVariant(): (v: Variant)
    ensures WellFormedVariant(v) && v.required == {"eventSymbol"} && !v.omitNone
    ensures "tickDirection" in v.types && v.types["tickDirection"] == TString
    ensures "extendedTradingHours" in v.types && v.types["extendedTradingHours"] == TBool
  {
    RequiresOnly("eventSymbol", map[
      "eventSymbol" := TString, "eventTime" := TU64, "sequence" := TU64, "timeNanoPart" := TU64,
      "time" := TU64, "exchangeCode" := TString, "price" := TDouble, "change" := TDouble,
      "size" := TDouble, "dayId" := TU64, "dayVolume" := TDouble, "dayTurnover" := TDouble,
      "tickDirection" := TString, "extendedTradingHours" := TBool], false)
  }

  function CandleVariant(): (v: Variant)
    ensures WellFormedVariant(v) && v.required == {"eventSymbol"} && !v.omitNone
    ensures "vwap" in v.types && v.types["vwap"] == TDouble
  {
    RequiresOnly("eventSymbol", map[
      "eventSymbol" := TString, "eventTime" := TU64, "dayId" := TU64, "time" := TU64,
      "sequence" := TU64, "open" := TDouble, "high" := TDouble, "low" := TDouble,
      "close" := TDouble, "volume" := TDouble, "vwap" := TDouble, "bidVolume" := TDouble,
      "askVolume" := TDouble, "impVolatility" := TDouble, "openInterest" := TDouble], false)
  }

  function SummaryVariant(): (v: Variant)
    ensures WellFormedVariant(v) && v.required == {"eventSymbol"} && !v.omitNone
    ensures "prevDayId" in v.types && v.types["prevDayId"] == TU64
  {
    RequiresOnly("eventSymbol", map[
      "eventSymbol" := TString, "eventTime" := TU64, "dayId" := TU64, "dayOpenPrice" := TDouble,
      "dayHighPrice" := TDouble, "dayLowPrice" := TDouble, "dayClosePrice" := TDouble,
      "dayClosePriceType" := TString, "prevDayId" := TU64, "prevDayClosePrice" := TDouble,
      "prevDayClosePriceType" := TString, "prevDayVolume" := TDouble, "openInterest" := TU64], false)
  }

  function TimeAndSaleVariant(): (v: Variant)
    ensures WellFormedVariant(v) && v.required == {"eventSymbol"} && !v.omitNone
    ensures "aggressorSide" in v.types && v.types["aggressorSide"] == TString
  {
    RequiresOnly("eventSymbol", map[
      "eventSymbol" := TString, "eventTime" := TU64, "time" := TU64, "sequence" := TU64,
      "exchangeCode" := TString, "price" := TDouble, "size" := TDouble, "bidPrice" := TDouble,
      "askPrice" := TDouble, "exchangeSaleConditions" := TString, "tradeThroughExempt" := TString,
      "aggressorSide" := TString, "spreadLeg" := TBool, "extendedTradingHours" := TBool], false)
  }

  function GreeksVariant(): (v: Variant)
    ensures WellFormedVariant(v) && v.required == {"eventSymbol"} && !v.omitNone
    ensures "vega" in v.types && v.types["vega"] == TDouble
  {
    RequiresOnly("eventSymbol", map[
      "eventSymbol" := TString, "eventTime" := TU64, "price" := TDouble, "volatility" := TDouble,
      "delta" := TDouble, "gamma" := TDouble, "theta" := TDouble, "rho" := TDouble,
      "vega" := TDouble], false)
  }

  function TheoPriceVariant(): (v: Variant)
    ensures WellFormedVariant(v) && v.required == {"eventSymbol"} && !v.omitNone
    ensures "underlyingPrice" in v.types && v.types["underlyingPrice"] == TDouble
  {
    RequiresOnly("eventSymbol", map[
      "eventSymbol" := TString, "eventTime" := TU64, "eventFlags" := TU64, "price" := TDouble,
      "underlyingPrice" := TDouble, "delta" := TDouble, "gamma" := TDouble, "dividend" := TDouble,
      "interest" := TDouble], false)
  }

  function UnderlyingVariant(): (v: Variant)
    ensures WellFormedVariant(v) && v.required == {"eventSymbol"} && !v.omitNone
    ensures "frontVolatility" in v.types && v.types["frontVolatility"] == TDouble
  {
    RequiresOnly("eventSymbol", map[
      "eventSymbol" := TString, "eventTime" := TU64, "volatility" := TDouble,
      "frontVolatility" := TDouble, "backVolatility" := TDouble, "callVolume" := TDouble,
      "putVolume" := TDouble, "putCallRatio" := TDouble], false)
  }

  function OptionSaleVariant(): (v: Variant)
    ensures WellFormedVariant(v) && v.required == {"eventSymbol"} && !v.omitNone
    ensures "optionSymbol" in v.types && v.types["optionSymbol"] == TString
  {
    RequiresOnly("eventSymbol", map[
      "eventSymbol" := TString, "eventTime" := TU64, "time" := TU64, "exchangeCode" := TString,
      "price" := TDouble, "size" := TDouble, "saleConditions" := TString, "side" := TString,
      "volatility" := TDouble, "delta" := TDouble, "optionSymbol" := TString], false)
  }

  function SeriesVariant(): (v: Variant)
    ensures WellFormedVariant(v) && v.required == {"eventSymbol"} && !v.omitNone
    ensures "forwardPrice" in v.types && v.types["forwardPrice"] == TDouble
  {
    RequiresOnly("eventSymbol", map[
      "eventSymbol" := TString, "eventTime" := TU64, "series" := TString, "expiration" := TU64,
      "volatility" := TDouble, "callVolume" := TDouble, "putVolume" := TDouble,
      "putCallRatio" := TDouble, "forwardPrice" := TDouble, "dividend" := TDouble,
      "interest" := TDouble], false)
  }

  /** Spread orders have the same fields. */
  function OrderVariant(): (v: Variant)
    ensures WellFormedVariant(v) && v.required == {"eventSymbol"} && !v.omitNone
    ensures "tradeId" in v.types && v.types["tradeId"] == TU64
    ensures "executedSize" in v.types && v.types["executedSize"] == TDouble
  {
    RequiresOnly("eventSymbol", map[
      "eventSymbol" := TString, "eventTime" := TU64, "eventFlags" := TU64, "index" := TU64,
      "time" := TU64, "sequence" := TU64, "price" := TDouble, "size" := TDouble,
      "executedSize" := TDouble, "count" := TU64, "exchangeCode" := TString,
      "orderSide" := TString, "scope" := TString, "tradeId" := TU64, "tradePrice" := TDouble,
      "tradeSize" := TDouble], false)
  }

  function AnalyticOrderVariant(): (v: Variant)
    ensures WellFormedVariant(v) && v.required == {"eventSymbol"} && !v.omitNone
    ensures "icebergType" in v.types && v.types["icebergType"] == TString
  {
    RequiresOnly("eventSymbol", map[
      "eventSymbol" := TString, "eventTime" := TU64, "eventFlags" := TU64, "index" := TU64,
      "time" := TU64, "icebergPeakSize" := TDouble, "icebergHiddenSize" := TDouble,
      "icebergExecutedSize" := TDouble, "icebergType" := TString, "marketMaker" := TString,
      "sequence" := TU64, "price" := TDouble, "size" := TDouble, "executedSize" := TDouble,
      "count" := TU64, "exchangeCode" := TString, "orderSide" := TString, "scope" := TString,
      "tradeId" := TU64, "tradePrice" := TDouble, "tradeSize" := TDouble], false)
  }

  function ConfigurationVariant(): (v: Variant)
    ensures WellFormedVariant(v) && v.required == {"eventSymbol"} && !v.omitNone
    ensures "configuration" in v.types && v.types["configuration"] == TJson
  {
    RequiresOnly("eventSymbol", map[
      "eventSymbol" := TString, "eventTime" := TU64, "configuration" := TJson], false)
  }

  function MessageVariant(): (v: Variant)
    ensures WellFormedVariant(v) && v.required == {"message"} && !v.omitNone
    ensures "messageCode" in v.types && v.types["messageCode"] == TString
  {
    RequiresOnly("message", map[
      "eventSymbol" := TString, "eventTime" := TU64, "message" := TString,
      "messageType" := TString, "messageCode" := TString], false)
  }

  /** Well formed, and every event is required to have its symbol; a message, its text instead. Only
      quotes leave out what they do not have. */
  ghost predicate SymbolsRequired(table: EventTable) {
    && WellFormedTable(table)
    && (forall k :: k in table ==> table[k].required == {if k == "Message" then "message" else "eventSymbol"})
    && (forall k :: k in table ==> (table[k].omitNone <==> k == "Quote"))
  }

  predicate HasField(table: EventTable, kind: string, field: string, ty: FieldType) {
    kind in table && field in table[kind].types && table[kind].types[field] == ty
  }

  const QUOTE_KINDS: set<string> := {"Quote", "Trade", "TradeETH"}
  const SUMMARY_KINDS: set<string> := {"Profile", "Candle", "Summary"}
  const SALE_KINDS: set<string> := {"TimeAndSale", "OptionSale"}
  const OPTION_KINDS: set<string> := {"Greeks", "TheoPrice", "Underlying", "Series"}
  const ORDER_KINDS: set<string> := {"Order", "SpreadOrder", "AnalyticOrder"}
  const SERVICE_KINDS: set<string> := {"Configuration", "Message"}

  function QuoteEvents(): (table: EventTable)
    ensures SymbolsRequired(table)
    ensures table.Keys == QUOTE_KINDS
    ensures HasField(table, "Quote", "bidPrice", TDouble)
    ensures HasField(table, "Quote", "askExchangeCode", TString)
    ensures HasField(table, "Trade", "tickDirection", TString)
    ensures HasField(table, "TradeETH", "extendedTradingHours", TBool)
  {
    hide QuoteVariant, TradeVariant;
    map[
      "Quote" := QuoteVariant(),
      "Trade" := TradeVariant(),
      "TradeETH" := TradeVariant()]
  }

  function SummaryEvents(): (table: EventTable)
    ensures SymbolsRequired(table)
    ensures table.Keys == SUMMARY_KINDS
    ensures HasField(table, "Profile", "shortSaleRestriction", TString)
    ensures HasField(table, "Candle", "vwap", TDouble)
    ensures HasField(table, "Summary", "prevDayId", TU64)
  {
    hide ProfileVariant, CandleVariant, SummaryVariant;
    map[
      "Profile" := ProfileVariant(),
      "Candle" := CandleVariant(),
      "Summary" := SummaryVariant()]
  }

  function SaleEvents(): (table: EventTable)
    ensures SymbolsRequired(table)
    ensures table.Keys == SALE_KINDS
    ensures HasField(table, "TimeAndSale", "aggressorSide", TString)
    ensures HasField(table, "OptionSale", "optionSymbol", TString)
  {
    hide TimeAndSaleVariant, OptionSaleVariant;
    map[
      "TimeAndSale" := TimeAndSaleVariant(),
      "OptionSale" := OptionSaleVariant()]
  }

  function OptionEvents(): (table: EventTable)
    ensures SymbolsRequired(table)
    ensures table.Keys == OPTION_KINDS
    ensures HasField(table, "Greeks", "vega", TDouble)
    ensures HasField(table, "TheoPrice", "underlyingPrice", TDouble)
    ensures HasField(table, "Underlying", "frontVolatility", TDouble)
    ensures HasField(table, "Series", "forwardPrice", TDouble)
  {
    hide GreeksVariant, TheoPriceVariant, UnderlyingVariant, SeriesVariant;
    map[
      "Greeks" := GreeksVariant(),
      "TheoPrice" := TheoPriceVariant(),
      "Underlying" := UnderlyingVariant(),
      "Series" := SeriesVariant()]
  }

  function OrderEvents(): (table: EventTable)
    ensures SymbolsRequired(table)
    ensures table.Keys == ORDER_KINDS
    ensures HasField(table, "Order", "tradeId", TU64)
    ensures HasField(table, "SpreadOrder", "executedSize", TDouble)
    ensures HasField(table, "AnalyticOrder", "icebergType", TString)
  {
    hide OrderVariant, AnalyticOrderVariant;
    map[
      "Order" := OrderVariant(),
      "SpreadOrder" := OrderVariant(),
      "AnalyticOrder" := AnalyticOrderVariant()]
  }

  function ServiceEvents(): (table: EventTable)
    ensures SymbolsRequired(table)
    ensures table.Keys == SERVICE_KINDS
    ensures HasField(table, "Configuration", "configuration", TJson)
    ensures HasField(table, "Message", "messageCode", TString)
  {
    hide ConfigurationVariant, MessageVariant;
    map[
      "Configuration" := ConfigurationVariant(),
      "Message" := MessageVariant()]
  }

  function Join(a: EventTable, b: EventTable): (table: EventTable)
    requires SymbolsRequired(a) && SymbolsRequired(b)
    ensures SymbolsRequired(table)
    ensures table.Keys == a.Keys + b.Keys
    ensures forall kind, field, ty :: HasField(b, kind, field, ty) ==> HasField(table, kind, field, ty)
    ensures a.Keys !! b.Keys ==>
              forall kind, field, ty :: HasField(a, kind, field, ty) ==> HasField(table, kind, field, ty)
  {
    a + b
  }

  /** The event types of the client and their fields. */
  function DxTable(): (table: EventTable)
    ensures SymbolsRequired(table)
    ensures table.Keys == QUOTE_KINDS + SUMMARY_KINDS + (SALE_KINDS + OPTION_KINDS) + (ORDER_KINDS + SERVICE_KINDS)
  {
    Join(Join(Join(QuoteEvents(), SummaryEvents()), Join(SaleEvents(), OptionEvents())),
         Join(OrderEvents(), ServiceEvents()))
  }

  lemma KindsAreDisjoint()
    ensures QUOTE_KINDS !! SUMMARY_KINDS && SALE_KINDS !! OPTION_KINDS && ORDER_KINDS !! SERVICE_KINDS
    ensures QUOTE_KINDS + SUMMARY_KINDS !! SALE_KINDS + OPTION_KINDS
    ensures QUOTE_KINDS + SUMMARY_KINDS + (SALE_KINDS + OPTION_KINDS) !! ORDER_KINDS + SERVICE_KINDS
  {
  }

  lemma FieldsReachTable(kind: string, field: string, ty: FieldType)
    requires HasField(QuoteEvents(), kind, field, ty) || HasField(SummaryEvents(), kind, field, ty)
             || HasField(SaleEvents(), kind, field, ty) || HasField(OptionEvents(), kind, field, ty)
             || HasField(OrderEvents(), kind, field, ty) || HasField(ServiceEvents(), kind, field, ty)
    ensures HasField(DxTable(), kind, field, ty)
  {
    KindsAreDisjoint();
    hide HasField, SymbolsRequired, QuoteEvents, SummaryEvents, SaleEvents, OptionEvents, OrderEvents, ServiceEvents;
    hide Join;
  }

  /** Each type has the fields that are its own. */
  lemma FieldsOfMarketEvents()
    ensures HasField(DxTable(), "Quote", "bidPrice", TDouble)
    ensures HasField(DxTable(), "Quote", "askExchangeCode", TString)
    ensures HasField(DxTable(), "Trade", "tickDirection", TString)
    ensures HasField(DxTable(), "TradeETH", "extendedTradingHours", TBool)
    ensures HasField(DxTable(), "Profile", "shortSaleRestriction", TString)
    ensures HasField(DxTable(), "Candle", "vwap", TDouble)
    ensures HasField(DxTable(), "Summary", "prevDayId", TU64)
  {
    hide HasField, SymbolsRequired, DxTable, QuoteEvents, SummaryEvents;
    FieldsReachTable("Quote", "bidPrice", TDouble);
    FieldsReachTable("Quote", "askExchangeCode", TString);
    FieldsReachTable("Trade", "tickDirection", TString);
    FieldsReachTable("TradeETH", "extendedTradingHours", TBool);
    FieldsReachTable("Profile", "shortSaleRestriction", TString);
    FieldsReachTable("Candle", "vwap", TDouble);
    FieldsReachTable("Summary", "prevDayId", TU64);
  }

  /** Likewise. */
  lemma FieldsOfOptionEvents()
    ensures HasField(DxTable(), "TimeAndSale", "aggressorSide", TString)
    ensures HasField(DxTable(), "OptionSale", "optionSymbol", TString)
    ensures HasField(DxTable(), "Greeks", "vega", TDouble)
    ensures HasField(DxTable(), "TheoPrice", "underlyingPrice", TDouble)
    ensures HasField(DxTable(), "Underlying", "frontVolatility", TDouble)
    ensures HasField(DxTable(), "Series", "forwardPrice", TDouble)
  {
    hide HasField, SymbolsRequired, DxTable, SaleEvents, OptionEvents;
    FieldsReachTable("TimeAndSale", "aggressorSide", TString);
    FieldsReachTable("OptionSale", "optionSymbol", TString);
    FieldsReachTable("Greeks", "vega", TDouble);
    FieldsReachTable("TheoPrice", "underlyingPrice", TDouble);
    FieldsReachTable("Underlying", "frontVolatility", TDouble);
    FieldsReachTable("Series", "forwardPrice", TDouble);
  }

  /** Likewise. */
  lemma FieldsOfOrderEvents()
    ensures HasField(DxTable(), "Order", "tradeId", TU64)
    ensures HasField(DxTable(), "SpreadOrder", "executedSize", TDouble)
    ensures HasField(DxTable(), "AnalyticOrder", "icebergType", TString)
    ensures HasField(DxTable(), "Configuration", "configuration", TJson)
    ensures HasField(DxTable(), "Message", "messageCode", TString)
  {
    hide HasField, SymbolsRequired, DxTable, OrderEvents, ServiceEvents;
    FieldsReachTable("Order", "tradeId", TU64);
    FieldsReachTable("SpreadOrder", "executedSize", TDouble);
    FieldsReachTable("AnalyticOrder", "icebergType", TString);
    FieldsReachTable("Configuration", "configuration", TJson);
    FieldsReachTable("Message", "messageCode", TString);
  }

  /** FEED_DATA of the client's own event types survives the wire exactly when it is compact and not
      empty, or full with every double canonical and no configuration set to null. */
  lemma DxDataRoundTrip(parse: FloatParser, data: FeedData)
    ensures WellTypedData(DxTable(), data) ==>
              (Unwire(parse, DxTable(), Wire(DxTable(), data)) == Ok(data) <==>
               match data
               case Full(events) => forall i :: 0 <= i < |events| ==> Canonical(events[i])
               case Compact(batches) => batches != [])
  {
    var table := DxTable();
    hide DxTable, Unwire, Wire, WellTypedData, Canonical;
    if WellTypedData(table, data) {
      WireRoundTrip(parse, table, data);
    }
  }
}
