/**
 * The structured answer of the market-price agent (`MarketPriceAgentOutput` and the
 * records it nests) and how a field dictionary is validated into it: a missing
 * `full_response`, an undeclared top-level key or a value of the wrong kind is
 * rejected, and every absent field takes its declared default. The nested records
 * dump back to dictionaries (`model_dump`) that validate to the same record.
 *
 * Values arrive as JSON; a field typed `float` takes a JSON number, `str` a string,
 * `bool` a boolean, a nested record an object and a list an array. The lax coercions
 * the validation library also performs (numeric strings to numbers and the like) are
 * not part of this model.
 */
module OutputModel {
  import opened Wrappers
  import opened Json

  // ---------------------------------------------------------------- price units

  /** `PriceUnit` */
  datatype PriceUnit = PerKg | PerQuintal | PerTon | PerTonne | PerPound | PerBushel | PerCwt | PerBag | PerPiece

  const AllUnits: seq<PriceUnit> := [PerKg, PerQuintal, PerTon, PerTonne, PerPound, PerBushel, PerCwt, PerBag, PerPiece]

  /** The string value of each unit. */
  function UnitText(u: PriceUnit): string {
    match u
    case PerKg => "per kg"
    case PerQuintal => "per quintal"
    case PerTon => "per ton"
    case PerTonne => "per tonne"
    case PerPound => "per pound"
    case PerBushel => "per bushel"
    case PerCwt => "per cwt"
    case PerBag => "per bag"
    case PerPiece => "per piece"
  }

  /** `PriceUnit(s)`: the unit whose value is `s`, or None where Python raises ValueError. */
  function ParseUnit(s: string): Option<PriceUnit> {
    if s == "per kg" then Some(PerKg)
    else if s == "per quintal" then Some(PerQuintal)
    else if s == "per ton" then Some(PerTon)
    else if s == "per tonne" then Some(PerTonne)
    else if s == "per pound" then Some(PerPound)
    else if s == "per bushel" then Some(PerBushel)
    else if s == "per cwt" then Some(PerCwt)
    else if s == "per bag" then Some(PerBag)
    else if s == "per piece" then Some(PerPiece)
    else None
  }

  /** Every unit is parsed back from its value. */
  lemma ParseUnitText(u: PriceUnit)
    ensures ParseUnit(UnitText(u)) == Some(u)
  {
  }

  /** Only the nine values parse, each to the unit it names. */
  lemma UnitTextParse(s: string, u: PriceUnit)
    requires ParseUnit(s) == Some(u)
    ensures UnitText(u) == s
  {
  }

  /** There are exactly nine units, with nine distinct values. */
  lemma NineUnits(u: PriceUnit)
    ensures |AllUnits| == 9
    ensures u in AllUnits
    ensures forall i, j | 0 <= i < j < |AllUnits| :: UnitText(AllUnits[i]) != UnitText(AllUnits[j])
  {
    forall i, j | 0 <= i < j < |AllUnits|
      ensures UnitText(AllUnits[i]) != UnitText(AllUnits[j])
    {
      ParseUnitText(AllUnits[i]);
      ParseUnitText(AllUnits[j]);
    }
    match u
    case PerKg => assert AllUnits[0] == u;
    case PerQuintal => assert AllUnits[1] == u;
    case PerTon => assert AllUnits[2] == u;
    case PerTonne => assert AllUnits[3] == u;
    case PerPound => assert AllUnits[4] == u;
    case PerBushel => assert AllUnits[5] == u;
    case PerCwt => assert AllUnits[6] == u;
    case PerBag => assert AllUnits[7] == u;
    case PerPiece => assert AllUnits[8] == u;
  }

  // ---------------------------------------------------------------- field kinds

  /** An `Optional[str]` field: absent, null or a string. */
  predicate OptTextOk(m: map<string, Json>, key: string) {
    key !in m || m[key].JNull? || m[key].JString?
  }

  function OptText(m: map<string, Json>, key: string): Option<string> {
    if key in m && m[key].JString? then Some(m[key].s) else None
  }

  function TextJson(o: Option<string>): Json {
    match o
    case None => JNull
    case Some(s) => JString(s)
  }

  /** An `Optional[float]` field: absent, null or a number. */
  predicate OptNumberOk(m: map<string, Json>, key: string) {
    key !in m || m[key].JNull? || m[key].JNumber?
  }

  function OptNumber(m: map<string, Json>, key: string): Option<real> {
    if key in m && m[key].JNumber? then Some(m[key].n) else None
  }

  function NumberJson(o: Option<real>): Json {
    match o
    case None => JNull
    case Some(n) => JNumber(n)
  }

  /** A `bool` field with a default: absent or a boolean. */
  predicate BoolOk(m: map<string, Json>, key: string) {
    key !in m || m[key].JBool?
  }

  function BoolOr(m: map<string, Json>, key: string, default: bool): bool {
    if key in m && m[key].JBool? then m[key].b else default
  }

  /**
   * An optional field validates to the value it was given, and to None when it was
   * left out or given as null.
   */
  lemma OptionalKeepsGiven(m: map<string, Json>, key: string)
    requires OptTextOk(m, key) || OptNumberOk(m, key)
    ensures OptTextOk(m, key) && key in m ==> TextJson(OptText(m, key)) == m[key]
    ensures OptNumberOk(m, key) && key in m ==> NumberJson(OptNumber(m, key)) == m[key]
    ensures key !in m || m[key].JNull? ==> OptText(m, key).None? && OptNumber(m, key).None?
  {
  }

  // ---------------------------------------------------------------- MarketInfo

  /** `MarketInfo`: every field optional, None by default. */
  datatype MarketInfo = MarketInfo(marketName: Option<string>, minPrice: Option<real>, maxPrice: Option<real>,
                                   avgPrice: Option<real>, modalPrice: Option<real>, unit: Option<string>,
                                   date: Option<string>)

  predicate MarketInfoOk(m: map<string, Json>) {
    && OptTextOk(m, "market_name") && OptNumberOk(m, "min_price") && OptNumberOk(m, "max_price")
    && OptNumberOk(m, "avg_price") && OptNumberOk(m, "modal_price") && OptTextOk(m, "unit")
    && OptTextOk(m, "date")
  }

  /** Validation of one market object; keys it does not declare are ignored. */
  function MarketInfoOf(m: map<string, Json>): MarketInfo {
    MarketInfo(OptText(m, "market_name"), OptNumber(m, "min_price"), OptNumber(m, "max_price"),
               OptNumber(m, "avg_price"), OptNumber(m, "modal_price"), OptText(m, "unit"), OptText(m, "date"))
  }

  function MarketInfoJson(x: MarketInfo): map<string, Json> {
    map["market_name" := TextJson(x.marketName), "min_price" := NumberJson(x.minPrice),
        "max_price" := NumberJson(x.maxPrice), "avg_price" := NumberJson(x.avgPrice),
        "modal_price" := NumberJson(x.modalPrice), "unit" := TextJson(x.unit), "date" := TextJson(x.date)]
  }

  /** A dumped market validates back to itself. */
  lemma MarketInfoRoundTrip(x: MarketInfo)
    ensures MarketInfoOk(MarketInfoJson(x)) && MarketInfoOf(MarketInfoJson(x)) == x
  {
  }

  /** An empty object is a market that knows nothing. */
  lemma MarketInfoDefaults()
    ensures MarketInfoOk(map[]) && MarketInfoOf(map[]) == MarketInfo(None, None, None, None, None, None, None)
  {
  }

  // ---------------------------------------------------------------- PriceSummary

  /** `PriceSummary`: every field optional, None by default. */
  datatype PriceSummary = PriceSummary(overallMinPrice: Option<real>, overallMaxPrice: Option<real>,
                                       weightedAvgPrice: Option<real>, priceRange: Option<real>,
                                       standardUnit: Option<string>)

  predicate PriceSummaryOk(m: map<string, Json>) {
    && OptNumberOk(m, "overall_min_price") && OptNumberOk(m, "overall_max_price")
    && OptNumberOk(m, "weighted_avg_price") && OptNumberOk(m, "price_range") && OptTextOk(m, "standard_unit")
  }

  function PriceSummaryOf(m: map<string, Json>): PriceSummary {
    PriceSummary(OptNumber(m, "overall_min_price"), OptNumber(m, "overall_max_price"),
                 OptNumber(m, "weighted_avg_price"), OptNumber(m, "price_range"), OptText(m, "standard_unit"))
  }

  function PriceSummaryJson(x: PriceSummary): map<string, Json> {
    map["overall_min_price" := NumberJson(x.overallMinPrice), "overall_max_price" := NumberJson(x.overallMaxPrice),
        "weighted_avg_price" := NumberJson(x.weightedAvgPrice), "price_range" := NumberJson(x.priceRange),
        "standard_unit" := TextJson(x.standardUnit)]
  }

  /** A dumped summary validates back to itself. */
  lemma PriceSummaryRoundTrip(x: PriceSummary)
    ensures PriceSummaryOk(PriceSummaryJson(x)) && PriceSummaryOf(PriceSummaryJson(x)) == x
  {
  }

  /** An empty object is a summary that knows nothing. */
  lemma PriceSummaryDefaults()
    ensures PriceSummaryOk(map[]) && PriceSummaryOf(map[]) == PriceSummary(None, None, None, None, None)
  {
  }

  // ---------------------------------------------------------------- CalculationResult

  /** A value of `Dict[str, Union[float, str]]`. */
  datatype Scalar = Number(n: real) | Text(s: string)

  predicate ScalarOk(v: Json) {
    v.JNumber? || v.JString?
  }

  function ScalarOf(v: Json): Scalar
    requires ScalarOk(v)
  {
    if v.JNumber? then Number(v.n) else Text(v.s)
  }

  function ScalarJson(x: Scalar): Json {
    match x
    case Number(n) => JNumber(n)
    case Text(s) => JString(s)
  }

  /** `CalculationResult`: every field optional, None by default. */
  datatype CalculationResult = CalculationResult(calculationType: Option<string>,
                                                 inputParameters: Option<map<string, Json>>,
                                                 result: Option<map<string, Scalar>>,
                                                 explanation: Option<string>)

  predicate CalculationResultOk(m: map<string, Json>) {
    && OptTextOk(m, "calculation_type")
    && ("input_parameters" !in m || m["input_parameters"].JNull? || m["input_parameters"].JObject?)
    && ("result" !in m || m["result"].JNull? ||
        (m["result"].JObject? && forall k | k in m["result"].fields :: ScalarOk(m["result"].fields[k])))
    && OptTextOk(m, "explanation")
  }

  function CalculationResultOf(m: map<string, Json>): CalculationResult
    requires CalculationResultOk(m)
  {
    CalculationResult(
      OptText(m, "calculation_type"),
      if "input_parameters" in m && m["input_parameters"].JObject? then Some(m["input_parameters"].fields) else None,
      if "result" in m && m["result"].JObject?
      then Some(map k | k in m["result"].fields :: ScalarOf(m["result"].fields[k]))
      else None,
      OptText(m, "explanation"))
  }

  function CalculationResultJson(x: CalculationResult): map<string, Json> {
    map["calculation_type" := TextJson(x.calculationType),
        "input_parameters" := (match x.inputParameters case None => JNull case Some(p) => JObject(p)),
        "result" := (match x.result
                     case None => JNull
                     case Some(r) => JObject(map k | k in r :: ScalarJson(r[k]))),
        "explanation" := TextJson(x.explanation)]
  }

  /** A dumped calculation result validates back to itself. */
  lemma CalculationResultRoundTrip(x: CalculationResult)
    ensures CalculationResultOk(CalculationResultJson(x))
    ensures CalculationResultOf(CalculationResultJson(x)) == x
  {
    var m := CalculationResultJson(x);
    if x.result.Some? {
      var r := x.result.value;
      var j := map k | k in r :: ScalarJson(r[k]);
      assert m["result"] == JObject(j);
      var back := map k | k in j :: ScalarOf(j[k]);
      assert back == r;
    }
  }

  // ---------------------------------------------------------------- lists

  /** An `Optional[List[MarketInfo]]` value: null or an array of market objects. */
  predicate MarketListOk(v: Json) {
    v.JNull? || (v.JArray? && forall i | 0 <= i < |v.items| :: v.items[i].JObject? && MarketInfoOk(v.items[i].fields))
  }

  function MarketListOf(v: Json): Option<seq<MarketInfo>>
    requires MarketListOk(v)
  {
    if v.JNull? then None
    else Some(seq(|v.items|, i requires 0 <= i < |v.items| => MarketInfoOf(v.items[i].fields)))
  }

  function MarketListJson(o: Option<seq<MarketInfo>>): Json {
    match o
    case None => JNull
    case Some(xs) => JArray(seq(|xs|, i requires 0 <= i < |xs| => JObject(MarketInfoJson(xs[i]))))
  }

  /** A dumped market list validates back to itself. */
  lemma MarketListRoundTrip(o: Option<seq<MarketInfo>>)
    ensures MarketListOk(MarketListJson(o)) && MarketListOf(MarketListJson(o)) == o
  {
    if o.Some? {
      var xs := o.value;
      var v := MarketListJson(o);
      forall i | 0 <= i < |xs|
        ensures v.items[i].JObject? && MarketInfoOk(v.items[i].fields) && MarketInfoOf(v.items[i].fields) == xs[i]
      {
        MarketInfoRoundTrip(xs[i]);
      }
      assert MarketListOf(v).value == xs;
    }
  }

  /** An `Optional[List[CalculationResult]]` value. */
  predicate CalculationListOk(v: Json) {
    v.JNull? ||
    (v.JArray? && forall i | 0 <= i < |v.items| :: v.items[i].JObject? && CalculationResultOk(v.items[i].fields))
  }

  function CalculationListOf(v: Json): Option<seq<CalculationResult>>
    requires CalculationListOk(v)
  {
    if v.JNull? then None
    else Some(seq(|v.items|, i requires 0 <= i < |v.items| => CalculationResultOf(v.items[i].fields)))
  }

  function CalculationListJson(o: Option<seq<CalculationResult>>): Json {
    match o
    case None => JNull
    case Some(xs) => JArray(seq(|xs|, i requires 0 <= i < |xs| => JObject(CalculationResultJson(xs[i]))))
  }

  /** A dumped list of calculation results validates back to itself. */
  lemma CalculationListRoundTrip(o: Option<seq<CalculationResult>>)
    ensures CalculationListOk(CalculationListJson(o)) && CalculationListOf(CalculationListJson(o)) == o
  {
    if o.Some? {
      var xs := o.value;
      var v := CalculationListJson(o);
      forall i | 0 <= i < |xs|
        ensures v.items[i].JObject? && CalculationResultOk(v.items[i].fields)
        ensures CalculationResultOf(v.items[i].fields) == xs[i]
      {
        CalculationResultRoundTrip(xs[i]);
      }
      assert CalculationListOf(v).value == xs;
    }
  }

  /** An `Optional[List[str]]` value. */
  predicate TextListOk(v: Json) {
    v.JNull? || (v.JArray? && forall i | 0 <= i < |v.items| :: v.items[i].JString?)
  }

  function TextListOf(v: Json): Option<seq<string>>
    requires TextListOk(v)
  {
    if v.JNull? then None
    else Some(seq(|v.items|, i requires 0 <= i < |v.items| => v.items[i].s))
  }

  function TextListJson(o: Option<seq<string>>): Json {
    match o
    case None => JNull
    case Some(xs) => JArray(seq(|xs|, i requires 0 <= i < |xs| => JString(xs[i])))
  }

  /** A dumped list of strings validates back to itself. */
  lemma TextListRoundTrip(o: Option<seq<string>>)
    ensures TextListOk(TextListJson(o)) && TextListOf(TextListJson(o)) == o
  {
    if o.Some? {
      assert TextListOf(TextListJson(o)).value == o.value;
    }
  }

  // ---------------------------------------------------------------- MarketPriceAgentOutput

  /** `MarketPriceAgentOutput` */
  datatype Output = Output(
    crop: Option<string>, state: Option<string>, district: Option<string>, market: Option<string>,
    minMarketPrice: Option<string>, maxMarketPrice: Option<string>,
    priceSummary: Option<PriceSummary>, marketsData: Option<seq<MarketInfo>>,
    searchDate: Option<string>, priceDate: Option<string>,
    calculationRequested: bool, calculationResults: Option<seq<CalculationResult>>,
    searchSuccessful: bool, dataAvailability: Option<string>, sources: Option<seq<string>>,
    fullResponse: string, structuredDataAvailable: bool,
    marketTrends: Option<string>, seasonalContext: Option<string>)

  /** The declared fields; `extra = "forbid"` rejects any other key. */
  const OutputKeys: set<string> := {
    "crop", "state", "district", "market", "min_market_price", "max_market_price",
    "price_summary", "markets_data", "search_date", "price_date",
    "calculation_requested", "calculation_results", "search_successful", "data_availability", "sources",
    "full_response", "structured_data_available", "market_trends", "seasonal_context"}

  /** Why a dictionary is not a valid output. */
  datatype ValidationError =
    | ExtraForbidden(keys: set<string>)
    | Missing(key: string)
    | WrongType

  /** Every declared field the dictionary has holds a value of its declared kind. */
  predicate FieldsOk(m: map<string, Json>) {
    && OptTextOk(m, "crop") && OptTextOk(m, "state") && OptTextOk(m, "district") && OptTextOk(m, "market")
    && OptTextOk(m, "min_market_price") && OptTextOk(m, "max_market_price")
    && ("price_summary" !in m || m["price_summary"].JNull? ||
        (m["price_summary"].JObject? && PriceSummaryOk(m["price_summary"].fields)))
    && ("markets_data" !in m || MarketListOk(m["markets_data"]))
    && OptTextOk(m, "search_date") && OptTextOk(m, "price_date")
    && BoolOk(m, "calculation_requested")
    && ("calculation_results" !in m || CalculationListOk(m["calculation_results"]))
    && BoolOk(m, "search_successful") && OptTextOk(m, "data_availability")
    && ("sources" !in m || TextListOk(m["sources"]))
    && ("full_response" !in m || m["full_response"].JString?)
    && BoolOk(m, "structured_data_available")
    && OptTextOk(m, "market_trends") && OptTextOk(m, "seasonal_context")
  }

  /** The record a well-formed dictionary validates to, with the declared defaults. */
  function Build(m: map<string, Json>): Output
    requires FieldsOk(m) && "full_response" in m
  {
    Output(
      OptText(m, "crop"), OptText(m, "state"), OptText(m, "district"), OptText(m, "market"),
      OptText(m, "min_market_price"), OptText(m, "max_market_price"),
      if "price_summary" in m && m["price_summary"].JObject?
      then Some(PriceSummaryOf(m["price_summary"].fields)) else None,
      if "markets_data" in m then MarketListOf(m["markets_data"]) else Some([]),
      OptText(m, "search_date"), OptText(m, "price_date"),
      BoolOr(m, "calculation_requested", false),
      if "calculation_results" in m then CalculationListOf(m["calculation_results"]) else Some([]),
      BoolOr(m, "search_successful", true), OptText(m, "data_availability"),
      if "sources" in m then TextListOf(m["sources"]) else Some([]),
      m["full_response"].s, BoolOr(m, "structured_data_available", false),
      OptText(m, "market_trends"), OptText(m, "seasonal_context"))
  }

  /** `MarketPriceAgentOutput(**m)` */
  function Validate(m: map<string, Json>): Result<Output, ValidationError> {
    if m.Keys - OutputKeys != {} then Err(ExtraForbidden(m.Keys - OutputKeys))
    else if "full_response" !in m then Err(Missing("full_response"))
    else if !FieldsOk(m) then Err(WrongType)
    else Ok(Build(m))
  }

  /** A missing `full_response` is always rejected. */
  lemma FullResponseRequired(m: map<string, Json>)
    requires "full_response" !in m
    ensures Validate(m).Err?
  {
  }

  /** A key the record does not declare is always rejected, whatever else is given. */
  lemma ExtraKeysRejected(m: map<string, Json>, key: string)
    requires key in m && key !in OutputKeys
    ensures Validate(m).Err? && Validate(m).error.ExtraForbidden? && key in Validate(m).error.keys
  {
  }

  /** The record with only its response given: every other field at its declared default. */
  function Defaults(fullResponse: string): Output {
    Output(None, None, None, None, None, None, None, Some([]), None, None,
           false, Some([]), true, None, Some([]), fullResponse, false, None, None)
  }

  /** Only `full_response` given: the flags default to False, True and False, the lists to [] and the rest to None. */
  lemma ValidateDefaults(fullResponse: string)
    ensures Validate(map["full_response" := JString(fullResponse)]) == Ok(Defaults(fullResponse))
  {
    var m := map["full_response" := JString(fullResponse)];
    assert m.Keys - OutputKeys == {};
  }

  /**
   * A validated record keeps the response and flags it was given and defaults those it
   * was not.
   */
  lemma ValidatedFlags(m: map<string, Json>, o: Output)
    requires Validate(m) == Ok(o)
    ensures JString(o.fullResponse) == m["full_response"]
    ensures "calculation_requested" in m ==> JBool(o.calculationRequested) == m["calculation_requested"]
    ensures "calculation_requested" !in m ==> !o.calculationRequested
    ensures "search_successful" in m ==> JBool(o.searchSuccessful) == m["search_successful"]
    ensures "search_successful" !in m ==> o.searchSuccessful
    ensures "structured_data_available" in m ==> JBool(o.structuredDataAvailable) == m["structured_data_available"]
    ensures "structured_data_available" !in m ==> !o.structuredDataAvailable
    ensures "markets_data" !in m ==> o.marketsData == Some([])
    ensures "calculation_results" !in m ==> o.calculationResults == Some([])
    ensures "sources" !in m ==> o.sources == Some([])
    ensures "crop" in m ==> TextJson(o.crop) == m["crop"]
    ensures "crop" !in m ==> o.crop.None?
  {
  }
}
