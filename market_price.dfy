/**
 * The market-price search tool: the location and query text sent to the search
 * service, and `extract_price_data`, which reads the service's answer line by line
 * into crop/location/date headers, per-market price records and a price summary.
 * The HTTP request and the clock are not modelled; today's date is a parameter.
 */
module MarketPrice {
  import opened Wrappers
  import opened Stats
  import opened Text

  // ---------------------------------------------------------------- query

  /** Python truthiness of an optional string argument: neither None nor "". */
  predicate Given(o: Option<string>) {
    o.Some? && o.value != ""
  }

  /** `", ".join(location_parts)`, where the district, when given, is put in front of the state. */
  function Location(state: string, district: Option<string>): (r: string)
    ensures Given(district) ==> r == district.value + ", " + state
    ensures !Given(district) ==> r == state
  {
    var parts := if Given(district) then [district.value] + [state] else [state];
    assert Given(district) ==> parts[1..] == [state] && JoinWith([state], ", ") == state;
    JoinWith(parts, ", ")
  }

  const Lead := "What is the current market price of "
  const DateLead := "? Today's date is "

  /** The question asked of the search service; `today` is the date formatted as `%d-%m-%Y`. */
  function Query(crop: string, state: string, district: Option<string>, market: Option<string>,
                 today: string): string {
    if Given(district) && Given(market) then
      Lead + crop + " in " + district.value + ", " + state + " at " + market.value + " market" +
      DateLead + today + "."
    else if Given(district) then
      Lead + crop + " in " + district.value + ", " + state + DateLead + today + "."
    else if Given(market) then
      Lead + crop + " in " + state + " at " + market.value + " market" + DateLead + today + "."
    else
      Lead + crop + " in " + state + DateLead + today + "."
  }

  /** The market clause of the question: present exactly when a market is given. */
  function MarketClause(market: Option<string>): string {
    if Given(market) then " at " + market.value + " market" else ""
  }

  /**
   * The four templates are one sentence: the crop, the location string, the market
   * clause when a market is given, and the date.
   */
  lemma QueryIsOneTemplate(crop: string, state: string, district: Option<string>, market: Option<string>,
                           today: string)
    ensures Query(crop, state, district, market, today) ==
            Lead + crop + " in " + Location(state, district) + MarketClause(market) + DateLead + today + "."
  {
    var x := Lead + crop + " in ";
    var location := Location(state, district);
    if Given(district) {
      var d := district.value;
      AppendAssoc(x, d + ", ", state);
      AppendAssoc(x, d, ", ");
    }
    if Given(market) {
      AppendAssoc(x + location, " at " + market.value, " market");
      AppendAssoc(x + location, " at ", market.value);
    } else {
      assert x + location + MarketClause(market) == x + location;
    }
  }

  lemma AppendAssoc(a: string, b: string, c: string)
    ensures a + (b + c) == a + b + c
  {
  }

  /** Every question names the crop and the state, and names the market whenever one is given. */
  lemma QueryMentions(crop: string, state: string, district: Option<string>, market: Option<string>,
                      today: string)
    ensures var q := Query(crop, state, district, market, today);
      Contains(q, crop) && Contains(q, state) && (Given(market) ==> Contains(q, market.value))
  {
    var q := Query(crop, state, district, market, today);
    var before := if Given(district) then district.value + ", " else "";
    var clause := MarketClause(market);
    var t := Lead + crop + " in " + (before + state) + clause + DateLead + today + ".";
    assert q == t by {
      QueryIsOneTemplate(crop, state, district, market, today);
      assert Location(state, district) == before + state;
    }
    TemplateMentions(crop, before, state, clause, today);
    if Given(market) {
      MarketMentioned(crop, before + state, market.value, today);
    }
  }

  lemma MarketMentioned(crop: string, location: string, market: string, today: string)
    ensures Contains(Lead + crop + " in " + location + (" at " + market + " market") + DateLead + today + ".", market)
  {
    var s := Lead + crop + " in " + location + (" at " + market + " market") + DateLead + today + ".";
    assert s == (Lead + crop + " in " + location + " at ") + market + (" market" + DateLead + today + ".");
    ContainsAt(Lead + crop + " in " + location + " at ", market, " market" + DateLead + today + ".");
  }

  lemma TemplateMentions(crop: string, before: string, state: string, clause: string, today: string)
    ensures var q := Lead + crop + " in " + (before + state) + clause + DateLead + today + ".";
      Contains(q, crop) && Contains(q, state)
  {
    var x := Lead + crop + " in ";
    ContainsLast(Lead, crop);
    ContainsExtend(Lead + crop, " in ", crop);
    ContainsExtend(x, before + state, crop);
    ContainsLast(x + before, state);
    AppendAssoc(x, before, state);
    var y := x + (before + state);
    ContainsExtend(y, clause, crop);
    ContainsExtend(y, clause, state);
    ContainsExtend(y + clause, DateLead, crop);
    ContainsExtend(y + clause, DateLead, state);
    ContainsExtend(y + clause + DateLead, today, crop);
    ContainsExtend(y + clause + DateLead, today, state);
    ContainsExtend(y + clause + DateLead + today, ".", crop);
    ContainsExtend(y + clause + DateLead + today, ".", state);
  }

  // ---------------------------------------------------------------- prices in text

  predicate IsDigit(c: char) {
    '0' <= c <= '9'
  }

  predicate AllDigits(t: string) {
    forall k :: 0 <= k < |t| ==> IsDigit(t[k])
  }

  /** The longest run of digits at the start of `s`. */
  function DigitPrefix(s: string): (r: string)
    ensures AllDigits(r) && StartsWith(s, r)
    ensures |r| == |s| || !IsDigit(s[|r|])
  {
    if s != [] && IsDigit(s[0]) then [s[0]] + DigitPrefix(s[1..]) else []
  }

  /**
   * What `\d+(?:\.\d+)?` matches at the start of `s` when `s` starts with a digit:
   * all the leading digits, then a point and all the digits after it when a digit
   * follows the point.
   */
  function NumberPrefix(s: string): (r: string)
    requires s != [] && IsDigit(s[0])
    ensures StartsWith(s, r) && |r| >= 1
    ensures var whole := DigitPrefix(s);
      var rest := s[|whole|..];
      if |rest| >= 2 && rest[0] == '.' && IsDigit(rest[1]) then
        r == whole + "." + DigitPrefix(rest[1..])
      else r == whole
  {
    var whole := DigitPrefix(s);
    var rest := s[|whole|..];
    if |rest| >= 2 && rest[0] == '.' && IsDigit(rest[1]) then
      var fraction := DigitPrefix(rest[1..]);
      assert s == whole + rest && rest == ['.'] + rest[1..];
      assert StartsWith(s, whole + "." + fraction);
      whole + "." + fraction
    else whole
  }

  /** The position of the first digit of `s`, or `|s|` when it has none. */
  function FirstDigitAt(s: string): (k: nat)
    ensures k <= |s| && (k < |s| ==> IsDigit(s[k]))
    ensures forall j :: 0 <= j < k ==> !IsDigit(s[j])
  {
    if s == [] || IsDigit(s[0]) then 0 else 1 + FirstDigitAt(s[1..])
  }

  /**
   * `re.search(r'₹?(\d+(?:\.\d+)?)', s).group(1)`: the optional rupee sign never
   * decides where the group starts, so the group is the number at the first digit.
   */
  function SearchNumber(s: string): Option<string> {
    NumberAt(s, FirstDigitAt(s))
  }

  /** The search fails exactly when there is no digit; otherwise it takes the number at the first digit. */
  lemma SearchFindsFirstNumber(s: string)
    ensures SearchNumber(s).None? <==> forall k :: 0 <= k < |s| ==> !IsDigit(s[k])
    ensures SearchNumber(s).Some? ==> exists k :: (0 <= k < |s| && IsDigit(s[k]) &&
              (forall j :: 0 <= j < k ==> !IsDigit(s[j])) && SearchNumber(s).value == NumberPrefix(s[k..]))
  {
    var k := FirstDigitAt(s);
    if k < |s| {
      assert IsDigit(s[k]) && SearchNumber(s).value == NumberPrefix(s[k..]);
    }
  }

  /** The number starting at position `k` of `s`, or `None` when `k` is the end of `s`. */
  function NumberAt(s: string, k: nat): Option<string>
    requires k <= |s| && (k < |s| ==> IsDigit(s[k]))
  {
    if k == |s| then None else Some(NumberPrefix(s[k..]))
  }

  /** Text put in front moves the number's position along with it. */
  lemma NumberAtShift(prefix: string, s: string, k: nat)
    requires k <= |s| && (k < |s| ==> IsDigit(s[k]))
    ensures (prefix + s)[|prefix| + k..] == s[k..]
    ensures NumberAt(prefix + s, |prefix| + k) == NumberAt(s, k)
  {
    assert (prefix + s)[|prefix| + k..] == s[k..];
  }

  /** Text without digits in front of a price does not move the first digit. */
  lemma {:induction false} FirstDigitAfterPrefix(prefix: string, s: string)
    requires forall k :: 0 <= k < |prefix| ==> !IsDigit(prefix[k])
    ensures FirstDigitAt(prefix + s) == |prefix| + FirstDigitAt(s)
  {
    if prefix != [] {
      var t := prefix + s;
      assert t[0] == prefix[0] && t[1..] == prefix[1..] + s;
      assert forall k :: 0 <= k < |prefix[1..]| ==> prefix[1..][k] == prefix[k + 1];
      FirstDigitAfterPrefix(prefix[1..], s);
      assert FirstDigitAt(t) == 1 + FirstDigitAt(t[1..]);
    } else {
      assert prefix + s == s;
    }
  }

  /** Text without digits in front of a price never changes the price found. */
  lemma SearchSkipsNonDigits(prefix: string, s: string)
    requires forall k :: 0 <= k < |prefix| ==> !IsDigit(prefix[k])
    ensures SearchNumber(prefix + s) == SearchNumber(s)
  {
    FirstDigitAfterPrefix(prefix, s);
    SearchShift(prefix, s);
  }

  /** Text in front that moves the first digit along with it keeps the number found. */
  lemma SearchShift(prefix: string, s: string)
    requires FirstDigitAt(prefix + s) == |prefix| + FirstDigitAt(s)
    ensures SearchNumber(prefix + s) == SearchNumber(s)
  {
    var k := FirstDigitAt(s);
    assert SearchNumber(s) == NumberAt(s, k);
    assert SearchNumber(prefix + s) == NumberAt(prefix + s, |prefix| + k);
    NumberAtShift(prefix, s, k);
  }

  function DigitValue(c: char): nat {
    if IsDigit(c) then c as nat - '0' as nat else 0
  }

  /** The number a run of digits denotes. */
  function DigitsValue(t: string): nat {
    if t == [] then 0 else DigitsValue(t[..|t| - 1]) * 10 + DigitValue(t[|t| - 1])
  }

  function Pow10(n: nat): (r: nat)
    ensures r >= 1
  {
    if n == 0 then 1 else 10 * Pow10(n - 1)
  }

  /** `float(text)` for the text the price pattern matches, as an exact decimal. */
  function DecimalValue(text: string): real {
    if '.' in text then
      var i := IndexOf(text, '.');
      var fraction := text[i + 1..];
      DigitsValue(text[..i]) as real + DigitsValue(fraction) as real / Pow10(|fraction|) as real
    else DigitsValue(text) as real
  }

  /** The first price in `s`, if it holds a digit at all. */
  function FirstNumber(s: string): (r: Option<real>)
    ensures r.Some? <==> exists k :: 0 <= k < |s| && IsDigit(s[k])
  {
    SearchFindsFirstNumber(s);
    match SearchNumber(s)
    case None => None
    case Some(text) => Some(DecimalValue(text))
  }

  /** A whole price yields its amount. */
  lemma WholePriceExample()
    ensures FirstNumber("1500") == Some(1500.0)
  {
    var t := "1500";
    assert DigitPrefix(t) == t by {
      assert t[1..] == "500" && t[1..][1..] == "00" && t[1..][1..][1..] == "0";
    }
    assert FirstDigitAt(t) == 0;
    assert t[0..] == t;
    assert NumberPrefix(t) == t;
    assert DecimalValue(t) == 1500.0 by {
      assert forall k :: 0 <= k < |t| ==> t[k] != '.';
      assert DigitsValue(t) == 1500 by {
        assert t[..3] == "150" && "150"[..2] == "15" && "15"[..1] == "1";
      }
    }
  }

  /** The rupee sign in front of a price is skipped. */
  lemma RupeePriceExample()
    ensures FirstNumber("₹1500") == Some(1500.0)
  {
    assert "₹1500" == "₹" + "1500";
    SearchSkipsNonDigits("₹", "1500");
    WholePriceExample();
  }

  /** A price with a fractional part keeps it. */
  lemma DecimalPriceExample()
    ensures FirstNumber("2450.75") == Some(2450.75)
  {
    DecimalMatch();
    DecimalText();
  }

  lemma DecimalMatch()
    ensures SearchNumber("2450.75") == Some("2450.75")
  {
    var u := "2450.75";
    DecimalDigits();
    assert u[4..][1..] == "75";
    assert FirstDigitAt(u) == 0;
    assert u[0..] == u;
    assert NumberPrefix(u) == u;
  }

  lemma DecimalDigits()
    ensures DigitPrefix("2450.75") == "2450" && DigitPrefix("75") == "75"
  {
    var u := "2450.75";
    assert u[1..] == "450.75" && u[1..][1..] == "50.75";
    assert u[1..][1..][1..] == "0.75" && u[1..][1..][1..][1..] == ".75";
    assert "75"[1..] == "5" && "5"[1..] == "";
  }

  lemma DecimalText()
    ensures DecimalValue("2450.75") == 2450.75
  {
    var u := "2450.75";
    assert IndexOf(u, '.') == 4 by {
      assert u[..4] == "2450" && u[4] == '.';
      assert forall k :: 0 <= k < 4 ==> u[k] != '.';
    }
    assert u[..4] == "2450" && u[5..] == "75";
    assert DigitsValue("2450") == 2450 by {
      assert "2450"[..3] == "245" && "245"[..2] == "24" && "24"[..1] == "2";
    }
    assert DigitsValue("75") == 75 by {
      assert "75"[..1] == "7";
    }
    assert Pow10(2) == 100;
  }

  /** A price line that holds no digit yields no price. */
  lemma NoPriceExample()
    ensures FirstNumber("not available") == None
  {
    assert forall k :: 0 <= k < |"not available"| ==> !IsDigit("not available"[k]);
  }

  // ---------------------------------------------------------------- records and lines

  /** A market record: the keys `min_price`, `max_price`, `avg_price` and `unit`, each present or not. */
  datatype Market = Market(minPrice: Option<real>, maxPrice: Option<real>, avgPrice: Option<real>,
                           unit: Option<string>)

  const EmptyMarket := Market(None, None, None, None)

  /** `len(current_market)`: how many keys the record holds. */
  function FieldCount(m: Market): (n: nat)
    ensures n <= 4
    ensures n == 0 <==> m == EmptyMarket
  {
    (if m.minPrice.Some? then 1 else 0) + (if m.maxPrice.Some? then 1 else 0) +
    (if m.avgPrice.Some? then 1 else 0) + (if m.unit.Some? then 1 else 0)
  }

  /** What one stripped line of the answer says, in the order the parser tests for it. */
  datatype LineKind =
    | CropLine(text: string)
    | LocationLine(text: string)
    | DateLine(text: string)
    | MinPriceLine(price: Option<real>)
    | MaxPriceLine(price: Option<real>)
    | AvgPriceLine(price: Option<real>)
    | UnitLine(text: string)
    | OtherLine

  /** The stripped text after the first colon of a line that holds one. */
  function FieldText(line: string, marker: string): string
    requires ':' in marker && (StartsWith(line, marker) || Contains(line, marker))
  {
    CharOfPart(line, marker, ':');
    Strip(AfterFirst(line, ':'))
  }

  function Classify(line: string): LineKind {
    if StartsWith(line, "CROP:") then CropLine(FieldText(line, "CROP:"))
    else if StartsWith(line, "LOCATION:") then LocationLine(FieldText(line, "LOCATION:"))
    else if StartsWith(line, "DATE:") then DateLine(FieldText(line, "DATE:"))
    else if StartsWith(line, "SEARCH DATE:") then DateLine(FieldText(line, "SEARCH DATE:"))
    else if Contains(line, "Minimum Price:") then MinPriceLine(FirstNumber(FieldText(line, "Minimum Price:")))
    else if Contains(line, "Maximum Price:") then MaxPriceLine(FirstNumber(FieldText(line, "Maximum Price:")))
    else if Contains(line, "Average Price:") then AvgPriceLine(FirstNumber(FieldText(line, "Average Price:")))
    else if Contains(line, "Unit:") then UnitLine(FieldText(line, "Unit:"))
    else OtherLine
  }

  /** The parser's variables between two lines. */
  datatype ParseState = ParseState(crop: Option<string>, location: Option<string>, date: Option<string>,
                                   markets: seq<Market>, current: Market)

  const StartState := ParseState(None, None, None, [], EmptyMarket)

  /** Every flushed record holds exactly three keys and the open record fewer. */
  ghost predicate WellFormed(st: ParseState) {
    FieldCount(st.current) <= 2 &&
    forall i :: 0 <= i < |st.markets| ==> FieldCount(st.markets[i]) == 3
  }

  /** The record after a line: a price line with a number or a unit line sets one key. */
  function Record(m: Market, kind: LineKind): Market {
    match kind
    case MinPriceLine(p) => if p.Some? then m.(minPrice := p) else m
    case MaxPriceLine(p) => if p.Some? then m.(maxPrice := p) else m
    case AvgPriceLine(p) => if p.Some? then m.(avgPrice := p) else m
    case UnitLine(t) => m.(unit := Some(t))
    case _ => m
  }

  /** One iteration of the loop, for a line of the given kind. */
  function Step(st: ParseState, kind: LineKind): (r: ParseState)
    ensures WellFormed(st) ==> WellFormed(r)
    ensures r.crop == (if kind.CropLine? then Some(kind.text) else st.crop)
    ensures r.location == (if kind.LocationLine? then Some(kind.text) else st.location)
    ensures r.date == (if kind.DateLine? then Some(kind.text) else st.date)
    ensures var next := Record(st.current, kind);
      if FieldCount(next) >= 3 then r.markets == st.markets + [next] && r.current == EmptyMarket
      else r.markets == st.markets && r.current == next
  {
    var st' := match kind
      case CropLine(t) => st.(crop := Some(t))
      case LocationLine(t) => st.(location := Some(t))
      case DateLine(t) => st.(date := Some(t))
      case _ => st.(current := Record(st.current, kind));
    if st'.current != EmptyMarket && FieldCount(st'.current) >= 3 then
      st'.(markets := st'.markets + [st'.current], current := EmptyMarket)
    else st'
  }

  /** What each line says once stripped, in order. */
  function Kinds(lines: seq<string>): (r: seq<LineKind>)
    ensures |r| == |lines|
  {
    if lines == [] then [] else Kinds(lines[..|lines| - 1]) + [Classify(Strip(lines[|lines| - 1]))]
  }

  lemma KindsSnoc(lines: seq<string>, i: nat)
    requires i < |lines|
    ensures Kinds(lines[..i + 1]) == Kinds(lines[..i]) + [Classify(Strip(lines[i]))]
  {
    assert lines[..i + 1][..i] == lines[..i];
  }

  /** The loop over the classified lines, from a given state. */
  function Run(st: ParseState, kinds: seq<LineKind>): ParseState {
    if kinds == [] then st else Step(Run(st, kinds[..|kinds| - 1]), kinds[|kinds| - 1])
  }

  lemma RunSnoc(st: ParseState, kinds: seq<LineKind>, kind: LineKind)
    ensures Run(st, kinds + [kind]) == Step(Run(st, kinds), kind)
  {
    assert (kinds + [kind])[..|kinds|] == kinds;
  }

  /** The parser keeps its records well formed: every flushed record has exactly three keys. */
  lemma {:induction false} RunWellFormed(st: ParseState, kinds: seq<LineKind>)
    requires WellFormed(st)
    ensures WellFormed(Run(st, kinds))
  {
    if kinds != [] {
      RunWellFormed(st, kinds[..|kinds| - 1]);
    }
  }

  /** The loop runs line after line: running over `a + b` is running over `b` after `a`. */
  lemma {:induction false} RunConcat(st: ParseState, a: seq<LineKind>, b: seq<LineKind>)
    ensures Run(st, a + b) == Run(Run(st, a), b)
  {
    if b != [] {
      assert (a + b)[..|a + b| - 1] == a + b[..|b| - 1];
      RunConcat(st, a, b[..|b| - 1]);
    } else {
      assert a + b == a;
    }
  }

  datatype Header = CropHeader | LocationHeader | DateHeader

  /** The header field `h` of a parse state. */
  function HeaderOf(st: ParseState, h: Header): Option<string> {
    match h
    case CropHeader => st.crop
    case LocationHeader => st.location
    case DateHeader => st.date
  }

  /** Whether a line of kind `kind` sets the header `h`. */
  predicate Sets(kind: LineKind, h: Header) {
    match h
    case CropHeader => kind.CropLine?
    case LocationHeader => kind.LocationLine?
    case DateHeader => kind.DateLine?
  }

  /** A header holds the text of the last line that sets it: a later line overwrites an earlier one. */
  lemma {:induction false} LastHeaderWins(st: ParseState, kinds: seq<LineKind>, h: Header, i: nat)
    requires i < |kinds| && Sets(kinds[i], h)
    requires forall j :: i < j < |kinds| ==> !Sets(kinds[j], h)
    ensures HeaderOf(Run(st, kinds), h) == Some(kinds[i].text)
  {
    var last := |kinds| - 1;
    assert Run(st, kinds) == Step(Run(st, kinds[..last]), kinds[last]);
    StepHeader(Run(st, kinds[..last]), kinds[last], h);
    if i < last {
      assert forall j :: i < j < last ==> kinds[..last][j] == kinds[j];
      LastHeaderWins(st, kinds[..last], h, i);
    }
  }

  /** One line sets the header it names to its text and leaves the other headers alone. */
  lemma StepHeader(st: ParseState, kind: LineKind, h: Header)
    ensures HeaderOf(Step(st, kind), h) == if Sets(kind, h) then Some(kind.text) else HeaderOf(st, h)
  {
  }

  /** A header no line sets keeps its value from before. */
  lemma {:induction false} UnsetHeaderKept(st: ParseState, kinds: seq<LineKind>, h: Header)
    requires forall j :: 0 <= j < |kinds| ==> !Sets(kinds[j], h)
    ensures HeaderOf(Run(st, kinds), h) == HeaderOf(st, h)
  {
    if kinds != [] {
      var last := |kinds| - 1;
      assert Run(st, kinds) == Step(Run(st, kinds[..last]), kinds[last]);
      StepHeader(Run(st, kinds[..last]), kinds[last], h);
      assert forall j :: 0 <= j < last ==> kinds[..last][j] == kinds[j];
      UnsetHeaderKept(st, kinds[..last], h);
    }
  }

  /** Flushed records are never taken back: the records before the lines stay in front. */
  lemma {:induction false} MarketsOnlyGrow(st: ParseState, kinds: seq<LineKind>)
    ensures |st.markets| <= |Run(st, kinds).markets|
    ensures Run(st, kinds).markets[..|st.markets|] == st.markets
  {
    if kinds != [] {
      MarketsOnlyGrow(st, kinds[..|kinds| - 1]);
    }
  }

  /**
   * With the documented layout (a minimum, a maximum and an average price line, then
   * a unit line) the record is flushed after the average price, so the flushed record
   * has no unit and the unit opens the next record.
   */
  lemma DocumentedLayoutDropsUnit(st: ParseState, lo: real, hi: real, avg: real, unit: string)
    requires st.current == EmptyMarket
    ensures var kinds := [MinPriceLine(Some(lo)), MaxPriceLine(Some(hi)), AvgPriceLine(Some(avg)), UnitLine(unit)];
      && Run(st, kinds).markets == st.markets + [Market(Some(lo), Some(hi), Some(avg), None)]
      && Run(st, kinds).current == Market(None, None, None, Some(unit))
  {
    var kinds := [MinPriceLine(Some(lo)), MaxPriceLine(Some(hi)), AvgPriceLine(Some(avg)), UnitLine(unit)];
    assert kinds[..3] == kinds[..4][..3] && kinds[..3][..2] == kinds[..2] && kinds[..2][..1] == kinds[..1];
    assert kinds[..1][..0] == [] && kinds[..4] == kinds;
    var s1 := Run(st, kinds[..1]);
    assert kinds[..1] == [MinPriceLine(Some(lo))];
    assert Run(st, []) == st;
    assert Record(st.current, MinPriceLine(Some(lo))) == Market(Some(lo), None, None, None);
    assert s1.current == Market(Some(lo), None, None, None) && s1.markets == st.markets;
    var s2 := Run(st, kinds[..2]);
    assert s2.current == Market(Some(lo), Some(hi), None, None) && s2.markets == st.markets;
    var s3 := Run(st, kinds[..3]);
    assert s3.current == EmptyMarket && s3.markets == st.markets + [Market(Some(lo), Some(hi), Some(avg), None)];
  }

  /** A price line without a number changes nothing. */
  lemma PriceLineWithoutNumber(st: ParseState, kind: LineKind)
    requires WellFormed(st)
    requires kind == MinPriceLine(None) || kind == MaxPriceLine(None) || kind == AvgPriceLine(None)
    ensures Run(st, [kind]) == st
  {
    assert [kind][..0] == [];
  }

  // ---------------------------------------------------------------- summary

  /** Truthiness of a recorded price: present and not zero. */
  predicate TruthyPrice(p: Option<real>) {
    p.Some? && p.value != 0.0
  }

  datatype PriceField = MinField | MaxField | AvgField

  function PriceOf(m: Market, f: PriceField): Option<real> {
    match f
    case MinField => m.minPrice
    case MaxField => m.maxPrice
    case AvgField => m.avgPrice
  }

  /** `[m.get(key) for m in markets if m.get(key)]` */
  function Prices(markets: seq<Market>, f: PriceField): (r: seq<real>)
    ensures forall x :: x in r <==> exists i :: 0 <= i < |markets| && TruthyPrice(PriceOf(markets[i], f)) &&
                                          PriceOf(markets[i], f).value == x
    ensures |r| == 0 <==> forall i :: 0 <= i < |markets| ==> !TruthyPrice(PriceOf(markets[i], f))
  {
    if markets == [] then []
    else
      var rest := Prices(markets[1..], f);
      assert forall i :: 1 <= i < |markets| ==> markets[i] == markets[1..][i - 1];
      var p := PriceOf(markets[0], f);
      if TruthyPrice(p) then [p.value] + rest else rest
  }

  /** The `price_summary` object. */
  datatype Summary = Summary(minPrice: Option<real>, maxPrice: Option<real>, avgPrice: Option<real>,
                             unit: Option<string>)

  const NoSummary := Summary(None, None, None, None)

  /**
   * The summary of the flushed records: the least non-zero minimum, the greatest
   * non-zero maximum, the mean of the non-zero averages, and the first record's unit
   * or "per quintal".
   */
  function Summarize(markets: seq<Market>): (s: Summary)
    ensures markets == [] ==> s == NoSummary
    ensures s.minPrice.Some? <==> exists i :: 0 <= i < |markets| && TruthyPrice(markets[i].minPrice)
    ensures s.minPrice.Some? ==>
              (exists i :: 0 <= i < |markets| && TruthyPrice(markets[i].minPrice) && markets[i].minPrice == s.minPrice) &&
              forall i :: 0 <= i < |markets| && TruthyPrice(markets[i].minPrice) ==>
                s.minPrice.value <= markets[i].minPrice.value
    ensures s.maxPrice.Some? <==> exists i :: 0 <= i < |markets| && TruthyPrice(markets[i].maxPrice)
    ensures s.maxPrice.Some? ==>
              (exists i :: 0 <= i < |markets| && TruthyPrice(markets[i].maxPrice) && markets[i].maxPrice == s.maxPrice) &&
              forall i :: 0 <= i < |markets| && TruthyPrice(markets[i].maxPrice) ==>
                markets[i].maxPrice.value <= s.maxPrice.value
    ensures s.avgPrice.Some? <==> exists i :: 0 <= i < |markets| && TruthyPrice(markets[i].avgPrice)
    ensures s.avgPrice.Some? ==> s.avgPrice.value == Mean(Prices(markets, AvgField))
    ensures markets != [] ==> s.unit == Some(markets[0].unit.GetOr("per quintal"))
  {
    if markets == [] then NoSummary
    else
      var mins, maxs, avgs := Prices(markets, MinField), Prices(markets, MaxField), Prices(markets, AvgField);
      var minPrice := if mins != [] then Some(SeqMin(mins)) else None;
      var maxPrice := if maxs != [] then Some(SeqMax(maxs)) else None;
      var avgPrice := if avgs != [] then Some(Mean(avgs)) else None;
      assert minPrice.Some? ==> exists i :: 0 <= i < |markets| && TruthyPrice(markets[i].minPrice) &&
                                           markets[i].minPrice == minPrice by {
        if minPrice.Some? {
          var i :| 0 <= i < |markets| && TruthyPrice(PriceOf(markets[i], MinField)) &&
                   PriceOf(markets[i], MinField).value == SeqMin(mins);
          assert markets[i].minPrice == minPrice;
        }
      }
      assert maxPrice.Some? ==> exists i :: 0 <= i < |markets| && TruthyPrice(markets[i].maxPrice) &&
                                           markets[i].maxPrice == maxPrice by {
        if maxPrice.Some? {
          var i :| 0 <= i < |markets| && TruthyPrice(PriceOf(markets[i], MaxField)) &&
                   PriceOf(markets[i], MaxField).value == SeqMax(maxs);
          assert markets[i].maxPrice == maxPrice;
        }
      }
      assert minPrice.Some? ==> forall i :: 0 <= i < |markets| && TruthyPrice(markets[i].minPrice) ==>
                                  minPrice.value <= markets[i].minPrice.value by {
        forall i | 0 <= i < |markets| && TruthyPrice(markets[i].minPrice) && minPrice.Some?
          ensures minPrice.value <= markets[i].minPrice.value
        {
          assert PriceOf(markets[i], MinField).value in mins;
        }
      }
      assert maxPrice.Some? ==> forall i :: 0 <= i < |markets| && TruthyPrice(markets[i].maxPrice) ==>
                                  markets[i].maxPrice.value <= maxPrice.value by {
        forall i | 0 <= i < |markets| && TruthyPrice(markets[i].maxPrice) && maxPrice.Some?
          ensures markets[i].maxPrice.value <= maxPrice.value
        {
          assert PriceOf(markets[i], MaxField).value in maxs;
        }
      }
      Summary(minPrice, maxPrice, avgPrice, Some(markets[0].unit.GetOr("per quintal")))
  }

  /** A zero minimum is skipped by the truthiness filter: the summary minimum is the least non-zero one. */
  lemma SummaryMinSkipsZero()
    ensures Summarize([Market(Some(0.0), Some(9.0), None, None), Market(Some(5.0), Some(9.0), None, None)]).minPrice
            == Some(5.0)
  {
    var ms := [Market(Some(0.0), Some(9.0), None, None), Market(Some(5.0), Some(9.0), None, None)];
    assert TruthyPrice(ms[1].minPrice);
  }

  /** The summary average lies between the least and the greatest non-zero average price. */
  lemma SummaryAverageWithinRange(markets: seq<Market>)
    requires Summarize(markets).avgPrice.Some?
    ensures var avgs := Prices(markets, AvgField);
      |avgs| > 0 && SeqMin(avgs) <= Summarize(markets).avgPrice.value <= SeqMax(avgs)
  {
    MeanBetweenMinAndMax(Prices(markets, AvgField));
  }

  // ---------------------------------------------------------------- extract_price_data

  /** The dictionary `extract_price_data` returns. */
  datatype PriceData = PriceData(crop: Option<string>, location: Option<string>, date: Option<string>,
                                 markets: seq<Market>, priceSummary: Summary, rawResponse: string)

  /** What `extract_price_data` returns, as a function of the answer text. */
  function ExtractSpec(priceResponse: string): PriceData {
    var st := Run(StartState, Kinds(Split(priceResponse, '\n')));
    PriceData(st.crop, st.location, st.date, st.markets, Summarize(st.markets), priceResponse)
  }

  /**
   * The body of the loop of `extract_price_data` for one line: strip it, update the
   * header or the open record it speaks of, and flush the record once it holds three keys.
   */
  method ReadLine(crop: Option<string>, location: Option<string>, date: Option<string>,
                  markets: seq<Market>, current: Market, rawLine: string)
    returns (crop': Option<string>, location': Option<string>, date': Option<string>,
             markets': seq<Market>, current': Market)
    ensures ParseState(crop', location', date', markets', current') ==
            Step(ParseState(crop, location, date, markets, current), Classify(Strip(rawLine)))
  {
    crop', location', date', markets', current' := crop, location, date, markets, current;
    var line := Strip(rawLine);
    match Classify(line) {
      case CropLine(t) => crop' := Some(t);
      case LocationLine(t) => location' := Some(t);
      case DateLine(t) => date' := Some(t);
      case MinPriceLine(p) =>
        if p.Some? {
          current' := current'.(minPrice := p);
        }
      case MaxPriceLine(p) =>
        if p.Some? {
          current' := current'.(maxPrice := p);
        }
      case AvgPriceLine(p) =>
        if p.Some? {
          current' := current'.(avgPrice := p);
        }
      case UnitLine(t) => current' := current'.(unit := Some(t));
      case OtherLine =>
    }
    if current' != EmptyMarket && FieldCount(current') >= 3 {
      markets' := markets' + [current'];
      current' := EmptyMarket;
    }
  }

  /**
   * `extract_price_data`: splits the answer into lines, reads them in order, and
   * finally summarises the flushed records.
   */
  method ExtractPriceData(priceResponse: string) returns (data: PriceData)
    ensures data == ExtractSpec(priceResponse)
    ensures data.rawResponse == priceResponse
    ensures forall i :: 0 <= i < |data.markets| ==> FieldCount(data.markets[i]) == 3
  {
    var lines := Split(priceResponse, '\n');
    var crop: Option<string>, location: Option<string>, date: Option<string> := None, None, None;
    var markets: seq<Market> := [];
    var current := EmptyMarket;
    ghost var kinds: seq<LineKind> := [];
    var i := 0;
    while i < |lines|
      invariant 0 <= i <= |lines|
      invariant kinds == Kinds(lines[..i])
      invariant ParseState(crop, location, date, markets, current) == Run(StartState, kinds)
    {
      KindsSnoc(lines, i);
      RunSnoc(StartState, kinds, Classify(Strip(lines[i])));
      kinds := kinds + [Classify(Strip(lines[i]))];
      crop, location, date, markets, current := ReadLine(crop, location, date, markets, current, lines[i]);
      i := i + 1;
    }
    assert lines[..i] == lines;
    RunWellFormed(StartState, kinds);
    data := PriceData(crop, location, date, markets, Summarize(markets), priceResponse);
  }

  /** An answer without price lines gives no markets and an empty summary. */
  lemma NoMarketsNoSummary(priceResponse: string)
    requires ExtractSpec(priceResponse).markets == []
    ensures ExtractSpec(priceResponse).priceSummary == NoSummary
  {
  }
}
