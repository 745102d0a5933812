/**
 * The calculator tool server: stateless arithmetic, statistics and crop-trading
 * formulas over numbers. Numbers are exact reals; Python's `round(x, ndigits)` is
 * a parameter `rnd` of every tool that rounds, and a lemma that depends on how
 * rounding behaves says so in its `requires`.
 */
module Calculator {
  import opened Wrappers
  import opened Stats

  /** Python's `round(value, ndigits)` */
  type Rounder = (real, int) -> real

  /** Rounding never reverses the order of two values. */
  ghost predicate Monotone(rnd: Rounder) {
    forall x: real, y: real, p: int :: x <= y ==> rnd(x, p) <= rnd(y, p)
  }

  /** Rounding to a non-negative number of decimal places leaves whole numbers alone. */
  ghost predicate KeepsIntegers(rnd: Rounder) {
    forall x: real, p: int :: 0 <= p && x.Floor as real == x ==> rnd(x, p) == x
  }

  /** The two errors the tools raise. */
  datatype CalcError = ZeroDivisionError(message: string) | ValueError(message: string)

  // ---------------------------------------------------------------- basic arithmetic

  /** `add`: the sum of two to five values; omitted operands are 0. */
  function Add(a: real, b: real, c: real := 0.0, d: real := 0.0, e: real := 0.0): (r: real)
    ensures r == Sum([a, b, c, d, e])
  {
    SumProductOfLiterals(a, b, c, d, e);
    a + b + c + d + e
  }

  /** `subtract`: the minuend less every other operand; omitted operands are 0. */
  function Subtract(minuend: real, subtrahend: real, additional1: real := 0.0,
                    additional2: real := 0.0, additional3: real := 0.0): (r: real)
    ensures r == minuend - Sum([subtrahend, additional1, additional2, additional3])
  {
    SumProductOfLiterals(subtrahend, additional1, additional2, additional3, 0.0);
    minuend - subtrahend - additional1 - additional2 - additional3
  }

  /** `multiply`: the product of two to five values; omitted operands are 1. */
  function Multiply(a: real, b: real, c: real := 1.0, d: real := 1.0, e: real := 1.0): (r: real)
    ensures r == Product([a, b, c, d, e])
  {
    SumProductOfLiterals(a, b, c, d, e);
    a * b * c * d * e
  }

  /** `divide`: fails exactly on a zero divisor, otherwise the quotient. */
  function Divide(dividend: real, divisor: real): (r: Result<real, CalcError>)
    ensures r.Err? <==> divisor == 0.0
    ensures r.Err? ==> r.error == ZeroDivisionError("Cannot divide by zero")
    ensures r.Ok? ==> r.value * divisor == dividend
  {
    if divisor == 0.0 then Err(ZeroDivisionError("Cannot divide by zero"))
    else Ok(dividend / divisor)
  }

  /** The documented examples `add(1, 2, 3) == 6`, `subtract(10, 3, 2) == 5`, `multiply(2, 3, 4) == 24`. */
  lemma {:induction false} ArithmeticExamples()
    ensures Add(1.0, 2.0, 3.0) == 6.0 && Add(1.0, 2.0) == 3.0
    ensures Subtract(10.0, 3.0, 2.0) == 5.0
    ensures Multiply(2.0, 3.0, 4.0) == 24.0 && Multiply(2.0, 3.0) == 6.0
    ensures Divide(10.0, 2.0) == Ok(5.0)
  {
  }

  // ---------------------------------------------------------------- percentages

  /** `part` as a percentage of `whole`, before rounding. */
  function PercentOf(part: real, whole: real): (pct: real)
    requires whole != 0.0
    ensures pct * whole == part * 100.0
  {
    (part / whole) * 100.0
  }

  /** `percentage`: fails exactly when `whole` is zero. */
  function Percentage(rnd: Rounder, part: real, whole: real, precision: int := 4): (r: Result<real, CalcError>)
    ensures r.Err? <==> whole == 0.0
    ensures r.Err? ==> r.error == ZeroDivisionError("Whole cannot be zero when calculating percentage")
    ensures r.Ok? ==> r.value == rnd(PercentOf(part, whole), precision)
  {
    if whole == 0.0 then Err(ZeroDivisionError("Whole cannot be zero when calculating percentage"))
    else Ok(rnd(PercentOf(part, whole), precision))
  }

  /** The change from `old` to `new` as a percentage of `old`, before rounding. */
  function ChangePercent(oldValue: real, newValue: real): (pct: real)
    requires oldValue != 0.0
    ensures oldValue + oldValue * pct / 100.0 == newValue
  {
    ((newValue - oldValue) / oldValue) * 100.0
  }

  /** `percentage_change`: fails exactly when `old` is zero. */
  function PercentageChange(rnd: Rounder, oldValue: real, newValue: real, precision: int := 4): (r: Result<real, CalcError>)
    ensures r.Err? <==> oldValue == 0.0
    ensures r.Err? ==> r.error == ZeroDivisionError("Old value cannot be zero when calculating percentage change")
    ensures r.Ok? ==> r.value == rnd(ChangePercent(oldValue, newValue), precision)
  {
    if oldValue == 0.0 then Err(ZeroDivisionError("Old value cannot be zero when calculating percentage change"))
    else Ok(rnd(ChangePercent(oldValue, newValue), precision))
  }

  /** The documented examples `percentage(25, 200) == 12.5` and `percentage_change(100, 120) == 20.0`, before rounding. */
  lemma PercentageExamples()
    ensures PercentOf(25.0, 200.0) == 12.5
    ensures ChangePercent(100.0, 120.0) == 20.0
  {
  }

  // ---------------------------------------------------------------- averages and medians

  /** `average_two` */
  function AverageTwo(rnd: Rounder, value1: real, value2: real, precision: int := 4): real {
    rnd((value1 + value2) / 2.0, precision)
  }

  /** `average_three` */
  function AverageThree(rnd: Rounder, value1: real, value2: real, value3: real, precision: int := 4): real {
    rnd((value1 + value2 + value3) / 3.0, precision)
  }

  /** `average_five` */
  function AverageFive(rnd: Rounder, value1: real, value2: real, value3: real,
                       value4: real, value5: real, precision: int := 4): real {
    rnd((value1 + value2 + value3 + value4 + value5) / 5.0, precision)
  }

  /** Each average is the rounded mean of its inputs, and with monotone rounding it lies between the rounded least and greatest input. */
  lemma AveragesWithinRange(rnd: Rounder, a: real, b: real, c: real, d: real, e: real, p: int)
    requires Monotone(rnd)
    ensures AverageTwo(rnd, a, b, p) == rnd(Mean([a, b]), p)
    ensures AverageThree(rnd, a, b, c, p) == rnd(Mean([a, b, c]), p)
    ensures AverageFive(rnd, a, b, c, d, e, p) == rnd(Mean([a, b, c, d, e]), p)
    ensures rnd(SeqMin([a, b]), p) <= AverageTwo(rnd, a, b, p) <= rnd(SeqMax([a, b]), p)
    ensures rnd(SeqMin([a, b, c]), p) <= AverageThree(rnd, a, b, c, p) <= rnd(SeqMax([a, b, c]), p)
    ensures rnd(SeqMin([a, b, c, d, e]), p) <= AverageFive(rnd, a, b, c, d, e, p) <= rnd(SeqMax([a, b, c, d, e]), p)
  {
    SumProductOfLiterals(a, b, c, d, e);
    MeanBetweenMinAndMax([a, b]);
    MeanBetweenMinAndMax([a, b, c]);
    MeanBetweenMinAndMax([a, b, c, d, e]);
  }

  /** The middle element of the sorted values: one of them, and a median of them. */
  function MiddleOf(xs: seq<real>): (m: real)
    requires |xs| > 0
    ensures m in xs && IsMedian(m, xs)
  {
    MiddleOfSortedIsMedian(xs);
    Sort(xs)[|xs| / 2]
  }

  /** `median_three`: the middle of the three values once sorted. */
  function MedianThree(value1: real, value2: real, value3: real): (m: real)
    ensures IsMedian(m, [value1, value2, value3])
  {
    MiddleOf([value1, value2, value3])
  }

  /** `median_five`: the middle of the five values once sorted. */
  function MedianFive(value1: real, value2: real, value3: real, value4: real, value5: real): (m: real)
    ensures IsMedian(m, [value1, value2, value3, value4, value5])
  {
    MiddleOf([value1, value2, value3, value4, value5])
  }

  /** The median lies between the least and the greatest value; `median_three(1, 3, 2) == 2`. */
  lemma MedianBetweenMinAndMax(a: real, b: real, c: real, d: real, e: real)
    ensures SeqMin([a, b, c]) <= MedianThree(a, b, c) <= SeqMax([a, b, c])
    ensures SeqMin([a, b, c, d, e]) <= MedianFive(a, b, c, d, e) <= SeqMax([a, b, c, d, e])
    ensures MedianThree(1.0, 3.0, 2.0) == 2.0
  {
    assert IsMedian(MedianThree(1.0, 3.0, 2.0), [1.0, 3.0, 2.0]);
  }

  // ---------------------------------------------------------------- minimum, maximum, absolute value

  /** `min_two` */
  function MinTwo(value1: real, value2: real): (r: real)
    ensures r == value1 || r == value2
    ensures r <= value1 && r <= value2
  {
    if value2 < value1 then value2 else value1
  }

  /** `min_three` */
  function MinThree(value1: real, value2: real, value3: real): (r: real)
    ensures r == value1 || r == value2 || r == value3
    ensures r <= value1 && r <= value2 && r <= value3
  {
    var m := if value2 < value1 then value2 else value1;
    if value3 < m then value3 else m
  }

  /** `max_two` */
  function MaxTwo(value1: real, value2: real): (r: real)
    ensures r == value1 || r == value2
    ensures value1 <= r && value2 <= r
  {
    if value2 > value1 then value2 else value1
  }

  /** `max_three` */
  function MaxThree(value1: real, value2: real, value3: real): (r: real)
    ensures r == value1 || r == value2 || r == value3
    ensures value1 <= r && value2 <= r && value3 <= r
  {
    var m := if value2 > value1 then value2 else value1;
    if value3 > m then value3 else m
  }

  /** `absolute_value` */
  function AbsoluteValue(value: real): (r: real)
    ensures r >= 0.0
    ensures r == value || r == -value
  {
    if value < 0.0 then -value else value
  }

  /** `round_to_precision` */
  function RoundToPrecision(rnd: Rounder, value: real, precision: int := 2): real {
    rnd(value, precision)
  }

  // ---------------------------------------------------------------- unit conversion

  /** A conversion table: kilograms per unit, by lower-case unit name. */
  type FactorTable = map<string, real>

  /** The `to_kg` dictionary of `unit_conversion`. */
  const ToKgTable: FactorTable := map[
    "kg" := 1.0,
    "ton" := 1000.0,
    "tonne" := 1000.0,
    "pound" := 0.453592,
    "lb" := 0.453592,
    "bushel" := 27.216,
    "quintal" := 100.0,
    "cwt" := 50.8023,
    "gram" := 0.001,
    "g" := 0.001,
    "ounce" := 0.0283495,
    "oz" := 0.0283495
  ]

  /** Every unit of the table weighs something. */
  predicate PositiveFactors(table: FactorTable) {
    forall name :: name in table ==> table[name] > 0.0
  }

  /**
   * `str.lower()` restricted to what can matter for a lookup in `ToKgTable`: A to Z and the
   * Kelvin sign, whose lower-case form is `k`. Every other character is kept.
   */
  function LowerChar(c: char): char {
    if 'A' <= c <= 'Z' then (c as int + 32) as char
    else if c == '\U{212A}' then 'k'
    else c
  }

  function Lower(s: string): (r: string)
    ensures |r| == |s|
    ensures forall i :: 0 <= i < |s| ==> r[i] == LowerChar(s[i])
  {
    if s == [] then [] else [LowerChar(s[0])] + Lower(s[1..])
  }

  /** The unit names a table accepts, in any letter case. */
  predicate Supported(table: FactorTable, unit: string) {
    Lower(unit) in table
  }

  /** Kilograms per `unit`. */
  function Factor(table: FactorTable, unit: string): (f: real)
    requires PositiveFactors(table) && Supported(table, unit)
    ensures f > 0.0
  {
    table[Lower(unit)]
  }

  /**
   * `value` in `fromUnit` expressed in `toUnit`, before rounding, or a `ValueError` naming
   * both units when either is unknown. `ConversionKeepsMass` states what the value is.
   */
  function ConvertWith(table: FactorTable, value: real, fromUnit: string, toUnit: string): (r: Result<real, CalcError>)
    requires PositiveFactors(table)
    ensures r.Err? <==> !Supported(table, fromUnit) || !Supported(table, toUnit)
    ensures r.Err? ==> r.error == ValueError("Unsupported unit conversion: " + fromUnit + " to " + toUnit)
  {
    var from, to := Lower(fromUnit), Lower(toUnit);
    if from !in table || to !in table then
      Err(ValueError("Unsupported unit conversion: " + fromUnit + " to " + toUnit))
    else
      Ok(Rescale(value, table[from], table[to]))
  }

  /** `value` units of `fromFactor` kilograms, counted in units of `toFactor` kilograms. */
  function Rescale(value: real, fromFactor: real, toFactor: real): real
    requires toFactor > 0.0
  {
    var kgValue := value * fromFactor;
    kgValue / toFactor
  }

  /** Rescaling keeps the mass, and rescaling back undoes it. */
  lemma RescaleInverse(value: real, fa: real, fb: real)
    requires fa > 0.0 && fb > 0.0
    ensures Rescale(value, fa, fb) * fb == value * fa
    ensures Rescale(Rescale(value, fa, fb), fb, fa) == value
  {
    var w := Rescale(value, fa, fb);
    assert w * fb == value * fa;
    var back := Rescale(w, fb, fa);
    assert back * fa == w * fb;
    assert (back - value) * fa == 0.0;
  }

  lemma CancelFactor(x: real, y: real, f: real)
    requires f > 0.0 && x * f == y * f
    ensures x == y
  {
    assert (x - y) * f == 0.0;
  }

  /** Between supported units, the value is rescaled by the two factors. */
  lemma ConvertedScales(table: FactorTable, value: real, fromUnit: string, toUnit: string)
    requires PositiveFactors(table) && Supported(table, fromUnit) && Supported(table, toUnit)
    ensures ConvertWith(table, value, fromUnit, toUnit)
            == Ok(Rescale(value, Factor(table, fromUnit), Factor(table, toUnit)))
  {
  }

  /** A conversion denotes the same number of kilograms as its input. */
  lemma ConversionKeepsMass(table: FactorTable, value: real, fromUnit: string, toUnit: string)
    requires PositiveFactors(table) && Supported(table, fromUnit) && Supported(table, toUnit)
    ensures ConvertWith(table, value, fromUnit, toUnit).Ok?
    ensures ConvertWith(table, value, fromUnit, toUnit).value * Factor(table, toUnit)
            == value * Factor(table, fromUnit)
  {
    ConvertedScales(table, value, fromUnit, toUnit);
    RescaleInverse(value, Factor(table, fromUnit), Factor(table, toUnit));
  }

  /** The table of `unit_conversion` has positive factors. */
  lemma ToKgTablePositive()
    ensures PositiveFactors(ToKgTable)
  {
  }

  /** The dictionary of `unit_conversion`: twelve names, the aliases sharing a factor. */
  lemma ToKgTableNames()
    ensures ToKgTable.Keys ==
              {"kg", "ton", "tonne", "pound", "lb", "bushel", "quintal", "cwt", "gram", "g", "ounce", "oz"}
    ensures ToKgTable["ton"] == ToKgTable["tonne"] && ToKgTable["pound"] == ToKgTable["lb"]
    ensures ToKgTable["gram"] == ToKgTable["g"] && ToKgTable["ounce"] == ToKgTable["oz"]
  {
  }

  /** `unit_conversion`: the rounded conversion through `ToKgTable`. */
  function UnitConversion(rnd: Rounder, value: real, fromUnit: string, toUnit: string,
                          precision: int := 4): (r: Result<real, CalcError>)
    ensures r.Err? <==> !Supported(ToKgTable, fromUnit) || !Supported(ToKgTable, toUnit)
    ensures r.Ok? ==> r.value == rnd(ConvertWith(ToKgTable, value, fromUnit, toUnit).value, precision)
  {
    ToKgTablePositive();
    match ConvertWith(ToKgTable, value, fromUnit, toUnit)
    case Err(e) => Err(e)
    case Ok(v) => Ok(rnd(v, precision))
  }

  /** Converting a supported unit to itself gives the value back. */
  lemma ConvertToSameUnit(table: FactorTable, value: real, unit: string)
    requires PositiveFactors(table) && Supported(table, unit)
    ensures ConvertWith(table, value, unit, unit) == Ok(value)
  {
    ConvertedScales(table, value, unit, unit);
    var f := Factor(table, unit);
    RescaleInverse(value, f, f);
    CancelFactor(Rescale(value, f, f), value, f);
  }

  /** Converting there and back gives the value back. */
  lemma ConversionRoundTrip(table: FactorTable, value: real, a: string, b: string)
    requires PositiveFactors(table) && Supported(table, a) && Supported(table, b)
    ensures ConvertWith(table, value, a, b).Ok?
    ensures ConvertWith(table, ConvertWith(table, value, a, b).value, b, a) == Ok(value)
  {
    var fa, fb := Factor(table, a), Factor(table, b);
    ConvertedScales(table, value, a, b);
    ConvertedScales(table, Rescale(value, fa, fb), b, a);
    RescaleInverse(value, fa, fb);
  }

  /** Unit names are looked up regardless of letter case. */
  lemma ConversionIgnoresCase(table: FactorTable, value: real, a: string, b: string, a': string, b': string)
    requires PositiveFactors(table)
    requires Lower(a) == Lower(a') && Lower(b) == Lower(b')
    ensures ConvertWith(table, value, a, b).Ok? == ConvertWith(table, value, a', b').Ok?
    ensures ConvertWith(table, value, a, b).Ok? ==>
              ConvertWith(table, value, a, b) == ConvertWith(table, value, a', b')
  {
    if Supported(table, a) && Supported(table, b) {
      ConvertedScales(table, value, a, b);
      ConvertedScales(table, value, a', b');
      assert Factor(table, a) == Factor(table, a') && Factor(table, b) == Factor(table, b');
    }
  }

  /** One ton is ten quintals, whatever the letter case of the names. */
  lemma TonToQuintal()
    ensures ConvertWith(ToKgTable, 1.0, "Ton", "QUINTAL") == Ok(10.0)
  {
    TonQuintalNames();
    assert "ton" in ToKgTable && ToKgTable["ton"] == 1000.0;
    assert "quintal" in ToKgTable && ToKgTable["quintal"] == 100.0;
    assert Rescale(1.0, 1000.0, 100.0) == 10.0;
  }

  lemma TonQuintalNames()
    ensures Lower("Ton") == "ton" && Lower("QUINTAL") == "quintal"
  {
  }

  /** A unit missing from the table is rejected on either side of the conversion. */
  lemma UnknownUnitRejected(value: real)
    ensures ConvertWith(ToKgTable, value, "KG", "stone").Err?
    ensures ConvertWith(ToKgTable, value, "stone", "kg").Err?
  {
    assert Lower("stone") == "stone" && Lower("KG") == "kg";
    ToKgTableNames();
  }

  // ---------------------------------------------------------------- prices

  /** `total_price / quantity`, before rounding. */
  function UnitPrice(totalPrice: real, quantity: real): (r: real)
    requires quantity != 0.0
    ensures r * quantity == totalPrice
  {
    totalPrice / quantity
  }

  /** `price_per_unit`: fails exactly on a zero quantity. */
  function PricePerUnit(rnd: Rounder, totalPrice: real, quantity: real, precision: int := 4): (r: Result<real, CalcError>)
    ensures r.Err? <==> quantity == 0.0
    ensures r.Err? ==> r.error == ZeroDivisionError("Quantity cannot be zero")
    ensures r.Ok? ==> r.value == rnd(UnitPrice(totalPrice, quantity), precision)
  {
    if quantity == 0.0 then Err(ZeroDivisionError("Quantity cannot be zero"))
    else Ok(rnd(UnitPrice(totalPrice, quantity), precision))
  }

  /** `total_cost` */
  function TotalCost(rnd: Rounder, pricePerUnit: real, quantity: real, precision: int := 2): real {
    rnd(pricePerUnit * quantity, precision)
  }

  /**
   * `price_per_unit` undoes `total_cost` when no rounding intervenes, and the
   * documented examples `price_per_unit(1000, 50) == 20`, `total_cost(25.5, 100) == 2550`.
   */
  lemma PricePerUnitInvertsTotalCost(rnd: Rounder, price: real, quantity: real, p: int)
    requires quantity != 0.0
    requires KeepsIntegers(rnd) && p >= 0
    ensures UnitPrice(price * quantity, quantity) == price
    ensures PricePerUnit(rnd, 1000.0, 50.0, p) == Ok(20.0)
    ensures TotalCost(rnd, 25.5, 100.0, p) == 2550.0
  {
    var u := UnitPrice(price * quantity, quantity);
    assert u * quantity == price * quantity;
    assert (u - price) * quantity == 0.0;
    assert rnd(20.0, p) == 20.0;
    assert rnd(2550.0, p) == 2550.0;
  }

  /** The three figures `profit_loss_calculation` returns. */
  datatype ProfitLoss = ProfitLoss(totalProfitLoss: real, profitLossPerUnit: real, profitMarginPercentage: real)

  /** The margin of `sellingPrice` over `buyingPrice` as a percentage of `buyingPrice`, before rounding. */
  function MarginPercent(sellingPrice: real, buyingPrice: real): real
    requires buyingPrice != 0.0
  {
    ((sellingPrice - buyingPrice) / buyingPrice) * 100.0
  }

  /** `profit_loss_calculation`; the total is computed from the already rounded per-unit figure. */
  function ProfitLossCalculation(rnd: Rounder, sellingPrice: real, buyingPrice: real, quantity: real,
                                 precision: int := 2): ProfitLoss
  {
    var profitLossPerUnit := rnd(sellingPrice - buyingPrice, precision);
    var totalProfitLoss := rnd(profitLossPerUnit * quantity, precision);
    var profitMarginPct := if buyingPrice != 0.0 then rnd(MarginPercent(sellingPrice, buyingPrice), 2) else 0.0;
    ProfitLoss(totalProfitLoss, profitLossPerUnit, profitMarginPct)
  }

  /** The documented example: selling 100 units bought at 25 for 30 earns 500 in all, 5 a unit, a 20% margin. */
  lemma ProfitLossExample(rnd: Rounder)
    requires KeepsIntegers(rnd)
    ensures ProfitLossCalculation(rnd, 30.0, 25.0, 100.0) == ProfitLoss(500.0, 5.0, 20.0)
  {
    assert rnd(5.0, 2) == 5.0;
    assert rnd(500.0, 2) == 500.0;
    assert MarginPercent(30.0, 25.0) == 20.0;
    assert rnd(20.0, 2) == 20.0;
  }

  /** With a zero buying price the margin is reported as 0, not as an error. */
  lemma ZeroBuyingPriceMargin(rnd: Rounder, sellingPrice: real, quantity: real)
    ensures ProfitLossCalculation(rnd, sellingPrice, 0.0, quantity).profitMarginPercentage == 0.0
  {
  }

  /** Rounding that changes nothing. */
  ghost predicate Exact(rnd: Rounder) {
    forall x: real, p: int :: rnd(x, p) == x
  }

  /**
   * Without rounding, the per-unit figure is the price difference, the total is that
   * figure times the quantity, and the margin is the per-unit figure as a percentage
   * of the buying price.
   */
  lemma ProfitLossFigures(rnd: Rounder, sellingPrice: real, buyingPrice: real, quantity: real, p: int)
    requires Exact(rnd)
    ensures var r := ProfitLossCalculation(rnd, sellingPrice, buyingPrice, quantity, p);
      && r.profitLossPerUnit == sellingPrice - buyingPrice
      && r.totalProfitLoss == (sellingPrice - buyingPrice) * quantity
      && (buyingPrice != 0.0 ==> r.profitMarginPercentage * buyingPrice == r.profitLossPerUnit * 100.0)
  {
    if buyingPrice != 0.0 {
      var d := sellingPrice - buyingPrice;
      assert MarginPercent(sellingPrice, buyingPrice) == (d / buyingPrice) * 100.0;
      assert (d / buyingPrice) * buyingPrice == d;
    }
  }

  /** The selling price that yields `desiredProfitMargin` percent over `costPerUnit`, before rounding. */
  function BreakevenExact(costPerUnit: real, desiredProfitMargin: real): real {
    costPerUnit * (1.0 + desiredProfitMargin / 100.0)
  }

  /** `breakeven_price` */
  function BreakevenPrice(rnd: Rounder, costPerUnit: real, desiredProfitMargin: real, precision: int := 4): real {
    rnd(BreakevenExact(costPerUnit, desiredProfitMargin), precision)
  }

  /**
   * Selling at the breakeven price earns exactly the desired margin, as
   * `profit_loss_calculation` measures it; `breakeven_price(100, 20) == 120`.
   */
  lemma BreakevenGivesDesiredMargin(costPerUnit: real, desiredProfitMargin: real)
    requires costPerUnit != 0.0
    ensures MarginPercent(BreakevenExact(costPerUnit, desiredProfitMargin), costPerUnit) == desiredProfitMargin
    ensures BreakevenExact(100.0, 20.0) == 120.0
  {
    var b := BreakevenExact(costPerUnit, desiredProfitMargin);
    assert b - costPerUnit == costPerUnit * (desiredProfitMargin / 100.0);
    assert (b - costPerUnit) / costPerUnit == desiredProfitMargin / 100.0;
  }

  // ---------------------------------------------------------------- price range analysis

  /** The five figures `price_range_analysis_*` returns. */
  datatype PriceRange = PriceRange(min: real, max: real, average: real, median: real, priceSpread: real)

  function RangeOf(rnd: Rounder, prices: seq<real>, median: real, precision: int): PriceRange
    requires |prices| > 0
  {
    var minPrice := rnd(SeqMin(prices), precision);
    var maxPrice := rnd(SeqMax(prices), precision);
    var avgPrice := rnd(Sum(prices) / |prices| as real, precision);
    var medianPrice := rnd(median, precision);
    var priceSpread := rnd(maxPrice - minPrice, precision);
    PriceRange(minPrice, maxPrice, avgPrice, medianPrice, priceSpread)
  }

  /** The figures of either analysis: the prices' median is the middle of them once sorted. */
  function PricesRange(rnd: Rounder, prices: seq<real>, precision: int): PriceRange
    requires |prices| > 0
  {
    RangeOf(rnd, prices, MiddleOf(prices), precision)
  }

  /** `price_range_analysis_three` */
  function PriceRangeAnalysisThree(rnd: Rounder, price1: real, price2: real, price3: real,
                                   precision: int := 4): PriceRange {
    PricesRange(rnd, [price1, price2, price3], precision)
  }

  /** `price_range_analysis_five` */
  function PriceRangeAnalysisFive(rnd: Rounder, price1: real, price2: real, price3: real,
                                  price4: real, price5: real, precision: int := 4): PriceRange {
    PricesRange(rnd, [price1, price2, price3, price4, price5], precision)
  }

  /** With monotone rounding that keeps 0, min <= median <= max, min <= average <= max and the spread is not negative. */
  lemma RangeOrdered(rnd: Rounder, prices: seq<real>, median: real, precision: int)
    requires |prices| > 0 && median in prices
    requires Monotone(rnd) && rnd(0.0, precision) == 0.0
    ensures var r := RangeOf(rnd, prices, median, precision);
      r.min <= r.median <= r.max && r.min <= r.average <= r.max && r.priceSpread >= 0.0
  {
    MeanBetweenMinAndMax(prices);
    var r := RangeOf(rnd, prices, median, precision);
    assert r.max - r.min >= 0.0;
    assert rnd(0.0, precision) <= rnd(r.max - r.min, precision);
  }

  /** Either analysis is ordered under monotone rounding and reports the rounded median. */
  lemma PricesRangeOrdered(rnd: Rounder, prices: seq<real>, precision: int)
    requires |prices| > 0
    requires Monotone(rnd) && rnd(0.0, precision) == 0.0
    ensures var r := PricesRange(rnd, prices, precision);
      r.min <= r.median <= r.max && r.min <= r.average <= r.max && r.priceSpread >= 0.0
    ensures PricesRange(rnd, prices, precision).median == rnd(MiddleOf(prices), precision)
  {
    RangeOrdered(rnd, prices, MiddleOf(prices), precision);
  }

  lemma PriceRangeThreeOrdered(rnd: Rounder, p1: real, p2: real, p3: real, precision: int)
    requires Monotone(rnd) && rnd(0.0, precision) == 0.0
    ensures var r := PriceRangeAnalysisThree(rnd, p1, p2, p3, precision);
      r.min <= r.median <= r.max && r.min <= r.average <= r.max && r.priceSpread >= 0.0
    ensures PriceRangeAnalysisThree(rnd, p1, p2, p3, precision).median == rnd(MedianThree(p1, p2, p3), precision)
  {
    PricesRangeOrdered(rnd, [p1, p2, p3], precision);
  }

  lemma PriceRangeFiveOrdered(rnd: Rounder, p1: real, p2: real, p3: real, p4: real, p5: real, precision: int)
    requires Monotone(rnd) && rnd(0.0, precision) == 0.0
    ensures var r := PriceRangeAnalysisFive(rnd, p1, p2, p3, p4, p5, precision);
      r.min <= r.median <= r.max && r.min <= r.average <= r.max && r.priceSpread >= 0.0
    ensures PriceRangeAnalysisFive(rnd, p1, p2, p3, p4, p5, precision).median == rnd(MedianFive(p1, p2, p3, p4, p5), precision)
  {
    PricesRangeOrdered(rnd, [p1, p2, p3, p4, p5], precision);
  }

  /** For prices already in ascending order, the median is the middle argument. */
  lemma MedianThreeOfAscending(p1: real, p2: real, p3: real)
    requires p1 <= p2 <= p3
    ensures MedianThree(p1, p2, p3) == p2
  {
    var xs := [p1, p2, p3];
    AscendingThreeSorted(p1, p2, p3);
    MiddleOfSorted(xs);
    assert |xs| / 2 == 1 && xs[1] == p2;
  }

  lemma MedianFiveOfAscending(p1: real, p2: real, p3: real, p4: real, p5: real)
    requires p1 <= p2 <= p3 <= p4 <= p5
    ensures MedianFive(p1, p2, p3, p4, p5) == p3
  {
    var xs := [p1, p2, p3, p4, p5];
    AscendingFiveSorted(p1, p2, p3, p4, p5);
    MiddleOfSorted(xs);
    assert |xs| / 2 == 2 && xs[2] == p3;
  }

  lemma AscendingThreeSorted(p1: real, p2: real, p3: real)
    requires p1 <= p2 <= p3
    ensures IsSorted([p1, p2, p3])
  {
    var xs := [p1, p2, p3];
    forall i | 0 <= i < |xs| - 1 ensures xs[i] <= xs[i + 1] {
      if i == 0 { assert xs[0] == p1 && xs[1] == p2; }
      else { assert xs[1] == p2 && xs[2] == p3; }
    }
    NeighboursSorted(xs);
  }

  lemma AscendingFiveSorted(p1: real, p2: real, p3: real, p4: real, p5: real)
    requires p1 <= p2 <= p3 <= p4 <= p5
    ensures IsSorted([p1, p2, p3, p4, p5])
  {
    var xs := [p1, p2, p3, p4, p5];
    forall i | 0 <= i < |xs| - 1 ensures xs[i] <= xs[i + 1] {
      if i == 0 { assert xs[0] == p1 && xs[1] == p2; }
      else if i == 1 { assert xs[1] == p2 && xs[2] == p3; }
      else if i == 2 { assert xs[2] == p3 && xs[3] == p4; }
      else { assert xs[3] == p4 && xs[4] == p5; }
    }
    NeighboursSorted(xs);
  }

  /** The middle of an ascending list is the element in the middle position. */
  lemma MiddleOfSorted(xs: seq<real>)
    requires |xs| > 0 && IsSorted(xs)
    ensures MiddleOf(xs) == xs[|xs| / 2]
  {
    SortedIsFixed(xs);
  }

  /** For ascending prices the least and greatest are the first and the last. */
  lemma AscendingRange(rnd: Rounder, prices: seq<real>, median: real, precision: int)
    requires |prices| > 0 && IsSorted(prices)
    ensures RangeOf(rnd, prices, median, precision).min == rnd(prices[0], precision)
    ensures RangeOf(rnd, prices, median, precision).max == rnd(prices[|prices| - 1], precision)
  {
    SortedMinMax(prices);
  }

  /** For ascending prices the analysis summarises them with the middle price as the median. */
  lemma AscendingMedianFive(rnd: Rounder, p1: real, p2: real, p3: real, p4: real, p5: real, precision: int)
    requires p1 <= p2 <= p3 <= p4 <= p5
    ensures PriceRangeAnalysisFive(rnd, p1, p2, p3, p4, p5, precision) == RangeOf(rnd, [p1, p2, p3, p4, p5], p3, precision)
  {
    MedianFiveOfAscending(p1, p2, p3, p4, p5);
  }

  lemma AscendingFiveFigures(rnd: Rounder, p1: real, p2: real, p3: real, p4: real, p5: real, precision: int)
    requires p1 <= p2 <= p3 <= p4 <= p5
    ensures var r := RangeOf(rnd, [p1, p2, p3, p4, p5], p3, precision);
      r.min == rnd(p1, precision) && r.max == rnd(p5, precision) && r.median == rnd(p3, precision) &&
      r.average == rnd((p1 + p2 + p3 + p4 + p5) / 5.0, precision) &&
      r.priceSpread == rnd(r.max - r.min, precision)
  {
    var prices := [p1, p2, p3, p4, p5];
    AscendingFiveSorted(p1, p2, p3, p4, p5);
    AscendingRange(rnd, prices, p3, precision);
    SumProductOfLiterals(p1, p2, p3, p4, p5);
  }

  /** The documented example: prices 10, 20, 30, 40, 50 give min 10, max 50, average 30, median 30, spread 40. */
  lemma PriceRangeFiveExample(rnd: Rounder)
    requires KeepsIntegers(rnd)
    ensures PriceRangeAnalysisFive(rnd, 10.0, 20.0, 30.0, 40.0, 50.0) == PriceRange(10.0, 50.0, 30.0, 30.0, 40.0)
  {
    AscendingMedianFive(rnd, 10.0, 20.0, 30.0, 40.0, 50.0, 4);
    AscendingFiveFigures(rnd, 10.0, 20.0, 30.0, 40.0, 50.0, 4);
    assert (10.0).Floor as real == 10.0 && (50.0).Floor as real == 50.0;
    assert (30.0).Floor as real == 30.0 && (40.0).Floor as real == 40.0;
  }

  /** The least and greatest of an ascending sequence are its first and last elements. */
  lemma SortedMinMax(xs: seq<real>)
    requires |xs| > 0 && IsSorted(xs)
    ensures SeqMin(xs) == xs[0] && SeqMax(xs) == xs[|xs| - 1]
  {
    var lo, hi := SeqMin(xs), SeqMax(xs);
    var i :| 0 <= i < |xs| && xs[i] == lo;
    var j :| 0 <= j < |xs| && xs[j] == hi;
    assert xs[0] <= xs[i] && xs[j] <= xs[|xs| - 1];
  }

  /** Sorting an already ascending sequence leaves it as it is. */
  lemma {:induction false} SortedIsFixed(xs: seq<real>)
    requires IsSorted(xs)
    ensures Sort(xs) == xs
  {
    if xs != [] {
      var tail := xs[1..];
      assert IsSorted(tail);
      SortedIsFixed(tail);
      assert tail == [] || xs[0] <= tail[0];
      assert Insert(xs[0], tail) == [xs[0]] + tail;
      assert [xs[0]] + tail == xs;
    }
  }

  // ---------------------------------------------------------------- storage, yield, currency

  /** The three figures `storage_cost_calculation` returns. */
  datatype StorageCost = StorageCost(totalStorageCost: real, costPerUnitAfterStorage: real, monthsStored: int)

  /** `storage_cost_calculation`; the per-unit figure adds the already rounded storage cost. */
  function StorageCostCalculation(rnd: Rounder, basePrice: real, storageRatePerMonth: real, months: int,
                                  precision: int := 2): (r: StorageCost)
    ensures r.monthsStored == months
  {
    var totalStorageCost := rnd(storageRatePerMonth * months as real, precision);
    var costPerUnitAfterStorage := rnd(basePrice + totalStorageCost, precision);
    StorageCost(totalStorageCost, costPerUnitAfterStorage, months)
  }

  /** `yield_per_acre_value` */
  function YieldPerAcreValue(rnd: Rounder, yieldPerAcre: real, pricePerUnit: real, precision: int := 2): real {
    rnd(yieldPerAcre * pricePerUnit, precision)
  }

  /** `currency_conversion_simple` */
  function CurrencyConversionSimple(rnd: Rounder, amount: real, exchangeRate: real, precision: int := 2): real {
    rnd(amount * exchangeRate, precision)
  }

  /** The documented example `storage_cost_calculation(100, 2, 6)`: 12 for storage, 112 per unit, 6 months. */
  lemma StorageCostExample(rnd: Rounder)
    requires KeepsIntegers(rnd)
    ensures StorageCostCalculation(rnd, 100.0, 2.0, 6) == StorageCost(12.0, 112.0, 6)
  {
    assert rnd(12.0, 2) == 12.0;
    assert rnd(112.0, 2) == 112.0;
  }

  /** The documented examples `yield_per_acre_value(50, 25) == 1250` and `currency_conversion_simple(100, 82.5) == 8250`. */
  lemma YieldCurrencyExamples(rnd: Rounder)
    requires KeepsIntegers(rnd)
    ensures YieldPerAcreValue(rnd, 50.0, 25.0) == 1250.0
    ensures CurrencyConversionSimple(rnd, 100.0, 82.5) == 8250.0
  {
    assert rnd(1250.0, 2) == 1250.0;
    assert rnd(8250.0, 2) == 8250.0;
  }

  /**
   * Without rounding, converting at `exchangeRate` and back at its reciprocal gives the
   * amount again, and the converted amount divided by the rate is the amount.
   */
  lemma CurrencyConversionInverts(rnd: Rounder, amount: real, exchangeRate: real, p: int)
    requires Exact(rnd)
    requires exchangeRate != 0.0
    ensures CurrencyConversionSimple(rnd, amount, exchangeRate, p) / exchangeRate == amount
    ensures CurrencyConversionSimple(rnd, CurrencyConversionSimple(rnd, amount, exchangeRate, p),
                                     1.0 / exchangeRate, p) == amount
  {
    var c := amount * exchangeRate;
    assert CurrencyConversionSimple(rnd, amount, exchangeRate, p) == c;
    assert c / exchangeRate == amount;
    assert CurrencyConversionSimple(rnd, c, 1.0 / exchangeRate, p) == c * (1.0 / exchangeRate);
    assert c * (1.0 / exchangeRate) == c / exchangeRate;
  }

  /** A larger yield never gives a smaller value per acre at a non-negative price when rounding is monotone. */
  lemma YieldPerAcreValueMonotone(rnd: Rounder, y1: real, y2: real, pricePerUnit: real, p: int)
    requires Monotone(rnd)
    requires y1 <= y2 && pricePerUnit >= 0.0
    ensures YieldPerAcreValue(rnd, y1, pricePerUnit, p) <= YieldPerAcreValue(rnd, y2, pricePerUnit, p)
  {
    var v1, v2 := y1 * pricePerUnit, y2 * pricePerUnit;
    assert v1 <= v2 by {
      assert v2 - v1 == (y2 - y1) * pricePerUnit;
      assert (y2 - y1) * pricePerUnit >= 0.0;
    }
    assert rnd(v1, p) <= rnd(v2, p);
  }

  /** Without rounding, the value per acre divided by a non-zero price is the yield. */
  lemma YieldPerAcreValueInverts(rnd: Rounder, yieldPerAcre: real, pricePerUnit: real, p: int)
    requires Exact(rnd)
    requires pricePerUnit != 0.0
    ensures YieldPerAcreValue(rnd, yieldPerAcre, pricePerUnit, p) / pricePerUnit == yieldPerAcre
  {
    assert YieldPerAcreValue(rnd, yieldPerAcre, pricePerUnit, p) == yieldPerAcre * pricePerUnit;
  }

  /** Storing longer never lowers the cost per unit when rounding is monotone and the rate is not negative. */
  lemma StorageCostMonotone(rnd: Rounder, base: real, rate: real, m1: int, m2: int, p: int)
    requires Monotone(rnd)
    requires rate >= 0.0 && m1 <= m2
    ensures StorageCostCalculation(rnd, base, rate, m1, p).costPerUnitAfterStorage
         <= StorageCostCalculation(rnd, base, rate, m2, p).costPerUnitAfterStorage
  {
    assert rate * m1 as real <= rate * m2 as real by {
      assert rate * (m2 - m1) as real >= 0.0;
    }
    var s1 := rnd(rate * m1 as real, p);
    var s2 := rnd(rate * m2 as real, p);
    assert s1 <= s2;
    assert base + s1 <= base + s2;
  }
}
