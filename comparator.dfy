/** The product comparator (compare_products in ESG1.py and the guard in
    front of it in main): name lookup, the sustainability verdict, the claim
    its message makes, and the radar chart's normalised axes. */
module Comparator {
  import opened EsgData

  /** Some row of the table carries this name. */
  predicate HasProduct(data: seq<Product>, name: string)
  {
    exists i :: 0 <= i < |data| && data[i].name == name
  }

  /** data[data['product'] == name].iloc[0]: the index of the first row with
      that name. The selection boxes offer only names taken from the table. */
  function Find(data: seq<Product>, name: string): (i: nat)
    requires HasProduct(data, name)
    ensures i < |data| && data[i].name == name
    ensures forall j :: 0 <= j < i ==> data[j].name != name
  {
    if data[0].name == name then 0
    else
      assert HasProduct(data[1..], name) by {
        var k :| 0 <= k < |data| && data[k].name == name;
        assert data[1..][k - 1].name == name;
      }
      1 + Find(data[1..], name)
  }

  /** The row a selected name refers to. */
  function Row(data: seq<Product>, name: string): (p: Product)
    requires HasProduct(data, name)
    ensures p.name == name && p in data
  {
    data[Find(data, name)]
  }

  /** When names are unique, looking up a row's name gives back that row. */
  lemma FindRoundTrip(data: seq<Product>, k: nat)
    requires NamesDistinct(data)
    requires k < |data|
    ensures HasProduct(data, data[k].name)
    ensures Find(data, data[k].name) == k
  {
  }

  /** max(data['co2_emissions']): the largest emission of the whole table. */
  function MaxCo2(data: seq<Product>): (m: int)
    requires |data| > 0
    ensures forall i :: 0 <= i < |data| ==> data[i].co2Emissions <= m
    ensures exists i :: 0 <= i < |data| && data[i].co2Emissions == m
  {
    if |data| == 1 then data[0].co2Emissions
    else
      var rest := MaxCo2(data[1..]);
      assert forall i :: 1 <= i < |data| ==> data[i].co2Emissions == data[1..][i - 1].co2Emissions;
      if data[0].co2Emissions >= rest then data[0].co2Emissions else rest
  }

  /** The outcome of the comparative analysis. */
  datatype Verdict =
    | FirstWins(delta: int)   // product1 is more sustainable, by delta points
    | SecondWins(delta: int)  // product2 is more sustainable, by delta points
    | Inconclusive            // needs a closer look at green activity and greenwashing

  /** The verdict of compare_products. A product is declared more
      sustainable only when its score is strictly higher and it is not
      flagged; the reported difference is the winner's score minus the
      loser's. */
  function Decide(a: Product, b: Product): (v: Verdict)
    ensures v.FirstWins? <==> a.esgScore > b.esgScore && !a.greenwashingFlag
    ensures v.SecondWins? <==> b.esgScore > a.esgScore && !b.greenwashingFlag
    ensures v.Inconclusive? <==>
      !(a.esgScore > b.esgScore && !a.greenwashingFlag) && !(b.esgScore > a.esgScore && !b.greenwashingFlag)
    ensures v.FirstWins? ==> v.delta == a.esgScore - b.esgScore > 0
    ensures v.SecondWins? ==> v.delta == b.esgScore - a.esgScore > 0
  {
    if a.esgScore > b.esgScore && !a.greenwashingFlag then FirstWins(a.esgScore - b.esgScore)
    else if b.esgScore > a.esgScore && !b.greenwashingFlag then SecondWins(b.esgScore - a.esgScore)
    else Inconclusive
  }

  /** The verdict seen from the other side. */
  function Mirror(v: Verdict): Verdict
  {
    match v
    case FirstWins(d) => SecondWins(d)
    case SecondWins(d) => FirstWins(d)
    case Inconclusive => Inconclusive
  }

  /** A flagged product is never declared the more sustainable one. */
  lemma FlaggedNeverWins(a: Product, b: Product)
    ensures a.greenwashingFlag ==> !Decide(a, b).FirstWins? && !Decide(b, a).SecondWins?
  {
  }

  /** Equal scores always leave the comparison inconclusive. */
  lemma EqualScoresInconclusive(a: Product, b: Product)
    requires a.esgScore == b.esgScore
    ensures Decide(a, b) == Inconclusive
  {
  }

  /** Swapping the two products mirrors the verdict, with the same
      difference. */
  lemma DecideSwap(a: Product, b: Product)
    ensures Decide(b, a) == Mirror(Decide(a, b))
  {
  }

  /** The winning message as written always adds "and lower CO2 emissions",
      whatever the emissions are. */
  function ClaimsLowerEmissionsAsWritten(v: Verdict): (claimed: bool)
    ensures claimed <==> !v.Inconclusive?
  {
    match v
    case FirstWins(_) => true
    case SecondWins(_) => true
    case Inconclusive => false
  }

  /** With the hard-coded table, Sustainability Fund beats Carbon Zero Index
      by 7 points and the message claims lower emissions, yet its 200 tonnes
      exceed the other's 180. */
  lemma AsWrittenEmissionClaimCanBeFalse()
    ensures var data := GenerateEsgData();
      && HasProduct(data, "Sustainability Fund") && HasProduct(data, "Carbon Zero Index")
      && var a, b := Row(data, "Sustainability Fund"), Row(data, "Carbon Zero Index");
      && Decide(a, b) == FirstWins(7)
      && ClaimsLowerEmissionsAsWritten(Decide(a, b))
      && a.co2Emissions > b.co2Emissions
  {
    var data := GenerateEsgData();
    GenerateEsgDataRows();
    DatasetRowByName(1);
    DatasetRowByName(3);
    assert data[1].name == "Sustainability Fund" && data[3].name == "Carbon Zero Index";
  }

  /** The emission claim made only when it holds: the winner's emissions are
      strictly below the loser's. */
  function ClaimsLowerEmissions(a: Product, b: Product, v: Verdict): (claimed: bool)
    requires v == Decide(a, b)
    ensures claimed ==> ClaimsLowerEmissionsAsWritten(v)
    ensures v.FirstWins? ==> (claimed <==> a.co2Emissions < b.co2Emissions)
    ensures v.SecondWins? ==> (claimed <==> b.co2Emissions < a.co2Emissions)
  {
    match v
    case FirstWins(_) => a.co2Emissions < b.co2Emissions
    case SecondWins(_) => b.co2Emissions < a.co2Emissions
    case Inconclusive => false
  }

  /** The three radar axes of one product. */
  datatype Axes = Axes(esgScore: real, lowEmissions: real, greenActivities: real)

  predicate InUnitCube(x: Axes)
  {
    0.0 <= x.esgScore <= 1.0 && 0.0 <= x.lowEmissions <= 1.0 && 0.0 <= x.greenActivities <= 1.0
  }

  /** Emissions scaled by the table's maximum and inverted, so that fewer
      emissions give a longer axis. */
  function LowEmissionsAxis(co2: int, maxCo2: int): (r: real)
    requires maxCo2 != 0
    ensures (1.0 - r) * maxCo2 as real == co2 as real
    ensures 0 <= co2 <= maxCo2 ==> 0.0 <= r <= 1.0
    ensures co2 == maxCo2 ==> r == 0.0
    ensures co2 == 0 ==> r == 1.0
  {
    1.0 - co2 as real / maxCo2 as real
  }

  /** Strictly lower emissions give a strictly longer emissions axis. */
  lemma LowEmissionsAxisAntitone(c: int, d: int, maxCo2: int)
    requires maxCo2 > 0
    requires c < d
    ensures LowEmissionsAxis(c, maxCo2) > LowEmissionsAxis(d, maxCo2)
  {
    var m := maxCo2 as real;
    var x, y := c as real / m, d as real / m;
    assert x * m == c as real && y * m == d as real;
    assert (y - x) * m > 0.0;
  }

  /** values1 / values2 of compare_products: score and green share as
      fractions of 100, emissions through LowEmissionsAxis. Each axis
      multiplied back gives the product's own figure. */
  function Normalise(p: Product, maxCo2: int): (x: Axes)
    requires maxCo2 != 0
    ensures x.esgScore * 100.0 == p.esgScore as real
    ensures x.greenActivities * 100.0 == p.greenActivities as real
    ensures (1.0 - x.lowEmissions) * maxCo2 as real == p.co2Emissions as real
    ensures InRange(p) && p.co2Emissions <= maxCo2 ==> InUnitCube(x)
  {
    Axes(p.esgScore as real / 100.0, LowEmissionsAxis(p.co2Emissions, maxCo2),
         p.greenActivities as real / 100.0)
  }

  /** What the comparator page computes for two distinct names. The emission
      claim is the corrected one (ClaimsLowerEmissions), not the message as
      written. */
  datatype Comparison = Comparison(
    verdict: Verdict,
    claimsLowerEmissions: bool,
    axes1: Axes,
    axes2: Axes)

  /** compare_products: both rows are looked up, the verdict is decided, and
      both products are normalised against the maximum emission of the whole
      table, not of the pair. */
  function CompareProducts(data: seq<Product>, product1: string, product2: string): (c: Comparison)
    requires HasProduct(data, product1) && HasProduct(data, product2)
    requires MaxCo2(data) != 0
    ensures c.verdict == Decide(Row(data, product1), Row(data, product2))
    ensures c.claimsLowerEmissions
         == ClaimsLowerEmissions(Row(data, product1), Row(data, product2), c.verdict)
    ensures c.claimsLowerEmissions ==> ClaimsLowerEmissionsAsWritten(c.verdict)
    ensures c.axes1 == Normalise(Row(data, product1), MaxCo2(data))
    ensures c.axes2 == Normalise(Row(data, product2), MaxCo2(data))
    ensures AllInRange(data) ==> InUnitCube(c.axes1) && InUnitCube(c.axes2)
    ensures Row(data, product1).co2Emissions == MaxCo2(data) ==> c.axes1.lowEmissions == 0.0
    ensures Row(data, product2).co2Emissions == MaxCo2(data) ==> c.axes2.lowEmissions == 0.0
  {
    var a, b := Row(data, product1), Row(data, product2);
    var v := Decide(a, b);
    var maxCo2 := MaxCo2(data);
    assert InRange(a) && InRange(b) <== AllInRange(data);
    Comparison(v, ClaimsLowerEmissions(a, b, v), Normalise(a, maxCo2), Normalise(b, maxCo2))
  }

  /** What the comparator page shows: a warning when the same product is
      selected twice, the comparison otherwise. */
  datatype Outcome = SameProductWarning | Compared(comparison: Comparison)

  /** The guard in main: the comparison runs only for two different names. */
  function SelectAndCompare(data: seq<Product>, product1: string, product2: string): (o: Outcome)
    requires HasProduct(data, product1) && HasProduct(data, product2)
    requires MaxCo2(data) != 0
    ensures o.SameProductWarning? <==> product1 == product2
    ensures o.Compared? ==> o.comparison == CompareProducts(data, product1, product2)
  {
    if product1 != product2 then Compared(CompareProducts(data, product1, product2))
    else SameProductWarning
  }

  /** With unique names, two different selections compare two different rows. */
  lemma DistinctNamesDistinctRows(data: seq<Product>, product1: string, product2: string)
    requires NamesDistinct(data)
    requires HasProduct(data, product1) && HasProduct(data, product2)
    requires product1 != product2
    ensures Find(data, product1) != Find(data, product2)
  {
  }

  /** Swapping the two selections mirrors the verdict, keeps the emission
      claim and swaps the radar axes. */
  lemma CompareSwap(data: seq<Product>, product1: string, product2: string)
    requires HasProduct(data, product1) && HasProduct(data, product2)
    requires MaxCo2(data) != 0
    ensures var c, c' := CompareProducts(data, product1, product2), CompareProducts(data, product2, product1);
      c'.verdict == Mirror(c.verdict) && c'.claimsLowerEmissions == c.claimsLowerEmissions &&
      c'.axes1 == c.axes2 && c'.axes2 == c.axes1
  {
    DecideSwap(Row(data, product1), Row(data, product2));
  }

  /** The product holding the table's maximum emission gets an emissions axis
      of 0. */
  lemma MaxEmitterAxisZero(data: seq<Product>, k: nat)
    requires k < |data| && MaxCo2(data) != 0
    requires forall i :: 0 <= i < |data| ==> data[i].co2Emissions <= data[k].co2Emissions
    ensures Normalise(data[k], MaxCo2(data)).lowEmissions == 0.0
  {
    var m := MaxCo2(data);
    var j :| 0 <= j < |data| && data[j].co2Emissions == m;
    assert data[k].co2Emissions == m;
  }

  /** The largest emission of the hard-coded table is Sustainability Fund's
      200 tonnes. */
  lemma DatasetMaxCo2()
    ensures MaxCo2(GenerateEsgData()) == 200
  {
    var data := GenerateEsgData();
    assert forall i :: 0 <= i < 5 ==> data[i].co2Emissions == Co2Emissions[i] <= 200;
    assert data[1].co2Emissions == 200;
  }

  /** On the hard-coded table, every product's name selects its own row. */
  lemma DatasetRowByName(k: nat)
    requires k < 5
    ensures HasProduct(GenerateEsgData(), GenerateEsgData()[k].name)
    ensures Row(GenerateEsgData(), GenerateEsgData()[k].name) == GenerateEsgData()[k]
  {
    GenerateEsgDataNamesDistinct();
    FindRoundTrip(GenerateEsgData(), k);
  }

  /** EcoGreen ETF (85) against Sustainability Fund (72) is inconclusive:
      the higher scorer is flagged for greenwashing. */
  lemma EcoGreenAgainstSustainabilityFund()
    ensures HasProduct(GenerateEsgData(), "EcoGreen ETF")
    ensures HasProduct(GenerateEsgData(), "Sustainability Fund")
    ensures MaxCo2(GenerateEsgData()) != 0
    ensures SelectAndCompare(GenerateEsgData(), "EcoGreen ETF", "Sustainability Fund").comparison.verdict
         == Inconclusive
  {
    var data := GenerateEsgData();
    GenerateEsgDataRows();
    DatasetMaxCo2();
    DatasetRowByName(0);
    DatasetRowByName(1);
    assert data[0].name == "EcoGreen ETF" && data[1].name == "Sustainability Fund";
  }

  /** Blue Ocean Bond (93) beats Carbon Zero Index (65) by 28 points, and its
      emissions axis is 1 - 50/200 = 0.75. */
  lemma BlueOceanAgainstCarbonZero()
    ensures HasProduct(GenerateEsgData(), "Blue Ocean Bond")
    ensures HasProduct(GenerateEsgData(), "Carbon Zero Index")
    ensures MaxCo2(GenerateEsgData()) != 0
    ensures var o := SelectAndCompare(GenerateEsgData(), "Blue Ocean Bond", "Carbon Zero Index");
      o.comparison.verdict == FirstWins(28) && o.comparison.axes1.lowEmissions == 0.75
  {
    var data := GenerateEsgData();
    GenerateEsgDataRows();
    DatasetMaxCo2();
    DatasetRowByName(2);
    DatasetRowByName(3);
    assert data[2].name == "Blue Ocean Bond" && data[3].name == "Carbon Zero Index";
  }
}
