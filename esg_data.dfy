/** The simulated product table that the dashboard builds at start-up
    (generate_esg_data in ESG1.py). The pandas DataFrame becomes a sequence
    of rows, in the order of the source's parallel lists. */
module EsgData {

  /** One row of the table. The flag is a stored column, as in the DataFrame;
      every table built by BuildDataset derives it from the row's score and
      green-activity share. */
  datatype Product = Product(
    name: string,
    esgScore: int,
    co2Emissions: int,
    greenActivities: int,
    greenwashingFlag: bool)

  /** The greenwashing heuristic: a high ESG score but a small share of
      activity that is actually green. */
  predicate IsGreenwashing(score: int, green: int)
  {
    score > 80 && green < 30
  }

  /** Every row's flag agrees with the heuristic applied to that row. */
  predicate FlagsDerived(data: seq<Product>)
  {
    forall i :: 0 <= i < |data| ==>
      data[i].greenwashingFlag == IsGreenwashing(data[i].esgScore, data[i].greenActivities)
  }

  /** No two rows share a product name. */
  predicate NamesDistinct(data: seq<Product>)
  {
    forall i, j :: 0 <= i < j < |data| ==> data[i].name != data[j].name
  }

  /** The ranges the table's columns are meant to have: scores and green
      shares are percentages, emissions are non-negative tonnes. */
  predicate InRange(p: Product)
  {
    0 <= p.esgScore <= 100 && 0 <= p.co2Emissions && 0 <= p.greenActivities <= 100
  }

  predicate AllInRange(data: seq<Product>)
  {
    forall i :: 0 <= i < |data| ==> InRange(data[i])
  }

  /** The list comprehension over zip(esg_scores, green_activities): one flag
      per pair, and zip stops at the end of the shorter list. */
  function GreenwashingFlags(scores: seq<int>, greens: seq<int>): (flags: seq<bool>)
    ensures |flags| == if |scores| <= |greens| then |scores| else |greens|
    ensures forall i :: 0 <= i < |flags| ==> flags[i] == IsGreenwashing(scores[i], greens[i])
  {
    if |scores| == 0 || |greens| == 0 then []
    else [IsGreenwashing(scores[0], greens[0])] + GreenwashingFlags(scores[1..], greens[1..])
  }

  /** The DataFrame built from five equally long columns; pandas refuses
      columns of different lengths, so equal lengths are required. Row i
      holds the i-th entry of every column. */
  function Table(names: seq<string>, scores: seq<int>, co2s: seq<int>, greens: seq<int>,
                 flags: seq<bool>): (rows: seq<Product>)
    requires |scores| == |names| && |co2s| == |names| && |greens| == |names| && |flags| == |names|
    ensures |rows| == |names|
    ensures forall i :: 0 <= i < |rows| ==>
      rows[i].name == names[i] && rows[i].esgScore == scores[i] &&
      rows[i].co2Emissions == co2s[i] && rows[i].greenActivities == greens[i] &&
      rows[i].greenwashingFlag == flags[i]
  {
    if |names| == 0 then []
    else [Product(names[0], scores[0], co2s[0], greens[0], flags[0])]
         + Table(names[1..], scores[1..], co2s[1..], greens[1..], flags[1..])
  }

  /** The body of generate_esg_data for arbitrary parallel lists: the flag
      column is computed from the score and green columns, then the table is
      assembled. The flag of a row depends on nothing but that row's score
      and green share. */
  function BuildDataset(names: seq<string>, scores: seq<int>, co2s: seq<int>, greens: seq<int>)
    : (data: seq<Product>)
    requires |scores| == |names| && |co2s| == |names| && |greens| == |names|
    ensures |data| == |names|
    ensures FlagsDerived(data)
    ensures forall i :: 0 <= i < |data| ==>
      data[i].name == names[i] && data[i].esgScore == scores[i] &&
      data[i].co2Emissions == co2s[i] && data[i].greenActivities == greens[i]
  {
    Table(names, scores, co2s, greens, GreenwashingFlags(scores, greens))
  }

  /** Two datasets built from the same score and green columns carry the same
      flags, whatever their names and emissions. */
  lemma FlagIgnoresNameAndEmissions(names: seq<string>, names': seq<string>,
                                    scores: seq<int>, co2s: seq<int>, co2s': seq<int>,
                                    greens: seq<int>, i: nat)
    requires |scores| == |names| && |co2s| == |names| && |greens| == |names|
    requires |names'| == |names| && |co2s'| == |names|
    requires i < |names|
    ensures BuildDataset(names, scores, co2s, greens)[i].greenwashingFlag
         == BuildDataset(names', scores, co2s', greens)[i].greenwashingFlag
  {
  }

  const ProductNames: seq<string> :=
    ["EcoGreen ETF", "Sustainability Fund", "Blue Ocean Bond", "Carbon Zero Index", "Future Energy Trust"]
  const EsgScores: seq<int> := [85, 72, 93, 65, 78]
  /** Tonnes of CO2, scope 1-2-3. */
  const Co2Emissions: seq<int> := [120, 200, 50, 180, 150]
  /** Percentage of green activity. */
  const GreenActivities: seq<int> := [25, 65, 82, 60, 45]

  /** generate_esg_data: five rows whose flags follow the heuristic. The
      names are distinct (GenerateEsgDataNamesDistinct) and the columns in
      range (GenerateEsgDataInRange). */
  function GenerateEsgData(): (data: seq<Product>)
    ensures |data| == 5
    ensures FlagsDerived(data)
  {
    BuildDataset(ProductNames, EsgScores, Co2Emissions, GreenActivities)
  }

  /** Every score and green share of the table is a percentage, and every
      emission is non-negative. */
  lemma GenerateEsgDataInRange()
    ensures AllInRange(GenerateEsgData())
  {
    var data := GenerateEsgData();
    forall i | 0 <= i < 5
      ensures InRange(data[i])
    {
      assert data[i].esgScore == EsgScores[i] && data[i].co2Emissions == Co2Emissions[i]
          && data[i].greenActivities == GreenActivities[i];
    }
  }

  /** The five product names differ already in their first letter. */
  lemma ProductNamesDistinct()
    ensures forall i, j :: 0 <= i < j < |ProductNames| ==> ProductNames[i] != ProductNames[j]
  {
    var firsts := [ProductNames[0][0], ProductNames[1][0], ProductNames[2][0],
                   ProductNames[3][0], ProductNames[4][0]];
    assert firsts == ['E', 'S', 'B', 'C', 'F'];
    forall i, j | 0 <= i < j < 5
      ensures ProductNames[i] != ProductNames[j]
    {
      assert ProductNames[i][0] == firsts[i] && ProductNames[j][0] == firsts[j];
    }
  }

  /** The five rows of the table carry unique names. */
  lemma GenerateEsgDataNamesDistinct()
    ensures NamesDistinct(GenerateEsgData())
  {
    ProductNamesDistinct();
  }

  /** The table, row by row, in the fixed order. */
  lemma GenerateEsgDataRows()
    ensures GenerateEsgData() == [
      Product("EcoGreen ETF", 85, 120, 25, true),
      Product("Sustainability Fund", 72, 200, 65, false),
      Product("Blue Ocean Bond", 93, 50, 82, false),
      Product("Carbon Zero Index", 65, 180, 60, false),
      Product("Future Energy Trust", 78, 150, 45, false)]
  {
    var data := GenerateEsgData();
    var flags := [true, false, false, false, false];
    forall i | 0 <= i < 5
      ensures data[i] == Product(ProductNames[i], EsgScores[i], Co2Emissions[i], GreenActivities[i], flags[i])
    {
      assert IsGreenwashing(EsgScores[i], GreenActivities[i]) == flags[i];
    }
  }

  /** With the hard-coded values only EcoGreen ETF (score 85, 25% green) is
      flagged. */
  lemma OnlyEcoGreenFlagged()
    ensures forall i :: 0 <= i < |GenerateEsgData()| ==>
      (GenerateEsgData()[i].greenwashingFlag <==> GenerateEsgData()[i].name == "EcoGreen ETF")
  {
    GenerateEsgDataRows();
  }
}
