/** The two ways the dashboard colours an ESG score: the score bar drawn by
    display_esg_score, and the bar chart of the portfolio page. */
module ScoreBands {
  import opened EsgData

  datatype Colour = Green | Orange | Red

  /** How favourable a colour is: red below orange below green. */
  function Rank(c: Colour): nat
  {
    match c
    case Red => 0
    case Orange => 1
    case Green => 2
  }

  /** display_esg_score: 80 and above is green, 60 to 79 orange, below 60
      red. The three bands partition the scores. */
  function ScoreColour(score: int): (c: Colour)
    ensures c == Green <==> score >= 80
    ensures c == Orange <==> 60 <= score < 80
    ensures c == Red <==> score < 60
  {
    if score >= 80 then Green
    else if score >= 60 then Orange
    else Red
  }

  /** The colour column of the dashboard's bar chart: strictly above 80 is
      green, strictly above 60 orange, the rest red. */
  function ChartColour(score: int): (c: Colour)
    ensures c == Green <==> score > 80
    ensures c == Orange <==> 60 < score <= 80
    ensures c == Red <==> score <= 60
  {
    if score > 80 then Green
    else if score > 60 then Orange
    else Red
  }

  /** A higher score never gets a less favourable score-bar colour. */
  lemma ScoreColourMonotone(s: int, t: int)
    requires s <= t
    ensures Rank(ScoreColour(s)) <= Rank(ScoreColour(t))
  {
  }

  /** On integer scores the chart's bands are the score bar's bands moved up
      by one point. */
  lemma ChartIsShiftedScoreColour(score: int)
    ensures ChartColour(score) == ScoreColour(score - 1)
  {
  }

  /** The two colourings agree on every score except 80 and 60. */
  lemma ChartAgreesExceptAtBoundaries(score: int)
    ensures ChartColour(score) == ScoreColour(score) <==> score != 80 && score != 60
  {
  }

  /** At the two boundaries the chart is one band less favourable: 80 is
      orange instead of green, 60 red instead of orange. */
  lemma BoundaryDisagreement()
    ensures ScoreColour(80) == Green && ChartColour(80) == Orange
    ensures ScoreColour(60) == Orange && ChartColour(60) == Red
  {
  }

  /** The chart never shows a score more favourably than the score bar. */
  lemma ChartNeverMoreFavourable(score: int)
    ensures Rank(ChartColour(score)) <= Rank(ScoreColour(score))
  {
  }

  /** No score in the hard-coded table sits on a boundary, so the dashboard's
      chart and its score bars show the same colour for every product. */
  lemma DashboardColoursAgree()
    ensures forall i :: 0 <= i < |GenerateEsgData()| ==>
      ChartColour(GenerateEsgData()[i].esgScore) == ScoreColour(GenerateEsgData()[i].esgScore)
  {
    GenerateEsgDataRows();
  }
}
