# GreenInvest+ ESG dashboard — decision rules in Dafny

GreenInvest+ (`ESG1.py`) is a Streamlit demo dashboard. It shows simulated ESG ratings for five fictitious financial products. It compares two products side by side and suggests a next step after a profiling form. This project models the dashboard's decision rules as pure Dafny functions over a sequence of `Product` records and proves properties of them:

- **`EsgData`** (`esg_data.dfy`): the hard-coded product table built by `generate_esg_data`. It includes the derived greenwashing flag, `score > 80 and green < 30`.
- **`ScoreBands`** (`score_bands.dfy`): the two colourings of an ESG score. One is the score bar of `display_esg_score` (≥ 80 green, ≥ 60 orange, else red). The other is the colour column of the portfolio bar chart (> 80 green, > 60 orange, else red).
- **`Comparator`** (`comparator.dfy`): `compare_products` and the guard in `main`. It covers the lookup of a row by name (the first match), the verdict, and the "lower CO₂ emissions" claim the verdict message makes. It also covers the three radar axes, normalised against the largest emission of the whole table, and the warning when the same product is selected twice.
- **`Profiling`** (`profiling.dfy`): the suggestion shown after the profiling form is submitted.

The pandas DataFrame is a `seq<Product>`. A row lookup `data[data['product'] == name].iloc[0]` is `Find`, the index of the first row with that name. It requires the name to be present, because the selection boxes offer only the table's own names. Python's float division is modelled with Dafny `real`, which is exact.

## Model

| member | source | states |
|---|---|---|
| `EsgData.GreenwashingFlags` | ESG1.py:74 | the comprehension yields one flag per `zip` pair, as many as the shorter list, and flag i is `scores[i] > 80 && greens[i] < 30` |
| `EsgData.Table` | ESG1.py:77-83 | the DataFrame of equally long columns has one row per entry, and row i holds entry i of every column |
| `EsgData.BuildDataset` | ESG1.py:59-85 | for any parallel lists, every row's flag is the heuristic applied to that row's own score and green share, and the other columns are copied in order |
| `EsgData.FlagIgnoresNameAndEmissions` | ESG1.py:74 | two tables with the same score and green columns carry the same flags, whatever their names and emissions |
| `EsgData.GenerateEsgData` | ESG1.py:59-85 | the table has exactly five rows, and every row's flag is the heuristic applied to that row |
| `EsgData.ProductNamesDistinct` | ESG1.py:61-67 | the five product names are pairwise different |
| `EsgData.GenerateEsgDataNamesDistinct` | ESG1.py:61-83 | no two rows of the table share a product name |
| `EsgData.GenerateEsgDataInRange` | ESG1.py:69-71 | every score and green share of the table is in [0,100], and every emission is non-negative |
| `EsgData.GenerateEsgDataRows` | ESG1.py:61-74 | the table is exactly the five given rows in the given order, with EcoGreen ETF flagged |
| `EsgData.OnlyEcoGreenFlagged` | ESG1.py:69-74 | a row is flagged if and only if it is EcoGreen ETF (85, 25 %) |
| `ScoreBands.ScoreColour` | ESG1.py:88-94 | the three bands partition the integers: green iff ≥ 80, orange iff 60..79, red iff < 60 |
| `ScoreBands.ChartColour` | ESG1.py:350-352 | the chart bands partition the integers: green iff > 80, orange iff 61..80, red iff ≤ 60 |
| `ScoreBands.ScoreColourMonotone` | ESG1.py:88-94 | a higher score never gets a less favourable score-bar colour |
| `ScoreBands.ChartIsShiftedScoreColour` | ESG1.py:350-352 | on integer scores the chart colour of s is the score-bar colour of s - 1 |
| `ScoreBands.ChartAgreesExceptAtBoundaries` | ESG1.py:350-352 | the two colourings agree on a score if and only if it is neither 80 nor 60 |
| `ScoreBands.BoundaryDisagreement` | ESG1.py:88-94 | at 80 the bar is green and the chart orange, and at 60 the bar is orange and the chart red |
| `ScoreBands.ChartNeverMoreFavourable` | ESG1.py:350-352 | the chart never shows a score more favourably than the score bar |
| `ScoreBands.DashboardColoursAgree` | ESG1.py:343-352 | on the hard-coded table, chart and score bar give every product the same colour |
| `Comparator.Find` | ESG1.py:107-108 | the lookup returns a row carrying the name, and no earlier row carries it |
| `Comparator.Row` | ESG1.py:107-108 | the looked-up row is a row of the table and carries the selected name |
| `Comparator.FindRoundTrip` | ESG1.py:107-108 | with unique names, looking up row k's name gives back k |
| `Comparator.MaxCo2` | ESG1.py:168 | the result bounds every row's emission and is the emission of some row |
| `Comparator.Decide` | ESG1.py:139-159 | exactly one verdict: the first wins iff its score is strictly higher and it is unflagged, the second likewise, otherwise inconclusive; a win's difference is winner minus loser and is positive |
| `Comparator.FlaggedNeverWins` | ESG1.py:139-150 | a flagged product is never declared more sustainable, from either side |
| `Comparator.EqualScoresInconclusive` | ESG1.py:139-159 | equal scores always give the inconclusive verdict |
| `Comparator.DecideSwap` | ESG1.py:139-159 | swapping the products turns "first wins by d" into "second wins by d" and back, and keeps an inconclusive verdict |
| `Comparator.ClaimsLowerEmissionsAsWritten` | ESG1.py:140-152 | the winning message claims lower CO₂ emissions exactly when there is a winner, whatever the emissions |
| `Comparator.AsWrittenEmissionClaimCanBeFalse` | ESG1.py:139-152 | Sustainability Fund beats Carbon Zero Index by 7 and the message claims lower emissions, although its 200 t exceed 180 t |
| `Comparator.ClaimsLowerEmissions` | ESG1.py:140-152 | the corrected claim is made only when the written one is, and for a winner exactly when its emissions are strictly below the loser's |
| `Comparator.LowEmissionsAxis` | ESG1.py:172 | the axis scaled back gives the emission, lies in [0,1] for 0 ≤ co2 ≤ max, is 0 at the maximum and 1 at zero emissions |
| `Comparator.LowEmissionsAxisAntitone` | ESG1.py:172 | lower emissions give a strictly longer emissions axis |
| `Comparator.Normalise` | ESG1.py:170-180 | each axis multiplied back gives the product's own figure, and all three axes lie in [0,1] for an in-range product not above the maximum |
| `Comparator.CompareProducts` | ESG1.py:106-180 | the verdict is that of the two looked-up rows; the emission claim is the corrected claim for that verdict and never says more than the written one; each product's axes are its normalisation against the maximum emission of the whole table, not of the pair; on an in-range table both products' axes lie in [0,1]; a product at the table's maximum emission gets emissions axis 0 |
| `Comparator.SelectAndCompare` | ESG1.py:433-436 | a warning is issued iff the two names are equal, and otherwise the comparison of the two names runs |
| `Comparator.DistinctNamesDistinctRows` | ESG1.py:433-434 | with unique names, two different selections compare two different rows |
| `Comparator.CompareSwap` | ESG1.py:139-180 | swapping the selections mirrors the verdict, keeps the emission claim and swaps the two products' axes |
| `Comparator.MaxEmitterAxisZero` | ESG1.py:168-179 | the product with the table's largest emission gets emissions axis 0 |
| `Comparator.DatasetMaxCo2` | ESG1.py:168 | the largest emission of the hard-coded table is 200 tonnes |
| `Comparator.DatasetRowByName` | ESG1.py:107-108 | on the hard-coded table, each product's name selects that product's own row |
| `Comparator.EcoGreenAgainstSustainabilityFund` | ESG1.py:139-159 | EcoGreen ETF against Sustainability Fund is inconclusive, because the higher scorer is flagged |
| `Comparator.BlueOceanAgainstCarbonZero` | ESG1.py:139-179 | Blue Ocean Bond beats Carbon Zero Index by 28 points, and its emissions axis is 1 - 50/200 = 0.75 |
| `Profiling.Suggest` | ESG1.py:309-331 | nothing before submission; an advisor is sent to the comparator; a private investor gets the above-80 suggestion iff interest is high and the balance suggestion otherwise |
| `Profiling.AdvisorIgnoresInterest` | ESG1.py:325-331 | an advisor's suggestion does not depend on the stated ESG interest |
| `Profiling.MediumAndLowAlike` | ESG1.py:309-324 | medium and low interest lead to the same suggestion |

## Left out

- All Streamlit rendering is left out: page routing by sidebar, columns, metrics, alerts, expanders, forms and the footer. The model returns the data these would display.
- The CSS (`local_css`), the HTML templates, the homepage, the partner and marketplace cards, and the contact form are presentation only.
- The per-product panels of `compare_products` and of the portfolio page are display only. They show a score bar, metrics and a greenwashing alert exactly when the stored flag is set. Only the bar's colour is modelled, as `ScoreColour`.
- The radar chart construction is floating-point plotting in foreign libraries. This covers the `np.linspace` angles, the closing of the polygon (`values1 += values1[:1]`) and the axis limits. The Altair bar chart and the Matplotlib pie chart of green share are left out for the same reason.
- The age and experience fields of the profiling form are only echoed back and do not affect the suggestion.
- `Comparator.Normalise`: it uses exact `real` arithmetic instead of 64-bit floats, so rounding in `score/100` and `co2/max_co2` is not modelled.
- `Comparator.CompareProducts`: a table whose largest emission is 0 is excluded by `MaxCo2(data) != 0`. There numpy would divide by zero and produce `inf`/`nan` instead of a number. The hard-coded table's maximum is 200.
- `Comparator.CompareProducts`: the record reports the corrected emission claim (`Comparator.ClaimsLowerEmissions`), not the claim the winning message makes as written. The written claim is `Comparator.ClaimsLowerEmissionsAsWritten`; see "## Findings".
- `Comparator.Find`: a name missing from the table would make `.iloc[0]` raise `IndexError`. That cannot happen, because both selection boxes list only the table's names, so the lookup requires the name to be present.

## Findings

| source | as written | input that shows it | evidently intended | confidence | as-written member | corrected member |
|---|---|---|---|---|---|---|
| ESG1.py:140-152 | the winning message always says the winner has "minori emissioni CO₂" (lower CO₂ emissions), but the verdict never compares emissions | Sustainability Fund (score 72, 200 t) against Carbon Zero Index (score 65, 180 t): Sustainability Fund wins by 7 and is said to emit less, though it emits more | the message claims lower emissions only when the winner's emissions are strictly below the loser's | medium; not executed | `Comparator.AsWrittenEmissionClaimCanBeFalse` | `Comparator.ClaimsLowerEmissions` |

The verdict itself, meaning who wins and by how much, follows the code unchanged. `Comparator.CompareProducts` reports the corrected emission claim next to it.
