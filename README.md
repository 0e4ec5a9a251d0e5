# Statistics-page arithmetic of the TJA chart editor

The TJA editor parses a rhythm-game chart (a TJA file), analyses one
difficulty course and shows a statistics page for it. This project models
the integer arithmetic that the statistics page (`buildStatisticsPage` in
`src/js/main.js`) performs on the analyser's output, and proves what it
computes:

- the **theoretical maximum score**: `drop1` truncates to a multiple of ten;
  five multiplier tiers `[0, 1, 2, 4, 8]` give per-tier note values
  `drop1(scoreInit + scoreDiff * m)`; gogo-time values are `drop1` of 1.2
  times the *already truncated* value; the total weights the non-gogo and
  gogo tier counts by those values, adds 300/360 per balloon hit counted at
  index 0/1, 5000/6000 per balloon popped at index 0/1 and 10000 per
  complete 100 combo
  (module `Score`, `score.dfy`);
- the **don and kat totals** from the four note counters (module
  `Statistics`, `statistics.dfy`, which also holds the statistics record);
- the **y axis of the density graph**: its ceiling rounded up to a multiple
  of five and a tick at every multiple of five up to it (module `Axis`,
  `axis.dfy`).

The analyser's result is the datatype `Statistics.Stats` (total combo, four
note counters, and the scoring tallies `score.notes[2][5]`, `balloon[2]`,
`balloonPop[2]`); JavaScript arrays are sequences and
`Statistics.WellFormed` states the shape the page indexes into. The course's
`scoreInit` and `scoreDiff` headers are `Statistics.Headers`, as unbounded
integers. The page computes with JavaScript numbers; on these integer inputs
`Math.floor(n / 10)` is Dafny's `n / 10` (both floor, also for negative `n`),
and the gogo product `s * 1.2` is modelled as `s * 6 / 5`, which is exact
because `s` is always a multiple of ten. `map` and `reduce` over the tier
arrays become `Score.Weighted` and the left fold `Statistics.Sum`;
`[...Array(n).keys()]` becomes `Axis.Keys`.

The code has five multiplier tiers `[0, 1, 2, 4, 8]`; the first tier scores
the bare `scoreInit`. The two balloon indices are priced 300/360 per hit and
5000/6000 per pop; which balloons the analyser counts under each index is
decided by the analyser, so the model refers to them by index only.

## Model

| member | source | states |
|---|---|---|
| Statistics.DonKatTotals | src/js/main.js:121-127 | `statDon` is the sum of the don counters (indices 0 and 2), `statKat` that of the kat counters (1 and 3), and together they are the sum of all four counters |
| Statistics.StatDon | src/js/main.js:126 | `statDon`; specified by `DonKatTotals`: the total of the don counters at indices 0 and 2 |
| Statistics.StatKat | src/js/main.js:127 | `statKat`; specified by `DonKatTotals`: the total of the kat counters at indices 1 and 3 |
| Statistics.Sum | src/js/main.js:108-109 | the `reduce` left fold with `+`; specified by `SumNonNegative`, `SumMonotone`, `SumUpdate` and `SumOfFive` |
| Statistics.SidesPartition | src/js/main.js:126-127 | every note counter is counted on exactly one side: don total plus kat total is the total of all counters |
| Score.Drop1 | src/js/main.js:103 | `drop1(n)` is a multiple of ten, at most `n`, and less than ten below `n` |
| Score.Drop1Greatest | src/js/main.js:103 | every multiple of ten that does not exceed `n` is at most `drop1(n)`: it is the greatest one |
| Score.Drop1Monotone | src/js/main.js:103 | `drop1` is monotone |
| Score.Drop1Idempotent | src/js/main.js:103 | `drop1(drop1(n)) == drop1(n)` |
| Score.Drop1Fixed | src/js/main.js:103 | a multiple of ten is left unchanged by `drop1` |
| Score.Multipliers | src/js/main.js:104 | the five multiplier tiers `[0, 1, 2, 4, 8]`, a constant; its entries enter every property through `RawValue` and `NoteScores` |
| Score.RawValue | src/js/main.js:104-105 | `scoreInit + scoreDiff * multipliers[i]` before truncation; specified through `NoteScores`, whose entries are the greatest multiples of ten not above it |
| Score.NoteScores | src/js/main.js:104-105 | one value per multiplier tier, each the greatest multiple of ten not above `scoreInit + scoreDiff * multiplier` |
| Score.GogoValue | src/js/main.js:106 | the gogo value of `s` is the greatest multiple of ten not above `1.2 * s` |
| Score.GogoScores | src/js/main.js:106 | one gogo value per tier, each the greatest multiple of ten not above 1.2 times that tier's truncated note value |
| Score.TruncateFirstNeverMore | src/js/main.js:105-106 | for every raw value, the gogo value of the truncated value is at most the truncation of 1.2 times the raw value |
| Score.TierValuesNonDecreasing | src/js/main.js:104-106 | with `scoreDiff >= 0` both the note values and the gogo values are non-decreasing across the tiers |
| Score.GogoAtLeastBase | src/js/main.js:106 | a non-negative truncated value is not lowered by the gogo boost |
| Score.TierValuesNonNegative | src/js/main.js:104-106 | with non-negative headers every note value is non-negative and at most its gogo value |
| Score.QuadrupleTierExample | src/js/main.js:103-106 | With scoreInit 100 and scoreDiff 20 the multiplier-4 tier is worth 180 outside gogo time and 210 inside it. |
| Score.TruncationOrderMatters | src/js/main.js:105-106 | For a raw value of 109 the gogo value is 120, whereas boosting the raw value and truncating once would give 130. |
| Score.Weighted | src/js/main.js:108-109 | the per-tier products have one entry per tier value |
| Score.SumNonNegative | src/js/main.js:108-109 | the `reduce` sum of non-negative terms is non-negative |
| Score.SumMonotone | src/js/main.js:108-109 | the `reduce` sum is monotone in every term |
| Score.SumUpdate | src/js/main.js:108-109 | changing one term changes the `reduce` sum by exactly the difference |
| Score.SumOfFive | src/js/main.js:108-109 | the `reduce` sum over five tiers is the five terms added up |
| Score.WeightedSumMonotone | src/js/main.js:108-109 | with non-negative tier values the weighted tier sum is non-negative and monotone in the counts |
| Score.MaxScore | src/js/main.js:107-115 | `statPotential`; specified by `MaxScoreExpanded`, `MaxScoreNonNegative`, `MaxScoreMonotone` and the `Raise*Score` lemmas |
| Score.Milestone | src/js/main.js:114 | the combo bonus `Math.floor(totalCombo / 100) * 10000`; specified by `MilestoneBelowHundred`, `MilestoneStep`, `MilestoneBetweenHundreds` and `MilestoneMonotone` |
| Score.MaxScoreExpanded | src/js/main.js:107-115 | `statPotential` is the non-gogo counts times the note values, plus the gogo counts times the gogo values, plus 300/360 per balloon hit and 5000/6000 per pop, plus 10000 per complete 100 combo |
| Score.MaxScoreNonNegative | src/js/main.js:107-115 | with non-negative `scoreInit` and `scoreDiff` the maximum score is non-negative |
| Score.MaxScoreMonotone | src/js/main.js:107-115 | with non-negative headers, a record with at least as many of every scoring count has at least the maximum score |
| Score.RaiseTierScore | src/js/main.js:104-109 | raising one tier count by `d` raises the maximum score by exactly `d` times that tier's (gogo or non-gogo) value; every other term is unchanged |
| Score.RaiseBalloonScore | src/js/main.js:110-111 | `d` more balloon hits at index 0/1 raise the maximum score by exactly `300 * d` / `360 * d` |
| Score.RaisePopScore | src/js/main.js:112-113 | `d` more popped balloons at index 0/1 raise the maximum score by exactly `5000 * d` / `6000 * d` |
| Score.RaiseComboScore | src/js/main.js:114 | a longer combo changes only the combo bonus term and never lowers the maximum score |
| Score.NoteCountersDoNotScore | src/js/main.js:107-115 | the four note counters do not enter the maximum score |
| Score.MilestoneMonotone | src/js/main.js:114 | the combo bonus does not decrease as the combo grows |
| Score.MilestoneBelowHundred | src/js/main.js:114 | a combo below 100 earns no bonus |
| Score.MilestoneStep | src/js/main.js:114 | 100 more combo adds exactly 10000 |
| Score.MilestoneBetweenHundreds | src/js/main.js:114 | for `100k <= combo < 100k + 100` the bonus is exactly `10000k`: constant between multiples of 100 |
| Axis.YMax | src/js/main.js:150 | the axis ceiling is a multiple of five, not below the graph maximum and less than five above it |
| Axis.YMaxLeast | src/js/main.js:150 | every multiple of five not below the graph maximum is at least the ceiling: it is the least one |
| Axis.YMaxFixed | src/js/main.js:150 | a graph maximum that is already a multiple of five is the ceiling itself |
| Axis.Keys | src/js/main.js:151 | `[...Array(n).keys()]` is `0, 1, …, n - 1` |
| Axis.YTickValues | src/js/main.js:151 | `yMax / 5 + 1` ticks, from 0 to `yMax`, strictly increasing, all multiples of five, and every multiple of five in `[0, yMax]` is a tick |
| Axis.AxisCoversGraph | src/js/main.js:150-151 | the ticks for a graph maximum start at 0 and end at the ceiling, which covers the maximum by less than one step of five |

## Left out

- The chart parser and the chart analyser (`parseTJA`, `analyseChart`) and the chart renderer (`drawChart`): their source files are not part of this model, so the `Stats` record and `graph.max` are inputs here, not computed.
- Axis.YMax: takes `graph.max` as a natural number (the analyser's largest per-bin note count); a negative or non-integral maximum, or one from an empty graph, is not modelled.
- Floating-point statistics and their formatting: don/kat ratios, density, chart length, renda durations and their sum, balloon hit rates, `toFixed` and string joins, and the trailing space added to the score text when a chart has no rendas — floating point and presentation.
- The d3 scales, stack layout and SVG construction of the graph, and all DOM and umbrellajs access — user interface.
- File drop, `FileReader`, `Buffer`, charset detection and decoding — I/O and foreign libraries.
- The font-loading promise and the auto-scroll timer — asynchronous browser APIs.
- The event handlers and `processTJA`, which reassign the module-level parse result, selected difficulty and selected page, and the error display in their `try`/`catch` blocks — UI state and exception forwarding.
- JavaScript numbers are doubles: the model uses unbounded integers, so counts and scores beyond 2^53 (where doubles lose integer precision) are not modelled.
