# Chart series derivations of the forecasting dashboard

This project models the series-derivation layer of the dashboard's front end,
`enhancement.js`. The dashboard loads one JSON snapshot and builds about a
dozen chart options from it. The model covers the logic that turns decoded
records into chart data:

- the payload normalisation: JSON text inside JSON, parsed with or without a
  guard, in place in the equity and seasonal charts;
- the prediction coercion, and the padded y-axis range of the model
  comparison chart;
- the percentile and five-number summary of the error box plot;
- the buy/sell partition of the signal chart, and its model selection state;
- the per-month buckets of the monthly heat maps;
- the two stacked lines of the confidence band;
- the signed cells and shared date axis of the sentiment heat map;
- the flattening of the correlation matrix;
- the net-value, drawdown and seasonal component series.

JavaScript values are the datatype `Js.Json`. A property that is absent is
`None` of an `Option<Json>`. A thrown exception is `Err` of a `Result`, and
the failure says which kind:

- `SyntaxError`: `JSON.parse` rejected its argument.
- `TypeError`: a property was read off `null`, or a value lacked the method
  the code calls (`map`, `forEach`, `slice`, `toFixed`).
- `Unsupported`: the real code goes on with a value the model does not
  follow: a NaN produced by a coercion, or the text of a number.

`JSON.parse` on text, `parseFloat` on text and the calendar fields of
`new Date(v)` are parameters, bundled in `Js.Builtins`. Every property below
holds whatever those functions return. An object's properties are an entry
list in `Object.keys` order.

Each chart is one module:

- `Payload` is the normaliser and the in-place parse, a class over the
  entry list.
- `Forecast`, `Boxplot`, `Correlation`, `Equity`, `Seasonal`, `Signal`,
  `Monthly`, `Confidence` and `Sentiment` are the charts.
- `Js`, `Lists` and `Results` hold the language's built-ins and the
  combinators the charts share.

Where the source mutates state, the model is imperative:

- the in-place parses;
- the `for...of` loop of the forecast chart;
- the `forEach` loops that push boxes, bucket the months and fill the
  sentiment cells;
- `currentModel`.

Each such method's result and new state are proved equal to functions of
its inputs. Those functions' properties are proved as lemmas.

Where the code and the system's documented intent differ, the model follows
the code:

- The degenerate-range padding is `Math.abs(dataMax * 0.05) || 10`. So 10 is
  used only when the value is 0. It is not the greater of the two.
- The ground-truth prices are filtered without their dates, so the date axis
  and the price line can fall out of step (`Forecast.DatesCanMisalign`).
- Only the forecast chart guards its parses. The equity, seasonal, error and
  confidence charts throw on bad JSON text.
- A throw in one chart aborts the whole load callback, so the charts after
  it are never built.
- The y-axis bounds are rounded to the nearest hundredth, which can exclude a
  value (see Findings). The chart model sets these bounds as the code does,
  and states beside them that the outward-rounded bounds would hold every value.
- The sentiment value is not bounded. It is the signed confidence written to
  four decimals.

## Model

| member | source | states |
|---|---|---|
| Js.Keys | enhancement.js:222 | `Object.keys`: one key per entry, in entry order |
| Js.Lookup | enhancement.js:450 | `obj[key]` is defined exactly when the key is present, and is that key's value |
| Js.OrZero | enhancement.js:241-242 | `v \|\| 0` is `v` when `v` is truthy and the number 0 otherwise |
| Js.Get | enhancement.js:737-740 | reading a property throws exactly on `null`; on a record it gives the field when present |
| Js.AsArray | enhancement.js:826 | only an array can be mapped or iterated; anything else throws a TypeError |
| Js.SliceTen | enhancement.js:303 | `slice(0, 10)` succeeds exactly on strings and arrays; on a string it is the 10-character prefix |
| Js.SliceDate | enhancement.js:451 | `item.date.slice(0, 10)` succeeds exactly on a record whose date is a string or array |
| Js.ParseFloat | enhancement.js:591 | `parseFloat` gives a number back unchanged, NaN on null, booleans and records, and reads text through the parameter |
| Js.ToNumeric | enhancement.js:457 | numeric conversion keeps numbers, turns `undefined` into NaN, `null` into 0 and booleans into 1 or 0, and marks texts, arrays and records unsupported |
| Js.ParseText | enhancement.js:223 | `JSON.parse` on a text gives the parser's value, or throws a SyntaxError when the parser rejects it |
| Js.JsonParse | enhancement.js:734 | `JSON.parse` parses a text, and an array through its comma-joined text; numbers, booleans and `null` read back as themselves; `undefined` and records throw a SyntaxError; only an array holding a number is unsupported |
| Js.ElementText | enhancement.js:379 | the text of an array element: a text is itself, `null` is empty, a boolean is "true" or "false", a record is "[object Object]", a one-element array is its element's text; it is missing exactly when a number is inside |
| Js.Join | enhancement.js:379 | `join(",")` of the element texts exists exactly when every element has one, and one element is its own join |
| Js.ParseSingleton | enhancement.js:223 | `JSON.parse([s])` on an array holding one text `s` is `JSON.parse(s)` |
| Js.Fixed | enhancement.js:154 | below 10^21, rounding moves a number by at most half of `1/unit` and keeps its sign; from 10^21 on it is the identity |
| Js.FixedSteps | enhancement.js:154 | below 10^21, the rounded number is a whole number of steps `1/unit`, so it has at most `d` decimals |
| Js.Round2 | enhancement.js:460 | `toFixed(2)` read back has at most two decimals, lies within 0.005 of the number and keeps its sign |
| Js.Round4 | enhancement.js:599 | `toFixed(4)` read back has at most four decimals, lies within 0.00005 of the number and keeps its sign |
| Js.IntToString | enhancement.js:597 | `String(year)` is digits with no leading zero, after a minus sign for a negative year |
| Js.IntToStringValue | enhancement.js:597 | the digits of `String(n)` read back as `n` |
| Js.IntToStringInjective | enhancement.js:597 | distinct years give distinct labels |
| Payload.NormalizeArray | enhancement.js:83-93 | an array is kept, text parsing to an array gives that array, and everything else gives `[]` |
| Payload.NormalizeIdempotent | enhancement.js:140-143 | normalising an already normalised payload changes nothing |
| Payload.ParseEntry | enhancement.js:223 | one in-place parse keeps the key and replaces the value by its parse, or throws what `JSON.parse` throws |
| Payload.JsObject.ParseValuesInPlace | enhancement.js:222-224 | the keys keep their order; on success every value is parsed; on the first value that does not parse, the earlier values are parsed, the later ones untouched, and that value's failure is the loop's |
| Forecast.Coerce | enhancement.js:147-154 | a `{value}` record, number or text is parsed and rounded to two decimals; null, booleans, arrays and records without `value` give NaN |
| Forecast.CleanPredictions | enhancement.js:146-156 | the cleaned list is no longer than the input |
| Forecast.CleanPredictionsInOrder | enhancement.js:146-156 | the cleaned list holds exactly the values that coerce, each from its own input position, in input order |
| Forecast.Predictions | enhancement.js:130-156 | a model's predictions throw only on a `null` record; a missing payload or text that fails to parse gives no points |
| Forecast.DateLabel | enhancement.js:96 | a falsy item or date gives 'N/A'; a non-empty date string gives its 10-character prefix |
| Forecast.TrueClose | enhancement.js:98 | a defined `close` is parsed; otherwise the value is NaN |
| Forecast.Padding | enhancement.js:191-194 | the padding is always positive: a twentieth of the range, or of `\|max\|` for a zero range, or 10 when that is 0 |
| Forecast.PaddedRange | enhancement.js:186-194 | the unrounded range is unset exactly when no value is finite, and otherwise lies strictly around every finite value |
| Forecast.DegeneratePadding | enhancement.js:191-194 | when every finite value equals `c`, the axis is `c ± \|c\|/20`, or ±10 at 0, so it is at least `0.1·\|c\|` wide |
| Forecast.RoundedRange | enhancement.js:196-197 | the bounds the code sets are unset exactly when no value is finite; each is a whole number of cents within half a cent of the padded bound |
| Forecast.RoundedRangeClips | enhancement.js:196-197 | a single price 0.004 gets the axis [0, 0], which does not contain it |
| Forecast.FloorCents | enhancement.js:196 | the largest two-decimal number not above `x` |
| Forecast.CeilCents | enhancement.js:197 | the smallest two-decimal number not below `x` |
| Forecast.AxisRange | enhancement.js:186-197 | the two-decimal bounds, rounded outward, stay within a hundredth of the padded ones and lie strictly around every finite value |
| Forecast.DegenerateAxis | enhancement.js:191-197 | with the outward rounding, equal values still get an axis at least `0.1·\|c\|` wide |
| Forecast.PredictionLinesSpec | enhancement.js:129-178 | one prediction line per model in key order, holding its cleaned predictions; the lines fail exactly when some model's data is `null` |
| Forecast.BuildForecast | enhancement.js:73-199 | no models give the placeholder; otherwise the dates, then the ground-truth line, then one line per model; the axis is the padded range of the plotted values rounded to the nearest cent, the padded range holds every finite plotted value, and so would the outward-rounded one |
| Forecast.AppendLine | enhancement.js:158-160 | pushing a line's values when it has any keeps `allValues` equal to the values of all lines so far |
| Forecast.AddPredictionLines | enhancement.js:129-178 | the loop over the models appends exactly the prediction lines and collects their values, or throws the first model's TypeError |
| Forecast.PushLine | enhancement.js:158-177 | one iteration appends the line and its values |
| Forecast.AxisHoldsEveryLine | enhancement.js:186-197 | the padded range of the collected values, and its outward rounding, hold every finite value of every line |
| Forecast.PlottedMember | enhancement.js:102-104 | each value of each line is among the collected values |
| Forecast.PlottedIndex | enhancement.js:158-160 | each collected value comes from some line |
| Forecast.DatesCanMisalign | enhancement.js:96-99 | a day with a `null` close keeps its date but loses its price, so the next price is drawn under it |
| Boxplot.Rank | enhancement.js:399 | the fractional rank lies between 0 and `n-1` |
| Boxplot.RankMonotone | enhancement.js:399 | a higher percentile has a higher rank |
| Boxplot.Ceil | enhancement.js:401 | `Math.ceil` is the least integer not below `x` |
| Boxplot.LerpBetween | enhancement.js:403 | interpolation at a fraction in [0, 1] stays between its end points |
| Boxplot.LerpMonotone | enhancement.js:403 | interpolation grows with the fraction |
| Boxplot.Percentile | enhancement.js:398-404 | percentile 0 is the first element and percentile 100 the last |
| Boxplot.PercentileBetween | enhancement.js:398-404 | on a sorted array the percentile lies between the elements at the floor and ceiling of its rank |
| Boxplot.PercentileMonotone | enhancement.js:398-404 | on a sorted array the percentile never decreases as `p` grows |
| Boxplot.BoxOrdered | enhancement.js:387-391 | `[min, q1, median, q3, max]` of sorted samples is non-decreasing |
| Boxplot.SummaryOfSamples | enhancement.js:384-391 | the box of the sorted samples is ordered and its whiskers are the samples' minimum and maximum |
| Boxplot.SortedEnds | enhancement.js:384-391 | the ends of a sorted permutation are the minimum and the maximum |
| Boxplot.Sample | enhancement.js:379 | a record's `close` is a sample exactly when it is a number; a `null` record throws |
| Boxplot.AsNumber | enhancement.js:384 | only number samples enter the comparator |
| Boxplot.Samples | enhancement.js:379 | the samples are the `close` of each record of the parsed `errors` array; a missing `errors` is a SyntaxError and a `null` model a TypeError |
| Boxplot.SortedSamples | enhancement.js:384 | the sorted copy of the samples |
| Boxplot.Read | enhancement.js:377-379 | each model, in key order, with its sorted samples or its failure |
| Boxplot.KeptBoxes | enhancement.js:377-395 | boxes are kept for at most every model; the first model that fails decides the failure |
| Boxplot.KeptBoxesSnoc | enhancement.js:381-394 | one more model adds its box exactly when it has samples |
| Boxplot.KeptBoxesFirstError | enhancement.js:377-379 | the first model that throws decides the result |
| Boxplot.Unzip | enhancement.js:393-394 | the categories and boxes line up with the kept models |
| Boxplot.UnzipSnoc | enhancement.js:393-394 | pushing one box and one category extends both lists |
| Boxplot.KeptModels | enhancement.js:381-395 | the boxes belong to exactly the models with samples, in key order, each the box of its own samples |
| Boxplot.ErrorChartShape | enhancement.js:377-395 | the chart names exactly the models with samples, in key order, each with an ordered box whose whiskers are its extremes; empty models add nothing |
| Boxplot.BuildErrorChart | enhancement.js:374-395 | the `forEach` that pushes categories and boxes builds exactly that chart |
| Correlation.RowCells | enhancement.js:60 | row `i` becomes `[i, j, value]` for every column `j` |
| Correlation.FlattenLength | enhancement.js:59-61 | there is one cell per matrix entry |
| Correlation.FlattenAt | enhancement.js:59-61 | entry `(i, j)` sits at the row-major position after all the entries of earlier rows |
| Correlation.FlattenIndex | enhancement.js:59-61 | every cell is the entry its coordinates name, at its row-major position |
| Correlation.CorrCells | enhancement.js:59-61 | a matrix of arrays flattens; anything else throws a TypeError |
| Equity.DateLabel | enhancement.js:229 | a truthy date string is cut to 10 characters, a falsy date gives '', and a `null` row throws |
| Equity.FieldOrZero | enhancement.js:241-242 | `item[key] \|\| 0` on a row that must not be `null` |
| Equity.ModelSeries | enhancement.js:240-263 | each model gives its net-value line and then its drawdown line, one point per row; it throws exactly on a non-array or a `null` row |
| Equity.EquityOf | enhancement.js:229-263 | the chart throws exactly when there is no model, when the first model's dates cannot be read, or when some model has a non-array or a `null` row |
| Equity.EquityShape | enhancement.js:229-263 | one date per row of the first model, and for each model in key order its net-value line then its drawdown line |
| Equity.BuildEquity | enhancement.js:222-263 | the backtest data is parsed in place with the keys unchanged, then the chart is built from the parsed data; a value that does not parse throws its own failure |
| Seasonal.Rows | enhancement.js:303-306 | a component is mapped only when it is an array |
| Seasonal.Component | enhancement.js:304-306 | each component value is the row's field or 0, one per row; it throws exactly on a `null` row |
| Seasonal.SeasonalOf | enhancement.js:303-306 | the axis holds the trend rows' sliced dates, the three components follow their own rows, and the failure conditions are stated in code order |
| Seasonal.BuildSeasonal | enhancement.js:299-306 | the payloads are parsed in place, then the chart is built from them; a value that does not parse throws its own failure |
| Signal.ModelRows | enhancement.js:450-451 | the selected model's data must be an array |
| Signal.ReadRow | enhancement.js:451-453 | the date slice is the only field read that can throw |
| Signal.Fires | enhancement.js:457 | a row fires on the buy side exactly when its signal is above 0, and on the sell side exactly when it is below 0; NaN fires on neither |
| Signal.Label | enhancement.js:460 | the marker label is the prediction to two decimals; a non-number throws |
| Signal.MarkerOf | enhancement.js:456-469 | a row has a marker exactly when it fires, at its own date and close |
| Signal.GenerateOption | enhancement.js:449-470 | one date and close per row, in row order, from the model and the data alone; the failure conditions are stated in code order |
| Signal.SidePartition | enhancement.js:456-470 | the markers of one side are exactly the rows that fire there, in row order |
| Signal.SignalPartition | enhancement.js:456-470 | buys are exactly the rows with a positive signal and sells exactly those with a negative one, in row order, and no row is both |
| Signal.SignalView.constructor | enhancement.js:446 | `currentModel` starts at the first key |
| Signal.SignalView.Render | enhancement.js:560 | the chart shows the option generated for `currentModel`, or keeps its option when generation throws |
| Signal.SignalView.Select | enhancement.js:552-555 | picking a model sets `currentModel` and regenerates the option |
| Monthly.MonthOf | enhancement.js:577-579 | the month of a row is the calendar month of its date; a `null` row throws |
| Monthly.ReturnOf | enhancement.js:591 | a missing or falsy return counts as 0 |
| Monthly.ReadRow | enhancement.js:576-591 | a row reads as its month and its return |
| Monthly.Buckets | enhancement.js:576-593 | the buckets exist exactly when every row's return reads |
| Monthly.BumpKeys | enhancement.js:582-592 | adding a row keeps every key listed once and adds the row's month |
| Monthly.FoldKeys | enhancement.js:576-593 | there is one bucket per distinct month of the rows, each listed once |
| Monthly.FirstSeen | enhancement.js:582-589 | the position of the first reading of a month, or the number of readings when it has none |
| Monthly.FoldOrder | enhancement.js:582-596 | `Object.values` lists the buckets in the order their months first appear among the rows |
| Monthly.FoldTotals | enhancement.js:576-593 | each bucket's count is its number of rows, and its total is the sum of their returns |
| Monthly.BumpTotal | enhancement.js:591-592 | each row adds one to the sum of the counts |
| Monthly.FoldConserve | enhancement.js:576-593 | the bucket counts add up to the number of rows |
| Monthly.Accumulate | enhancement.js:573-593 | the `forEach` that fills the dictionary in place builds exactly the buckets of the rows, or throws what the first bad row throws |
| Monthly.Record | enhancement.js:582-592 | one row creates its bucket empty when new, then adds its return and bumps the count |
| Monthly.Cells | enhancement.js:596-600 | one cell per key, in key order, with the year text, the month and the rounded mean |
| Monthly.YearAxis | enhancement.js:602 | the years are the distinct year labels, strictly sorted |
| Monthly.ColourRange | enhancement.js:603-605 | the colour range is [0, 1] with no cell, and otherwise the least and greatest cell value |
| Monthly.HeatmapOf | enhancement.js:596-605 | the heat map has the cells, a sorted distinct year axis, and a colour range that bounds every cell |
| Monthly.ModelHeatmap | enhancement.js:572-605 | one model's heat map exists exactly when its data is an array whose returns all read |
| Monthly.FoldMeans | enhancement.js:576-600 | each cell is the mean of the returns of its month's readings, to four decimals; every reading's month has a cell |
| Monthly.FoldCells | enhancement.js:576-600 | the counts add up to the readings, so there are no more cells than rows |
| Monthly.HeatmapMeans | enhancement.js:572-600 | each cell of a model's heat map is the rounded mean of the returns of one month of its rows; the counts sum to the number of rows, so there are no more cells than rows |
| Monthly.FoldCovers | enhancement.js:576-600 | every reading's month has a cell holding that month's rounded mean |
| Monthly.HeatmapCovers | enhancement.js:572-600 | every row's month has a cell in the model's heat map, holding the rounded mean of that month's returns |
| Monthly.RowReadings | enhancement.js:576-593 | the readings behind the buckets are those of the rows, in row order |
| Monthly.BuildHeatmap | enhancement.js:572-605 | one model's pass computes exactly its heat map |
| Monthly.BuildHeatmaps | enhancement.js:571-649 | one heat map per model in key order; when a model throws, the heat maps of the models before it, already rendered, are returned with its failure |
| Confidence.Minus | enhancement.js:740 | `upper - lower` is NaN when either side is, and the difference of the numbers otherwise |
| Confidence.Process | enhancement.js:736-741 | a record reads as its date, bounds and width; a `null` record throws |
| Confidence.Baseline | enhancement.js:744 | the baseline point of each interval is `(date, lower)` |
| Confidence.Band | enhancement.js:745-749 | each band point is `(date, delta)`, carrying both bounds |
| Confidence.ConfidenceOf | enhancement.js:734-749 | the payload is parsed and must be an array; then baseline and band have one point per record, in order |
| Confidence.BandStacks | enhancement.js:736-749 | the baseline sits at the lower bound, and with numeric bounds, lower plus band width is the upper bound |
| Sentiment.SignedValue | enhancement.js:828-832 | `direction === 1` keeps the confidence, which must be a number; anything else negates it; the result is written to four decimals |
| Sentiment.SignFollowsDirection | enhancement.js:830 | for a non-negative confidence, a rising item is non-negative and any other is non-positive, within rounding of the signed confidence |
| Sentiment.CellOf | enhancement.js:826-832 | an item's cell holds its date, its model and its signed value; a `null` item throws |
| Sentiment.ModelCells | enhancement.js:826-834 | a model's data must be an array; it gives one cell per item |
| Sentiment.DateText | enhancement.js:837 | only string dates are compared |
| Sentiment.DateAxis | enhancement.js:837 | the sorted set of dates is strictly sorted and holds exactly the collected string dates |
| Sentiment.SeenDates | enhancement.js:833-837 | the date set holds exactly the cells' dates, so the axis holds exactly the string dates of the cells |
| Sentiment.AllCells | enhancement.js:825-835 | the cells of all models, in key order |
| Sentiment.SentimentOf | enhancement.js:819-837 | the chart has the cells, the models in key order and a strictly sorted axis holding exactly the cells' dates |
| Sentiment.OneCellPerItem | enhancement.js:825-835 | exactly one cell per item: item `j` of model `m` is the cell after the cells of earlier models |
| Sentiment.SeenSnoc | enhancement.js:833 | adding a date to the set appends it unless it is already there |
| Sentiment.Push | enhancement.js:832-833 | one item pushes its cell and adds its date |
| Sentiment.AddModel | enhancement.js:825-835 | one model's entry throws `TypeError` when it is not an array, and otherwise appends exactly its cells and keeps the date set right |
| Sentiment.PushModel | enhancement.js:826-834 | one model's `forEach` appends exactly its cells and keeps the date set right, or throws what the first bad item throws |
| Sentiment.BuildSentiment | enhancement.js:818-837 | the nested loops and the sort build exactly the chart |
| Lists.SortDistinct | enhancement.js:602 | `[...new Set(xs)].sort()` is strictly sorted and has the same members |
| Lists.StrictlySortedUnique | enhancement.js:837 | two strictly sorted lists with the same members are equal |
| Lists.Dedup | enhancement.js:820-833 | a `Set`'s insertion order holds every element once |

## Left out

- `main.py` is not part of this model. It trains the models and writes the snapshot.
- The price chart, the radar chart and its tooltip wiring, titles, tooltips, legends, colours and styles are left out. They only configure ECharts.
- `fetch`, `echarts.init`, `setOption` on the DOM, the resize listener and the selector's `<option>` elements are left out. The view state is kept as `Signal.SignalView`.
- The missing-container warning of the monthly heat maps (enhancement.js:643-648) is left out. It only logs.
- `getRandomColor` is random and only colours the drawdown area, so it is left out.
- The order of the chart calls in the load callback (enhancement.js:12-26) is not composed into one function. The signal and monthly charts take the backtest entries that `Equity.BuildEquity` has already parsed in place.
- Js.Fixed: rounding is exact decimal rounding of a real number. The model does not follow the binary double the real `toFixed` rounds, nor its text form.
- Js.JsonParse: an array holding a number, at any depth, is `Unsupported`, because the model does not write numbers as text.
- Js.ToNumeric: converting a text, an array or a record to a number is `Unsupported`. JavaScript gives a number or NaN there.
- Monthly.ReturnOf: a return that reads as NaN or an infinity is `Unsupported`. The real code would put NaN or an infinity into the bucket's total.
- Boxplot.Sample: samples that are not numbers are `Unsupported` or a TypeError. The real comparator `a - b` would sort them in some order.
- Sentiment.DateText: a date that is not a string is `Unsupported`. The real sort puts a missing date (`undefined`) last without comparing it, and compares any other value, such as `null` or a number, as its text.
- Monthly.MonthOf: the key `${year}-${month}` is the calendar month itself. Distinct months give distinct keys, and every invalid date shares the key `NaN-NaN`.
- `JSON.parse` on text, `parseFloat` on text and `new Date(v)` are parameters, not written out.
- Lists.LexLess: the sort order is code point by code point. JavaScript compares UTF-16 code units, which agree on the Basic Multilingual Plane.
- Object key order is the order of the given entry list. JavaScript puts integer-like keys first.
- Monthly.ColourRange, Forecast.PaddedRange, Forecast.RoundedRange: the argument-count limit of `Math.min(...values)` and `Math.max(...values)` is not modelled (enhancement.js:189-190 for the forecast axis).
- Signal.SignalView: the view keeps the backtest entries it was given. Later changes to the shared object are not followed.
- The sentiment value is a number, `None` standing for the text "NaN". The model does not keep the text that `toFixed(4)` writes.

## Findings

| source | as written | input that shows it | evidently intended | confidence | as-written member | corrected member |
|---|---|---|---|---|---|---|
| enhancement.js:196-197 | the padded bounds are each rounded to the nearest hundredth | a single finite price 0.004: padding 0.0002, axis [0, 0] | the axis holds every plotted value after rounding: round the lower bound down and the upper bound up | not executed | Forecast.RoundedRangeClips | Forecast.AxisRange |
