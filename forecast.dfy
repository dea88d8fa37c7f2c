/** The model-comparison chart (`initForecastChart`, enhancement.js:69-216): the
    ground-truth closing prices of the first model, one cleaned prediction line
    per model, and a y-axis range padded around every finite value plotted. */
module Forecast {
  import opened Results
  import opened Js
  import opened Lists
  import Payload

  // ---------------------------------------------------------------- coercion

  /** One prediction value: a record's `value` field, or a number or text, read
      with `parseFloat`; anything else is NaN.  Arrays are objects in JavaScript
      but have no `value` field.  A number that parses is rounded to two
      decimals. */
  function Coerce(val: Json, env: Builtins): (r: Option<Num>)
    ensures val.JNull? || val.JBool? || val.JArr? ==> r == None
    ensures val.JObj? && "value" !in val.fields ==> r == None
    ensures r.Some? && r.value.Fin? ==>
      exists x :: Raw(val, env) == Some(Fin(x)) && r.value.r == Round2(x)
    ensures r.Some? && !r.value.Fin? ==> r == Raw(val, env)
    ensures r.None? <==> Raw(val, env).None?
  {
    match Raw(val, env)
    case None => None
    case Some(Fin(x)) => Some(Fin(Round2(x)))
    case Some(inf) => Some(inf)
  }

  /** The value `parseFloat` reads out of a prediction before rounding. */
  function Raw(val: Json, env: Builtins): Option<Num>
  {
    match val
    case JObj(m) => if "value" in m then ParseFloat(m["value"], env) else None
    case JNum(_) => ParseFloat(val, env)
    case JStr(_) => ParseFloat(val, env)
    case _ => None
  }

  function CoerceWith(env: Builtins): Json -> Option<Num>
  {
    v => Coerce(v, env)
  }

  /** `.map(coerce).filter(v => !isNaN(v))`. */
  function CleanPredictions(vals: seq<Json>, env: Builtins): (r: seq<Num>)
    ensures |r| <= |vals|
  {
    FilterMap(vals, CoerceWith(env))
  }

  /** The cleaned list holds exactly the values that coerce, each at the place
      of its source, in input order. */
  lemma CleanPredictionsInOrder(vals: seq<Json>, env: Builtins) returns (idx: seq<int>)
    ensures |idx| == |CleanPredictions(vals, env)|
    ensures forall k :: 0 <= k < |idx| ==>
      0 <= idx[k] < |vals| && Coerce(vals[idx[k]], env) == Some(CleanPredictions(vals, env)[k])
    ensures forall k, l :: 0 <= k < l < |idx| ==> idx[k] < idx[l]
    ensures forall i :: 0 <= i < |vals| && Coerce(vals[i], env).Some? ==> i in idx
  {
    idx := FilterMapSelects(vals, CoerceWith(env));
  }

  /** The predictions of a model's `pred` payload.  A text that does not parse,
      or a payload that is not an array, gives no points and no error. */
  function Predictions(dataObj: Json, env: Builtins): (r: Result<seq<Num>>)
    ensures r.Err? <==> dataObj == JNull
    ensures r.Ok? && (!dataObj.JObj? || "pred" !in dataObj.fields) ==> r.value == []
    ensures (r.Ok? && dataObj.JObj? && "pred" in dataObj.fields && dataObj.fields["pred"].JStr? &&
             env.parseJson(dataObj.fields["pred"].s).None?) ==> r.value == []
  {
    var raw :- Get(dataObj, "pred");
    Ok(CleanPredictions(Payload.NormalizeArray(raw, env), env))
  }

  // ---------------------------------------------------------------- ground truth

  /** `item && item.date ? item.date.slice(0, 10) : 'N/A'`. */
  function DateLabel(item: Json): (r: Result<Json>)
    ensures !Truthy(item) ==> r == Ok(JStr("N/A"))
    ensures item.JObj? && "date" in item.fields && item.fields["date"].JStr? && item.fields["date"].s != ""
      ==> r == Ok(JStr(Prefix10(item.fields["date"].s)))
    ensures Truthy(item) && (!item.JObj? || "date" !in item.fields || !Truthy(item.fields["date"]))
      ==> r == Ok(JStr("N/A"))
    ensures r.Err? ==> r.failure == TypeError
  {
    if !Truthy(item) then Ok(JStr("N/A"))
    else
      var date := Get(item, "date").value;
      if TruthyOpt(date) then SliceTen(date) else Ok(JStr("N/A"))
  }

  /** `item && typeof item.close !== 'undefined' ? parseFloat(item.close) : NaN`. */
  function TrueClose(item: Json, env: Builtins): (r: Option<Num>)
    ensures item.JObj? && "close" in item.fields ==> r == ParseFloat(item.fields["close"], env)
    ensures !item.JObj? || "close" !in item.fields ==> r == None
  {
    if item.JObj? && "close" in item.fields then ParseFloat(item.fields["close"], env) else None
  }

  function TrueCloseWith(env: Builtins): Json -> Option<Num>
  {
    item => TrueClose(item, env)
  }

  // ---------------------------------------------------------------- axis range

  datatype Bounds = Bounds(min: real, max: real)

  function FiniteOf(v: Num): Option<real>
  {
    if v.Fin? then Some(v.r) else None
  }

  function Abs(x: real): real
  {
    if x < 0.0 then -x else x
  }

  /** `range === 0 ? (Math.abs(dataMax * 0.05) || 10) : range * 0.05`. */
  function Padding(lo: real, hi: real): (pad: real)
    requires lo <= hi
    ensures pad > 0.0
    ensures lo < hi ==> pad == (hi - lo) * 0.05
    ensures lo == hi && hi != 0.0 ==> pad == Abs(hi) * 0.05
    ensures lo == hi == 0.0 ==> pad == 10.0
  {
    if hi - lo == 0.0 then
      (if Abs(hi * 0.05) != 0.0 then Abs(hi * 0.05) else 10.0)
    else (hi - lo) * 0.05
  }

  /** `dataMin - padding` and `dataMax + padding` over the finite values, before
      the bounds are rounded; no finite value leaves the range unset. */
  function PaddedRange(values: seq<Num>): (r: Option<Bounds>)
    ensures r.None? <==> forall i :: 0 <= i < |values| ==> !values[i].Fin?
    ensures r.Some? ==> forall i :: 0 <= i < |values| && values[i].Fin? ==>
      r.value.min < values[i].r < r.value.max
  {
    var finite := FilterMap(values, FiniteOf);
    FilterMapMembers(values, FiniteOf);
    if finite == [] then None
    else
      var lo := Min(finite);
      var hi := Max(finite);
      var pad := Padding(lo, hi);
      Some(Bounds(lo - pad, hi + pad))
  }

  /** When every finite value equals `c`, the padding still opens the axis:
      by a twentieth of `|c|` on each side, or by 10 when `c` is 0. */
  lemma DegeneratePadding(values: seq<Num>, c: real)
    requires Fin(c) in values
    requires forall i :: 0 <= i < |values| && values[i].Fin? ==> values[i].r == c
    ensures PaddedRange(values) ==
      Some(if c == 0.0 then Bounds(-10.0, 10.0) else Bounds(c - Abs(c) * 0.05, c + Abs(c) * 0.05))
    ensures PaddedRange(values).value.max - PaddedRange(values).value.min >= 0.1 * Abs(c)
  {
    var finite := FilterMap(values, FiniteOf);
    FilterMapMembers(values, FiniteOf);
    var i :| 0 <= i < |values| && values[i] == Fin(c);
    assert FiniteOf(values[i]).Some?;
    assert c in finite;
    forall k | 0 <= k < |finite| ensures finite[k] == c {
      var j :| 0 <= j < |values| && FiniteOf(values[j]) == Some(finite[k]);
    }
    assert Min(finite) == c && Max(finite) == c;
  }

  /** The range the chart is given: both padded bounds rounded to two decimals
      (enhancement.js:196-197).  It is unset exactly when no value is finite,
      and each bound is a whole number of cents at most half a cent from the
      padded one. */
  function RoundedRange(values: seq<Num>): (r: Option<Bounds>)
    ensures r.None? <==> forall i :: 0 <= i < |values| ==> !values[i].Fin?
    ensures r.Some? ==>
      var b := PaddedRange(values).value;
      && (-1_000_000_000_000_000_000_000.0 < b.min < 1_000_000_000_000_000_000_000.0 ==>
            -0.005 <= r.value.min - b.min <= 0.005 && MultipleOf(r.value.min, 100.0))
      && (-1_000_000_000_000_000_000_000.0 < b.max < 1_000_000_000_000_000_000_000.0 ==>
            -0.005 <= r.value.max - b.max <= 0.005 && MultipleOf(r.value.max, 100.0))
  {
    match PaddedRange(values)
    case None => None
    case Some(b) => Some(Bounds(Round2(b.min), Round2(b.max)))
  }

  /** Rounding to the nearest hundredth can move a bound past the data: a
      single finite price of 0.004 gets a zero-height axis from 0 to 0 that
      does not contain it. */
  lemma RoundedRangeClips()
    ensures RoundedRange([Fin(0.004)]) == Some(Bounds(0.0, 0.0))
    ensures !(RoundedRange([Fin(0.004)]).value.max >= 0.004)
  {
    var b := PaddedRange([Fin(0.004)]);
    DegeneratePadding([Fin(0.004)], 0.004);
    assert b == Some(Bounds(0.0038, 0.0042));
    assert (0.0038 * 100.0 + 0.5).Floor == 0;
    assert (0.0042 * 100.0 + 0.5).Floor == 0;
  }

  /** The largest multiple of 0.01 not above `x`. */
  function FloorCents(x: real): (r: real)
    ensures r <= x < r + 0.01
    ensures MultipleOf(r, 100.0)
  {
    var n := (x * 100.0).Floor;
    assert (n as real / 100.0) * 100.0 == n as real;
    n as real / 100.0
  }

  /** The smallest multiple of 0.01 not below `x`. */
  function CeilCents(x: real): (r: real)
    ensures r - 0.01 < x <= r
    ensures MultipleOf(r, 100.0)
  {
    var n := -((-x * 100.0).Floor);
    assert (n as real / 100.0) * 100.0 == n as real;
    n as real / 100.0
  }

  /** The bounds the chart evidently intends: padded, and kept to two decimals
      by rounding the lower bound down and the upper bound up, so the axis still
      holds every finite value. */
  function AxisRange(values: seq<Num>): (r: Option<Bounds>)
    ensures r.None? <==> forall i :: 0 <= i < |values| ==> !values[i].Fin?
    ensures r.Some? ==> forall i :: 0 <= i < |values| && values[i].Fin? ==>
      r.value.min < values[i].r < r.value.max
    ensures r.Some? ==>
      r.value.min <= PaddedRange(values).value.min < r.value.min + 0.01 &&
      r.value.max - 0.01 < PaddedRange(values).value.max <= r.value.max
  {
    match PaddedRange(values)
    case None => None
    case Some(b) => Some(Bounds(FloorCents(b.min), CeilCents(b.max)))
  }

  /** With the two-decimal bounds kept outward, one equal value still has an
      axis at least a tenth of its magnitude wide. */
  lemma DegenerateAxis(values: seq<Num>, c: real)
    requires Fin(c) in values
    requires forall i :: 0 <= i < |values| && values[i].Fin? ==> values[i].r == c
    ensures AxisRange(values).Some?
    ensures AxisRange(values).value.max - AxisRange(values).value.min >= 0.1 * Abs(c)
    ensures AxisRange(values).value.max > AxisRange(values).value.min
  {
    DegeneratePadding(values, c);
  }

  // ---------------------------------------------------------------- the chart

  datatype SeriesName = TrueValues | Predicted(model: string)

  datatype Line = Line(name: SeriesName, data: seq<Num>)

  datatype ForecastChart =
    | NoModelData                  // the "no data" placeholder title (enhancement.js:73-77)
    | Forecast(dates: seq<Json>, series: seq<Line>, yRange: Option<Bounds>)

  /** Every value of every line, line after line (`allValues`). */
  function Plotted(series: seq<Line>): seq<Num>
    decreases |series|
  {
    if series == [] then [] else Plotted(series[..|series| - 1]) + series[|series| - 1].data
  }

  /** The y-axis is unset exactly when no line has a finite value, and
      otherwise lies strictly around every finite value of every line. */
  predicate AxisHoldsLines(series: seq<Line>, yRange: Option<Bounds>)
  {
    && (yRange.None? <==>
          forall k, j :: 0 <= k < |series| && 0 <= j < |series[k].data| ==> !series[k].data[j].Fin?)
    && (forall k, j :: 0 <= k < |series| && 0 <= j < |series[k].data| && series[k].data[j].Fin? ==>
          yRange.Some? && yRange.value.min < series[k].data[j].r < yRange.value.max)
  }

  /** The first model's ground-truth items, as normalised. */
  function TrueItems(md: Entries, env: Builtins): Result<seq<Json>>
    requires md != []
  {
    var raw :- Get(md[0].1, "true");
    Ok(Payload.NormalizeArray(raw, env))
  }

  /** The prediction lines of the models in key order, or the exception of the
      first model whose data is `null`. */
  function PredictionLines(md: Entries, env: Builtins): Result<seq<Line>>
    decreases |md|
  {
    if md == [] then Ok([])
    else
      var before :- PredictionLines(md[..|md| - 1], env);
      var data :- Predictions(md[|md| - 1].1, env);
      Ok(before + [Line(Predicted(md[|md| - 1].0), data)])
  }

  /** The lines exist exactly when every model's data can be read; then there
      is one per model, in key order, holding that model's cleaned
      predictions; otherwise the exception is a `TypeError`. */
  lemma {:induction false} PredictionLinesSpec(md: Entries, env: Builtins)
    ensures PredictionLines(md, env).Ok? <==> forall k :: 0 <= k < |md| ==> Predictions(md[k].1, env).Ok?
    ensures PredictionLines(md, env).Err? ==> PredictionLines(md, env).failure == TypeError
    ensures PredictionLines(md, env).Ok? ==>
      && |PredictionLines(md, env).value| == |md|
      && forall k :: 0 <= k < |md| ==>
           PredictionLines(md, env).value[k] == Line(Predicted(md[k].0), Predictions(md[k].1, env).value)
    decreases |md|
  {
    if md != [] {
      var n := |md| - 1;
      var init := md[..n];
      PredictionLinesSpec(init, env);
      assert forall k :: 0 <= k < n ==> init[k] == md[k];
    }
  }

  /** One more model either extends the lines of the models before it or throws. */
  lemma PredictionLinesSnoc(md: Entries, env: Builtins, k: nat)
    requires k < |md|
    ensures PredictionLines(md[..k + 1], env) ==
      match PredictionLines(md[..k], env)
      case Err(e) => Err(e)
      case Ok(before) =>
        (match Predictions(md[k].1, env)
         case Err(e) => Err(e)
         case Ok(data) => Ok(before + [Line(Predicted(md[k].0), data)]))
  {
    assert md[..k + 1][..k] == md[..k];
  }

  /** Everything the chart needs from the data, or the exception that stops it. */
  predicate Succeeds(md: Entries, env: Builtins)
    requires md != []
  {
    && TrueItems(md, env).Ok?
    && MapResult(TrueItems(md, env).value, DateLabel).Ok?
    && forall k :: 0 <= k < |md| ==> Predictions(md[k].1, env).Ok?
  }

  /** The chart for `model_results`, given as its entries in key order (`None`
      when the field is absent or null).  The first line is the ground truth,
      then one line per model in key order; the axis holds every finite value of
      every line. */
  method BuildForecast(modelData: Option<Entries>, env: Builtins) returns (r: Result<ForecastChart>)
    ensures modelData.None? || modelData.value == [] ==> r == Ok(NoModelData)
    ensures r.Err? ==> r.failure == TypeError
    ensures modelData.Some? && modelData.value != [] ==>
      (r.Ok? <==> Succeeds(modelData.value, env))
    ensures modelData.Some? && modelData.value != [] && r.Ok? ==>
      var md := modelData.value;
      var items := TrueItems(md, env).value;
      && r.value.Forecast?
      && r.value.dates == MapResult(items, DateLabel).value
      && |r.value.series| == |md| + 1
      && r.value.series[0] == Line(TrueValues, FilterMap(items, TrueCloseWith(env)))
      && (forall k :: 0 <= k < |md| ==>
            r.value.series[k + 1] == Line(Predicted(md[k].0), Predictions(md[k].1, env).value))
    ensures r.Ok? && r.value.Forecast? ==>
      && r.value.yRange == RoundedRange(Plotted(r.value.series))
      && AxisHoldsLines(r.value.series, PaddedRange(Plotted(r.value.series)))
      && AxisHoldsLines(r.value.series, AxisRange(Plotted(r.value.series)))
  {
    if modelData.None? || |modelData.value| == 0 {
      return Ok(NoModelData);
    }
    var md := modelData.value;
    var trueData :- TrueItems(md, env);
    var dates :- MapResult(trueData, DateLabel);
    var trueCloseValues := FilterMap(trueData, TrueCloseWith(env));

    var allValues: seq<Num> := [];
    if |trueCloseValues| > 0 {
      allValues := allValues + trueCloseValues;
    }
    var series := [Line(TrueValues, trueCloseValues)];
    assert series[..0] == [];

    PredictionLinesSpec(md, env);
    var added :- AddPredictionLines(md, env, series, allValues);
    series, allValues := added.0, added.1;
    assert series[1..] == PredictionLines(md, env).value;

    var yRange := RoundedRange(allValues);
    AxisHoldsEveryLine(series, allValues);
    return Ok(Forecast(dates, series, yRange));
  }

  /** Pushing a line's values, when it has any, keeps the collected values
      those of all the lines so far. */
  lemma AppendLine(series: seq<Line>, allValues: seq<Num>, line: Line)
    requires allValues == Plotted(series)
    ensures (if |line.data| > 0 then allValues + line.data else allValues) == Plotted(series + [line])
  {
    assert (series + [line])[..|series|] == series;
    if |line.data| == 0 {
      assert allValues + line.data == allValues;
    }
  }

  /** The loop over the models (enhancement.js:129-178): each model's cleaned
      predictions become one more line, and its values, when it has any, are
      pushed onto the collected ones; the first model whose data is `null`
      throws. */
  method AddPredictionLines(md: Entries, env: Builtins, series0: seq<Line>, values0: seq<Num>)
    returns (r: Result<(seq<Line>, seq<Num>)>)
    requires values0 == Plotted(series0)
    ensures r.Ok? <==> PredictionLines(md, env).Ok?
    ensures r.Err? ==> r.failure == TypeError
    ensures r.Ok? ==>
      r.value.0 == series0 + PredictionLines(md, env).value && r.value.1 == Plotted(r.value.0)
  {
    var series, allValues := series0, values0;
    var n := |series0|;
    var k := 0;
    assert md[..k] == [] && series[n..] == [];
    while k < |md|
      invariant 0 <= k <= |md|
      invariant |series| == n + k && series[..n] == series0
      invariant PredictionLines(md[..k], env) == Ok(series[n..])
      invariant allValues == Plotted(series)
    {
      var model, dataObj := md[k].0, md[k].1;
      var predictions := Predictions(dataObj, env);
      if predictions.Err? {
        PredictionLinesSpec(md, env);
        return Err(predictions.failure);
      }
      var line := Line(Predicted(model), predictions.value);
      PredictionLinesSnoc(md, env, k);
      SnocSlices(series, line, n);
      series, allValues := PushLine(series, allValues, line);
      k := k + 1;
    }
    assert md[..k] == md;
    assert series == series0 + series[n..];
    return Ok((series, allValues));
  }

  /** `series.push(line)`, and `allValues.push(...line.data)` when the line has
      values. */
  method PushLine(series: seq<Line>, allValues: seq<Num>, line: Line)
    returns (series': seq<Line>, allValues': seq<Num>)
    requires allValues == Plotted(series)
    ensures series' == series + [line] && allValues' == Plotted(series')
  {
    AppendLine(series, allValues, line);
    series', allValues' := series + [line], allValues;
    if |line.data| > 0 {
      allValues' := allValues + line.data;
    }
  }

  /** The padded range over all the lines' values together, and its outward
      rounding, are unset exactly when no line has a finite value, and
      otherwise hold every finite value of every line. */
  lemma AxisHoldsEveryLine(series: seq<Line>, allValues: seq<Num>)
    requires allValues == Plotted(series)
    ensures AxisHoldsLines(series, PaddedRange(allValues))
    ensures AxisHoldsLines(series, AxisRange(allValues))
  {
    forall k, j | 0 <= k < |series| && 0 <= j < |series[k].data|
      ensures series[k].data[j] in allValues
    {
      PlottedMember(series, k, j);
    }
    if PaddedRange(allValues).Some? {
      var i :| 0 <= i < |allValues| && allValues[i].Fin?;
      PlottedIndex(series, i);
    }
  }

  /** Each value of each line is plotted. */
  lemma {:induction false} PlottedMember(series: seq<Line>, k: nat, j: nat)
    requires k < |series| && j < |series[k].data|
    ensures series[k].data[j] in Plotted(series)
    decreases |series|
  {
    var n := |series| - 1;
    if k < n {
      PlottedMember(series[..n], k, j);
      assert series[..n][k] == series[k];
    } else {
      assert series[k].data[j] in series[n].data;
    }
  }

  /** Each plotted value is a value of some line. */
  lemma {:induction false} PlottedIndex(series: seq<Line>, i: nat)
    requires i < |Plotted(series)|
    ensures exists k, j :: 0 <= k < |series| && 0 <= j < |series[k].data| && series[k].data[j] == Plotted(series)[i]
    decreases |series|
  {
    var n := |series| - 1;
    var init := series[..n];
    if i < |Plotted(init)| {
      PlottedIndex(init, i);
      var k, j :| 0 <= k < |init| && 0 <= j < |init[k].data| && init[k].data[j] == Plotted(init)[i];
      assert series[k].data[j] == Plotted(series)[i];
    } else {
      var j := i - |Plotted(init)|;
      assert series[n].data[j] == Plotted(series)[i];
    }
  }

  /** The ground-truth dates are not filtered when the prices are: a day whose
      close is `null` keeps its date label but loses its price, so the next
      day's price is drawn under the first date. */
  lemma DatesCanMisalign(env: Builtins)
    ensures
      var items := [JObj(map["date" := JStr("2020-01-01"), "close" := JNull]),
                    JObj(map["date" := JStr("2020-01-02"), "close" := JNum(5.0)])];
      && MapResult(items, DateLabel) == Ok([JStr("2020-01-01"), JStr("2020-01-02")])
      && FilterMap(items, TrueCloseWith(env)) == [Fin(5.0)]
  {
    var items := [JObj(map["date" := JStr("2020-01-01"), "close" := JNull]),
                  JObj(map["date" := JStr("2020-01-02"), "close" := JNum(5.0)])];
    assert Prefix10("2020-01-01") == "2020-01-01";
    assert Prefix10("2020-01-02") == "2020-01-02";
    assert DateLabel(items[0]) == Ok(JStr("2020-01-01"));
    assert DateLabel(items[1]) == Ok(JStr("2020-01-02"));
    var dates := MapResult(items, DateLabel);
    assert dates.Ok? && |dates.value| == 2;
    assert dates.value[0] == JStr("2020-01-01") && dates.value[1] == JStr("2020-01-02");
    assert dates.value == [JStr("2020-01-01"), JStr("2020-01-02")];
    assert TrueClose(items[0], env) == None;
    assert TrueClose(items[1], env) == Some(Fin(5.0));
    assert FilterMap(items[..1], TrueCloseWith(env)) == [] by {
      assert items[..1][..0] == [];
    }
  }
}
