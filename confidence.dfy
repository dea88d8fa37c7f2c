/** The confidence band chart (`initdrawConfidenceChart`, enhancement.js:733-815):
    the band is drawn as two stacked lines, an invisible baseline at the lower
    bound and, on top of it, the width of the band. */
module Confidence {
  import opened Results
  import opened Js
  import opened Lists

  /** One interval as read from its record; `delta` is `upper - lower`, `None`
      when the subtraction gives NaN. */
  datatype Interval = Interval(date: Option<Json>, lower: Option<Json>, upper: Option<Json>, delta: Option<real>)

  /** A point of the stacked band: `[date, delta]`, carrying both bounds for the tooltip. */
  datatype BandPoint = BandPoint(date: Option<Json>, delta: Option<real>, lower: Option<Json>, upper: Option<Json>)

  datatype ConfidenceChart = ConfidenceChart(base: seq<(Option<Json>, Option<Json>)>, band: seq<BandPoint>)

  /** `a - b` on two property values: NaN as soon as either operand is NaN. */
  function Minus(a: Option<Json>, b: Option<Json>): (r: Result<Option<real>>)
    ensures r.Ok? <==> ToNumeric(a).Ok? && ToNumeric(b).Ok?
    ensures r.Ok? ==> (r.value.Some? <==> ToNumeric(a).value.Some? && ToNumeric(b).value.Some?)
    ensures r.Ok? && r.value.Some? ==> r.value.value == ToNumeric(a).value.value - ToNumeric(b).value.value
    ensures r.Err? ==> r.failure == Unsupported
  {
    var x :- ToNumeric(a);
    var y :- ToNumeric(b);
    Ok(if x.Some? && y.Some? then Some(x.value - y.value) else None)
  }

  /** The `processedData` record of one item; a `null` item throws. */
  function Process(item: Json): (r: Result<Interval>)
    ensures r.Err? <==> item == JNull || Minus(Get(item, "upper close").value, Get(item, "lower close").value).Err?
    ensures r.Ok? ==>
      && Get(item, "date") == Ok(r.value.date)
      && Get(item, "lower close") == Ok(r.value.lower)
      && Get(item, "upper close") == Ok(r.value.upper)
      && Minus(r.value.upper, r.value.lower) == Ok(r.value.delta)
    ensures r.Err? ==> r.failure == TypeError || r.failure == Unsupported
  {
    if item == JNull then Err(TypeError)
    else
      var date := Get(item, "date").value;
      var lower := Get(item, "lower close").value;
      var upper := Get(item, "upper close").value;
      var delta :- Minus(upper, lower);
      Ok(Interval(date, lower, upper, delta))
  }

  function Baseline(xs: seq<Interval>): (r: seq<(Option<Json>, Option<Json>)>)
    ensures |r| == |xs| && forall i :: 0 <= i < |xs| ==> r[i] == (xs[i].date, xs[i].lower)
  {
    seq(|xs|, i requires 0 <= i < |xs| => (xs[i].date, xs[i].lower))
  }

  function Band(xs: seq<Interval>): (r: seq<BandPoint>)
    ensures |r| == |xs| && forall i :: 0 <= i < |xs| ==>
      r[i] == BandPoint(xs[i].date, xs[i].delta, xs[i].lower, xs[i].upper)
  {
    seq(|xs|, i requires 0 <= i < |xs| => BandPoint(xs[i].date, xs[i].delta, xs[i].lower, xs[i].upper))
  }

  /** The chart of a payload: the payload goes through `JSON.parse`, which throws
      on anything but a JSON text of the same value; the result must be an array
      of records. */
  function ConfidenceOf(payload: Option<Json>, env: Builtins): (r: Result<ConfidenceChart>)
    ensures JsonParse(payload, env).Err? ==> r == Err(JsonParse(payload, env).failure)
    ensures JsonParse(payload, env).Ok? && !JsonParse(payload, env).value.JArr? ==> r == Err(TypeError)
    ensures r.Ok? ==>
      && JsonParse(payload, env).Ok? && JsonParse(payload, env).value.JArr?
      && var items := JsonParse(payload, env).value.items;
         && |r.value.base| == |r.value.band| == |items|
         && forall i :: 0 <= i < |items| ==>
              && Process(items[i]).Ok?
              && r.value.base[i] == (Process(items[i]).value.date, Process(items[i]).value.lower)
              && r.value.band[i] == BandPoint(Process(items[i]).value.date, Process(items[i]).value.delta,
                                              Process(items[i]).value.lower, Process(items[i]).value.upper)
    ensures JsonParse(payload, env).Ok? && JsonParse(payload, env).value.JArr? ==>
      (r.Err? <==> exists i :: 0 <= i < |JsonParse(payload, env).value.items| &&
                               Process(JsonParse(payload, env).value.items[i]).Err?)
  {
    var parsed :- JsonParse(payload, env);
    var items :- AsArray(parsed);
    var intervals :- MapResult(items, Process);
    Ok(ConfidenceChart(Baseline(intervals), Band(intervals)))
  }

  /** The two lines stack to the band: at every point the baseline sits at the
      item's lower bound and the band point at the same date, and when both
      bounds are numbers, baseline plus band width is the upper bound. */
  lemma BandStacks(payload: Option<Json>, env: Builtins, i: nat)
    requires ConfidenceOf(payload, env).Ok?
    requires i < |ConfidenceOf(payload, env).value.base|
    ensures
      var c := ConfidenceOf(payload, env).value;
      var item := JsonParse(payload, env).value.items[i];
      && c.base[i].0 == c.band[i].date
      && Get(item, "date") == Ok(c.base[i].0)
      && Get(item, "lower close") == Ok(c.base[i].1) == Ok(c.band[i].lower)
      && Get(item, "upper close") == Ok(c.band[i].upper)
      && (c.base[i].1.Some? && c.base[i].1.value.JNum? && c.band[i].upper.Some? && c.band[i].upper.value.JNum? ==>
            c.band[i].delta.Some? && c.base[i].1.value.n + c.band[i].delta.value == c.band[i].upper.value.n)
  {
    var items := JsonParse(payload, env).value.items;
    var x := Process(items[i]).value;
    assert Minus(x.upper, x.lower) == Ok(x.delta);
  }
}
