/** The equity and drawdown chart (`initEquityChart`, enhancement.js:219-294).
    The backtest payload of every model is parsed in place, the x-axis takes the
    first model's dates, and each model contributes a net-value line and a
    drawdown line, a missing or falsy value drawn as 0. */
module Equity {
  import opened Results
  import opened Js
  import opened Lists
  import Payload

  datatype SeriesName = Net(model: string) | Drawdown(model: string)

  datatype Series = Series(name: SeriesName, data: seq<Json>)

  datatype EquityChart = EquityChart(dates: seq<Json>, series: seq<Series>)

  /** `item.date ? item.date.slice(0, 10) : ''`; the item itself is not guarded. */
  function DateLabel(item: Json): (r: Result<Json>)
    ensures item == JNull ==> r == Err(TypeError)
    ensures item != JNull && !(item.JObj? && "date" in item.fields && Truthy(item.fields["date"])) ==>
      r == Ok(JStr(""))
    ensures item.JObj? && "date" in item.fields && item.fields["date"].JStr? && item.fields["date"].s != "" ==>
      r == Ok(JStr(Prefix10(item.fields["date"].s)))
    ensures r.Err? ==> r.failure == TypeError
  {
    var date :- Get(item, "date");
    if TruthyOpt(date) then SliceTen(date) else Ok(JStr(""))
  }

  /** `item[key] || 0` on an item that must not be `null`. */
  function FieldOrZero(item: Json, key: string): (r: Result<Json>)
    ensures r.Err? <==> item == JNull
    ensures r.Err? ==> r.failure == TypeError
    ensures r.Ok? && item.JObj? && key in item.fields && Truthy(item.fields[key]) ==> r.value == item.fields[key]
    ensures r.Ok? && !(item.JObj? && key in item.fields && Truthy(item.fields[key])) ==> r.value == JNum(0.0)
  {
    var v :- Get(item, key);
    Ok(OrZero(v))
  }

  function FieldOrZeroWith(key: string): Json -> Result<Json>
  {
    item => FieldOrZero(item, key)
  }

  /** The two lines of one model: `strategy_net` and `max_drawdown`, one point per row. */
  function ModelSeries(entry: (string, Json)): (r: Result<seq<Series>>)
    ensures r.Ok? ==>
      && entry.1.JArr?
      && |r.value| == 2
      && r.value[0].name == Net(entry.0) && r.value[1].name == Drawdown(entry.0)
      && |r.value[0].data| == |r.value[1].data| == |entry.1.items|
      && (forall i :: 0 <= i < |entry.1.items| ==>
            && FieldOrZero(entry.1.items[i], "strategy_net") == Ok(r.value[0].data[i])
            && FieldOrZero(entry.1.items[i], "max_drawdown") == Ok(r.value[1].data[i]))
    ensures r.Err? ==> r.failure == TypeError
    ensures r.Err? <==> !entry.1.JArr? || JNull in entry.1.items
  {
    var rows :- AsArray(entry.1);
    var net :- MapResult(rows, FieldOrZeroWith("strategy_net"));
    var drawdown :- MapResult(rows, FieldOrZeroWith("max_drawdown"));
    Ok([Series(Net(entry.0), net), Series(Drawdown(entry.0), drawdown)])
  }

  /** The chart once every model's payload is parsed.  It fails when there is
      no model at all (`backtestData[undefined].map` throws), when the first
      model's dates cannot be sliced, or when some model's payload is not an
      array or has a `null` row. */
  function EquityOf(parsed: Entries): (r: Result<EquityChart>)
    ensures r.Err? ==> r.failure == TypeError
    ensures r.Err? <==>
      || parsed == []
      || !parsed[0].1.JArr?
      || MapResult(parsed[0].1.items, DateLabel).Err?
      || exists k :: 0 <= k < |parsed| && (!parsed[k].1.JArr? || JNull in parsed[k].1.items)
  {
    if parsed == [] then Err(TypeError)
    else
      var first :- AsArray(parsed[0].1);
      var dates :- MapResult(first, DateLabel);
      assert MapResult(parsed, ModelSeries).Err? <==>
        exists k :: 0 <= k < |parsed| && ModelSeries(parsed[k]).Err?;
      var lines :- MapResult(parsed, ModelSeries);
      Ok(EquityChart(dates, Concat(lines)))
  }

  /** The x-axis holds one label per row of the first model, and the series
      are, for each model in key order, its net-value line then its drawdown
      line, each with one point per row of that model. */
  lemma EquityShape(parsed: Entries)
    requires EquityOf(parsed).Ok?
    ensures parsed != [] && parsed[0].1.JArr?
    ensures EquityOf(parsed).value.dates == MapResult(parsed[0].1.items, DateLabel).value
    ensures |EquityOf(parsed).value.dates| == |parsed[0].1.items|
    ensures |EquityOf(parsed).value.series| == 2 * |parsed|
    ensures forall k :: 0 <= k < |parsed| ==>
      && parsed[k].1.JArr?
      && EquityOf(parsed).value.series[2 * k] ==
           Series(Net(parsed[k].0), MapResult(parsed[k].1.items, FieldOrZeroWith("strategy_net")).value)
      && EquityOf(parsed).value.series[2 * k + 1] ==
           Series(Drawdown(parsed[k].0), MapResult(parsed[k].1.items, FieldOrZeroWith("max_drawdown")).value)
  {
    var lines := MapResult(parsed, ModelSeries).value;
    assert EquityOf(parsed).value == EquityChart(MapResult(parsed[0].1.items, DateLabel).value, Concat(lines));
    ConcatPairs(lines);
    forall k | 0 <= k < |parsed|
      ensures lines[k] == [
        Series(Net(parsed[k].0), MapResult(parsed[k].1.items, FieldOrZeroWith("strategy_net")).value),
        Series(Drawdown(parsed[k].0), MapResult(parsed[k].1.items, FieldOrZeroWith("max_drawdown")).value)]
    {
      assert lines[k] == ModelSeries(parsed[k]).value;
    }
  }

  /** `initEquityChart`: the payloads are parsed in place, key by key; a value
      that does not parse throws and leaves the later keys as they were. */
  method BuildEquity(backtest: Payload.JsObject, env: Builtins) returns (r: Result<EquityChart>)
    modifies backtest
    ensures Payload.ParsedEntries(old(backtest.entries), env).Err? ==>
      r == Err(Payload.ParsedEntries(old(backtest.entries), env).failure)
    ensures Payload.ParsedEntries(old(backtest.entries), env).Ok? ==>
      && backtest.entries == Payload.ParsedEntries(old(backtest.entries), env).value
      && r == EquityOf(backtest.entries)
    ensures Keys(backtest.entries) == Keys(old(backtest.entries))
  {
    var failedAt := backtest.ParseValuesInPlace(env);
    if failedAt.Some? {
      return Err(Payload.ParseEntry(backtest.entries[failedAt.value], env).failure);
    }
    return EquityOf(backtest.entries);
  }
}
