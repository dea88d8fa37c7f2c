/** The trading-signal chart (`initSignalChart`, enhancement.js:443-564): for the
    model picked in the selector, the close price line and one marker per row
    whose signal is positive (buy) or negative (sell). */
module Signal {
  import opened Results
  import opened Js
  import opened Lists

  /** What `generateOption` reads of one backtest row. */
  datatype Row = Row(date: Json, close: Option<Json>, pred: Option<Json>, signal: Option<Json>)

  datatype Side = Buy | Sell

  /** A marker at `[dates[i], closePrices[i]]`, labelled with the prediction to two decimals. */
  datatype Marker = Marker(date: Json, close: Option<Json>, predicted: real)

  datatype SignalOption = SignalOption(
    model: Option<string>,
    dates: seq<Json>,
    closes: seq<Option<Json>>,
    buys: seq<Marker>,
    sells: seq<Marker>)

  /** `backtestData[model]` as an array; with no model, or a model without
      data, `.map` is read off `undefined` and throws. */
  function ModelRows(model: Option<string>, backtest: Entries): (r: Result<seq<Json>>)
    ensures r.Ok? <==> model.Some? && Lookup(backtest, model.value).Some? && Lookup(backtest, model.value).value.JArr?
    ensures r.Ok? ==> r.value == Lookup(backtest, model.value).value.items
    ensures r.Err? ==> r.failure == TypeError
  {
    var data := if model.Some? then Lookup(backtest, model.value) else None;
    if data.Some? then AsArray(data.value) else Err(TypeError)
  }

  /** A row's fields.  Only the date can fail: a `null` row, or a date that
      cannot be sliced, throws in the `dates` map before anything else. */
  function ReadRow(item: Json): (r: Result<Row>)
    ensures r.Err? <==> SliceDate(item).Err?
    ensures r.Ok? ==>
      && SliceDate(item) == Ok(r.value.date)
      && Get(item, "close") == Ok(r.value.close)
      && Get(item, "pred") == Ok(r.value.pred)
      && Get(item, "signal") == Ok(r.value.signal)
    ensures r.Err? ==> r.failure == TypeError
  {
    var date :- SliceDate(item);
    Ok(Row(date, Get(item, "close").value, Get(item, "pred").value, Get(item, "signal").value))
  }

  /** `d.signal > 0` for a buy, `d.signal < 0` for a sell: NaN compares false
      both ways, so a missing signal fires neither. */
  function Fires(side: Side, signal: Option<Json>): (r: Result<bool>)
    ensures r.Err? <==> ToNumeric(signal).Err?
    ensures r.Ok? ==> (r.value <==>
      ToNumeric(signal).value.Some? &&
      (if side == Buy then ToNumeric(signal).value.value > 0.0 else ToNumeric(signal).value.value < 0.0))
    ensures r.Err? ==> r.failure == Unsupported
  {
    var s :- ToNumeric(signal);
    Ok(s.Some? && (if side == Buy then s.value > 0.0 else s.value < 0.0))
  }

  /** `predictions[i].toFixed(2)`: only a number has `toFixed`. */
  function Label(pred: Option<Json>): (r: Result<real>)
    ensures r.Ok? <==> pred.Some? && pred.value.JNum?
    ensures r.Ok? ==> r.value == Round2(pred.value.n)
    ensures r.Err? ==> r.failure == TypeError
  {
    if pred.Some? && pred.value.JNum? then Ok(Round2(pred.value.n)) else Err(TypeError)
  }

  /** The marker a row contributes on one side, if its signal fires there. */
  function MarkerOf(side: Side, row: Row): (r: Result<Option<Marker>>)
    ensures r.Err? <==> Fires(side, row.signal).Err? || (Fires(side, row.signal).value && Label(row.pred).Err?)
    ensures r.Ok? ==> (r.value.Some? <==> Fires(side, row.signal).value)
    ensures r.Ok? && r.value.Some? ==> r.value.value == Marker(row.date, row.close, Label(row.pred).value)
  {
    var fires :- Fires(side, row.signal);
    if !fires then Ok(None)
    else
      var text :- Label(row.pred);
      Ok(Some(Marker(row.date, row.close, text)))
  }

  function MarkerWith(side: Side): Row -> Result<Option<Marker>>
  {
    row => MarkerOf(side, row)
  }

  /** `.filter(Boolean)`: the rows' entries that are markers, without the `null`s. */
  function NonNull(m: Option<Marker>): Option<Marker>
  {
    m
  }

  /** `generateOption(model)`: it reads nothing but the model name and the
      backtest data, so the same selection always gives the same option.
      The maps run in the code's order: dates, closes, predictions (which cannot
      fail once the dates have not), then the buy markers, then the sell markers. */
  function GenerateOption(model: Option<string>, backtest: Entries): (r: Result<SignalOption>)
    ensures r.Ok? ==>
      && ModelRows(model, backtest).Ok?
      && var items := ModelRows(model, backtest).value;
         && |r.value.dates| == |r.value.closes| == |items|
         && r.value.model == model
         && forall i :: 0 <= i < |items| ==>
              SliceDate(items[i]) == Ok(r.value.dates[i]) && Get(items[i], "close") == Ok(r.value.closes[i])
    ensures r.Err? <==>
      || ModelRows(model, backtest).Err?
      || MapResult(ModelRows(model, backtest).value, ReadRow).Err?
      || MapResult(MapResult(ModelRows(model, backtest).value, ReadRow).value, MarkerWith(Buy)).Err?
      || MapResult(MapResult(ModelRows(model, backtest).value, ReadRow).value, MarkerWith(Sell)).Err?
  {
    var items :- ModelRows(model, backtest);
    var rows :- MapResult(items, ReadRow);
    var buys :- MapResult(rows, MarkerWith(Buy));
    var sells :- MapResult(rows, MarkerWith(Sell));
    Ok(SignalOption(
      model,
      seq(|rows|, i requires 0 <= i < |rows| => rows[i].date),
      seq(|rows|, i requires 0 <= i < |rows| => rows[i].close),
      FilterMap(buys, NonNull),
      FilterMap(sells, NonNull)))
  }

  /** `idx` lists, in increasing order, exactly the rows whose signal fires on
      `side`, and the `k`-th marker sits at row `idx[k]`'s date and close. */
  ghost predicate Partition(items: seq<Json>, side: Side, markers: seq<Marker>, idx: seq<int>)
  {
    && |idx| == |markers|
    && (forall k, l :: 0 <= k < l < |idx| ==> idx[k] < idx[l])
    && (forall k :: 0 <= k < |idx| ==>
          && 0 <= idx[k] < |items|
          && ReadRow(items[idx[k]]).Ok?
          && Fires(side, ReadRow(items[idx[k]]).value.signal) == Ok(true)
          && SliceDate(items[idx[k]]) == Ok(markers[k].date)
          && Get(items[idx[k]], "close") == Ok(markers[k].close)
          && Label(ReadRow(items[idx[k]]).value.pred) == Ok(markers[k].predicted))
    && (forall i ::
          0 <= i < |items| && ReadRow(items[i]).Ok? && Fires(side, ReadRow(items[i]).value.signal) == Ok(true)
          ==> i in idx)
  }

  lemma SidePartition(items: seq<Json>, rows: seq<Row>, side: Side, markers: seq<Option<Marker>>) returns (idx: seq<int>)
    requires MapResult(items, ReadRow) == Ok(rows)
    requires MapResult(rows, MarkerWith(side)) == Ok(markers)
    ensures Partition(items, side, FilterMap(markers, NonNull), idx)
  {
    idx := FilterMapSelects(markers, NonNull);
    var r := FilterMap(markers, NonNull);
    forall k | 0 <= k < |idx|
      ensures ReadRow(items[idx[k]]) == Ok(rows[idx[k]])
      ensures Fires(side, rows[idx[k]].signal) == Ok(true)
      ensures r[k] == Marker(rows[idx[k]].date, rows[idx[k]].close, Label(rows[idx[k]].pred).value)
    {
      assert markers[idx[k]] == MarkerOf(side, rows[idx[k]]).value;
    }
    forall i | 0 <= i < |items| && ReadRow(items[i]).Ok? && Fires(side, ReadRow(items[i]).value.signal) == Ok(true)
      ensures i in idx
    {
      assert markers[i] == MarkerOf(side, rows[i]).value;
      assert NonNull(markers[i]).Some?;
    }
  }

  /** The buy and sell markers partition the firing rows: buys are exactly the
      rows with a positive signal, sells exactly those with a negative one, each
      in row order; a row with a zero or missing signal is in neither. */
  lemma SignalPartition(model: Option<string>, backtest: Entries) returns (buyIdx: seq<int>, sellIdx: seq<int>)
    ensures GenerateOption(model, backtest).Ok? ==>
      && ModelRows(model, backtest).Ok?
      && Partition(ModelRows(model, backtest).value, Buy, GenerateOption(model, backtest).value.buys, buyIdx)
      && Partition(ModelRows(model, backtest).value, Sell, GenerateOption(model, backtest).value.sells, sellIdx)
    ensures forall k, l :: 0 <= k < |buyIdx| && 0 <= l < |sellIdx| ==> buyIdx[k] != sellIdx[l]
  {
    if GenerateOption(model, backtest).Err? {
      return [], [];
    }
    var items := ModelRows(model, backtest).value;
    var rows := MapResult(items, ReadRow).value;
    var buys := MapResult(rows, MarkerWith(Buy)).value;
    var sells := MapResult(rows, MarkerWith(Sell)).value;
    assert GenerateOption(model, backtest).value.buys == FilterMap(buys, NonNull);
    assert GenerateOption(model, backtest).value.sells == FilterMap(sells, NonNull);
    buyIdx := SidePartition(items, rows, Buy, buys);
    sellIdx := SidePartition(items, rows, Sell, sells);
  }

  /** The chart's selection state: the backtest data it was given, the model
      the selector shows, and the option last set on the chart. */
  class SignalView {
    const backtest: Entries
    var currentModel: Option<string>
    var shown: Option<SignalOption>

    /** `currentModel` starts at the first key (`undefined` when there is none). */
    constructor(backtest: Entries)
      ensures this.backtest == backtest
      ensures currentModel == (if backtest == [] then None else Some(backtest[0].0))
      ensures shown == None
    {
      this.backtest := backtest;
      currentModel := if backtest == [] then None else Some(backtest[0].0);
      shown := None;
    }

    /** `chart.setOption(generateOption(currentModel))`; when it throws, the
        chart keeps the option it had. */
    method Render() returns (r: Result<SignalOption>)
      modifies this
      ensures currentModel == old(currentModel)
      ensures r == GenerateOption(currentModel, backtest)
      ensures shown == if r.Ok? then Some(r.value) else old(shown)
    {
      r := GenerateOption(currentModel, backtest);
      if r.Ok? {
        shown := Some(r.value);
      }
    }

    /** The selector's change handler: the selector offers the backtest keys,
        the picked one becomes `currentModel` and the option is regenerated. */
    method Select(model: string) returns (r: Result<SignalOption>)
      requires model in Keys(backtest)
      modifies this
      ensures currentModel == Some(model)
      ensures r == GenerateOption(Some(model), backtest)
      ensures shown == if r.Ok? then Some(r.value) else old(shown)
    {
      currentModel := Some(model);
      r := Render();
    }
  }
}
