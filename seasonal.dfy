/** The seasonal decomposition chart (`initSeasonalChart`, enhancement.js:297-369):
    the three component payloads are parsed in place, the x-axis takes the trend
    rows' dates and each component is drawn with a missing or falsy value as 0. */
module Seasonal {
  import opened Results
  import opened Js
  import opened Lists
  import Payload
  import Equity

  datatype SeasonalChart = SeasonalChart(
    dates: seq<Json>,
    trend: seq<Json>,
    seasonal: seq<Json>,
    residual: seq<Json>)

  /** `data[key]` as an array to map over: a missing component or one that is
      not an array throws. */
  function Rows(parsed: Entries, key: string): (r: Result<seq<Json>>)
    ensures r.Ok? <==> Lookup(parsed, key).Some? && Lookup(parsed, key).value.JArr?
    ensures r.Ok? ==> r.value == Lookup(parsed, key).value.items
    ensures r.Err? ==> r.failure == TypeError
  {
    var v := Lookup(parsed, key);
    if v.Some? then AsArray(v.value) else Err(TypeError)
  }

  /** `data[key].map(item => item[key] || 0)`. */
  function Component(parsed: Entries, key: string): (r: Result<seq<Json>>)
    ensures r.Ok? ==>
      && Rows(parsed, key).Ok?
      && |r.value| == |Rows(parsed, key).value|
      && forall i :: 0 <= i < |r.value| ==> Equity.FieldOrZero(Rows(parsed, key).value[i], key) == Ok(r.value[i])
    ensures r.Err? ==> r.failure == TypeError
    ensures r.Err? <==> Rows(parsed, key).Err? || JNull in Rows(parsed, key).value
  {
    var rows :- Rows(parsed, key);
    MapResult(rows, Equity.FieldOrZeroWith(key))
  }

  /** The chart once the three payloads are parsed, in the order the code reads
      them: trend dates, trend values, seasonal values, residual values.  The
      dates and the trend line have one entry per trend row; the other two
      components follow their own rows and are not checked to line up. */
  function SeasonalOf(parsed: Entries): (r: Result<SeasonalChart>)
    ensures r.Ok? ==>
      && Rows(parsed, "trend").Ok?
      && MapResult(Rows(parsed, "trend").value, SliceDate) == Ok(r.value.dates)
      && |r.value.dates| == |r.value.trend| == |Rows(parsed, "trend").value|
      && Component(parsed, "trend") == Ok(r.value.trend)
      && Component(parsed, "seasonal") == Ok(r.value.seasonal)
      && Component(parsed, "residual") == Ok(r.value.residual)
    ensures r.Err? ==> r.failure == TypeError
    ensures r.Err? <==>
      || Rows(parsed, "trend").Err?
      || MapResult(Rows(parsed, "trend").value, SliceDate).Err?
      || Component(parsed, "trend").Err?
      || Component(parsed, "seasonal").Err?
      || Component(parsed, "residual").Err?
  {
    var trendRows :- Rows(parsed, "trend");
    var dates :- MapResult(trendRows, SliceDate);
    // A `null` trend row already failed on its date, so the trend values exist.
    assert forall k :: 0 <= k < |trendRows| ==> SliceDate(trendRows[k]).Ok?;
    assert JNull !in trendRows;
    var trend := Component(parsed, "trend").value;
    var seasonal :- Component(parsed, "seasonal");
    var residual :- Component(parsed, "residual");
    Ok(SeasonalChart(dates, trend, seasonal, residual))
  }

  /** `initSeasonalChart`: the payloads are parsed in place, key by key; a value
      that does not parse throws and leaves the later keys as they were. */
  method BuildSeasonal(data: Payload.JsObject, env: Builtins) returns (r: Result<SeasonalChart>)
    modifies data
    ensures Payload.ParsedEntries(old(data.entries), env).Err? ==>
      r == Err(Payload.ParsedEntries(old(data.entries), env).failure)
    ensures Payload.ParsedEntries(old(data.entries), env).Ok? ==>
      && data.entries == Payload.ParsedEntries(old(data.entries), env).value
      && r == SeasonalOf(data.entries)
    ensures Keys(data.entries) == Keys(old(data.entries))
  {
    var failedAt := data.ParseValuesInPlace(env);
    if failedAt.Some? {
      return Err(Payload.ParseEntry(data.entries[failedAt.value], env).failure);
    }
    return SeasonalOf(data.entries);
  }
}
