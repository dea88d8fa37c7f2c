/** The sentiment heat map (`initSentimentHeatmap`, enhancement.js:818-895): one
    cell per item of every model, signed by the item's direction, on an x-axis
    of the distinct item dates in sorted order. */
module Sentiment {
  import opened Results
  import opened Js
  import opened Lists

  /** `[date, model, value.toFixed(4)]`, the value read back as a number;
      `None` is the text "NaN". */
  datatype SentimentCell = SentimentCell(date: Option<Json>, model: string, value: Option<real>)

  /** The cells, the x-axis dates and the y-axis models. */
  datatype SentimentChart = SentimentChart(cells: seq<SentimentCell>, dates: seq<string>, models: seq<string>)

  /** `(direction === 1 ? confidence : -confidence).toFixed(4)`.  Only a number
      has `toFixed`, so on the rising side the confidence must be one; on the
      falling side unary minus turns it into a number first, and a missing
      confidence gives NaN. */
  function SignedValue(direction: Option<Json>, confidence: Option<Json>): (r: Result<Option<real>>)
    ensures direction == Some(JNum(1.0)) ==>
      (r.Ok? <==> confidence.Some? && confidence.value.JNum?) &&
      (r.Ok? ==> r.value == Some(Round4(confidence.value.n))) &&
      (r.Err? ==> r.failure == TypeError)
    ensures direction != Some(JNum(1.0)) ==>
      (r.Ok? <==> ToNumeric(confidence).Ok?) &&
      (r.Ok? ==> (r.value.Some? <==> ToNumeric(confidence).value.Some?)) &&
      (r.Ok? && r.value.Some? ==> r.value.value == Round4(-ToNumeric(confidence).value.value)) &&
      (r.Err? ==> r.failure == Unsupported)
  {
    if direction == Some(JNum(1.0)) then
      if confidence.Some? && confidence.value.JNum? then Ok(Some(Round4(confidence.value.n))) else Err(TypeError)
    else
      var x :- ToNumeric(confidence);
      Ok(if x.Some? then Some(Round4(-x.value)) else None)
  }

  /** A rise is drawn positive and anything else negative: for a confidence
      that is a non-negative number, the cell's sign is the direction's, and
      the value is the signed confidence to within the rounding. */
  lemma SignFollowsDirection(direction: Option<Json>, c: real)
    requires c >= 0.0
    ensures SignedValue(direction, Some(JNum(c))).Ok?
    ensures SignedValue(direction, Some(JNum(c))).value.Some?
    ensures var v := SignedValue(direction, Some(JNum(c))).value.value;
      var signed := if direction == Some(JNum(1.0)) then c else -c;
      && (direction == Some(JNum(1.0)) ==> v >= 0.0)
      && (direction != Some(JNum(1.0)) ==> v <= 0.0)
      && (-1_000_000_000_000_000_000_000.0 < c < 1_000_000_000_000_000_000_000.0 ==>
            -0.00005 <= v - signed <= 0.00005)
  {
  }

  /** The cell of one item; reading `date` off a `null` item throws. */
  function CellOf(model: string, item: Json): (r: Result<SentimentCell>)
    ensures r.Err? <==>
      (item == JNull || SignedValue(Get(item, "direction").value, Get(item, "confidence").value).Err?)
    ensures r.Ok? ==>
      && Get(item, "date") == Ok(r.value.date)
      && r.value.model == model
      && SignedValue(Get(item, "direction").value, Get(item, "confidence").value) == Ok(r.value.value)
  {
    if item == JNull then Err(TypeError)
    else
      var date := Get(item, "date").value;
      var value :- SignedValue(Get(item, "direction").value, Get(item, "confidence").value);
      Ok(SentimentCell(date, model, value))
  }

  function CellWith(model: string): Json -> Result<SentimentCell>
  {
    item => CellOf(model, item)
  }

  /** `sentimentData[model].forEach(...)`: anything but an array throws. */
  function ModelCells(e: (string, Json)): (r: Result<seq<SentimentCell>>)
    ensures r.Ok? ==> e.1.JArr? && Ok(r.value) == MapResult(e.1.items, CellWith(e.0))
    ensures r.Err? <==> !e.1.JArr? || MapResult(e.1.items, CellWith(e.0)).Err?
  {
    var items :- AsArray(e.1);
    MapResult(items, CellWith(e.0))
  }

  function DatesOf(cells: seq<SentimentCell>): (r: seq<Option<Json>>)
    ensures |r| == |cells| && forall k :: 0 <= k < |cells| ==> r[k] == cells[k].date
  {
    seq(|cells|, k requires 0 <= k < |cells| => cells[k].date)
  }

  /** The sort compares the dates as strings.  A missing date (`undefined`)
      is put last without being compared, and any other value is compared as
      its text; this model follows neither. */
  function DateText(d: Option<Json>): (r: Result<string>)
    ensures r.Ok? <==> d.Some? && d.value.JStr?
    ensures r.Ok? ==> r.value == d.value.s
    ensures r.Err? ==> r.failure == Unsupported
  {
    if d.Some? && d.value.JStr? then Ok(d.value.s) else Err(Unsupported)
  }

  /** `Array.from(allDatesSet).sort()`. */
  function DateAxis(seen: seq<Option<Json>>): (r: Result<seq<string>>)
    ensures r.Ok? <==> forall i :: 0 <= i < |seen| ==> seen[i].Some? && seen[i].value.JStr?
    ensures r.Ok? ==>
      StrictlySorted(r.value) && forall y :: y in r.value <==> Some(JStr(y)) in seen
    ensures r.Err? ==> r.failure == Unsupported
  {
    var texts :- MapResult(seen, DateText);
    assert forall y :: y in texts <==> Some(JStr(y)) in seen by {
      forall y ensures y in texts ==> Some(JStr(y)) in seen {
        if y in texts {
          var i :| 0 <= i < |texts| && texts[i] == y;
          assert seen[i] == Some(JStr(y));
        }
      }
    }
    Ok(SortDistinct(texts))
  }

  /** The set of dates holds each cell's date and nothing else. */
  lemma SeenMembers(cells: seq<SentimentCell>)
    ensures forall y :: Some(JStr(y)) in Dedup(DatesOf(cells)) <==>
      exists k :: 0 <= k < |cells| && cells[k].date == Some(JStr(y))
    ensures forall k :: 0 <= k < |cells| ==> cells[k].date in Dedup(DatesOf(cells))
  {
    var seen := Dedup(DatesOf(cells));
    forall y | Some(JStr(y)) in seen
      ensures exists k :: 0 <= k < |cells| && cells[k].date == Some(JStr(y))
    {
      var i :| 0 <= i < |seen| && seen[i] == Some(JStr(y));
      assert seen[i] in DatesOf(cells);
    }
    forall k | 0 <= k < |cells| ensures cells[k].date in seen {
      assert DatesOf(cells)[k] == cells[k].date;
    }
  }

  /** So the set's texts are the string dates of the cells, and it reads as
      texts exactly when every cell's date is a string. */
  lemma SeenDates(cells: seq<SentimentCell>)
    ensures forall y :: Some(JStr(y)) in Dedup(DatesOf(cells)) <==>
      exists k :: 0 <= k < |cells| && cells[k].date == Some(JStr(y))
    ensures DateAxis(Dedup(DatesOf(cells))).Ok? <==>
      forall k :: 0 <= k < |cells| ==> DateText(cells[k].date).Ok?
    ensures DateAxis(Dedup(DatesOf(cells))).Ok? ==> forall y :: y in DateAxis(Dedup(DatesOf(cells))).value <==>
      exists k :: 0 <= k < |cells| && cells[k].date == Some(JStr(y))
  {
    SeenMembers(cells);
    var seen := Dedup(DatesOf(cells));
    if forall k :: 0 <= k < |cells| ==> DateText(cells[k].date).Ok? {
      forall i | 0 <= i < |seen| ensures seen[i].Some? && seen[i].value.JStr? {
        var k :| 0 <= k < |cells| && DatesOf(cells)[k] == seen[i];
      }
    }
  }

  /** `heatmapData`: every model's cells, models in key order; the first item
      that throws ends the load. */
  function AllCells(sentiments: Entries): (r: Result<seq<SentimentCell>>)
    ensures r.Ok? <==> MapResult(sentiments, ModelCells).Ok?
    ensures r.Ok? ==> r.value == Concat(MapResult(sentiments, ModelCells).value)
    ensures r.Err? ==> r.failure in {TypeError, Unsupported}
  {
    var groups :- MapResult(sentiments, ModelCells);
    Ok(Concat(groups))
  }

  /** The chart: the cells, then the x-axis from the set of dates the loop
      collected. */
  function SentimentOf(sentiments: Entries): (r: Result<SentimentChart>)
    ensures r.Ok? ==> AllCells(sentiments) == Ok(r.value.cells)
    ensures r.Ok? ==>
      && r.value.models == Keys(sentiments)
      && StrictlySorted(r.value.dates)
      && forall y :: y in r.value.dates <==> exists k :: 0 <= k < |r.value.cells| && r.value.cells[k].date == Some(JStr(y))
    ensures r.Err? <==>
      (|| AllCells(sentiments).Err?
       || exists k :: 0 <= k < |AllCells(sentiments).value| && DateText(AllCells(sentiments).value[k].date).Err?)
  {
    var all := AllCells(sentiments);
    if all.Err? then Err(all.failure)
    else
      var cells := all.value;
      var axis := DateAxis(Dedup(DatesOf(cells)));
      SeenDates(cells);
      if axis.Err? then Err(axis.failure)
      else Ok(SentimentChart(cells, axis.value, Keys(sentiments)))
  }

  /** Exactly one cell per item: the cell of item `j` of model `m` comes after
      the cells of the models before it, and is that item's cell. */
  lemma OneCellPerItem(sentiments: Entries, m: nat, j: nat)
    requires AllCells(sentiments).Ok?
    requires m < |sentiments|
    ensures MapResult(sentiments, ModelCells).Ok? && sentiments[m].1.JArr?
    ensures |AllCells(sentiments).value| == SumLengths(MapResult(sentiments, ModelCells).value)
    ensures |MapResult(sentiments, ModelCells).value[m]| == |sentiments[m].1.items|
    ensures j < |sentiments[m].1.items| ==>
      var at := SumLengths(MapResult(sentiments, ModelCells).value[..m]) + j;
      && at < |AllCells(sentiments).value|
      && CellOf(sentiments[m].0, sentiments[m].1.items[j]) == Ok(AllCells(sentiments).value[at])
  {
    var groups := MapResult(sentiments, ModelCells).value;
    var items := sentiments[m].1.items;
    assert Ok(groups[m]) == MapResult(items, CellWith(sentiments[m].0));
    ConcatLength(groups);
    if j < |items| {
      ConcatAt(groups, m, j);
      assert CellWith(sentiments[m].0)(items[j]).Ok?;
    }
  }

  /** Adding one cell's date to the set: it joins at the end unless already there. */
  lemma SeenSnoc(cells: seq<SentimentCell>, c: SentimentCell)
    ensures Dedup(DatesOf(cells + [c])) ==
      if c.date in Dedup(DatesOf(cells)) then Dedup(DatesOf(cells)) else Dedup(DatesOf(cells)) + [c.date]
  {
    var ds := DatesOf(cells + [c]);
    assert ds[..|cells|] == DatesOf(cells);
    assert ds[|cells|] == c.date;
  }

  lemma CellsSnoc(model: string, items: seq<Json>, j: nat, done: seq<SentimentCell>)
    requires j < |items| && MapResult(items[..j], CellWith(model)) == Ok(done) && CellOf(model, items[j]).Ok?
    ensures MapResult(items[..j + 1], CellWith(model)) == Ok(done + [CellOf(model, items[j]).value])
  {
    MapResultSnoc(items, CellWith(model), j);
  }

  lemma AppendOne<T>(a: seq<T>, b: seq<T>, x: T)
    ensures a + (b + [x]) == (a + b) + [x]
  {
  }

  /** `heatmapData.push(cell); allDatesSet.add(date)`. */
  method Push(cells: seq<SentimentCell>, seen: seq<Option<Json>>, c: SentimentCell)
    returns (cells': seq<SentimentCell>, seen': seq<Option<Json>>)
    requires seen == Dedup(DatesOf(cells))
    ensures cells' == cells + [c]
    ensures seen' == Dedup(DatesOf(cells'))
  {
    SeenSnoc(cells, c);
    cells' := cells + [c];
    seen' := seen;
    if c.date !in seen' {
      seen' := seen' + [c.date];
    }
  }

  /** One model's `forEach`: each item's cell is pushed onto `heatmapData` and
      its date added to `allDatesSet`. */
  method PushModel(model: string, items: seq<Json>, cells: seq<SentimentCell>, seen: seq<Option<Json>>)
    returns (r: Result<(seq<SentimentCell>, seq<Option<Json>>)>)
    requires seen == Dedup(DatesOf(cells))
    ensures r.Err? <==> MapResult(items, CellWith(model)).Err?
    ensures r.Err? ==> r.failure == MapResult(items, CellWith(model)).failure
    ensures r.Ok? ==>
      && r.value.0 == cells + MapResult(items, CellWith(model)).value
      && r.value.1 == Dedup(DatesOf(r.value.0))
  {
    var out := cells;
    var dates := seen;
    ghost var done: seq<SentimentCell> := [];
    var j := 0;
    while j < |items|
      invariant 0 <= j <= |items|
      invariant MapResult(items[..j], CellWith(model)) == Ok(done)
      invariant out == cells + done
      invariant dates == Dedup(DatesOf(out))
    {
      var c := CellOf(model, items[j]);
      if c.Err? {
        MapResultFirstError(items, CellWith(model), j);
        return Err(c.failure);
      }
      CellsSnoc(model, items, j, done);
      AppendOne(cells, done, c.value);
      out, dates := Push(out, dates, c.value);
      done := done + [c.value];
      j := j + 1;
    }
    assert items[..j] == items;
    return Ok((out, dates));
  }

  /** One model's entry: `items.forEach` throws when the entry is not an
      array; otherwise its cells are pushed as `PushModel` does. */
  method AddModel(e: (string, Json), cells: seq<SentimentCell>, seen: seq<Option<Json>>)
    returns (r: Result<(seq<SentimentCell>, seq<Option<Json>>)>)
    requires seen == Dedup(DatesOf(cells))
    ensures r.Err? <==> ModelCells(e).Err?
    ensures r.Err? ==> r.failure == ModelCells(e).failure
    ensures r.Ok? ==>
      && r.value.0 == cells + ModelCells(e).value
      && r.value.1 == Dedup(DatesOf(r.value.0))
  {
    if !e.1.JArr? {
      return Err(TypeError);
    }
    r := PushModel(e.0, e.1.items, cells, seen);
  }

  /** `initSentimentHeatmap`: the models' loops fill `heatmapData` and
      `allDatesSet`, and the set, sorted, becomes the x-axis. */
  method BuildSentiment(sentiments: Entries) returns (r: Result<SentimentChart>)
    ensures r == SentimentOf(sentiments)
  {
    var cells: seq<SentimentCell> := [];
    var seen: seq<Option<Json>> := [];
    ghost var groups: seq<seq<SentimentCell>> := [];
    var m := 0;
    while m < |sentiments|
      invariant 0 <= m <= |sentiments|
      invariant MapResult(sentiments[..m], ModelCells) == Ok(groups)
      invariant cells == Concat(groups)
      invariant seen == Dedup(DatesOf(cells))
    {
      var pushed := AddModel(sentiments[m], cells, seen);
      if pushed.Err? {
        MapResultFirstError(sentiments, ModelCells, m);
        return Err(pushed.failure);
      }
      MapResultSnoc(sentiments, ModelCells, m);
      ghost var g := ModelCells(sentiments[m]).value;
      ConcatSnoc(groups, g);
      groups := groups + [g];
      cells, seen := pushed.value.0, pushed.value.1;
      m := m + 1;
    }
    assert sentiments[..m] == sentiments;
    var axis := DateAxis(seen);
    if axis.Err? {
      return Err(axis.failure);
    }
    return Ok(SentimentChart(cells, axis.value, Keys(sentiments)));
  }
}
