/** The monthly return heat maps (`initMonthlyHeatmap`, enhancement.js:568-651):
    for every model, the rows' strategy returns are summed and counted per
    calendar month in a dictionary, and each month's cell shows the mean. */
module Monthly {
  import opened Results
  import opened Js
  import opened Lists

  /** `{year, month, totalReturn, count}`; the dictionary key `${year}-${month}`
      is written as the calendar month itself. */
  datatype Bucket = Bucket(total: real, count: nat)

  /** The dictionary and its keys in insertion order, the order `Object.values`
      lists them (none of the keys reads as an array index). */
  datatype Tally = Tally(buckets: map<CalendarMonth, Bucket>, order: seq<CalendarMonth>)

  /** What a row contributes: its calendar month and its return. */
  type Reading = (CalendarMonth, real)

  /** One heat-map cell: `[String(year), month, mean]`. */
  datatype Cell = Cell(year: string, month: Option<int>, value: real)

  datatype Heatmap = Heatmap(model: string, cells: seq<Cell>, years: seq<string>, min: real, max: real)

  /** `new Date(row.date)`, read as year and month; `null` has no `date`. */
  function MonthOf(row: Json, env: Builtins): (r: Result<CalendarMonth>)
    ensures r.Err? <==> row == JNull
    ensures r.Ok? ==> r.value == env.calendar(Get(row, "date").value)
    ensures r.Err? ==> r.failure == TypeError
  {
    var date :- Get(row, "date");
    Ok(env.calendar(date))
  }

  /** `parseFloat(row.strategy_return || 0)`: a missing or falsy return counts
      as 0; one that reads as NaN or an infinity is outside the model. */
  function ReturnOf(row: Json, env: Builtins): (r: Result<real>)
    ensures row == JNull ==> r == Err(TypeError)
    ensures row != JNull && !TruthyOpt(Get(row, "strategy_return").value) ==> r == Ok(0.0)
    ensures row != JNull ==>
      (r.Ok? <==> ParseFloat(OrZero(Get(row, "strategy_return").value), env).Some? &&
                  ParseFloat(OrZero(Get(row, "strategy_return").value), env).value.Fin?)
    ensures r.Ok? ==> ParseFloat(OrZero(Get(row, "strategy_return").value), env) == Some(Fin(r.value))
    ensures r.Err? && row != JNull ==> r.failure == Unsupported
  {
    var v :- Get(row, "strategy_return");
    match ParseFloat(OrZero(v), env)
    case Some(Fin(x)) => Ok(x)
    case _ => Err(Unsupported)
  }

  /** The reading of one row, date first as the code reads it. */
  function ReadRow(row: Json, env: Builtins): (r: Result<Reading>)
    ensures r.Ok? <==> ReturnOf(row, env).Ok?
    ensures r.Ok? ==> MonthOf(row, env) == Ok(r.value.0) && ReturnOf(row, env) == Ok(r.value.1)
    ensures r.Err? ==> r.failure in {TypeError, Unsupported}
  {
    var c :- MonthOf(row, env);
    var x :- ReturnOf(row, env);
    Ok((c, x))
  }

  function ReadRowWith(env: Builtins): Json -> Result<Reading>
  {
    row => ReadRow(row, env)
  }

  /** The dictionary after one reading: the month's bucket is created empty
      the first time the month is seen, then the return is added and the count
      bumped. */
  function Bump(t: Tally, p: Reading): Tally
  {
    var b := if p.0 in t.buckets then t.buckets[p.0] else Bucket(0.0, 0);
    Tally(t.buckets[p.0 := Bucket(b.total + p.1, b.count + 1)], if p.0 in t.buckets then t.order else t.order + [p.0])
  }

  /** The dictionary after the readings, one by one. */
  function Fold(ps: seq<Reading>): Tally
    decreases |ps|
  {
    if ps == [] then Tally(map[], []) else Bump(Fold(ps[..|ps| - 1]), ps[|ps| - 1])
  }

  /** The dictionary after a model's rows.  A row that throws ends the
      `forEach`, and nothing after it is read; as the dictionary is local to
      the model's pass, only the throw is seen. */
  function Buckets(rows: seq<Json>, env: Builtins): (r: Result<Tally>)
    ensures r.Ok? <==> forall i :: 0 <= i < |rows| ==> ReturnOf(rows[i], env).Ok?
    ensures r.Err? ==> r.failure in {TypeError, Unsupported}
  {
    var ps :- MapResult(rows, ReadRowWith(env));
    Ok(Fold(ps))
  }

  /** The number of readings of month `c`. */
  function CountOf(ps: seq<Reading>, c: CalendarMonth): nat
    decreases |ps|
  {
    if ps == [] then 0 else CountOf(ps[..|ps| - 1], c) + (if ps[|ps| - 1].0 == c then 1 else 0)
  }

  /** The sum of the returns of the readings of month `c`. */
  function SumOf(ps: seq<Reading>, c: CalendarMonth): real
    decreases |ps|
  {
    if ps == [] then 0.0 else SumOf(ps[..|ps| - 1], c) + (if ps[|ps| - 1].0 == c then ps[|ps| - 1].1 else 0.0)
  }

  /** The keys in `order` are exactly the dictionary's, each listed once, and
      every bucket holds at least one row. */
  ghost predicate WellFormed(t: Tally)
  {
    && (forall c :: c in t.buckets <==> c in t.order)
    && (forall i, j :: 0 <= i < j < |t.order| ==> t.order[i] != t.order[j])
    && (forall c :: c in t.buckets ==> t.buckets[c].count >= 1)
  }

  /** Bumping keeps the dictionary well formed and adds the month to its keys. */
  lemma BumpKeys(t: Tally, p: Reading)
    requires WellFormed(t)
    ensures WellFormed(Bump(t, p))
    ensures forall c :: c in Bump(t, p).buckets <==> c == p.0 || c in t.buckets
  {
    var t' := Bump(t, p);
    if p.0 !in t.buckets {
      forall i, j | 0 <= i < j < |t'.order| ensures t'.order[i] != t'.order[j] {
        if j == |t.order| {
          assert t.order[i] in t.buckets;
        } else {
          assert t'.order[i] == t.order[i] && t'.order[j] == t.order[j];
        }
      }
    }
  }

  /** One bucket per distinct month: the dictionary's keys are the months of
      the readings, listed once each in order of first appearance. */
  lemma {:induction false} FoldKeys(ps: seq<Reading>)
    ensures WellFormed(Fold(ps))
    ensures forall c :: c in Fold(ps).buckets <==> exists i :: 0 <= i < |ps| && ps[i].0 == c
    decreases |ps|
  {
    if ps != [] {
      var n := |ps| - 1;
      var init := ps[..n];
      FoldKeys(init);
      BumpKeys(Fold(init), ps[n]);
      forall c | c in Fold(ps).buckets
        ensures exists i :: 0 <= i < |ps| && ps[i].0 == c
      {
        if c != ps[n].0 {
          var i :| 0 <= i < |init| && init[i].0 == c;
          assert ps[i].0 == c;
        }
      }
      forall i | 0 <= i < |ps|
        ensures ps[i].0 in Fold(ps).buckets
      {
        if i < n {
          assert init[i] == ps[i];
        }
      }
    }
  }

  /** The position of the first reading of month `c`, or `|ps|` when there is none. */
  function FirstSeen(ps: seq<Reading>, c: CalendarMonth): (r: nat)
    ensures r <= |ps|
    ensures r < |ps| ==> ps[r].0 == c
    ensures forall j :: 0 <= j < r && j < |ps| ==> ps[j].0 != c
    decreases |ps|
  {
    if ps == [] then 0
    else
      var n := |ps| - 1;
      var f := FirstSeen(ps[..n], c);
      assert forall j :: 0 <= j < n ==> ps[..n][j] == ps[j];
      if f < n then f else if ps[n].0 == c then n else n + 1
  }

  /** `Object.values` lists the buckets in the order the months were first
      seen: a key listed before another had its first row earlier. */
  lemma {:induction false} FoldOrder(ps: seq<Reading>)
    ensures forall k :: 0 <= k < |Fold(ps).order| ==> FirstSeen(ps, Fold(ps).order[k]) < |ps|
    ensures forall k, l :: 0 <= k < l < |Fold(ps).order| ==>
      FirstSeen(ps, Fold(ps).order[k]) < FirstSeen(ps, Fold(ps).order[l])
    decreases |ps|
  {
    if ps != [] {
      var n := |ps| - 1;
      var init := ps[..n];
      assert ps[..n] == init;
      FoldOrder(init);
      FoldKeys(init);
      var o := Fold(init).order;
      if ps[n].0 !in Fold(init).buckets {
        assert FirstSeen(init, ps[n].0) == n;
        assert Fold(ps).order == o + [ps[n].0];
      } else {
        assert Fold(ps).order == o;
      }
    }
  }

  /** Each bucket's count is the number of its readings and its total their
      sum; a month with no bucket has no reading. */
  lemma {:induction false} FoldTotals(ps: seq<Reading>)
    ensures forall c :: c in Fold(ps).buckets ==>
      Fold(ps).buckets[c].count == CountOf(ps, c) && Fold(ps).buckets[c].total == SumOf(ps, c)
    ensures forall c :: c !in Fold(ps).buckets ==> CountOf(ps, c) == 0 && SumOf(ps, c) == 0.0
    decreases |ps|
  {
    if ps != [] {
      FoldTotals(ps[..|ps| - 1]);
    }
  }

  /** The sum of the bucket counts over the keys. */
  function TotalCount(order: seq<CalendarMonth>, buckets: map<CalendarMonth, Bucket>): nat
    decreases |order|
  {
    if order == [] then 0
    else
      var c := order[|order| - 1];
      TotalCount(order[..|order| - 1], buckets) + (if c in buckets then buckets[c].count else 0)
  }

  /** Changing the bucket of a key that is not listed leaves the sum alone. */
  lemma {:induction false} TotalUnlisted(order: seq<CalendarMonth>, buckets: map<CalendarMonth, Bucket>, c: CalendarMonth, b: Bucket)
    requires c !in order
    ensures TotalCount(order, buckets[c := b]) == TotalCount(order, buckets)
    decreases |order|
  {
    if order != [] {
      TotalUnlisted(order[..|order| - 1], buckets, c, b);
    }
  }

  /** Bumping the count of a key listed once adds one to the sum. */
  lemma {:induction false} TotalBump(order: seq<CalendarMonth>, buckets: map<CalendarMonth, Bucket>, c: CalendarMonth, b: Bucket)
    requires c in order && c in buckets && b.count == buckets[c].count + 1
    requires forall i, j :: 0 <= i < j < |order| ==> order[i] != order[j]
    ensures TotalCount(order, buckets[c := b]) == TotalCount(order, buckets) + 1
    decreases |order|
  {
    var n := |order| - 1;
    var init := order[..n];
    if order[n] == c {
      assert c !in init by {
        forall i | 0 <= i < n ensures init[i] != c {
          assert order[i] != order[n];
        }
      }
      TotalUnlisted(init, buckets, c, b);
    } else {
      assert c in init by {
        var i :| 0 <= i < |order| && order[i] == c;
        assert init[i] == c;
      }
      TotalBump(init, buckets, c, b);
    }
  }

  /** One more reading adds one to the sum of the counts. */
  lemma BumpTotal(t: Tally, p: Reading)
    requires WellFormed(t)
    ensures TotalCount(Bump(t, p).order, Bump(t, p).buckets) == TotalCount(t.order, t.buckets) + 1
  {
    if p.0 in t.buckets {
      var b := Bucket(t.buckets[p.0].total + p.1, t.buckets[p.0].count + 1);
      assert Bump(t, p) == Tally(t.buckets[p.0 := b], t.order);
      TotalBump(t.order, t.buckets, p.0, b);
    } else {
      var b := Bucket(0.0 + p.1, 0 + 1);
      var order := t.order + [p.0];
      assert Bump(t, p) == Tally(t.buckets[p.0 := b], order);
      TotalUnlisted(t.order, t.buckets, p.0, b);
      assert order[..|t.order|] == t.order;
    }
  }

  /** The bucket counts add up to the number of readings. */
  lemma {:induction false} FoldConserve(ps: seq<Reading>)
    ensures TotalCount(Fold(ps).order, Fold(ps).buckets) == |ps|
    decreases |ps|
  {
    if ps != [] {
      var n := |ps| - 1;
      FoldConserve(ps[..n]);
      FoldKeys(ps[..n]);
      BumpTotal(Fold(ps[..n]), ps[n]);
    }
  }

  /** The `forEach` over one model's rows, filling the dictionary in place. */
  method Accumulate(rows: seq<Json>, env: Builtins) returns (r: Result<Tally>)
    ensures r == Buckets(rows, env)
  {
    var buckets: map<CalendarMonth, Bucket> := map[];
    var order: seq<CalendarMonth> := [];
    ghost var ps: seq<Reading> := [];
    var i := 0;
    while i < |rows|
      invariant 0 <= i <= |rows|
      invariant MapResult(rows[..i], ReadRowWith(env)) == Ok(ps)
      invariant Fold(ps) == Tally(buckets, order)
    {
      var p := ReadRow(rows[i], env);
      if p.Err? {
        MapResultFirstError(rows, ReadRowWith(env), i);
        return Err(p.failure);
      }
      ReadingsSnoc(rows, i, env, ps);
      buckets, order := Record(buckets, order, p.value);
      ps := ps + [p.value];
      i := i + 1;
    }
    assert rows[..i] == rows;
    return Ok(Tally(buckets, order));
  }

  lemma ReadingsSnoc(rows: seq<Json>, i: nat, env: Builtins, ps: seq<Reading>)
    requires i < |rows| && MapResult(rows[..i], ReadRowWith(env)) == Ok(ps) && ReadRow(rows[i], env).Ok?
    ensures MapResult(rows[..i + 1], ReadRowWith(env)) == Ok(ps + [ReadRow(rows[i], env).value])
    ensures Fold(ps + [ReadRow(rows[i], env).value]) == Bump(Fold(ps), ReadRow(rows[i], env).value)
  {
    MapResultSnoc(rows, ReadRowWith(env), i);
    assert (ps + [ReadRow(rows[i], env).value])[..|ps|] == ps;
  }

  /** The body of the `forEach` for one reading: the month's bucket is created
      empty the first time the month is seen, then the return is added to it
      and its count bumped. */
  method Record(buckets: map<CalendarMonth, Bucket>, order: seq<CalendarMonth>, p: Reading)
    returns (buckets': map<CalendarMonth, Bucket>, order': seq<CalendarMonth>)
    ensures Tally(buckets', order') == Bump(Tally(buckets, order), p)
  {
    buckets', order' := buckets, order;
    if p.0 !in buckets' {
      buckets' := buckets'[p.0 := Bucket(0.0, 0)];
      order' := order' + [p.0];
    }
    buckets' := buckets'[p.0 := Bucket(buckets'[p.0].total + p.1, buckets'[p.0].count + 1)];
  }

  function YearText(c: CalendarMonth): string
  {
    match c
    case Month(y, _) => IntToString(y)
    case InvalidDate => "NaN"
  }

  function MonthIndex(c: CalendarMonth): Option<int>
  {
    match c
    case Month(_, m) => Some(m)
    case InvalidDate => None
  }

  /** The cell of month `c`: its year, its month and the mean of its returns. */
  function MeanCell(ps: seq<Reading>, c: CalendarMonth): Cell
    requires CountOf(ps, c) >= 1
  {
    Cell(YearText(c), MonthIndex(c), Round4(SumOf(ps, c) / CountOf(ps, c) as real))
  }

  /** `+(totalReturn / count).toFixed(4)`. */
  function Mean(b: Bucket): real
    requires b.count >= 1
  {
    Round4(b.total / b.count as real)
  }

  /** `Object.values(monthlyReturns).map(...)`: one cell per key, in key order. */
  function Cells(t: Tally): (r: seq<Cell>)
    requires WellFormed(t)
    ensures |r| == |t.order|
    ensures forall k :: 0 <= k < |t.order| ==>
      r[k] == Cell(YearText(t.order[k]), MonthIndex(t.order[k]), Mean(t.buckets[t.order[k]]))
  {
    seq(|t.order|, k requires 0 <= k < |t.order| =>
      Cell(YearText(t.order[k]), MonthIndex(t.order[k]), Mean(t.buckets[t.order[k]])))
  }

  function Values(cells: seq<Cell>): (r: seq<real>)
    ensures |r| == |cells| && forall k :: 0 <= k < |cells| ==> r[k] == cells[k].value
  {
    seq(|cells|, k requires 0 <= k < |cells| => cells[k].value)
  }

  function YearsOf(cells: seq<Cell>): (r: seq<string>)
    ensures |r| == |cells| && forall k :: 0 <= k < |cells| ==> r[k] == cells[k].year
  {
    seq(|cells|, k requires 0 <= k < |cells| => cells[k].year)
  }

  /** The y-axis: the distinct year labels of the cells, sorted. */
  function YearAxis(cells: seq<Cell>): (r: seq<string>)
    ensures StrictlySorted(r) && forall y :: y in r <==> exists k :: 0 <= k < |cells| && cells[k].year == y
  {
    var years := YearsOf(cells);
    assert forall y :: y in years <==> exists k :: 0 <= k < |cells| && cells[k].year == y;
    SortDistinct(years)
  }

  /** The colour range: the least and greatest cell value, `[0, 1]` with no cell. */
  function ColourRange(cells: seq<Cell>): (r: (real, real))
    ensures cells == [] ==> r == (0.0, 1.0)
    ensures cells != [] ==>
      && (exists k :: 0 <= k < |cells| && cells[k].value == r.0)
      && (exists k :: 0 <= k < |cells| && cells[k].value == r.1)
      && forall k :: 0 <= k < |cells| ==> r.0 <= cells[k].value <= r.1
  {
    var values := Values(cells);
    if |values| > 0 then (Min(values), Max(values)) else (0.0, 1.0)
  }

  /** One model's heat map from its tally.  `years` is the sorted list of the
      distinct year labels; the colour range is the least and greatest mean, or
      `[0, 1]` when there is no cell. */
  function HeatmapOf(model: string, t: Tally): (r: Heatmap)
    requires WellFormed(t)
    ensures r.model == model && r.cells == Cells(t)
    ensures StrictlySorted(r.years) && forall y :: y in r.years <==> exists k :: 0 <= k < |r.cells| && r.cells[k].year == y
    ensures r.cells == [] ==> r.min == 0.0 && r.max == 1.0
    ensures r.cells != [] ==>
      && (exists k :: 0 <= k < |r.cells| && r.cells[k].value == r.min)
      && (exists k :: 0 <= k < |r.cells| && r.cells[k].value == r.max)
      && forall k :: 0 <= k < |r.cells| ==> r.min <= r.cells[k].value <= r.max
  {
    var cells := Cells(t);
    var range := ColourRange(cells);
    Heatmap(model, cells, YearAxis(cells), range.0, range.1)
  }

  /** The heat map of one model's data: `forEach` is read off the data, so
      anything but an array throws. */
  function ModelHeatmap(model: string, data: Json, env: Builtins): (r: Result<Heatmap>)
    ensures r.Ok? <==> data.JArr? && Buckets(data.items, env).Ok?
    ensures r.Ok? ==> WellFormed(Buckets(data.items, env).value) &&
                      r.value == HeatmapOf(model, Buckets(data.items, env).value)
  {
    var rows :- AsArray(data);
    var t :- Buckets(rows, env);
    RowReadings(rows, env);
    FoldKeys(MapResult(rows, ReadRowWith(env)).value);
    Ok(HeatmapOf(model, t))
  }

  /** A cell for every month some reading has and for no other, each month
      once, holding the mean of that month's returns rounded to four decimals. */
  lemma FoldMeans(ps: seq<Reading>)
    ensures WellFormed(Fold(ps))
    ensures var t := Fold(ps);
      && (forall i :: 0 <= i < |ps| ==> ps[i].0 in t.order)
      && forall k :: 0 <= k < |t.order| ==>
           && (exists i :: 0 <= i < |ps| && ps[i].0 == t.order[k])
           && CountOf(ps, t.order[k]) >= 1
           && Cells(t)[k] == MeanCell(ps, t.order[k])
  {
    FoldKeys(ps);
    FoldTotals(ps);
  }

  /** The counts add up to the readings, so there are no more cells than readings. */
  lemma FoldCells(ps: seq<Reading>)
    ensures WellFormed(Fold(ps))
    ensures TotalCount(Fold(ps).order, Fold(ps).buckets) == |ps|
    ensures |Cells(Fold(ps))| <= |ps|
  {
    var t := Fold(ps);
    FoldKeys(ps);
    FoldConserve(ps);
    TotalAtLeastKeys(t.order, t.buckets);
    assert |Cells(t)| == |t.order| <= |ps|;
  }

  /** The heat map of a model whose rows all read: one cell per month of the
      rows, each the rounded mean of the returns of that month's rows. */
  lemma HeatmapMeans(model: string, data: Json, env: Builtins)
    requires ModelHeatmap(model, data, env).Ok?
    ensures MapResult(data.items, ReadRowWith(env)).Ok?
    ensures var ps := MapResult(data.items, ReadRowWith(env)).value;
      var h := ModelHeatmap(model, data, env).value;
      && |ps| == |data.items|
      && (forall i :: 0 <= i < |ps| ==> ReadRow(data.items[i], env) == Ok(ps[i]))
      && TotalCount(Fold(ps).order, Fold(ps).buckets) == |data.items|
      && |h.cells| <= |data.items|
      && (forall k :: 0 <= k < |h.cells| ==>
            exists c :: c in Fold(ps).order && CountOf(ps, c) >= 1 && h.cells[k] == MeanCell(ps, c))
  {
    RowReadings(data.items, env);
    var ps := MapResult(data.items, ReadRowWith(env)).value;
    FoldMeans(ps);
    FoldCells(ps);
    var t := Fold(ps);
    forall k | 0 <= k < |t.order|
      ensures exists c :: c in t.order && CountOf(ps, c) >= 1 && Cells(t)[k] == MeanCell(ps, c)
    {
      var c := t.order[k];
      assert c in t.order;
    }
  }

  /** Every row's month has its cell in the heat map: the rounded mean of
      that month's returns. */
  lemma HeatmapCovers(model: string, data: Json, env: Builtins)
    requires ModelHeatmap(model, data, env).Ok?
    ensures MapResult(data.items, ReadRowWith(env)).Ok?
    ensures var ps := MapResult(data.items, ReadRowWith(env)).value;
      var h := ModelHeatmap(model, data, env).value;
      && |ps| == |data.items|
      && forall i :: 0 <= i < |ps| ==>
           && ReadRow(data.items[i], env) == Ok(ps[i])
           && CountOf(ps, ps[i].0) >= 1
           && exists k :: 0 <= k < |h.cells| && h.cells[k] == MeanCell(ps, ps[i].0)
  {
    RowReadings(data.items, env);
    var ps := MapResult(data.items, ReadRowWith(env)).value;
    FoldCovers(ps);
    assert ModelHeatmap(model, data, env).value.cells == Cells(Fold(ps));
  }

  /** Every reading's month has a cell holding that month's mean. */
  lemma FoldCovers(ps: seq<Reading>)
    ensures WellFormed(Fold(ps))
    ensures forall i :: 0 <= i < |ps| ==>
      CountOf(ps, ps[i].0) >= 1 && exists k :: 0 <= k < |Cells(Fold(ps))| && Cells(Fold(ps))[k] == MeanCell(ps, ps[i].0)
  {
    FoldMeans(ps);
    var t := Fold(ps);
    forall i | 0 <= i < |ps|
      ensures CountOf(ps, ps[i].0) >= 1
      ensures exists k :: 0 <= k < |t.order| && Cells(t)[k] == MeanCell(ps, ps[i].0)
    {
      var k :| 0 <= k < |t.order| && t.order[k] == ps[i].0;
    }
  }

  /** The readings behind a successful tally are the rows' readings, in order. */
  lemma RowReadings(rows: seq<Json>, env: Builtins)
    requires Buckets(rows, env).Ok?
    ensures MapResult(rows, ReadRowWith(env)).Ok?
    ensures Buckets(rows, env).value == Fold(MapResult(rows, ReadRowWith(env)).value)
    ensures var ps := MapResult(rows, ReadRowWith(env)).value;
      |ps| == |rows| && forall i :: 0 <= i < |rows| ==> ReadRow(rows[i], env) == Ok(ps[i])
  {
    var ps := MapResult(rows, ReadRowWith(env)).value;
    forall i | 0 <= i < |rows| ensures ReadRow(rows[i], env) == Ok(ps[i]) {
      assert ReadRowWith(env)(rows[i]).Ok?;
    }
  }

  /** With every listed bucket holding a row, there are no more keys than rows. */
  lemma {:induction false} TotalAtLeastKeys(order: seq<CalendarMonth>, buckets: map<CalendarMonth, Bucket>)
    requires forall k :: 0 <= k < |order| ==> order[k] in buckets && buckets[order[k]].count >= 1
    ensures |order| <= TotalCount(order, buckets)
    decreases |order|
  {
    if order != [] {
      TotalAtLeastKeys(order[..|order| - 1], buckets);
    }
  }

  /** One model's pass: the dictionary is filled by `Accumulate`, then read out. */
  method BuildHeatmap(model: string, data: Json, env: Builtins) returns (r: Result<Heatmap>)
    ensures r == ModelHeatmap(model, data, env)
  {
    if !data.JArr? {
      return Err(TypeError);
    }
    var t := Accumulate(data.items, env);
    if t.Err? {
      return Err(t.failure);
    }
    RowReadings(data.items, env);
    FoldKeys(MapResult(data.items, ReadRowWith(env)).value);
    return Ok(HeatmapOf(model, t.value));
  }

  function HeatmapWith(env: Builtins): ((string, Json)) -> Result<Heatmap>
  {
    (e: (string, Json)) => ModelHeatmap(e.0, e.1, env)
  }

  /** `initMonthlyHeatmap`: one heat map per model in key order, each rendered
      as soon as it is built.  The first model whose data throws ends the loop;
      the heat maps of the models before it are already on the page, so they
      are returned with the failure. */
  method BuildHeatmaps(backtest: Entries, env: Builtins) returns (maps: seq<Heatmap>, failure: Option<Failure>)
    ensures failure.None? <==> MapResult(backtest, HeatmapWith(env)).Ok?
    ensures failure.None? ==> maps == MapResult(backtest, HeatmapWith(env)).value
    ensures failure.Some? ==>
      && |maps| < |backtest|
      && MapResult(backtest[..|maps|], HeatmapWith(env)) == Ok(maps)
      && ModelHeatmap(backtest[|maps|].0, backtest[|maps|].1, env) == Err(failure.value)
      && MapResult(backtest, HeatmapWith(env)) == Err(failure.value)
  {
    maps := [];
    var i := 0;
    while i < |backtest|
      invariant 0 <= i <= |backtest| && |maps| == i
      invariant MapResult(backtest[..i], HeatmapWith(env)) == Ok(maps)
    {
      var h := BuildHeatmap(backtest[i].0, backtest[i].1, env);
      if h.Err? {
        MapResultFirstError(backtest, HeatmapWith(env), i);
        return maps, Some(h.failure);
      }
      MapResultSnoc(backtest, HeatmapWith(env), i);
      maps := maps + [h.value];
      i := i + 1;
    }
    assert backtest[..i] == backtest;
    return maps, None;
  }
}
