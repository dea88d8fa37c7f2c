/** The prediction-error box plot (`initErrorChart`, enhancement.js:372-440): for
    each model with at least one error sample, the five-number summary of its
    sorted samples, with quartiles by linear interpolation. */
module Boxplot {
  import opened Results
  import opened Js
  import opened Lists

  /** `[min, q1, median, q3, max]`. */
  datatype Box = Box(min: real, q1: real, median: real, q3: real, max: real)

  predicate Ordered(b: Box)
  {
    b.min <= b.q1 <= b.median <= b.q3 <= b.max
  }

  // ---------------------------------------------------------------- percentile

  /** `(p / 100) * (arr.length - 1)`: the fractional rank of percentile `p`. */
  function Rank(n: nat, p: real): (index: real)
    requires n > 0 && 0.0 <= p <= 100.0
    ensures 0.0 <= index <= (n - 1) as real
  {
    p / 100.0 * (n - 1) as real
  }

  lemma MulNonneg(x: real, y: real)
    requires 0.0 <= x && 0.0 <= y
    ensures 0.0 <= x * y
  {
  }

  lemma RankMonotone(n: nat, p1: real, p2: real)
    requires n > 0 && 0.0 <= p1 <= p2 <= 100.0
    ensures Rank(n, p1) <= Rank(n, p2)
  {
    MulNonneg(p2 - p1, (n - 1) as real);
  }

  function Ceil(x: real): (c: int)
    ensures c as real - 1.0 < x <= c as real
  {
    -((-x).Floor)
  }

  /** `a + (b - a) * t`. */
  function Lerp(a: real, b: real, t: real): real
  {
    a + (b - a) * t
  }

  lemma LerpBetween(a: real, b: real, t: real)
    requires 0.0 <= t <= 1.0 && a <= b
    ensures a <= Lerp(a, b, t) <= b
  {
    MulNonneg(b - a, t);
    MulNonneg(b - a, 1.0 - t);
  }

  lemma LerpMonotone(a: real, b: real, t1: real, t2: real)
    requires t1 <= t2 && a <= b
    ensures Lerp(a, b, t1) <= Lerp(a, b, t2)
  {
    MulNonneg(b - a, t2 - t1);
  }

  /** `percentile(arr, p)`: the element at the rank when it is whole, otherwise
      the linear interpolation between the elements either side of it. */
  function Percentile(arr: seq<real>, p: real): (v: real)
    requires |arr| > 0 && 0.0 <= p <= 100.0
    ensures p == 0.0 ==> v == arr[0]
    ensures p == 100.0 ==> v == arr[|arr| - 1]
  {
    var index := Rank(|arr|, p);
    var lower := index.Floor;
    var upper := Ceil(index);
    if lower == upper then arr[lower]
    else Lerp(arr[lower], arr[upper], index - lower as real)
  }

  /** On a sorted array the percentile lies between the elements at the floor
      and at the ceiling of its rank. */
  lemma PercentileBetween(arr: seq<real>, p: real)
    requires |arr| > 0 && Sorted(arr) && 0.0 <= p <= 100.0
    ensures arr[Rank(|arr|, p).Floor] <= Percentile(arr, p) <= arr[Ceil(Rank(|arr|, p))]
  {
    var index := Rank(|arr|, p);
    var lower, upper := index.Floor, Ceil(index);
    if lower != upper {
      LerpBetween(arr[lower], arr[upper], index - lower as real);
    }
  }

  /** On a sorted array a higher percentile is never smaller. */
  lemma {:induction false} PercentileMonotone(arr: seq<real>, p1: real, p2: real)
    requires |arr| > 0 && Sorted(arr) && 0.0 <= p1 <= p2 <= 100.0
    ensures Percentile(arr, p1) <= Percentile(arr, p2)
  {
    var i1, i2 := Rank(|arr|, p1), Rank(|arr|, p2);
    RankMonotone(|arr|, p1, p2);
    var l1, l2 := i1.Floor, i2.Floor;
    PercentileBetween(arr, p1);
    PercentileBetween(arr, p2);
    if l1 < l2 {
      assert arr[Ceil(i1)] <= arr[l2];
    } else if l1 != Ceil(i1) && l2 != Ceil(i2) {
      LerpMonotone(arr[l1], arr[Ceil(i1)], i1 - l1 as real, i2 - l2 as real);
    }
  }

  // ---------------------------------------------------------------- one model

  /** `[sorted[0], percentile(sorted, 25), percentile(sorted, 50),
      percentile(sorted, 75), sorted[sorted.length - 1]]`. */
  function BoxOf(sorted: seq<real>): (b: Box)
    requires |sorted| > 0
  {
    Box(sorted[0], Percentile(sorted, 25.0), Percentile(sorted, 50.0), Percentile(sorted, 75.0), sorted[|sorted| - 1])
  }

  /** The five numbers of sorted samples never decrease. */
  lemma BoxOrdered(sorted: seq<real>)
    requires |sorted| > 0 && Sorted(sorted)
    ensures Ordered(BoxOf(sorted))
  {
    PercentileMonotone(sorted, 0.0, 25.0);
    PercentileMonotone(sorted, 25.0, 50.0);
    PercentileMonotone(sorted, 50.0, 75.0);
    PercentileMonotone(sorted, 75.0, 100.0);
  }

  /** The box of the sorted copy of some samples: its whiskers are their
      smallest and largest value, and every sample lies between them. */
  lemma SummaryOfSamples(errors: seq<real>)
    requires |errors| > 0
    ensures |SortAscending(errors)| == |errors|
    ensures Ordered(BoxOf(SortAscending(errors)))
    ensures BoxOf(SortAscending(errors)).min == Min(errors)
    ensures BoxOf(SortAscending(errors)).max == Max(errors)
  {
    var sorted := SortAscending(errors);
    SortedEnds(errors, sorted);
    BoxOrdered(sorted);
  }

  /** The ends of a sorted permutation are the minimum and the maximum. */
  lemma SortedEnds(s: seq<real>, sorted: seq<real>)
    requires |s| > 0 && Sorted(sorted) && multiset(sorted) == multiset(s)
    ensures |sorted| == |s|
    ensures sorted[0] == Min(s) && sorted[|sorted| - 1] == Max(s)
  {
    assert |multiset(sorted)| == |multiset(s)|;
    assert Min(s) in multiset(sorted) && Max(s) in multiset(sorted);
    assert sorted[0] in multiset(s) && sorted[|sorted| - 1] in multiset(s);
  }

  /** `item.close` of every parsed error record; the samples must be numbers,
      since the model does not follow the comparator `a - b` on other values. */
  function Sample(item: Json): (r: Result<real>)
    ensures r.Ok? <==> item.JObj? && "close" in item.fields && item.fields["close"].JNum?
    ensures r.Ok? ==> r.value == item.fields["close"].n
    ensures item == JNull ==> r == Err(TypeError)
  {
    var close :- Get(item, "close");
    match close
    case Some(JNum(n)) => Ok(n)
    case _ => Err(Unsupported)
  }

  function CloseOf(item: Json): Result<Option<Json>>
  {
    Get(item, "close")
  }

  function AsNumber(v: Option<Json>): (r: Result<real>)
    ensures r.Ok? <==> v.Some? && v.value.JNum?
  {
    if v.Some? && v.value.JNum? then Ok(v.value.n) else Err(Unsupported)
  }

  /** `JSON.parse(modelData[model].errors).map(item => item.close)`: the `errors`
      field is JSON text that must parse to an array of records.  Every record
      is read before any sample is compared, so a `null` record is a TypeError
      even when an earlier sample is not a number. */
  function Samples(dataObj: Json, env: Builtins): (r: Result<seq<real>>)
    ensures r.Ok? ==> exists items ::
      && Get(dataObj, "errors").Ok?
      && JsonParse(Get(dataObj, "errors").value, env) == Ok(JArr(items))
      && |r.value| == |items|
      && forall i :: 0 <= i < |items| ==> Sample(items[i]) == Ok(r.value[i])
    ensures dataObj == JNull ==> r == Err(TypeError)
    ensures dataObj.JObj? && "errors" !in dataObj.fields ==> r == Err(SyntaxError)
  {
    var raw :- Get(dataObj, "errors");
    var parsed :- JsonParse(raw, env);
    var items :- AsArray(parsed);
    var closes :- MapResult(items, CloseOf);
    var samples :- MapResult(closes, AsNumber);
    assert forall i :: 0 <= i < |items| ==> Sample(items[i]) == Ok(samples[i]);
    Ok(samples)
  }

  /** `errorArray.slice().sort((a, b) => a - b)`. */
  function SortedSamples(dataObj: Json, env: Builtins): (r: Result<seq<real>>)
    ensures r.Ok? <==> Samples(dataObj, env).Ok?
    ensures r.Ok? ==> r.value == SortAscending(Samples(dataObj, env).value)
  {
    var errors :- Samples(dataObj, env);
    Ok(SortAscending(errors))
  }

  /** Each model's name with its sorted samples or the failure to read them. */
  type Readings = seq<(string, Result<seq<real>>)>

  function Read(md: Entries, env: Builtins): (r: Readings)
    ensures |r| == |md| && forall i :: 0 <= i < |md| ==> r[i] == (md[i].0, SortedSamples(md[i].1, env))
  {
    seq(|md|, i requires 0 <= i < |md| => (md[i].0, SortedSamples(md[i].1, env)))
  }

  /** The chart's categories and boxes, one per model with samples, in key order. */
  datatype ErrorChart = ErrorChart(xAxisData: seq<string>, seriesData: seq<Box>)

  /** The boxes of the models with samples, in key order, or the failure of the
      first model whose samples cannot be read. */
  function KeptBoxes(rs: Readings): (r: Result<seq<(string, Box)>>)
    ensures r.Ok? <==> forall i :: 0 <= i < |rs| ==> rs[i].1.Ok?
    ensures r.Err? ==>
      exists i :: 0 <= i < |rs| && rs[i].1 == Err(r.failure) && forall j :: 0 <= j < i ==> rs[j].1.Ok?
    ensures r.Ok? ==> |r.value| <= |rs|
    decreases |rs|
  {
    if rs == [] then Ok([])
    else
      var init := rs[..|rs| - 1];
      assert forall i :: 0 <= i < |init| ==> init[i] == rs[i];
      var kept :- KeptBoxes(init);
      var (model, read) := rs[|rs| - 1];
      var sorted :- read;
      Ok(kept + if |sorted| == 0 then [] else [(model, BoxOf(sorted))])
  }

  /** Reading one more model extends the kept boxes by that model's box, if it
      has samples. */
  lemma KeptBoxesSnoc(rs: Readings, i: nat, kept: seq<(string, Box)>, sorted: seq<real>)
    requires i < |rs| && KeptBoxes(rs[..i]) == Ok(kept) && rs[i].1 == Ok(sorted)
    ensures KeptBoxes(rs[..i + 1]) == Ok(kept + if |sorted| == 0 then [] else [(rs[i].0, BoxOf(sorted))])
  {
    assert rs[..i + 1][..i] == rs[..i];
  }

  /** The first reading that failed is the failure of the whole. */
  lemma KeptBoxesFirstError(rs: Readings, i: nat)
    requires i < |rs| && KeptBoxes(rs[..i]).Ok? && rs[i].1.Err?
    ensures KeptBoxes(rs) == Err(rs[i].1.failure)
  {
    assert forall j :: 0 <= j < i ==> rs[..i][j] == rs[j];
    var r := KeptBoxes(rs);
    var j :| 0 <= j < |rs| && rs[j].1 == Err(r.failure) && forall l :: 0 <= l < j ==> rs[l].1.Ok?;
    assert j == i;
  }

  function Unzip(kept: seq<(string, Box)>): (c: ErrorChart)
    ensures |c.xAxisData| == |c.seriesData| == |kept|
    ensures forall k :: 0 <= k < |kept| ==> c.xAxisData[k] == kept[k].0 && c.seriesData[k] == kept[k].1
  {
    ErrorChart(seq(|kept|, k requires 0 <= k < |kept| => kept[k].0),
               seq(|kept|, k requires 0 <= k < |kept| => kept[k].1))
  }

  lemma UnzipSnoc(kept: seq<(string, Box)>, e: (string, Box))
    ensures Unzip(kept + [e]) ==
      ErrorChart(Unzip(kept).xAxisData + [e.0], Unzip(kept).seriesData + [e.1])
  {
    assert Unzip(kept + [e]).xAxisData == Unzip(kept).xAxisData + [e.0];
    assert Unzip(kept + [e]).seriesData == Unzip(kept).seriesData + [e.1];
  }

  /** The chart of a whole `model_results` object, given as its entries. */
  function ErrorChartOf(md: Entries, env: Builtins): Result<ErrorChart>
  {
    var kept :- KeptBoxes(Read(md, env));
    Ok(Unzip(kept))
  }

  /** The kept boxes belong to exactly the readings with samples, in order, each
      the box of that reading's samples. */
  lemma {:induction false} KeptModels(rs: Readings) returns (idx: seq<int>)
    requires KeptBoxes(rs).Ok?
    ensures |idx| == |KeptBoxes(rs).value|
    ensures forall k :: 0 <= k < |idx| ==>
      && 0 <= idx[k] < |rs|
      && rs[idx[k]].1.value != []
      && KeptBoxes(rs).value[k] == (rs[idx[k]].0, BoxOf(rs[idx[k]].1.value))
    ensures forall k, l :: 0 <= k < l < |idx| ==> idx[k] < idx[l]
    ensures forall i :: 0 <= i < |rs| && rs[i].1.value != [] ==> i in idx
    decreases |rs|
  {
    if rs == [] {
      idx := [];
    } else {
      var n := |rs| - 1;
      var init := rs[..n];
      assert forall i :: 0 <= i < |init| ==> init[i] == rs[i];
      var idx0 := KeptModels(init);
      if rs[n].1.value != [] {
        idx := idx0 + [n];
      } else {
        idx := idx0;
      }
    }
  }

  /** The chart names exactly the models with samples, in key order, each with
      the ordered box of its own samples, whose whiskers are their extremes; the
      first model whose samples cannot be read stops the chart. */
  lemma ErrorChartShape(md: Entries, env: Builtins) returns (idx: seq<int>)
    ensures ErrorChartOf(md, env).Ok? <==> forall i :: 0 <= i < |md| ==> Samples(md[i].1, env).Ok?
    ensures ErrorChartOf(md, env).Err? ==>
      exists i :: 0 <= i < |md| && Samples(md[i].1, env) == Err(ErrorChartOf(md, env).failure) &&
        forall j :: 0 <= j < i ==> Samples(md[j].1, env).Ok?
    ensures ErrorChartOf(md, env).Ok? ==>
      var c := ErrorChartOf(md, env).value;
      && |c.xAxisData| == |c.seriesData| == |idx|
      && (forall k, l :: 0 <= k < l < |idx| ==> idx[k] < idx[l])
      && (forall k :: 0 <= k < |idx| ==>
            && 0 <= idx[k] < |md|
            && c.xAxisData[k] == md[idx[k]].0
            && Samples(md[idx[k]].1, env).value != []
            && Ordered(c.seriesData[k])
            && c.seriesData[k].min == Min(Samples(md[idx[k]].1, env).value)
            && c.seriesData[k].max == Max(Samples(md[idx[k]].1, env).value))
      && (forall i :: 0 <= i < |md| && Samples(md[i].1, env).value != [] ==> i in idx)
  {
    var rs := Read(md, env);
    if KeptBoxes(rs).Ok? {
      idx := KeptModels(rs);
      var c := ErrorChartOf(md, env).value;
      forall k | 0 <= k < |idx|
        ensures Ordered(c.seriesData[k])
        ensures c.seriesData[k].min == Min(Samples(md[idx[k]].1, env).value)
        ensures c.seriesData[k].max == Max(Samples(md[idx[k]].1, env).value)
      {
        SummaryOfSamples(Samples(md[idx[k]].1, env).value);
      }
    } else {
      idx := [];
    }
  }

  /** `Object.keys(modelData).forEach(...)`, pushing one category and one box
      per model with samples. */
  method BuildErrorChart(md: Entries, env: Builtins) returns (r: Result<ErrorChart>)
    ensures r == ErrorChartOf(md, env)
  {
    ghost var rs := Read(md, env);
    var xAxisData: seq<string> := [];
    var seriesData: seq<Box> := [];
    ghost var kept: seq<(string, Box)> := [];
    var i := 0;
    assert rs[..0] == [];
    while i < |md|
      invariant 0 <= i <= |md|
      invariant KeptBoxes(rs[..i]) == Ok(kept)
      invariant Unzip(kept) == ErrorChart(xAxisData, seriesData)
    {
      var (model, dataObj) := md[i];
      var read := Samples(dataObj, env);
      if read.Err? {
        KeptBoxesFirstError(rs, i);
        return Err(read.failure);
      }
      var errorArray := read.value;
      var sorted := SortAscending(errorArray);
      assert rs[i].1 == Ok(sorted);
      KeptBoxesSnoc(rs, i, kept, sorted);
      if |errorArray| != 0 {
        var box := BoxOf(sorted);
        UnzipSnoc(kept, (model, box));
        xAxisData := xAxisData + [model];
        seriesData := seriesData + [box];
        kept := kept + [(model, box)];
      } else {
        assert kept + [] == kept;
      }
      i := i + 1;
    }
    assert rs[..i] == rs;
    return Ok(ErrorChart(xAxisData, seriesData));
  }
}
