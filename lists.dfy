/** Sequence combinators that the chart derivations are built from, with the
    facts about them that the derivations' contracts rest on.

    - `MapResult` is `Array.prototype.map` with a callback that may throw: the
      first exception, in index order, aborts the whole map.
    - `FilterMap` is `.map(f).filter(keep)`: the values `f` produces, in input
      order, without the ones it rejects.
    - `SortDistinct` is `[...new Set(xs)].sort()` on strings.
    - `Dedup` is the insertion order of a `Set` or of a fresh object's keys. */
module Lists {
  import opened Results

  /** `xs.map(f)` where `f` may throw. */
  function MapResult<A, B>(xs: seq<A>, f: A -> Result<B>): (r: Result<seq<B>>)
    ensures r.Ok? <==> forall i :: 0 <= i < |xs| ==> f(xs[i]).Ok?
    ensures r.Ok? ==> |r.value| == |xs| && forall i :: 0 <= i < |xs| ==> r.value[i] == f(xs[i]).value
    ensures r.Err? ==>
      exists i :: 0 <= i < |xs| && f(xs[i]) == Err(r.failure) && forall j :: 0 <= j < i ==> f(xs[j]).Ok?
    decreases |xs|
  {
    if xs == [] then Ok([])
    else
      var init := xs[..|xs| - 1];
      assert forall i :: 0 <= i < |init| ==> init[i] == xs[i];
      var done :- MapResult(init, f);
      var y :- f(xs[|xs| - 1]);
      Ok(done + [y])
  }

  /** Mapping a one-longer prefix extends the mapped prefix by one element, or fails there. */
  lemma MapResultSnoc<A, B>(xs: seq<A>, f: A -> Result<B>, i: nat)
    requires i < |xs|
    ensures MapResult(xs[..i + 1], f) ==
      match MapResult(xs[..i], f)
      case Err(e) => Err(e)
      case Ok(done) => (match f(xs[i]) case Err(e) => Err(e) case Ok(y) => Ok(done + [y]))
  {
    assert xs[..i + 1][..i] == xs[..i];
  }

  /** The first element that throws decides what the map throws. */
  lemma {:induction false} MapResultFirstError<A, B>(xs: seq<A>, f: A -> Result<B>, i: nat)
    requires i < |xs| && MapResult(xs[..i], f).Ok? && f(xs[i]).Err?
    ensures MapResult(xs, f) == Err(f(xs[i]).failure)
    decreases |xs|
  {
    var n := |xs| - 1;
    var init := xs[..n];
    if i < n {
      assert init[..i] == xs[..i];
      MapResultFirstError(init, f, i);
    } else {
      assert init == xs[..i];
    }
  }

  /** `xs.map(f).filter(...)`, where `f` yields `None` for the elements the filter drops. */
  function FilterMap<A, B>(xs: seq<A>, f: A -> Option<B>): (r: seq<B>)
    ensures |r| <= |xs|
    decreases |xs|
  {
    if xs == [] then []
    else
      FilterMap(xs[..|xs| - 1], f) + (match f(xs[|xs| - 1]) case Some(y) => [y] case None => [])
  }

  /** `idx` lists, in increasing order, exactly the positions of `xs` that `f` keeps,
      and `r` holds what `f` makes of them. */
  ghost predicate Selects<A, B>(xs: seq<A>, f: A -> Option<B>, r: seq<B>, idx: seq<int>)
  {
    && |idx| == |r|
    && (forall k :: 0 <= k < |idx| ==> 0 <= idx[k] < |xs| && f(xs[idx[k]]) == Some(r[k]))
    && (forall k, l :: 0 <= k < l < |idx| ==> idx[k] < idx[l])
    && (forall i :: 0 <= i < |xs| && f(xs[i]).Some? ==> i in idx)
  }

  /** The result of `FilterMap` is the subsequence of kept elements, in input order, and nothing else. */
  lemma {:induction false} FilterMapSelects<A, B>(xs: seq<A>, f: A -> Option<B>) returns (idx: seq<int>)
    ensures Selects(xs, f, FilterMap(xs, f), idx)
    decreases |xs|
  {
    if xs == [] {
      idx := [];
    } else {
      var idx0 := FilterMapSelects(xs[..|xs| - 1], f);
      idx := SelectsSnoc(xs, f, idx0);
    }
  }

  /** One step of `FilterMapSelects`: from the last element's verdict and the
      selection of the elements before it. */
  lemma SelectsSnoc<A, B>(xs: seq<A>, f: A -> Option<B>, idx0: seq<int>) returns (idx: seq<int>)
    requires xs != [] && Selects(xs[..|xs| - 1], f, FilterMap(xs[..|xs| - 1], f), idx0)
    ensures Selects(xs, f, FilterMap(xs, f), idx)
  {
    var n := |xs| - 1;
    var init := xs[..n];
    var r0 := FilterMap(init, f);
    var last := match f(xs[n]) case Some(y) => [y] case None => [];
    idx := if f(xs[n]).Some? then idx0 + [n] else idx0;
    var r := r0 + last;
    assert FilterMap(xs, f) == r;
    forall k | 0 <= k < |idx|
      ensures 0 <= idx[k] < |xs| && f(xs[idx[k]]) == Some(r[k])
    {
      if k < |idx0| {
        assert idx[k] == idx0[k] && r[k] == r0[k];
        assert init[idx0[k]] == xs[idx0[k]];
      }
    }
    forall k, l | 0 <= k < l < |idx|
      ensures idx[k] < idx[l]
    {
      if l < |idx0| {
        assert idx[k] == idx0[k] && idx[l] == idx0[l];
      } else {
        assert idx[k] == idx0[k] < n;
      }
    }
    forall i | 0 <= i < |xs| && f(xs[i]).Some?
      ensures i in idx
    {
      if i < n {
        assert f(init[i]).Some?;
        assert i in idx0;
      } else {
        assert idx[|idx| - 1] == n;
      }
    }
  }

  /** Every kept value is in the result, and everything in the result was kept from some element. */
  lemma FilterMapMembers<A, B>(xs: seq<A>, f: A -> Option<B>)
    ensures forall i :: 0 <= i < |xs| && f(xs[i]).Some? ==> f(xs[i]).value in FilterMap(xs, f)
    ensures forall k :: 0 <= k < |FilterMap(xs, f)| ==>
      exists i :: 0 <= i < |xs| && f(xs[i]) == Some(FilterMap(xs, f)[k])
  {
    var r := FilterMap(xs, f);
    var idx := FilterMapSelects(xs, f);
    forall i | 0 <= i < |xs| && f(xs[i]).Some?
      ensures f(xs[i]).value in r
    {
      var k :| 0 <= k < |idx| && idx[k] == i;
      assert r[k] == f(xs[i]).value;
    }
    forall k | 0 <= k < |r|
      ensures exists i :: 0 <= i < |xs| && f(xs[i]) == Some(r[k])
    {
      assert f(xs[idx[k]]) == Some(r[k]);
    }
  }

  /** `[].concat(...xss)`. */
  function Concat<T>(xss: seq<seq<T>>): seq<T>
    decreases |xss|
  {
    if xss == [] then [] else Concat(xss[..|xss| - 1]) + xss[|xss| - 1]
  }

  /** Appending one element leaves a prefix alone and extends the suffix after it. */
  lemma SnocSlices<T>(s: seq<T>, x: T, n: nat)
    requires n <= |s|
    ensures (s + [x])[..n] == s[..n] && (s + [x])[n..] == s[n..] + [x]
  {
  }

  /** Concatenating one more list appends it. */
  lemma ConcatSnoc<T>(xss: seq<seq<T>>, xs: seq<T>)
    ensures Concat(xss + [xs]) == Concat(xss) + xs
  {
    assert (xss + [xs])[..|xss|] == xss;
  }

  /** The number of elements `Concat` produces. */
  function SumLengths<T>(xss: seq<seq<T>>): nat
    decreases |xss|
  {
    if xss == [] then 0 else SumLengths(xss[..|xss| - 1]) + |xss[|xss| - 1]|
  }

  lemma {:induction false} ConcatLength<T>(xss: seq<seq<T>>)
    ensures |Concat(xss)| == SumLengths(xss)
    decreases |xss|
  {
    if xss != [] {
      ConcatLength(xss[..|xss| - 1]);
    }
  }

  /** Each element of each list is in the concatenation. */
  lemma {:induction false} ConcatMember<T>(xss: seq<seq<T>>, k: nat, j: nat)
    requires k < |xss| && j < |xss[k]|
    ensures xss[k][j] in Concat(xss)
    decreases |xss|
  {
    var n := |xss| - 1;
    if k < n {
      ConcatMember(xss[..n], k, j);
    } else {
      assert xss[k][j] in xss[n];
    }
  }

  /** Element `j` of list `k` sits right after the elements of the lists before it. */
  lemma {:induction false} ConcatAt<T>(xss: seq<seq<T>>, k: nat, j: nat)
    requires k < |xss| && j < |xss[k]|
    ensures SumLengths(xss[..k]) + j < |Concat(xss)|
    ensures Concat(xss)[SumLengths(xss[..k]) + j] == xss[k][j]
    decreases |xss|
  {
    var n := |xss| - 1;
    ConcatLength(xss[..n]);
    if k < n {
      ConcatAt(xss[..n], k, j);
      assert xss[..n][..k] == xss[..k];
    } else {
      assert xss[..k] == xss[..n];
    }
  }

  /** When every list holds two elements, list `k` fills positions `2k` and `2k+1`. */
  lemma {:induction false} ConcatPairs<T>(xss: seq<seq<T>>)
    requires forall k :: 0 <= k < |xss| ==> |xss[k]| == 2
    ensures |Concat(xss)| == 2 * |xss|
    ensures forall k :: 0 <= k < |xss| ==> Concat(xss)[2 * k] == xss[k][0] && Concat(xss)[2 * k + 1] == xss[k][1]
    decreases |xss|
  {
    if xss != [] {
      var n := |xss| - 1;
      ConcatPairs(xss[..n]);
      assert forall k :: 0 <= k < n ==> xss[..n][k] == xss[k];
    }
  }

  // ---------------------------------------------------------------- numbers

  ghost predicate Sorted(s: seq<real>)
  {
    forall i, j :: 0 <= i < j < |s| ==> s[i] <= s[j]
  }

  /** `s` with `x` placed before its first element not below `x`. */
  function Insert(x: real, s: seq<real>): (r: seq<real>)
    ensures |r| == |s| + 1
    ensures multiset(r) == multiset(s) + multiset{x}
    decreases |s|
  {
    if s == [] || x <= s[0] then [x] + s
    else
      assert s == [s[0]] + s[1..];
      [s[0]] + Insert(x, s[1..])
  }

  /** Inserting into a sorted list keeps it sorted. */
  lemma {:induction false} InsertSorted(x: real, s: seq<real>)
    requires Sorted(s)
    ensures Sorted(Insert(x, s))
    decreases |s|
  {
    if s == [] || x <= s[0] {
      SortedCons(x, s);
    } else {
      InsertSorted(x, s[1..]);
      InsertAbove(x, s[1..], s[0]);
      SortedCons(s[0], Insert(x, s[1..]));
    }
  }

  /** A lower bound of `x` and of every element of `s` bounds the inserted list. */
  lemma InsertAbove(x: real, s: seq<real>, b: real)
    requires b <= x && forall i :: 0 <= i < |s| ==> b <= s[i]
    ensures forall i :: 0 <= i < |Insert(x, s)| ==> b <= Insert(x, s)[i]
  {
    var r := Insert(x, s);
    forall i | 0 <= i < |r| ensures b <= r[i] {
      assert r[i] in multiset(r);
      if r[i] != x {
        assert r[i] in multiset(s);
      }
    }
  }

  /** A head not above a sorted tail's elements gives a sorted list. */
  lemma SortedCons(h: real, t: seq<real>)
    requires Sorted(t) && forall i :: 0 <= i < |t| ==> h <= t[i]
    ensures Sorted([h] + t)
  {
    var r := [h] + t;
    forall i, j | 0 <= i < j < |r| ensures r[i] <= r[j] {
      assert r[j] == t[j - 1];
      if i > 0 {
        assert r[i] == t[i - 1];
      }
    }
  }

  /** `arr.slice().sort((a, b) => a - b)` on numbers. */
  function SortAscending(s: seq<real>): (r: seq<real>)
    ensures |r| == |s|
    ensures Sorted(r) && multiset(r) == multiset(s)
    decreases |s|
  {
    if s == [] then []
    else
      assert s == [s[0]] + s[1..];
      InsertSorted(s[0], SortAscending(s[1..]));
      Insert(s[0], SortAscending(s[1..]))
  }

  /** `Math.min(...s)` for a non-empty list of finite numbers. */
  function Min(s: seq<real>): (m: real)
    requires |s| > 0
    ensures m in s && forall i :: 0 <= i < |s| ==> m <= s[i]
    decreases |s|
  {
    if |s| == 1 then s[0]
    else
      var t := Min(s[1..]);
      if s[0] <= t then s[0] else t
  }

  /** `Math.max(...s)` for a non-empty list of finite numbers. */
  function Max(s: seq<real>): (m: real)
    requires |s| > 0
    ensures m in s && forall i :: 0 <= i < |s| ==> s[i] <= m
    decreases |s|
  {
    if |s| == 1 then s[0]
    else
      var t := Max(s[1..]);
      if s[0] >= t then s[0] else t
  }

  // ---------------------------------------------------------------- strings

  /** The default order of `Array.prototype.sort` on strings: code unit by code unit,
      a proper prefix first. */
  predicate LexLess(a: string, b: string)
    decreases |a|
  {
    if b == [] then false
    else if a == [] then true
    else if a[0] != b[0] then a[0] < b[0]
    else LexLess(a[1..], b[1..])
  }

  lemma {:induction false} LexIrreflexive(a: string)
    ensures !LexLess(a, a)
    decreases |a|
  {
    if a != [] {
      LexIrreflexive(a[1..]);
    }
  }

  lemma {:induction false} LexTransitive(a: string, b: string, c: string)
    requires LexLess(a, b) && LexLess(b, c)
    ensures LexLess(a, c)
    decreases |a|
  {
    if a != [] && a[0] == b[0] && b[0] == c[0] {
      LexTransitive(a[1..], b[1..], c[1..]);
    }
  }

  lemma {:induction false} LexTotal(a: string, b: string)
    requires a != b
    ensures LexLess(a, b) || LexLess(b, a)
    decreases |a|
  {
    if a != [] && b != [] && a[0] == b[0] {
      assert a == [a[0]] + a[1..] && b == [b[0]] + b[1..];
      LexTotal(a[1..], b[1..]);
    }
  }

  ghost predicate StrictlySorted(s: seq<string>)
  {
    forall i, j :: 0 <= i < j < |s| ==> LexLess(s[i], s[j])
  }

  lemma BelowHead(x: string, s: seq<string>)
    requires StrictlySorted(s) && s != [] && LexLess(x, s[0])
    ensures forall j :: 0 <= j < |s| ==> LexLess(x, s[j])
  {
    forall j | 0 < j < |s| {
      LexTransitive(x, s[0], s[j]);
    }
  }

  function InsertDistinct(x: string, s: seq<string>): (r: seq<string>)
    requires StrictlySorted(s)
    ensures StrictlySorted(r)
    ensures forall y :: y in r <==> y == x || y in s
    decreases |s|
  {
    if s == [] then [x]
    else if x == s[0] then s
    else if LexLess(x, s[0]) then
      BelowHead(x, s);
      [x] + s
    else
      LexTotal(x, s[0]);
      var rest := InsertDistinct(x, s[1..]);
      assert forall k :: 0 <= k < |rest| ==> LexLess(s[0], rest[k]) by {
        forall k | 0 <= k < |rest|
          ensures LexLess(s[0], rest[k])
        {
          assert rest[k] in rest;
          if rest[k] != x {
            var j :| 0 <= j < |s[1..]| && s[1..][j] == rest[k];
            assert s[j + 1] == rest[k];
          }
        }
      }
      [s[0]] + rest
  }

  /** `[...new Set(xs)].sort()` on strings. */
  function SortDistinct(xs: seq<string>): (r: seq<string>)
    ensures StrictlySorted(r)
    ensures forall y :: y in r <==> y in xs
    decreases |xs|
  {
    if xs == [] then []
    else InsertDistinct(xs[|xs| - 1], SortDistinct(xs[..|xs| - 1]))
  }

  /** A strictly sorted list is determined by its elements: the sorted result
      does not depend on the order in which the set was filled. */
  lemma {:induction false} StrictlySortedUnique(a: seq<string>, b: seq<string>)
    requires StrictlySorted(a) && StrictlySorted(b)
    requires forall y :: y in a <==> y in b
    ensures a == b
    decreases |a|
  {
    assert b == [] || b[0] in b;
    if a != [] {
      assert a[0] in b;
      SameHead(a, b);
      forall y
        ensures y in a[1..] <==> y in b[1..]
      {
        if y in a[1..] {
          InTail(a, b, y);
        }
        if y in b[1..] {
          InTail(b, a, y);
        }
      }
      StrictlySortedUnique(a[1..], b[1..]);
      assert a == [a[0]] + a[1..] && b == [b[0]] + b[1..];
    }
  }

  /** Two strictly sorted lists with the same elements start alike. */
  lemma SameHead(a: seq<string>, b: seq<string>)
    requires StrictlySorted(a) && StrictlySorted(b) && a != [] && b != []
    requires forall y :: y in a <==> y in b
    ensures a[0] == b[0]
  {
    assert a[0] in a && b[0] in b;
    var k :| 0 <= k < |b| && b[k] == a[0];
    var m :| 0 <= m < |a| && a[m] == b[0];
    if k != 0 && m != 0 {
      LexTransitive(a[0], a[m], a[0]);
      LexIrreflexive(a[0]);
    } else if k != 0 {
      LexIrreflexive(b[0]);
    }
  }

  /** After a common head, an element of one tail is in the other. */
  lemma InTail(a: seq<string>, b: seq<string>, y: string)
    requires StrictlySorted(a) && StrictlySorted(b) && a != [] && b != [] && a[0] == b[0]
    requires forall y :: y in a <==> y in b
    requires y in a[1..]
    ensures y in b[1..]
  {
    var i :| 0 <= i < |a[1..]| && a[1..][i] == y;
    assert LexLess(a[0], a[i + 1]);
    LexIrreflexive(y);
    assert y in a;
    var j :| 0 <= j < |b| && b[j] == y;
    assert b[1..][j - 1] == y;
  }

  /** The distinct elements of `xs` in order of first occurrence. */
  function Dedup<T(==)>(xs: seq<T>): (r: seq<T>)
    ensures forall i :: 0 <= i < |xs| ==> xs[i] in r
    ensures forall k :: 0 <= k < |r| ==> r[k] in xs
    ensures forall i, j :: 0 <= i < j < |r| ==> r[i] != r[j]
    decreases |xs|
  {
    if xs == [] then []
    else
      var init := xs[..|xs| - 1];
      var d := Dedup(init);
      assert forall i :: 0 <= i < |init| ==> init[i] == xs[i];
      if xs[|xs| - 1] in d then d else d + [xs[|xs| - 1]]
  }
}
