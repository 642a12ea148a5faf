/** The shapes of Python's list and dict comprehensions, with exceptions. */
module Seqs {
  import opened Wrappers

  /** The elements of `s` that satisfy `p`, in order. */
  function Filter<T>(s: seq<T>, p: T -> bool): seq<T> {
    if s == [] then [] else (if p(s[0]) then [s[0]] else []) + Filter(s[1..], p)
  }

  /** The filter never lengthens its input. */
  lemma {:induction false} FilterLength<T>(s: seq<T>, p: T -> bool)
    ensures |Filter(s, p)| <= |s|
  {
    if s != [] {
      FilterLength(s[1..], p);
    }
  }

  /** Every element the filter keeps satisfies the condition and comes from the input. */
  lemma {:induction false} FilterKept<T>(s: seq<T>, p: T -> bool, k: nat)
    requires k < |Filter(s, p)|
    ensures p(Filter(s, p)[k])
    ensures exists j :: 0 <= j < |s| && s[j] == Filter(s, p)[k]
  {
    var t := Filter(s[1..], p);
    assert Filter(s, p) == (if p(s[0]) then [s[0]] else []) + t;
    if p(s[0]) && k == 0 {
      assert Filter(s, p)[0] == s[0];
    } else {
      var h := if p(s[0]) then 1 else 0;
      assert Filter(s, p)[k] == t[k - h];
      FilterKept(s[1..], p, k - h);
      var i :| 0 <= i < |s[1..]| && s[1..][i] == t[k - h];
      assert s[i + 1] == Filter(s, p)[k];
    }
  }

  /** Every element of the input that satisfies the condition is kept. */
  lemma {:induction false} FilterKeeps<T>(s: seq<T>, p: T -> bool, j: nat)
    requires j < |s| && p(s[j])
    ensures exists k :: 0 <= k < |Filter(s, p)| && Filter(s, p)[k] == s[j]
  {
    var t := Filter(s[1..], p);
    var h := if p(s[0]) then 1 else 0;
    assert Filter(s, p) == (if p(s[0]) then [s[0]] else []) + t;
    if j == 0 {
      assert Filter(s, p)[0] == s[0];
    } else {
      assert s[1..][j - 1] == s[j];
      FilterKeeps(s[1..], p, j - 1);
      var i :| 0 <= i < |t| && t[i] == s[j];
      assert Filter(s, p)[i + h] == s[j];
    }
  }

  /** `xs` is obtained from `ys` by deleting elements. */
  ghost predicate Subsequence<T>(xs: seq<T>, ys: seq<T>)
    decreases ys
  {
    if ys == [] then xs == []
    else Subsequence(xs, ys[1..]) || (xs != [] && xs[0] == ys[0] && Subsequence(xs[1..], ys[1..]))
  }

  lemma {:induction false} FilterIsSubsequence<T>(s: seq<T>, p: T -> bool)
    ensures Subsequence(Filter(s, p), s)
  {
    if s != [] {
      FilterIsSubsequence(s[1..], p);
      if p(s[0]) {
        assert Filter(s, p) == [s[0]] + Filter(s[1..], p);
        assert Filter(s, p)[1..] == Filter(s[1..], p);
      } else {
        assert Filter(s, p) == Filter(s[1..], p);
      }
    }
  }

  /** `[f(x) for x in xs]`: the first exception `f` raises, or all results in order. */
  function MapResult<A, B>(xs: seq<A>, f: A -> Result<B>): Result<seq<B>> {
    if xs == [] then Ok([])
    else
      var y :- f(xs[0]);
      var ys :- MapResult(xs[1..], f);
      Ok([y] + ys)
  }

  /** A list comprehension returns normally exactly when every call does, and then returns their values in order. */
  lemma {:induction false} MapResultOk<A, B>(xs: seq<A>, f: A -> Result<B>)
    ensures MapResult(xs, f).Ok? <==> forall k :: 0 <= k < |xs| ==> f(xs[k]).Ok?
    ensures MapResult(xs, f).Ok? ==> |MapResult(xs, f).value| == |xs|
    ensures MapResult(xs, f).Ok? ==> forall k :: 0 <= k < |xs| ==> f(xs[k]) == Ok(MapResult(xs, f).value[k])
  {
    if xs != [] {
      MapResultOk(xs[1..], f);
      assert forall k :: 1 <= k < |xs| ==> xs[k] == xs[1..][k - 1];
    }
  }

  /** Item `k` of a list comprehension that returned is the value of the call on item `k`. */
  lemma MapResultAt<A, B>(xs: seq<A>, f: A -> Result<B>, k: nat)
    requires MapResult(xs, f).Ok?
    requires k < |xs|
    ensures |MapResult(xs, f).value| == |xs|
    ensures f(xs[k]) == Ok(MapResult(xs, f).value[k])
  {
    MapResultOk(xs, f);
  }

  /** A list comprehension whose every call returned a value returns those values. */
  lemma {:induction false} MapResultAllOk<A, B>(xs: seq<A>, f: A -> Result<B>, ys: seq<B>)
    requires |ys| == |xs|
    requires forall k :: 0 <= k < |xs| ==> f(xs[k]) == Ok(ys[k])
    ensures MapResult(xs, f) == Ok(ys)
  {
    if xs != [] {
      assert forall k :: 0 <= k < |xs| - 1 ==> xs[1..][k] == xs[k + 1] && ys[1..][k] == ys[k + 1];
      MapResultAllOk(xs[1..], f, ys[1..]);
      assert ys == [ys[0]] + ys[1..];
    }
  }

  /** A list comprehension raises the exception of the first call that raises. */
  lemma {:induction false} MapResultFirstErr<A, B>(xs: seq<A>, f: A -> Result<B>, i: nat)
    requires i < |xs| && f(xs[i]).Err?
    requires forall k :: 0 <= k < i ==> f(xs[k]).Ok?
    ensures MapResult(xs, f) == Err(f(xs[i]).error)
  {
    if i > 0 {
      assert f(xs[0]).Ok?;
      assert forall k :: 0 <= k < i - 1 ==> xs[1..][k] == xs[k + 1];
      MapResultFirstErr(xs[1..], f, i - 1);
    }
  }

  /** Extending a list comprehension's input by one item: its value is appended, or its exception raised. */
  lemma {:induction false} MapResultSnoc<A, B>(xs: seq<A>, f: A -> Result<B>, i: nat, ys: seq<B>)
    requires i < |xs|
    requires MapResult(xs[..i], f) == Ok(ys)
    ensures MapResult(xs[..i + 1], f) == if f(xs[i]).Ok? then Ok(ys + [f(xs[i]).value]) else Err(f(xs[i]).error)
  {
    if i == 0 {
      assert xs[..0] == [];
      assert xs[..1] == [xs[0]] && xs[..1][1..] == [];
      assert ys == [];
      if f(xs[0]).Ok? {
        assert MapResult(xs[..1], f) == Ok([f(xs[0]).value] + []);
        assert ys + [f(xs[0]).value] == [f(xs[0]).value] + [];
      }
    } else {
      assert xs[..i][0] == xs[0] && xs[..i + 1][0] == xs[0];
      assert xs[..i][1..] == xs[1..][..i - 1];
      assert xs[..i + 1][1..] == xs[1..][..i];
      assert xs[1..][i - 1] == xs[i];
      var y := f(xs[0]).value;
      assert MapResult(xs[1..][..i - 1], f) == Ok(ys[1..]) && ys == [y] + ys[1..];
      MapResultSnoc(xs[1..], f, i - 1, ys[1..]);
      if f(xs[i]).Ok? {
        assert [y] + (ys[1..] + [f(xs[i]).value]) == ys + [f(xs[i]).value];
      }
    }
  }

  /** An exception raised on a prefix of the input is the exception of the whole comprehension. */
  lemma {:induction false} MapResultPrefixErr<A, B>(xs: seq<A>, f: A -> Result<B>, j: nat)
    requires j <= |xs|
    requires MapResult(xs[..j], f).Err?
    ensures MapResult(xs, f) == MapResult(xs[..j], f)
  {
    assert j > 0;
    assert xs[..j][0] == xs[0];
    if f(xs[0]).Ok? {
      assert xs[..j][1..] == xs[1..][..j - 1];
      MapResultPrefixErr(xs[1..], f, j - 1);
    }
  }

  /** `[g(x, y) for x, y in zip(xs, ys)]`: pairs up to the shorter list, the first exception `g` raises or all results. */
  function Zip<A, B, C>(xs: seq<A>, ys: seq<B>, g: (A, B) -> Result<C>): Result<seq<C>> {
    if xs == [] || ys == [] then Ok([])
    else
      var z :- g(xs[0], ys[0]);
      var rest :- Zip(xs[1..], ys[1..], g);
      Ok([z] + rest)
  }

  /** Zipping lists of one length returns exactly when every call does, and otherwise raises the exception of one of them. */
  lemma {:induction false} ZipOk<A, B, C>(xs: seq<A>, ys: seq<B>, g: (A, B) -> Result<C>)
    requires |xs| == |ys|
    ensures Zip(xs, ys, g).Ok? <==> forall k :: 0 <= k < |xs| ==> g(xs[k], ys[k]).Ok?
    ensures Zip(xs, ys, g).Err? ==> exists k :: 0 <= k < |xs| && g(xs[k], ys[k]) == Err(Zip(xs, ys, g).error)
  {
    if xs != [] {
      ZipOk(xs[1..], ys[1..], g);
      assert forall k :: 1 <= k < |xs| ==> xs[k] == xs[1..][k - 1] && ys[k] == ys[1..][k - 1];
      if g(xs[0], ys[0]).Ok? && Zip(xs, ys, g).Err? {
        var k :| 0 <= k < |xs[1..]| && g(xs[1..][k], ys[1..][k]) == Err(Zip(xs, ys, g).error);
        assert g(xs[k + 1], ys[k + 1]) == Err(Zip(xs, ys, g).error);
      }
    }
  }

  lemma {:induction false} ZipLength<A, B, C>(xs: seq<A>, ys: seq<B>, g: (A, B) -> Result<C>)
    requires |xs| == |ys|
    requires Zip(xs, ys, g).Ok?
    ensures |Zip(xs, ys, g).value| == |xs|
  {
    if xs != [] {
      ZipLength(xs[1..], ys[1..], g);
    }
  }

  /** Item `k` of a zip that returned is the value of the call on the `k`-th pair. */
  lemma {:induction false} ZipAt<A, B, C>(xs: seq<A>, ys: seq<B>, g: (A, B) -> Result<C>, k: nat)
    requires |xs| == |ys|
    requires Zip(xs, ys, g).Ok?
    requires k < |xs|
    ensures |Zip(xs, ys, g).value| == |xs|
    ensures g(xs[k], ys[k]) == Ok(Zip(xs, ys, g).value[k])
  {
    ZipLength(xs, ys, g);
    if k > 0 {
      ZipAt(xs[1..], ys[1..], g, k - 1);
    }
  }

  /** An item is in the result of a list comprehension exactly when the call on some input item returned it. */
  lemma MapResultIn<A, B>(xs: seq<A>, f: A -> Result<B>, y: B)
    requires MapResult(xs, f).Ok?
    ensures y in MapResult(xs, f).value <==> exists x :: x in xs && f(x) == Ok(y)
  {
    MapResultOk(xs, f);
    var ys := MapResult(xs, f).value;
    if y in ys {
      var k :| 0 <= k < |ys| && ys[k] == y;
      assert xs[k] in xs && f(xs[k]) == Ok(y);
    }
    if exists x :: x in xs && f(x) == Ok(y) {
      var x :| x in xs && f(x) == Ok(y);
      var k :| 0 <= k < |xs| && xs[k] == x;
      assert ys[k] == y;
    }
  }

  /** `[y for x in xs for y in f(x)]`: the first exception, or every list `f` returns, concatenated in order. */
  function FlatMapResult<A, B>(xs: seq<A>, f: A -> Result<seq<B>>): Result<seq<B>> {
    if xs == [] then Ok([])
    else
      var ys :- f(xs[0]);
      var rest :- FlatMapResult(xs[1..], f);
      Ok(ys + rest)
  }

  /** A nested comprehension returns normally exactly when every inner one does. */
  lemma {:induction false} FlatMapOk<A, B>(xs: seq<A>, f: A -> Result<seq<B>>)
    ensures FlatMapResult(xs, f).Ok? <==> forall x :: x in xs ==> f(x).Ok?
  {
    if xs != [] {
      FlatMapOk(xs[1..], f);
      assert forall x :: x in xs <==> x == xs[0] || x in xs[1..];
    }
  }

  /** An item is in the result of a nested comprehension exactly when one of the inner lists holds it. */
  lemma {:induction false} FlatMapIn<A, B>(xs: seq<A>, f: A -> Result<seq<B>>, y: B)
    requires FlatMapResult(xs, f).Ok?
    ensures y in FlatMapResult(xs, f).value <==> exists x :: x in xs && f(x).Ok? && y in f(x).value
  {
    if xs != [] {
      FlatMapIn(xs[1..], f, y);
      assert forall x :: x in xs <==> x == xs[0] || x in xs[1..];
      assert FlatMapResult(xs, f).value == f(xs[0]).value + FlatMapResult(xs[1..], f).value;
    }
  }

  /** The sum of `size` over `xs`. */
  function Count<A>(xs: seq<A>, size: A -> nat): nat {
    if xs == [] then 0 else size(xs[0]) + Count(xs[1..], size)
  }

  /** A nested comprehension returns as many items as the inner lists hold together. */
  lemma {:induction false} FlatMapCount<A, B>(xs: seq<A>, f: A -> Result<seq<B>>, size: A -> nat)
    requires FlatMapResult(xs, f).Ok?
    requires forall x :: x in xs && f(x).Ok? ==> |f(x).value| == size(x)
    ensures |FlatMapResult(xs, f).value| == Count(xs, size)
  {
    if xs != [] {
      assert forall x :: x in xs[1..] ==> x in xs;
      FlatMapCount(xs[1..], f, size);
    }
  }

  /** `[f(x) for x in xs if keep(x)]`: the condition is evaluated on every item, `f` on the kept ones. */
  function Comprehension<A, B>(xs: seq<A>, keep: A -> Result<bool>, f: A -> Result<B>): Result<seq<B>>
  {
    if xs == [] then Ok([])
    else
      var k :- keep(xs[0]);
      if k then
        var y :- f(xs[0]);
        var tail :- Comprehension(xs[1..], keep, f);
        Ok([y] + tail)
      else
        Comprehension(xs[1..], keep, f)
  }

  /** A comprehension whose condition holds on every item is the unfiltered one. */
  lemma {:induction false} ComprehensionAll<A, B>(xs: seq<A>, keep: A -> Result<bool>, f: A -> Result<B>)
    requires forall k :: 0 <= k < |xs| ==> keep(xs[k]) == Ok(true)
    ensures Comprehension(xs, keep, f) == MapResult(xs, f)
  {
    if xs != [] {
      assert forall k :: 1 <= k < |xs| ==> xs[k] == xs[1..][k - 1];
      ComprehensionAll(xs[1..], keep, f);
    }
  }

  /** Every item a filtered comprehension returns is the value of `f` on an item whose condition held. */
  lemma {:induction false} ComprehensionFrom<A, B>(xs: seq<A>, keep: A -> Result<bool>, f: A -> Result<B>, k: nat)
    requires Comprehension(xs, keep, f).Ok?
    requires k < |Comprehension(xs, keep, f).value|
    ensures exists j :: 0 <= j < |xs| && keep(xs[j]) == Ok(true) && f(xs[j]) == Ok(Comprehension(xs, keep, f).value[k])
  {
    var r := Comprehension(xs, keep, f).value;
    var tail := Comprehension(xs[1..], keep, f);
    if keep(xs[0]) == Ok(true) {
      assert r == [f(xs[0]).value] + tail.value;
      if k == 0 {
        assert f(xs[0]) == Ok(r[0]);
      } else {
        assert r[k] == tail.value[k - 1];
        ComprehensionFrom(xs[1..], keep, f, k - 1);
        var j :| 0 <= j < |xs[1..]| && keep(xs[1..][j]) == Ok(true) && f(xs[1..][j]) == Ok(r[k]);
        assert xs[1..][j] == xs[j + 1];
      }
    } else {
      ComprehensionFrom(xs[1..], keep, f, k);
      var j :| 0 <= j < |xs[1..]| && keep(xs[1..][j]) == Ok(true) && f(xs[1..][j]) == Ok(r[k]);
      assert xs[1..][j] == xs[j + 1];
    }
  }

  /**
   * When the comprehension with `f` returns, the comprehension with `h`, which
   * calls `g` on the value of `f`, is `g` mapped over its values.
   */
  lemma {:induction false} ComprehensionThen<A, B, C>(xs: seq<A>, keep: A -> Result<bool>, f: A -> Result<B>,
                                                     g: B -> Result<C>, h: A -> Result<C>)
    requires Comprehension(xs, keep, f).Ok?
    requires forall k :: 0 <= k < |xs| && f(xs[k]).Ok? ==> h(xs[k]) == g(f(xs[k]).value)
    ensures Comprehension(xs, keep, h) == MapResult(Comprehension(xs, keep, f).value, g)
  {
    if xs != [] {
      assert forall k :: 1 <= k < |xs| ==> xs[k] == xs[1..][k - 1];
      ComprehensionThen(xs[1..], keep, f, g, h);
      if keep(xs[0]) == Ok(true) {
        var y := f(xs[0]).value;
        var rest := Comprehension(xs[1..], keep, f).value;
        assert Comprehension(xs, keep, f).value == [y] + rest;
        assert ([y] + rest)[1..] == rest;
      }
    }
  }

  /** The items whose condition returned true. */
  function Holds<A>(keep: A -> Result<bool>): A -> bool {
    (x: A) => keep(x) == Ok(true)
  }

  /**
   * When the condition raises on no item, the filtered comprehension is the
   * unfiltered one over the items it keeps: it raises the first error of `f`
   * on a kept item, and returns the values of `f` on the kept items otherwise.
   */
  lemma {:induction false} ComprehensionKept<A, B>(xs: seq<A>, keep: A -> Result<bool>, f: A -> Result<B>)
    requires forall k :: 0 <= k < |xs| ==> keep(xs[k]).Ok?
    ensures Comprehension(xs, keep, f) == MapResult(Filter(xs, Holds(keep)), f)
  {
    if xs != [] {
      assert forall k :: 1 <= k < |xs| ==> xs[k] == xs[1..][k - 1];
      ComprehensionKept(xs[1..], keep, f);
      var rest := Filter(xs[1..], Holds(keep));
      assert keep(xs[0]).Ok?;
      if keep(xs[0]) == Ok(true) {
        assert Filter(xs, Holds(keep)) == [xs[0]] + rest;
        assert ([xs[0]] + rest)[1..] == rest;
      } else {
        assert Filter(xs, Holds(keep)) == rest;
      }
    }
  }

  /** `[f(x) for x in xs]` for an `f` that cannot raise. */
  function MapSeq<A, B>(xs: seq<A>, f: A -> B): seq<B> {
    seq(|xs|, k requires 0 <= k < |xs| => f(xs[k]))
  }

  /**
   * When the condition on each item is a test `p` on the value `f` gives it,
   * the filtered comprehension is the filter of the unfiltered one.
   */
  lemma {:induction false} ComprehensionFilter<A, B>(xs: seq<A>, keep: A -> Result<bool>, f: A -> Result<B>, p: B -> bool)
    requires MapResult(xs, f).Ok?
    requires forall k :: 0 <= k < |xs| && f(xs[k]).Ok? ==> keep(xs[k]) == Ok(p(f(xs[k]).value))
    ensures Comprehension(xs, keep, f) == Ok(Filter(MapResult(xs, f).value, p))
  {
    if xs != [] {
      var y := f(xs[0]).value;
      var rest := MapResult(xs[1..], f).value;
      assert MapResult(xs, f).value == [y] + rest;
      assert ([y] + rest)[1..] == rest;
      assert forall k :: 1 <= k < |xs| ==> xs[k] == xs[1..][k - 1];
      ComprehensionFilter(xs[1..], keep, f, p);
      assert keep(xs[0]) == Ok(p(y));
      assert Filter([y] + rest, p) == (if p(y) then [y] else []) + Filter(rest, p);
      if p(y) {
        assert Comprehension(xs, keep, f) == Ok([y] + Filter(rest, p));
      } else {
        assert Filter([y] + rest, p) == Filter(rest, p);
        assert Comprehension(xs, keep, f) == Comprehension(xs[1..], keep, f);
      }
    }
  }

  /** `{key(x): val(x) for x in xs}`: key before value, item by item; a later key overwrites. */
  function Dict<A, K, V>(xs: seq<A>, key: A -> Result<K>, val: A -> Result<V>): Result<map<K, V>>
    decreases |xs|
  {
    if xs == [] then Ok(map[])
    else
      var m :- Dict(xs[..|xs| - 1], key, val);
      var k :- key(xs[|xs| - 1]);
      var v :- val(xs[|xs| - 1]);
      Ok(m[k := v])
  }

  /** A dictionary comprehension holds exactly the keys of its items. */
  lemma {:induction false} DictKeys<A, K, V>(xs: seq<A>, key: A -> Result<K>, val: A -> Result<V>, k: K)
    requires Dict(xs, key, val).Ok?
    ensures k in Dict(xs, key, val).value <==> exists j :: 0 <= j < |xs| && key(xs[j]) == Ok(k)
    decreases |xs|
  {
    if xs != [] {
      var n := |xs| - 1;
      var pre := xs[..n];
      DictKeys(pre, key, val, k);
      assert forall j :: 0 <= j < n ==> xs[j] == pre[j];
      if k in Dict(xs, key, val).value && key(xs[n]) != Ok(k) {
        var j :| 0 <= j < |pre| && key(pre[j]) == Ok(k);
        assert key(xs[j]) == Ok(k);
      }
    }
  }

  /** A key that raises makes the whole dictionary comprehension raise. */
  lemma {:induction false} DictKeyErr<A, K, V>(xs: seq<A>, key: A -> Result<K>, val: A -> Result<V>, j: nat)
    requires j < |xs| && key(xs[j]).Err?
    ensures Dict(xs, key, val).Err?
    decreases |xs|
  {
    var n := |xs| - 1;
    if j < n {
      assert xs[..n][j] == xs[j];
      DictKeyErr(xs[..n], key, val, j);
    }
  }

  /** A value that raises, on an item whose key does not, makes the whole dictionary comprehension raise. */
  lemma {:induction false} DictValErr<A, K, V>(xs: seq<A>, key: A -> Result<K>, val: A -> Result<V>, j: nat)
    requires j < |xs| && key(xs[j]).Ok? && val(xs[j]).Err?
    ensures Dict(xs, key, val).Err?
    decreases |xs|
  {
    var n := |xs| - 1;
    if j < n {
      assert xs[..n][j] == xs[j];
      DictValErr(xs[..n], key, val, j);
    }
  }

  /** The exception a dictionary comprehension raises is raised by the key or the value of one of its items. */
  lemma {:induction false} DictErrFrom<A, K, V>(xs: seq<A>, key: A -> Result<K>, val: A -> Result<V>)
    requires Dict(xs, key, val).Err?
    ensures exists j :: 0 <= j < |xs| && (key(xs[j]) == Err(Dict(xs, key, val).error)
                                          || (key(xs[j]).Ok? && val(xs[j]) == Err(Dict(xs, key, val).error)))
    decreases |xs|
  {
    var n := |xs| - 1;
    var pre := xs[..n];
    if Dict(pre, key, val).Err? {
      DictErrFrom(pre, key, val);
      var j :| 0 <= j < |pre| && (key(pre[j]) == Err(Dict(pre, key, val).error)
                                  || (key(pre[j]).Ok? && val(pre[j]) == Err(Dict(pre, key, val).error)));
      assert pre[j] == xs[j];
    }
  }

  /** The last element of `xs` that satisfies `p`, if any. */
  function Last<T>(xs: seq<T>, p: T -> bool): Option<T>
    decreases |xs|
  {
    if xs == [] then None
    else if p(xs[|xs| - 1]) then Some(xs[|xs| - 1])
    else Last(xs[..|xs| - 1], p)
  }

  /** An element that satisfies `p` is found. */
  lemma {:induction false} LastFinds<T>(xs: seq<T>, p: T -> bool, k: nat)
    requires k < |xs| && p(xs[k])
    ensures Last(xs, p).Some?
    decreases |xs|
  {
    var n := |xs| - 1;
    if k < n && !p(xs[n]) {
      assert xs[..n][k] == xs[k];
      LastFinds(xs[..n], p, k);
    }
  }

  /**
   * A dictionary comprehension holds key `k` exactly when some item has that
   * key, and then the value of the last such item (`p` picks the items with key `k`).
   */
  lemma {:induction false} DictLast<A, K, V>(xs: seq<A>, key: A -> Result<K>, val: A -> Result<V>, k: K, p: A -> bool)
    requires Dict(xs, key, val).Ok?
    requires forall j :: 0 <= j < |xs| ==> (p(xs[j]) <==> key(xs[j]) == Ok(k))
    ensures k in Dict(xs, key, val).value <==> Last(xs, p).Some?
    ensures Last(xs, p).Some? ==> val(Last(xs, p).value) == Ok(Dict(xs, key, val).value[k])
    decreases |xs|
  {
    if xs != [] {
      var n := |xs| - 1;
      var pre := xs[..n];
      assert forall j :: 0 <= j < |pre| ==> pre[j] == xs[j];
      DictLast(pre, key, val, k, p);
    }
  }
}
