/**
 * The JavaScript array operations the core relies on. Each is defined by
 * recursion on the LAST element, which is how a left-to-right `forEach`,
 * `filter` or `reduce` builds its result one element at a time.
 */
module JsArrays {
  import opened Wrappers

  /** xs is an order-preserving subsequence of ys. */
  predicate IsSubsequence<T(==)>(xs: seq<T>, ys: seq<T>)
    decreases |ys|
  {
    if xs == [] then true
    else if ys == [] then false
    else if xs[|xs| - 1] == ys[|ys| - 1] then IsSubsequence(xs[..|xs| - 1], ys[..|ys| - 1])
    else IsSubsequence(xs, ys[..|ys| - 1])
  }

  /** `s.filter(keep)` */
  function Filter<T>(keep: T -> bool, s: seq<T>): (r: seq<T>)
    ensures |r| <= |s|
  {
    if s == [] then []
    else Filter(keep, s[..|s| - 1]) + (if keep(s[|s| - 1]) then [s[|s| - 1]] else [])
  }

  /** The filter result is an order-preserving subsequence of its input. */
  lemma {:induction false} FilterIsSubsequence<T>(keep: T -> bool, s: seq<T>)
    ensures IsSubsequence(Filter(keep, s), s)
  {
    if s != [] {
      var init, last := s[..|s| - 1], s[|s| - 1];
      FilterIsSubsequence(keep, init);
      var r := Filter(keep, s);
      if keep(last) {
        assert r[..|r| - 1] == Filter(keep, init);
      } else {
        assert r == Filter(keep, init);
        SubsequenceOfInit(r, s);
      }
    }
  }

  lemma {:induction false} SubsequenceOfInit<T>(xs: seq<T>, ys: seq<T>)
    requires ys != [] && IsSubsequence(xs, ys[..|ys| - 1])
    ensures IsSubsequence(xs, ys)
    decreases |ys|
  {
    if xs != [] && xs[|xs| - 1] == ys[|ys| - 1] {
      var init := ys[..|ys| - 1];
      // xs sits inside init; without its last element it sits inside init's prefix, hence inside init
      SubsequenceDropLast(xs, init);
      SubsequenceOfInit(xs[..|xs| - 1], init);
    }
  }

  lemma {:induction false} SubsequenceDropLast<T>(xs: seq<T>, ys: seq<T>)
    requires xs != [] && IsSubsequence(xs, ys)
    ensures IsSubsequence(xs[..|xs| - 1], ys[..|ys| - 1])
    decreases |ys|
  {
    assert ys != [];
    if xs[|xs| - 1] != ys[|ys| - 1] {
      var init := ys[..|ys| - 1];
      SubsequenceDropLast(xs, init);
      SubsequenceOfInit(xs[..|xs| - 1], init);
    }
  }

  /** An element is in the filter result exactly when it is in the input and is kept. */
  lemma {:induction false} FilterMembership<T>(keep: T -> bool, s: seq<T>, x: T)
    ensures x in Filter(keep, s) <==> x in s && keep(x)
  {
    if s != [] {
      var init := s[..|s| - 1];
      FilterMembership(keep, init, x);
      assert s == init + [s[|s| - 1]];
    }
  }

  /** When every element is kept the filter returns its input unchanged. */
  lemma {:induction false} FilterKeepsAll<T>(keep: T -> bool, s: seq<T>)
    requires forall i :: 0 <= i < |s| ==> keep(s[i])
    ensures Filter(keep, s) == s
  {
    if s != [] {
      FilterKeepsAll(keep, s[..|s| - 1]);
    }
  }

  /** Filtering one more element: the old result, plus that element when kept. */
  lemma FilterAppend<T>(keep: T -> bool, s: seq<T>, x: T)
    ensures Filter(keep, s + [x]) == Filter(keep, s) + (if keep(x) then [x] else [])
  {
    assert (s + [x])[..|s|] == s;
  }

  /** Filtering by a weaker test first changes nothing. */
  lemma {:induction false} FilterAfterWeaker<T>(keep: T -> bool, weaker: T -> bool, s: seq<T>)
    requires forall i :: 0 <= i < |s| ==> keep(s[i]) ==> weaker(s[i])
    ensures Filter(keep, Filter(weaker, s)) == Filter(keep, s)
  {
    if s != [] {
      var init, last := s[..|s| - 1], s[|s| - 1];
      FilterAfterWeaker(keep, weaker, init);
      assert Filter(keep, s) == Filter(keep, init) + (if keep(last) then [last] else []);
      if weaker(last) {
        assert Filter(weaker, s) == Filter(weaker, init) + [last];
        FilterAppend(keep, Filter(weaker, init), last);
      } else {
        assert Filter(weaker, s) == Filter(weaker, init);
      }
    }
  }

  /** `s.reduce((sum, x) => sum + value(x), 0)` */
  function SumOf<T>(value: T -> real, s: seq<T>): real {
    if s == [] then 0.0 else SumOf(value, s[..|s| - 1]) + value(s[|s| - 1])
  }

  /** Summing one more element adds its value. */
  lemma SumOfAppend<T>(value: T -> real, s: seq<T>, x: T)
    ensures SumOf(value, s + [x]) == SumOf(value, s) + value(x)
  {
    assert (s + [x])[..|s|] == s;
  }

  /** Non-negative values have a non-negative sum. */
  lemma {:induction false} SumOfNonNegative<T>(value: T -> real, s: seq<T>)
    requires forall i :: 0 <= i < |s| ==> value(s[i]) >= 0.0
    ensures SumOf(value, s) >= 0.0
  {
    if s != [] {
      SumOfNonNegative(value, s[..|s| - 1]);
    }
  }

  /** `s.find(hit)`: the first element satisfying `hit`, if any. */
  function Find<T>(hit: T -> bool, s: seq<T>): (r: Option<T>)
    ensures r.Some? ==> r.value in s && hit(r.value)
    ensures r.None? ==> forall i :: 0 <= i < |s| ==> !hit(s[i])
  {
    if s == [] then None
    else if hit(s[0]) then Some(s[0])
    else Find(hit, s[1..])
  }

  /** When `Find` succeeds, its result is at the first index where `hit` holds. */
  lemma {:induction false} FindFirst<T>(hit: T -> bool, s: seq<T>) returns (k: nat)
    requires Find(hit, s).Some?
    ensures k < |s| && s[k] == Find(hit, s).value
    ensures forall j :: 0 <= j < k ==> !hit(s[j])
  {
    if hit(s[0]) {
      k := 0;
    } else {
      var k' := FindFirst(hit, s[1..]);
      k := k' + 1;
    }
  }

  /** `Find` returns the element at the first index where `hit` holds. */
  lemma {:induction false} FindAt<T>(hit: T -> bool, s: seq<T>, k: nat)
    requires k < |s| && hit(s[k])
    requires forall j :: 0 <= j < k ==> !hit(s[j])
    ensures Find(hit, s) == Some(s[k])
  {
    if k > 0 {
      FindAt(hit, s[1..], k - 1);
    }
  }

  /** Two tests that agree on every element find the same element. */
  lemma {:induction false} FindCongruent<T>(hit1: T -> bool, hit2: T -> bool, s: seq<T>)
    requires forall i :: 0 <= i < |s| ==> hit1(s[i]) == hit2(s[i])
    ensures Find(hit1, s) == Find(hit2, s)
  {
    if s != [] && !hit1(s[0]) {
      FindCongruent(hit1, hit2, s[1..]);
    }
  }

  /** `s.filter((_, i) => i !== k)`: drop the element at index k, if there is one. */
  function RemoveAt<T>(s: seq<T>, k: int): (r: seq<T>)
    ensures 0 <= k < |s| ==> |r| == |s| - 1
    ensures 0 <= k < |s| ==> forall i :: 0 <= i < k ==> r[i] == s[i]
    ensures 0 <= k < |s| ==> forall i :: k <= i < |r| ==> r[i] == s[i + 1]
    ensures !(0 <= k < |s|) ==> r == s
  {
    if 0 <= k < |s| then s[..k] + s[k + 1..] else s
  }

  /** `Array.from(new Set(s))`: each value once, in order of first occurrence. */
  function Dedupe<T(==,!new)>(s: seq<T>): (r: seq<T>)
    ensures forall x :: x in r <==> x in s
  {
    if s == [] then []
    else
      var prev := Dedupe(s[..|s| - 1]);
      assert s == s[..|s| - 1] + [s[|s| - 1]];
      if s[|s| - 1] in prev then prev else prev + [s[|s| - 1]]
  }

  predicate NoDuplicates<T(==)>(s: seq<T>) {
    forall i, j :: 0 <= i < j < |s| ==> s[i] != s[j]
  }

  /** The deduplicated sequence holds no value twice. */
  lemma {:induction false} DedupeNoDuplicates<T(!new)>(s: seq<T>)
    ensures NoDuplicates(Dedupe(s))
  {
    if s != [] {
      DedupeNoDuplicates(s[..|s| - 1]);
    }
  }

  /** The number of elements of s satisfying p. */
  function CountWhere<T>(p: T -> bool, s: seq<T>): (n: nat)
    ensures n <= |s|
  {
    |Filter(p, s)|
  }
}
