/** Generic sequence operations: filtering (Python list comprehensions with an
    `if`), reversal, the subsequence relation and removal by index. */
module Seqs {
  import opened Results

  /** `a` is obtained from `b` by deleting elements, keeping the order of the rest. */
  ghost predicate IsSubsequence<T>(a: seq<T>, b: seq<T>)
    decreases |b|
  {
    |a| == 0 || (|b| > 0 && ((a[0] == b[0] && IsSubsequence(a[1..], b[1..])) || IsSubsequence(a, b[1..])))
  }

  lemma {:induction false} SubsequenceTransitive<T>(a: seq<T>, b: seq<T>, c: seq<T>)
    requires IsSubsequence(a, b) && IsSubsequence(b, c)
    ensures IsSubsequence(a, c)
    decreases |c|
  {
    if |a| == 0 {
    } else if b[0] == c[0] && IsSubsequence(b[1..], c[1..]) {
      if a[0] == b[0] && IsSubsequence(a[1..], b[1..]) {
        SubsequenceTransitive(a[1..], b[1..], c[1..]);
      } else {
        SubsequenceTransitive(a, b[1..], c[1..]);
      }
    } else {
      SubsequenceTransitive(a, b, c[1..]);
    }
  }

  function Not<T>(p: T -> bool): T -> bool {
    x => !p(x)
  }

  /** The elements of `s` that satisfy `p`, in their original order. */
  function Filter<T>(s: seq<T>, p: T -> bool): (r: seq<T>)
    ensures |r| <= |s|
    ensures forall i :: 0 <= i < |r| ==> p(r[i])
  {
    if |s| == 0 then []
    else (if p(s[0]) then [s[0]] else []) + Filter(s[1..], p)
  }

  /** Filtering keeps every satisfying element as often as it occurs and
      drops every other one. */
  lemma {:induction false} FilterCounts<T>(s: seq<T>, p: T -> bool, x: T)
    ensures multiset(Filter(s, p))[x] == if p(x) then multiset(s)[x] else 0
    ensures x in Filter(s, p) <==> x in s && p(x)
    decreases |s|
  {
    if |s| > 0 {
      assert s == [s[0]] + s[1..];
      FilterCounts(s[1..], p, x);
    }
  }

  /** Filtering keeps the surviving elements in their original order. */
  lemma {:induction false} FilterIsSubsequence<T>(s: seq<T>, p: T -> bool)
    ensures IsSubsequence(Filter(s, p), s)
    decreases |s|
  {
    if |s| > 0 {
      FilterIsSubsequence(s[1..], p);
      var rest := Filter(s[1..], p);
      if p(s[0]) {
        assert Filter(s, p) == [s[0]] + rest;
        assert ([s[0]] + rest)[1..] == rest;
      } else {
        assert Filter(s, p) == [] + rest;
        assert [] + rest == rest;
      }
    }
  }

  lemma {:induction false} FilterConcat<T>(a: seq<T>, b: seq<T>, p: T -> bool)
    ensures Filter(a + b, p) == Filter(a, p) + Filter(b, p)
    decreases |a|
  {
    if |a| == 0 {
      assert a + b == b;
    } else {
      assert (a + b)[1..] == a[1..] + b;
      FilterConcat(a[1..], b, p);
    }
  }

  function Reverse<T>(s: seq<T>): (r: seq<T>)
    ensures |r| == |s|
    ensures forall i :: 0 <= i < |s| ==> r[i] == s[|s| - 1 - i]
  {
    if |s| == 0 then [] else [s[|s| - 1]] + Reverse(s[..|s| - 1])
  }

  /** The indices of the elements of `s` satisfying `p`, ascending, as
      `[i for i, x in enumerate(s) if p(x)]` yields them. */
  function IndicesWhere<T>(s: seq<T>, p: T -> bool): (r: seq<int>)
    ensures forall i :: 0 <= i < |r| ==> 0 <= r[i] < |s|
    ensures forall j :: j in r <==> 0 <= j < |s| && p(s[j])
    ensures forall a, b :: 0 <= a < b < |r| ==> r[a] < r[b]
    decreases |s|
  {
    if |s| == 0 then []
    else
      var init := s[..|s| - 1];
      IndicesWhere(init, p) + (if p(s[|s| - 1]) then [|s| - 1] else [])
  }

  /** Remove the element at `i`, failing when `i` is not an index of `s`. */
  function RemoveAt<T>(s: seq<T>, i: int): (r: Option<seq<T>>)
    ensures r.Some? <==> 0 <= i < |s|
    ensures r.Some? ==> |r.value| == |s| - 1
    ensures r.Some? ==> forall k :: 0 <= k < |r.value| ==> r.value[k] == if k < i then s[k] else s[k + 1]
  {
    if 0 <= i < |s| then Some(s[..i] + s[i + 1..]) else None
  }

  /** Remove the elements at `indices` one after the other, each index read
      against the sequence left by the previous removals. */
  function RemoveEach<T>(s: seq<T>, indices: seq<int>): Option<seq<T>>
    decreases |indices|
  {
    if |indices| == 0 then Some(s)
    else match RemoveAt(s, indices[0])
      case None => None
      case Some(rest) => RemoveEach(rest, indices[1..])
  }

  lemma ReverseSnoc<T>(a: seq<T>, x: T)
    ensures Reverse(a + [x]) == [x] + Reverse(a)
  {
    assert (a + [x])[..|a|] == a;
  }

  lemma RemoveLast<T>(init: seq<T>, last: T, tail: seq<T>)
    ensures RemoveAt(init + [last] + tail, |init|) == Some(init + tail)
  {
    var s := init + [last] + tail;
    assert s[..|init|] == init;
    assert s[|init| + 1..] == tail;
  }

  lemma RemoveEachCons<T>(s: seq<T>, i: int, rest: seq<int>, after: seq<T>)
    requires RemoveAt(s, i) == Some(after)
    ensures RemoveEach(s, [i] + rest) == RemoveEach(after, rest)
  {
    assert ([i] + rest)[1..] == rest;
  }

  /** Removing the matching indices from the highest down never meets an
      invalid index and leaves exactly the non-matching elements, whatever
      follows them. */
  lemma {:induction false} RemoveDescendingMatches<T>(s: seq<T>, tail: seq<T>, p: T -> bool)
    ensures RemoveEach(s + tail, Reverse(IndicesWhere(s, p))) == Some(Filter(s, Not(p)) + tail)
    decreases |s|
  {
    if |s| == 0 {
      assert s + tail == tail;
    } else {
      var init, last := s[..|s| - 1], s[|s| - 1];
      assert s == init + [last];
      if p(last) {
        RemoveDescendingMatches(init, tail, p);
        RemoveMatchingLast(init, last, tail, p);
      } else {
        RemoveDescendingMatches(init, [last] + tail, p);
        RemoveKeptLast(init, last, tail, p);
      }
    }
  }

  lemma RemoveMatchingLast<T>(init: seq<T>, last: T, tail: seq<T>, p: T -> bool)
    requires p(last)
    requires RemoveEach(init + tail, Reverse(IndicesWhere(init, p))) == Some(Filter(init, Not(p)) + tail)
    ensures RemoveEach(init + [last] + tail, Reverse(IndicesWhere(init + [last], p))) == Some(Filter(init + [last], Not(p)) + tail)
  {
    var s := init + [last];
    assert s[..|s| - 1] == init;
    var lower := IndicesWhere(init, p);
    assert IndicesWhere(s, p) == lower + [|init|];
    ReverseSnoc(lower, |init|);
    RemoveLast(init, last, tail);
    RemoveEachCons(init + [last] + tail, |init|, Reverse(lower), init + tail);
    assert RemoveEach(init + [last] + tail, Reverse(IndicesWhere(s, p))) == Some(Filter(init, Not(p)) + tail);
    FilterConcat(init, [last], Not(p));
    assert Filter([last], Not(p)) == [] by {
      assert !Not(p)(last);
      assert Filter([last], Not(p)) == [] + Filter([last][1..], Not(p));
      assert [last][1..] == [];
    }
    assert Filter(s, Not(p)) == Filter(init, Not(p)) + [];
    assert Filter(init, Not(p)) + [] == Filter(init, Not(p));
  }

  lemma RemoveKeptLast<T>(init: seq<T>, last: T, tail: seq<T>, p: T -> bool)
    requires !p(last)
    requires RemoveEach(init + ([last] + tail), Reverse(IndicesWhere(init, p))) == Some(Filter(init, Not(p)) + ([last] + tail))
    ensures RemoveEach(init + [last] + tail, Reverse(IndicesWhere(init + [last], p))) == Some(Filter(init + [last], Not(p)) + tail)
  {
    var s := init + [last];
    Associative(init, [last], tail);
    assert IndicesWhere(s, p) == IndicesWhere(init, p) by {
      assert s[..|s| - 1] == init;
      assert s[|s| - 1] == last;
    }
    assert Filter(s, Not(p)) == Filter(init, Not(p)) + [last] by {
      FilterConcat(init, [last], Not(p));
      KeepSingle(last, Not(p));
    }
    Associative(Filter(init, Not(p)), [last], tail);
  }

  lemma Associative<T>(a: seq<T>, b: seq<T>, c: seq<T>)
    ensures a + (b + c) == a + b + c
  {
  }

  lemma KeepSingle<T>(x: T, p: T -> bool)
    requires p(x)
    ensures Filter([x], p) == [x]
  {
    assert [x][1..] == [];
  }

  /** Sequences with the same first element and the same rest are equal. */
  lemma HeadTailEqual<T>(a: seq<T>, b: seq<T>)
    requires |a| > 0 && |b| > 0 && a[0] == b[0] && a[1..] == b[1..]
    ensures a == b
  {
    assert a == [a[0]] + a[1..];
    assert b == [b[0]] + b[1..];
  }
}
