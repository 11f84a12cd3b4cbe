/** Order-preserving selection from sequences. */
module Seqs {
  function Filter<T>(s: seq<T>, keep: T -> bool): (r: seq<T>) {
    if s == [] then []
    else
      var last := s[|s| - 1];
      Filter(s[..|s| - 1], keep) + (if keep(last) then [last] else [])
  }

  lemma {:induction false} FilterLength<T>(s: seq<T>, keep: T -> bool)
    ensures |Filter(s, keep)| <= |s|
  {
    if s != [] { FilterLength(s[..|s| - 1], keep); }
  }

  /** Where the k-th selected element sits. */
  ghost function FilterFrom<T>(s: seq<T>, keep: T -> bool, k: nat): (i: nat)
    requires k < |Filter(s, keep)|
    ensures i < |s| && s[i] == Filter(s, keep)[k] && keep(s[i])
  {
    var n := |s| - 1;
    if k < |Filter(s[..n], keep)| then FilterFrom(s[..n], keep, k) else n
  }

  lemma {:induction false} FilterOrdered<T>(s: seq<T>, keep: T -> bool, j: nat, k: nat)
    requires j < k < |Filter(s, keep)|
    ensures FilterFrom(s, keep, j) < FilterFrom(s, keep, k)
  {
    var n := |s| - 1;
    if k < |Filter(s[..n], keep)| { FilterOrdered(s[..n], keep, j, k); }
  }

  lemma {:induction false} FilterComplete<T>(s: seq<T>, keep: T -> bool, i: nat) returns (k: nat)
    requires i < |s| && keep(s[i])
    ensures k < |Filter(s, keep)| && Filter(s, keep)[k] == s[i]
  {
    var n := |s| - 1;
    if i < n {
      k := FilterComplete(s[..n], keep, i);
    } else {
      k := |Filter(s[..n], keep)|;
    }
  }

  lemma {:induction false} FilterAll<T>(s: seq<T>, keep: T -> bool)
    requires forall i :: 0 <= i < |s| ==> keep(s[i])
    ensures Filter(s, keep) == s
  {
    if s != [] { FilterAll(s[..|s| - 1], keep); }
  }

  lemma FilterPush<T>(s: seq<T>, x: T, keep: T -> bool)
    ensures Filter(s + [x], keep) == Filter(s, keep) + (if keep(x) then [x] else [])
  {
    assert (s + [x])[..|s|] == s;
  }

  lemma {:induction false} FilterConcat<T>(a: seq<T>, b: seq<T>, keep: T -> bool)
    ensures Filter(a + b, keep) == Filter(a, keep) + Filter(b, keep)
  {
    if b == [] {
      assert a + b == a;
    } else {
      hide Filter;
      var n := |b| - 1;
      FilterConcat(a, b[..n], keep);
      assert a + b == (a + b[..n]) + [b[n]] && b == b[..n] + [b[n]];
      FilterPush(a + b[..n], b[n], keep);
      FilterPush(b[..n], b[n], keep);
    }
  }

  lemma {:induction false} FilterCommutes<T>(s: seq<T>, p: T -> bool, q: T -> bool)
    ensures Filter(Filter(s, p), q) == Filter(Filter(s, q), p)
  {
    if s != [] {
      var n := |s| - 1;
      FilterCommutes(s[..n], p, q);
      FilterPush(Filter(s[..n], p), s[n], q);
      FilterPush(Filter(s[..n], q), s[n], p);
      assert Filter(s[..n], p) + [] == Filter(s[..n], p) && Filter(s[..n], q) + [] == Filter(s[..n], q);
      assert Filter(Filter(s[..n], p), q) + [] == Filter(Filter(s[..n], p), q);
    }
  }

  lemma {:induction false} FilterAgree<T>(s: seq<T>, p: T -> bool, q: T -> bool)
    requires forall i :: 0 <= i < |s| ==> (p(s[i]) <==> q(s[i]))
    ensures Filter(s, p) == Filter(s, q)
  {
    if s != [] {
      FilterAgree(s[..|s| - 1], p, q);
    }
  }

  lemma {:induction false} FilterNarrow<T>(s: seq<T>, p: T -> bool, q: T -> bool)
    requires forall x :: q(x) ==> p(x)
    ensures Filter(s, q) == Filter(Filter(s, p), q)
  {
    if s != [] {
      var n := |s| - 1;
      FilterNarrow(s[..n], p, q);
      if p(s[n]) {
        FilterPush(Filter(s[..n], p), s[n], q);
      } else {
        assert Filter(s[..n], p) + [] == Filter(s[..n], p);
      }
      assert Filter(Filter(s[..n], p), q) + [] == Filter(Filter(s[..n], p), q);
    }
  }

  lemma {:induction false} FilterNone<T>(s: seq<T>, p: T -> bool)
    requires forall i :: 0 <= i < |s| ==> !p(s[i])
    ensures Filter(s, p) == []
  {
    if s != [] {
      FilterNone(s[..|s| - 1], p);
    }
  }

  lemma FilterFirst<T>(s: seq<T>, p: T -> bool)
    requires s != []
    ensures Filter(s, p) == (if p(s[0]) then [s[0]] else []) + Filter(s[1..], p)
  {
    assert s == [s[0]] + s[1..];
    FilterConcat([s[0]], s[1..], p);
    FilterPush([], s[0], p);
  }

  /** What each element yields, one after the other. */
  function FlatMap<T, U>(s: seq<T>, f: T -> seq<U>): seq<U> {
    if s == [] then [] else FlatMap(s[..|s| - 1], f) + f(s[|s| - 1])
  }

  lemma {:induction false} FlatMapFirst<T, U>(s: seq<T>, f: T -> seq<U>)
    requires s != []
    ensures FlatMap(s, f) == f(s[0]) + FlatMap(s[1..], f)
  {
    var n := |s| - 1;
    if n == 0 {
      assert FlatMap(s, f) == [] + f(s[0]);
    } else {
      FlatMapFirst(s[..n], f);
      assert s[..n][1..] == s[1..][..n - 1] && s[1..][n - 1] == s[n];
      assert f(s[0]) + FlatMap(s[1..][..n - 1], f) + f(s[n]) == f(s[0]) + (FlatMap(s[1..][..n - 1], f) + f(s[n]));
    }
  }

  method Select<T>(s: seq<T>, keep: T -> bool) returns (r: seq<T>)
    ensures r == Filter(s, keep)
  {
    r := [];
    for i := 0 to |s|
      invariant r == Filter(s[..i], keep)
    {
      assert s[..i + 1][..i] == s[..i];
      if keep(s[i]) {
        r := r + [s[i]];
      }
    }
    assert s[..|s|] == s;
  }
}
