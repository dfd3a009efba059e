/**
 * Order-preserving filtering and flattening of sequences, the two list
 * operations (`filter` and a sequence of `push` calls) that the
 * validators and the chart code build their results from.
 */
module SeqUtil {

  /** `xs.filter(p)`: the elements satisfying `p`, in order. */
  function Filter<T(!new)>(p: T -> bool, xs: seq<T>): (r: seq<T>)
    ensures |r| <= |xs|
    ensures forall x :: x in r <==> x in xs && p(x)
  {
    if |xs| == 0 then [] else (if p(xs[0]) then [xs[0]] else []) + Filter(p, xs[1..])
  }

  lemma {:induction false} FilterConcat<T(!new)>(p: T -> bool, a: seq<T>, b: seq<T>)
    ensures Filter(p, a + b) == Filter(p, a) + Filter(p, b)
    decreases |a|
  {
    if |a| == 0 {
      assert a + b == b;
    } else {
      assert (a + b)[1..] == a[1..] + b;
      FilterConcat(p, a[1..], b);
    }
  }

  /** Filtering keeps everything exactly when every element qualifies. */
  lemma {:induction false} FilterAll<T(!new)>(p: T -> bool, xs: seq<T>)
    requires forall x :: x in xs ==> p(x)
    ensures Filter(p, xs) == xs
    decreases |xs|
  {
    if |xs| > 0 {
      FilterAll(p, xs[1..]);
    }
  }

  /** `r` is `xs` with some elements left out: the rest keep their order. */
  predicate IsSubseq<T(==)>(r: seq<T>, xs: seq<T>)
    decreases |xs|
  {
    if |r| == 0 then true
    else if |xs| == 0 then false
    else (r[0] == xs[0] && IsSubseq(r[1..], xs[1..])) || IsSubseq(r, xs[1..])
  }

  lemma {:induction false} SubseqSelf<T>(xs: seq<T>)
    ensures IsSubseq(xs, xs)
    decreases |xs|
  {
    if |xs| > 0 {
      SubseqSelf(xs[1..]);
    }
  }

  /** Filtering leaves the kept elements in their order. */
  lemma {:induction false} FilterSubseq<T(!new)>(p: T -> bool, xs: seq<T>)
    ensures IsSubseq(Filter(p, xs), xs)
    decreases |xs|
  {
    if |xs| > 0 {
      FilterSubseq(p, xs[1..]);
      var rest := Filter(p, xs[1..]);
      if p(xs[0]) {
        assert Filter(p, xs) == [xs[0]] + rest;
        assert ([xs[0]] + rest)[1..] == rest;
      } else {
        assert Filter(p, xs) == rest;
      }
    }
  }

  /** Filtering keeps every copy of an element that passes and none of one
      that fails. */
  lemma {:induction false} FilterCount<T(!new)>(p: T -> bool, xs: seq<T>, x: T)
    ensures multiset(Filter(p, xs))[x] == if p(x) then multiset(xs)[x] else 0
    decreases |xs|
  {
    if |xs| > 0 {
      FilterCount(p, xs[1..], x);
      assert xs == [xs[0]] + xs[1..];
    }
  }

  /** The elements of a sequence of sequences, block after block. */
  function Flat<T(!new)>(xss: seq<seq<T>>): (r: seq<T>)
    ensures forall x :: x in r <==> exists i :: 0 <= i < |xss| && x in xss[i]
  {
    if |xss| == 0 then []
    else
      var rest := Flat(xss[1..]);
      assert forall i :: 0 <= i < |xss[1..]| ==> xss[1..][i] == xss[i + 1];
      xss[0] + rest
  }

  /** Filtering keeps nothing when no element qualifies. */
  lemma {:induction false} FilterNone<T(!new)>(p: T -> bool, xs: seq<T>)
    requires forall x :: x in xs ==> !p(x)
    ensures Filter(p, xs) == []
    decreases |xs|
  {
    if |xs| > 0 {
      FilterNone(p, xs[1..]);
    }
  }

  /** Filtering a flattened sequence filters each block. */
  lemma {:induction false} FilterFlat<T(!new)>(p: T -> bool, xss: seq<seq<T>>)
    ensures Filter(p, Flat(xss)) == Flat(seq(|xss|, i requires 0 <= i < |xss| => Filter(p, xss[i])))
    decreases |xss|
  {
    if |xss| > 0 {
      FilterConcat(p, xss[0], Flat(xss[1..]));
      FilterFlat(p, xss[1..]);
      var ys := seq(|xss|, i requires 0 <= i < |xss| => Filter(p, xss[i]));
      assert ys[1..] == seq(|xss[1..]|, i requires 0 <= i < |xss[1..]| => Filter(p, xss[1..][i]));
    }
  }

  /** A flattened sequence whose blocks are all empty but block `k` is
      block `k`. */
  lemma {:induction false} FlatSingle<T(!new)>(xss: seq<seq<T>>, k: nat)
    requires k < |xss|
    requires forall i :: 0 <= i < |xss| && i != k ==> xss[i] == []
    ensures Flat(xss) == xss[k]
    decreases |xss|
  {
    if k == 0 {
      FlatEmpty(xss[1..]);
    } else {
      assert xss[0] == [];
      FlatSingle(xss[1..], k - 1);
    }
  }

  lemma {:induction false} FlatEmpty<T(!new)>(xss: seq<seq<T>>)
    requires forall i :: 0 <= i < |xss| ==> xss[i] == []
    ensures Flat(xss) == []
    decreases |xss|
  {
    if |xss| > 0 {
      FlatEmpty(xss[1..]);
    }
  }

  /** Two tests that agree on every element keep the same elements. */
  lemma {:induction false} FilterCongruent<T(!new)>(p: T -> bool, q: T -> bool, xs: seq<T>)
    requires forall x :: x in xs ==> p(x) == q(x)
    ensures Filter(p, xs) == Filter(q, xs)
    decreases |xs|
  {
    if |xs| > 0 {
      FilterCongruent(p, q, xs[1..]);
    }
  }

  /** A test and its negation split a sequence: every element goes to
      exactly one side. */
  lemma {:induction false} FilterSplit<T(!new)>(p: T -> bool, q: T -> bool, xs: seq<T>)
    requires forall x :: q(x) == !p(x)
    ensures multiset(Filter(p, xs)) + multiset(Filter(q, xs)) == multiset(xs)
    ensures |Filter(p, xs)| + |Filter(q, xs)| == |xs|
    decreases |xs|
  {
    if |xs| > 0 {
      FilterSplit(p, q, xs[1..]);
      assert xs == [xs[0]] + xs[1..];
    }
  }

  /** No element passes the test. */
  predicate Fails<T>(p: T -> bool, xs: seq<T>) {
    forall k :: 0 <= k < |xs| ==> !p(xs[k])
  }

  /** The first element kept is the first element that passes the test. */
  lemma {:induction false} FilterFirst<T(!new)>(p: T -> bool, xs: seq<T>)
    requires |Filter(p, xs)| > 0
    ensures exists n :: 0 <= n < |xs| && xs[n] == Filter(p, xs)[0] && p(xs[n]) && Fails(p, xs[..n])
    decreases |xs|
  {
    var rest := xs[1..];
    if !p(xs[0]) {
      assert Filter(p, xs) == Filter(p, rest);
      FilterFirst(p, rest);
      var n :| 0 <= n < |rest| && rest[n] == Filter(p, rest)[0] && p(rest[n]) && Fails(p, rest[..n]);
      assert xs[n + 1] == rest[n];
      var pre := xs[..n + 1];
      forall k | 0 <= k < |pre| ensures !p(pre[k]) {
        if k > 0 { assert pre[k] == rest[..n][k - 1]; }
      }
    } else {
      assert Filter(p, xs) == [xs[0]] + Filter(p, rest);
      assert Fails(p, xs[..0]);
    }
  }

  /** Filtering keeps every element exactly when every element passes. */
  lemma {:induction false} FilterFull<T(!new)>(p: T -> bool, xs: seq<T>)
    ensures |Filter(p, xs)| == |xs| <==> forall i :: 0 <= i < |xs| ==> p(xs[i])
    decreases |xs|
  {
    if |xs| > 0 {
      var rest := xs[1..];
      FilterFull(p, rest);
      assert forall i :: 1 <= i < |xs| ==> xs[i] == rest[i - 1];
    }
  }
}
