/** Sequence vocabulary shared by the model: filters, maps and sums. */
module Sequences {

  datatype Option<+T> = None | Some(value: T)

  function Filter<T>(xs: seq<T>, keep: T -> bool): (r: seq<T>)
    ensures |r| <= |xs|
  {
    if xs == [] then []
    else if keep(xs[0]) then [xs[0]] + Filter(xs[1..], keep)
    else Filter(xs[1..], keep)
  }

  function Map<T, U>(xs: seq<T>, f: T -> U): (r: seq<U>)
    ensures |r| == |xs|
    ensures forall i :: 0 <= i < |xs| ==> r[i] == f(xs[i])
  {
    seq(|xs|, i requires 0 <= i < |xs| => f(xs[i]))
  }

  function Sum<T>(xs: seq<T>, f: T -> real): real {
    if xs == [] then 0.0 else f(xs[0]) + Sum(xs[1..], f)
  }

  function Total<T>(xs: seq<T>, f: T -> int): int {
    if xs == [] then 0 else f(xs[0]) + Total(xs[1..], f)
  }

  lemma SomeMember<T>(xs: seq<T>)
    ensures xs == [] || exists x :: x in xs
  {
    if xs != [] {
      assert xs[0] in xs;
    }
  }

  lemma FilterCons<T>(x: T, xs: seq<T>, keep: T -> bool)
    ensures Filter([x] + xs, keep) == (if keep(x) then [x] else []) + Filter(xs, keep)
  {
    assert ([x] + xs)[1..] == xs;
  }

  lemma {:induction false} FilterConcat<T>(xs: seq<T>, ys: seq<T>, keep: T -> bool)
    ensures Filter(xs + ys, keep) == Filter(xs, keep) + Filter(ys, keep)
  {
    if xs == [] {
      assert xs + ys == ys;
    } else {
      var head := if keep(xs[0]) then [xs[0]] else [];
      calc {
        Filter(xs + ys, keep);
      ==  { assert (xs + ys)[0] == xs[0] && (xs + ys)[1..] == xs[1..] + ys; }
        head + Filter(xs[1..] + ys, keep);
      ==  { FilterConcat(xs[1..], ys, keep); }
        head + (Filter(xs[1..], keep) + Filter(ys, keep));
      ==
        (head + Filter(xs[1..], keep)) + Filter(ys, keep);
      ==
        Filter(xs, keep) + Filter(ys, keep);
      }
    }
  }

  lemma {:induction false} FilterMembers<T>(xs: seq<T>, keep: T -> bool)
    ensures forall x :: x in Filter(xs, keep) <==> x in xs && keep(x)
  {
    if xs != [] {
      FilterMembers(xs[1..], keep);
      assert xs == [xs[0]] + xs[1..];
    }
  }

  lemma {:induction false} FilterCount<T>(xs: seq<T>, keep: T -> bool, x: T)
    ensures multiset(Filter(xs, keep))[x] == if keep(x) then multiset(xs)[x] else 0
  {
    if xs != [] {
      FilterCount(xs[1..], keep, x);
      assert xs == [xs[0]] + xs[1..];
    }
  }

  lemma {:induction false} FilterAll<T>(xs: seq<T>, keep: T -> bool)
    requires forall x :: x in xs ==> keep(x)
    ensures Filter(xs, keep) == xs
  {
    if xs != [] {
      FilterAll(xs[1..], keep);
    }
  }

  lemma {:induction false} FilterNone<T>(xs: seq<T>, keep: T -> bool)
    requires forall x :: x in xs ==> !keep(x)
    ensures Filter(xs, keep) == []
  {
    if xs != [] {
      FilterNone(xs[1..], keep);
    }
  }

  /** Filters that agree on the elements agree on the sequence. */
  lemma {:induction false} FilterCongruence<T>(xs: seq<T>, p: T -> bool, q: T -> bool)
    requires forall x :: x in xs ==> p(x) == q(x)
    ensures Filter(xs, p) == Filter(xs, q)
  {
    if xs != [] {
      FilterCongruence(xs[1..], p, q);
    }
  }

  function Both<T>(p: T -> bool, q: T -> bool): T -> bool {
    x => p(x) && q(x)
  }

  lemma {:induction false} FilterTwice<T>(xs: seq<T>, p: T -> bool, q: T -> bool)
    ensures Filter(Filter(xs, p), q) == Filter(xs, Both(p, q))
  {
    if xs != [] {
      FilterTwice(xs[1..], p, q);
      FilterConcat(if p(xs[0]) then [xs[0]] else [], Filter(xs[1..], p), q);
    }
  }

  /** A map that no filter can tell from the identity commutes with it. */
  lemma {:induction false} FilterMapped<T>(xs: seq<T>, f: T -> T, keep: T -> bool)
    requires forall x :: x in xs ==> keep(f(x)) == keep(x)
    ensures Filter(Map(xs, f), keep) == Map(Filter(xs, keep), f)
  {
    if xs != [] {
      FilterMapped(xs[1..], f, keep);
      assert Map(xs, f)[1..] == Map(xs[1..], f);
      assert Filter(xs, keep) == (if keep(xs[0]) then [xs[0]] else []) + Filter(xs[1..], keep);
    }
  }

  lemma {:induction false} SumConcat<T>(xs: seq<T>, ys: seq<T>, f: T -> real)
    ensures Sum(xs + ys, f) == Sum(xs, f) + Sum(ys, f)
  {
    if xs == [] {
      assert xs + ys == ys;
    } else {
      SumConcat(xs[1..], ys, f);
      assert (xs + ys)[1..] == xs[1..] + ys;
    }
  }

  lemma SumOne<T>(x: T, f: T -> real)
    ensures Sum([x], f) == f(x)
  {
    assert [x][1..] == [];
  }

  lemma {:induction false} TotalConcat<T>(xs: seq<T>, ys: seq<T>, f: T -> int)
    ensures Total(xs + ys, f) == Total(xs, f) + Total(ys, f)
  {
    if xs == [] {
      assert xs + ys == ys;
    } else {
      TotalConcat(xs[1..], ys, f);
      assert (xs + ys)[1..] == xs[1..] + ys;
    }
  }

  lemma {:induction false} SumCongruence<T>(xs: seq<T>, f: T -> real, g: T -> real)
    requires forall x :: x in xs ==> f(x) == g(x)
    ensures Sum(xs, f) == Sum(xs, g)
  {
    if xs != [] {
      SumCongruence(xs[1..], f, g);
    }
  }

  /** Splits a sequence at an occurrence of one of its elements. */
  lemma SplitAt<T>(xs: seq<T>, x: T) returns (before: seq<T>, after: seq<T>)
    requires x in xs
    ensures xs == before + [x] + after
    ensures x !in before
  {
    var i := 0;
    while xs[i] != x
      invariant 0 <= i < |xs|
      invariant x !in xs[..i]
      invariant x in xs[i..]
      decreases |xs| - i
    {
      i := i + 1;
    }
    before, after := xs[..i], xs[i + 1..];
  }

  lemma DropOccurrence<T>(xs: seq<T>, ys: seq<T>, before: seq<T>, after: seq<T>)
    requires xs != [] && multiset(xs) == multiset(ys)
    requires ys == before + [xs[0]] + after
    ensures multiset(xs[1..]) == multiset(before + after)
  {
    assert xs == [xs[0]] + xs[1..];
    assert multiset(ys) == multiset(before) + multiset{xs[0]} + multiset(after);
    assert multiset(before + after) == multiset(before) + multiset(after);
    assert multiset(xs[1..]) == multiset(xs) - multiset{xs[0]};
  }

  /** Sums see the occurrences, never the order. */
  lemma {:induction false} TotalOfPermutation<T>(xs: seq<T>, ys: seq<T>, f: T -> int)
    requires multiset(xs) == multiset(ys)
    ensures Total(xs, f) == Total(ys, f)
  {
    if xs == [] {
      assert |multiset(ys)| == 0;
    } else {
      assert xs == [xs[0]] + xs[1..];
      assert xs[0] in multiset(xs);
      var before, after := SplitAt(ys, xs[0]);
      DropOccurrence(xs, ys, before, after);
      TotalOfPermutation(xs[1..], before + after, f);
      TotalConcat(before, after, f);
      TotalConcat(before, [xs[0]] + after, f);
      assert before + [xs[0]] + after == before + ([xs[0]] + after);
    }
  }

  lemma {:induction false} SumOfPermutation<T>(xs: seq<T>, ys: seq<T>, f: T -> real)
    requires multiset(xs) == multiset(ys)
    ensures Sum(xs, f) == Sum(ys, f)
  {
    if xs == [] {
      assert |multiset(ys)| == 0;
    } else {
      assert xs == [xs[0]] + xs[1..];
      assert xs[0] in multiset(xs);
      var before, after := SplitAt(ys, xs[0]);
      DropOccurrence(xs, ys, before, after);
      SumOfPermutation(xs[1..], before + after, f);
      SumConcat(before, after, f);
      SumConcat(before, [xs[0]] + after, f);
      assert before + [xs[0]] + after == before + ([xs[0]] + after);
    }
  }
}
