/** Two array primitives the storefront script is built from,
    `Array.prototype.filter` and the summing `Array.prototype.reduce`, as
    functions on sequences, with the Option type that models a `find` that
    may come back empty. */
module Seqs {

  datatype Option<T> = None | Some(value: T)

  /** The elements of `s` that `keep` accepts, in the order of `s`. */
  function Filter<T>(s: seq<T>, keep: T -> bool): (r: seq<T>)
    ensures |r| <= |s|
    ensures forall i :: 0 <= i < |r| ==> keep(r[i])
  {
    if s == [] then []
    else (if keep(s[0]) then [s[0]] else []) + Filter(s[1..], keep)
  }

  /** The filter result holds elements of the input only, and every element
      of the input that `keep` accepts. */
  lemma {:induction false} FilterMembers<T>(s: seq<T>, keep: T -> bool)
    ensures forall i :: 0 <= i < |Filter(s, keep)| ==> Filter(s, keep)[i] in s
    ensures forall j :: 0 <= j < |s| && keep(s[j]) ==> s[j] in Filter(s, keep)
  {
    if s != [] {
      var tail := s[1..];
      FilterMembers(tail, keep);
      var r := Filter(s, keep);
      var head: seq<T> := if keep(s[0]) then [s[0]] else [];
      assert r == head + Filter(tail, keep);
      forall i | 0 <= i < |r| ensures r[i] in s {
        if i >= |head| {
          assert r[i] == Filter(tail, keep)[i - |head|];
          assert r[i] in tail;
        }
      }
      forall j | 0 <= j < |s| && keep(s[j]) ensures s[j] in r {
        if j > 0 {
          assert s[j] == tail[j - 1];
        }
      }
    }
  }

  /** `r` is obtained from `s` by deleting some elements, keeping the order. */
  ghost predicate IsSubsequence<T>(r: seq<T>, s: seq<T>)
  {
    if r == [] then true
    else if s == [] then false
    else (r[0] == s[0] && IsSubsequence(r[1..], s[1..])) || IsSubsequence(r, s[1..])
  }

  lemma {:induction false} SubsequenceOfItself<T>(s: seq<T>)
    ensures IsSubsequence(s, s)
  {
    if s != [] {
      SubsequenceOfItself(s[1..]);
    }
  }

  /** Filtering a concatenation filters each part: the relative order of the
      kept elements is the order they have in the input. */
  lemma {:induction false} FilterAppend<T>(a: seq<T>, b: seq<T>, keep: T -> bool)
    ensures Filter(a + b, keep) == Filter(a, keep) + Filter(b, keep)
  {
    if a == [] {
      assert a + b == b;
    } else {
      assert (a + b)[1..] == a[1..] + b;
      FilterAppend(a[1..], b, keep);
    }
  }

  lemma {:induction false} FilterIsSubsequence<T>(s: seq<T>, keep: T -> bool)
    ensures IsSubsequence(Filter(s, keep), s)
  {
    if s != [] {
      FilterIsSubsequence(s[1..], keep);
      if keep(s[0]) {
        assert Filter(s, keep) == [s[0]] + Filter(s[1..], keep);
        assert Filter(s, keep)[1..] == Filter(s[1..], keep);
      } else {
        assert Filter(s, keep) == Filter(s[1..], keep);
      }
    }
  }

  /** When `keep` accepts every element, filtering changes nothing. */
  lemma {:induction false} FilterKeepsAll<T>(s: seq<T>, keep: T -> bool)
    requires forall i :: 0 <= i < |s| ==> keep(s[i])
    ensures Filter(s, keep) == s
  {
    if s != [] {
      FilterKeepsAll(s[1..], keep);
      assert [s[0]] + s[1..] == s;
    }
  }

  /** When `keep` rejects exactly the element at `i`, filtering deletes
      that element and keeps the rest in place. */
  lemma {:induction false} FilterDropsOne<T>(s: seq<T>, i: nat, keep: T -> bool)
    requires i < |s| && !keep(s[i])
    requires forall j :: 0 <= j < |s| && j != i ==> keep(s[j])
    ensures Filter(s, keep) == s[..i] + s[i + 1..]
  {
    var t := s[..i] + s[i + 1..];
    if i == 0 {
      assert t == s[1..];
      FilterKeepsAll(s[1..], keep);
    } else {
      var tail := s[1..];
      assert Filter(tail, keep) == tail[..i - 1] + tail[i..] by {
        FilterDropsOne(tail, i - 1, keep);
      }
      assert t == [s[0]] + (tail[..i - 1] + tail[i..]) by {
        assert t[0] == s[0];
        assert t[1..] == tail[..i - 1] + tail[i..];
      }
      assert keep(s[0]);
    }
  }

  /** The sum of `f` over `s`: what `reduce((sum, x) => sum + f(x), 0)` computes
      (on integers the grouping of the additions does not matter). */
  function Sum<T>(s: seq<T>, f: T -> int): int
  {
    if s == [] then 0 else f(s[0]) + Sum(s[1..], f)
  }

  /** `reduce((sum, x) => sum + f(x), acc)` step by step: the accumulator
      collects the terms from left to right. */
  function Reduce<T>(s: seq<T>, f: T -> int, acc: int): int
  {
    if s == [] then acc else Reduce(s[1..], f, acc + f(s[0]))
  }

  /** The left-to-right accumulation adds exactly the sum to its seed. */
  lemma {:induction false} ReduceIsSum<T>(s: seq<T>, f: T -> int, acc: int)
    ensures Reduce(s, f, acc) == acc + Sum(s, f)
  {
    if s != [] {
      ReduceIsSum(s[1..], f, acc + f(s[0]));
    }
  }

  /** A sum of terms that are at least `low` is at least `low` times the count. */
  lemma {:induction false} SumLowerBound<T>(s: seq<T>, f: T -> int, low: int)
    ensures (forall i :: 0 <= i < |s| ==> f(s[i]) >= low) ==> Sum(s, f) >= low * |s|
  {
    if s != [] && forall i :: 0 <= i < |s| ==> f(s[i]) >= low {
      SumLowerBound(s[1..], f, low);
      assert low * |s| == low + low * |s[1..]|;
    }
  }

  lemma {:induction false} SumAppend<T>(a: seq<T>, b: seq<T>, f: T -> int)
    ensures Sum(a + b, f) == Sum(a, f) + Sum(b, f)
  {
    if a == [] {
      assert a + b == b;
    } else {
      assert (a + b)[1..] == a[1..] + b;
      SumAppend(a[1..], b, f);
    }
  }

  lemma SumSingleton<T>(x: T, f: T -> int)
    ensures Sum([x], f) == f(x)
  {
    assert [x][1..] == [];
  }

  /** Replacing one element changes the sum by the difference of the two terms. */
  lemma SumUpdate<T>(s: seq<T>, i: nat, x: T, f: T -> int)
    requires i < |s|
    ensures Sum(s[i := x], f) == Sum(s, f) - f(s[i]) + f(x)
  {
    var front, back := s[..i], s[i + 1..];
    assert s == front + ([s[i]] + back);
    assert s[i := x] == front + ([x] + back);
    SumAppend(front, [s[i]] + back, f);
    SumAppend([s[i]], back, f);
    SumAppend(front, [x] + back, f);
    SumAppend([x], back, f);
    SumSingleton(s[i], f);
    SumSingleton(x, f);
  }

  /** Deleting one element lowers the sum by that element's term. */
  lemma {:induction false} SumDelete<T>(s: seq<T>, i: nat, f: T -> int)
    requires i < |s|
    ensures Sum(s[..i] + s[i + 1..], f) == Sum(s, f) - f(s[i])
  {
    var t := s[..i] + s[i + 1..];
    if i == 0 {
      assert t == s[1..];
    } else {
      var tail := s[1..];
      SumDelete(tail, i - 1, f);
      assert t[0] == s[0];
      assert t[1..] == tail[..i - 1] + tail[i..];
    }
  }

}
