/** Python's `set(xs)`, `len(...)` and `sorted(xs)` on lists, as the
    cross-entry checks use them, with what they mean for the list. */
module Seqs {

  /** Python `set(xs)`. */
  function ToSet<T>(xs: seq<T>): set<T>
  {
    set x | x in xs
  }

  /** No element occurs twice. */
  predicate Distinct<T(==)>(xs: seq<T>)
  {
    forall i, j :: 0 <= i < j < |xs| ==> xs[i] != xs[j]
  }

  /** `len(set(xs)) == len(xs)` holds exactly when `xs` has no repeated
      element; otherwise the set is strictly smaller. */
  lemma {:induction false} CardIffDistinct<T>(xs: seq<T>)
    ensures |ToSet(xs)| <= |xs|
    ensures |ToSet(xs)| == |xs| <==> Distinct(xs)
  {
    if |xs| > 0 {
      var rest := xs[1..];
      CardIffDistinct(rest);
      assert ToSet(xs) == {xs[0]} + ToSet(rest) by {
        forall y ensures y in ToSet(xs) <==> y in {xs[0]} + ToSet(rest) {
          assert y in xs <==> y == xs[0] || y in rest by {
            assert xs == [xs[0]] + rest;
          }
        }
      }
      if xs[0] in rest {
        assert ToSet(xs) == ToSet(rest);
        var k :| 0 <= k < |rest| && rest[k] == xs[0];
        assert xs[0] == xs[k + 1];
      } else {
        assert xs[0] !in ToSet(rest);
        assert Distinct(xs) <==> Distinct(rest) by {
          if Distinct(rest) {
            forall i, j | 0 <= i < j < |xs| ensures xs[i] != xs[j] {
              if i > 0 {
                assert xs[i] == rest[i - 1] && xs[j] == rest[j - 1];
              } else {
                assert xs[j] == rest[j - 1];
              }
            }
          }
          if Distinct(xs) {
            forall i, j | 0 <= i < j < |rest| ensures rest[i] != rest[j] {
              assert rest[i] == xs[i + 1] && rest[j] == xs[j + 1];
            }
          }
        }
      }
    }
  }

  /** Each element is at most the next one. */
  predicate NonDecreasing(xs: seq<int>)
  {
    forall i, j :: 0 <= i < j < |xs| ==> xs[i] <= xs[j]
  }

  /** Inserts `x` before the first element that is not smaller than it. */
  function InsertInt(x: int, xs: seq<int>): (r: seq<int>)
    requires NonDecreasing(xs)
    ensures NonDecreasing(r)
    ensures forall y :: y in r <==> y == x || y in xs
    ensures multiset(r) == multiset(xs) + multiset{x}
  {
    if |xs| == 0 || x <= xs[0] then [x] + xs
    else
      assert xs == [xs[0]] + xs[1..];
      TailNonDecreasing(xs);
      var t := InsertInt(x, xs[1..]);
      ConsNonDecreasing(xs[0], t);
      [xs[0]] + t
  }

  lemma TailNonDecreasing(xs: seq<int>)
    requires NonDecreasing(xs) && |xs| > 0
    ensures NonDecreasing(xs[1..]) && forall y :: y in xs[1..] ==> xs[0] <= y
  {
  }

  /** A non-decreasing list stays so behind an element at most its least. */
  lemma ConsNonDecreasing(h: int, t: seq<int>)
    requires NonDecreasing(t) && forall y :: y in t ==> h <= y
    ensures NonDecreasing([h] + t)
  {
    var r := [h] + t;
    forall i, j | 0 <= i < j < |r| ensures r[i] <= r[j] {
      assert r[j] == t[j - 1] && t[j - 1] in t;
      if i > 0 { assert r[i] == t[i - 1]; }
    }
  }

  /** Python `sorted(xs)` on a list of integers (an insertion sort). */
  function SortInts(xs: seq<int>): (r: seq<int>)
    ensures NonDecreasing(r)
    ensures multiset(r) == multiset(xs)
  {
    if |xs| == 0 then []
    else
      assert xs == [xs[0]] + xs[1..];
      InsertInt(xs[0], SortInts(xs[1..]))
  }

  /** `xs == sorted(xs)` holds exactly when `xs` is already in
      non-decreasing order. */
  lemma {:induction false} SortedIffFixed(xs: seq<int>)
    ensures xs == SortInts(xs) <==> NonDecreasing(xs)
  {
    if NonDecreasing(xs) && |xs| > 0 {
      assert NonDecreasing(xs[1..]) by {
        forall i, j | 0 <= i < j < |xs[1..]| ensures xs[1..][i] <= xs[1..][j] {
          assert xs[1..][i] == xs[i + 1] && xs[1..][j] == xs[j + 1];
        }
      }
      SortedIffFixed(xs[1..]);
      assert xs == [xs[0]] + xs[1..];
    }
  }

  /** The lists one after the other. */
  function Concat<T>(xss: seq<seq<T>>): seq<T>
  {
    if xss == [] then [] else Concat(xss[..|xss| - 1]) + xss[|xss| - 1]
  }

  /** The concatenation is empty exactly when every list is. */
  lemma {:induction false} ConcatEmpty<T>(xss: seq<seq<T>>)
    ensures Concat(xss) == [] <==> forall j :: 0 <= j < |xss| ==> xss[j] == []
  {
    if xss != [] {
      var n := |xss| - 1;
      ConcatEmpty(xss[..n]);
      assert forall j :: 0 <= j < n ==> xss[..n][j] == xss[j];
    }
  }

  /** An element is in the concatenation exactly when it is in one of the
      lists. */
  lemma {:induction false} InConcat<T>(xss: seq<seq<T>>, x: T)
    ensures x in Concat(xss) <==> exists j :: 0 <= j < |xss| && x in xss[j]
  {
    if xss != [] {
      var n := |xss| - 1;
      InConcat(xss[..n], x);
      assert forall j :: 0 <= j < n ==> xss[..n][j] == xss[j];
    }
  }

  /** Lists of one element each concatenate to the list of those elements. */
  lemma {:induction false} ConcatSingletons<T>(xss: seq<seq<T>>, ys: seq<T>)
    requires |xss| == |ys|
    requires forall j :: 0 <= j < |xss| ==> xss[j] == [ys[j]]
    ensures Concat(xss) == ys
  {
    if xss != [] {
      var n := |xss| - 1;
      ConcatSingletons(xss[..n], ys[..n]);
      assert ys == ys[..n] + [ys[n]];
    }
  }

  /** Lists of at most one element each concatenate to a list no longer
      than the number of lists. */
  lemma {:induction false} ConcatAtMostOne<T>(xss: seq<seq<T>>)
    requires forall j :: 0 <= j < |xss| ==> |xss[j]| <= 1
    ensures |Concat(xss)| <= |xss|
  {
    if xss != [] {
      ConcatAtMostOne(xss[..|xss| - 1]);
    }
  }

  /** An element of three lists one after the other is in one of them. */
  lemma InThree<T>(x: T, a: seq<T>, b: seq<T>, c: seq<T>)
    ensures x in a + b + c <==> x in a || x in b || x in c
  {
  }
}
