/**
 * The three operations the kitties pallet performs on an account's list of
 * owned ids (a `BoundedVec<KittyIndex, MaxKittyOwned>`): a capacity-checked
 * `try_push`, the search `iter().position(..)` and `swap_remove`.
 */
module BoundedVec {
  import opened Primitives

  /** No element occurs twice. */
  ghost predicate Distinct<T>(s: seq<T>) {
    forall i, j | 0 <= i < j < |s| :: s[i] != s[j]
  }

  /** `try_push`: appends `x` unless the vector already holds `bound` elements. */
  function TryPush<T>(s: seq<T>, x: T, bound: nat): (r: Option<seq<T>>)
    ensures r.Some? <==> |s| < bound
    ensures r.Some? ==> r.value == s + [x] && |r.value| <= bound
  {
    if |s| < bound then Some(s + [x]) else None
  }

  /** `iter().position(|&y| y == x)`: the index of the first occurrence of `x`. */
  function Position<T(==)>(s: seq<T>, x: T): (r: Option<nat>)
    ensures r.Some? <==> x in s
    ensures r.Some? ==> r.value < |s| && s[r.value] == x
    ensures r.Some? ==> forall j | 0 <= j < r.value :: s[j] != x
  {
    if |s| == 0 then None
    else if s[0] == x then Some(0)
    else match Position(s[1..], x)
      case None => None
      case Some(k) => Some(k + 1)
  }

  /**
   * `swap_remove(i)`: the last element takes the place of the removed one, so
   * the removal costs O(1) and does not preserve order.
   */
  function SwapRemove<T>(s: seq<T>, i: nat): (r: seq<T>)
    requires i < |s|
    ensures |r| == |s| - 1
    ensures forall j | 0 <= j < |r| && j != i :: r[j] == s[j]
    ensures i < |r| ==> r[i] == s[|s| - 1]
  {
    var last := |s| - 1;
    if i == last then s[..i] else s[..i] + [s[last]] + s[i + 1..last]
  }

  /** `swap_remove` takes exactly one copy of the removed element out of the list. */
  lemma SwapRemoveMultiset<T>(s: seq<T>, i: nat)
    requires i < |s|
    ensures multiset(SwapRemove(s, i)) == multiset(s) - multiset{s[i]}
  {
    var last := |s| - 1;
    if i == last {
      assert s == s[..i] + [s[i]];
    } else {
      assert SwapRemove(s, i) == s[..i] + [s[last]] + s[i + 1..last];
      assert s == s[..i] + [s[i]] + s[i + 1..last] + [s[last]];
    }
  }

  /** Removing one position of a list without duplicates removes exactly that element. */
  lemma SwapRemoveDistinct<T>(s: seq<T>, i: nat)
    requires i < |s| && Distinct(s)
    ensures Distinct(SwapRemove(s, i))
    ensures forall y :: y in SwapRemove(s, i) <==> y in s && y != s[i]
  {
    var r := SwapRemove(s, i);
    SwapRemoveMultiset(s, i);
    forall j, k | 0 <= j < k < |r|
      ensures r[j] != r[k]
    {
      var sj := if j == i then |s| - 1 else j;
      var sk := if k == i then |s| - 1 else k;
      assert r[j] == s[sj] && r[k] == s[sk] && sj != sk;
    }
    forall y
      ensures y in r <==> y in s && y != s[i]
    {
      if y in r {
        assert multiset(r)[y] > 0;
      }
      if y in s && y != s[i] {
        assert multiset(s)[y] > 0;
        assert multiset(r)[y] == multiset(s)[y];
      }
    }
  }

  /** On a list without duplicates, `swap_remove` keeps every element except the removed one. */
  lemma SwapRemoveOnly<T>(s: seq<T>, i: nat)
    requires i < |s|
    ensures Distinct(s) ==> forall y :: y in SwapRemove(s, i) <==> y in s && y != s[i]
  {
    if Distinct(s) {
      SwapRemoveDistinct(s, i);
    }
  }

  /** In a list without duplicates an element occurs once or not at all. */
  lemma {:induction false} DistinctOccurrences<T>(s: seq<T>, x: T)
    requires Distinct(s)
    ensures multiset(s)[x] == if x in s then 1 else 0
  {
    if s != [] {
      assert s == [s[0]] + s[1..];
      assert Distinct(s[1..]) by {
        forall i, j | 0 <= i < j < |s[1..]| ensures s[1..][i] != s[1..][j] {
          assert s[1..][i] == s[i + 1] && s[1..][j] == s[j + 1];
        }
      }
      DistinctOccurrences(s[1..], x);
      if x == s[0] {
        assert x !in s[1..] by {
          forall k | 0 <= k < |s[1..]| ensures s[1..][k] != x {
            assert s[1..][k] == s[k + 1];
          }
        }
      }
    }
  }
}
