/** find_closest (stella/utils/util.py): the binary search every time-grid
    alignment goes through. It returns the position (or the value) of the
    element of `arr[..n]` nearest to a target, clamping at both ends. */
module NearestSearch {

  /** The first n elements of arr strictly increase. */
  ghost predicate Ascending(arr: seq<real>, n: nat)
    requires n <= |arr|
  {
    forall p, q :: 0 <= p < q < n ==> arr[p] < arr[q]
  }

  function Dist(x: real, y: real): real {
    if x >= y then x - y else y - x
  }

  /** k is a nearest element of arr[..n] to the target, and no element after
      it is as near: the highest-indexed nearest element. */
  ghost predicate NearestHigh(arr: seq<real>, n: nat, target: real, k: int)
    requires n <= |arr|
  {
    && 0 <= k < n
    && (forall m :: 0 <= m < n ==> Dist(arr[k], target) <= Dist(arr[m], target))
    && (forall m :: k < m < n ==> Dist(arr[k], target) < Dist(arr[m], target))
  }

  /** The interior binary search from the state (i, j, mid), as the loop at
      util.py:26-70 runs it; a search that narrows to nothing returns mid. */
  function Search(arr: seq<real>, n: nat, target: real, i: nat, j: nat, mid: nat): (r: nat)
    requires 1 <= n <= |arr| && i <= j <= n && mid < n
    ensures r < n
    decreases j - i
  {
    if i >= j then mid
    else
      var m := (i + j) / 2;
      if arr[m] == target then m
      else if target < arr[m] then
        if m > 0 && target > arr[m - 1] then
          (if target - arr[m - 1] >= arr[m] - target then m else m - 1)
        else Search(arr, n, target, i, m, m)
      else if m < n - 1 && target < arr[m + 1] then
        (if target - arr[m] >= arr[m + 1] - target then m + 1 else m)
      else Search(arr, n, target, m + 1, j, m)
  }

  /** find_closest(arr, n, target, True): what the code returns on any input
      whose length n is at least 1 (arr[0] and arr[n - 1] are read first). */
  function ClosestIndex(arr: seq<real>, n: nat, target: real): (r: nat)
    requires 1 <= n <= |arr|
    ensures r < n
    ensures target <= arr[0] ==> r == 0
    ensures target > arr[0] && target >= arr[n - 1] ==> r == n - 1
  {
    if target <= arr[0] then 0
    else if target >= arr[n - 1] then n - 1
    else Search(arr, n, target, 0, n, 0)
  }

  /** On ascending input the interior search, kept between arr[i] and
      arr[j - 1], ends on the highest-indexed nearest element. */
  lemma {:induction false} SearchNearest(arr: seq<real>, n: nat, target: real, i: nat, j: nat, mid: nat)
    requires 1 <= n <= |arr| && i <= j <= n && mid < n
    requires Ascending(arr, n)
    requires i < n && arr[i] <= target
    requires 0 < j && target <= arr[j - 1]
    ensures NearestHigh(arr, n, target, Search(arr, n, target, i, j, mid))
    decreases j - i
  {
    if i >= j {
      assert false;
    } else {
      var m := (i + j) / 2;
      if Stops(arr, n, target, m) {
        SearchStops(arr, n, target, i, j, mid);
      } else if target < arr[m] {
        assert i < m;
        assert Search(arr, n, target, i, j, mid) == Search(arr, n, target, i, m, m);
        SearchNearest(arr, n, target, i, m, m);
      } else {
        assert m + 1 < j;
        assert Search(arr, n, target, i, j, mid) == Search(arr, n, target, m + 1, j, m);
        SearchNearest(arr, n, target, m + 1, j, m);
      }
    }
  }

  /** The search stops at the middle element m: it equals the target, or the
      target lies strictly between it and a neighbour. */
  predicate Stops(arr: seq<real>, n: nat, target: real, m: nat)
    requires m < n <= |arr|
  {
    || arr[m] == target
    || (target < arr[m] && m > 0 && target > arr[m - 1])
    || (target > arr[m] && m < n - 1 && target < arr[m + 1])
  }

  lemma SearchStops(arr: seq<real>, n: nat, target: real, i: nat, j: nat, mid: nat)
    requires 1 <= n <= |arr| && i < j <= n && mid < n && Ascending(arr, n)
    requires Stops(arr, n, target, (i + j) / 2)
    ensures NearestHigh(arr, n, target, Search(arr, n, target, i, j, mid))
  {
    var m := (i + j) / 2;
    if arr[m] == target {
      assert Search(arr, n, target, i, j, mid) == m;
      ExactIsNearest(arr, n, m);
    } else if target < arr[m] {
      assert Search(arr, n, target, i, j, mid) == if target - arr[m - 1] >= arr[m] - target then m else m - 1;
      BetweenNeighbours(arr, n, target, m - 1);
    } else {
      assert Search(arr, n, target, i, j, mid) == if target - arr[m] >= arr[m + 1] - target then m + 1 else m;
      BetweenNeighbours(arr, n, target, m);
    }
  }

  /** An element equal to the target is the highest-indexed nearest one. */
  lemma ExactIsNearest(arr: seq<real>, n: nat, k: nat)
    requires n <= |arr| && k < n && Ascending(arr, n)
    ensures NearestHigh(arr, n, arr[k], k)
  {
    forall q | k < q < n ensures Dist(arr[k], arr[k]) < Dist(arr[q], arr[k]) {
      assert arr[k] < arr[q];
    }
  }

  /** A target strictly between two neighbours: the nearer one wins, and the
      upper one on a tie. */
  lemma BetweenNeighbours(arr: seq<real>, n: nat, target: real, k: nat)
    requires 1 <= n <= |arr| && k + 1 < n && Ascending(arr, n)
    requires arr[k] < target < arr[k + 1]
    ensures target - arr[k] >= arr[k + 1] - target ==> NearestHigh(arr, n, target, k + 1)
    ensures target - arr[k] < arr[k + 1] - target ==> NearestHigh(arr, n, target, k)
  {
    forall m | 0 <= m < n
      ensures m <= k ==> Dist(arr[m], target) == target - arr[m] >= target - arr[k]
      ensures m > k ==> Dist(arr[m], target) == arr[m] - target >= arr[k + 1] - target
      ensures m > k + 1 ==> arr[m] > arr[k + 1]
    {
      if m < k { assert arr[m] < arr[k]; }
      if m > k + 1 { assert arr[k + 1] < arr[m]; }
    }
  }

  /** On strictly ascending input find_closest returns the nearest element,
      the later one of two equally near neighbours. */
  lemma ClosestIsNearest(arr: seq<real>, n: nat, target: real)
    requires 1 <= n <= |arr| && Ascending(arr, n)
    ensures NearestHigh(arr, n, target, ClosestIndex(arr, n, target))
  {
    if target <= arr[0] {
      forall m | 0 < m < n ensures Dist(arr[0], target) < Dist(arr[m], target) {
        assert arr[0] < arr[m];
      }
    } else if target >= arr[n - 1] {
      forall m | 0 <= m < n - 1 ensures Dist(arr[n - 1], target) <= Dist(arr[m], target) {
        assert arr[m] < arr[n - 1];
      }
    } else {
      SearchNearest(arr, n, target, 0, n, 0);
    }
  }

  /** At most one index is the highest-indexed nearest element. */
  lemma NearestHighUnique(arr: seq<real>, n: nat, target: real, k1: int, k2: int)
    requires n <= |arr|
    requires NearestHigh(arr, n, target, k1) && NearestHigh(arr, n, target, k2)
    ensures k1 == k2
  {
    assert Dist(arr[k1], target) == Dist(arr[k2], target);
  }

  /** A target equal to an element of ascending input finds that element. */
  lemma ClosestFindsExact(arr: seq<real>, n: nat, target: real, k: nat)
    requires 1 <= n <= |arr| && Ascending(arr, n)
    requires k < n && arr[k] == target
    ensures ClosestIndex(arr, n, target) == k
  {
    ClosestIsNearest(arr, n, target);
    forall q | k < q < n ensures Dist(arr[k], target) < Dist(arr[q], target) {
      assert arr[k] < arr[q];
    }
    NearestHighUnique(arr, n, target, k, ClosestIndex(arr, n, target));
  }

  /** On an exact tie between two neighbours the higher index is returned. */
  lemma ClosestTieGoesUp(arr: seq<real>, n: nat, target: real, k: nat)
    requires 1 <= n <= |arr| && Ascending(arr, n)
    requires k + 1 < n && arr[k] < target < arr[k + 1]
    requires target - arr[k] == arr[k + 1] - target
    ensures ClosestIndex(arr, n, target) == k + 1
  {
    ClosestIsNearest(arr, n, target);
    BetweenNeighbours(arr, n, target, k);
    NearestHighUnique(arr, n, target, k + 1, ClosestIndex(arr, n, target));
  }

  /** [1, 3, 5, 7]: 4 is as far from 3 as from 5 and index 2 wins; 0 and 100
      clamp to the ends. */
  lemma ClosestExamples()
    ensures ClosestIndex([1.0, 3.0, 5.0, 7.0], 4, 4.0) == 2
    ensures ClosestIndex([1.0, 3.0, 5.0, 7.0], 4, 0.0) == 0
    ensures ClosestIndex([1.0, 3.0, 5.0, 7.0], 4, 100.0) == 3
  {
  }

  /** find_closest(arr, n, target, True): the binary search loop. */
  method FindClosestIndex(arr: seq<real>, n: nat, target: real) returns (idx: nat)
    requires 1 <= n <= |arr|
    ensures idx == ClosestIndex(arr, n, target)
    ensures idx < n
    ensures Ascending(arr, n) ==> NearestHigh(arr, n, target, idx)
  {
    if Ascending(arr, n) {
      ClosestIsNearest(arr, n, target);
    }
    if target <= arr[0] {
      return 0;
    }
    if target >= arr[n - 1] {
      return n - 1;
    }
    var i, j, mid := 0, n, 0;
    while i < j
      invariant i <= j <= n && mid < n
      invariant Search(arr, n, target, i, j, mid) == ClosestIndex(arr, n, target)
      decreases j - i
    {
      mid := (i + j) / 2;
      if arr[mid] == target {
        return mid;
      }
      if target < arr[mid] {
        if mid > 0 && target > arr[mid - 1] {
          if target - arr[mid - 1] >= arr[mid] - target {
            return mid;
          } else {
            return mid - 1;
          }
        }
        j := mid;
      } else {
        if mid < n - 1 && target < arr[mid + 1] {
          if target - arr[mid] >= arr[mid + 1] - target {
            return mid + 1;
          } else {
            return mid;
          }
        }
        i := mid + 1;
      }
    }
    return mid;
  }

  /** What find_closest returns: a position when return_idx is set, else a value. */
  datatype Closest = AtIndex(index: nat) | AtValue(value: real)

  /** find_closest(arr, n, target, return_idx): value mode returns exactly the
      element at the position index mode returns. */
  method FindClosest(arr: seq<real>, n: nat, target: real, returnIdx: bool) returns (r: Closest)
    requires 1 <= n <= |arr|
    ensures returnIdx ==> r == AtIndex(ClosestIndex(arr, n, target))
    ensures !returnIdx ==> r == AtValue(arr[ClosestIndex(arr, n, target)])
  {
    var idx := FindClosestIndex(arr, n, target);
    if returnIdx {
      r := AtIndex(idx);
    } else {
      r := AtValue(arr[idx]);
    }
  }
}
