/** The binary heap that holds admitted calls, ordered by batch index. */
module RunnableHeap {

  // `rank` gives the batch index of every call; the heap stores positions of
  // calls. Push and Pop are the standard sift-up and sift-down on a slice.

  ghost predicate InRange(h: seq<nat>, rank: seq<int>) {
    forall i | 0 <= i < |h| :: h[i] < |rank|
  }

  predicate IsChild(p: int, c: int) {
    c == 2 * p + 1 || c == 2 * p + 2
  }

  // Every element is no smaller than its parent.
  ghost predicate IsHeap(h: seq<nat>, rank: seq<int>)
    requires InRange(h, rank)
  {
    forall p, c | 0 <= p < c < |h| && IsChild(p, c) :: rank[h[p]] <= rank[h[c]]
  }

  // The heap order everywhere except between `hole` and its parent.
  ghost predicate HeapExceptParentOf(h: seq<nat>, rank: seq<int>, hole: int)
    requires InRange(h, rank)
  {
    && (forall p, c | 0 <= p < c < |h| && IsChild(p, c) && c != hole :: rank[h[p]] <= rank[h[c]])
    && (forall p, c | 0 <= p < hole < c < |h| && IsChild(p, hole) && IsChild(hole, c) ::
          rank[h[p]] <= rank[h[c]])
  }

  // The heap order everywhere except between `hole` and its children.
  ghost predicate HeapExceptChildrenOf(h: seq<nat>, rank: seq<int>, hole: int)
    requires InRange(h, rank)
  {
    && (forall p, c | 0 <= p < c < |h| && IsChild(p, c) && p != hole :: rank[h[p]] <= rank[h[c]])
    && (forall p, c | 0 <= p < hole < c < |h| && IsChild(p, hole) && IsChild(hole, c) ::
          rank[h[p]] <= rank[h[c]])
  }

  function Swap(h: seq<nat>, i: nat, j: nat): (r: seq<nat>)
    requires i < |h| && j < |h|
    ensures |r| == |h| && r[i] == h[j] && r[j] == h[i]
    ensures forall k | 0 <= k < |h| && k != i && k != j :: r[k] == h[k]
    ensures multiset(r) == multiset(h)
  {
    h[i := h[j]][j := h[i]]
  }

  /** The root of a heap is a least element. */
  lemma {:induction false} RootIsLeast(h: seq<nat>, rank: seq<int>, i: nat)
    requires InRange(h, rank) && IsHeap(h, rank)
    requires i < |h|
    ensures rank[h[0]] <= rank[h[i]]
    decreases i
  {
    if i == 0 {
    } else {
      var p := (i - 1) / 2;
      assert IsChild(p, i);
      RootIsLeast(h, rank, p);
    }
  }

  method SiftUp(h: seq<nat>, start: nat, rank: seq<int>) returns (r: seq<nat>)
    requires InRange(h, rank) && start < |h|
    requires HeapExceptParentOf(h, rank, start)
    ensures multiset(r) == multiset(h)
    ensures InRange(r, rank) && IsHeap(r, rank)
  {
    r := h;
    var j: int := start;
    while true
      invariant 0 <= j < |r| == |h|
      invariant multiset(r) == multiset(h)
      invariant InRange(r, rank) && HeapExceptParentOf(r, rank, j)
      decreases j
    {
      if j == 0 {
        break;
      }
      var i := (j - 1) / 2;
      assert IsChild(i, j);
      assert r[i] < |rank|;
      if !(rank[r[j]] < rank[r[i]]) {
        break;
      }
      r := Swap(r, i, j);
      j := i;
    }
  }

  /** Adds one element and restores the heap order. */
  method Push(h: seq<nat>, x: nat, rank: seq<int>) returns (r: seq<nat>)
    requires InRange(h, rank) && IsHeap(h, rank) && x < |rank|
    ensures multiset(r) == multiset(h) + multiset{x}
    ensures InRange(r, rank) && IsHeap(r, rank)
  {
    var appended := h + [x];
    r := SiftUp(appended, |h|, rank);
  }

  // Swapping a parent with its lesser child moves the hole one level down.
  lemma SwapWithLesserChild(h: seq<nat>, rank: seq<int>, i: int, j: int)
    requires InRange(h, rank) && HeapExceptChildrenOf(h, rank, i)
    requires 0 <= i < j < |h| && IsChild(i, j)
    requires forall c | i < c < |h| && IsChild(i, c) :: rank[h[j]] <= rank[h[c]]
    requires rank[h[j]] < rank[h[i]]
    ensures InRange(Swap(h, i, j), rank) && HeapExceptChildrenOf(Swap(h, i, j), rank, j)
  {
    var r := Swap(h, i, j);
    forall p, c | 0 <= p < c < |r| && IsChild(p, c) && p != j
      ensures rank[r[p]] <= rank[r[c]]
    {
      if p == i {
      } else {
        assert c != j;
        assert r[p] == h[p];
      }
    }
  }

  // The lesser child of `i` among the elements of `h`.
  function LesserChild(h: seq<nat>, rank: seq<int>, i: nat): (j: nat)
    requires InRange(h, rank) && 2 * i + 1 < |h|
    ensures i < j < |h| && IsChild(i, j)
    ensures forall c | i < c < |h| && IsChild(i, c) :: rank[h[j]] <= rank[h[c]]
  {
    var left := 2 * i + 1;
    if left + 1 < |h| && rank[h[left + 1]] < rank[h[left]] then left + 1 else left
  }

  method SiftDown(h: seq<nat>, rank: seq<int>) returns (r: seq<nat>)
    requires InRange(h, rank) && HeapExceptChildrenOf(h, rank, 0)
    ensures multiset(r) == multiset(h)
    ensures InRange(r, rank) && IsHeap(r, rank)
  {
    r := h;
    var i := 0;
    while 2 * i + 1 < |r|
      invariant 0 <= i && |r| == |h|
      invariant multiset(r) == multiset(h)
      invariant InRange(r, rank) && HeapExceptChildrenOf(r, rank, i)
      decreases |h| - i
    {
      var j := LesserChild(r, rank, i);
      if !(rank[r[j]] < rank[r[i]]) {
        return;
      }
      SwapWithLesserChild(r, rank, i, j);
      r := Swap(r, i, j);
      i := j;
    }
  }

  /** Removes the root, which is the least element, and restores the heap order. */
  method Pop(h: seq<nat>, rank: seq<int>) returns (x: nat, r: seq<nat>)
    requires InRange(h, rank) && IsHeap(h, rank) && |h| > 0
    ensures multiset(h) == multiset(r) + multiset{x}
    ensures x < |rank| && forall k | 0 <= k < |h| :: rank[x] <= rank[h[k]]
    ensures InRange(r, rank) && IsHeap(r, rank)
  {
    forall k | 0 <= k < |h|
      ensures rank[h[0]] <= rank[h[k]]
    {
      RootIsLeast(h, rank, k);
    }
    var last := |h| - 1;
    var swapped := Swap(h, 0, last);
    x := swapped[last];
    var rest := swapped[..last];
    assert swapped == rest + [x];
    r := SiftDown(rest, rank);
  }
}
