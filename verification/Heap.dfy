/**
 The deadline heap behind `container::schedule`: the element type with its reversed
 order, and the two standard-library algorithms the container calls on its vector.

 `PushHeap` and `PopHeap` carry the contracts of `std::push_heap` and `std::pop_heap`.
 Nothing else in the project looks at their bodies, so every result about the scheduler
 holds for any conforming implementation of the two algorithms.
 */
module Heap {

  /** A deferred task: `time` is the deadline in milliseconds, `task` names the work. */
  datatype Scheduled = Scheduled(time: int, task: nat, handle: nat)

  /** The reversed comparison: the "largest" element is the earliest deadline. */
  predicate Less(a: Scheduled, b: Scheduled) {
    b.time < a.time
  }

  function Parent(i: nat): (p: nat)
    requires 0 < i
    ensures i == 2 * p + 1 || i == 2 * p + 2
  {
    (i - 1) / 2
  }

  /** Among the first `n` elements none is larger, in the reversed order, than its parent. */
  ghost predicate IsHeap(s: seq<Scheduled>, n: nat) {
    && n <= |s|
    && forall i {:trigger Parent(i)} :: 0 < i < n ==> !Less(s[Parent(i)], s[i])
  }

  /** The front of a heap has the earliest deadline of all. */
  lemma {:induction false} FrontIsEarliest(s: seq<Scheduled>, n: nat, i: nat)
    requires IsHeap(s, n)
    requires i < n
    ensures s[0].time <= s[i].time
  {
    if i > 0 {
      FrontIsEarliest(s, n, Parent(i));
    }
  }

  /** Exchange two elements; the contents stay the same. */
  function Swap(s: seq<Scheduled>, i: nat, j: nat): (r: seq<Scheduled>)
    requires i < |s| && j < |s|
    ensures |r| == |s| && r[i] == s[j] && r[j] == s[i]
    ensures forall k :: 0 <= k < |s| && k != i && k != j ==> r[k] == s[k]
    ensures multiset(r) == multiset(s)
  {
    s[i := s[j]][j := s[i]]
  }

  /** A heap except that the element at `i` may belong further up. */
  ghost predicate RisingAt(s: seq<Scheduled>, i: nat) {
    && i < |s|
    && (forall k {:trigger Parent(k)} :: 0 < k < |s| && k != i ==> !Less(s[Parent(k)], s[k]))
    && (0 < i ==> forall k {:trigger Parent(k)} :: 0 < k < |s| && Parent(k) == i ==> !Less(s[Parent(i)], s[k]))
  }

  lemma RiseOnce(s: seq<Scheduled>, i: nat)
    requires RisingAt(s, i) && 0 < i
    requires Less(s[Parent(i)], s[i])
    ensures RisingAt(Swap(s, i, Parent(i)), Parent(i))
  {
    var p := Parent(i);
    var r := Swap(s, i, p);
    forall k | 0 < k < |r| && k != p ensures !Less(r[Parent(k)], r[k]) {
      assert Parent(k) < k;
    }
    if 0 < p {
      forall k | 0 < k < |r| && Parent(k) == p ensures !Less(r[Parent(p)], r[k]) {
        assert !Less(s[Parent(p)], s[p]);
        assert Parent(p) < p < k;
      }
    }
  }

  /** `std::push_heap`: move the last element into place in the heap before it. */
  method PushHeap(s: seq<Scheduled>) returns (r: seq<Scheduled>)
    requires 0 < |s|
    requires IsHeap(s, |s| - 1)
    ensures IsHeap(r, |r|)
    ensures |r| == |s|
    ensures multiset(r) == multiset(s)
  {
    r := s;
    var i := |s| - 1;
    while 0 < i && Less(r[Parent(i)], r[i])
      invariant 0 <= i && RisingAt(r, i) && |r| == |s|
      invariant multiset(r) == multiset(s)
    {
      RiseOnce(r, i);
      r := Swap(r, i, Parent(i));
      i := Parent(i);
    }
  }

  /** The first `m` elements form a heap except that the one at `i` may belong further down. */
  ghost predicate SinkingAt(s: seq<Scheduled>, m: nat, i: nat) {
    && m <= |s|
    && (forall k {:trigger Parent(k)} :: 0 < k < m && Parent(k) != i ==> !Less(s[Parent(k)], s[k]))
    && (0 < i ==> forall k {:trigger Parent(k)} :: 0 < k < m && Parent(k) == i ==> !Less(s[Parent(i)], s[k]))
  }

  /** The earlier of the two children of `i`. */
  function EarlierChild(s: seq<Scheduled>, m: nat, i: nat): (c: nat)
    requires 2 * i + 1 < m <= |s|
    ensures i < c < m && Parent(c) == i
    ensures forall k {:trigger Parent(k)} :: 0 < k < m && Parent(k) == i ==> !Less(s[c], s[k])
  {
    var c := 2 * i + 1;
    if c + 1 < m && Less(s[c], s[c + 1]) then c + 1 else c
  }

  lemma SinkOnce(s: seq<Scheduled>, m: nat, i: nat)
    requires SinkingAt(s, m, i) && 2 * i + 1 < m
    requires Less(s[i], s[EarlierChild(s, m, i)])
    ensures var c := EarlierChild(s, m, i); SinkingAt(Swap(s, i, c), m, c)
  {
    var c := EarlierChild(s, m, i);
    var r := Swap(s, i, c);
    forall k | 0 < k < m && Parent(k) != c ensures !Less(r[Parent(k)], r[k]) {
      assert Parent(k) < k;
      if k == i { assert !Less(s[Parent(i)], s[c]); }
    }
    forall k | 0 < k < m && Parent(k) == c ensures !Less(r[Parent(c)], r[k]) {
      assert !Less(s[Parent(k)], s[k]);
      assert c < k;
    }
  }

  lemma SunkIsHeap(s: seq<Scheduled>, m: nat, i: nat)
    requires SinkingAt(s, m, i)
    requires 2 * i + 1 < m ==> !Less(s[i], s[EarlierChild(s, m, i)])
    ensures IsHeap(s, m)
  {
    forall k | 0 < k < m ensures !Less(s[Parent(k)], s[k]) {
      if Parent(k) == i { assert 2 * i + 1 <= k; }
    }
  }

  /** The front of `s` is set aside at place `m`, and everything before it is no earlier. */
  ghost predicate SetAside(s: seq<Scheduled>, r: seq<Scheduled>, m: nat)
    requires m < |s|
  {
    && |r| == |s| && r[m] == s[0]
    && (forall k :: m < k < |s| ==> r[k] == s[k])
    && (forall k :: 0 <= k <= m ==> s[0].time <= r[k].time)
    && multiset(r) == multiset(s)
  }

  lemma FrontSetAside(s: seq<Scheduled>, m: nat)
    requires m < |s| && IsHeap(s, m + 1)
    ensures SetAside(s, Swap(s, 0, m), m)
  {
    forall k | 0 <= k <= m ensures s[0].time <= s[k].time {
      FrontIsEarliest(s, m + 1, k);
    }
  }

  lemma SwapKeepsAside(s: seq<Scheduled>, r: seq<Scheduled>, m: nat, i: nat, j: nat)
    requires m < |s| && SetAside(s, r, m) && i < m && j < m
    ensures SetAside(s, Swap(r, i, j), m)
  {
  }

  /**
   `std::pop_heap` on the first `n` elements: the front goes to the last place of the
   range and the rest of the range is a heap again.
   */
  method PopHeap(s: seq<Scheduled>, n: nat) returns (r: seq<Scheduled>)
    requires 0 < n <= |s|
    requires IsHeap(s, n)
    ensures |r| == |s|
    ensures IsHeap(r, n - 1)
    ensures r[n - 1] == s[0]
    ensures forall k :: n <= k < |s| ==> r[k] == s[k]
    ensures forall k :: 0 <= k < n ==> s[0].time <= r[k].time
    ensures multiset(r) == multiset(s)
  {
    var m := n - 1;
    r := Swap(s, 0, m);
    var i := 0;
    FrontSetAside(s, m);
    while 2 * i + 1 < m && Less(r[i], r[EarlierChild(r, m, i)])
      invariant 0 <= i && SinkingAt(r, m, i)
      invariant SetAside(s, r, m)
    {
      SinkOnce(r, m, i);
      var c := EarlierChild(r, m, i);
      SwapKeepsAside(s, r, m, i, c);
      r := Swap(r, i, c);
      i := c;
    }
    SunkIsHeap(r, m, i);
  }
}
