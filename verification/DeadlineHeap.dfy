/** The binary heaps of deadlines (src/heaputils.c and its uses). */
module DeadlineHeap {
  import opened IoTypes

  function UpIdx(i: nat): nat
    requires i > 0
  {
    (i - 1) / 2
  }

  function LeftIdx(i: nat): nat { 2 * i + 1 }

  function Swap<T>(s: seq<T>, i: nat, j: nat): seq<T>
    requires i < |s| && j < |s|
  {
    s[i := s[j]][j := s[i]]
  }

  predicate HeapOrdered<T>(s: seq<Entry<T>>) {
    forall j :: 0 < j < |s| ==> s[UpIdx(j)].deadline <= s[j].deadline
  }

  /** heap_sift_up_idx */
  function SiftUp<T>(s: seq<Entry<T>>, i: nat): (r: seq<Entry<T>>)
    requires i < |s|
    ensures |r| == |s|
    decreases i
  {
    if i == 0 || s[i].deadline >= s[UpIdx(i)].deadline then s
    else SiftUp(Swap(s, i, UpIdx(i)), UpIdx(i))
  }

  /** The child that sift-down would exchange with `i`, or `i` itself. */
  function MinChild<T>(s: seq<Entry<T>>, i: nat): (m: nat)
    requires i < |s|
    ensures m < |s| && (m == i || m == LeftIdx(i) || m == LeftIdx(i) + 1)
  {
    var l := LeftIdx(i);
    var m := if l < |s| && s[l].deadline < s[i].deadline then l else i;
    if l + 1 < |s| && s[l + 1].deadline < s[m].deadline then l + 1 else m
  }

  /** heap_sift_down_idx */
  function SiftDown<T>(s: seq<Entry<T>>, i: nat): (r: seq<Entry<T>>)
    requires i < |s|
    ensures |r| == |s|
    decreases |s| - i
  {
    var m := MinChild(s, i);
    if m == i then s else SiftDown(Swap(s, i, m), m)
  }

  lemma SwapSymmetric<T>(s: seq<T>, i: nat, j: nat)
    requires i < |s| && j < |s|
    ensures Swap(s, i, j) == Swap(s, j, i)
  {
  }

  lemma SwapEnds<T>(s: seq<T>)
    requires |s| > 0
    ensures Swap(s, 0, |s| - 1)[..|s| - 1] == s[0 := s[|s| - 1]][..|s| - 1]
    ensures Swap(s, 0, |s| - 1)[|s| - 1] == s[0]
  {
  }

  lemma SwapMultiset<T>(s: seq<T>, i: nat, j: nat)
    requires i < |s| && j < |s|
    ensures multiset(Swap(s, i, j)) == multiset(s)
  {
  }

  lemma {:induction false} SiftUpMultiset<T>(s: seq<Entry<T>>, i: nat)
    requires i < |s|
    ensures multiset(SiftUp(s, i)) == multiset(s)
    decreases i
  {
    if i != 0 && s[i].deadline < s[UpIdx(i)].deadline {
      SwapMultiset(s, i, UpIdx(i));
      SiftUpMultiset(Swap(s, i, UpIdx(i)), UpIdx(i));
    }
  }

  lemma {:induction false} SiftDownMultiset<T>(s: seq<Entry<T>>, i: nat)
    requires i < |s|
    ensures multiset(SiftDown(s, i)) == multiset(s)
    decreases |s| - i
  {
    var m := MinChild(s, i);
    if m != i {
      SwapMultiset(s, i, m);
      SiftDownMultiset(Swap(s, i, m), m);
    }
  }

  /** In order except that the entry at `i` may be too small for its ancestors. */
  predicate OrderedButUp<T>(s: seq<Entry<T>>, i: nat) {
    (forall j :: 0 < j < |s| && j != i ==> s[UpIdx(j)].deadline <= s[j].deadline)
    && (forall j :: 0 < j < |s| && i > 0 && UpIdx(j) == i ==> s[UpIdx(i)].deadline <= s[j].deadline)
  }

  /** In order except that the entry at `i` may be too large for its descendants. */
  predicate OrderedButDown<T>(s: seq<Entry<T>>, i: nat) {
    (forall j :: 0 < j < |s| && UpIdx(j) != i ==> s[UpIdx(j)].deadline <= s[j].deadline)
    && (forall j :: 0 < j < |s| && i > 0 && UpIdx(j) == i ==> s[UpIdx(i)].deadline <= s[j].deadline)
  }

  lemma {:induction false} SiftUpOrders<T>(s: seq<Entry<T>>, i: nat)
    requires i < |s| && OrderedButUp(s, i)
    ensures HeapOrdered(SiftUp(s, i))
    decreases i
  {
    if i != 0 && s[i].deadline < s[UpIdx(i)].deadline {
      SiftUpStep(s, i);
      SiftUpOrders(Swap(s, i, UpIdx(i)), UpIdx(i));
    }
  }

  lemma SiftUpStep<T>(s: seq<Entry<T>>, i: nat)
    requires 0 < i < |s| && OrderedButUp(s, i) && s[i].deadline < s[UpIdx(i)].deadline
    ensures OrderedButUp(Swap(s, i, UpIdx(i)), UpIdx(i))
  {
    var p := UpIdx(i);
    var s' := Swap(s, i, p);
    forall j | 0 < j < |s| && j != p
      ensures s'[UpIdx(j)].deadline <= s'[j].deadline
    {
      if j != i && UpIdx(j) == p {
        assert s[p].deadline <= s[j].deadline;
      }
    }
    forall j | 0 < j < |s| && p > 0 && UpIdx(j) == p
      ensures s'[UpIdx(p)].deadline <= s'[j].deadline
    {
      assert s[UpIdx(p)].deadline <= s[p].deadline;
      if j != i {
        assert s[p].deadline <= s[j].deadline;
      }
    }
  }

  lemma {:induction false} SiftDownOrders<T>(s: seq<Entry<T>>, i: nat)
    requires i < |s| && OrderedButDown(s, i)
    ensures HeapOrdered(SiftDown(s, i))
    decreases |s| - i
  {
    var m := MinChild(s, i);
    if m != i {
      SiftDownStep(s, i);
      SiftDownOrders(Swap(s, i, m), m);
    } else {
      forall j | 0 < j < |s|
        ensures s[UpIdx(j)].deadline <= s[j].deadline
      {
        if UpIdx(j) == i {
          assert j == LeftIdx(i) || j == LeftIdx(i) + 1;
        }
      }
    }
  }

  lemma SiftDownStep<T>(s: seq<Entry<T>>, i: nat)
    requires i < |s| && OrderedButDown(s, i) && MinChild(s, i) != i
    ensures OrderedButDown(Swap(s, i, MinChild(s, i)), MinChild(s, i))
  {
    var m := MinChild(s, i);
    var s' := Swap(s, i, m);
    assert UpIdx(m) == i;
    forall j | 0 < j < |s| && UpIdx(j) != m
      ensures s'[UpIdx(j)].deadline <= s'[j].deadline
    {
      if UpIdx(j) == i {
        assert j == LeftIdx(i) || j == LeftIdx(i) + 1;
      } else if j == i {
        assert s[UpIdx(i)].deadline <= s[m].deadline;
      }
    }
    forall j | 0 < j < |s| && UpIdx(j) == m
      ensures s'[UpIdx(m)].deadline <= s'[j].deadline
    {
      assert UpIdx(j) != i && j != m && j != i;
      assert s[m].deadline <= s[j].deadline;
    }
  }

  lemma {:induction false} TopIsLeast<T>(s: seq<Entry<T>>, i: nat)
    requires HeapOrdered(s) && i < |s|
    ensures s[0].deadline <= s[i].deadline
  {
    if i > 0 {
      TopIsLeast(s, UpIdx(i));
    }
  }

  // ---------- where the sifted entry ends up ----------

  /** An entry smaller than all its ancestors rises to the top. */
  lemma {:induction false} SiftUpToTop<T>(s: seq<Entry<T>>, i: nat)
    requires i < |s| && forall j :: 0 <= j < |s| && j != i ==> s[i].deadline < s[j].deadline
    ensures SiftUp(s, i)[0] == s[i]
    decreases i
  {
    if i != 0 {
      SiftUpToTop(Swap(s, i, UpIdx(i)), UpIdx(i));
    }
  }

  /** An entry not smaller than the top never displaces it. */
  lemma {:induction false} SiftUpKeepsTop<T>(s: seq<Entry<T>>, i: nat)
    requires 0 < i < |s| && s[0].deadline <= s[i].deadline
    ensures SiftUp(s, i)[0] == s[0]
    decreases i
  {
    var p := UpIdx(i);
    if s[i].deadline < s[p].deadline {
      SiftUpKeepsTop(Swap(s, i, p), p);
    }
  }

  // ---------- operations ----------

  /** Append and sift up. */
  function Push<T>(s: seq<Entry<T>>, e: Entry<T>): seq<Entry<T>> {
    SiftUp(s + [e], |s|)
  }

  lemma PushCorrect<T>(s: seq<Entry<T>>, e: Entry<T>)
    requires HeapOrdered(s)
    ensures HeapOrdered(Push(s, e)) && multiset(Push(s, e)) == multiset(s) + multiset{e}
    ensures |s| > 0 && s[0].deadline <= e.deadline ==> Push(s, e)[0] == s[0]
  {
    SiftUpOrders(s + [e], |s|);
    SiftUpMultiset(s + [e], |s|);
    if |s| > 0 && s[0].deadline <= e.deadline {
      SiftUpKeepsTop(s + [e], |s|);
    }
  }

  /** Overwrite the top with the last entry, drop the last position, sift down. */
  function PopTop<T>(s: seq<Entry<T>>): seq<Entry<T>>
    requires |s| > 0
  {
    var n := |s| - 1;
    var r := s[0 := s[n]][..n];
    if n == 0 then r else SiftDown(r, 0)
  }

  lemma PopTopCorrect<T>(s: seq<Entry<T>>)
    requires |s| > 0 && forall j :: 0 < j < |s| && UpIdx(j) != 0 ==> s[UpIdx(j)].deadline <= s[j].deadline
    ensures HeapOrdered(PopTop(s)) && multiset(PopTop(s)) == multiset(s) - multiset{s[0]}
  {
    var n := |s| - 1;
    var r := s[0 := s[n]][..n];
    DropTop(s);
    if n > 0 {
      SiftDownOrders(r, 0);
      SiftDownMultiset(r, 0);
    }
  }

  lemma DropTop<T>(s: seq<T>)
    requires |s| > 0
    ensures multiset(s[0 := s[|s| - 1]][..|s| - 1]) == multiset(s) - multiset{s[0]}
  {
    var n := |s| - 1;
    var r := s[0 := s[n]][..n];
    if n == 0 {
      assert s == [s[0]] && r == [];
    } else {
      assert s == [s[0]] + s[1..n] + [s[n]];
      assert r == [s[n]] + s[1..n];
    }
  }

  /** Lines 29-37 of iosvc_dequeue.c: give the entry at `i` the deadline -1, sift it up, exchange front
      and back, drop the back and sift down. */
  function RemoveAt<T>(s: seq<Entry<T>>, i: nat): seq<Entry<T>>
    requires i < |s|
  {
    PopTop(SiftUp(s[i := s[i].(deadline := -1)], i))
  }

  lemma LoweredOrdered<T>(s: seq<Entry<T>>, i: nat)
    requires HeapOrdered(s) && 0 < i < |s| && s[0].deadline >= 0
    ensures OrderedButUp(s[i := s[i].(deadline := -1)], i)
    ensures forall j :: 0 <= j < |s| && j != i ==> s[j].deadline >= 0
  {
    var s1 := s[i := s[i].(deadline := -1)];
    forall j | 0 <= j < |s|
      ensures s[j].deadline >= 0
    {
      TopIsLeast(s, j);
    }
    forall j | 0 < j < |s| && UpIdx(j) == i
      ensures s1[UpIdx(i)].deadline <= s1[j].deadline
    {
      assert s[UpIdx(i)].deadline <= s[i].deadline <= s[j].deadline;
    }
  }

  lemma PopTopMultiset<T>(s: seq<Entry<T>>)
    requires |s| > 0
    ensures multiset(PopTop(s)) == multiset(s) - multiset{s[0]}
  {
    DropTop(s);
    if |s| > 1 {
      SiftDownMultiset(s[0 := s[|s| - 1]][..|s| - 1], 0);
    }
  }

  lemma UpdateMultiset<T>(s: seq<T>, i: nat, e: T)
    requires i < |s|
    ensures multiset(s[i := e]) == multiset(s) - multiset{s[i]} + multiset{e}
  {
  }

  /** Removal from anywhere in the heap takes out exactly that entry and restores the order. */
  lemma RemoveAtCorrect<T>(s: seq<Entry<T>>, i: nat)
    requires HeapOrdered(s) && i < |s| && (i == 0 || s[0].deadline >= 0)
    ensures HeapOrdered(RemoveAt(s, i)) && multiset(RemoveAt(s, i)) == multiset(s) - multiset{s[i]}
  {
    var e := s[i].(deadline := -1);
    var s1 := s[i := e];
    UpdateMultiset(s, i, e);
    if i > 0 {
      LoweredOrdered(s, i);
      SiftUpOrders(s1, i);
      SiftUpMultiset(s1, i);
      SiftUpToTop(s1, i);
    }
    PopTopCorrect(SiftUp(s1, i));
  }

  predicate DistinctItems<T(==)>(s: seq<Entry<T>>) {
    forall i, j :: 0 <= i < j < |s| ==> s[i].item != s[j].item
  }

  lemma TopOnce<T>(s: seq<Entry<T>>)
    requires DistinctItems(s) && |s| > 0
    ensures multiset(s)[s[0]] == 1
  {
    assert s == [s[0]] + s[1..];
    assert s[0] !in s[1..];
  }

  /** The deadline -1 works if and only if the entry is already on top or no deadline is negative;
      otherwise the entry on top is lost in its stead. */
  lemma RemoveAtIff<T>(s: seq<Entry<T>>, i: nat)
    requires HeapOrdered(s) && i < |s| && DistinctItems(s)
    ensures multiset(RemoveAt(s, i)) == multiset(s) - multiset{s[i]} <==> (i == 0 || s[0].deadline >= 0)
  {
    if i == 0 || s[0].deadline >= 0 {
      RemoveAtCorrect(s, i);
    } else {
      var e := s[i].(deadline := -1);
      var s1 := s[i := e];
      UpdateMultiset(s, i, e);
      SiftUpKeepsTop(s1, i);
      SiftUpMultiset(s1, i);
      PopTopMultiset(SiftUp(s1, i));
      TopOnce(s);
      assert s[0] != s[i] && s[0] != e;
      assert multiset(RemoveAt(s, i))[s[0]] == 0;
      assert (multiset(s) - multiset{s[i]})[s[0]] == 1;
    }
  }

  // ---------- the order looks at deadlines only ----------

  /** The same heap with every item replaced by its image. */
  function MapItems<T, U>(s: seq<Entry<T>>, f: T -> U): (r: seq<Entry<U>>)
    ensures |r| == |s| && forall i :: 0 <= i < |s| ==> r[i] == Entry(s[i].deadline, f(s[i].item))
  {
    seq(|s|, i requires 0 <= i < |s| => Entry(s[i].deadline, f(s[i].item)))
  }

  lemma {:induction false} SiftUpMap<T, U>(s: seq<Entry<T>>, f: T -> U, i: nat)
    requires i < |s|
    ensures MapItems(SiftUp(s, i), f) == SiftUp(MapItems(s, f), i)
    decreases i
  {
    if i != 0 && s[i].deadline < s[UpIdx(i)].deadline {
      assert MapItems(Swap(s, i, UpIdx(i)), f) == Swap(MapItems(s, f), i, UpIdx(i));
      SiftUpMap(Swap(s, i, UpIdx(i)), f, UpIdx(i));
    }
  }

  lemma {:induction false} SiftDownMap<T, U>(s: seq<Entry<T>>, f: T -> U, i: nat)
    requires i < |s|
    ensures MapItems(SiftDown(s, i), f) == SiftDown(MapItems(s, f), i)
    decreases |s| - i
  {
    var m := MinChild(s, i);
    assert MinChild(MapItems(s, f), i) == m;
    if m != i {
      assert MapItems(Swap(s, i, m), f) == Swap(MapItems(s, f), i, m);
      SiftDownMap(Swap(s, i, m), f, m);
    }
  }

  lemma PushMap<T, U>(s: seq<Entry<T>>, f: T -> U, e: Entry<T>)
    ensures MapItems(Push(s, e), f) == Push(MapItems(s, f), Entry(e.deadline, f(e.item)))
  {
    assert MapItems(s + [e], f) == MapItems(s, f) + [Entry(e.deadline, f(e.item))];
    SiftUpMap(s + [e], f, |s|);
  }

  lemma RemoveAtMap<T, U>(s: seq<Entry<T>>, f: T -> U, i: nat)
    requires i < |s|
    ensures MapItems(RemoveAt(s, i), f) == RemoveAt(MapItems(s, f), i)
  {
    var s1 := s[i := s[i].(deadline := -1)];
    assert MapItems(s1, f) == MapItems(s, f)[i := MapItems(s, f)[i].(deadline := -1)];
    SiftUpMap(s1, f, i);
    var s2, n := SiftUp(s1, i), |s| - 1;
    var r := s2[0 := s2[n]][..n];
    assert MapItems(r, f) == MapItems(s2, f)[0 := MapItems(s2, f)[n]][..n];
    if n > 0 {
      SiftDownMap(r, f, 0);
    }
  }

  // ---------- the code, for the heap of delayed handlers ----------

  /** A growable array ordered by deadline. */
  class Heap<T> {
    var elems: seq<Entry<T>>

    constructor ()
      ensures elems == []
    {
      elems := [];
    }

    /** heap_sift_up_idx */
    method SiftUpIdx(idx0: nat)
      requires idx0 < |elems|
      modifies this
      ensures elems == SiftUp(old(elems), idx0)
    {
      var idx: nat := idx0;
      while idx != 0
        invariant idx < |elems| && SiftUp(elems, idx) == SiftUp(old(elems), idx0)
      {
        var parent := UpIdx(idx);
        if elems[idx].deadline < elems[parent].deadline {
          elems := Swap(elems, idx, parent);
          idx := parent;
        } else {
          break;
        }
      }
    }

    /** heap_sift_down_idx */
    method SiftDownIdx(idx0: nat)
      requires idx0 < |elems|
      modifies this
      ensures elems == SiftDown(old(elems), idx0)
    {
      var idx: nat := idx0;
      while true
        invariant idx < |elems| && SiftDown(elems, idx) == SiftDown(old(elems), idx0)
        decreases |elems| - idx
      {
        var minIdx, leftIdx := idx, LeftIdx(idx);
        if leftIdx >= |elems| {
          break;
        }
        if elems[leftIdx].deadline < elems[minIdx].deadline {
          minIdx := leftIdx;
        }
        var rightIdx := leftIdx + 1;
        if rightIdx < |elems| && elems[rightIdx].deadline < elems[minIdx].deadline {
          minIdx := rightIdx;
        }
        if minIdx == idx {
          break;
        }
        elems := Swap(elems, idx, minIdx);
        idx := minIdx;
      }
    }

    /** Lines 35-47 of iosvc_post.c. */
    method Add(e: Entry<T>)
      requires HeapOrdered(elems)
      modifies this
      ensures HeapOrdered(elems) && multiset(elems) == old(multiset(elems)) + multiset{e}
      ensures old(|elems|) > 0 && old(elems)[0].deadline <= e.deadline ==> elems[0] == old(elems)[0]
      ensures elems == Push(old(elems), e)
    {
      PushCorrect(elems, e);
      elems := elems + [e];
      SiftUpIdx(|elems| - 1);
    }

    /** Lines 229-236 of io_service.c. */
    method RemoveTop()
      requires HeapOrdered(elems) && |elems| > 0
      modifies this
      ensures HeapOrdered(elems) && multiset(elems) == old(multiset(elems)) - multiset{old(elems)[0]}
      ensures elems == PopTop(old(elems))
    {
      PopTopCorrect(elems);
      elems := elems[0 := elems[|elems| - 1]];
      elems := elems[..|elems| - 1];
      if elems != [] {
        SiftDownIdx(0);
      }
    }
  }
}
