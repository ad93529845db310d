/** The circular buffer of posted handlers (src/cbuffer.c, src/cbuffer.h). */
module CBuffers {
  ghost predicate RingOk(capacity: nat, begin: nat, end: nat, n: nat) {
    n <= capacity
    && (if capacity == 0 then begin == 0 && end == 0
        else begin < capacity && end < capacity && (begin + n == end || begin + n == end + capacity))
  }

  /** The `n` elements of an array that start at `begin` and end before `end`. */
  ghost function Ring<T>(d: seq<T>, begin: nat, end: nat, n: nat): (s: seq<T>)
    requires RingOk(|d|, begin, end, n)
    ensures |s| == n
  {
    if begin + n <= |d| then d[begin..begin + n] else d[begin..] + d[..end]
  }

  function Next(i: nat, capacity: nat): nat { if i + 1 == capacity then 0 else i + 1 }

  /** Writing at `end` and moving it on appends, on either side of the wrap. */
  lemma RingPush<T>(d: seq<T>, begin: nat, end: nat, n: nat, x: T)
    requires RingOk(|d|, begin, end, n) && n < |d|
    ensures RingOk(|d|, begin, Next(end, |d|), n + 1)
    ensures Ring(d[end := x], begin, Next(end, |d|), n + 1) == Ring(d, begin, end, n) + [x]
  {
  }

  class CBuffer<T(0)> {
    // an empty array stands for the NULL data pointer of a new buffer
    var data: array<T>
    var begin: nat
    var end: nat
    var nelems: nat

    /** The elements lie from `begin` on, going on at the start of the array when they reach its end. */
    ghost predicate Valid()
      reads this
    {
      RingOk(data.Length, begin, end, nelems)
    }

    ghost function Contents(): (s: seq<T>)
      requires Valid()
      reads this, data
      ensures |s| == nelems
    {
      Ring(data[..], begin, end, nelems)
    }

    /** cbuf_init */
    constructor ()
      ensures Valid() && Contents() == [] && fresh(data)
    {
      data := new T[0];
      begin, end, nelems := 0, 0, 0;
    }

    /** cbuf_empty */
    predicate Empty()
      requires Valid()
      reads this, data
      ensures Empty() <==> Contents() == []
    {
      nelems == 0
    }

    /** cbuf_front */
    function Front(): (x: T)
      requires Valid() && !Empty()
      reads this, data
      ensures x == Contents()[0]
    {
      data[begin]
    }

    /** Lines 24-47 of cbuffer.c: twice the capacity, with the elements moved to the start in order. */
    method Grow()
      requires Valid() && (data.Length == 0 || (begin == end && nelems != 0))
      modifies this
      ensures Valid() && fresh(data) && Contents() == old(Contents()) && nelems == old(nelems) && nelems < data.Length
      ensures data.Length == if old(data.Length) == 0 then 1 else 2 * old(data.Length)
      ensures begin == 0 && end == nelems
    {
      var newCapacity := if 1 < 2 * data.Length then 2 * data.Length else 1;
      var newData := new T[newCapacity];
      var fst, scd, b, from := data.Length - begin, end, begin, data;
      forall i | 0 <= i < fst {
        newData[i] := from[b + i];
      }
      forall i | 0 <= i < scd {
        newData[fst + i] := from[i];
      }
      assert newData[..nelems] == Contents();
      data, begin, end := newData, 0, fst + scd;
    }

    /** cbuf_push, and the store of the element into the place it returns. */
    method Push(x: T)
      requires Valid()
      modifies this, data
      ensures Valid() && (data == old(data) || fresh(data)) && Contents() == old(Contents()) + [x]
    {
      if data.Length == 0 || (begin == end && nelems != 0) {
        Grow();
      }
      Append(x);
    }

    /** Lines 49-56 of cbuffer.c. */
    method Append(x: T)
      requires Valid() && nelems < data.Length
      modifies this, data
      ensures Valid() && data == old(data) && Contents() == old(Contents()) + [x]
    {
      RingPush(data[..], begin, end, nelems, x);
      ghost var d := data[..];
      data[end] := x;
      assert data[..] == d[end := x];
      nelems, end := nelems + 1, end + 1;
      if end == data.Length {
        end := 0;
      }
    }

    /** cbuf_pop */
    method Pop()
      requires Valid() && !Empty()
      modifies this
      ensures Valid() && data == old(data) && Contents() == old(Contents())[1..]
    {
      nelems, begin := nelems - 1, begin + 1;
      if begin == data.Length {
        begin := 0;
      }
    }

    /** cbuf_clear */
    method Clear()
      requires Valid()
      modifies this
      ensures Valid() && data == old(data) && Contents() == []
    {
      nelems, begin, end := 0, 0, 0;
    }
  }
}
