/** The kinds of channel buffers, as first-in first-out queues. */
module Buffers {
  import opened Options
  import opened Slots

  /** Going round a ring of `n` slots: the slot `k` places after `head`. */
  lemma GoesRound(head: nat, k: nat, n: nat)
    requires head < n && k <= n
    ensures (head + k) % n == if head + k < n then head + k else head + k - n
  {}

  /** A bounded buffer: a ring of slots. */
  class RingBuffer<T> {
    var head: nat
    var count: nat
    const slots: array<SendSlot<T>>
    ghost var contents: seq<T>

    /** How many places slot `i` is behind the head. */
    ghost function Behind(i: nat): nat
      requires head < slots.Length && i < slots.Length
      reads this
    {
      if head <= i then i - head else i + slots.Length - head
    }

    /** Slot `i` is occupied exactly if it lies in the window of `count` slots from the head on, and
        then holds the element of the queue that is as far from its front. */
    ghost predicate Valid()
      reads this, slots, slots[..]
    {
      && head < slots.Length && count == |contents| <= slots.Length
      && (forall i, j :: 0 <= i < j < slots.Length ==> slots[i] != slots[j])
      && (forall i ::
        0 <= i < slots.Length ==> slots[i].value == if Behind(i) < count then Some(contents[Behind(i)]) else None)
    }

    constructor (size: nat)
      requires size > 0
      ensures Valid() && contents == [] && slots.Length == size
      ensures fresh(slots) && fresh(slots[..])
    {
      head, count, contents := 0, 0, [];
      var filler := new SendSlot<T>.Empty();
      slots := new SendSlot<T>[size](_ => filler);
      new;
      for i := 0 to size
        invariant head == count == |contents| == 0 && slots.Length == size && fresh(slots) && fresh(filler)
        invariant forall j :: 0 <= j < size ==> fresh(slots[j]) && slots[j].value == None
        invariant forall j :: i <= j < size ==> slots[j] == filler
        invariant forall j :: 0 <= j < i ==> slots[j] != filler
        invariant forall j, k :: 0 <= j < k < i ==> slots[j] != slots[k]
      {
        slots[i] := new SendSlot<T>.Empty();
      }
    }

    predicate IsEmpty()
      requires Valid()
      reads this, slots, slots[..]
      ensures IsEmpty() <==> contents == []
    {
      count == 0
    }

    predicate IsFull()
      requires Valid()
      reads this, slots, slots[..]
      ensures IsFull() <==> |contents| == slots.Length
    {
      count == slots.Length
    }

    method Enqueue(from: SendSlot<T>)
      requires Valid() && !IsFull() && from.value.Some? && from !in slots[..]
      modifies this, from, slots[..]
      ensures Valid() && from.value == None
      ensures contents == old(contents) + [old(from.value).value]
    {
      GoesRound(head, count, slots.Length);
      var i := (head + count) % slots.Length;
      count := count + 1;
      contents := contents + [from.value.value];
      Transfer(from, slots[i]);
    }

    method Dequeue(to: SendSlot<T>)
      requires Valid() && !IsEmpty() && to.value.None? && to !in slots[..]
      modifies this, to, slots[..]
      ensures Valid() && to.value.Some? && old(contents) == [to.value.value] + contents
    {
      GoesRound(head, 1, slots.Length);
      var i := head;
      count := count - 1;
      head := (head + 1) % slots.Length;
      contents := contents[1..];
      Transfer(slots[i], to);
    }
  }

  /** The buffer of a channel of `void`: it only counts.  `limit` is none for an unbounded one. */
  class CountingBuffer {
    var count: nat
    const limit: Option<nat>
    ghost var contents: seq<()>

    ghost predicate Valid()
      reads this
    {
      count == |contents| && (limit.Some? ==> count <= limit.value)
    }

    constructor (limit: Option<nat>)
      ensures Valid() && contents == [] && this.limit == limit
    {
      this.limit, count, contents := limit, 0, [];
    }

    /** The decisions are those of a queue of that length. */
    predicate IsEmpty()
      requires Valid()
      reads this
      ensures IsEmpty() <==> contents == []
    {
      count == 0
    }

    predicate IsFull()
      requires Valid()
      reads this
      ensures IsFull() <==> limit.Some? && |contents| == limit.value
    {
      limit.Some? && count == limit.value
    }

    method Enqueue()
      requires Valid() && !IsFull()
      modifies this
      ensures Valid() && contents == old(contents) + [()]
    {
      count := count + 1;
      contents := contents + [()];
    }

    method Dequeue()
      requires Valid() && !IsEmpty()
      modifies this
      ensures Valid() && old(contents) == [()] + contents
    {
      count := count - 1;
      contents := contents[1..];
      assert old(contents)[0] == ();
    }
  }

  /** An unbounded buffer: a queue of values. */
  class QueueBuffer<T> {
    var queue: seq<T>

    constructor ()
      ensures queue == []
    {
      queue := [];
    }

    method Enqueue(from: SendSlot<T>)
      requires from.value.Some?
      modifies this, from
      ensures from.value == None && queue == old(queue) + [old(from.value).value]
    {
      var v := from.Read();
      queue := queue + [v];
    }

    method Dequeue(to: SendSlot<T>)
      requires queue != [] && to.value.None?
      modifies this, to
      ensures to.value.Some? && old(queue) == [to.value.value] + queue
    {
      to.Write(queue[0]);
      queue := queue[1..];
    }
  }
}
