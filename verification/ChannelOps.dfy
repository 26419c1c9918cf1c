/**
 Reads and writes on one channel, on the heap: what happens to lists, slots, contexts and buffer
 while the channel's mutex is held and other threads take flags through other channels.  As in the
 code, a channel without a buffer and one with a buffer are separate cases.
 */
module ChannelOps {
  import opened Options
  import opened Slots
  import opened Buffers
  import opened WaiterList

  /** What became of an operation on one channel: it completed; it found that its select had been
      claimed meanwhile; it waits in the list. */
  datatype Outcome = Ready | Lost | Waits

  /** The two lists of a channel, the node of an operation that is about to use it, and the contexts
      and slots that can be met there.  The operation waits in `own` and looks for peers in `other`. */
  ghost predicate Prepared<T>(own: WaiterList<T>, other: WaiterList<T>, node: WaiterNode<T>,
                              contexts: set<WaitContext>, slots: set<SendSlot<T>>, me: nat)
    reads own, own.nodes, other, other.nodes, contexts
  {
    && own.Valid() && other.Valid() && own != other && (forall n :: n in own.nodes ==> n !in other.nodes)
    && node !in own.nodes && node !in other.nodes && node.slot in slots && node.ctx in contexts
    && NoneTaken(contexts, me)
    && (forall n ::
      n in other.nodes ==> n.ctx in contexts && n.ctx != node.ctx && n.slot in slots && n.slot != node.slot)
  }

  /** Available writers have a value, available readers have room for one. */
  ghost predicate Loaded<T>(nodes: seq<WaiterNode<T>>, contexts: set<WaitContext>, slots: set<SendSlot<T>>, full: bool)
    requires forall n :: n in nodes ==> n.ctx in contexts && n.slot in slots
    reads contexts, slots
  {
    forall n :: n in nodes && n.ctx.availFlag ==> n.slot.value.Some? == full
  }

  /** `dequeue_first_available` on the one list leaves the other alone. */
  method FindPeer<T>(own: WaiterList<T>, other: WaiterList<T>, caller: WaitContext?, contexts: set<WaitContext>,
        ghost me: nat)
    returns (peer: WaiterNode?<T>, ghost dropped: nat)
    requires own.Valid() && other.Valid() && own != other && (forall n :: n in own.nodes ==> n !in other.nodes)
    requires NoneTaken(contexts, me) && (caller != null ==> caller in contexts)
    requires forall n :: n in other.nodes ==> n.ctx in contexts && n.ctx != caller
    modifies other, other.nodes, contexts
    ensures own.Valid() && own.nodes == old(own.nodes)
    ensures other.Valid() && dropped <= |old(other.nodes)|
    ensures Gone(old(other.nodes), dropped, contexts)
    ensures peer == null ==> other.nodes == old(other.nodes)[dropped..]
    ensures peer == null && other.nodes != [] ==> other.nodes[0].ctx.availFlag && caller != null && !caller.availFlag
    ensures peer != null ==>
      dropped < |old(other.nodes)| && peer == old(other.nodes)[dropped]
      && other.nodes == old(other.nodes)[dropped + 1..]
    ensures peer != null ==> peer.prev == null && peer.next == null && peer.ctx.promise == None
    ensures forall c :: c in contexts ==>
      Fares(c, me, peer != null && (c == peer.ctx || c == caller), old(c.promise))
  {
    ghost var xs := own.nodes;
    peer, dropped := other.DequeueFirstAvailable(caller, contexts, me);
    forall i | 0 <= i < |xs| ensures PrevRight(xs, i) && NextRight(xs, i) {
      assert xs[i] in xs && old(PrevRight(xs, i) && NextRight(xs, i));
    }
  }

  /** `enqueue` on the one list leaves the other alone, and the nodes popped from it. */
  method Join<T>(own: WaiterList<T>, other: WaiterList<T>, node: WaiterNode<T>, ghost all: seq<WaiterNode<T>>,
                 ghost dropped: nat, ghost contexts: set<WaitContext>)
    requires own.Valid() && other.Valid() && own != other && node !in own.nodes && node !in all
    requires dropped <= |all| && Gone(all, dropped, contexts) && (forall n :: n in own.nodes ==> n !in all)
    requires forall n :: n in other.nodes ==> n in all
    modifies own, own.nodes, node
    ensures own.Valid() && own.nodes == old(own.nodes) + [node]
    ensures other.Valid() && other.nodes == old(other.nodes) && Gone(all, dropped, contexts)
  {
    ghost var xs := other.nodes;
    own.Enqueue(node);
    forall i | 0 <= i < |xs| ensures PrevRight(xs, i) && NextRight(xs, i) {
      assert xs[i] in xs && xs[i] in all && old(PrevRight(xs, i) && NextRight(xs, i));
    }
    assert forall j :: 0 <= j < dropped ==> all[j] in all;
  }

  /** The first available peer of an operation is found and popped, or the operation joins its list. */
  method FindPeerOrJoin<T>(own: WaiterList<T>, other: WaiterList<T>, node: WaiterNode<T>, contexts: set<WaitContext>,
        ghost me: nat)
    returns (peer: WaiterNode?<T>, ghost dropped: nat)
    requires own.Valid() && other.Valid() && own != other && (forall n :: n in own.nodes ==> n !in other.nodes)
    requires node !in own.nodes && node !in other.nodes && NoneTaken(contexts, me) && node.ctx in contexts
    requires forall n :: n in other.nodes ==> n.ctx in contexts && n.ctx != node.ctx
    modifies own, own.nodes, other, other.nodes, node, contexts
    ensures own.Valid() && other.Valid() && dropped <= |old(other.nodes)| && Gone(old(other.nodes), dropped, contexts)
    ensures peer != null ==> dropped < |old(other.nodes)| && peer == old(other.nodes)[dropped] && unchanged(node)
    ensures peer != null ==> own.nodes == old(own.nodes) && other.nodes == old(other.nodes)[dropped + 1..]
    ensures peer != null ==> peer.prev == null && peer.next == null && peer.ctx.promise == None
    ensures peer == null ==> own.nodes == old(own.nodes) + [node] && other.nodes == old(other.nodes)[dropped..]
    ensures peer == null ==> other.nodes == [] || !node.ctx.availFlag
    ensures forall c :: c in contexts ==>
      Fares(c, me, peer != null && (c == peer.ctx || c == node.ctx), old(c.promise))
  {
    ghost var all := other.nodes;
    peer, dropped := FindPeer(own, other, node.ctx, contexts, me);
    if peer == null { Join(own, other, node, all, dropped, contexts); }
  }

  /** `transfer` and `notify_waiter`; the lists and the flags stay as they are. */
  method HandOver<T>(own: WaiterList<T>, other: WaiterList<T>, peer: WaiterNode<T>, from: SendSlot<T>, to: SendSlot<T>,
                     ghost all: seq<WaiterNode<T>>, ghost dropped: nat, ghost contexts: set<WaitContext>)
    requires from.value.Some? && to.value.None? && peer.ctx.promise.None?
    requires own.Valid() && other.Valid() && dropped <= |all| && Gone(all, dropped, contexts)
    modifies from, to, peer.ctx`promise
    ensures to.value == old(from.value) && from.value == None && peer.ctx.promise == Some(peer.token)
    ensures own.Valid() && own.nodes == old(own.nodes) && other.Valid() && other.nodes == old(other.nodes)
    ensures Gone(all, dropped, contexts)
  {
    Transfer(from, to);
    peer.Notify();
  }

  /** A read of a channel without a buffer: the value comes straight from the first available writer. */
  method ReadUnbuffered<T>(readers: WaiterList<T>, writers: WaiterList<T>, node: WaiterNode<T>,
                           contexts: set<WaitContext>, ghost slots: set<SendSlot<T>>, ghost me: nat)
    returns (outcome: Outcome, writer: WaiterNode?<T>, ghost dropped: nat)
    requires Prepared(readers, writers, node, contexts, slots, me) && node.slot.value.None?
    requires Loaded(writers.nodes, contexts, slots, true)
    modifies readers, readers.nodes, writers, writers.nodes, node, contexts, slots
    ensures readers.Valid() && writers.Valid() && outcome != Lost && dropped <= |old(writers.nodes)|
    ensures Gone(old(writers.nodes), dropped, contexts)
    ensures outcome == Ready ==> dropped < |old(writers.nodes)| && writer == old(writers.nodes)[dropped]
    ensures outcome == Ready ==>
      writers.nodes == old(writers.nodes)[dropped + 1..] && readers.nodes == old(readers.nodes)
    ensures if outcome == Ready then writer.prev == null && writer.next == null else writer == null
    ensures outcome == Ready ==> unchanged(node)
    ensures outcome == Waits ==>
      writers.nodes == old(writers.nodes)[dropped..] && readers.nodes == old(readers.nodes) + [node]
    ensures outcome == Waits ==> writers.nodes == [] || !node.ctx.availFlag
    ensures outcome == Ready ==> old(writer.slot.value).Some?
    ensures forall x :: x in slots ==>
      x.value == (if outcome == Ready && x == node.slot then old(writer.slot.value)
                  else if outcome == Ready && x == writer.slot then None
                  else old(x.value))
    ensures forall c :: c in contexts ==>
      Fares(c, me, outcome == Ready && (c == node.ctx || c == writer.ctx),
            if outcome == Ready && c == writer.ctx then Some(writer.token) else old(c.promise))
  {
    ghost var all := writers.nodes;
    writer, dropped := FindPeerOrJoin(readers, writers, node, contexts, me);
    outcome := if writer == null then Waits else Ready;
    if writer != null {
      assert writer in all;
      HandOver(readers, writers, writer, writer.slot, node.slot, all, dropped, contexts);
    }
  }

  /** A write to a channel without a buffer: the value goes straight to the first available reader. */
  method WriteUnbuffered<T>(writers: WaiterList<T>, readers: WaiterList<T>, node: WaiterNode<T>,
                            contexts: set<WaitContext>, ghost slots: set<SendSlot<T>>, ghost me: nat)
    returns (outcome: Outcome, reader: WaiterNode?<T>, ghost dropped: nat)
    requires Prepared(writers, readers, node, contexts, slots, me) && node.slot.value.Some?
    requires Loaded(readers.nodes, contexts, slots, false)
    modifies writers, writers.nodes, readers, readers.nodes, node, contexts, slots
    ensures writers.Valid() && readers.Valid() && outcome != Lost && dropped <= |old(readers.nodes)|
    ensures Gone(old(readers.nodes), dropped, contexts)
    ensures outcome == Ready ==> dropped < |old(readers.nodes)| && reader == old(readers.nodes)[dropped]
    ensures outcome == Ready ==>
      readers.nodes == old(readers.nodes)[dropped + 1..] && writers.nodes == old(writers.nodes)
    ensures if outcome == Ready then reader.prev == null && reader.next == null else reader == null
    ensures outcome == Ready ==> unchanged(node)
    ensures outcome == Waits ==>
      readers.nodes == old(readers.nodes)[dropped..] && writers.nodes == old(writers.nodes) + [node]
    ensures outcome == Waits ==> readers.nodes == [] || !node.ctx.availFlag
    ensures forall x :: x in slots ==>
      x.value == (if outcome == Ready && x == reader.slot then old(node.slot.value)
                  else if outcome == Ready && x == node.slot then None
                  else old(x.value))
    ensures forall c :: c in contexts ==>
      Fares(c, me, outcome == Ready && (c == node.ctx || c == reader.ctx),
            if outcome == Ready && c == reader.ctx then Some(reader.token) else old(c.promise))
  {
    ghost var all := readers.nodes;
    reader, dropped := FindPeerOrJoin(writers, readers, node, contexts, me);
    outcome := if reader == null then Waits else Ready;
    if reader != null {
      HandOver(writers, readers, reader, node.slot, reader.slot, all, dropped, contexts);
    }
  }

  /** Into the buffer, unless the own flag is gone. */
  method PutInBuffer<T>(buffer: RingBuffer<T>, node: WaiterNode<T>, ghost me: nat) returns (outcome: Outcome)
    requires buffer.Valid() && !buffer.IsFull() && node.slot.value.Some? && node.slot !in buffer.slots[..]
    requires node.ctx.Valid()
    requires node.ctx.takenBy != Some(me)
    modifies buffer, buffer.slots[..], node.slot, node.ctx
    ensures buffer.Valid() && outcome == (if old(node.ctx.availFlag) then Ready else Lost)
    ensures outcome == Ready ==> buffer.contents == old(buffer.contents) + [old(node.slot.value).value]
    ensures outcome == Ready ==> node.slot.value == None && node.ctx.takenBy == Some(me)
    ensures outcome == Lost ==> buffer.contents == old(buffer.contents) && node.slot.value == old(node.slot.value)
    ensures outcome == Lost ==> node.ctx.takenBy == old(node.ctx.takenBy)
    ensures node.ctx.Valid() && !node.ctx.availFlag && node.ctx.promise == old(node.ctx.promise)
  {
    var won := node.ctx.Claim(me);
    if !won { return Lost; }
    buffer.Enqueue(node.slot);
    return Ready;
  }

  /** The oldest value comes out of the buffer, and that of the writer that was found, if any, goes in
      at the back: there is always room for it.  The writer is woken up. */
  method TakeAndRefill<T>(buffer: RingBuffer<T>, to: SendSlot<T>, writer: WaiterNode?<T>)
    requires buffer.Valid() && !buffer.IsEmpty() && to.value.None? && to !in buffer.slots[..]
    requires writer != null ==>
      writer.slot.value.Some? && writer.slot != to && writer.slot !in buffer.slots[..] && writer.ctx.promise.None?
    modifies buffer, buffer.slots[..], to
    modifies if writer == null then {} else {writer.slot}
    modifies (if writer == null then {} else {writer.ctx})`promise
    ensures buffer.Valid() && to.value == Some(old(buffer.contents)[0])
    ensures buffer.contents == old(buffer.contents)[1..] + if writer == null then [] else [old(writer.slot.value).value]
    ensures writer != null ==> writer.slot.value == None && writer.ctx.promise == Some(writer.token)
  {
    buffer.Dequeue(to);
    if writer != null {
      buffer.Enqueue(writer.slot);
      writer.Notify();
    }
  }
}
