/**
 The intrusive list of waiting operations, and the claiming of waiters while other threads claim
 them through other channels.
 */
module WaiterList {
  import opened Options
  import opened Slots

  /** What one select call shares with those it waits for. */
  class WaitContext {
    var availFlag: bool
    var promise: Option<nat>
    /** History: the thread that took the flag. */
    ghost var takenBy: Option<nat>

    ghost predicate Valid()
      reads this
    {
      (availFlag <==> takenBy.None?) && (availFlag ==> promise.None?)
    }

    constructor ()
      ensures Valid() && availFlag && promise == None
    {
      availFlag, promise, takenBy := true, None, None;
    }

    /** Take the flag; of all callers only the first one succeeds. */
    method Claim(ghost me: nat) returns (won: bool)
      requires Valid()
      modifies this
      ensures Valid() && !availFlag && promise == old(promise)
      ensures won == old(availFlag)
      ensures takenBy == if won then Some(me) else old(takenBy)
    {
      won := availFlag;
      availFlag := false;
      if won { takenBy := Some(me); }
    }
  }

  /** A node lives in the frame of the waiting select; `prev` and `next` are null while it is in no
      list. */
  class WaiterNode<T> {
    const ctx: WaitContext
    const slot: SendSlot<T>
    const token: nat
    var prev: WaiterNode?<T>
    var next: WaiterNode?<T>

    constructor (ctx: WaitContext, slot: SendSlot<T>, token: nat)
      ensures this.ctx == ctx && this.slot == slot && this.token == token && prev == null && next == null
    {
      this.ctx, this.slot, this.token, prev, next := ctx, slot, token, null, null;
    }

    /** Wake the waiter up: its promise gets its token, once. */
    method Notify()
      requires ctx.promise.None?
      modifies ctx`promise
      ensures ctx.promise == Some(token)
    {
      ctx.promise := Some(token);
    }
  }

  ghost predicate Distinct<T>(xs: seq<T>) {
    forall i, j :: 0 <= i < j < |xs| ==> xs[i] != xs[j]
  }

  /** The links of the `i`-th node are right. */
  ghost predicate PrevRight<T>(nodes: seq<WaiterNode<T>>, i: nat)
    requires i < |nodes|
    reads nodes
  {
    nodes[i].prev == if i == 0 then null else nodes[i - 1]
  }

  ghost predicate NextRight<T>(nodes: seq<WaiterNode<T>>, i: nat)
    requires i < |nodes|
    reads nodes
  {
    nodes[i].next == if i == |nodes| - 1 then null else nodes[i + 1]
  }

  /** Each node points at its neighbours, the outer ones at nothing. */
  ghost predicate Chained<T>(nodes: seq<WaiterNode<T>>)
    reads nodes
  {
    Distinct(nodes) && forall i :: 0 <= i < |nodes| ==> PrevRight(nodes, i) && NextRight(nodes, i)
  }

  ghost predicate Ends<T>(nodes: seq<WaiterNode<T>>, first: WaiterNode?<T>, last: WaiterNode?<T>) {
    && first == (if nodes == [] then null else nodes[0])
    && last == (if nodes == [] then null else nodes[|nodes| - 1])
  }

  /** `node` is the `k`-th of the nodes, or, with negative `k`, none of them and linked to nothing. */
  ghost predicate Places<T>(nodes: seq<WaiterNode<T>>, node: WaiterNode<T>, k: int)
    reads node
  {
    if k < 0 then node !in nodes && node.prev == null && node.next == null else k < |nodes| && nodes[k] == node
  }

  /** The nodes without the `k`-th. */
  ghost function Cut<T>(nodes: seq<WaiterNode<T>>, k: int): seq<WaiterNode<T>>
    requires k < |nodes|
  {
    if k < 0 then nodes else nodes[..k] + nodes[k + 1..]
  }

  /** When its neighbours point past the `k`-th node, the others are chained. */
  lemma {:induction false} Rechained<T>(xs: seq<WaiterNode<T>>, k: nat)
    requires k < |xs| && Distinct(xs)
    requires forall i :: 0 <= i < |xs| && i != k && i != k + 1 ==> PrevRight(xs, i)
    requires forall i :: 0 <= i < |xs| && i != k && i != k - 1 ==> NextRight(xs, i)
    requires k < |xs| - 1 ==> xs[k + 1].prev == if k == 0 then null else xs[k - 1]
    requires 0 < k ==> xs[k - 1].next == if k == |xs| - 1 then null else xs[k + 1]
    ensures Chained(xs[..k] + xs[k + 1..])
  {
    var ys := xs[..k] + xs[k + 1..];
    assert forall i :: 0 <= i < k ==> ys[i] == xs[i];
    assert forall i :: k <= i < |ys| ==> ys[i] == xs[i + 1];
    forall i | 0 <= i < |ys| ensures PrevRight(ys, i) {
      assert i < k ==> PrevRight(xs, i);
      assert i > k ==> PrevRight(xs, i + 1);
    }
    forall i | 0 <= i < |ys| ensures NextRight(ys, i) {
      assert i < k - 1 ==> NextRight(xs, i);
      assert i >= k ==> NextRight(xs, i + 1);
    }
  }

  /** A node that points back to the last one, which points to it, extends the chain. */
  lemma {:induction false} Extended<T>(xs: seq<WaiterNode<T>>, node: WaiterNode<T>)
    requires Distinct(xs) && node !in xs && node.next == null
    requires forall i :: 0 <= i < |xs| ==> PrevRight(xs, i)
    requires forall i :: 0 <= i < |xs| - 1 ==> NextRight(xs, i)
    requires if xs == [] then node.prev == null else node.prev == xs[|xs| - 1] && xs[|xs| - 1].next == node
    ensures Chained(xs + [node])
  {
    var ys := xs + [node];
    assert forall i :: 0 <= i < |xs| ==> ys[i] == xs[i];
    forall i | 0 <= i < |ys| ensures PrevRight(ys, i) { assert i < |xs| ==> PrevRight(xs, i); }
    forall i | 0 <= i < |ys| ensures NextRight(ys, i) { assert i < |xs| - 1 ==> NextRight(xs, i); }
  }

  /** The part of `dequeue` that works on the neighbours of a node. */
  method Bypass<T>(node: WaiterNode<T>, ghost xs: seq<WaiterNode<T>>, ghost k: nat)
    requires Chained(xs) && k < |xs| && xs[k] == node
    modifies xs
    ensures Chained(xs[..k] + xs[k + 1..]) && node.prev == null && node.next == null
  {
    assert PrevRight(xs, k) && NextRight(xs, k);
    if node.prev != null {
      node.prev.next := node.next;
    }
    if node.next != null {
      node.next.prev := node.prev;
    }
    if node.prev != null {
      node.prev := null;
    }
    if node.next != null {
      node.next := null;
    }
    forall i | 0 <= i < |xs| && i != k && i != k + 1 ensures PrevRight(xs, i) { assert old(PrevRight(xs, i)); }
    forall i | 0 <= i < |xs| && i != k && i != k - 1 ensures NextRight(xs, i) { assert old(NextRight(xs, i)); }
    Rechained(xs, k);
  }

  /** What an iteration of `dequeue_first_available` finds. */
  datatype Found = Stale | Taken | Refused

  /** All contexts are sound, and thread `me` has taken none of their flags. */
  ghost predicate NoneTaken(contexts: set<WaitContext>, me: nat)
    reads contexts
  {
    forall c :: c in contexts ==> c.Valid() && c.takenBy != Some(me)
  }

  /** What becomes of a context: its flag only goes down, and who took it stays known; `mine` tells
      whether that was thread `me`; `promise` is what its promise is now. */
  twostate predicate Fares(c: WaitContext, me: nat, mine: bool, promise: Option<nat>)
    reads c
  {
    && c.Valid() && (old(c.takenBy).Some? ==> c.takenBy == old(c.takenBy))
    && (c.takenBy == Some(me) <==> mine) && c.promise == promise
  }

  /** The first `n` nodes are in no list any more, and the flags of their contexts are down. */
  ghost predicate Gone<T>(xs: seq<WaiterNode<T>>, n: nat, contexts: set<WaitContext>)
    requires n <= |xs|
    reads xs, contexts
  {
    forall j :: 0 <= j < n ==> xs[j].prev == null && xs[j].next == null && xs[j].ctx in contexts && !xs[j].ctx.availFlag
  }

  class WaiterList<T> {
    var first: WaiterNode?<T>
    var last: WaiterNode?<T>
    ghost var nodes: seq<WaiterNode<T>>

    ghost predicate Valid()
      reads this, nodes
    {
      Chained(nodes) && Ends(nodes, first, last)
    }

    constructor ()
      ensures Valid() && nodes == []
    {
      first, last, nodes := null, null, [];
    }

    method Enqueue(node: WaiterNode<T>)
      requires Valid() && node !in nodes
      modifies this, nodes, node
      ensures Valid() && nodes == old(nodes) + [node]
    {
      node.prev := last;
      node.next := null;
      if first == null {
        first := node;
      } else {
        last.next := node;
      }
      last := node;
      forall i | 0 <= i < |nodes| ensures PrevRight(nodes, i) { assert old(PrevRight(nodes, i)); }
      forall i | 0 <= i < |nodes| - 1 ensures NextRight(nodes, i) { assert old(NextRight(nodes, i)); }
      Extended(nodes, node);
      nodes := nodes + [node];
    }

    /** The part of `dequeue` that works on the links: the node leaves its list, this list stays chained. */
    method Unhook(node: WaiterNode<T>, ghost host: WaiterList<T>, ghost k: int)
      requires Chained(nodes) && Chained(host.nodes) && k < |host.nodes| && Places(host.nodes, node, k)
      requires host == this || (node !in nodes && forall n :: n in nodes ==> n !in host.nodes)
      modifies host`nodes, host.nodes, node
      ensures node.prev == null && node.next == null
      ensures host.nodes == Cut(old(host.nodes), k) && (host != this ==> nodes == old(nodes))
      ensures Chained(nodes) && Chained(host.nodes)
    {
      ghost var xs := host.nodes;
      ghost var chain, place: nat := if k < 0 then [node] else xs, if k < 0 then 0 else k;
      Bypass(node, chain, place);
      host.nodes := Cut(xs, k);
      if host != this {
        forall i | 0 <= i < |nodes| ensures PrevRight(nodes, i) && NextRight(nodes, i) {
          assert old(PrevRight(nodes, i) && NextRight(nodes, i));
          assert nodes[i] in nodes;
        }
      }
      if k < 0 {
        forall i | 0 <= i < |xs| ensures PrevRight(xs, i) && NextRight(xs, i) {
          assert old(PrevRight(xs, i) && NextRight(xs, i));
          assert xs[i] in xs;
        }
      }
    }

    /** `dequeue` called on this list for a node that is in list `host`, or in none.

        A node that a peer has popped before is in no list and has null links: nothing happens.  A
        node of this list is removed, from wherever it is.  A node of another list is unlinked from
        its neighbours there; that list is then sound exactly if the node was at neither end of it. */
    method Dequeue(node: WaiterNode<T>, ghost host: WaiterList<T>, ghost k: int)
      requires Valid() && host.Valid() && k < |host.nodes| && Places(host.nodes, node, k)
      requires host == this || (node !in nodes && forall n :: n in nodes ==> n !in host.nodes)
      modifies this, host, host.nodes, node
      ensures node.prev == null && node.next == null
      ensures host.nodes == Cut(old(host.nodes), k) && (host != this ==> nodes == old(nodes))
      ensures Valid()
      ensures host.Valid() <==> host == this || k < 0 || 0 < k < |old(host.nodes)| - 1
    {
      assert k >= 0 ==> PrevRight(host.nodes, k) && NextRight(host.nodes, k);
      assert node == first <==> host == this && k == 0;
      assert node == last <==> host == this && 0 <= k == |host.nodes| - 1;
      if node == first {
        first := node.next;
      }
      if node == last {
        last := node.prev;
      }
      assert host == this ==> Ends(Cut(nodes, k), first, last);
      Unhook(node, host, k);
    }

    /** `pop`: the first node leaves the list, with null links. */
    method Pop()
      requires Valid() && nodes != []
      modifies this, nodes
      ensures Valid() && nodes == old(nodes)[1..]
      ensures old(first).prev == null && old(first).next == null
    {
      var node := first;
      assert PrevRight(nodes, 0) && NextRight(nodes, 0);
      first := node.next;
      if first == null {
        last := null;
      } else {
        first.prev := null;
        node.next := null;
      }
      nodes := nodes[1..];
      forall i | 0 <= i < |nodes| ensures PrevRight(nodes, i) && NextRight(nodes, i) {
        assert old(PrevRight(nodes, i + 1) && NextRight(nodes, i + 1));
      }
      assert Distinct(nodes);
    }

    /** What the debug assertions of `dequeue` say. */
    ghost predicate AssertionsPass(node: WaiterNode<T>)
      reads this, node
    {
      && (node.prev != null || node == first || (node.prev == null && node.next == null))
      && (node.next != null || node == last || (node.prev == null && node.next == null))
    }

    /** They detect a wrong list exactly when the node is at an end of its own, and not alone there. */
    lemma WhenAssertionsPass(node: WaiterNode<T>, host: WaiterList<T>, k: int)
      requires Valid() && host.Valid() && k < |host.nodes| && Places(host.nodes, node, k)
      requires host == this || node !in nodes
      ensures AssertionsPass(node) <==> host == this || k < 0 || 0 < k < |host.nodes| - 1 || |host.nodes| == 1
    {
      if k >= 0 { assert PrevRight(host.nodes, k) && NextRight(host.nodes, k); }
    }

    /** What other threads may do at any time: they cannot touch this list, whose channel is locked,
        but they can take flags through other channels. */
    method OthersClaim(contexts: set<WaitContext>, ghost me: nat)
      requires NoneTaken(contexts, me)
      modifies contexts
      ensures forall c :: c in contexts ==> Fares(c, me, false, old(c.promise))
    {
      var rest := contexts;
      while rest != {}
        invariant rest <= contexts && forall c :: c in contexts ==> Fares(c, me, false, old(c.promise))
        decreases |rest|
      {
        var c :| c in rest;
        rest := rest - {c};
        if * {
          var won := c.Claim(me + 1);
        }
      }
    }

    /** One iteration: the flags of the first node and of the caller are looked at, and taken, under
        both context mutexes. */
    method Inspect(caller: WaitContext?, contexts: set<WaitContext>, ghost me: nat) returns (found: Found)
      requires Valid() && nodes != [] && NoneTaken(contexts, me)
      requires nodes[0].ctx in contexts && nodes[0].ctx != caller && (caller != null ==> caller in contexts)
      modifies this, nodes, contexts
      ensures Valid()
      ensures nodes == if found == Refused then old(nodes) else old(nodes)[1..]
      ensures found != Refused ==> old(nodes[0]).prev == null && old(nodes[0]).next == null
      ensures found == Stale ==> !old(nodes[0]).ctx.availFlag
      ensures found == Refused ==> old(nodes[0]).ctx.availFlag && caller != null && !caller.availFlag
      ensures found == Taken ==> old(nodes[0]).ctx.promise == None
      ensures forall c :: c in contexts ==>
        Fares(c, me, found == Taken && (c == old(nodes[0]).ctx || c == caller), old(c.promise))
    {
      OthersClaim(contexts, me);
      if first.ctx.availFlag {
        if caller != null && !caller.availFlag {
          return Refused;
        }
        var both := first.ctx.Claim(me);
        if caller != null { both := caller.Claim(me); }
        Pop();
        return Taken;
      }
      Pop();
      return Stale;
    }

    /** `dequeue_first_available` for a caller that waits itself, or (null) does not.

        Other threads take flags between the iterations.  Exactly the `dropped` leading nodes whose
        flags were found down are popped, with null links.  Either the next node is returned and both
        flags, its and the caller's, are taken by this call; or none is, and then the list is empty,
        or its first node was found available when the caller's own flag was gone already. */
    method DequeueFirstAvailable(caller: WaitContext?, contexts: set<WaitContext>, ghost me: nat)
      returns (node: WaiterNode?<T>, ghost dropped: nat)
      requires Valid() && NoneTaken(contexts, me)
      requires forall n :: n in nodes ==> n.ctx in contexts && n.ctx != caller
      requires caller != null ==> caller in contexts
      modifies this, nodes, contexts
      ensures Valid() && dropped <= |old(nodes)| && Gone(old(nodes), dropped, contexts)
      ensures node == null ==> nodes == old(nodes)[dropped..]
      ensures node == null && nodes != [] ==> nodes[0].ctx.availFlag && caller != null && !caller.availFlag
      ensures node != null ==>
        dropped < |old(nodes)| && node == old(nodes)[dropped] && nodes == old(nodes)[dropped + 1..]
      ensures node != null ==> node.prev == null && node.next == null && node.ctx.promise == None
      ensures forall c :: c in contexts ==>
        Fares(c, me, node != null && (c == node.ctx || c == caller), old(c.promise))
    {
      ghost var all := nodes;
      dropped := 0;
      while first != null
        invariant Valid() && dropped <= |all| && nodes == all[dropped..]
        invariant forall c :: c in contexts ==> Fares(c, me, false, old(c.promise))
        invariant Gone(all, dropped, contexts)
        decreases |nodes|
      {
        node := first;
        assert node == all[dropped];
        assert forall j :: 0 <= j < dropped ==> all[j] !in nodes;
        var found := Inspect(caller, contexts, me);
        assert Gone(all, dropped, contexts);
        if found == Taken { return; }
        if found == Refused { return null, dropped; }
        dropped := dropped + 1;
      }
      node := null;
    }
  }
}
