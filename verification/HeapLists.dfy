/** The waiting lists of the step machine are those on the heap, with names for the nodes. */
module HeapLists {
  import opened Protocol
  import opened Filters
  import opened WaiterList

  /** The nodes of a list on the heap, by name. */
  ghost function Names<T>(nodes: seq<WaiterNode<T>>, name: WaiterNode<T> -> Node): seq<Node> {
    seq(|nodes|, i requires 0 <= i < |nodes| => name(nodes[i]))
  }

  lemma {:induction false} RemoveAt(xs: seq<Node>, k: nat)
    requires k < |xs| && NoDup(xs)
    ensures Remove(xs, xs[k]) == xs[..k] + xs[k + 1..]
  {
    if k > 0 {
      RemoveAt(xs[1..], k - 1);
      assert xs[0] != xs[k];
      assert Remove(xs, xs[k]) == [xs[0]] + (xs[1..][..k - 1] + xs[1..][k..]);
    }
  }

  lemma {:induction false} RemoveAbsent(xs: seq<Node>, n: Node)
    requires n !in xs
    ensures Remove(xs, n) == xs
  {
    if xs != [] {
      assert xs[0] in xs && forall m :: m in xs[1..] ==> m in xs;
      RemoveAbsent(xs[1..], n);
    }
  }

  /** The node of alternative `j` is the `k`-th of its list on the heap, or, popped before, in none. */
  ghost predicate InPlace<T>(nodes: seq<WaiterNode<T>>, name: WaiterNode<T> -> Node, n: Node, k: int) {
    k < |nodes| && NoDup(Names(nodes, name)) && if k < 0 then n !in Names(nodes, name) else name(nodes[k]) == n
  }

  lemma {:induction false} CutIsRemove<T>(nodes: seq<WaiterNode<T>>, name: WaiterNode<T> -> Node, n: Node, k: int)
    requires InPlace(nodes, name, n, k)
    ensures Names(Cut(nodes, k), name) == Remove(Names(nodes, name), n)
    ensures AtEnd(Names(nodes, name), n) <==> !(k < 0 || 0 < k < |nodes| - 1)
  {
    var xs := Names(nodes, name);
    if k < 0 {
      RemoveAbsent(xs, n);
      assert xs != [] ==> xs[0] in xs && xs[|xs| - 1] in xs;
    } else {
      RemoveAt(xs, k);
    }
  }

  /** What `dequeue` leaves of the node's list is what the machine leaves of it, whichever list it was
      called on.  And the machine has a dangling pointer exactly where `dequeue`, called on another list
      than the node's, does not leave the node's list sound. */
  lemma DequeueIsUnlink<T>(cfg: Config, st: State, s: nat, j: nat,
                           nodes: seq<WaiterNode<T>>, name: WaiterNode<T> -> Node, k: int)
    requires Shape(cfg, st) && s < |st.sels| && j < |cfg.selects[s].alts| && AltAt(cfg, s, j).dir != Skip
    requires AltAt(cfg, s, j).chan < |st.chans| && InPlace(nodes, name, Node(s, j), k)
    requires Own(AltAt(cfg, s, j).dir, st.chans[AltAt(cfg, s, j).chan]) == Names(nodes, name)
    ensures Own(AltAt(cfg, s, j).dir, Unlink(cfg, st, s, j).chans[AltAt(cfg, s, j).chan]) == Names(Cut(nodes, k), name)
    ensures LeavesDangling(cfg, st, s, j) <==>
      !(AltAt(cfg, s, j).dir == Recv || cfg.intended) && !(k < 0 || 0 < k < |nodes| - 1)
  {
    CutIsRemove(nodes, name, Node(s, j), k);
  }
}
