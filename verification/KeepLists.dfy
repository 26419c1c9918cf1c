/** Every step keeps the waiting lists right. */
module KeepLists {
  import opened Protocol
  import opened Filters
  import opened Invariant
  import opened Frames
  import opened KeepCtl

  /** None of the listed nodes has been passed, if `s` is not cleaning up. */
  lemma NonePassed(cfg: Config, st: State, r: State, s: nat, p: nat, c: nat)
    requires Frame(cfg, st, r, s, p, c) && Lists(cfg, st)
    requires !r.sels[s].pc.Done? && !r.sels[s].pc.Clear?
    ensures forall d, n | 0 <= d < |st.chans| && n in st.chans[d].readers + st.chans[d].writers :: NotPassed(r, n)
    ensures forall d, n | 0 <= d < |st.chans| && n in st.chans[d].readers :: NotPassed(r, n)
    ensures forall d, n | 0 <= d < |st.chans| && n in st.chans[d].writers :: NotPassed(r, n)
  {
    forall d, n | 0 <= d < |st.chans| && n in st.chans[d].readers + st.chans[d].writers ensures NotPassed(r, n) {
      assert ChanLists(cfg, st, d);
    }
    forall d, n | 0 <= d < |st.chans| && n in st.chans[d].readers ensures NotPassed(r, n) {
      assert n in st.chans[d].readers + st.chans[d].writers;
    }
    forall d, n | 0 <= d < |st.chans| && n in st.chans[d].writers ensures NotPassed(r, n) {
      assert n in st.chans[d].readers + st.chans[d].writers;
    }
  }

  lemma {:induction false} TailOf(xs: seq<Node>)
    requires xs != [] && NoDup(xs)
    ensures NoDup(xs[1..]) && xs[0] !in xs[1..]
    ensures forall n :: n in xs <==> n == xs[0] || n in xs[1..]
  {
    assert xs == [xs[0]] + xs[1..];
  }

  /** The head of a list is popped: it is stale, or this step claims it. */
  lemma ListsPopped(cfg: Config, st: State, r: State, s: nat, p: nat, c: nat, dir: Dir)
    requires Frame(cfg, st, r, s, p, c) && Lists(cfg, st) && SelCtl(cfg, r, s) && c < |st.chans|
    requires !r.sels[s].pc.Done? && !r.sels[s].pc.Clear? && r.sels[s].nodes == st.sels[s].nodes
    requires Opposite(dir, st.chans[c]) != [] && Opposite(dir, r.chans[c]) == Opposite(dir, st.chans[c])[1..]
    requires if dir == Recv then r.chans[c].readers == st.chans[c].readers
      else r.chans[c].writers == st.chans[c].writers
    requires !Open(r.win, Opposite(dir, st.chans[c])[0])
    requires ClaimedNow(st, r, s, p) ==>
      r.win[p].value == Claim(Opposite(dir, st.chans[c])[0].tok, s) && Opposite(dir, st.chans[c])[0].sel == p
    ensures Lists(cfg, r)
  {
    NonePassed(cfg, st, r, s, p, c);
    assert ChanLists(cfg, st, c);
    TailOf(Opposite(dir, st.chans[c]));
    ChanListsShrunk(cfg, st, r, s, p, c, c);
    assert SelLists(cfg, st, s);
    ListsFromFrame(cfg, st, r, s, p, c);
  }

  /** A list with a newly registered node at its back. */
  lemma {:induction false} AppendedList(cfg: Config, st: State, r: State, s: nat, c: nat, list: seq<Node>, me: Node,
        dir: Dir)
    requires Frame(cfg, st, r, s, s, c) && SelCtl(cfg, r, s)
    requires NoDup(list) && (forall n :: n in list ==> Listed(cfg, st, n, c, dir) && NotPassed(r, n))
    requires me.sel == s && me.tok !in st.sels[s].nodes && Listed(cfg, r, me, c, dir)
    ensures NoDup(list + [me])
    ensures forall n :: n in list + [me] ==> Listed(cfg, r, n, c, dir)
  {
    assert me !in list;
    forall n | n in list + [me] ensures Listed(cfg, r, n, c, dir) {
      if n in list { ListedStays(cfg, st, r, s, s, c, n, c, dir); }
    }
  }

  /** A node is registered at the back of its list. */
  lemma ListsEnlisted(cfg: Config, st: State, r: State, s: nat, i: nat, c: nat)
    requires At(cfg, st, s, Scan(i)) && Lists(cfg, st) && cfg.selects[s].waits && c == ChanOf(cfg, s, i)
    requires r == Enlist(cfg, st, s, i) && Frame(cfg, st, r, s, s, c) && SelCtl(cfg, r, s)
    requires forall n :: n in st.chans[c].readers ==> NotPassed(r, n)
    requires forall n :: n in st.chans[c].writers ==> NotPassed(r, n)
    ensures ChanLists(cfg, r, c)
  {
    assert ChanLists(cfg, st, c);
    if AltAt(cfg, s, i).dir == Recv {
      AppendedList(cfg, st, r, s, c, st.chans[c].readers, Node(s, i), Recv);
      forall n | n in r.chans[c].writers ensures Listed(cfg, r, n, c, Send) {
        ListedStays(cfg, st, r, s, s, c, n, c, Send);
      }
    } else {
      AppendedList(cfg, st, r, s, c, st.chans[c].writers, Node(s, i), Send);
      forall n | n in r.chans[c].readers ensures Listed(cfg, r, n, c, Recv) {
        ListedStays(cfg, st, r, s, s, c, n, c, Recv);
      }
    }
  }

  /** A waiting select keeps its places and gets one more. */
  lemma PlacesEnlisted(cfg: Config, st: State, r: State, s: nat, i: nat)
    requires Shape(cfg, st) && s < |st.sels| && SelCtl(cfg, st, s) && st.sels[s].pc == Scan(i)
    requires SelLists(cfg, st, s) && cfg.selects[s].waits && r == Enlist(cfg, st, s, i)
    ensures SelLists(cfg, r, s)
  {
    if st.win[s].None? {
      forall j {:trigger Node(s, j)} | j in r.sels[s].nodes && j < |cfg.selects[s].alts| && AltAt(cfg, s, j).dir != Skip
        ensures Node(s, j) in Own(AltAt(cfg, s, j).dir, r.chans[AltAt(cfg, s, j).chan])
      {
        assert j in st.sels[s].nodes ==> Node(s, j) in Own(AltAt(cfg, s, j).dir, st.chans[AltAt(cfg, s, j).chan]);
      }
    }
  }

  lemma ListsWait(cfg: Config, st: State, s: nat, i: nat)
    requires At(cfg, st, s, Scan(i)) && Lists(cfg, st)
    requires Frame(cfg, st, Enlist(cfg, st, s, i), s, s, ChanOf(cfg, s, i)) && SelCtl(cfg, Enlist(cfg, st, s, i), s)
    ensures Lists(cfg, Enlist(cfg, st, s, i))
  {
    var r, c := Enlist(cfg, st, s, i), ChanOf(cfg, s, i);
    if !cfg.selects[s].waits {
      ListsSame(cfg, st, r, s, s, c);
    } else {
      NonePassed(cfg, st, r, s, s, c);
      ListsEnlisted(cfg, st, r, s, i, c);
      assert SelLists(cfg, st, s);
      PlacesEnlisted(cfg, st, r, s, i);
      ListsFromFrame(cfg, st, r, s, s, c);
    }
  }

  /** A list from which the node just passed is gone. */
  lemma {:induction false} ClearedList(cfg: Config, st: State, r: State, s: nat, j: nat, t: nat, list: seq<Node>,
        rest: seq<Node>, d: nat, dir: Dir)
    requires Shape(cfg, st) && s < |st.sels| && st.sels[s].pc == Clear(j, t) && st.win[s].Some?
    requires NoDup(list) && (forall n :: n in list ==> Listed(cfg, st, n, d, dir))
    requires rest == list || rest == Remove(list, Node(s, j))
    requires Node(s, j) !in rest && r.win == st.win
    requires |r.sels| == |st.sels| && forall q :: 0 <= q < |r.sels| && q != s ==> r.sels[q] == st.sels[q]
    requires if j == |cfg.selects[s].alts| then r.sels[s].pc == Done(t) else r.sels[s].pc == Clear(j + 1, t)
    ensures Shrunk(st, r, list, rest)
  {
    RemoveMembers(list, Node(s, j));
  }

  /** What the cleaning thread leaves behind at alternative `j` is not listed any more. */
  lemma ClearedShrunk(cfg: Config, st: State, r: State, s: nat, j: nat, t: nat, d: nat)
    requires Shape(cfg, st) && s < |st.sels| && SelCtl(cfg, st, s) && st.sels[s].pc == Clear(j, t)
    requires d < |st.chans| && ChanLists(cfg, st, d)
    requires r == ClearStep(cfg, st, s, j, t) && r.health == Ok && st.health == Ok
    ensures Shrunk(st, r, st.chans[d].readers, r.chans[d].readers)
    ensures Shrunk(st, r, st.chans[d].writers, r.chans[d].writers)
  {
    var me := Node(s, j);
    assert me !in r.chans[d].readers by { RemoveMembers(st.chans[d].readers, me); }
    assert me !in r.chans[d].writers by { RemoveMembers(st.chans[d].writers, me); }
    ClearedList(cfg, st, r, s, j, t, st.chans[d].readers, r.chans[d].readers, d, Recv);
    ClearedList(cfg, st, r, s, j, t, st.chans[d].writers, r.chans[d].writers, d, Send);
  }

  /** Cleaning up removes the node of one alternative, wherever it still is. */
  lemma ListsClear(cfg: Config, st: State, s: nat, j: nat, t: nat)
    requires At(cfg, st, s, Clear(j, t)) && Enabled(cfg, st, s) && ClearStep(cfg, st, s, j, t).health == Ok
    requires Lists(cfg, st)
    ensures Lists(cfg, ClearStep(cfg, st, s, j, t))
  {
    var r := ClearStep(cfg, st, s, j, t);
    var c := ClearedChan(cfg, st, s, j, t);
    CtlClear(cfg, st, s, j, t);
    assert SelCtl(cfg, r, s);
    forall d, n | 0 <= d < |st.chans| && d != c && n in st.chans[d].readers + st.chans[d].writers
      ensures NotPassed(r, n)
    {
      assert ChanLists(cfg, st, d);
      ClearedShrunk(cfg, st, r, s, j, t, d);
    }
    if c < |st.chans| {
      assert ChanLists(cfg, st, c);
      ClearedShrunk(cfg, st, r, s, j, t, c);
      ChanListsShrunk(cfg, st, r, s, s, c, c);
    }
    ListsFromFrame(cfg, st, r, s, s, c);
  }

  /** A wait-free select never registered anything. */
  lemma ListsPublish(cfg: Config, st: State, s: nat, i: nat)
    requires At(cfg, st, s, Publish(i)) && st.health == Ok && PublishStep(cfg, st, s, i).health == Ok && Lists(cfg, st)
    ensures Lists(cfg, PublishStep(cfg, st, s, i))
  {
    var r := PublishStep(cfg, st, s, i);
    CtlPublish(cfg, st, s, i);
    assert SelCtl(cfg, r, s);
    if cfg.selects[s].waits {
      ListsSame(cfg, st, r, s, s, |st.chans|);
    } else {
      forall d, n | 0 <= d < |st.chans| && n in st.chans[d].readers + st.chans[d].writers ensures NotPassed(r, n) {
        assert ChanLists(cfg, st, d);
      }
      assert SelLists(cfg, st, s);
      ListsFromFrame(cfg, st, r, s, s, |st.chans|);
    }
  }
}
