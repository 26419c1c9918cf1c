/** What a step leaves alone, and what follows from that alone. */
module Frames {
  import opened Options
  import opened Protocol
  import opened Filters
  import opened Invariant

  /** From `st` to `r` the thread of `s` moved, at most one other select `p` (or `p == s`) was
      claimed or handed its value, and at most channel `c` changed (none if `c` is no channel). */
  ghost predicate Frame(cfg: Config, st: State, r: State, s: nat, p: nat, c: nat) {
    && Shape(cfg, st) && Shape(cfg, r) && s < |st.sels| && p < |st.sels|
    && (forall q :: 0 <= q < |st.sels| && q != s && q != p ==> r.sels[q] == st.sels[q])
    && (forall q :: 0 <= q < |st.win| && q != s && q != p ==> r.win[q] == st.win[q])
    && (forall d :: 0 <= d < |st.chans| && d != c ==> r.chans[d] == st.chans[d])
    && (st.win[s].Some? ==> r.win[s] == st.win[s])
    && (st.win[p].Some? ==> r.win[p] == st.win[p])
    && (st.win[s].None? && r.win[s].Some? ==> r.win[s].value.who == s)
    && st.sels[s].nodes <= r.sels[s].nodes
    && (p != s ==> r.sels[p] == st.sels[p].(slots := r.sels[p].slots, promise := r.sels[p].promise))
    && (p != s && r.sels[p] != st.sels[p] ==> PeerOf(st.sels[s].pc).Some?)
    && (PeerOf(st.sels[s].pc).Some? ==>
      PeerOf(st.sels[s].pc).value.sel == p && r.sels[p].promise == Some(PeerOf(st.sels[s].pc).value.tok))
    && (p != s && r.win[p] != st.win[p] ==>
      r.win[p].Some? && PeerOf(r.sels[s].pc).Some? && PeerOf(r.sels[s].pc).value.sel == p)
    && (r.sels[s].promise != st.sels[s].promise ==> st.sels[s].pc.Publish?)
    && (c < |st.chans| && r.chans[c].owner != st.chans[c].owner ==>
          if st.chans[c].owner.None? then r.chans[c].owner == Some(s)
            else st.chans[c].owner == Some(s) && r.chans[c].owner.None?)
  }

  // ---------------------------------------------------------------- control

  /** Who was claimed by a peer still is, and is owed as much. */
  lemma WonByPeerStays(cfg: Config, st: State, r: State, s: nat, p: nat, c: nat, q: nat, t: nat, who: nat)
    requires Frame(cfg, st, r, s, p, c) && q < |st.sels| && q != s && r.sels[q] == st.sels[q]
    requires PeerOf(st.sels[s].pc).Some? ==> q != p
    requires WonByPeer(st, q, t, who)
    ensures WonByPeer(r, q, t, who)
  {}

  /** A hand-over in progress stays the business of the thread that owes it. */
  lemma OwesStays(cfg: Config, st: State, r: State, s: nat, p: nat, c: nat, q: nat, i: nat, n: Node)
    requires Frame(cfg, st, r, s, p, c) && SelCtl(cfg, st, s)
    requires q < |st.sels| && q != s && i < |cfg.selects[q].alts| && NodeOk(cfg, n) && Owes(cfg, st, q, i, n)
    ensures Owes(cfg, r, q, i, n)
  {}

  /** A select that a step does not touch keeps its control invariant. */
  lemma CtlBystander(cfg: Config, st: State, r: State, s: nat, p: nat, c: nat, q: nat)
    requires Frame(cfg, st, r, s, p, c)
    requires q < |st.sels| && q != s && r.sels[q] == st.sels[q] && r.win[q] == st.win[q]
    requires SelCtl(cfg, st, s) && SelCtl(cfg, st, q) && SelCtl(cfg, st, p)
    requires PeerOf(st.sels[s].pc).Some? ==> q != p
    ensures SelCtl(cfg, r, q)
  {
    var pc := st.sels[q].pc;
    if st.win[q].Some? && st.win[q].value.who != q {
      WonByPeerStays(cfg, st, r, s, p, c, q, st.win[q].value.tok, st.win[q].value.who);
    }
    if PeerOf(pc).Some? { OwesStays(cfg, st, r, s, p, c, q, pc.i, pc.peer); }
  }

  /** A peer that is claimed now: it was unclaimed, registered, and is owed the rest. */
  lemma CtlPeerClaimed(cfg: Config, st: State, r: State, s: nat, n: Node, c: nat)
    requires NodeOk(cfg, n) && Frame(cfg, st, r, s, n.sel, c) && n.sel != s
    requires SelCtl(cfg, st, s) && SelCtl(cfg, st, n.sel) && PeerOf(st.sels[s].pc).None?
    requires st.win[n.sel].None? && n.tok in st.sels[n.sel].nodes
    requires r.win[n.sel] == Some(Claim(n.tok, s)) && PeerOf(r.sels[s].pc) == Some(n)
    ensures SelCtl(cfg, r, n.sel)
  {}

  /** A peer that gets its value and its wake-up now. */
  lemma CtlPeerHanded(cfg: Config, st: State, r: State, s: nat, n: Node, c: nat)
    requires NodeOk(cfg, n) && Frame(cfg, st, r, s, n.sel, c)
    requires SelCtl(cfg, st, s) && SelCtl(cfg, st, n.sel) && PeerOf(st.sels[s].pc) == Some(n)
    ensures SelCtl(cfg, r, n.sel)
  {}

  lemma CtlFromFrame(cfg: Config, st: State, r: State, s: nat, p: nat, c: nat)
    requires Frame(cfg, st, r, s, p, c) && Ctl(cfg, st)
    requires SelCtl(cfg, st, s) && SelCtl(cfg, r, s)
    requires LockedAlt(st.sels[s].pc).Some? ==> AltAt(cfg, s, LockedAlt(st.sels[s].pc).value).chan == c
    requires c < |st.chans| && r.chans[c].owner == Some(s) ==> ChanCtl(cfg, r, c)
    requires p != s && (PeerOf(st.sels[s].pc).Some? || r.win[p] != st.win[p]) ==> SelCtl(cfg, r, p)
    ensures Ctl(cfg, r)
  {
    forall q | 0 <= q < |r.sels| ensures SelCtl(cfg, r, q) {
      if q != s && (q != p || (PeerOf(st.sels[s].pc).None? && r.win[p] == st.win[p])) {
        CtlBystander(cfg, st, r, s, p, c, q);
      }
    }
    forall d | 0 <= d < |r.chans| ensures ChanCtl(cfg, r, d) {
      assert ChanCtl(cfg, st, d);
    }
  }

  // ---------------------------------------------------------------- waiting lists

  /** The cleaning thread has not passed a node that is still listed. */
  ghost predicate NotPassed(r: State, n: Node) {
    n.sel < |r.sels| ==> (r.sels[n.sel].pc.Clear? ==> r.sels[n.sel].pc.j <= n.tok) && !r.sels[n.sel].pc.Done?
  }

  /** The peer's flag is taken by this step. */
  ghost predicate ClaimedNow(st: State, r: State, s: nat, p: nat)
    requires p < |st.win| && p < |r.win|
  {
    p != s && st.win[p].None? && r.win[p].Some?
  }

  lemma ListedStays(cfg: Config, st: State, r: State, s: nat, p: nat, c: nat, n: Node, d: nat, dir: Dir)
    requires Frame(cfg, st, r, s, p, c) && SelCtl(cfg, r, s)
    requires Listed(cfg, st, n, d, dir) && NotPassed(r, n)
    requires n.sel == p && ClaimedNow(st, r, s, p) ==> r.win[p].value.who == s && r.win[p].value.tok != n.tok
    ensures Listed(cfg, r, n, d, dir)
  {}

  /** A list that only lost nodes, among them those that were claimed or passed. */
  ghost predicate Shrunk(st: State, r: State, old_: seq<Node>, new_: seq<Node>) {
    && NoDup(new_)
    && (forall n :: n in new_ ==> n in old_ && NotPassed(r, n))
    && (forall n :: n in old_ && Open(r.win, n) ==> n in new_)
  }

  lemma ChanListsShrunk(cfg: Config, st: State, r: State, s: nat, p: nat, c: nat, d: nat)
    requires Frame(cfg, st, r, s, p, c) && SelCtl(cfg, r, s) && d < |st.chans| && ChanLists(cfg, st, d)
    requires Shrunk(st, r, st.chans[d].readers, r.chans[d].readers)
    requires Shrunk(st, r, st.chans[d].writers, r.chans[d].writers)
    requires ClaimedNow(st, r, s, p) ==> r.win[p].value.who == s
    requires ClaimedNow(st, r, s, p) ==> Node(p, r.win[p].value.tok) !in r.chans[d].readers + r.chans[d].writers
    ensures ChanLists(cfg, r, d)
  {
    var ch := r.chans[d];
    forall n | n in ch.readers ensures Listed(cfg, r, n, d, Recv) {
      assert n in ch.readers + ch.writers;
      ListedStays(cfg, st, r, s, p, c, n, d, Recv);
    }
    forall n | n in ch.writers ensures Listed(cfg, r, n, d, Send) {
      assert n in ch.readers + ch.writers;
      ListedStays(cfg, st, r, s, p, c, n, d, Send);
    }
  }

  /** Channels out of reach keep their lists, and open selects keep their places. */
  lemma ListsFromFrame(cfg: Config, st: State, r: State, s: nat, p: nat, c: nat)
    requires Frame(cfg, st, r, s, p, c) && Lists(cfg, st) && SelCtl(cfg, r, s) && SelLists(cfg, r, s)
    requires forall d, n | 0 <= d < |st.chans| && d != c && n in st.chans[d].readers + st.chans[d].writers ::
      NotPassed(r, n)
    requires ClaimedNow(st, r, s, p) ==> r.win[p].value.who == s && r.win[p].value.tok < |cfg.selects[p].alts|
    requires ClaimedNow(st, r, s, p) ==> AltAt(cfg, p, r.win[p].value.tok).chan == c
    requires c < |st.chans| ==> ChanLists(cfg, r, c)
    requires c < |st.chans| ==> forall n :: n in st.chans[c].readers && Open(r.win, n) ==> n in r.chans[c].readers
    requires c < |st.chans| ==> forall n :: n in st.chans[c].writers && Open(r.win, n) ==> n in r.chans[c].writers
    ensures Lists(cfg, r)
  {
    forall d | 0 <= d < |r.chans| ensures ChanLists(cfg, r, d) {
      if d != c {
        assert ChanLists(cfg, st, d);
        forall n | n in st.chans[d].readers ensures NotPassed(r, n) {
          assert n in st.chans[d].readers + st.chans[d].writers;
        }
        forall n | n in st.chans[d].writers ensures NotPassed(r, n) {
          assert n in st.chans[d].readers + st.chans[d].writers;
        }
        ChanListsShrunk(cfg, st, r, s, p, c, d);
      }
    }
    forall q | 0 <= q < |r.sels| ensures SelLists(cfg, r, q) {
      if q != s && r.win[q].None? {
        assert SelLists(cfg, st, q);
      }
    }
  }

  /** The same, for steps that leave every list and every registration as it is. */
  lemma ListsSame(cfg: Config, st: State, r: State, s: nat, p: nat, c: nat)
    requires Frame(cfg, st, r, s, p, c) && Lists(cfg, st) && SelCtl(cfg, r, s) && !ClaimedNow(st, r, s, p)
    requires r.sels[s].nodes == st.sels[s].nodes && !r.sels[s].pc.Done? && (r.sels[s].pc.Clear? ==> r.sels[s].pc.j == 0)
    requires c < |st.chans| ==> r.chans[c].readers == st.chans[c].readers && r.chans[c].writers == st.chans[c].writers
    ensures Lists(cfg, r)
  {
    forall d, n | 0 <= d < |st.chans| && n in st.chans[d].readers + st.chans[d].writers ensures NotPassed(r, n) {
      assert ChanLists(cfg, st, d);
    }
    if c < |st.chans| {
      assert ChanLists(cfg, st, c);
      forall n | n in st.chans[c].readers ensures NotPassed(r, n) {
        assert n in st.chans[c].readers + st.chans[c].writers;
      }
      forall n | n in st.chans[c].writers ensures NotPassed(r, n) {
        assert n in st.chans[c].readers + st.chans[c].writers;
      }
      ChanListsShrunk(cfg, st, r, s, p, c, c);
    }
    assert SelLists(cfg, st, s);
    ListsFromFrame(cfg, st, r, s, p, c);
  }
}
