/** Every step keeps the flow of values through each channel, and the record of completions. */
module KeepOrder {
  import opened Protocol
  import opened Filters
  import opened Invariant
  import opened Frames
  import opened KeepCtl
  import opened KeepQueues

  // ---------------------------------------------------------------- flow

  /** Nothing passes through a channel whose buffer and record stay as they are. */
  lemma FlowSame(cfg: Config, st: State, r: State, d: nat)
    requires Shape(cfg, st) && Shape(cfg, r) && d < |st.chans| && ChanFlow(cfg, st, d)
    requires r.chans[d].buffer == st.chans[d].buffer && r.chans[d].recv == st.chans[d].recv
    requires r.chans[d].sent == st.chans[d].sent
    requires !Storing(st, d) && !Storing(r, d) && !Handing(r, d)
    ensures ChanFlow(cfg, r, d)
  {}

  /** Or one whose holder, if any, stays where it is. */
  lemma FlowByOwner(cfg: Config, st: State, r: State, d: nat)
    requires Shape(cfg, st) && Shape(cfg, r) && d < |st.chans| && ChanFlow(cfg, st, d) && r.chans[d] == st.chans[d]
    requires var q := st.chans[d].owner; q.Some? && q.value < |st.sels| ==> r.sels[q.value].pc == st.sels[q.value].pc
    ensures ChanFlow(cfg, r, d) && Handing(r, d) == Handing(st, d)
  {}

  lemma FlowUntouched(cfg: Config, st: State, r: State, s: nat, p: nat, c: nat, d: nat)
    requires Frame(cfg, st, r, s, p, c) && d < |st.chans| && d != c && ChanCtl(cfg, st, d) && ChanFlow(cfg, st, d)
    requires LockedAlt(st.sels[s].pc).Some? ==> AltAt(cfg, s, LockedAlt(st.sels[s].pc).value).chan == c
    ensures ChanFlow(cfg, r, d) && Handing(r, d) == Handing(st, d)
  {
    var q := st.chans[d].owner;
    assert q.Some? ==> r.sels[q.value].pc == st.sels[q.value].pc;
    FlowByOwner(cfg, st, r, d);
  }

  lemma FlowFromBuffer(cfg: Config, st: State, s: nat, i: nat)
    requires Here(cfg, st, s, Scan(i)) && Decide(cfg, st, s, i) == FromBuffer
    requires TakeBuffered(cfg, st, s, i).health == Ok
    requires st.health == Ok && ChanFlow(cfg, st, ChanOf(cfg, s, i))
    ensures ChanFlow(cfg, TakeBuffered(cfg, st, s, i), ChanOf(cfg, s, i))
  {}

  lemma FlowToBuffer(cfg: Config, st: State, s: nat, i: nat)
    requires Here(cfg, st, s, Scan(i)) && Decide(cfg, st, s, i) == ToBuffer && PutBuffered(cfg, st, s, i).health == Ok
    requires st.health == Ok && ChanFlow(cfg, st, ChanOf(cfg, s, i)) && SelSlots(cfg, st, s)
    ensures ChanFlow(cfg, PutBuffered(cfg, st, s, i), ChanOf(cfg, s, i))
  {
    assert SlotRight(cfg, st, s, AltAt(cfg, s, i).op);
  }

  lemma FlowRendezvous(cfg: Config, st: State, s: nat, i: nat)
    requires Here(cfg, st, s, Scan(i)) && Decide(cfg, st, s, i) == Rendezvous && HeadListed(cfg, st, s, i)
    requires ChanWake(cfg, st, ChanOf(cfg, s, i)) && ChanFlow(cfg, st, ChanOf(cfg, s, i))
    ensures st.chans[ChanOf(cfg, s, i)].buffer == []
    ensures ChanFlow(cfg, TakeBoth(cfg, st, s, i), ChanOf(cfg, s, i))
  {}

  lemma FlowRefill(cfg: Config, st: State, s: nat, i: nat)
    requires Here(cfg, st, s, Refill(i)) && HeadListed(cfg, st, s, i)
    requires st.chans[ChanOf(cfg, s, i)].writers != [] && Open(st.win, st.chans[ChanOf(cfg, s, i)].writers[0])
    requires ChanFlow(cfg, st, ChanOf(cfg, s, i))
    ensures ChanFlow(cfg, RefillStep(cfg, st, s, i), ChanOf(cfg, s, i))
  {}

  lemma FlowStore(cfg: Config, st: State, s: nat, i: nat, n: Node)
    requires Here(cfg, st, s, Store(i, n)) && st.health == Ok && StoreStep(cfg, st, s, i, n).health == Ok
    requires ChanFlow(cfg, st, ChanOf(cfg, s, i)) && SelSlots(cfg, st, n.sel)
    ensures ChanFlow(cfg, StoreStep(cfg, st, s, i, n), ChanOf(cfg, s, i))
  {
    assert SlotRight(cfg, st, n.sel, AltAt(cfg, n.sel, n.tok).op);
  }

  lemma FlowMatch(cfg: Config, st: State, s: nat, i: nat, n: Node)
    requires Here(cfg, st, s, Match(i, n)) && st.health == Ok && MatchStep(cfg, st, s, i, n).health == Ok
    requires ChanFlow(cfg, st, ChanOf(cfg, s, i))
    ensures ChanFlow(cfg, MatchStep(cfg, st, s, i, n), ChanOf(cfg, s, i))
  {}

  // ---------------------------------------------------------------- pairs

  /** The step leaves what `s` has received on channel `d` where it is. */
  ghost predicate KeepsReads(cfg: Config, st: State, r: State, s: nat, d: nat)
    requires Shape(cfg, st) && Shape(cfg, r)
  {
    forall n | Won(cfg, st.win, n, d, Recv) && n.sel == s :: Received(cfg, r, n) == Received(cfg, st, n)
  }

  /** A peer whose slot changes did not read from channel `d`. */
  ghost predicate PeerElsewhere(cfg: Config, st: State, r: State, s: nat, p: nat, d: nat)
    requires Shape(cfg, st) && Shape(cfg, r) && p < |st.sels|
  {
    p != s && r.sels[p] != st.sels[p] ==> forall n | Won(cfg, st.win, n, d, Recv) :: n.sel != p
  }

  lemma PairsKept(cfg: Config, st: State, r: State, s: nat, p: nat, c: nat, d: nat)
    requires Frame(cfg, st, r, s, p, c) && d < |st.chans| && ChanQueues(cfg, st, d) && ChanFlow(cfg, st, d)
    requires ChanPairs(cfg, st, d)
    requires r.chans[d].recv == st.chans[d].recv && st.chans[d].sent <= r.chans[d].sent
    requires (Handing(st, d) ==> Handing(r, d))
    requires KeepsReads(cfg, st, r, s, d) && PeerElsewhere(cfg, st, r, s, p, d)
    ensures ChanPairs(cfg, r, d)
  {
    var ch := r.chans[d];
    forall k | 0 <= k < |ch.recv| - (if Handing(r, d) then 1 else 0) && k < |ch.sent| && NodeOk(cfg, ch.recv[k])
      ensures Received(cfg, r, ch.recv[k]) == Input(cfg, ch.sent[k])
    {
      var n := st.chans[d].recv[k];
      assert n in st.chans[d].recv && Won(cfg, st.win, n, d, Recv);
    }
  }

  lemma PairsFromBuffer(cfg: Config, st: State, s: nat, i: nat)
    requires Here(cfg, st, s, Scan(i)) && Decide(cfg, st, s, i) == FromBuffer
    requires TakeBuffered(cfg, st, s, i).health == Ok
    requires var c := ChanOf(cfg, s, i);
      st.health == Ok && ChanQueues(cfg, st, c) && ChanFlow(cfg, st, c) && ChanPairs(cfg, st, c)
    ensures ChanPairs(cfg, TakeBuffered(cfg, st, s, i), ChanOf(cfg, s, i))
  {
    var c := ChanOf(cfg, s, i);
    var r := TakeBuffered(cfg, st, s, i);
    var ch := r.chans[c];
    forall k | 0 <= k < |ch.recv| && k < |ch.sent| && NodeOk(cfg, ch.recv[k])
      ensures Received(cfg, r, ch.recv[k]) == Input(cfg, ch.sent[k])
    {
      if k < |st.chans[c].recv| {
        var n := st.chans[c].recv[k];
        assert n in st.chans[c].recv && Won(cfg, st.win, n, c, Recv);
      } else {
        assert st.chans[c].buffer[0] == r.sels[s].slots[AltAt(cfg, s, i).op].value;
      }
    }
  }

  /** A pair that is still being handed over does not count yet. */
  lemma PairsExtended(cfg: Config, st: State, r: State, d: nat, x: Node, y: Node)
    requires Shape(cfg, st) && Shape(cfg, r) && d < |st.chans| && ChanFlow(cfg, st, d) && ChanPairs(cfg, st, d)
    requires !Handing(st, d) && Handing(r, d)
    requires r.chans[d].recv == st.chans[d].recv + [x] && r.chans[d].sent == st.chans[d].sent + [y]
    requires forall n | NodeOk(cfg, n) :: Received(cfg, r, n) == Received(cfg, st, n)
    ensures ChanPairs(cfg, r, d)
  {
    var ch := st.chans[d];
    forall k | 0 <= k < |ch.recv| && k < |ch.sent| && NodeOk(cfg, ch.recv[k])
      ensures Received(cfg, r, ch.recv[k]) == Input(cfg, ch.sent[k]) {}
  }

  lemma PairsRendezvous(cfg: Config, st: State, s: nat, i: nat)
    requires Here(cfg, st, s, Scan(i)) && Decide(cfg, st, s, i) == Rendezvous
    requires var c := ChanOf(cfg, s, i); ChanFlow(cfg, st, c) && ChanPairs(cfg, st, c)
    ensures ChanPairs(cfg, TakeBoth(cfg, st, s, i), ChanOf(cfg, s, i))
  {
    var c, me := ChanOf(cfg, s, i), Node(s, i);
    var n := Opposite(AltAt(cfg, s, i).dir, st.chans[c])[0];
    if AltAt(cfg, s, i).dir == Recv {
      PairsExtended(cfg, st, TakeBoth(cfg, st, s, i), c, me, n);
    } else {
      PairsExtended(cfg, st, TakeBoth(cfg, st, s, i), c, n, me);
    }
  }

  /** The hand-over brings the writer's value to the reader. */
  lemma MatchDelivers(cfg: Config, st: State, s: nat, i: nat, n: Node)
    requires Here(cfg, st, s, Match(i, n)) && st.health == Ok && MatchStep(cfg, st, s, i, n).health == Ok
    requires SelCtl(cfg, st, n.sel) && SelSlots(cfg, st, s) && SelSlots(cfg, st, n.sel)
    ensures var r := MatchStep(cfg, st, s, i, n);
            if AltAt(cfg, s, i).dir == Recv then Received(cfg, r, Node(s, i)) == Input(cfg, n)
            else Received(cfg, r, n) == Input(cfg, Node(s, i))
  {
    assert SlotRight(cfg, st, s, AltAt(cfg, s, i).op) && SlotRight(cfg, st, n.sel, AltAt(cfg, n.sel, n.tok).op);
  }

  lemma MatchKeepsOthers(cfg: Config, st: State, s: nat, i: nat, n: Node, m: Node)
    requires Here(cfg, st, s, Match(i, n)) && st.health == Ok && MatchStep(cfg, st, s, i, n).health == Ok
    requires Won(cfg, st.win, m, ChanOf(cfg, s, i), Recv)
    requires m != (if AltAt(cfg, s, i).dir == Recv then Node(s, i) else n)
    ensures Received(cfg, MatchStep(cfg, st, s, i, n), m) == Received(cfg, st, m)
  {}

  /** The pair that was being handed over counts from now on. */
  lemma PairsCompleted(cfg: Config, st: State, r: State, d: nat)
    requires Shape(cfg, st) && Shape(cfg, r) && d < |st.chans| && NoDup(st.chans[d].recv) && ChanPairs(cfg, st, d)
    requires r.chans[d].recv == st.chans[d].recv && r.chans[d].sent == st.chans[d].sent && st.chans[d].recv != []
    requires |st.chans[d].sent| == |st.chans[d].recv|
    requires var ch := st.chans[d];
      forall m | m in ch.recv && m != ch.recv[|ch.recv| - 1] && NodeOk(cfg, m) ::
      Received(cfg, r, m) == Received(cfg, st, m)
    requires var ch := st.chans[d]; var k := |ch.recv| - 1;
      NodeOk(cfg, ch.recv[k]) && Received(cfg, r, ch.recv[k]) == Input(cfg, ch.sent[k])
    ensures ChanPairs(cfg, r, d)
  {
    var ch := st.chans[d];
    forall k | 0 <= k < |ch.recv| && NodeOk(cfg, ch.recv[k])
      ensures Received(cfg, r, ch.recv[k]) == Input(cfg, ch.sent[k])
    {
      assert ch.recv[k] in ch.recv;
    }
  }

  lemma PairsMatch(cfg: Config, st: State, s: nat, i: nat, n: Node)
    requires Here(cfg, st, s, Match(i, n)) && st.health == Ok && MatchStep(cfg, st, s, i, n).health == Ok
    requires var c := ChanOf(cfg, s, i); ChanQueues(cfg, st, c) && ChanFlow(cfg, st, c) && ChanPairs(cfg, st, c)
    requires SelCtl(cfg, st, n.sel) && SelSlots(cfg, st, s) && SelSlots(cfg, st, n.sel)
    ensures ChanPairs(cfg, MatchStep(cfg, st, s, i, n), ChanOf(cfg, s, i))
  {
    var c, r := ChanOf(cfg, s, i), MatchStep(cfg, st, s, i, n);
    var ch := st.chans[c];
    var reader := if AltAt(cfg, s, i).dir == Recv then Node(s, i) else n;
    MatchDelivers(cfg, st, s, i, n);
    assert ch.recv[|ch.recv| - 1] == reader && |ch.recv| == |ch.sent|;
    forall m | m in ch.recv && m != reader && NodeOk(cfg, m) ensures Received(cfg, r, m) == Received(cfg, st, m) {
      MatchKeepsOthers(cfg, st, s, i, n, m);
    }
    PairsCompleted(cfg, st, r, c);
  }

  // ---------------------------------------------------------------- all channels

  /** A node of a select that this step claims is in no list any more. */
  lemma ClaimsOutside(cfg: Config, st: State, r: State, s: nat, p: nat, c: nat, d: nat)
    requires Frame(cfg, st, r, s, p, c) && d < |st.chans| && d != c && ChanLists(cfg, st, d) && SelCtl(cfg, r, s)
    requires ClaimedNow(st, r, s, p) ==> r.win[p].value.tok < |cfg.selects[p].alts|
    requires ClaimedNow(st, r, s, p) ==> AltAt(cfg, p, r.win[p].value.tok).chan == c
    ensures ClaimedOutside(st.win, r.win, s, p, st.chans[d].readers)
    ensures ClaimedOutside(st.win, r.win, s, p, st.chans[d].writers)
  {}

  lemma OrderFromFrame(cfg: Config, st: State, r: State, s: nat, p: nat, c: nat)
    requires Frame(cfg, st, r, s, p, c) && Ctl(cfg, st) && Lists(cfg, st) && Order(cfg, st) && SelCtl(cfg, r, s)
    requires LockedAlt(st.sels[s].pc).Some? ==> AltAt(cfg, s, LockedAlt(st.sels[s].pc).value).chan == c
    requires ClaimedNow(st, r, s, p) ==> r.win[p].value.tok < |cfg.selects[p].alts|
    requires ClaimedNow(st, r, s, p) ==> AltAt(cfg, p, r.win[p].value.tok).chan == c
    requires forall d | 0 <= d < |st.chans| && d != c ::
      KeepsReads(cfg, st, r, s, d) && PeerElsewhere(cfg, st, r, s, p, d)
    requires c < |st.chans| ==> ChanQueues(cfg, r, c) && ChanFlow(cfg, r, c) && ChanPairs(cfg, r, c)
    requires c < |st.chans| ==> st.chans[c].sent <= r.chans[c].sent && st.chans[c].recv <= r.chans[c].recv
    requires SelLogged(cfg, r, s) && SelLogged(cfg, r, p)
    ensures Order(cfg, r)
  {
    forall d | 0 <= d < |r.chans| ensures ChanQueues(cfg, r, d) && ChanFlow(cfg, r, d) && ChanPairs(cfg, r, d) {
      if d != c {
        assert ChanLists(cfg, st, d) && ChanCtl(cfg, st, d) && ChanQueues(cfg, st, d) && KeepsReads(cfg, st, r, s, d);
        ClaimsOutside(cfg, st, r, s, p, c, d);
        QueuesUntouched(cfg, st, r, s, p, d);
        FlowUntouched(cfg, st, r, s, p, c, d);
        PairsKept(cfg, st, r, s, p, c, d);
      }
    }
    forall q | 0 <= q < |r.sels| ensures SelLogged(cfg, r, q) {
      if q != s && q != p { assert SelLogged(cfg, st, q); }
    }
  }
}
