/** Every step keeps the control invariant. */
module KeepCtl {
  import opened Options
  import opened Protocol
  import opened Invariant
  import opened Frames

  /** The select is at program point `pc` and has its own affairs in order. */
  ghost predicate Here(cfg: Config, st: State, s: nat, pc: Pc) {
    Shape(cfg, st) && s < |st.sels| && SelCtl(cfg, st, s) && st.sels[s].pc == pc
  }

  /** The same, and everybody else too. */
  ghost predicate At(cfg: Config, st: State, s: nat, pc: Pc) {
    Here(cfg, st, s, pc) && Ctl(cfg, st)
  }

  ghost function ChanOf(cfg: Config, s: nat, i: nat): nat
    requires s < |cfg.selects| && i < |cfg.selects[s].alts|
  {
    AltAt(cfg, s, i).chan
  }

  /** The first node of a list is registered in that list. */
  ghost predicate HeadListed(cfg: Config, st: State, s: nat, i: nat)
    requires Shape(cfg, st) && s < |st.sels| && i < |cfg.selects[s].alts| && AltAt(cfg, s, i).dir != Skip
  {
    var a := AltAt(cfg, s, i);
    var list := Opposite(a.dir, st.chans[a.chan]);
    list != [] ==> list[0].sel != s && Listed(cfg, st, list[0], a.chan, if a.dir == Recv then Send else Recv)
  }

  lemma CtlBegin(cfg: Config, st: State, s: nat)
    requires At(cfg, st, s, Idle)
    ensures var r := PutSel(st, s, st.sels[s].(pc := Submit(0))); Frame(cfg, st, r, s, s, |st.chans|) && Ctl(cfg, r)
  {
    CtlFromFrame(cfg, st, PutSel(st, s, st.sels[s].(pc := Submit(0))), s, s, |st.chans|);
  }

  lemma CtlSubmit(cfg: Config, st: State, s: nat, i: nat)
    requires At(cfg, st, s, Submit(i)) && Enabled(cfg, st, s)
    requires SubmitStep(cfg, st, s, i).health == Ok
    ensures var c := if i < |cfg.selects[s].alts| && AltAt(cfg, s, i).dir != Skip then ChanOf(cfg, s, i)
      else |st.chans|;
            Frame(cfg, st, SubmitStep(cfg, st, s, i), s, s, c) && Ctl(cfg, SubmitStep(cfg, st, s, i))
  {
    var c := if i < |cfg.selects[s].alts| && AltAt(cfg, s, i).dir != Skip then ChanOf(cfg, s, i) else |st.chans|;
    CtlFromFrame(cfg, st, SubmitStep(cfg, st, s, i), s, s, c);
  }

  lemma FrameWait(cfg: Config, st: State, s: nat, i: nat)
    requires Here(cfg, st, s, Scan(i))
    ensures Frame(cfg, st, Enlist(cfg, st, s, i), s, s, ChanOf(cfg, s, i))
  {}

  lemma CtlWait(cfg: Config, st: State, s: nat, i: nat)
    requires At(cfg, st, s, Scan(i)) && Decide(cfg, st, s, i) == Wait
    ensures Frame(cfg, st, Enlist(cfg, st, s, i), s, s, ChanOf(cfg, s, i)) && Ctl(cfg, Enlist(cfg, st, s, i))
  {
    FrameWait(cfg, st, s, i);
    CtlFromFrame(cfg, st, Enlist(cfg, st, s, i), s, s, ChanOf(cfg, s, i));
  }

  lemma CtlQuit(cfg: Config, st: State, s: nat, i: nat)
    requires At(cfg, st, s, Scan(i)) && st.win[s].Some?
    ensures Frame(cfg, st, GiveUp(cfg, st, s, i), s, s, ChanOf(cfg, s, i)) && Ctl(cfg, GiveUp(cfg, st, s, i))
  {
    CtlFromFrame(cfg, st, GiveUp(cfg, st, s, i), s, s, ChanOf(cfg, s, i));
  }

  lemma CtlFromBuffer(cfg: Config, st: State, s: nat, i: nat)
    requires At(cfg, st, s, Scan(i)) && Decide(cfg, st, s, i) == FromBuffer && TakeBuffered(cfg, st, s, i).health == Ok
    requires st.health == Ok
    ensures Frame(cfg, st, TakeBuffered(cfg, st, s, i), s, s, ChanOf(cfg, s, i))
    ensures Ctl(cfg, TakeBuffered(cfg, st, s, i))
  {
    CtlFromFrame(cfg, st, TakeBuffered(cfg, st, s, i), s, s, ChanOf(cfg, s, i));
  }

  lemma CtlToBuffer(cfg: Config, st: State, s: nat, i: nat)
    requires At(cfg, st, s, Scan(i)) && st.win[s].None? && PutBuffered(cfg, st, s, i).health == Ok
    ensures Frame(cfg, st, PutBuffered(cfg, st, s, i), s, s, ChanOf(cfg, s, i)) && Ctl(cfg, PutBuffered(cfg, st, s, i))
  {
    CtlFromFrame(cfg, st, PutBuffered(cfg, st, s, i), s, s, ChanOf(cfg, s, i));
  }

  lemma CtlPop(cfg: Config, st: State, s: nat, c: nat, dir: Dir)
    requires Shape(cfg, st) && Ctl(cfg, st) && s < |st.sels| && SelCtl(cfg, st, s) && PeerOf(st.sels[s].pc).None?
    requires LockedAlt(st.sels[s].pc).Some? && ChanOf(cfg, s, LockedAlt(st.sels[s].pc).value) == c
    requires Opposite(dir, st.chans[c]) != []
    ensures Frame(cfg, st, Pop(st, c, dir), s, s, c) && Ctl(cfg, Pop(st, c, dir))
  {
    CtlFromFrame(cfg, st, Pop(st, c, dir), s, s, c);
  }

  /** What taking both flags for alternative `i` and node `n` does. */
  ghost predicate TookBoth(cfg: Config, st: State, r: State, s: nat, i: nat, n: Node, c: nat) {
    && s < |st.sels| == |st.win| && n.sel < |st.win| && c < |st.chans| == |r.chans|
    && r.sels == st.sels[s := st.sels[s].(pc := Match(i, n))] && r.chans == st.chans[c := r.chans[c]]
    && r.health == st.health
    && r.win == st.win[s := Some(Claim(i, s))][n.sel := Some(Claim(n.tok, s))]
    && r.chans[c].owner == st.chans[c].owner && r.chans[c].buffer == st.chans[c].buffer
    && |r.chans[c].readers| + |r.chans[c].writers| + 1 == |st.chans[c].readers| + |st.chans[c].writers|
  }

  lemma TakesBothFlags(cfg: Config, st: State, s: nat, i: nat)
    requires Shape(cfg, st) && s < |st.sels| && st.sels[s].pc == Scan(i) && PcOk(cfg, s, Scan(i))
    requires ChanOf(cfg, s, i) < |st.chans|
    requires Opposite(AltAt(cfg, s, i).dir, st.chans[ChanOf(cfg, s, i)]) != []
    ensures TookBoth(cfg, st, TakeBoth(cfg, st, s, i), s, i,
      Opposite(AltAt(cfg, s, i).dir, st.chans[ChanOf(cfg, s, i)])[0], ChanOf(cfg, s, i))
  {}

  lemma FrameTookBoth(cfg: Config, st: State, r: State, s: nat, i: nat, n: Node, c: nat)
    requires Shape(cfg, st) && Shape(cfg, r) && TookBoth(cfg, st, r, s, i, n, c) && st.win[s].None?
    requires st.win[n.sel].None?
    requires st.sels[s].pc == Scan(i)
    ensures Frame(cfg, st, r, s, n.sel, c)
  {}

  lemma FrameRendezvous(cfg: Config, st: State, s: nat, i: nat)
    requires Here(cfg, st, s, Scan(i)) && HeadListed(cfg, st, s, i) && Decide(cfg, st, s, i) == Rendezvous
    ensures var n := Opposite(AltAt(cfg, s, i).dir, st.chans[ChanOf(cfg, s, i)])[0];
            Frame(cfg, st, TakeBoth(cfg, st, s, i), s, n.sel, ChanOf(cfg, s, i))
  {
    TakesBothFlags(cfg, st, s, i);
    FrameTookBoth(cfg, st, TakeBoth(cfg, st, s, i), s, i,
      Opposite(AltAt(cfg, s, i).dir, st.chans[ChanOf(cfg, s, i)])[0], ChanOf(cfg, s, i));
  }

  lemma CtlRendezvous(cfg: Config, st: State, s: nat, i: nat)
    requires At(cfg, st, s, Scan(i)) && HeadListed(cfg, st, s, i) && Decide(cfg, st, s, i) == Rendezvous
    ensures var n := Opposite(AltAt(cfg, s, i).dir, st.chans[ChanOf(cfg, s, i)])[0];
            Frame(cfg, st, TakeBoth(cfg, st, s, i), s, n.sel, ChanOf(cfg, s, i)) && Ctl(cfg, TakeBoth(cfg, st, s, i))
  {
    var r, c := TakeBoth(cfg, st, s, i), ChanOf(cfg, s, i);
    var n := Opposite(AltAt(cfg, s, i).dir, st.chans[c])[0];
    assert SelCtl(cfg, st, n.sel);
    FrameRendezvous(cfg, st, s, i);
    CtlPeerClaimed(cfg, st, r, s, n, c);
    CtlFromFrame(cfg, st, r, s, n.sel, c);
  }

  /** The search for a waiting writer found none. */
  lemma CtlRefillEnd(cfg: Config, st: State, s: nat, i: nat)
    requires At(cfg, st, s, Refill(i)) && st.chans[ChanOf(cfg, s, i)].writers == []
    ensures Frame(cfg, st, RefillStep(cfg, st, s, i), s, s, ChanOf(cfg, s, i)) && Ctl(cfg, RefillStep(cfg, st, s, i))
  {
    CtlFromFrame(cfg, st, RefillStep(cfg, st, s, i), s, s, ChanOf(cfg, s, i));
  }

  lemma CtlRefill(cfg: Config, st: State, s: nat, i: nat)
    requires At(cfg, st, s, Refill(i)) && HeadListed(cfg, st, s, i)
    requires st.chans[ChanOf(cfg, s, i)].writers != [] && Open(st.win, st.chans[ChanOf(cfg, s, i)].writers[0])
    ensures var n := st.chans[ChanOf(cfg, s, i)].writers[0];
            Frame(cfg, st, RefillStep(cfg, st, s, i), s, n.sel, ChanOf(cfg, s, i))
              && Ctl(cfg, RefillStep(cfg, st, s, i))
  {
    var r, c := RefillStep(cfg, st, s, i), ChanOf(cfg, s, i);
    var n := st.chans[c].writers[0];
    assert SelCtl(cfg, st, n.sel);
    CtlPeerClaimed(cfg, st, r, s, n, c);
    CtlFromFrame(cfg, st, r, s, n.sel, c);
  }

  lemma FrameMatch(cfg: Config, st: State, s: nat, i: nat, n: Node)
    requires Here(cfg, st, s, Match(i, n)) && st.health == Ok && MatchStep(cfg, st, s, i, n).health == Ok
    ensures Frame(cfg, st, MatchStep(cfg, st, s, i, n), s, n.sel, ChanOf(cfg, s, i))
  {}

  lemma CtlMatch(cfg: Config, st: State, s: nat, i: nat, n: Node)
    requires At(cfg, st, s, Match(i, n)) && st.health == Ok && MatchStep(cfg, st, s, i, n).health == Ok
    ensures Frame(cfg, st, MatchStep(cfg, st, s, i, n), s, n.sel, ChanOf(cfg, s, i))
    ensures Ctl(cfg, MatchStep(cfg, st, s, i, n))
  {
    var r, c := MatchStep(cfg, st, s, i, n), ChanOf(cfg, s, i);
    FrameMatch(cfg, st, s, i, n);
    assert SelCtl(cfg, st, n.sel);
    CtlPeerHanded(cfg, st, r, s, n, c);
    CtlFromFrame(cfg, st, r, s, n.sel, c);
  }

  lemma FrameStore(cfg: Config, st: State, s: nat, i: nat, n: Node)
    requires Here(cfg, st, s, Store(i, n)) && st.health == Ok && StoreStep(cfg, st, s, i, n).health == Ok
    ensures Frame(cfg, st, StoreStep(cfg, st, s, i, n), s, n.sel, ChanOf(cfg, s, i))
  {}

  lemma CtlStore(cfg: Config, st: State, s: nat, i: nat, n: Node)
    requires At(cfg, st, s, Store(i, n)) && st.health == Ok && StoreStep(cfg, st, s, i, n).health == Ok
    ensures Frame(cfg, st, StoreStep(cfg, st, s, i, n), s, n.sel, ChanOf(cfg, s, i))
    ensures Ctl(cfg, StoreStep(cfg, st, s, i, n))
  {
    var r, c := StoreStep(cfg, st, s, i, n), ChanOf(cfg, s, i);
    FrameStore(cfg, st, s, i, n);
    assert SelCtl(cfg, st, n.sel);
    CtlPeerHanded(cfg, st, r, s, n, c);
    CtlFromFrame(cfg, st, r, s, n.sel, c);
  }

  lemma CtlPublish(cfg: Config, st: State, s: nat, i: nat)
    requires At(cfg, st, s, Publish(i)) && st.health == Ok && PublishStep(cfg, st, s, i).health == Ok
    ensures Frame(cfg, st, PublishStep(cfg, st, s, i), s, s, |st.chans|) && Ctl(cfg, PublishStep(cfg, st, s, i))
  {
    CtlFromFrame(cfg, st, PublishStep(cfg, st, s, i), s, s, |st.chans|);
  }

  lemma CtlResume(cfg: Config, st: State, s: nat, t: nat)
    requires At(cfg, st, s, Parked) && st.sels[s].promise == Some(t)
    requires st.health == Ok && ResumeStep(cfg, st, s, t).health == Ok
    ensures Frame(cfg, st, ResumeStep(cfg, st, s, t), s, s, |st.chans|) && Ctl(cfg, ResumeStep(cfg, st, s, t))
  {
    CtlFromFrame(cfg, st, ResumeStep(cfg, st, s, t), s, s, |st.chans|);
  }

  /** The channel that cleaning up alternative `j` works on, if it has a node to remove. */
  ghost function ClearedChan(cfg: Config, st: State, s: nat, j: nat, t: nat): nat
    requires Shape(cfg, st) && s < |st.sels| && j <= |cfg.selects[s].alts|
  {
    if NeedsClearing(cfg, st, s, j, t) then ChanOf(cfg, s, j) else |st.chans|
  }

  lemma CtlClear(cfg: Config, st: State, s: nat, j: nat, t: nat)
    requires At(cfg, st, s, Clear(j, t)) && Enabled(cfg, st, s) && ClearStep(cfg, st, s, j, t).health == Ok
    ensures var c := ClearedChan(cfg, st, s, j, t);
            Frame(cfg, st, ClearStep(cfg, st, s, j, t), s, s, c) && Ctl(cfg, ClearStep(cfg, st, s, j, t))
  {
    var c := ClearedChan(cfg, st, s, j, t);
    assert c < |st.chans| ==> ChanCtl(cfg, st, c);
    CtlFromFrame(cfg, st, ClearStep(cfg, st, s, j, t), s, s, c);
  }
}
