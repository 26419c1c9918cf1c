/** Every step keeps the invariant, and no assertion of the code fails. */
module Keep {
  import opened Options
  import opened Protocol
  import opened Invariant
  import opened Frames
  import opened KeepCtl
  import opened KeepLists
  import opened KeepWake
  import opened KeepQueues
  import opened KeepOrder
  import opened KeepArrivals
  import opened KeepSlots

  /** The invariant holds and the select is at `pc`. */
  ghost predicate Stands(cfg: Config, st: State, s: nat, pc: Pc) {
    Inv(cfg, st) && s < |st.sels| && st.sels[s].pc == pc && st.health == Ok
  }

  /** The parts of the invariant that speak of select `s`. */
  lemma OfSelect(cfg: Config, st: State, s: nat, pc: Pc)
    requires Stands(cfg, st, s, pc)
    ensures At(cfg, st, s, pc) && SelSlots(cfg, st, s) && SelLists(cfg, st, s) && SelLogged(cfg, st, s)
  {}

  /** The parts that speak of channel `c`. */
  lemma OfChan(cfg: Config, st: State, c: nat)
    requires Inv(cfg, st) && c < |st.chans|
    ensures ChanCtl(cfg, st, c) && ChanLists(cfg, st, c) && ChanWake(cfg, st, c)
    ensures ChanQueues(cfg, st, c) && ChanFlow(cfg, st, c) && ChanPairs(cfg, st, c)
  {}

  /** A node that a step claims is another select's: its own context would be locked twice. */
  lemma HeadIsOther(cfg: Config, st: State, s: nat, i: nat)
    requires Inv(cfg, st) && s < |st.sels| && i < |cfg.selects[s].alts| && AltAt(cfg, s, i).dir != Skip
    requires (st.sels[s].pc == Scan(i) && !LocksItself(cfg, st, s, i) && Decide(cfg, st, s, i) == Rendezvous)
      || (st.sels[s].pc == Refill(i) && st.chans[ChanOf(cfg, s, i)].writers != []
        && Open(st.win, st.chans[ChanOf(cfg, s, i)].writers[0]))
    ensures HeadListed(cfg, st, s, i)
  {
    var a := AltAt(cfg, s, i);
    var list := Opposite(a.dir, st.chans[a.chan]);
    assert ChanLists(cfg, st, a.chan) && SelCtl(cfg, st, s);
    assert list[0] in list;
  }

  /** What a select received stays put in a step that does not touch its slots. */
  lemma ReadsStay(cfg: Config, st: State, r: State, s: nat, p: nat, c: nat)
    requires Frame(cfg, st, r, s, p, c)
    requires st.win[s].None? || (r.sels[s].slots == st.sels[s].slots && r.sels[s].result == st.sels[s].result
      && (r.sels[s].pc.Clear? || r.sels[s].pc.Done?) == (st.sels[s].pc.Clear? || st.sels[s].pc.Done?))
    requires p == s || r.sels[p] == st.sels[p]
    ensures forall d | 0 <= d < |st.chans| :: KeepsReads(cfg, st, r, s, d) && PeerElsewhere(cfg, st, r, s, p, d)
  {}

  /** Putting the families together: what the touched selects and the touched channel have to show. */
  lemma InvFromFrame(cfg: Config, st: State, r: State, s: nat, p: nat, c: nat, enters: Option<Node>)
    requires Inv(cfg, st) && Frame(cfg, st, r, s, p, c) && Ctl(cfg, r) && Lists(cfg, r)
    requires LockedAlt(st.sels[s].pc).Some? ==> AltAt(cfg, s, LockedAlt(st.sels[s].pc).value).chan == c
    requires ClaimedNow(st, r, s, p) ==> r.win[p].value.who == s && r.win[p].value.tok < |cfg.selects[p].alts|
    requires ClaimedNow(st, r, s, p) ==> AltAt(cfg, p, r.win[p].value.tok).chan == c
    requires forall d | 0 <= d < |st.chans| && d != c ::
      KeepsReads(cfg, st, r, s, d) && PeerElsewhere(cfg, st, r, s, p, d)
    requires c < |st.chans| ==>
      ChanWake(cfg, r, c) && ChanQueues(cfg, r, c) && ChanFlow(cfg, r, c) && ChanPairs(cfg, r, c)
    requires c < |st.chans| ==> st.chans[c].sent <= r.chans[c].sent && st.chans[c].recv <= r.chans[c].recv
    requires SelLogged(cfg, r, s) && SelLogged(cfg, r, p)
    requires Enters(cfg, st, r, s, enters)
    requires ClaimedNow(st, r, s, p) ==> r.win[p].value.tok in st.sels[p].nodes
    requires enters.Some? ==>
      enters.value.sel == s && NodeOk(cfg, enters.value) && ChanOf(cfg, s, enters.value.tok) == c
      && !Entered(cfg, st, enters.value)
    requires c < |st.chans| ==> r.chans[c].arrivedR == Extended(cfg, st.chans[c].arrivedR, enters, Recv)
    requires c < |st.chans| ==> r.chans[c].arrivedW == Extended(cfg, st.chans[c].arrivedW, enters, Send)
    requires SelSlots(cfg, r, s) && (p != s && r.sels[p] != st.sels[p] ==> SelSlots(cfg, r, p))
    ensures Inv(cfg, r)
  {
    assert SelCtl(cfg, r, s);
    WakeFromFrame(cfg, st, r, s, p, c);
    OrderFromFrame(cfg, st, r, s, p, c);
    ArrivalsFromFrame(cfg, st, r, s, p, c, enters);
    SlotsFromFrame(cfg, st, r, s, p, c);
  }

  /** The two selects of a hand-over. */
  ghost predicate Both(cfg: Config, st: State, s: nat, n: Node)
    requires Shape(cfg, st) && s < |st.sels| && NodeOk(cfg, n)
  {
    && SelSlots(cfg, st, s) && SelLogged(cfg, st, s)
    && SelCtl(cfg, st, n.sel) && SelSlots(cfg, st, n.sel) && SelLogged(cfg, st, n.sel)
  }

  /** All that is kept of a channel's lists and values. */
  ghost predicate ChanKept(cfg: Config, st: State, c: nat)
    requires Shape(cfg, st) && c < |st.chans|
  {
    ChanWake(cfg, st, c) && ChanQueues(cfg, st, c) && ChanFlow(cfg, st, c) && ChanPairs(cfg, st, c)
  }

  // ---------------------------------------------------------------- steps without a channel

  /** A step that moves no value and claims nobody. */
  lemma Unclaiming(cfg: Config, st: State, r: State, s: nat, c: nat)
    requires Inv(cfg, st) && Frame(cfg, st, r, s, s, c) && SelCtl(cfg, st, s) && Ctl(cfg, r) && Lists(cfg, r)
    requires r.win == st.win
    requires r.sels[s] == st.sels[s].(pc := r.sels[s].pc) && !r.sels[s].pc.Done? && !r.sels[s].pc.Clear?
    requires !st.sels[s].pc.Done? && !st.sels[s].pc.Clear? && PeerOf(st.sels[s].pc).None? && PeerOf(r.sels[s].pc).None?
    requires LockedAlt(st.sels[s].pc).Some? ==> AltAt(cfg, s, LockedAlt(st.sels[s].pc).value).chan == c
    requires c < |st.chans| ==> ChanKept(cfg, r, c)
    requires c < |st.chans| ==>
      r.chans[c] == st.chans[c].(owner := r.chans[c].owner, readers := r.chans[c].readers,
      writers := r.chans[c].writers)
    ensures Inv(cfg, r)
  {
    assert SelCtl(cfg, r, s) && SelSlots(cfg, st, s) && SelLogged(cfg, st, s);
    ReadsStay(cfg, st, r, s, s, c);
    SlotsSelfSame(cfg, st, r, s, s, c);
    InvFromFrame(cfg, st, r, s, s, c, None);
  }

  /** What such a step does to its channel when it changes no list. */
  lemma UneventfulChan(cfg: Config, st: State, r: State, s: nat, c: nat)
    requires Frame(cfg, st, r, s, s, c) && r.win == st.win && c < |st.chans| && ChanKept(cfg, st, c)
    requires r.sels[s] == st.sels[s].(pc := r.sels[s].pc) && !r.sels[s].pc.Done? && !r.sels[s].pc.Clear?
    requires !st.sels[s].pc.Done? && !st.sels[s].pc.Clear?
    requires r.chans[c] == st.chans[c].(owner := r.chans[c].owner)
    requires ChanWake(cfg, r, c) && !Storing(st, c) && !Storing(r, c) && !Handing(st, c) && !Handing(r, c)
    ensures ChanKept(cfg, r, c)
  {
    ReadsStay(cfg, st, r, s, s, c);
    QueuesUntouched(cfg, st, r, s, s, c);
    FlowSame(cfg, st, r, c);
    PairsKept(cfg, st, r, s, s, c, c);
  }

  /** A step that moves no value, claims nobody and changes no list. */
  lemma Uneventful(cfg: Config, st: State, r: State, s: nat, c: nat)
    requires Inv(cfg, st) && Frame(cfg, st, r, s, s, c) && SelCtl(cfg, st, s) && Ctl(cfg, r) && r.win == st.win
    requires r.sels[s] == st.sels[s].(pc := r.sels[s].pc) && !r.sels[s].pc.Done? && !r.sels[s].pc.Clear?
    requires !st.sels[s].pc.Done? && !st.sels[s].pc.Clear? && PeerOf(st.sels[s].pc).None? && PeerOf(r.sels[s].pc).None?
    requires LockedAlt(st.sels[s].pc).Some? ==> AltAt(cfg, s, LockedAlt(st.sels[s].pc).value).chan == c
    requires c < |st.chans| ==> r.chans[c] == st.chans[c].(owner := r.chans[c].owner)
    requires c < |st.chans| ==>
      ChanWake(cfg, r, c) && !Storing(st, c) && !Storing(r, c) && !Handing(st, c) && !Handing(r, c)
    ensures Inv(cfg, r)
  {
    assert SelCtl(cfg, r, s);
    ListsSame(cfg, st, r, s, s, c);
    if c < |st.chans| {
      OfChan(cfg, st, c);
      UneventfulChan(cfg, st, r, s, c);
    }
    Unclaiming(cfg, st, r, s, c);
  }

  lemma KeepBegin(cfg: Config, st: State, s: nat)
    requires Stands(cfg, st, s, Idle)
    ensures Inv(cfg, PutSel(st, s, st.sels[s].(pc := Submit(0))))
  {
    var r := PutSel(st, s, st.sels[s].(pc := Submit(0)));
    OfSelect(cfg, st, s, Idle);
    CtlBegin(cfg, st, s);
    Uneventful(cfg, st, r, s, |st.chans|);
  }

  /** The alternative of `nothing` is taken at once. */
  lemma KeepSkip(cfg: Config, st: State, s: nat, i: nat)
    requires Stands(cfg, st, s, Submit(i)) && i < |cfg.selects[s].alts| && AltAt(cfg, s, i).dir == Skip
    ensures Inv(cfg, SubmitStep(cfg, st, s, i))
  {
    var r := SubmitStep(cfg, st, s, i);
    OfSelect(cfg, st, s, Submit(i));
    CtlSubmit(cfg, st, s, i);
    assert SelCtl(cfg, r, s);
    ListsSame(cfg, st, r, s, s, |st.chans|);
    ReadsStay(cfg, st, r, s, s, |st.chans|);
    SlotsSkip(cfg, st, s, i);
    InvFromFrame(cfg, st, r, s, s, |st.chans|, None);
  }

  lemma KeepLock(cfg: Config, st: State, s: nat, i: nat)
    requires Stands(cfg, st, s, Submit(i)) && Enabled(cfg, st, s) && i < |cfg.selects[s].alts|
    requires AltAt(cfg, s, i).dir != Skip
    ensures Inv(cfg, SubmitStep(cfg, st, s, i))
  {
    var r, c := SubmitStep(cfg, st, s, i), ChanOf(cfg, s, i);
    OfSelect(cfg, st, s, Submit(i));
    CtlSubmit(cfg, st, s, i);
    OfChan(cfg, st, c);
    ChanWakeLess(cfg, st, r, c);
    Uneventful(cfg, st, r, s, c);
  }

  lemma KeepSubmit(cfg: Config, st: State, s: nat, i: nat)
    requires Stands(cfg, st, s, Submit(i)) && Enabled(cfg, st, s)
    ensures SubmitStep(cfg, st, s, i).health == Ok && Inv(cfg, SubmitStep(cfg, st, s, i))
  {
    if i == |cfg.selects[s].alts| {
      OfSelect(cfg, st, s, Submit(i));
      CtlSubmit(cfg, st, s, i);
      Uneventful(cfg, st, SubmitStep(cfg, st, s, i), s, |st.chans|);
    } else if AltAt(cfg, s, i).dir == Skip {
      KeepSkip(cfg, st, s, i);
    } else {
      KeepLock(cfg, st, s, i);
    }
  }

  lemma KeepPublish(cfg: Config, st: State, s: nat, i: nat)
    requires Stands(cfg, st, s, Publish(i))
    ensures PublishStep(cfg, st, s, i).health == Ok && Inv(cfg, PublishStep(cfg, st, s, i))
  {
    var r, none := PublishStep(cfg, st, s, i), |st.chans|;
    OfSelect(cfg, st, s, Publish(i));
    SlotsPublish(cfg, st, s, i);
    CtlPublish(cfg, st, s, i);
    ListsPublish(cfg, st, s, i);
    InvFromFrame(cfg, st, r, s, s, none, None);
  }

  lemma KeepResume(cfg: Config, st: State, s: nat, t: nat)
    requires Stands(cfg, st, s, Parked) && st.sels[s].promise == Some(t)
    ensures ResumeStep(cfg, st, s, t).health == Ok && Inv(cfg, ResumeStep(cfg, st, s, t))
  {
    var r, none := ResumeStep(cfg, st, s, t), |st.chans|;
    OfSelect(cfg, st, s, Parked);
    SlotsResume(cfg, st, s, t);
    CtlResume(cfg, st, s, t);
    assert SelCtl(cfg, r, s);
    ListsSame(cfg, st, r, s, s, none);
    InvFromFrame(cfg, st, r, s, s, none, None);
  }

  // ---------------------------------------------------------------- steps inside a critical section

  /** What popping a stale node does to a channel: nobody waits who could be served, */
  lemma PopWakes(cfg: Config, st: State, s: nat, c: nat, dir: Dir)
    requires c < |st.chans| && Opposite(dir, st.chans[c]) != [] && Frame(cfg, st, Pop(st, c, dir), s, s, c)
    requires ChanWake(cfg, st, c)
    ensures ChanWake(cfg, Pop(st, c, dir), c)
  {
    ChanWakeLess(cfg, st, Pop(st, c, dir), c);
  }

  /** and its values flow as before. */
  lemma PopFlows(cfg: Config, st: State, s: nat, c: nat, dir: Dir)
    requires c < |st.chans| && Opposite(dir, st.chans[c]) != [] && !Open(st.win, Opposite(dir, st.chans[c])[0])
    requires Frame(cfg, st, Pop(st, c, dir), s, s, c) && !Handing(st, c) && !Storing(st, c)
    requires ChanQueues(cfg, st, c) && ChanFlow(cfg, st, c) && ChanPairs(cfg, st, c)
    ensures var r := Pop(st, c, dir); ChanQueues(cfg, r, c) && ChanFlow(cfg, r, c) && ChanPairs(cfg, r, c)
  {
    var r := Pop(st, c, dir);
    QueuesPop(cfg, st, r, c, dir);
    FlowSame(cfg, st, r, c);
    PairsKept(cfg, st, r, s, s, c, c);
  }

  lemma PopChan(cfg: Config, st: State, s: nat, c: nat, dir: Dir)
    requires Inv(cfg, st) && c < |st.chans| && s < |st.sels| && !Handing(st, c) && !Storing(st, c)
    requires Opposite(dir, st.chans[c]) != [] && !Open(st.win, Opposite(dir, st.chans[c])[0])
    requires Frame(cfg, st, Pop(st, c, dir), s, s, c)
    ensures var r := Pop(st, c, dir);
      ChanWake(cfg, r, c) && ChanQueues(cfg, r, c) && ChanFlow(cfg, r, c) && ChanPairs(cfg, r, c)
  {
    OfChan(cfg, st, c);
    PopWakes(cfg, st, s, c, dir);
    PopFlows(cfg, st, s, c, dir);
  }

  /** A stale node is popped from the list opposite to `dir`. */
  lemma KeepPop(cfg: Config, st: State, s: nat, i: nat)
    requires Inv(cfg, st) && s < |st.sels| && i < |cfg.selects[s].alts| && AltAt(cfg, s, i).dir != Skip
    requires st.sels[s].pc == Scan(i) || (st.sels[s].pc == Refill(i) && AltAt(cfg, s, i).dir == Recv)
    requires var list := Opposite(AltAt(cfg, s, i).dir, st.chans[ChanOf(cfg, s, i)]);
      list != [] && !Open(st.win, list[0])
    ensures Inv(cfg, Pop(st, ChanOf(cfg, s, i), AltAt(cfg, s, i).dir))
  {
    var c, dir := ChanOf(cfg, s, i), AltAt(cfg, s, i).dir;
    var r := Pop(st, c, dir);
    assert SelCtl(cfg, st, s);
    CtlPop(cfg, st, s, c, dir);
    assert SelCtl(cfg, r, s);
    ListsPopped(cfg, st, r, s, s, c, dir);
    PopChan(cfg, st, s, c, dir);
    Unclaiming(cfg, st, r, s, c);
  }

  /** What a registration, or a failed try, does to a channel. */
  lemma WaitChan(cfg: Config, st: State, s: nat, i: nat)
    requires Stands(cfg, st, s, Scan(i)) && Decide(cfg, st, s, i) == Wait
    requires Frame(cfg, st, Enlist(cfg, st, s, i), s, s, ChanOf(cfg, s, i))
    ensures var r, c := Enlist(cfg, st, s, i), ChanOf(cfg, s, i);
            ChanWake(cfg, r, c) && ChanQueues(cfg, r, c) && ChanFlow(cfg, r, c) && ChanPairs(cfg, r, c)
  {
    var r, c := Enlist(cfg, st, s, i), ChanOf(cfg, s, i);
    OfSelect(cfg, st, s, Scan(i));
    OfChan(cfg, st, c);
    WakeWait(cfg, st, s, i);
    QueuesWait(cfg, st, s, i);
    FlowSame(cfg, st, r, c);
    ReadsStay(cfg, st, r, s, s, c);
    PairsKept(cfg, st, r, s, s, c, c);
  }

  lemma KeepWait(cfg: Config, st: State, s: nat, i: nat)
    requires Stands(cfg, st, s, Scan(i)) && Decide(cfg, st, s, i) == Wait
    ensures Enlist(cfg, st, s, i).health == Ok && Inv(cfg, Enlist(cfg, st, s, i))
  {
    var r, c := Enlist(cfg, st, s, i), ChanOf(cfg, s, i);
    OfSelect(cfg, st, s, Scan(i));
    CtlWait(cfg, st, s, i);
    assert SelCtl(cfg, r, s);
    ListsWait(cfg, st, s, i);
    EntersWait(cfg, st, s, i);
    ReadsStay(cfg, st, r, s, s, c);
    WaitChan(cfg, st, s, i);
    SlotsSelfSame(cfg, st, r, s, s, c);
    InvFromFrame(cfg, st, r, s, s, c, if cfg.selects[s].waits then Some(Node(s, i)) else None);
  }

  lemma KeepQuit(cfg: Config, st: State, s: nat, i: nat)
    requires Stands(cfg, st, s, Scan(i)) && Decide(cfg, st, s, i) == Quit
    ensures GiveUp(cfg, st, s, i).health == Ok && Inv(cfg, GiveUp(cfg, st, s, i))
  {
    var r, c := GiveUp(cfg, st, s, i), ChanOf(cfg, s, i);
    OfSelect(cfg, st, s, Scan(i));
    OfChan(cfg, st, c);
    CtlQuit(cfg, st, s, i);
    ChanWakeLess(cfg, st, r, c);
    Uneventful(cfg, st, r, s, c);
  }

  /** What taking from the buffer does to a channel. */
  lemma FromBufferChan(cfg: Config, st: State, s: nat, i: nat)
    requires Stands(cfg, st, s, Scan(i)) && Decide(cfg, st, s, i) == FromBuffer
    requires TakeBuffered(cfg, st, s, i).health == Ok
    ensures var r, c := TakeBuffered(cfg, st, s, i), ChanOf(cfg, s, i);
            ChanWake(cfg, r, c) && ChanQueues(cfg, r, c) && ChanFlow(cfg, r, c) && ChanPairs(cfg, r, c)
  {
    OfSelect(cfg, st, s, Scan(i));
    OfChan(cfg, st, ChanOf(cfg, s, i));
    WakeFromBuffer(cfg, st, s, i);
    QueuesFromBuffer(cfg, st, s, i);
    FlowFromBuffer(cfg, st, s, i);
    PairsFromBuffer(cfg, st, s, i);
  }

  lemma KeepFromBuffer(cfg: Config, st: State, s: nat, i: nat)
    requires Stands(cfg, st, s, Scan(i)) && Decide(cfg, st, s, i) == FromBuffer
    ensures TakeBuffered(cfg, st, s, i).health == Ok && Inv(cfg, TakeBuffered(cfg, st, s, i))
  {
    var r, c := TakeBuffered(cfg, st, s, i), ChanOf(cfg, s, i);
    OfSelect(cfg, st, s, Scan(i));
    SlotsFromBuffer(cfg, st, s, i);
    CtlFromBuffer(cfg, st, s, i);
    assert SelCtl(cfg, r, s);
    ListsSame(cfg, st, r, s, s, c);
    FromBufferChan(cfg, st, s, i);
    EntersFromBuffer(cfg, st, s, i);
    ReadsStay(cfg, st, r, s, s, c);
    InvFromFrame(cfg, st, r, s, s, c, Some(Node(s, i)));
  }

  /** What appending to the buffer does to a channel. */
  lemma ToBufferChan(cfg: Config, st: State, s: nat, i: nat)
    requires Stands(cfg, st, s, Scan(i)) && Decide(cfg, st, s, i) == ToBuffer && PutBuffered(cfg, st, s, i).health == Ok
    requires Frame(cfg, st, PutBuffered(cfg, st, s, i), s, s, ChanOf(cfg, s, i))
    ensures var r, c := PutBuffered(cfg, st, s, i), ChanOf(cfg, s, i);
            ChanWake(cfg, r, c) && ChanQueues(cfg, r, c) && ChanFlow(cfg, r, c) && ChanPairs(cfg, r, c)
  {
    var r, c := PutBuffered(cfg, st, s, i), ChanOf(cfg, s, i);
    OfSelect(cfg, st, s, Scan(i));
    OfChan(cfg, st, c);
    WakeToBuffer(cfg, st, s, i);
    QueuesToBuffer(cfg, st, s, i);
    FlowToBuffer(cfg, st, s, i);
    ReadsStay(cfg, st, r, s, s, c);
    PairsKept(cfg, st, r, s, s, c, c);
  }

  lemma KeepToBuffer(cfg: Config, st: State, s: nat, i: nat)
    requires Stands(cfg, st, s, Scan(i)) && Decide(cfg, st, s, i) == ToBuffer
    ensures PutBuffered(cfg, st, s, i).health == Ok && Inv(cfg, PutBuffered(cfg, st, s, i))
  {
    var r, c := PutBuffered(cfg, st, s, i), ChanOf(cfg, s, i);
    OfSelect(cfg, st, s, Scan(i));
    SlotsToBuffer(cfg, st, s, i);
    CtlToBuffer(cfg, st, s, i);
    assert SelCtl(cfg, r, s);
    ListsSame(cfg, st, r, s, s, c);
    EntersToBuffer(cfg, st, s, i);
    ReadsStay(cfg, st, r, s, s, c);
    ToBufferChan(cfg, st, s, i);
    InvFromFrame(cfg, st, r, s, s, c, Some(Node(s, i)));
  }

  /** What a direct match does to a channel. */
  lemma RendezvousChan(cfg: Config, st: State, s: nat, p: nat, i: nat)
    requires Stands(cfg, st, s, Scan(i)) && !LocksItself(cfg, st, s, i) && Decide(cfg, st, s, i) == Rendezvous
    requires Frame(cfg, st, TakeBoth(cfg, st, s, i), s, p, ChanOf(cfg, s, i))
    ensures var r, c := TakeBoth(cfg, st, s, i), ChanOf(cfg, s, i);
            ChanWake(cfg, r, c) && ChanQueues(cfg, r, c) && ChanFlow(cfg, r, c) && ChanPairs(cfg, r, c)
  {
    OfSelect(cfg, st, s, Scan(i));
    OfChan(cfg, st, ChanOf(cfg, s, i));
    HeadIsOther(cfg, st, s, i);
    WakeRendezvous(cfg, st, TakeBoth(cfg, st, s, i), s, p, i);
    if AltAt(cfg, s, i).dir == Recv {
      QueuesRendezvousRecv(cfg, st, s, i);
    } else {
      QueuesRendezvousSend(cfg, st, s, i);
    }
    FlowRendezvous(cfg, st, s, i);
    PairsRendezvous(cfg, st, s, i);
  }

  lemma KeepRendezvous(cfg: Config, st: State, s: nat, i: nat)
    requires Stands(cfg, st, s, Scan(i)) && !LocksItself(cfg, st, s, i) && Decide(cfg, st, s, i) == Rendezvous
    ensures TakeBoth(cfg, st, s, i).health == Ok && Inv(cfg, TakeBoth(cfg, st, s, i))
  {
    var r, c, dir := TakeBoth(cfg, st, s, i), ChanOf(cfg, s, i), AltAt(cfg, s, i).dir;
    var n := Opposite(dir, st.chans[c])[0];
    OfSelect(cfg, st, s, Scan(i));
    assert ChanLists(cfg, st, c);
    HeadIsOther(cfg, st, s, i);
    CtlRendezvous(cfg, st, s, i);
    assert SelCtl(cfg, r, s);
    ListsPopped(cfg, st, r, s, n.sel, c, dir);
    RendezvousChan(cfg, st, s, n.sel, i);
    EntersRendezvous(cfg, st, s, i);
    ReadsStay(cfg, st, r, s, n.sel, c);
    SlotsSelfSame(cfg, st, r, s, n.sel, c);
    InvFromFrame(cfg, st, r, s, n.sel, c, Some(Node(s, i)));
  }

  /** What claiming a waiting writer for the buffer does to a channel. */
  lemma RefillChan(cfg: Config, st: State, s: nat, i: nat)
    requires Stands(cfg, st, s, Refill(i)) && HeadListed(cfg, st, s, i)
    requires st.chans[ChanOf(cfg, s, i)].writers != [] && Open(st.win, st.chans[ChanOf(cfg, s, i)].writers[0])
    requires var c, n := ChanOf(cfg, s, i), st.chans[ChanOf(cfg, s, i)].writers[0];
      Frame(cfg, st, RefillStep(cfg, st, s, i), s, n.sel, c) && KeepsReads(cfg, st, RefillStep(cfg, st, s, i), s, c)
      && PeerElsewhere(cfg, st, RefillStep(cfg, st, s, i), s, n.sel, c)
    ensures var r, c := RefillStep(cfg, st, s, i), ChanOf(cfg, s, i);
            ChanWake(cfg, r, c) && ChanQueues(cfg, r, c) && ChanFlow(cfg, r, c) && ChanPairs(cfg, r, c)
  {
    var r, c := RefillStep(cfg, st, s, i), ChanOf(cfg, s, i);
    OfSelect(cfg, st, s, Refill(i));
    OfChan(cfg, st, c);
    ChanWakeLess(cfg, st, r, c);
    QueuesRefill(cfg, st, s, i);
    FlowRefill(cfg, st, s, i);
    PairsKept(cfg, st, r, s, st.chans[c].writers[0].sel, c, c);
  }

  lemma KeepRefillClaim(cfg: Config, st: State, s: nat, i: nat)
    requires Stands(cfg, st, s, Refill(i))
    requires st.chans[ChanOf(cfg, s, i)].writers != [] && Open(st.win, st.chans[ChanOf(cfg, s, i)].writers[0])
    ensures Inv(cfg, RefillStep(cfg, st, s, i))
  {
    var r, c := RefillStep(cfg, st, s, i), ChanOf(cfg, s, i);
    var n := st.chans[c].writers[0];
    OfSelect(cfg, st, s, Refill(i));
    OfChan(cfg, st, c);
    HeadIsOther(cfg, st, s, i);
    CtlRefill(cfg, st, s, i);
    assert SelCtl(cfg, r, s);
    ListsPopped(cfg, st, r, s, n.sel, c, Recv);
    ReadsStay(cfg, st, r, s, n.sel, c);
    RefillChan(cfg, st, s, i);
    SlotsSelfSame(cfg, st, r, s, n.sel, c);
    InvFromFrame(cfg, st, r, s, n.sel, c, None);
  }

  lemma KeepRefill(cfg: Config, st: State, s: nat, i: nat)
    requires Stands(cfg, st, s, Refill(i))
    ensures RefillStep(cfg, st, s, i).health == Ok && Inv(cfg, RefillStep(cfg, st, s, i))
  {
    var r, c := RefillStep(cfg, st, s, i), ChanOf(cfg, s, i);
    OfSelect(cfg, st, s, Refill(i));
    OfChan(cfg, st, c);
    if st.chans[c].writers == [] {
      CtlRefillEnd(cfg, st, s, i);
      WakeRefillEnd(cfg, st, s, i);
      Uneventful(cfg, st, r, s, c);
    } else if !Open(st.win, st.chans[c].writers[0]) {
      KeepPop(cfg, st, s, i);
    } else {
      KeepRefillClaim(cfg, st, s, i);
    }
  }

  /** From `st` to `r` a value was handed over, on a channel where nobody comes or goes; everything that
      was touched is right. */
  ghost predicate Passed(cfg: Config, st: State, r: State, s: nat, n: Node, c: nat) {
    && NodeOk(cfg, n) && Frame(cfg, st, r, s, n.sel, c) && Ctl(cfg, r) && Lists(cfg, r) && r.win == st.win
    && LockedAlt(st.sels[s].pc).Some? && AltAt(cfg, s, LockedAlt(st.sels[s].pc).value).chan == c < |st.chans|
    && (forall d | 0 <= d < |st.chans| && d != c ::
      KeepsReads(cfg, st, r, s, d) && PeerElsewhere(cfg, st, r, s, n.sel, d))
    && ChanKept(cfg, r, c) && r.chans[c] == st.chans[c].(owner := r.chans[c].owner, buffer := r.chans[c].buffer)
    && r.sels[s].nodes == st.sels[s].nodes && SelLogged(cfg, r, s) && SelLogged(cfg, r, n.sel)
    && SelSlots(cfg, r, s) && SelSlots(cfg, r, n.sel)
  }

  lemma HandingOver(cfg: Config, st: State, r: State, s: nat, n: Node, c: nat)
    requires Inv(cfg, st) && Passed(cfg, st, r, s, n, c)
    ensures Inv(cfg, r)
  {
    InvFromFrame(cfg, st, r, s, n.sel, c, None);
  }

  /** What a hand-over does to a channel. */
  lemma MatchChan(cfg: Config, st: State, s: nat, i: nat, n: Node)
    requires Here(cfg, st, s, Match(i, n)) && st.health == Ok && MatchStep(cfg, st, s, i, n).health == Ok
    requires Both(cfg, st, s, n) && ChanKept(cfg, st, ChanOf(cfg, s, i))
    requires Frame(cfg, st, MatchStep(cfg, st, s, i, n), s, n.sel, ChanOf(cfg, s, i))
    ensures ChanKept(cfg, MatchStep(cfg, st, s, i, n), ChanOf(cfg, s, i))
  {
    var r, c := MatchStep(cfg, st, s, i, n), ChanOf(cfg, s, i);
    ChanWakeLess(cfg, st, r, c);
    QueuesUntouched(cfg, st, r, s, n.sel, c);
    FlowMatch(cfg, st, s, i, n);
    PairsMatch(cfg, st, s, i, n);
  }

  lemma MatchSlots(cfg: Config, st: State, s: nat, i: nat, n: Node)
    requires Here(cfg, st, s, Match(i, n)) && st.health == Ok && Both(cfg, st, s, n)
    ensures var r := MatchStep(cfg, st, s, i, n);
      r.health == Ok && SelSlots(cfg, r, s) && SelSlots(cfg, r, n.sel) && SelLogged(cfg, r, s)
        && SelLogged(cfg, r, n.sel)
  {
    MatchSound(cfg, st, s, i, n);
    SlotsMatchSelf(cfg, st, s, i, n);
    SlotsMatchPeer(cfg, st, s, i, n);
  }

  /** Neither side has read from another channel. */
  lemma MatchElsewhere(cfg: Config, st: State, s: nat, i: nat, n: Node, d: nat)
    requires Here(cfg, st, s, Match(i, n)) && st.health == Ok && MatchStep(cfg, st, s, i, n).health == Ok
    requires SelCtl(cfg, st, n.sel)
    requires d != ChanOf(cfg, s, i)
    ensures KeepsReads(cfg, st, MatchStep(cfg, st, s, i, n), s, d)
    ensures PeerElsewhere(cfg, st, MatchStep(cfg, st, s, i, n), s, n.sel, d)
  {}

  lemma MatchPieces(cfg: Config, st: State, s: nat, i: nat, n: Node)
    requires At(cfg, st, s, Match(i, n)) && Lists(cfg, st) && st.health == Ok && Both(cfg, st, s, n)
    requires ChanKept(cfg, st, ChanOf(cfg, s, i))
    ensures MatchStep(cfg, st, s, i, n).health == Ok
    ensures Passed(cfg, st, MatchStep(cfg, st, s, i, n), s, n, ChanOf(cfg, s, i))
  {
    var r, c := MatchStep(cfg, st, s, i, n), ChanOf(cfg, s, i);
    MatchSlots(cfg, st, s, i, n);
    CtlMatch(cfg, st, s, i, n);
    assert SelCtl(cfg, r, s);
    ListsSame(cfg, st, r, s, n.sel, c);
    MatchChan(cfg, st, s, i, n);
    forall d | 0 <= d < |st.chans| && d != c
      ensures KeepsReads(cfg, st, r, s, d) && PeerElsewhere(cfg, st, r, s, n.sel, d)
    {
      MatchElsewhere(cfg, st, s, i, n, d);
    }
  }

  lemma KeepMatch(cfg: Config, st: State, s: nat, i: nat, n: Node)
    requires Stands(cfg, st, s, Match(i, n))
    ensures MatchStep(cfg, st, s, i, n).health == Ok && Inv(cfg, MatchStep(cfg, st, s, i, n))
  {
    OfSelect(cfg, st, s, Match(i, n));
    OfChan(cfg, st, ChanOf(cfg, s, i));
    assert Both(cfg, st, s, n);
    MatchPieces(cfg, st, s, i, n);
    HandingOver(cfg, st, MatchStep(cfg, st, s, i, n), s, n, ChanOf(cfg, s, i));
  }

  /** What storing a claimed writer's value does to a channel. */
  lemma StoreChan(cfg: Config, st: State, s: nat, i: nat, n: Node)
    requires Here(cfg, st, s, Store(i, n)) && st.health == Ok && StoreStep(cfg, st, s, i, n).health == Ok
    requires Both(cfg, st, s, n) && ChanKept(cfg, st, ChanOf(cfg, s, i))
    requires Frame(cfg, st, StoreStep(cfg, st, s, i, n), s, n.sel, ChanOf(cfg, s, i))
    ensures ChanKept(cfg, StoreStep(cfg, st, s, i, n), ChanOf(cfg, s, i))
  {
    var r, c := StoreStep(cfg, st, s, i, n), ChanOf(cfg, s, i);
    WakeStore(cfg, st, s, i, n);
    QueuesUntouched(cfg, st, r, s, n.sel, c);
    FlowStore(cfg, st, s, i, n);
    PairsKept(cfg, st, r, s, n.sel, c, c);
  }

  lemma StoreSlots(cfg: Config, st: State, s: nat, i: nat, n: Node)
    requires Here(cfg, st, s, Store(i, n)) && st.health == Ok && Both(cfg, st, s, n)
    requires ChanWake(cfg, st, ChanOf(cfg, s, i))
    ensures var r := StoreStep(cfg, st, s, i, n);
      r.health == Ok && SelSlots(cfg, r, s) && SelSlots(cfg, r, n.sel) && SelLogged(cfg, r, s)
        && SelLogged(cfg, r, n.sel)
  {
    StoreSound(cfg, st, s, i, n);
    FrameStore(cfg, st, s, i, n);
    SlotsSelfSame(cfg, st, StoreStep(cfg, st, s, i, n), s, n.sel, ChanOf(cfg, s, i));
    SlotsStorePeer(cfg, st, s, i, n);
  }

  lemma StoreElsewhere(cfg: Config, st: State, s: nat, i: nat, n: Node, d: nat)
    requires Here(cfg, st, s, Store(i, n)) && st.health == Ok && StoreStep(cfg, st, s, i, n).health == Ok
    requires SelCtl(cfg, st, n.sel)
    requires d != ChanOf(cfg, s, i)
    ensures KeepsReads(cfg, st, StoreStep(cfg, st, s, i, n), s, d)
    ensures PeerElsewhere(cfg, st, StoreStep(cfg, st, s, i, n), s, n.sel, d)
  {}

  lemma StorePieces(cfg: Config, st: State, s: nat, i: nat, n: Node)
    requires At(cfg, st, s, Store(i, n)) && Lists(cfg, st) && st.health == Ok && Both(cfg, st, s, n)
    requires ChanKept(cfg, st, ChanOf(cfg, s, i))
    ensures StoreStep(cfg, st, s, i, n).health == Ok
    ensures Passed(cfg, st, StoreStep(cfg, st, s, i, n), s, n, ChanOf(cfg, s, i))
  {
    var r, c := StoreStep(cfg, st, s, i, n), ChanOf(cfg, s, i);
    StoreSlots(cfg, st, s, i, n);
    CtlStore(cfg, st, s, i, n);
    assert SelCtl(cfg, r, s);
    ListsSame(cfg, st, r, s, n.sel, c);
    StoreChan(cfg, st, s, i, n);
    forall d | 0 <= d < |st.chans| && d != c
      ensures KeepsReads(cfg, st, r, s, d) && PeerElsewhere(cfg, st, r, s, n.sel, d)
    {
      StoreElsewhere(cfg, st, s, i, n, d);
    }
  }

  lemma KeepStore(cfg: Config, st: State, s: nat, i: nat, n: Node)
    requires Stands(cfg, st, s, Store(i, n))
    ensures StoreStep(cfg, st, s, i, n).health == Ok && Inv(cfg, StoreStep(cfg, st, s, i, n))
  {
    OfSelect(cfg, st, s, Store(i, n));
    OfChan(cfg, st, ChanOf(cfg, s, i));
    assert Both(cfg, st, s, n);
    StorePieces(cfg, st, s, i, n);
    HandingOver(cfg, st, StoreStep(cfg, st, s, i, n), s, n, ChanOf(cfg, s, i));
  }

  // ---------------------------------------------------------------- cleaning up

  /** What cleaning up does to a channel. */
  lemma ClearChan(cfg: Config, st: State, r: State, s: nat, j: nat, t: nat, c: nat)
    requires Stands(cfg, st, s, Clear(j, t)) && r == ClearStep(cfg, st, s, j, t) && r.health == Ok
    requires c == ClearedChan(cfg, st, s, j, t) && c < |st.chans| && Free(st, c)
    requires Frame(cfg, st, r, s, s, c) && KeepsReads(cfg, st, r, s, c)
    ensures ChanWake(cfg, r, c) && ChanQueues(cfg, r, c) && ChanFlow(cfg, r, c) && ChanPairs(cfg, r, c)
  {
    OfSelect(cfg, st, s, Clear(j, t));
    OfChan(cfg, st, c);
    RemoveSubset(st.chans[c].readers, Node(s, j));
    RemoveSubset(st.chans[c].writers, Node(s, j));
    ChanWakeLess(cfg, st, r, c);
    QueuesClear(cfg, st, s, j, t);
    FlowSame(cfg, st, r, c);
    PairsKept(cfg, st, r, s, s, c, c);
  }

  lemma KeepClear(cfg: Config, st: State, s: nat, j: nat, t: nat)
    requires Stands(cfg, st, s, Clear(j, t)) && Enabled(cfg, st, s) && ClearStep(cfg, st, s, j, t).health == Ok
    ensures Inv(cfg, ClearStep(cfg, st, s, j, t))
  {
    var r := ClearStep(cfg, st, s, j, t);
    var c := ClearedChan(cfg, st, s, j, t);
    OfSelect(cfg, st, s, Clear(j, t));
    CtlClear(cfg, st, s, j, t);
    assert SelCtl(cfg, r, s);
    ListsClear(cfg, st, s, j, t);
    ReadsStay(cfg, st, r, s, s, c);
    if c < |st.chans| { ClearChan(cfg, st, r, s, j, t, c); }
    SlotsSelfSame(cfg, st, r, s, s, c);
    InvFromFrame(cfg, st, r, s, s, c, None);
  }

  // ---------------------------------------------------------------- every step

  lemma KeepScan(cfg: Config, st: State, s: nat, i: nat)
    requires Stands(cfg, st, s, Scan(i)) && !LocksItself(cfg, st, s, i)
    ensures ScanStep(cfg, st, s, i).health == Ok && Inv(cfg, ScanStep(cfg, st, s, i))
  {
    match Decide(cfg, st, s, i) {
      case DropStale => KeepPop(cfg, st, s, i);
      case Rendezvous => KeepRendezvous(cfg, st, s, i);
      case FromBuffer => KeepFromBuffer(cfg, st, s, i);
      case ToBuffer => KeepToBuffer(cfg, st, s, i);
      case Quit => KeepQuit(cfg, st, s, i);
      case Wait => KeepWait(cfg, st, s, i);
    }
  }

  lemma WhateverHealthPairs(cfg: Config, st: State, h: Health, c: nat)
    requires Shape(cfg, st) && c < |st.chans| && ChanPairs(cfg, st, c)
    ensures ChanPairs(cfg, st.(health := h), c)
  {
    var r, ch := st.(health := h), st.chans[c];
    forall k | 0 <= k < |ch.recv| - (if Handing(r, c) then 1 else 0) && k < |ch.sent| && NodeOk(cfg, ch.recv[k])
      ensures Received(cfg, r, ch.recv[k]) == Input(cfg, ch.sent[k])
    {
      assert Received(cfg, r, ch.recv[k]) == Received(cfg, st, ch.recv[k]);
    }
  }

  lemma WhateverHealthQueues(cfg: Config, st: State, h: Health, c: nat)
    requires Shape(cfg, st) && c < |st.chans| && ChanQueues(cfg, st, c)
    ensures ChanQueues(cfg, st.(health := h), c)
  {}

  lemma WhateverHealthArrivals(cfg: Config, st: State, h: Health, c: nat)
    requires Shape(cfg, st) && c < |st.chans| && ChanArrivals(cfg, st, c)
    ensures ChanArrivals(cfg, st.(health := h), c)
  {
    forall n | NodeOk(cfg, n) ensures Entered(cfg, st.(health := h), n) == Entered(cfg, st, n) {}
  }

  lemma WhateverHealthSlots(cfg: Config, st: State, h: Health)
    requires Shape(cfg, st) && Slots(cfg, st)
    ensures Slots(cfg, st.(health := h))
  {
    var r := st.(health := h);
    forall s | 0 <= s < |r.sels| ensures SelSlots(cfg, r, s) {
      assert SelSlots(cfg, st, s);
      forall o | 0 <= o < |cfg.selects[s].inputs| ensures SlotRight(cfg, r, s, o) { assert SlotRight(cfg, st, s, o); }
    }
  }

  /** What has become of the program when a pointer dangles is not part of the invariant. */
  lemma WhateverHealth(cfg: Config, st: State, h: Health)
    requires Inv(cfg, st)
    ensures Inv(cfg, st.(health := h))
  {
    var r := st.(health := h);
    forall s | 0 <= s < |r.sels| ensures SelCtl(cfg, r, s) && SelLists(cfg, r, s) && SelLogged(cfg, r, s) {
      assert SelCtl(cfg, st, s) && SelLists(cfg, st, s) && SelLogged(cfg, st, s);
    }
    forall c | 0 <= c < |r.chans|
      ensures ChanCtl(cfg, r, c) && ChanLists(cfg, r, c) && ChanWake(cfg, r, c)
      ensures ChanQueues(cfg, r, c) && ChanFlow(cfg, r, c) && ChanPairs(cfg, r, c) && ChanArrivals(cfg, r, c)
    {
      OfChan(cfg, st, c);
      assert ChanArrivals(cfg, st, c);
      WhateverHealthQueues(cfg, st, h, c);
      FlowByOwner(cfg, st, r, c);
      WhateverHealthPairs(cfg, st, h, c);
      WhateverHealthArrivals(cfg, st, h, c);
    }
    WhateverHealthSlots(cfg, st, h);
  }

  /** The invariant is inductive.  No assertion about slots, buffers, promises or results fails in
      any step, and a pointer is left dangling exactly by the clean-up of a waiting write whose node
      is then at an end of its list. */
  lemma KeepStep(cfg: Config, st: State, s: nat)
    requires Inv(cfg, st) && Enabled(cfg, st, s)
    ensures Inv(cfg, Step(cfg, st, s)) && Step(cfg, st, s).health != AssertFailed
    ensures Step(cfg, st, s).health == Dangling <==> (st.sels[s].pc.Clear?
              && NeedsClearing(cfg, st, s, st.sels[s].pc.j, st.sels[s].pc.t)
              && LeavesDangling(cfg, st, s, st.sels[s].pc.j))
  {
    match st.sels[s].pc {
      case Idle => KeepBegin(cfg, st, s);
      case Submit(i) => KeepSubmit(cfg, st, s, i);
      case Scan(i) => KeepScan(cfg, st, s, i);
      case Refill(i) => KeepRefill(cfg, st, s, i);
      case Match(i, n) => KeepMatch(cfg, st, s, i, n);
      case Store(i, n) => KeepStore(cfg, st, s, i, n);
      case Publish(i) => KeepPublish(cfg, st, s, i);
      case Parked => KeepResume(cfg, st, s, st.sels[s].promise.value);
      case Clear(j, t) =>
        if Step(cfg, st, s).health == Ok { KeepClear(cfg, st, s, j, t); } else { WhateverHealth(cfg, st, Dangling); }
      case Done(_) =>
    }
  }
}
