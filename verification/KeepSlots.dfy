/** Every step keeps the slots right, and no assertion about slots, buffers or promises fails. */
module KeepSlots {
  import opened Options
  import opened Protocol
  import opened Invariant
  import opened Frames
  import opened KeepCtl

  lemma SlotsBystander(cfg: Config, st: State, r: State, s: nat, p: nat, c: nat, q: nat)
    requires Frame(cfg, st, r, s, p, c) && q < |st.sels| && q != s && SelSlots(cfg, st, q) && SelCtl(cfg, st, q)
    requires r.sels[q] == st.sels[q]
    requires st.win[q] == r.win[q] || (r.win[q].Some? && r.win[q].value.who != q && st.win[q].None?)
    ensures SelSlots(cfg, r, q)
  {
    forall o | 0 <= o < |cfg.selects[q].inputs| ensures SlotRight(cfg, r, q, o) {
      assert SlotRight(cfg, st, q, o);
    }
  }

  lemma SlotsFromFrame(cfg: Config, st: State, r: State, s: nat, p: nat, c: nat)
    requires Frame(cfg, st, r, s, p, c) && Ctl(cfg, st) && Slots(cfg, st)
    requires SelSlots(cfg, r, s)
    requires p != s && r.sels[p] != st.sels[p] ==> SelSlots(cfg, r, p)
    requires ClaimedNow(st, r, s, p) ==> r.win[p].value.who == s
    ensures Slots(cfg, r)
  {
    forall q | 0 <= q < |r.sels| ensures SelSlots(cfg, r, q) {
      if q != s && r.sels[q] == st.sels[q] {
        assert SelSlots(cfg, st, q) && SelCtl(cfg, st, q);
        SlotsBystander(cfg, st, r, s, p, c, q);
      }
    }
  }

  /** Steps of `s` that leave its slots alone, and do not turn a pending hand-over into a done one. */
  lemma SlotsSelfSame(cfg: Config, st: State, r: State, s: nat, p: nat, c: nat)
    requires Frame(cfg, st, r, s, p, c) && SelSlots(cfg, st, s) && SelCtl(cfg, st, s)
    requires r.sels[s].slots == st.sels[s].slots && r.sels[s].result == st.sels[s].result
    requires (r.sels[s].pc.Clear? || r.sels[s].pc.Done?) == (st.sels[s].pc.Clear? || st.sels[s].pc.Done?)
    requires Handed(r, s) == Handed(st, s)
    ensures SelSlots(cfg, r, s)
  {
    forall o | 0 <= o < |cfg.selects[s].inputs| ensures SlotRight(cfg, r, s, o) {
      assert SlotRight(cfg, st, s, o);
    }
  }

  lemma SlotsFromBuffer(cfg: Config, st: State, s: nat, i: nat)
    requires Here(cfg, st, s, Scan(i)) && Decide(cfg, st, s, i) == FromBuffer && SelSlots(cfg, st, s) && st.health == Ok
    ensures TakeBuffered(cfg, st, s, i).health == Ok && SelSlots(cfg, TakeBuffered(cfg, st, s, i), s)
  {
    assert SlotRight(cfg, st, s, AltAt(cfg, s, i).op);
    var r := TakeBuffered(cfg, st, s, i);
    forall o | 0 <= o < |cfg.selects[s].inputs| ensures SlotRight(cfg, r, s, o) {
      assert SlotRight(cfg, st, s, o);
    }
  }

  lemma SlotsToBuffer(cfg: Config, st: State, s: nat, i: nat)
    requires Here(cfg, st, s, Scan(i)) && Decide(cfg, st, s, i) == ToBuffer && SelSlots(cfg, st, s) && st.health == Ok
    ensures PutBuffered(cfg, st, s, i).health == Ok && SelSlots(cfg, PutBuffered(cfg, st, s, i), s)
  {
    assert SlotRight(cfg, st, s, AltAt(cfg, s, i).op);
    var r := PutBuffered(cfg, st, s, i);
    forall o | 0 <= o < |cfg.selects[s].inputs| ensures SlotRight(cfg, r, s, o) {
      assert SlotRight(cfg, st, s, o);
    }
  }

  /** The alternative of `nothing` has an empty slot. */
  lemma SlotsSkip(cfg: Config, st: State, s: nat, i: nat)
    requires Here(cfg, st, s, Submit(i)) && i < |cfg.selects[s].alts| && AltAt(cfg, s, i).dir == Skip
    requires SelSlots(cfg, st, s)
    ensures SelSlots(cfg, SubmitStep(cfg, st, s, i), s)
  {
    var r := SubmitStep(cfg, st, s, i);
    forall o | 0 <= o < |cfg.selects[s].inputs| ensures SlotRight(cfg, r, s, o) {
      assert SlotRight(cfg, st, s, o);
    }
  }

  /** A direct hand-over goes from a full slot to an empty one and finds the promise unset. */
  lemma MatchSound(cfg: Config, st: State, s: nat, i: nat, n: Node)
    requires Here(cfg, st, s, Match(i, n)) && SelCtl(cfg, st, n.sel) && st.health == Ok
    requires SelSlots(cfg, st, s) && SelSlots(cfg, st, n.sel)
    ensures MatchStep(cfg, st, s, i, n).health == Ok
  {
    assert SlotRight(cfg, st, s, AltAt(cfg, s, i).op) && SlotRight(cfg, st, n.sel, AltAt(cfg, n.sel, n.tok).op);
  }

  lemma SlotsMatchSelf(cfg: Config, st: State, s: nat, i: nat, n: Node)
    requires Here(cfg, st, s, Match(i, n)) && SelCtl(cfg, st, n.sel) && st.health == Ok
    requires MatchStep(cfg, st, s, i, n).health == Ok
    requires SelSlots(cfg, st, s) && SelSlots(cfg, st, n.sel)
    ensures SelSlots(cfg, MatchStep(cfg, st, s, i, n), s)
  {
    assert SlotRight(cfg, st, n.sel, AltAt(cfg, n.sel, n.tok).op);
    var r := MatchStep(cfg, st, s, i, n);
    forall o | 0 <= o < |cfg.selects[s].inputs| ensures SlotRight(cfg, r, s, o) {
      assert SlotRight(cfg, st, s, o);
    }
  }

  lemma SlotsMatchPeer(cfg: Config, st: State, s: nat, i: nat, n: Node)
    requires Here(cfg, st, s, Match(i, n)) && SelCtl(cfg, st, n.sel) && st.health == Ok
    requires MatchStep(cfg, st, s, i, n).health == Ok
    requires SelSlots(cfg, st, s) && SelSlots(cfg, st, n.sel)
    ensures SelSlots(cfg, MatchStep(cfg, st, s, i, n), n.sel)
  {
    assert SlotRight(cfg, st, s, AltAt(cfg, s, i).op);
    var r := MatchStep(cfg, st, s, i, n);
    forall o | 0 <= o < |cfg.selects[n.sel].inputs| ensures SlotRight(cfg, r, n.sel, o) {
      assert SlotRight(cfg, st, n.sel, o);
    }
  }

  lemma StoreSound(cfg: Config, st: State, s: nat, i: nat, n: Node)
    requires Here(cfg, st, s, Store(i, n)) && SelCtl(cfg, st, n.sel) && st.health == Ok
    requires SelSlots(cfg, st, n.sel) && ChanWake(cfg, st, ChanOf(cfg, s, i))
    ensures StoreStep(cfg, st, s, i, n).health == Ok
  {
    assert SlotRight(cfg, st, n.sel, AltAt(cfg, n.sel, n.tok).op);
  }

  lemma SlotsStorePeer(cfg: Config, st: State, s: nat, i: nat, n: Node)
    requires Here(cfg, st, s, Store(i, n)) && SelCtl(cfg, st, n.sel) && st.health == Ok
    requires StoreStep(cfg, st, s, i, n).health == Ok
    requires SelSlots(cfg, st, n.sel)
    ensures SelSlots(cfg, StoreStep(cfg, st, s, i, n), n.sel)
  {
    var r := StoreStep(cfg, st, s, i, n);
    forall o | 0 <= o < |cfg.selects[n.sel].inputs| ensures SlotRight(cfg, r, n.sel, o) {
      assert SlotRight(cfg, st, n.sel, o);
    }
  }

  /** Setting the own promise, or taking the result of a wait-free select, cannot fail. */
  lemma SlotsPublish(cfg: Config, st: State, s: nat, i: nat)
    requires Here(cfg, st, s, Publish(i)) && st.health == Ok && SelSlots(cfg, st, s)
    ensures PublishStep(cfg, st, s, i).health == Ok && SelSlots(cfg, PublishStep(cfg, st, s, i), s)
  {
    assert SlotRight(cfg, st, s, AltAt(cfg, s, i).op);
    var r := PublishStep(cfg, st, s, i);
    forall o | 0 <= o < |cfg.selects[s].inputs| ensures SlotRight(cfg, r, s, o) {
      assert SlotRight(cfg, st, s, o);
    }
  }

  /** The slot that the success token names is filled when the select reads it. */
  lemma SlotsResume(cfg: Config, st: State, s: nat, t: nat)
    requires Here(cfg, st, s, Parked) && st.health == Ok && SelSlots(cfg, st, s) && st.sels[s].promise == Some(t)
    ensures ResumeStep(cfg, st, s, t).health == Ok && SelSlots(cfg, ResumeStep(cfg, st, s, t), s)
  {
    assert SlotRight(cfg, st, s, AltAt(cfg, s, t).op);
    var r := ResumeStep(cfg, st, s, t);
    forall o | 0 <= o < |cfg.selects[s].inputs| ensures SlotRight(cfg, r, s, o) {
      assert SlotRight(cfg, st, s, o);
    }
  }
}
