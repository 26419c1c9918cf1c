/** What the steps of others leave alone. */
module Bystanders {
  import opened Options
  import opened Protocol
  import opened Invariant
  import opened KeepCtl

  /** What the steps of others leave to the thread of `s`: its place in its program, its
      registrations, its claim once there is one, and the channels that it has locked. */
  ghost predicate Undisturbed(a: State, b: State, s: nat) {
    && s < |a.sels| == |b.sels| == |a.win| == |b.win| && |a.chans| == |b.chans|
    && b.sels[s].pc == a.sels[s].pc && b.sels[s].nodes == a.sels[s].nodes && b.sels[s].result == a.sels[s].result
    && (a.win[s].Some? ==> b.win[s] == a.win[s])
    && (a.sels[s].promise.Some? ==> b.sels[s].promise == a.sels[s].promise)
    && (forall c :: 0 <= c < |a.chans| && a.chans[c].owner == Some(s) ==> b.chans[c] == a.chans[c])
  }

  lemma ThenUndisturbed(a: State, b: State, c: State, s: nat)
    requires Undisturbed(a, b, s) && Undisturbed(b, c, s)
    ensures Undisturbed(a, c, s)
  {}

  lemma MeetingSparesOthers(cfg: Config, st: State, p: nat, i: nat, s: nat)
    requires Here(cfg, st, p, Scan(i)) && s < |st.sels| && p != s && Decide(cfg, st, p, i) == Rendezvous
    ensures Undisturbed(st, TakeBoth(cfg, st, p, i), s)
  {}

  lemma BufferSparesOthers(cfg: Config, st: State, p: nat, i: nat, s: nat)
    requires Here(cfg, st, p, Scan(i)) && s < |st.sels| && p != s
    ensures Decide(cfg, st, p, i) == FromBuffer ==> Undisturbed(st, TakeBuffered(cfg, st, p, i), s)
    ensures Undisturbed(st, PutBuffered(cfg, st, p, i), s)
  {}

  lemma ScanSparesOthers(cfg: Config, st: State, p: nat, i: nat, s: nat)
    requires Here(cfg, st, p, Scan(i)) && s < |st.sels| && p != s
    ensures Undisturbed(st, ScanStep(cfg, st, p, i), s)
  {
    match Decide(cfg, st, p, i) {
      case Rendezvous => MeetingSparesOthers(cfg, st, p, i, s);
      case FromBuffer => BufferSparesOthers(cfg, st, p, i, s);
      case ToBuffer => BufferSparesOthers(cfg, st, p, i, s);
      case _ =>
    }
  }

  lemma HandOverSparesOthers(cfg: Config, st: State, p: nat, s: nat)
    requires Shape(cfg, st) && Enabled(cfg, st, p) && SelCtl(cfg, st, p) && s < |st.sels| && p != s
    requires st.sels[p].pc.Match? || st.sels[p].pc.Store?
    ensures Undisturbed(st, Step(cfg, st, p), s)
  {}

  lemma OtherSparesOthers(cfg: Config, st: State, p: nat, s: nat)
    requires Shape(cfg, st) && Enabled(cfg, st, p) && SelCtl(cfg, st, p) && s < |st.sels| && p != s
    requires !st.sels[p].pc.Match? && !st.sels[p].pc.Store? && !st.sels[p].pc.Scan?
    ensures Undisturbed(st, Step(cfg, st, p), s)
  {}

  lemma OthersSpare(cfg: Config, st: State, p: nat, s: nat)
    requires Inv(cfg, st) && Enabled(cfg, st, p) && s < |st.sels| && p != s
    ensures Undisturbed(st, Step(cfg, st, p), s)
  {
    assert SelCtl(cfg, st, p);
    if st.sels[p].pc.Scan? {
      ScanSparesOthers(cfg, st, p, st.sels[p].pc.i, s);
    } else if st.sels[p].pc.Match? || st.sels[p].pc.Store? {
      HandOverSparesOthers(cfg, st, p, s);
    } else {
      OtherSparesOthers(cfg, st, p, s);
    }
  }
}
