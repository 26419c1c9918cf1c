/** Every step keeps the order of arrival: it is extended at the back, by the holder of the mutex. */
module KeepArrivals {
  import opened Options
  import opened Protocol
  import opened Invariant
  import opened Frames
  import opened KeepCtl

  /** `s` enters with the node `enters`, or with none. */
  ghost predicate Enters(cfg: Config, st: State, r: State, s: nat, enters: Option<Node>)
    requires Shape(cfg, st) && Shape(cfg, r)
  {
    forall n | NodeOk(cfg, n) && n.sel == s :: Entered(cfg, r, n) <==> Entered(cfg, st, n) || enters == Some(n)
  }

  ghost function Extended(cfg: Config, xs: seq<Node>, enters: Option<Node>, dir: Dir): seq<Node> {
    if enters.Some? && NodeOk(cfg, enters.value) && AltAt(cfg, enters.value.sel, enters.value.tok).dir == dir
      then xs + [enters.value] else xs
  }

  /** The node enters the channel of its alternative, for the first time. */
  ghost predicate EntersNow(cfg: Config, st: State, r: State, s: nat, i: nat)
    requires Shape(cfg, st) && Shape(cfg, r) && s < |st.sels| && i < |cfg.selects[s].alts|
    requires AltAt(cfg, s, i).dir != Skip
  {
    var c, me := ChanOf(cfg, s, i), Node(s, i);
    && Enters(cfg, st, r, s, Some(me)) && NodeOk(cfg, me) && !Entered(cfg, st, me)
    && r.chans[c].arrivedR == Extended(cfg, st.chans[c].arrivedR, Some(me), Recv)
    && r.chans[c].arrivedW == Extended(cfg, st.chans[c].arrivedW, Some(me), Send)
  }

  lemma EntersWait(cfg: Config, st: State, s: nat, i: nat)
    requires Here(cfg, st, s, Scan(i))
    ensures var r := Enlist(cfg, st, s, i);
      if cfg.selects[s].waits then EntersNow(cfg, st, r, s, i) else Enters(cfg, st, r, s, None)
  {}

  lemma EntersFromBuffer(cfg: Config, st: State, s: nat, i: nat)
    requires Here(cfg, st, s, Scan(i)) && st.health == Ok && Decide(cfg, st, s, i) == FromBuffer
    requires TakeBuffered(cfg, st, s, i).health == Ok
    ensures EntersNow(cfg, st, TakeBuffered(cfg, st, s, i), s, i)
  {}

  lemma EntersToBuffer(cfg: Config, st: State, s: nat, i: nat)
    requires Here(cfg, st, s, Scan(i)) && st.health == Ok && Decide(cfg, st, s, i) == ToBuffer
    requires PutBuffered(cfg, st, s, i).health == Ok
    ensures EntersNow(cfg, st, PutBuffered(cfg, st, s, i), s, i)
  {}

  lemma EntersRendezvous(cfg: Config, st: State, s: nat, i: nat)
    requires Here(cfg, st, s, Scan(i)) && HeadListed(cfg, st, s, i) && Decide(cfg, st, s, i) == Rendezvous
    ensures EntersNow(cfg, st, TakeBoth(cfg, st, s, i), s, i)
  {}

  lemma ArrivalsFromFrame(cfg: Config, st: State, r: State, s: nat, p: nat, c: nat, enters: Option<Node>)
    requires Frame(cfg, st, r, s, p, c) && Arrivals(cfg, st) && Enters(cfg, st, r, s, enters)
    requires ClaimedNow(st, r, s, p) ==> r.win[p].value.tok in st.sels[p].nodes
    requires enters.Some? ==>
      enters.value.sel == s && NodeOk(cfg, enters.value) && ChanOf(cfg, s, enters.value.tok) == c
      && !Entered(cfg, st, enters.value)
    requires c < |st.chans| ==> r.chans[c].arrivedR == Extended(cfg, st.chans[c].arrivedR, enters, Recv)
    requires c < |st.chans| ==> r.chans[c].arrivedW == Extended(cfg, st.chans[c].arrivedW, enters, Send)
    ensures Arrivals(cfg, r)
  {
    forall d | 0 <= d < |r.chans| ensures ChanArrivals(cfg, r, d) {
      assert ChanArrivals(cfg, st, d);
      forall n | NodeOk(cfg, n) ensures Entered(cfg, r, n) <==> Entered(cfg, st, n) || enters == Some(n) {}
    }
  }
}
