/** Every step keeps the wake-up invariant: whoever waits could not be served. */
module KeepWake {
  import opened Options
  import opened Protocol
  import opened Filters
  import opened Invariant
  import opened Frames
  import opened KeepCtl

  /** Flags only go down. */
  ghost predicate Grown(win: seq<Option<Claim>>, w: seq<Option<Claim>>) {
    |w| == |win| && forall q :: 0 <= q < |win| && win[q].Some? ==> w[q] == win[q]
  }

  lemma FrameGrown(cfg: Config, st: State, r: State, s: nat, p: nat, c: nat)
    requires Frame(cfg, st, r, s, p, c)
    ensures Grown(st.win, r.win)
  {}

  lemma {:induction false} NoneOpen(win: seq<Option<Claim>>, xs: seq<Node>)
    requires forall n :: n in xs ==> !Open(win, n)
    ensures OpenOf(win, xs) == []
  {
    if xs != [] {
      assert xs == [xs[0]] + xs[1..];
      NoneOpen(win, xs[1..]);
    }
  }

  lemma {:induction false} NothingOpens(win: seq<Option<Claim>>, w: seq<Option<Claim>>, xs: seq<Node>, ys: seq<Node>)
    requires Grown(win, w) && OpenOf(win, xs) == [] && (forall n :: n in ys ==> n in xs)
    ensures OpenOf(w, ys) == []
  {
    OpenOfMembers(win, xs);
    NoneOpen(w, ys);
  }

  /** Claims and pops alone never break it. */
  lemma ChanWakeLess(cfg: Config, st: State, r: State, d: nat)
    requires Shape(cfg, st) && Shape(cfg, r) && Grown(st.win, r.win) && d < |st.chans| && ChanWake(cfg, st, d)
    requires r.chans[d].buffer == st.chans[d].buffer && Slack(r, d) == Slack(st, d)
    requires forall n :: n in r.chans[d].readers ==> n in st.chans[d].readers
    requires forall n :: n in r.chans[d].writers ==> n in st.chans[d].writers
    ensures ChanWake(cfg, r, d)
  {
    if OpenOf(st.win, st.chans[d].readers) == [] {
      NothingOpens(st.win, r.win, st.chans[d].readers, r.chans[d].readers);
    }
    if OpenOf(st.win, st.chans[d].writers) == [] {
      NothingOpens(st.win, r.win, st.chans[d].writers, r.chans[d].writers);
    }
  }

  lemma WakeFromFrame(cfg: Config, st: State, r: State, s: nat, p: nat, c: nat)
    requires Frame(cfg, st, r, s, p, c) && Wake(cfg, st) && Ctl(cfg, st)
    requires LockedAlt(st.sels[s].pc).Some? ==> AltAt(cfg, s, LockedAlt(st.sels[s].pc).value).chan == c
    requires c < |st.chans| ==> ChanWake(cfg, r, c)
    ensures Wake(cfg, r)
  {
    FrameGrown(cfg, st, r, s, p, c);
    forall d | 0 <= d < |r.chans| ensures ChanWake(cfg, r, d) {
      if d != c {
        assert ChanWake(cfg, st, d) && ChanCtl(cfg, st, d);
        ChanWakeLess(cfg, st, r, d);
      }
    }
  }

  /** Nobody open waits in the opposite list when a step decides to wait. */
  lemma WakeWait(cfg: Config, st: State, s: nat, i: nat)
    requires Here(cfg, st, s, Scan(i)) && Decide(cfg, st, s, i) == Wait && ChanWake(cfg, st, ChanOf(cfg, s, i))
    ensures ChanWake(cfg, Enlist(cfg, st, s, i), ChanOf(cfg, s, i))
  {
    var c, me := ChanOf(cfg, s, i), Node(s, i);
    OpenOfAppend(st.win, st.chans[c].readers, [me]);
    OpenOfAppend(st.win, st.chans[c].writers, [me]);
  }

  lemma WakeFromBuffer(cfg: Config, st: State, s: nat, i: nat)
    requires Here(cfg, st, s, Scan(i)) && Decide(cfg, st, s, i) == FromBuffer
    requires TakeBuffered(cfg, st, s, i).health == Ok
    requires st.health == Ok && ChanWake(cfg, st, ChanOf(cfg, s, i))
    ensures ChanWake(cfg, TakeBuffered(cfg, st, s, i), ChanOf(cfg, s, i))
  {
    var r, ch := TakeBuffered(cfg, st, s, i), st.chans[ChanOf(cfg, s, i)];
    NothingOpens(st.win, r.win, ch.readers, ch.readers);
    if OpenOf(st.win, ch.writers) == [] { NothingOpens(st.win, r.win, ch.writers, ch.writers); }
  }

  lemma WakeToBuffer(cfg: Config, st: State, s: nat, i: nat)
    requires Here(cfg, st, s, Scan(i)) && Decide(cfg, st, s, i) == ToBuffer && PutBuffered(cfg, st, s, i).health == Ok
    requires st.health == Ok && ChanWake(cfg, st, ChanOf(cfg, s, i))
    ensures ChanWake(cfg, PutBuffered(cfg, st, s, i), ChanOf(cfg, s, i))
  {
    var r, ch := PutBuffered(cfg, st, s, i), st.chans[ChanOf(cfg, s, i)];
    NothingOpens(st.win, r.win, ch.readers, ch.readers);
    NothingOpens(st.win, r.win, ch.writers, ch.writers);
  }

  lemma WakeRendezvous(cfg: Config, st: State, r: State, s: nat, p: nat, i: nat)
    requires Here(cfg, st, s, Scan(i)) && Decide(cfg, st, s, i) == Rendezvous && ChanWake(cfg, st, ChanOf(cfg, s, i))
    requires r == TakeBoth(cfg, st, s, i) && Frame(cfg, st, r, s, p, ChanOf(cfg, s, i))
    ensures ChanWake(cfg, r, ChanOf(cfg, s, i))
  {
    var c := ChanOf(cfg, s, i);
    FrameGrown(cfg, st, r, s, p, c);
    assert Slack(st, c) == 0 && Slack(r, c) == 0;
    if AltAt(cfg, s, i).dir == Recv {
      assert forall n :: n in r.chans[c].writers ==> n in st.chans[c].writers;
      ChanWakeLess(cfg, st, r, c);
    } else {
      assert forall n :: n in r.chans[c].readers ==> n in st.chans[c].readers;
      ChanWakeLess(cfg, st, r, c);
    }
  }

  lemma WakeRefillEnd(cfg: Config, st: State, s: nat, i: nat)
    requires Here(cfg, st, s, Refill(i)) && st.chans[ChanOf(cfg, s, i)].writers == []
    requires ChanWake(cfg, st, ChanOf(cfg, s, i))
    ensures ChanWake(cfg, RefillStep(cfg, st, s, i), ChanOf(cfg, s, i))
  {}

  lemma WakeStore(cfg: Config, st: State, s: nat, i: nat, n: Node)
    requires Here(cfg, st, s, Store(i, n)) && st.health == Ok && StoreStep(cfg, st, s, i, n).health == Ok
    requires ChanWake(cfg, st, ChanOf(cfg, s, i))
    ensures ChanWake(cfg, StoreStep(cfg, st, s, i, n), ChanOf(cfg, s, i))
  {}
}
