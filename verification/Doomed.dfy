/**
 How a select comes to leave a dangling pointer: it has been claimed for one alternative while a write of
 its own is the last in its list.  Every run of its clean-up alone then breaks that list.
 */
module Doomed {
  import opened Options
  import opened Protocol
  import opened Invariant
  import opened Stage

  // ---------------------------------------------------------------- the clean-up

  /** The last of the writers that wait on channel `d` belongs to select 0. */
  ghost predicate EndsOwn(st: State, d: nat)
    requires d < |st.chans|
  {
    st.chans[d].writers != [] && st.chans[d].writers[|st.chans[d].writers| - 1].sel == 0
  }

  lemma {:induction false} RemoveKeepsLast(xs: seq<Node>, n: Node)
    requires xs != [] && xs[|xs| - 1] != n
    ensures Remove(xs, n) != [] && Remove(xs, n)[|Remove(xs, n)| - 1] == xs[|xs| - 1]
  {
    if xs[0] != n && |xs| > 1 { RemoveKeepsLast(xs[1..], n); }
  }

  /** Select 0 is at alternative `j` of its clean-up. */
  ghost predicate Clearing(cfg: Config, st: State, d: nat, j: nat, t: nat) {
    0 < |cfg.selects| == |st.sels| && d < |st.chans| && !cfg.intended && Quiet(st) && st.sels[0].pc == Clear(j, t)
      && EndsOwn(st, d)
  }

  /** The last writer is one that the clean-up has still to come to. */
  lemma StillToCome(cfg: Config, st: State, d: nat, j: nat, t: nat)
    requires Inv(cfg, st) && Clearing(cfg, st, d, j, t)
    ensures var n := st.chans[d].writers[|st.chans[d].writers| - 1];
      && j <= n.tok < |cfg.selects[0].alts| && n.tok != t && n.tok in st.sels[0].nodes
      && AltAt(cfg, 0, n.tok).dir == Send && AltAt(cfg, 0, n.tok).chan == d
  {
    var n := st.chans[d].writers[|st.chans[d].writers| - 1];
    assert ChanLists(cfg, st, d) && SelCtl(cfg, st, 0);
    assert n in st.chans[d].writers;
  }

  /** Taking another node out, the last writer stays last. */
  lemma UnlinksAnother(cfg: Config, st: State, d: nat, j: nat)
    requires Shape(cfg, st) && 0 < |st.sels| && d < |st.chans| && EndsOwn(st, d) && j < |cfg.selects[0].alts|
    requires AltAt(cfg, 0, j).dir != Skip
    requires st.chans[d].writers[|st.chans[d].writers| - 1] != Node(0, j)
    ensures EndsOwn(Unlink(cfg, st, 0, j), d)
    ensures forall c :: 0 <= c < |st.chans| ==> Unlink(cfg, st, 0, j).chans[c].owner == st.chans[c].owner
  {
    RemoveKeepsLast(st.chans[d].writers, Node(0, j));
  }

  /** It breaks a list, or the last writer stays last. */
  lemma BreaksOrNot(cfg: Config, st: State, d: nat, j: nat, t: nat)
    requires Shape(cfg, st) && Clearing(cfg, st, d, j, t) && j < |cfg.selects[0].alts| && PcOk(cfg, 0, Clear(j, t))
    requires st.chans[d].writers[|st.chans[d].writers| - 1] == Node(0, j) ==>
      NeedsClearing(cfg, st, 0, j, t) && LeavesDangling(cfg, st, 0, j)
    ensures var r := ClearStep(cfg, st, 0, j, t); r.health == Dangling || Clearing(cfg, r, d, j + 1, t)
  {
    if NeedsClearing(cfg, st, 0, j, t) && !LeavesDangling(cfg, st, 0, j) {
      UnlinksAnother(cfg, st, d, j);
    }
  }

  lemma ClearsOne(cfg: Config, reach: State -> bool, st: State, d: nat, j: nat, t: nat) returns (r: State)
    requires Closed(cfg, reach) && reach(st) && Clearing(cfg, st, d, j, t)
    ensures reach(r) && (r.health == Dangling || Clearing(cfg, r, d, j + 1, t)) && j < |cfg.selects[0].alts|
  {
    StillToCome(cfg, st, d, j, t) by { assert Inv(cfg, st); }
    assert SelOk(cfg, 0, st.sels[0]);
    BreaksOrNot(cfg, st, d, j, t);
    r := Step(cfg, st, 0);
    assert reach(r);
  }

  lemma {:induction false} ClearsUntilItBreaks(cfg: Config, reach: State -> bool, st: State, d: nat, j: nat, t: nat)
    returns (r: State)
    requires Closed(cfg, reach) && reach(st) && Clearing(cfg, st, d, j, t) && j <= |cfg.selects[0].alts|
    ensures reach(r) && r.health == Dangling
    decreases |cfg.selects[0].alts| - j
  {
    r := ClearsOne(cfg, reach, st, d, j, t);
    if r.health != Dangling { r := ClearsUntilItBreaks(cfg, reach, r, d, j + 1, t); }
  }

  /** Select 0 sleeps, has been woken, and the last writer on `d` is its own. */
  ghost predicate Doom(cfg: Config, st: State, d: nat) {
    && 0 < |cfg.selects| == |st.sels| && d < |st.chans| && !cfg.intended && Quiet(st)
    && st.sels[0].pc == Parked && st.sels[0].promise.Some? && EndsOwn(st, d)
  }

  lemma DoomBreaks(cfg: Config, reach: State -> bool, st: State, d: nat) returns (r: State)
    requires Closed(cfg, reach) && reach(st) && Doom(cfg, st, d)
    ensures reach(r) && r.health == Dangling
  {
    var a := Step(cfg, st, 0);
    assert reach(a);
    r := ClearsUntilItBreaks(cfg, reach, a, d, 0, st.sels[0].promise.value);
  }

  // ---------------------------------------------------------------- claimed during its submission

  /** Besides select 0 only `x` waits: a plain write to channel `d`. */
  ghost predicate Cast(cfg: Config, x: nat, d: nat) {
    && ConfigOk(cfg) && !cfg.intended && Helps(cfg, x, Send, d, true) && cfg.selects[0].waits
    && forall q :: 0 < q < |cfg.selects| && q != x ==> !cfg.selects[q].waits
  }

  /** Whose nodes are in lists. */
  lemma WhoWaits(cfg: Config, st: State, x: nat, d: nat, c: nat)
    requires Cast(cfg, x, d) && Inv(cfg, st) && c < |st.chans|
    ensures forall n :: n in st.chans[c].readers ==> n.sel == 0
    ensures c != d ==> forall n :: n in st.chans[c].writers ==> n.sel == 0
  {
    assert ChanLists(cfg, st, c);
    forall n | n in st.chans[c].readers ensures n.sel == 0 { assert SelCtl(cfg, st, n.sel); }
    forall n | n in st.chans[c].writers && c != d ensures n.sel == 0 { assert SelCtl(cfg, st, n.sel); }
  }

  /** Select 0 has been claimed and comes to alternative `k`; behind the write of `x`, which waits first on
      channel `d`, a write of its own waits last. */
  ghost predicate Behind(cfg: Config, st: State, x: nat, d: nat, k: nat, t: nat) {
    && |st.sels| == |st.win| == |cfg.selects| && |st.chans| == |cfg.caps| && 0 < x < |st.sels| && d < |st.chans|
    && Quiet(st) && Called(st, t) && st.sels[0].pc == Submit(k)
    && EndsOwn(st, d) && st.chans[d].writers[0] == Node(x, 0) && st.win[x].None?
  }

  /** The counterpart of an alternative, trying. */
  function Counterpart(a: Alt, v: Value): SelectSpec {
    if a.dir == Send then TryWrite(a.chan, v) else TryRead(a.chan)
  }

  /** Nobody is to be had at alternative `k`, or it is too late; and the subject does not meet itself. */
  ghost predicate Harmless(cfg: Config, st: State, k: nat) {
    Nothing(cfg, st, k) || TooLate(cfg, st, k)
  }

  /** A helper that touches no list of writers but one leaves the subject where it was. */
  lemma PlayedBehind(cfg: Config, a: State, b: State, x: nat, d: nat, k: nat, t: nat, q: nat, e: nat)
    requires Behind(cfg, a, x, d, k, t) && Played(a, b, q, e) && q != x && 0 < q
    requires e == d ==> b.chans[d].writers == a.chans[d].writers
    ensures Behind(cfg, b, x, d, k, t)
  {}

  /** At a write, a `try_write` pops the stale readers. */
  lemma ClearsForWrite(cfg: Config, reach: State -> bool, st: State, x: nat, d: nat, k: nat, t: nat, q: nat)
    returns (r: State)
    requires Cast(cfg, x, d) && Closed(cfg, reach) && reach(st) && Behind(cfg, st, x, d, k, t)
    requires k < |cfg.selects[0].alts|
    requires AltAt(cfg, 0, k).dir == Send && AltAt(cfg, 0, k).chan < |cfg.caps| && q != x
    requires Helps(cfg, q, Send, AltAt(cfg, 0, k).chan, false) && st.sels[q].pc == Idle
    ensures reach(r) && Behind(cfg, r, x, d, k, t) && Harmless(cfg, r, k) && Played(st, r, q, AltAt(cfg, 0, k).chan)
  {
    WhoWaits(cfg, st, x, d, AltAt(cfg, 0, k).chan) by { assert Inv(cfg, st); }
    r := TriesToWrite(cfg, reach, st, q, AltAt(cfg, 0, k).chan);
    PlayedBehind(cfg, st, r, x, d, k, t, q, AltAt(cfg, 0, k).chan);
  }

  /** At a read without a buffer, a `try_read` pops the stale writers. */
  lemma ClearsForRead(cfg: Config, reach: State -> bool, st: State, x: nat, d: nat, k: nat, t: nat, q: nat)
    returns (r: State)
    requires Cast(cfg, x, d) && Closed(cfg, reach) && reach(st) && Behind(cfg, st, x, d, k, t)
    requires k < |cfg.selects[0].alts|
    requires AltAt(cfg, 0, k).dir == Recv && AltAt(cfg, 0, k).chan < |cfg.caps| && q != x
    requires cfg.caps[AltAt(cfg, 0, k).chan] == Some(0) && AltAt(cfg, 0, k).chan != d
    requires Helps(cfg, q, Recv, AltAt(cfg, 0, k).chan, false) && st.sels[q].pc == Idle
    ensures reach(r) && Behind(cfg, r, x, d, k, t) && Harmless(cfg, r, k) && Played(st, r, q, AltAt(cfg, 0, k).chan)
  {
    WhoWaits(cfg, st, x, d, AltAt(cfg, 0, k).chan) by { assert Inv(cfg, st); }
    r := TriesToRead(cfg, reach, st, q, AltAt(cfg, 0, k).chan);
    PlayedBehind(cfg, st, r, x, d, k, t, q, AltAt(cfg, 0, k).chan);
  }

  /** The helper of alternative `k` clears stale nodes out of the way. */
  lemma ClearsTheWay(cfg: Config, reach: State -> bool, st: State, x: nat, d: nat, k: nat, t: nat, q: nat, v: Value)
    returns (r: State)
    requires Cast(cfg, x, d) && Closed(cfg, reach) && reach(st) && Behind(cfg, st, x, d, k, t)
    requires k < |cfg.selects[0].alts|
    requires 0 < q < |cfg.selects| && q != x && cfg.selects[q] == Counterpart(AltAt(cfg, 0, k), v)
    requires st.sels[q].pc == Idle
    ensures reach(r) && Behind(cfg, r, x, d, k, t) && Harmless(cfg, r, k)
    ensures forall s :: 0 <= s < |st.sels| && s != q ==> r.sels[s] == st.sels[s]
  {
    var a, e := AltAt(cfg, 0, k), AltAt(cfg, 0, k).chan;
    assert SpecOk(cfg, cfg.selects[0]) && AltOk(cfg, cfg.selects[0], a);
    if a.dir == Send {
      r := ClearsForWrite(cfg, reach, st, x, d, k, t, q);
    } else if cfg.caps[e] == Some(0) && e != d {
      r := ClearsForRead(cfg, reach, st, x, d, k, t, q);
    } else {
      r := st;
    }
  }

  lemma EnlistedBehind(cfg: Config, a: State, b: State, x: nat, d: nat, k: nat, t: nat)
    requires Behind(cfg, a, x, d, k, t) && Enlisted(cfg, a, b, k)
    ensures Behind(cfg, b, x, d, k + 1, t)
  {}

  /** One alternative on. */
  lemma GoesOn(cfg: Config, reach: State -> bool, st: State, x: nat, d: nat, k: nat, t: nat) returns (r: State, m: nat)
    requires Cast(cfg, x, d) && Closed(cfg, reach) && reach(st) && Behind(cfg, st, x, d, k, t)
    requires k < |cfg.selects[0].alts| && Harmless(cfg, st, k)
    ensures reach(r) && k < m <= |cfg.selects[0].alts| && Behind(cfg, r, x, d, m, t)
    ensures forall s :: 0 < s < |st.sels| ==> r.sels[s] == st.sels[s]
  {
    if Nothing(cfg, st, k) {
      r := Registers(cfg, reach, st, k);
      EnlistedBehind(cfg, st, r, x, d, k, t);
      m := k + 1;
    } else {
      r := GivesUp(cfg, reach, st, k);
      m := NextOp(cfg.selects[0].alts, k);
    }
  }

  /** From select `x` on, the counterparts of the alternatives from `w` on have not begun. */
  ghost predicate Backstage(cfg: Config, st: State, x: nat, w: nat, k: nat, v: Value) {
    && 0 < |st.sels| == |cfg.selects| && x + |cfg.selects[0].alts| - w <= |cfg.selects| && w < k
    && forall m :: k <= m < |cfg.selects[0].alts| ==>
         cfg.selects[x + m - w] == Counterpart(AltAt(cfg, 0, m), v) && st.sels[x + m - w].pc == Idle
  }

  /** The submission goes on to its end, and select 0 falls asleep, woken already. */
  lemma {:induction false} SubmitsTheRest(cfg: Config, reach: State -> bool, st: State, x: nat, d: nat, k: nat, t: nat,
        w: nat, v: Value)
    returns (r: State)
    requires Cast(cfg, x, d) && Closed(cfg, reach) && reach(st) && Behind(cfg, st, x, d, k, t)
    requires k <= |cfg.selects[0].alts|
    requires Backstage(cfg, st, x, w, k, v)
    ensures reach(r) && Doom(cfg, r, d)
    decreases |cfg.selects[0].alts| - k
  {
    if k == |cfg.selects[0].alts| {
      r := Step(cfg, st, 0);
      assert reach(r);
    } else {
      var a := ClearsTheWay(cfg, reach, st, x, d, k, t, x + k - w, v);
      var b, m := GoesOn(cfg, reach, a, x, d, k, t);
      r := SubmitsTheRest(cfg, reach, b, x, d, m, t, w, v);
    }
  }

  /** Select 0 has been claimed and comes to its write `w`, for which there is no room and no reader. */
  ghost predicate Hooked(cfg: Config, st: State, x: nat, d: nat, w: nat, t: nat) {
    && |st.sels| == |st.win| == |cfg.selects| && |st.chans| == |cfg.caps| && 0 < x < |st.sels| && d < |st.chans|
    && d < |cfg.caps|
    && Quiet(st) && Called(st, t) && st.sels[0].pc == Submit(w) && w < |cfg.selects[0].alts|
    && AltAt(cfg, 0, w).dir == Send && AltAt(cfg, 0, w).chan == d && st.chans[d].writers == [] && Stuffed(cfg, st, d)
    && st.sels[x].pc == Idle
  }

  /** The plain write waits first, the write of select 0 behind it. */
  lemma Hooks(cfg: Config, reach: State -> bool, st: State, x: nat, d: nat, w: nat, t: nat) returns (r: State)
    requires Cast(cfg, x, d) && Closed(cfg, reach) && reach(st) && Hooked(cfg, st, x, d, w, t)
    ensures reach(r) && Behind(cfg, r, x, d, w + 1, t)
    ensures forall s :: 0 < s < |st.sels| && s != x ==> r.sels[s] == st.sels[s]
  {
    WhoWaits(cfg, st, x, d, d) by { assert Inv(cfg, st); }
    var a := WaitsHere(cfg, reach, st, x, Send, d);
    NotYet(cfg, reach, st, x);
    r := Registers(cfg, reach, a, w);
  }

  /** Hooked, it breaks a list. */
  lemma HookedBreaks(cfg: Config, reach: State -> bool, st: State, x: nat, d: nat, w: nat, t: nat, v: Value)
    returns (r: State)
    requires Cast(cfg, x, d) && Closed(cfg, reach) && reach(st) && Hooked(cfg, st, x, d, w, t)
    requires Backstage(cfg, st, x, w, w + 1, v)
    ensures reach(r) && r.health == Dangling
  {
    var a := Hooks(cfg, reach, st, x, d, w, t);
    var b := SubmitsTheRest(cfg, reach, a, x, d, w + 1, t, w, v);
    r := DoomBreaks(cfg, reach, b, d);
  }
}
