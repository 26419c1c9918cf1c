/**
 Staging a run: select 0 is the subject, the other selects are helpers that enter one after the other
 between two of its alternatives.  Each lemma plays one helper's part and says what it leaves behind.

 The state is followed through any set `reach` of states that is closed under steps; in the end that
 is the set of the reachable ones.
 */
module Stage {
  import opened Options
  import opened Protocol
  import opened Invariant
  import opened Runs

  ghost predicate Closed(cfg: Config, reach: State -> bool) {
    && ConfigOk(cfg)
    && (forall st {:trigger reach(st)} :: reach(st) ==> Shape(cfg, st) && st.health != AssertFailed)
    && (forall st {:trigger Inv(cfg, st)} :: reach(st) ==> Inv(cfg, st))
    && (forall st, s {:trigger reach(Step(cfg, st, s))} ::
      reach(st) && Shape(cfg, st) && Enabled(cfg, st, s) ==> reach(Step(cfg, st, s)))
  }

  /** The states of all runs. */
  ghost function Reached(cfg: Config): State -> bool {
    st => ConfigOk(cfg) && exists sched: seq<nat> :: Exec(cfg, sched) == st
  }

  lemma {:induction false} ReachedStep(cfg: Config, st: State, s: nat)
    requires ConfigOk(cfg) && Reached(cfg)(st) && Enabled(cfg, st, s)
    ensures Reached(cfg)(Step(cfg, st, s))
  {
    var sched: seq<nat> :| Exec(cfg, sched) == st;
    assert (sched + [s])[..|sched + [s]| - 1] == sched;
    assert Exec(cfg, sched + [s]) == Step(cfg, st, s);
  }

  lemma {:induction false} ReachedIsClosed(cfg: Config)
    requires ConfigOk(cfg)
    ensures Closed(cfg, Reached(cfg)) && Reached(cfg)(Init(cfg))
  {
    forall st | Reached(cfg)(st) ensures Inv(cfg, st) && st.health != AssertFailed {
      var sched: seq<nat> :| Exec(cfg, sched) == st;
      AssertionsHold(cfg, sched);
    }
    forall st, s | Reached(cfg)(st) && Shape(cfg, st) && Enabled(cfg, st, s) ensures Reached(cfg)(Step(cfg, st, s)) {
      ReachedStep(cfg, st, s);
    }
    var none: seq<nat> := [];
    assert Exec(cfg, none) == Init(cfg);
  }

  // ---------------------------------------------------------------- the helpers

  function TryWrite(d: nat, v: Value): SelectSpec {
    SelectSpec([Alt(Send, d, 0), Alt(Skip, 0, 1)], [Some(v), None], false)
  }

  function TryRead(d: nat): SelectSpec {
    SelectSpec([Alt(Recv, d, 0), Alt(Skip, 0, 1)], [None, None], false)
  }

  function PlainWrite(d: nat, v: Value): SelectSpec {
    SelectSpec([Alt(Send, d, 0)], [Some(v)], true)
  }

  function PlainRead(d: nat): SelectSpec {
    SelectSpec([Alt(Recv, d, 0)], [None], true)
  }

  /** Select `q` is one operation on channel `d`, or such an operation with `nothing` behind it. */
  ghost predicate Helps(cfg: Config, q: nat, dir: Dir, d: nat, waits: bool) {
    && 0 < q < |cfg.selects| && d < |cfg.caps| && dir != Skip
    && var h := cfg.selects[q];
       h.waits == waits && |h.alts| == (if waits then 1 else 2) && h.alts[0] == Alt(dir, d, 0)
         && (!waits ==> h.alts[1].dir == Skip)
  }

  /** Nobody is working on a channel. */
  ghost predicate Quiet(st: State) {
    st.health == Ok && forall c :: 0 <= c < |st.chans| ==> st.chans[c].owner.None?
  }

  /** From `a` to `b` only helper `q` and channel `d` changed. */
  ghost predicate Apart(a: State, b: State, q: nat, d: nat) {
    && q < |a.sels| == |b.sels| == |a.win| == |b.win| && d < |a.chans| == |b.chans| && a.health == b.health
    && b.sels == a.sels[q := b.sels[q]] && b.win == a.win[q := b.win[q]] && b.chans == a.chans[d := b.chans[d]]
  }

  /** The helper takes the mutex of its channel. */
  lemma Enters(cfg: Config, reach: State -> bool, st: State, q: nat, dir: Dir, d: nat, waits: bool) returns (r: State)
    requires Closed(cfg, reach) && reach(st) && Quiet(st) && Helps(cfg, q, dir, d, waits) && st.sels[q].pc == Idle
    ensures reach(r) && Apart(st, r, q, d) && r.win == st.win
    ensures r.sels[q] == st.sels[q].(pc := Scan(0)) && r.chans[d] == st.chans[d].(owner := Some(q))
  {
    var m := Step(cfg, st, q);
    assert reach(m);
    r := Step(cfg, m, q);
    assert r.sels == st.sels[q := r.sels[q]];
  }

  ghost function Swept(dir: Dir, ch: Chan): Chan {
    if dir == Recv then ch.(writers := []) else ch.(readers := [])
  }

  /** The nodes in the list that the operation looks into are all stale, and none is its own. */
  ghost predicate AllStale(st: State, q: nat, dir: Dir, d: nat)
    requires d < |st.chans|
  {
    forall n :: n in Opposite(dir, st.chans[d]) ==> !Open(st.win, n) && n.sel != q
  }

  /** It pops stale nodes until the list is empty. */
  lemma {:induction false} Sweeps(cfg: Config, reach: State -> bool, st: State, q: nat, dir: Dir, d: nat)
    returns (r: State)
    requires Closed(cfg, reach) && reach(st) && st.health == Ok && q < |cfg.selects| && d < |cfg.caps|
    requires 0 < |cfg.selects[q].alts|
    requires AltAt(cfg, q, 0).dir == dir && AltAt(cfg, q, 0).chan == d && dir != Skip
    requires (st.sels[q].pc == Refill(0) && dir == Recv)
      || (st.sels[q].pc == Scan(0) && (dir == Send || cfg.caps[d] == Some(0)))
    requires AllStale(st, q, dir, d)
    ensures reach(r) && r == PutChan(st, d, Swept(dir, st.chans[d]))
    decreases |Opposite(dir, st.chans[d])|
  {
    var list := Opposite(dir, st.chans[d]);
    if list == [] {
      r := st;
    } else {
      assert list[0] in list;
      assert Step(cfg, st, q) == Pop(st, d, dir);
      assert forall n :: n in list[1..] ==> n in list;
      r := Sweeps(cfg, reach, Pop(st, d, dir), q, dir, d);
    }
  }

  /** A helper that has just locked its channel is unclaimed and registered nowhere. */
  lemma NotYet(cfg: Config, reach: State -> bool, st: State, q: nat)
    requires Closed(cfg, reach) && reach(st) && q < |st.sels| && (st.sels[q].pc == Scan(0) || st.sels[q].pc == Idle)
    ensures st.win[q].None? && st.sels[q].nodes == {}
  {
    assert Inv(cfg, st);
    assert SelCtl(cfg, st, q);
  }

  /** Nothing to be had: the helper lets go and returns by way of `nothing`. */
  lemma Leaves(cfg: Config, reach: State -> bool, st: State, q: nat, dir: Dir, d: nat) returns (r: State)
    requires Closed(cfg, reach) && reach(st) && st.health == Ok && Helps(cfg, q, dir, d, false)
    requires st.sels[q].pc == Scan(0)
    requires Decide(cfg, st, q, 0) == Wait && !LocksItself(cfg, st, q, 0)
    ensures reach(r) && Apart(st, r, q, d) && r.sels[q].pc == Done(1) && r.chans[d] == st.chans[d].(owner := None)
  {
    var a := Step(cfg, st, q);
    assert reach(a) && a == Enlist(cfg, st, q, 0);
    var b := Step(cfg, a, q);
    assert reach(b) && b.sels[q].pc == Publish(1);
    r := Step(cfg, b, q);
    assert reach(r);
    assert r.sels == st.sels[q := r.sels[q]];
    assert r.chans == st.chans[d := r.chans[d]];
  }

  /** Nothing to be had: the helper registers and goes to sleep. */
  lemma FallsAsleep(cfg: Config, reach: State -> bool, st: State, q: nat, dir: Dir, d: nat) returns (r: State)
    requires Closed(cfg, reach) && reach(st) && st.health == Ok && Helps(cfg, q, dir, d, true)
    requires st.sels[q].pc == Scan(0)
    requires Decide(cfg, st, q, 0) == Wait && !LocksItself(cfg, st, q, 0)
    ensures reach(r) && Apart(st, r, q, d) && r.win == st.win && r.sels[q].pc == Parked
    ensures Own(dir, r.chans[d]) == Own(dir, st.chans[d]) + [Node(q, 0)]
    ensures Opposite(dir, r.chans[d]) == Opposite(dir, st.chans[d])
    ensures r.chans[d].buffer == st.chans[d].buffer && r.chans[d].owner.None?
  {
    var a := Step(cfg, st, q);
    assert reach(a) && a == Enlist(cfg, st, q, 0);
    r := Step(cfg, a, q);
    assert reach(r);
    assert r.sels == st.sels[q := r.sels[q]];
  }

  /** There is room: the value goes to the buffer. */
  lemma Stores(cfg: Config, reach: State -> bool, st: State, q: nat, d: nat) returns (r: State)
    requires Closed(cfg, reach) && reach(st) && st.health == Ok && Helps(cfg, q, Send, d, false)
    requires st.sels[q].pc == Scan(0)
    requires Decide(cfg, st, q, 0) == ToBuffer && !LocksItself(cfg, st, q, 0)
    ensures reach(r) && Apart(st, r, q, d) && r.sels[q].pc == Done(0) && r.chans[d].owner.None?
    ensures r.chans[d].readers == st.chans[d].readers && r.chans[d].writers == st.chans[d].writers
    ensures |r.chans[d].buffer| == |st.chans[d].buffer| + 1
  {
    var a := Step(cfg, st, q);
    assert reach(a) && a == PutBuffered(cfg, st, q, 0);
    r := Step(cfg, a, q);
    assert reach(r);
    assert r.sels == st.sels[q := r.sels[q]];
  }

  // ---------------------------------------------------------------- whole parts

  /** What all helpers leave alone that claim nobody: from `a` to `b` only `q` and channel `d` changed,
      and its mutex is free again. */
  ghost predicate Played(a: State, b: State, q: nat, d: nat) {
    Quiet(a) && Quiet(b) && Apart(a, b, q, d)
  }

  /** A `try_write` where no reader is available: it stores its value if there is room, and leaves no
      stale reader behind. */
  lemma TriesToWrite(cfg: Config, reach: State -> bool, st: State, q: nat, d: nat) returns (r: State)
    requires Closed(cfg, reach) && reach(st) && Quiet(st) && Helps(cfg, q, Send, d, false) && st.sels[q].pc == Idle
    requires AllStale(st, q, Send, d)
    ensures reach(r) && Played(st, r, q, d)
    ensures r.chans[d].readers == [] && r.chans[d].writers == st.chans[d].writers
    ensures |r.chans[d].buffer|
      == |st.chans[d].buffer| + (if cfg.caps[d] == Some(0) || Full(cfg.caps[d], st.chans[d].buffer) then 0 else 1)
  {
    var a := Enters(cfg, reach, st, q, Send, d, false);
    var b := Sweeps(cfg, reach, a, q, Send, d);
    NotYet(cfg, reach, b, q);
    if cfg.caps[d] == Some(0) || Full(cfg.caps[d], st.chans[d].buffer) {
      r := Leaves(cfg, reach, b, q, Send, d);
    } else {
      r := Stores(cfg, reach, b, q, d);
    }
  }

  /** A `try_read` of an unbuffered channel where no writer is available: it leaves no stale one behind. */
  lemma TriesToRead(cfg: Config, reach: State -> bool, st: State, q: nat, d: nat) returns (r: State)
    requires Closed(cfg, reach) && reach(st) && Quiet(st) && Helps(cfg, q, Recv, d, false) && st.sels[q].pc == Idle
    requires AllStale(st, q, Recv, d) && cfg.caps[d] == Some(0)
    ensures reach(r) && Played(st, r, q, d)
    ensures r.chans[d] == st.chans[d].(writers := [])
  {
    var a := Enters(cfg, reach, st, q, Recv, d, false);
    var b := Sweeps(cfg, reach, a, q, Recv, d);
    r := Leaves(cfg, reach, b, q, Recv, d);
  }

  /** A plain operation that finds nothing goes to sleep. */
  lemma WaitsHere(cfg: Config, reach: State -> bool, st: State, q: nat, dir: Dir, d: nat) returns (r: State)
    requires Closed(cfg, reach) && reach(st) && Quiet(st) && Helps(cfg, q, dir, d, true) && st.sels[q].pc == Idle
    requires AllStale(st, q, dir, d)
    requires (cfg.caps[d] == Some(0) || (dir == Send && Full(cfg.caps[d], st.chans[d].buffer)))
    ensures reach(r) && Played(st, r, q, d) && r.win == st.win && r.sels[q].pc == Parked
    ensures Own(dir, r.chans[d]) == Own(dir, st.chans[d]) + [Node(q, 0)] && Opposite(dir, r.chans[d]) == []
    ensures r.chans[d].buffer == st.chans[d].buffer
  {
    var a := Enters(cfg, reach, st, q, dir, d, true);
    var b := Sweeps(cfg, reach, a, q, dir, d);
    r := FallsAsleep(cfg, reach, b, q, dir, d);
  }

  // ---------------------------------------------------------------- parts that may claim select 0

  /** From `a` to `b` helper `q` and channel `d` changed; select 0 may have been claimed and handed its
      value, but is where it was. */
  ghost predicate Served(a: State, b: State, q: nat, d: nat) {
    && Quiet(a) && Quiet(b) && 0 < q < |a.sels| == |b.sels| == |a.win| == |b.win| && d < |a.chans| == |b.chans|
    && (forall s :: 0 < s < |a.sels| && s != q ==> b.sels[s] == a.sels[s] && b.win[s] == a.win[s])
    && b.sels[0].pc == a.sels[0].pc && b.sels[0].nodes == a.sels[0].nodes && b.chans == a.chans[d := b.chans[d]]
    && (a.win[0].Some? ==> b.win[0].Some?) && (a.sels[0].promise.Some? ==> b.sels[0].promise == a.sels[0].promise)
  }

  /** Select 0 has been claimed for `t` and woken. */
  ghost predicate Called(st: State, t: nat) {
    0 < |st.win| == |st.sels| && st.win[0].Some? && st.sels[0].promise == Some(t)
  }

  /** With both flags up: value and wake-up are handed over, and the helper returns. */
  lemma HandsOver(cfg: Config, reach: State -> bool, st: State, q: nat, dir: Dir, d: nat, t: nat) returns (r: State)
    requires Closed(cfg, reach) && reach(st) && st.health == Ok && Helps(cfg, q, dir, d, false)
    requires st.sels[q].pc == Match(0, Node(0, t))
    ensures reach(r) && |r.sels| == |st.sels| && |r.chans| == |st.chans| && r.win == st.win && r.health == Ok
    ensures forall s :: 0 < s < |st.sels| && s != q ==> r.sels[s] == st.sels[s]
    ensures r.sels[q].pc == Done(0) && r.sels[0].pc == st.sels[0].pc && r.sels[0].nodes == st.sels[0].nodes
    ensures st.sels[0].promise.None? && r.sels[0].promise == Some(t)
    ensures r.chans == st.chans[d := st.chans[d].(owner := None)]
  {
    var a := Step(cfg, st, q);
    assert reach(a);
    r := Step(cfg, a, q);
    assert reach(r);
  }

  /** Two flags taken, the other's node popped. */
  lemma TakesBoth(cfg: Config, reach: State -> bool, st: State, q: nat, dir: Dir, d: nat, t: nat) returns (r: State)
    requires Closed(cfg, reach) && reach(st) && st.health == Ok && Helps(cfg, q, dir, d, false)
    requires st.sels[q].pc == Scan(0)
    requires Opposite(dir, st.chans[d]) != [] && Opposite(dir, st.chans[d])[0] == Node(0, t) && st.win[0].None?
    requires dir == Send || cfg.caps[d] == Some(0)
    ensures reach(r) && |r.win| == |st.win| && r.win[0].Some? && r.health == Ok
    ensures forall s :: 0 < s < |st.sels| && s != q ==> r.win[s] == st.win[s]
    ensures r.sels == st.sels[q := st.sels[q].(pc := Match(0, Node(0, t)))] && r.chans == st.chans[d := r.chans[d]]
    ensures Opposite(dir, r.chans[d]) == Opposite(dir, st.chans[d])[1..]
    ensures Own(dir, r.chans[d]) == Own(dir, st.chans[d])
    ensures r.chans[d].buffer == st.chans[d].buffer
  {
    NotYet(cfg, reach, st, q);
    r := Step(cfg, st, q);
    assert reach(r) && r == TakeBoth(cfg, st, q, 0);
  }

  /** Having found a node of select 0, the helper claims it, and both go their ways. */
  lemma Strikes(cfg: Config, reach: State -> bool, st: State, q: nat, dir: Dir, d: nat, t: nat) returns (r: State)
    requires Closed(cfg, reach) && reach(st) && st.health == Ok && Helps(cfg, q, dir, d, false)
    requires st.sels[q].pc == Scan(0)
    requires Opposite(dir, st.chans[d]) != [] && Opposite(dir, st.chans[d])[0] == Node(0, t) && st.win[0].None?
    requires dir == Send || cfg.caps[d] == Some(0)
    ensures reach(r) && r.health == Ok && |r.sels| == |st.sels| && |r.chans| == |st.chans| && Called(r, t)
    ensures forall s :: 0 < s < |st.sels| && s != q ==> r.sels[s] == st.sels[s] && r.win[s] == st.win[s]
    ensures r.sels[0].pc == st.sels[0].pc && r.sels[0].nodes == st.sels[0].nodes && st.sels[0].promise.None?
    ensures r.chans == st.chans[d := r.chans[d]] && r.chans[d].owner.None? && r.chans[d].buffer == st.chans[d].buffer
    ensures Opposite(dir, r.chans[d]) == Opposite(dir, st.chans[d])[1..]
    ensures Own(dir, r.chans[d]) == Own(dir, st.chans[d])
  {
    var a := TakesBoth(cfg, reach, st, q, dir, d, t);
    r := HandsOver(cfg, reach, a, q, dir, d, t);
  }

  /** The helper finds a node of select 0 first in the list and claims it. */
  lemma Meets(cfg: Config, reach: State -> bool, st: State, q: nat, dir: Dir, d: nat, t: nat) returns (r: State)
    requires Closed(cfg, reach) && reach(st) && Quiet(st) && Helps(cfg, q, dir, d, false) && st.sels[q].pc == Idle
    requires Opposite(dir, st.chans[d]) != [] && Opposite(dir, st.chans[d])[0] == Node(0, t) && st.win[0].None?
    requires dir == Send || cfg.caps[d] == Some(0)
    ensures reach(r) && Served(st, r, q, d) && Called(r, t)
    ensures Opposite(dir, r.chans[d]) == Opposite(dir, st.chans[d])[1..]
    ensures Own(dir, r.chans[d]) == Own(dir, st.chans[d])
    ensures r.chans[d].buffer == st.chans[d].buffer
  {
    var a := Enters(cfg, reach, st, q, dir, d, false);
    r := Strikes(cfg, reach, a, q, dir, d, t);
  }

  /** The helper takes the head of the buffer and comes to look for a waiting writer. */
  lemma TakesHead(cfg: Config, reach: State -> bool, st: State, q: nat, d: nat) returns (r: State)
    requires Closed(cfg, reach) && reach(st) && Quiet(st) && Helps(cfg, q, Recv, d, false) && st.sels[q].pc == Idle
    requires cfg.caps[d].Some? && cfg.caps[d] != Some(0) && st.chans[d].buffer != []
    ensures reach(r) && Apart(st, r, q, d) && r.sels[q].pc == Refill(0)
    ensures r.chans[d].buffer == st.chans[d].buffer[1..] && r.chans[d].readers == st.chans[d].readers
    ensures r.chans[d].writers == st.chans[d].writers
  {
    var a := Enters(cfg, reach, st, q, Recv, d, false);
    NotYet(cfg, reach, a, q);
    r := Step(cfg, a, q);
    assert reach(r) && r == TakeBuffered(cfg, a, q, 0);
    assert r.sels == st.sels[q := r.sels[q]];
  }

  /** No writer waits: the helper returns with its value. */
  lemma FindsNoWriter(cfg: Config, reach: State -> bool, st: State, q: nat, d: nat) returns (r: State)
    requires Closed(cfg, reach) && reach(st) && st.health == Ok && Helps(cfg, q, Recv, d, false)
    requires st.sels[q].pc == Refill(0) && st.chans[d].writers == []
    ensures reach(r) && Apart(st, r, q, d) && r.chans[d] == st.chans[d].(owner := None)
  {
    var a := Step(cfg, st, q);
    assert reach(a) && a == RefillStep(cfg, st, q, 0);
    r := Step(cfg, a, q);
    assert reach(r);
    assert r.sels == st.sels[q := r.sels[q]];
  }

  /** Select 0 waits as a writer: its flag is taken and its node popped. */
  lemma ClaimsWriter(cfg: Config, reach: State -> bool, st: State, q: nat, d: nat, t: nat) returns (r: State)
    requires Closed(cfg, reach) && reach(st) && st.health == Ok && Helps(cfg, q, Recv, d, false)
    requires st.sels[q].pc == Refill(0)
    requires st.chans[d].writers != [] && st.chans[d].writers[0] == Node(0, t) && st.win[0].None?
    ensures reach(r) && |r.win| == |st.win| && r.health == Ok && r.win[0].Some?
    ensures forall s :: 0 < s < |st.sels| ==> r.win[s] == st.win[s]
    ensures r.sels == st.sels[q := st.sels[q].(pc := Store(0, Node(0, t)))] && r.chans == st.chans[d := r.chans[d]]
    ensures r.chans[d].readers == st.chans[d].readers && r.chans[d].writers == st.chans[d].writers[1..]
    ensures r.chans[d].buffer == st.chans[d].buffer
  {
    r := Step(cfg, st, q);
    assert reach(r) && r == RefillStep(cfg, st, q, 0);
  }

  /** Its value goes to the buffer, and it is woken. */
  lemma StoresItsValue(cfg: Config, reach: State -> bool, st: State, q: nat, d: nat, t: nat) returns (r: State)
    requires Closed(cfg, reach) && reach(st) && st.health == Ok && Helps(cfg, q, Recv, d, false)
    requires st.sels[q].pc == Store(0, Node(0, t))
    ensures reach(r) && |r.sels| == |st.sels| && r.health == Ok && r.win == st.win
    ensures forall s :: 0 < s < |st.sels| && s != q ==> r.sels[s] == st.sels[s]
    ensures r.sels[0].pc == st.sels[0].pc && r.sels[0].nodes == st.sels[0].nodes && st.sels[0].promise.None?
    ensures r.sels[0].promise == Some(t)
    ensures r.chans == st.chans[d := r.chans[d]] && r.chans[d].owner.None?
    ensures r.chans[d].readers == st.chans[d].readers && r.chans[d].writers == st.chans[d].writers
    ensures |r.chans[d].buffer| == |st.chans[d].buffer| + 1
  {
    var a := Step(cfg, st, q);
    assert reach(a) && a == StoreStep(cfg, st, q, 0, Node(0, t));
    r := Step(cfg, a, q);
    assert reach(r);
  }

  /** What a read that takes from a full buffer leaves behind, if only select 0 can be waiting to write. */
  ghost predicate Drained(a: State, b: State, d: nat)
    requires d < |a.chans| && d < |b.chans| && 0 < |a.win| && 0 < |b.win|
  {
    && b.chans[d].readers == a.chans[d].readers
    && if a.chans[d].writers != [] && a.win[0].None?
       then Called(b, a.chans[d].writers[0].tok) && b.chans[d].writers == a.chans[d].writers[1..]
         && |b.chans[d].buffer| == |a.chans[d].buffer|
       else b.win[0] == a.win[0] && b.chans[d].writers == [] && |b.chans[d].buffer| == |a.chans[d].buffer| - 1
  }

  lemma DrainsAlone(cfg: Config, reach: State -> bool, st: State, q: nat, d: nat) returns (r: State)
    requires Closed(cfg, reach) && reach(st) && Quiet(st) && Helps(cfg, q, Recv, d, false) && st.sels[q].pc == Idle
    requires cfg.caps[d].Some? && cfg.caps[d] != Some(0) && st.chans[d].buffer != []
    requires forall n :: n in st.chans[d].writers ==> n.sel == 0
    requires st.chans[d].writers == [] || st.win[0].Some?
    ensures reach(r) && Served(st, r, q, d) && Drained(st, r, d)
  {
    var a := TakesHead(cfg, reach, st, q, d);
    var b := Sweeps(cfg, reach, a, q, Recv, d);
    r := FindsNoWriter(cfg, reach, b, q, d);
  }

  lemma Drains(cfg: Config, reach: State -> bool, st: State, q: nat, d: nat) returns (r: State)
    requires Closed(cfg, reach) && reach(st) && Quiet(st) && Helps(cfg, q, Recv, d, false) && st.sels[q].pc == Idle
    requires cfg.caps[d].Some? && cfg.caps[d] != Some(0) && st.chans[d].buffer != []
    requires forall n :: n in st.chans[d].writers ==> n.sel == 0
    ensures reach(r) && Served(st, r, q, d) && Drained(st, r, d)
  {
    if st.chans[d].writers == [] || st.win[0].Some? {
      r := DrainsAlone(cfg, reach, st, q, d);
    } else {
      assert st.chans[d].writers[0] in st.chans[d].writers;
      var a := TakesHead(cfg, reach, st, q, d);
      var b := ClaimsWriter(cfg, reach, a, q, d, st.chans[d].writers[0].tok);
      r := StoresItsValue(cfg, reach, b, q, d, st.chans[d].writers[0].tok);
    }
  }

  // ---------------------------------------------------------------- the subject

  /** The subject waits, and comes to alternative `k` next. */
  ghost predicate Comes(cfg: Config, st: State, k: nat) {
    && 0 < |cfg.selects| == |st.sels| && |st.chans| == |cfg.caps| && cfg.selects[0].waits && k < |cfg.selects[0].alts|
    && Quiet(st) && st.sels[0].pc == Submit(k) && AltAt(cfg, 0, k).dir != Skip && AltAt(cfg, 0, k).chan < |st.chans|
  }

  /** There is nothing to be had at its next alternative, nor does it meet itself. */
  ghost predicate Nothing(cfg: Config, st: State, k: nat) {
    && Comes(cfg, st, k) && 0 < |st.win|
    && var a := AltAt(cfg, 0, k);
       var ch := st.chans[a.chan];
       if a.dir == Send then ch.readers == [] && (cfg.caps[a.chan] == Some(0) || Full(cfg.caps[a.chan], ch.buffer))
       else if cfg.caps[a.chan] != Some(0) then ch.buffer == []
       else ch.writers == [] || (st.win[0].Some? && ch.writers[0].sel != 0 && Open(st.win, ch.writers[0]))
  }

  /** The buffer is ready, but the subject has been claimed. */
  ghost predicate TooLate(cfg: Config, st: State, k: nat) {
    && Comes(cfg, st, k) && 0 < |st.win| && st.win[0].Some?
    && var a := AltAt(cfg, 0, k);
       cfg.caps[a.chan] != Some(0) &&
       if a.dir == Send then st.chans[a.chan].readers == [] && !Full(cfg.caps[a.chan], st.chans[a.chan].buffer)
       else st.chans[a.chan].buffer != []
  }

  lemma LocksNext(cfg: Config, reach: State -> bool, st: State, k: nat) returns (r: State)
    requires Closed(cfg, reach) && reach(st) && Comes(cfg, st, k)
    ensures reach(r)
    ensures r == PutChan(PutSel(st, 0, st.sels[0].(pc := Scan(k))), AltAt(cfg, 0, k).chan,
      st.chans[AltAt(cfg, 0, k).chan].(owner := Some(0)))
  {
    r := Step(cfg, st, 0);
    assert reach(r);
  }

  /** From `a` to `b` the subject registered with alternative `k`. */
  ghost predicate Enlisted(cfg: Config, a: State, b: State, k: nat) {
    && Comes(cfg, a, k) && Quiet(b) && |b.sels| == |a.sels| && |b.chans| == |a.chans| && b.win == a.win
    && b.sels == a.sels[0 := a.sels[0].(pc := Submit(k + 1), nodes := a.sels[0].nodes + {k})]
    && var x := AltAt(cfg, 0, k);
       && b.chans == a.chans[x.chan := b.chans[x.chan]] && b.chans[x.chan].buffer == a.chans[x.chan].buffer
       && Own(x.dir, b.chans[x.chan]) == Own(x.dir, a.chans[x.chan]) + [Node(0, k)]
       && Opposite(x.dir, b.chans[x.chan]) == Opposite(x.dir, a.chans[x.chan])
  }

  lemma Registers(cfg: Config, reach: State -> bool, st: State, k: nat) returns (r: State)
    requires Closed(cfg, reach) && reach(st) && Nothing(cfg, st, k)
    ensures reach(r) && Enlisted(cfg, st, r, k)
  {
    var a := LocksNext(cfg, reach, st, k);
    assert Decide(cfg, a, 0, k) == Wait && !LocksItself(cfg, a, 0, k);
    r := Step(cfg, a, 0);
    assert reach(r) && r == Enlist(cfg, a, 0, k);
    assert r.sels == st.sels[0 := r.sels[0]];
  }

  lemma GivesUp(cfg: Config, reach: State -> bool, st: State, k: nat) returns (r: State)
    requires Closed(cfg, reach) && reach(st) && TooLate(cfg, st, k)
    ensures reach(r) && Quiet(r) && r.chans == st.chans && r.win == st.win
    ensures r.sels == st.sels[0 := st.sels[0].(pc := Submit(NextOp(cfg.selects[0].alts, k)))]
  {
    var a := LocksNext(cfg, reach, st, k);
    r := Step(cfg, a, 0);
    assert reach(r) && r == GiveUp(cfg, a, 0, k);
    assert r.sels == st.sels[0 := r.sels[0]];
    assert r.chans == st.chans;
  }

  // ---------------------------------------------------------------- many helpers

  /** The channel takes no value that no reader waits for. */
  ghost predicate Stuffed(cfg: Config, st: State, d: nat)
    requires d < |cfg.caps| && d < |st.chans|
  {
    cfg.caps[d] == Some(0) || Full(cfg.caps[d], st.chans[d].buffer)
  }

  /** Helpers `u` to `m` may have played, on channel `d`; the writers wait as before. */
  ghost predicate Filled(a: State, b: State, u: nat, m: nat, d: nat) {
    && Quiet(a) && Quiet(b) && |a.sels| == |b.sels| == |a.win| == |b.win| && d < |a.chans| == |b.chans|
    && (forall s :: 0 <= s < |a.sels| && !(u <= s < m) ==> b.sels[s] == a.sels[s] && b.win[s] == a.win[s])
    && b.chans == a.chans[d := b.chans[d]] && b.chans[d].writers == a.chans[d].writers
    && (b.chans[d].readers == a.chans[d].readers || b.chans[d].readers == [])
  }

  /** As many attempts to write as there are places fill a buffer. */
  lemma {:induction false} Fills(cfg: Config, reach: State -> bool, st: State, u: nat, n: nat, d: nat)
    returns (r: State)
    requires Closed(cfg, reach) && reach(st) && Quiet(st) && d < |cfg.caps| && cfg.caps[d].Some?
    requires cfg.caps[d].value <= |st.chans[d].buffer| + n
    requires forall q :: u <= q < u + n ==> Helps(cfg, q, Send, d, false) && st.sels[q].pc == Idle
    requires forall m :: m in st.chans[d].readers ==> !Open(st.win, m) && m.sel < u
    ensures reach(r) && Filled(st, r, u, u + n, d) && Stuffed(cfg, r, d)
    decreases n
  {
    assert ChanWake(cfg, st, d) by { assert Inv(cfg, st); }
    if Stuffed(cfg, st, d) {
      r := st;
    } else {
      var a := TriesToWrite(cfg, reach, st, u, d);
      forall q | u + 1 <= q < u + n ensures Helps(cfg, q, Send, d, false) && a.sels[q].pc == Idle {
        assert Helps(cfg, q, Send, d, false);
        assert a.sels[q] == st.sels[q];
      }
      r := Fills(cfg, reach, a, u + 1, n - 1, d);
    }
  }
}
