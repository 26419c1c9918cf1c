/**
 Three casts, and the run in which each leaves a dangling pointer.  Select 0 is any select that waits and
 has a write beside another alternative; the casts differ in how it begins.
 */
module Acts {
  import opened Options
  import opened Protocol
  import opened Invariant
  import opened Stage
  import opened Doomed

  // ---------------------------------------------------------------- first act: a read comes first

  /** The cast for a select whose first alternative is a read: an attempt to write to its channel, enough
      attempts to fill channel `d`, the plain write `x`, and the counterparts of all alternatives after
      `w`, which is the first write, to channel `d`. */
  ghost predicate ReadFirst(cfg: Config, x: nat, d: nat, w: nat, v: Value) {
    && Cast(cfg, x, d) && 0 < w < |cfg.selects[0].alts| && (forall k :: 0 <= k < w ==> AltAt(cfg, 0, k).dir == Recv)
    && AltAt(cfg, 0, w).dir == Send && AltAt(cfg, 0, w).chan == d && cfg.caps[d].Some? && x == 2 + cfg.caps[d].value
    && Helps(cfg, 1, Send, AltAt(cfg, 0, 0).chan, false) && (forall q :: 2 <= q < x ==> Helps(cfg, q, Send, d, false))
    && x + |cfg.selects[0].alts| - w <= |cfg.selects|
    && forall m :: w < m < |cfg.selects[0].alts| ==> cfg.selects[x + m - w] == Counterpart(AltAt(cfg, 0, m), v)
  }

  /** Nobody has written, and the helpers from `u` on have not begun. */
  ghost predicate Unwritten(cfg: Config, st: State, k: nat, u: nat) {
    && 0 < |st.sels| == |st.win| == |cfg.selects| && |st.chans| == |cfg.caps| && Quiet(st) && st.sels[0].pc == Submit(k)
    && (forall q :: u <= q < |st.sels| ==> st.sels[q].pc == Idle)
    && (forall c :: 0 <= c < |st.chans| ==> st.chans[c].buffer == [] && st.chans[c].writers == [])
  }

  /** The first alternative is registered and claimed at once. */
  lemma Hooks0(cfg: Config, reach: State -> bool, x: nat, d: nat, w: nat, v: Value) returns (r: State)
    requires ReadFirst(cfg, x, d, w, v) && Closed(cfg, reach) && reach(Init(cfg))
    ensures reach(r) && Unwritten(cfg, r, 1, 2) && Called(r, 0)
  {
    assert SpecOk(cfg, cfg.selects[0]) && AltOk(cfg, cfg.selects[0], AltAt(cfg, 0, 0));
    var a := Step(cfg, Init(cfg), 0);
    assert reach(a) && Unwritten(cfg, a, 0, 1);
    var b := Registers(cfg, reach, a, 0);
    r := Meets(cfg, reach, b, 1, Send, AltAt(cfg, 0, 0).chan, 0);
  }

  /** It registers with the other reads before `w`, claimed as it is. */
  lemma {:induction false} RegistersReads(cfg: Config, reach: State -> bool, st: State, k: nat, x: nat, d: nat, w: nat,
        v: Value)
    returns (r: State)
    requires ReadFirst(cfg, x, d, w, v) && Closed(cfg, reach) && reach(st) && Unwritten(cfg, st, k, 2) && Called(st, 0)
    requires k <= w
    ensures reach(r) && Unwritten(cfg, r, w, 2) && Called(r, 0)
    decreases w - k
  {
    if k == w {
      r := st;
    } else {
      assert SpecOk(cfg, cfg.selects[0]) && AltOk(cfg, cfg.selects[0], AltAt(cfg, 0, k));
      var a := Registers(cfg, reach, st, k);
      r := RegistersReads(cfg, reach, a, k + 1, x, d, w, v);
    }
  }

  lemma ReadFirstBreaks(cfg: Config, reach: State -> bool, x: nat, d: nat, w: nat, v: Value) returns (r: State)
    requires ReadFirst(cfg, x, d, w, v) && Closed(cfg, reach) && reach(Init(cfg))
    ensures reach(r) && r.health == Dangling
  {
    var a := Hooks0(cfg, reach, x, d, w, v);
    var b := RegistersReads(cfg, reach, a, 1, x, d, w, v);
    WhoWaits(cfg, b, x, d, d) by { assert Inv(cfg, b); }
    var c := Fills(cfg, reach, b, 2, cfg.caps[d].value, d);
    assert Hooked(cfg, c, x, d, w, 0);
    forall m | w < m < |cfg.selects[0].alts|
      ensures cfg.selects[x + m - w] == Counterpart(AltAt(cfg, 0, m), v) && c.sels[x + m - w].pc == Idle
    {
      assert c.sels[x + m - w] == b.sels[x + m - w];
    }
    r := HookedBreaks(cfg, reach, c, x, d, w, 0, v);
  }

  // ---------------------------------------------------------------- second act: two writes to one channel

  /** The cast for two writes to channel `d`: enough attempts to fill it, an attempt to read, the plain
      write `x`, and the counterparts of the alternatives after the second. */
  ghost predicate SameTwice(cfg: Config, x: nat, d: nat, v: Value) {
    && Cast(cfg, x, d) && 1 < |cfg.selects[0].alts|
    && (forall k :: 0 <= k < 2 ==> AltAt(cfg, 0, k).dir == Send && AltAt(cfg, 0, k).chan == d)
    && cfg.caps[d].Some? && x == 2 + cfg.caps[d].value
    && Helps(cfg, x - 1, Recv, d, false) && (forall q :: 1 <= q < x - 1 ==> Helps(cfg, q, Send, d, false))
    && x + |cfg.selects[0].alts| - 1 <= |cfg.selects|
    && forall m :: 1 < m < |cfg.selects[0].alts| ==> cfg.selects[x + m - 1] == Counterpart(AltAt(cfg, 0, m), v)
  }

  /** Select 0 begins, and channel `d` is filled. */
  lemma FillsFirst(cfg: Config, reach: State -> bool, n: nat, d: nat) returns (r: State)
    requires Closed(cfg, reach) && reach(Init(cfg)) && 0 < |cfg.selects| && d < |cfg.caps| && cfg.caps[d] == Some(n)
    requires forall q :: 1 <= q < 1 + n ==> Helps(cfg, q, Send, d, false)
    ensures reach(r) && |r.sels| == |cfg.selects| && |r.chans| == |cfg.caps| && Quiet(r) && r.sels[0].pc == Submit(0)
    ensures Stuffed(cfg, r, d)
    ensures r.win[0].None? && r.chans[d].readers == [] && r.chans[d].writers == []
    ensures forall q :: 1 + n <= q < |r.sels| ==> r.sels[q].pc == Idle
    ensures forall c :: 0 <= c < |r.chans| && c != d ==> r.chans[c] == EMPTY_CHAN
  {
    var a := Step(cfg, Init(cfg), 0);
    assert reach(a);
    forall q | 1 <= q < |a.sels| ensures a.sels[q].pc == Idle { assert a.sels[q] == Init(cfg).sels[q]; }
    forall q | 1 <= q < 1 + n ensures Helps(cfg, q, Send, d, false) && a.sels[q].pc == Idle {
      assert Helps(cfg, q, Send, d, false);
    }
    r := Fills(cfg, reach, a, 1, n, d);
    forall q | 1 + n <= q < |r.sels| ensures r.sels[q].pc == Idle { assert r.sels[q] == a.sels[q]; }
  }

  /** The first write is admitted, and the buffer is full again. */
  lemma AdmitsFirst(cfg: Config, reach: State -> bool, st: State, h: nat, d: nat) returns (r: State)
    requires Closed(cfg, reach) && reach(st) && Quiet(st) && Helps(cfg, h, Recv, d, false) && st.sels[h].pc == Idle
    requires cfg.caps[d].Some?
    requires Stuffed(cfg, st, d) && st.chans[d].writers == [Node(0, 0)] && st.win[0].None?
    ensures reach(r) && Served(st, r, h, d) && Called(r, 0) && Stuffed(cfg, r, d) && r.chans[d].writers == []
  {
    if cfg.caps[d] == Some(0) {
      r := Meets(cfg, reach, st, h, Recv, d, 0);
    } else {
      r := Drains(cfg, reach, st, h, d);
    }
  }

  /** The channel is full, the first write waits, and its reader is to come. */
  ghost predicate FirstWaits(cfg: Config, st: State, x: nat, d: nat) {
    && 0 < |st.sels| == |st.win| == |cfg.selects| && |st.chans| == |cfg.caps| && 1 < x < |st.sels| && d < |st.chans|
    && Quiet(st) && Stuffed(cfg, st, d) && st.chans[d].writers == [Node(0, 0)] && st.win[0].None?
    && st.sels[0].pc == Submit(1)
    && forall q :: x - 1 <= q < |st.sels| ==> st.sels[q].pc == Idle
  }

  lemma FirstRegisters(cfg: Config, reach: State -> bool, x: nat, d: nat, v: Value) returns (r: State)
    requires SameTwice(cfg, x, d, v) && Closed(cfg, reach) && reach(Init(cfg))
    ensures reach(r) && FirstWaits(cfg, r, x, d)
  {
    var a := FillsFirst(cfg, reach, cfg.caps[d].value, d);
    r := Registers(cfg, reach, a, 0);
    forall q | x - 1 <= q < |r.sels| ensures r.sels[q].pc == Idle { assert r.sels[q] == a.sels[q]; }
  }

  lemma SameTwiceBreaks(cfg: Config, reach: State -> bool, x: nat, d: nat, v: Value) returns (r: State)
    requires SameTwice(cfg, x, d, v) && Closed(cfg, reach) && reach(Init(cfg))
    ensures reach(r) && r.health == Dangling
  {
    var a := FirstRegisters(cfg, reach, x, d, v);
    var b := AdmitsFirst(cfg, reach, a, x - 1, d);
    assert Hooked(cfg, b, x, d, 1, 0);
    forall m | 1 < m < |cfg.selects[0].alts|
      ensures cfg.selects[x + m - 1] == Counterpart(AltAt(cfg, 0, m), v) && b.sels[x + m - 1].pc == Idle
    {
      assert b.sels[x + m - 1] == a.sels[x + m - 1];
    }
    r := HookedBreaks(cfg, reach, b, x, d, 1, 0, v);
  }

  // ---------------------------------------------------------------- third act: the second alternative completes

  /** The subject has completed: it is woken and asleep, and nobody works on a channel. */
  ghost predicate Woken(cfg: Config, st: State) {
    0 < |st.sels| == |cfg.selects| && Quiet(st) && st.sels[0].pc == Parked && st.sels[0].promise.Some?
  }

  ghost predicate SameWriters(a: State, b: State) {
    |b.chans| == |a.chans| && forall c :: 0 <= c < |a.chans| ==> b.chans[c].writers == a.chans[c].writers
  }

  /** All waiting writers are still there but perhaps the first. */
  ghost predicate FirstGone(a: State, b: State) {
    && |b.chans| == |a.chans|
    && forall c :: 0 <= c < |a.chans| ==>
         b.chans[c].writers == a.chans[c].writers
           || (a.chans[c].writers != [] && b.chans[c].writers == a.chans[c].writers[1..])
  }

  lemma Publishes(cfg: Config, reach: State -> bool, st: State, k: nat) returns (r: State)
    requires Closed(cfg, reach) && reach(st) && Quiet(st) && 0 < |cfg.selects| && cfg.selects[0].waits
    requires st.sels[0].pc == Publish(k)
    ensures reach(r) && Woken(cfg, r) && SameWriters(st, r)
  {
    r := Step(cfg, st, 0);
    assert reach(r);
  }

  /** The subject has locked the channel of alternative `k`; nobody works on another. */
  ghost predicate Works(cfg: Config, st: State, k: nat, pc: Pc) {
    && 0 < |cfg.selects| == |st.sels| && |st.chans| == |cfg.caps| && cfg.selects[0].waits && k < |cfg.selects[0].alts|
    && st.health == Ok
    && AltAt(cfg, 0, k).dir != Skip && AltAt(cfg, 0, k).chan < |st.chans| && st.sels[0].pc == pc
    && forall c :: 0 <= c < |st.chans| && c != AltAt(cfg, 0, k).chan ==> st.chans[c].owner.None?
  }

  lemma TakesRoom(cfg: Config, reach: State -> bool, st: State, k: nat) returns (r: State)
    requires Closed(cfg, reach) && reach(st) && Works(cfg, st, k, Scan(k)) && !LocksItself(cfg, st, 0, k)
    requires Decide(cfg, st, 0, k) == ToBuffer
    ensures reach(r) && Woken(cfg, r) && SameWriters(st, r)
  {
    var a := Step(cfg, st, 0);
    assert reach(a) && a == PutBuffered(cfg, st, 0, k);
    r := Publishes(cfg, reach, a, k);
  }

  /** The value of a claimed partner is fetched or delivered. */
  lemma Delivers(cfg: Config, reach: State -> bool, st: State, k: nat, n: Node) returns (r: State)
    requires Closed(cfg, reach) && reach(st) && Works(cfg, st, k, Match(k, n)) && n.sel != 0
    ensures reach(r) && Woken(cfg, r) && SameWriters(st, r)
  {
    var a := Step(cfg, st, 0);
    assert reach(a) && a == MatchStep(cfg, st, 0, k, n);
    r := Publishes(cfg, reach, a, k);
  }

  lemma TakesPartner(cfg: Config, reach: State -> bool, st: State, k: nat) returns (r: State)
    requires Closed(cfg, reach) && reach(st) && Works(cfg, st, k, Scan(k)) && !LocksItself(cfg, st, 0, k)
    requires Decide(cfg, st, 0, k) == Rendezvous
    requires Opposite(AltAt(cfg, 0, k).dir, st.chans[AltAt(cfg, 0, k).chan])[0].sel != 0
    ensures reach(r) && Woken(cfg, r) && FirstGone(st, r)
  {
    var a := Step(cfg, st, 0);
    assert reach(a) && a == TakeBoth(cfg, st, 0, k);
    r := Delivers(cfg, reach, a, k, Opposite(AltAt(cfg, 0, k).dir, st.chans[AltAt(cfg, 0, k).chan])[0]);
  }

  /** A writer that waits first, if any, is available and not the subject's. */
  ghost predicate FirstIsOther(st: State, c: nat)
    requires c < |st.chans|
  {
    st.chans[c].writers != [] ==> st.chans[c].writers[0].sel != 0 && Open(st.win, st.chans[c].writers[0])
  }

  lemma StoresNext(cfg: Config, reach: State -> bool, st: State, k: nat, n: Node) returns (r: State)
    requires Closed(cfg, reach) && reach(st) && Works(cfg, st, k, Store(k, n)) && n.sel != 0
    ensures reach(r) && Woken(cfg, r) && SameWriters(st, r)
  {
    var a := Step(cfg, st, 0);
    assert reach(a) && a == StoreStep(cfg, st, 0, k, n);
    r := Publishes(cfg, reach, a, k);
  }

  lemma Refills(cfg: Config, reach: State -> bool, st: State, k: nat) returns (r: State)
    requires Closed(cfg, reach) && reach(st) && Works(cfg, st, k, Refill(k)) && FirstIsOther(st, AltAt(cfg, 0, k).chan)
    ensures reach(r) && Woken(cfg, r) && FirstGone(st, r)
  {
    var a := Step(cfg, st, 0);
    assert reach(a) && a == RefillStep(cfg, st, 0, k);
    if st.chans[AltAt(cfg, 0, k).chan].writers == [] {
      r := Publishes(cfg, reach, a, k);
    } else {
      r := StoresNext(cfg, reach, a, k, st.chans[AltAt(cfg, 0, k).chan].writers[0]);
    }
  }

  lemma TakesValue(cfg: Config, reach: State -> bool, st: State, k: nat) returns (r: State)
    requires Closed(cfg, reach) && reach(st) && Works(cfg, st, k, Scan(k)) && !LocksItself(cfg, st, 0, k)
    requires Decide(cfg, st, 0, k) == FromBuffer
    requires FirstIsOther(st, AltAt(cfg, 0, k).chan)
    ensures reach(r) && Woken(cfg, r) && FirstGone(st, r)
  {
    var a := Step(cfg, st, 0);
    assert reach(a) && a == TakeBuffered(cfg, st, 0, k);
    if cfg.caps[AltAt(cfg, 0, k).chan].Some? {
      r := Refills(cfg, reach, a, k);
    } else {
      r := Publishes(cfg, reach, a, k);
    }
  }

  /** Alternative `k` is ready, and there is nothing of the subject's in the way. */
  ghost predicate Tempting(cfg: Config, st: State, k: nat) {
    && Comes(cfg, st, k) && 0 < |st.win| && st.win[0].None?
    && var a, ch := AltAt(cfg, 0, k), st.chans[AltAt(cfg, 0, k).chan];
       && FirstIsOther(st, a.chan)
       && if a.dir == Recv then (if cfg.caps[a.chan] == Some(0) then ch.writers != [] else ch.buffer != [])
          else if cfg.caps[a.chan] == Some(0)
            then ch.readers != [] && ch.readers[0].sel != 0 && Open(st.win, ch.readers[0])
          else ch.readers == [] && !Full(cfg.caps[a.chan], ch.buffer)
  }

  lemma Completes(cfg: Config, reach: State -> bool, st: State, k: nat) returns (r: State)
    requires Closed(cfg, reach) && reach(st) && Tempting(cfg, st, k)
    ensures reach(r) && Woken(cfg, r) && FirstGone(st, r)
  {
    var a := LocksNext(cfg, reach, st, k);
    match Decide(cfg, a, 0, k) {
      case FromBuffer => r := TakesValue(cfg, reach, a, k);
      case ToBuffer => r := TakesRoom(cfg, reach, a, k);
      case _ => r := TakesPartner(cfg, reach, a, k);
    }
  }

  /** The cast for a select that begins with a write to channel `c` and goes on with a read, or a write to
      another channel: enough attempts to fill `c`, the plain write `x`, and one helper that makes the second
      alternative ready. */
  ghost predicate WriteFirst(cfg: Config, x: nat, c: nat) {
    && ConfigOk(cfg) && !cfg.intended && 0 < |cfg.selects| && 1 < |cfg.selects[0].alts| && cfg.selects[0].waits
    && AltAt(cfg, 0, 0).dir == Send && AltAt(cfg, 0, 0).chan == c && c < |cfg.caps| && cfg.caps[c].Some?
    && x == 1 + cfg.caps[c].value
    && Helps(cfg, x, Send, c, true) && (forall q :: 1 <= q < x ==> Helps(cfg, q, Send, c, false))
    && x + 1 < |cfg.selects|
    && var a := AltAt(cfg, 0, 1);
       && a.chan < |cfg.caps| && a.dir != Skip && (a.dir == Send ==> a.chan != c)
       && (a.dir == Recv ==> Helps(cfg, x + 1, Send, a.chan, cfg.caps[a.chan] == Some(0)))
       && (a.dir == Send ==> Helps(cfg, x + 1, Recv, a.chan, true))
  }

  /** The write of select 0 waits behind the plain one; nothing has happened on the other channels. */
  ghost predicate Baited(cfg: Config, st: State, x: nat, c: nat) {
    && 0 < |st.sels| == |st.win| == |cfg.selects| && |st.chans| == |cfg.caps| && 0 < x < |st.sels| - 1 && c < |st.chans|
    && Quiet(st) && st.sels[0].pc == Submit(1) && st.win[0].None? && st.win[x].None? && st.sels[x + 1].pc == Idle
    && Stuffed(cfg, st, c)
    && st.chans[c].writers == [Node(x, 0), Node(0, 0)] && st.chans[c].readers == []
    && forall e :: 0 <= e < |st.chans| && e != c ==> st.chans[e] == EMPTY_CHAN
  }

  /** The plain write waits, select 0 is to come. */
  ghost predicate Laid(cfg: Config, st: State, x: nat, c: nat) {
    && 0 < |st.sels| == |st.win| == |cfg.selects| && |st.chans| == |cfg.caps| && 0 < x < |st.sels| - 1 && c < |st.chans|
    && Quiet(st) && st.sels[0].pc == Submit(0) && st.win[0].None? && st.win[x].None? && st.sels[x + 1].pc == Idle
    && Stuffed(cfg, st, c)
    && st.chans[c].writers == [Node(x, 0)] && st.chans[c].readers == []
    && forall e :: 0 <= e < |st.chans| && e != c ==> st.chans[e] == EMPTY_CHAN
  }

  lemma LaysTheBait(cfg: Config, reach: State -> bool, x: nat, c: nat) returns (r: State)
    requires WriteFirst(cfg, x, c) && Closed(cfg, reach) && reach(Init(cfg))
    ensures reach(r) && Laid(cfg, r, x, c)
  {
    var a := FillsFirst(cfg, reach, cfg.caps[c].value, c);
    NotYet(cfg, reach, a, x);
    r := WaitsHere(cfg, reach, a, x, Send, c);
  }

  lemma Baits(cfg: Config, reach: State -> bool, x: nat, c: nat) returns (r: State)
    requires WriteFirst(cfg, x, c) && Closed(cfg, reach) && reach(Init(cfg))
    ensures reach(r) && Baited(cfg, r, x, c)
  {
    var a := LaysTheBait(cfg, reach, x, c);
    r := Registers(cfg, reach, a, 0);
  }

  /** The helper makes a read ready on a channel of its own. */
  lemma TemptsToRead(cfg: Config, reach: State -> bool, st: State, x: nat, c: nat) returns (r: State)
    requires WriteFirst(cfg, x, c) && Closed(cfg, reach) && reach(st) && Baited(cfg, st, x, c)
    requires AltAt(cfg, 0, 1).dir == Recv && AltAt(cfg, 0, 1).chan != c
    ensures reach(r) && Tempting(cfg, r, 1) && r.chans[c] == st.chans[c]
  {
    NotYet(cfg, reach, st, x + 1);
    if cfg.caps[AltAt(cfg, 0, 1).chan] == Some(0) {
      r := WaitsHere(cfg, reach, st, x + 1, Send, AltAt(cfg, 0, 1).chan);
    } else {
      r := TriesToWrite(cfg, reach, st, x + 1, AltAt(cfg, 0, 1).chan);
    }
  }

  /** A write is ready when there is room, or a plain read waits. */
  lemma TemptsToWrite(cfg: Config, reach: State -> bool, st: State, x: nat, c: nat) returns (r: State)
    requires WriteFirst(cfg, x, c) && Closed(cfg, reach) && reach(st) && Baited(cfg, st, x, c)
    requires AltAt(cfg, 0, 1).dir == Send
    ensures reach(r) && Tempting(cfg, r, 1) && r.chans[c] == st.chans[c]
  {
    NotYet(cfg, reach, st, x + 1);
    if cfg.caps[AltAt(cfg, 0, 1).chan] == Some(0) {
      r := WaitsHere(cfg, reach, st, x + 1, Recv, AltAt(cfg, 0, 1).chan);
    } else {
      r := st;
    }
  }

  lemma Tempts(cfg: Config, reach: State -> bool, st: State, x: nat, c: nat) returns (r: State)
    requires WriteFirst(cfg, x, c) && Closed(cfg, reach) && reach(st) && Baited(cfg, st, x, c)
    ensures reach(r) && Tempting(cfg, r, 1) && r.chans[c] == st.chans[c]
  {
    if AltAt(cfg, 0, 1).dir == Send {
      r := TemptsToWrite(cfg, reach, st, x, c);
    } else if AltAt(cfg, 0, 1).chan != c {
      r := TemptsToRead(cfg, reach, st, x, c);
    } else {
      r := st;
    }
  }

  lemma WriteFirstBreaks(cfg: Config, reach: State -> bool, x: nat, c: nat) returns (r: State)
    requires WriteFirst(cfg, x, c) && Closed(cfg, reach) && reach(Init(cfg))
    ensures reach(r) && r.health == Dangling
  {
    var a := Baits(cfg, reach, x, c);
    var b := Tempts(cfg, reach, a, x, c);
    var d := Completes(cfg, reach, b, 1);
    assert EndsOwn(d, c);
    r := DoomBreaks(cfg, reach, d, c);
  }
}
