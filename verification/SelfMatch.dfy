/**
 A waiting select that can meet its own node locks itself up for ever in some run, whatever the sizes of
 its channels' buffers.  That such selects are excluded is what freedom from deadlock needs, and no more.
 */
module SelfMatch {
  import opened Options
  import opened Protocol
  import opened Invariant
  import opened Runs
  import opened Bystanders
  import opened Stage

  // ---------------------------------------------------------------- for ever

  /** Select 0 waits for its own context mutex while it holds the mutex of a channel. */
  ghost predicate LockedUp(cfg: Config, st: State) {
    && Shape(cfg, st) && 0 < |st.sels| && st.sels[0].pc.Scan?
    && LocksItself(cfg, st, 0, st.sels[0].pc.i) && st.chans[AltAt(cfg, 0, st.sels[0].pc.i).chan].owner == Some(0)
  }

  /** Nobody can help: its channel is locked. */
  lemma LockedUpStays(cfg: Config, st: State, s: nat)
    requires Inv(cfg, st) && LockedUp(cfg, st) && Enabled(cfg, st, s)
    ensures LockedUp(cfg, Step(cfg, st, s))
  {
    OthersSpare(cfg, st, s, 0);
  }

  lemma {:induction false} LockedUpForEver(cfg: Config, sched: seq<nat>, more: seq<nat>)
    requires ConfigOk(cfg) && LockedUp(cfg, Exec(cfg, sched))
    ensures LockedUp(cfg, Exec(cfg, sched + more))
  {
    if more == [] {
      assert sched + more == sched;
    } else {
      var most, s := more[..|more| - 1], more[|more| - 1];
      LockedUpForEver(cfg, sched, most);
      AssertionsHold(cfg, sched + most);
      assert (sched + more)[..|sched + more| - 1] == sched + most && (sched + more)[|sched + more| - 1] == s;
      if Enabled(cfg, Exec(cfg, sched + most), s) { LockedUpStays(cfg, Exec(cfg, sched + most), s); }
    }
  }

  // ---------------------------------------------------------------- the first alternative that meets another

  /** Alternative `k` cannot meet the node of an earlier one. */
  ghost predicate MeetsNone(caps: seq<Option<nat>>, spec: SelectSpec, k: nat)
    requires k < |spec.alts|
  {
    forall j | 0 <= j < k && Faces(spec.alts[k], spec.alts[j]) ::
      spec.alts[k].dir == Recv && spec.alts[k].chan < |caps| && caps[spec.alts[k].chan] != Some(0)
  }

  lemma FirstMeeting(caps: seq<Option<nat>>, spec: SelectSpec) returns (i: nat)
    requires !NeverMeetsItself(caps, spec)
    ensures i < |spec.alts| && !MeetsNone(caps, spec, i) && forall k :: 0 <= k < i ==> MeetsNone(caps, spec, k)
  {
    var m: nat, j: nat :|
      && j < m < |spec.alts| && Faces(spec.alts[m], spec.alts[j])
      && !(spec.alts[m].dir == Recv && spec.alts[m].chan < |caps| && caps[spec.alts[m].chan] != Some(0));
    assert !MeetsNone(caps, spec, m);
    i := 0;
    while MeetsNone(caps, spec, i)
      invariant i <= m && forall k :: 0 <= k < i ==> MeetsNone(caps, spec, k)
      decreases |spec.alts| - i
    {
      i := i + 1;
    }
  }

  // ---------------------------------------------------------------- the scene

  /** The helpers that play before alternative `a`: they fill the buffer for a write, and empty it for a
      read.  A read may have to be repeated once more, for the value of a write of the subject itself. */
  function Before(caps: seq<Option<nat>>, a: Alt, v: Value): seq<SelectSpec> {
    if a.chan >= |caps| || caps[a.chan].None? || caps[a.chan] == Some(0) then []
    else if a.dir == Send then seq(caps[a.chan].value, _ => TryWrite(a.chan, v))
    else seq(caps[a.chan].value + 1, _ => TryRead(a.chan))
  }

  /** Those before the alternatives from `k` up to `i`. */
  function Script(caps: seq<Option<nat>>, alts: seq<Alt>, k: nat, i: nat, v: Value): seq<SelectSpec>
    requires i <= |alts|
    decreases i - k
  {
    if k >= i then [] else Before(caps, alts[k], v) + Script(caps, alts, k + 1, i, v)
  }

  /** Select 0 waits, and nobody else does. */
  ghost predicate Scene(cfg: Config) {
    ConfigOk(cfg) && 0 < |cfg.selects| && cfg.selects[0].waits
    && forall q :: 0 < q < |cfg.selects| ==> !cfg.selects[q].waits
  }

  /** The helpers from `u` on are those of the script. */
  ghost predicate Follows(cfg: Config, u: nat, script: seq<SelectSpec>) {
    0 < u && u + |script| <= |cfg.selects| && cfg.selects[u..u + |script|] == script
  }

  lemma FollowsBoth(cfg: Config, u: nat, a: seq<SelectSpec>, b: seq<SelectSpec>)
    requires Follows(cfg, u, a + b)
    ensures Follows(cfg, u, a) && Follows(cfg, u + |a|, b)
  {
    assert (a + b)[..|a|] == a && (a + b)[|a|..] == b;
    assert cfg.selects[u..u + |a|] == cfg.selects[u..u + |a + b|][..|a|];
    assert cfg.selects[u + |a|..u + |a| + |b|] == cfg.selects[u..u + |a + b|][|a|..];
  }

  /** Only select 0 has nodes in lists. */
  lemma OnlySubject(cfg: Config, st: State, c: nat)
    requires Scene(cfg) && Inv(cfg, st) && c < |st.chans|
    ensures forall n ::
      n in st.chans[c].readers ==>
      n.sel == 0 && n.tok in st.sels[0].nodes && AltAt(cfg, 0, n.tok).dir == Recv && AltAt(cfg, 0, n.tok).chan == c
    ensures forall n ::
      n in st.chans[c].writers ==>
      n.sel == 0 && n.tok in st.sels[0].nodes && AltAt(cfg, 0, n.tok).dir == Send && AltAt(cfg, 0, n.tok).chan == c
  {
    assert ChanLists(cfg, st, c);
    forall n | n in st.chans[c].readers ensures n.sel == 0 { assert SelCtl(cfg, st, n.sel); }
    forall n | n in st.chans[c].writers ensures n.sel == 0 { assert SelCtl(cfg, st, n.sel); }
  }

  /** From `a` to `b` helpers `u` to `m` may have played: the lists of unbuffered channels and all lists of
      readers are as before. */
  ghost predicate Aided(cfg: Config, a: State, b: State, u: nat, m: nat, d: nat) {
    && Quiet(a) && Quiet(b) && 0 < u && 0 < |a.sels| == |b.sels| && d < |a.chans| == |b.chans| == |cfg.caps|
    && (forall s :: 0 < s < |a.sels| && !(u <= s < m) ==> b.sels[s] == a.sels[s])
    && b.sels[0].pc == a.sels[0].pc && b.sels[0].nodes == a.sels[0].nodes
    && b.chans == a.chans[d := b.chans[d]] && b.chans[d].readers == a.chans[d].readers
    && (cfg.caps[d] == Some(0) ==> b.chans[d].writers == a.chans[d].writers)
    && (cfg.caps[d].None? ==> b.chans[d] == a.chans[d])
  }

  /** Values that reads can still find: those in the buffer, and one of the subject. */
  ghost function Supply(st: State, d: nat): nat
    requires d < |st.chans| && 0 < |st.win|
  {
    |st.chans[d].buffer| + if st.win[0].None? then 1 else 0
  }

  /** As many attempts to read as there are values empty a buffer. */
  lemma {:induction false} Empties(cfg: Config, reach: State -> bool, st: State, u: nat, n: nat, d: nat)
    returns (r: State)
    requires Scene(cfg) && Closed(cfg, reach) && reach(st) && Quiet(st) && 0 < u && d < |cfg.caps| && cfg.caps[d].Some?
    requires cfg.caps[d] != Some(0)
    requires Supply(st, d) <= n && forall q :: u <= q < u + n ==> Helps(cfg, q, Recv, d, false) && st.sels[q].pc == Idle
    ensures reach(r) && Aided(cfg, st, r, u, u + n, d) && r.chans[d].buffer == []
    decreases n
  {
    if st.chans[d].buffer == [] {
      r := st;
    } else {
      OnlySubject(cfg, st, d) by { assert Inv(cfg, st); }
      var a := Drains(cfg, reach, st, u, d);
      forall q | u + 1 <= q < u + n ensures Helps(cfg, q, Recv, d, false) && a.sels[q].pc == Idle {
        assert Helps(cfg, q, Recv, d, false);
        assert a.sels[q] == st.sels[q];
      }
      r := Empties(cfg, reach, a, u + 1, n - 1, d);
    }
  }

  // ---------------------------------------------------------------- the run

  /** Helpers of the script that come from `u` on have not begun, and nobody writes to an unbounded channel. */
  ghost predicate Ready(cfg: Config, st: State, u: nat) {
    && |st.sels| == |cfg.selects| && |st.chans| == |cfg.caps| && u <= |st.sels|
    && (forall q :: u <= q < |st.sels| ==> st.sels[q].pc == Idle)
    && (forall c :: 0 <= c < |st.chans| && cfg.caps[c].None? ==> st.chans[c].buffer == [])
  }

  lemma AidedReady(cfg: Config, a: State, b: State, u: nat, m: nat, d: nat)
    requires Aided(cfg, a, b, u, m, d) && Ready(cfg, a, u) && u <= m <= |a.sels|
    ensures Ready(cfg, b, m)
  {
    forall q | m <= q < |b.sels| ensures b.sels[q].pc == Idle { assert b.sels[q] == a.sels[q]; }
  }

  /** Without a node of its own, the subject finds nobody in a list. */
  lemma NobodyThere(cfg: Config, st: State, k: nat)
    requires Scene(cfg) && Inv(cfg, st) && Comes(cfg, st, k) && MeetsNone(cfg.caps, cfg.selects[0], k)
    ensures AltOk(cfg, cfg.selects[0], AltAt(cfg, 0, k))
    ensures var a, ch := AltAt(cfg, 0, k), st.chans[AltAt(cfg, 0, k).chan];
      && (a.dir == Send ==> ch.readers == []) && (a.dir == Recv && cfg.caps[a.chan] == Some(0) ==> ch.writers == [])
      && (cfg.caps[a.chan].Some? ==> |ch.buffer| <= cfg.caps[a.chan].value)
  {
    var a, d := AltAt(cfg, 0, k), AltAt(cfg, 0, k).chan;
    assert SelCtl(cfg, st, 0) && ChanWake(cfg, st, d);
    assert SpecOk(cfg, cfg.selects[0]);
    OnlySubject(cfg, st, d);
    var list := Opposite(a.dir, st.chans[d]);
    assert forall n :: n in list ==> n.tok < k && Faces(a, AltAt(cfg, 0, n.tok));
    assert list == [] || list[0] in list;
  }

  /** Attempts to write fill the buffer before a write. */
  lemma PreparesWrite(cfg: Config, reach: State -> bool, st: State, k: nat, u: nat, n: nat) returns (r: State)
    requires Scene(cfg) && Closed(cfg, reach) && reach(st) && Comes(cfg, st, k)
    requires MeetsNone(cfg.caps, cfg.selects[0], k) && 0 < u
    requires AltAt(cfg, 0, k).dir == Send && cfg.caps[AltAt(cfg, 0, k).chan] == Some(n)
    requires forall q :: u <= q < u + n ==> Helps(cfg, q, Send, AltAt(cfg, 0, k).chan, false) && st.sels[q].pc == Idle
    ensures reach(r) && Aided(cfg, st, r, u, u + n, AltAt(cfg, 0, k).chan) && Nothing(cfg, r, k)
  {
    NobodyThere(cfg, st, k) by { assert Inv(cfg, st); }
    r := Fills(cfg, reach, st, u, n, AltAt(cfg, 0, k).chan);
  }

  /** Attempts to read empty it before a read. */
  lemma PreparesRead(cfg: Config, reach: State -> bool, st: State, k: nat, u: nat, n: nat) returns (r: State)
    requires Scene(cfg) && Closed(cfg, reach) && reach(st) && Comes(cfg, st, k)
    requires MeetsNone(cfg.caps, cfg.selects[0], k) && 0 < u
    requires AltAt(cfg, 0, k).dir == Recv && cfg.caps[AltAt(cfg, 0, k).chan] == Some(n) && n > 0
    requires forall q ::
      u <= q < u + (n + 1) ==> Helps(cfg, q, Recv, AltAt(cfg, 0, k).chan, false) && st.sels[q].pc == Idle
    ensures reach(r) && Aided(cfg, st, r, u, u + (n + 1), AltAt(cfg, 0, k).chan) && Nothing(cfg, r, k)
  {
    NobodyThere(cfg, st, k) by { assert Inv(cfg, st); }
    r := Empties(cfg, reach, st, u, n + 1, AltAt(cfg, 0, k).chan);
  }

  /** The helpers see to it that nothing is to be had at alternative `k`. */
  lemma Prepares(cfg: Config, reach: State -> bool, st: State, k: nat, u: nat, v: Value) returns (r: State, m: nat)
    requires Scene(cfg) && Closed(cfg, reach) && reach(st) && Comes(cfg, st, k) && Ready(cfg, st, u)
    requires MeetsNone(cfg.caps, cfg.selects[0], k)
    requires Follows(cfg, u, Before(cfg.caps, AltAt(cfg, 0, k), v))
    ensures m == u + |Before(cfg.caps, AltAt(cfg, 0, k), v)| && reach(r)
    ensures Aided(cfg, st, r, u, m, AltAt(cfg, 0, k).chan) && Nothing(cfg, r, k)
  {
    var a, cap := AltAt(cfg, 0, k), cfg.caps[AltAt(cfg, 0, k).chan];
    var script := Before(cfg.caps, a, v);
    m := u + |script|;
    assert SpecOk(cfg, cfg.selects[0]) && AltOk(cfg, cfg.selects[0], a);
    forall q | u <= q < m ensures cfg.selects[q] == script[q - u] {}
    if a.dir == Send {
      r := PreparesWrite(cfg, reach, st, k, u, cap.value);
    } else if cap.Some? && cap != Some(0) {
      r := PreparesRead(cfg, reach, st, k, u, cap.value);
    } else {
      NobodyThere(cfg, st, k) by { assert Inv(cfg, st); }
      r := st;
    }
  }

  /** The subject comes to alternative `k`, the helpers from `u` on are still to come, and the node of
      alternative `j`, once there, is in its list. */
  ghost predicate Staged(cfg: Config, st: State, k: nat, u: nat, j: nat) {
    && Quiet(st) && Ready(cfg, st, u) && 0 < |st.sels| && st.sels[0].pc == Submit(k) && j < |cfg.selects[0].alts|
    && var a := AltAt(cfg, 0, j);
       && a.chan < |st.chans| && a.dir != Skip && (a.dir == Send ==> cfg.caps[a.chan] == Some(0))
       && (j < k ==> Node(0, j) in Own(a.dir, st.chans[a.chan]))
  }

  lemma AidedStaged(cfg: Config, a: State, b: State, k: nat, u: nat, m: nat, d: nat, j: nat)
    requires Staged(cfg, a, k, u, j) && Aided(cfg, a, b, u, m, d) && u <= m <= |a.sels|
    ensures Staged(cfg, b, k, m, j)
  {
    AidedReady(cfg, a, b, u, m, d);
  }

  lemma EnlistedStaged(cfg: Config, a: State, b: State, k: nat, u: nat, j: nat)
    requires Staged(cfg, a, k, u, j) && Enlisted(cfg, a, b, k) && 0 < u
    ensures Staged(cfg, b, k + 1, u, j)
  {
    var x := AltAt(cfg, 0, j);
    if j == k {
      assert Own(x.dir, b.chans[x.chan])[|Own(x.dir, a.chans[x.chan])|] == Node(0, k);
    }
  }

  /** The helpers of alternative `k` play, and the subject registers with it. */
  lemma Advances(cfg: Config, reach: State -> bool, st: State, k: nat, u: nat, j: nat, v: Value)
    returns (r: State, m: nat)
    requires Scene(cfg) && Closed(cfg, reach) && reach(st) && Staged(cfg, st, k, u, j) && k < |cfg.selects[0].alts|
    requires Follows(cfg, u, Before(cfg.caps, AltAt(cfg, 0, k), v)) && MeetsNone(cfg.caps, cfg.selects[0], k)
    ensures m == u + |Before(cfg.caps, AltAt(cfg, 0, k), v)| && reach(r) && Staged(cfg, r, k + 1, m, j)
  {
    assert SpecOk(cfg, cfg.selects[0]) && AltOk(cfg, cfg.selects[0], AltAt(cfg, 0, k));
    var a, w := Prepares(cfg, reach, st, k, u, v);
    AidedStaged(cfg, st, a, k, u, w, AltAt(cfg, 0, k).chan, j);
    r := Registers(cfg, reach, a, k);
    EnlistedStaged(cfg, a, r, k, w, j);
    m := w;
  }

  lemma {:induction false} FollowsNext(cfg: Config, u: nat, k: nat, i: nat, v: Value)
    requires 0 < |cfg.selects| && k < i <= |cfg.selects[0].alts|
    requires Follows(cfg, u, Script(cfg.caps, cfg.selects[0].alts, k, i, v))
    ensures Follows(cfg, u, Before(cfg.caps, AltAt(cfg, 0, k), v))
    ensures Follows(cfg, u
      + |Before(cfg.caps, AltAt(cfg, 0, k), v)|, Script(cfg.caps, cfg.selects[0].alts, k + 1, i, v))
  {
    FollowsBoth(cfg, u, Before(cfg.caps, AltAt(cfg, 0, k), v), Script(cfg.caps, cfg.selects[0].alts, k + 1, i, v));
  }

  /** The subject registers with one alternative after the other. */
  lemma {:induction false} RunsTo(cfg: Config, reach: State -> bool, st: State, k: nat, i: nat, u: nat, j: nat,
        v: Value)
    returns (r: State, m: nat)
    requires Scene(cfg) && Closed(cfg, reach) && reach(st) && Staged(cfg, st, k, u, j) && k <= i < |cfg.selects[0].alts|
    requires Follows(cfg, u, Script(cfg.caps, cfg.selects[0].alts, k, i, v))
    requires forall n :: 0 <= n < i ==> MeetsNone(cfg.caps, cfg.selects[0], n)
    ensures reach(r) && Staged(cfg, r, i, m, j)
    decreases i - k
  {
    if k == i {
      r, m := st, u;
    } else {
      FollowsNext(cfg, u, k, i, v);
      var a, w := Advances(cfg, reach, st, k, u, j, v);
      r, m := RunsTo(cfg, reach, a, k + 1, i, w, j, v);
    }
  }

  /** At alternative `i` it finds itself. */
  lemma FindsItself(cfg: Config, reach: State -> bool, st: State, i: nat, u: nat, j: nat) returns (r: State)
    requires Scene(cfg) && Closed(cfg, reach) && reach(st) && Staged(cfg, st, i, u, j) && j < i < |cfg.selects[0].alts|
    requires Faces(AltAt(cfg, 0, i), AltAt(cfg, 0, j))
    requires (AltAt(cfg, 0, i).dir == Recv ==> cfg.caps[AltAt(cfg, 0, i).chan] == Some(0))
    ensures reach(r) && LockedUp(cfg, r)
  {
    var list := Opposite(AltAt(cfg, 0, i).dir, st.chans[AltAt(cfg, 0, i).chan]);
    OnlySubject(cfg, st, AltAt(cfg, 0, i).chan) by { assert Inv(cfg, st); }
    assert list[0] in list;
    r := LocksNext(cfg, reach, st, i);
  }

  /** The run as a whole. */
  lemma LocksUp(cfg: Config, reach: State -> bool, i: nat, j: nat, v: Value) returns (r: State)
    requires Scene(cfg) && Closed(cfg, reach) && reach(Init(cfg)) && j < i < |cfg.selects[0].alts|
    requires Faces(AltAt(cfg, 0, i), AltAt(cfg, 0, j))
    requires (AltAt(cfg, 0, i).dir == Recv ==> cfg.caps[AltAt(cfg, 0, i).chan] == Some(0))
    requires forall n :: 0 <= n < i ==> MeetsNone(cfg.caps, cfg.selects[0], n)
    requires Follows(cfg, 1, Script(cfg.caps, cfg.selects[0].alts, 0, i, v))
    ensures reach(r) && LockedUp(cfg, r)
  {
    assert SpecOk(cfg, cfg.selects[0]) && AltOk(cfg, cfg.selects[0], AltAt(cfg, 0, j));
    var a := Step(cfg, Init(cfg), 0);
    assert reach(a);
    var b, m := RunsTo(cfg, reach, a, 0, i, 1, j, v);
    r := FindsItself(cfg, reach, b, i, m, j);
  }

  lemma BeforeIsLegal(cfg: Config, a: Alt, v: Value)
    ensures forall x :: x in Before(cfg.caps, a, v) ==> SpecOk(cfg, x) && !x.waits
  {}

  lemma {:induction false} ScriptIsLegal(cfg: Config, alts: seq<Alt>, k: nat, i: nat, v: Value)
    requires i <= |alts|
    ensures forall x :: x in Script(cfg.caps, alts, k, i, v) ==> SpecOk(cfg, x) && !x.waits
    decreases i - k
  {
    if k < i {
      ScriptIsLegal(cfg, alts, k + 1, i, v);
      BeforeIsLegal(cfg, alts[k], v);
    }
  }

  lemma {:induction false} SceneIsLegal(caps: seq<Option<nat>>, spec: SelectSpec, i: nat, v: Value)
    requires SpecOk(Config(caps, [], false), spec) && spec.waits && i <= |spec.alts|
    ensures var script := Script(caps, spec.alts, 0, i, v);
      Scene(Config(caps, [spec] + script, false)) && Follows(Config(caps, [spec] + script, false), 1, script)
  {
    var plain, cfg := Config(caps, [], false), Config(caps, [spec] + Script(caps, spec.alts, 0, i, v), false);
    forall n | 0 <= n < |spec.alts| ensures AltOk(cfg, spec, spec.alts[n]) { assert AltOk(plain, spec, spec.alts[n]); }
    ScriptIsLegal(cfg, spec.alts, 0, i, v);
    assert SpecOk(cfg, spec);
    assert cfg.selects[1..] == Script(caps, spec.alts, 0, i, v);
  }

  /** Every waiting select that can meet itself locks itself up for ever in some run, on channels of the
      given sizes, though all others are single attempts to read or to write. */
  lemma {:induction false} SelfMatchLocksUp(caps: seq<Option<nat>>, spec: SelectSpec)
    returns (cfg: Config, sched: seq<nat>)
    requires SpecOk(Config(caps, [], false), spec) && spec.waits && !NeverMeetsItself(caps, spec)
    ensures ConfigOk(cfg) && cfg.caps == caps && |cfg.selects| > 0 && cfg.selects[0] == spec
    ensures forall s :: 0 < s < |cfg.selects| ==> !cfg.selects[s].waits
    ensures forall more: seq<nat> :: LockedUp(cfg, Exec(cfg, sched + more))
  {
    var plain := Config(caps, [], false);
    var i := FirstMeeting(caps, spec);
    var j: nat :|
      && j < i && Faces(spec.alts[i], spec.alts[j])
      && !(spec.alts[i].dir == Recv && spec.alts[i].chan < |caps| && caps[spec.alts[i].chan] != Some(0));
    assert AltOk(plain, spec, spec.alts[i]) && AltOk(plain, spec, spec.alts[j]);
    var v := spec.inputs[spec.alts[if spec.alts[i].dir == Send then i else j].op].value;
    cfg := Config(caps, [spec] + Script(caps, spec.alts, 0, i, v), false);
    SceneIsLegal(caps, spec, i, v);
    ReachedIsClosed(cfg);
    var st := LocksUp(cfg, Reached(cfg), i, j, v);
    sched :| Exec(cfg, sched) == st;
    forall more: seq<nat> ensures LockedUp(cfg, Exec(cfg, sched + more)) { LockedUpForEver(cfg, sched, more); }
  }
}
