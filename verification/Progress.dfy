/** Every run comes to rest, and it rests only where somebody has to come from outside. */
module Progress {
  import opened Protocol
  import opened Invariant
  import opened KeepCtl
  import opened Runs

  // ---------------------------------------------------------------- a measure of what is left to do

  /** Steps that a select of `n` alternatives still has before it, apart from popping stale nodes. */
  function Rank(pc: Pc, n: nat): int {
    match pc
    case Idle => 4 * n + 7
    case Submit(i) => n + 6 + 3 * (n - i)
    case Scan(i) => n + 5 + 3 * (n - i)
    case Refill(_) => n + 5
    case Match(_, _) => n + 4
    case Store(_, _) => n + 4
    case Publish(_) => n + 3
    case Parked => n + 2
    case Clear(j, _) => 1 + n - j
    case Done(_) => 0
  }

  /** The ranks of the first `k` selects together. */
  function Ranks(cfg: Config, xs: seq<Sel>, k: nat): (r: int)
    requires |xs| == |cfg.selects| && k <= |xs| && (forall q :: 0 <= q < |xs| ==> PcOk(cfg, q, xs[q].pc))
    ensures r >= 0
  {
    if k == 0 then 0 else
    assert PcOk(cfg, k - 1, xs[k - 1].pc);
    Ranks(cfg, xs, k - 1) + Rank(xs[k - 1].pc, |cfg.selects[k - 1].alts|)
  }

  /** The lengths of all waiting lists together. */
  function Waiting(xs: seq<Chan>): nat {
    if xs == [] then 0 else |xs[0].readers| + |xs[0].writers| + Waiting(xs[1..])
  }

  function Measure(cfg: Config, st: State): (m: nat)
    requires Shape(cfg, st)
  {
    assert forall q :: 0 <= q < |st.sels| ==> SelOk(cfg, q, st.sels[q]) ==> PcOk(cfg, q, st.sels[q].pc);
    Ranks(cfg, st.sels, |st.sels|) + Waiting(st.chans) + (if st.health == Ok then 1 else 0)
  }

  lemma {:induction false} RanksPut(cfg: Config, xs: seq<Sel>, k: nat, s: nat, x: Sel)
    requires |xs| == |cfg.selects| && s < |xs| && k <= |xs| && PcOk(cfg, s, x.pc)
    requires forall q :: 0 <= q < |xs| ==> PcOk(cfg, q, xs[q].pc)
    ensures Ranks(cfg, xs[s := x], k) == Ranks(cfg, xs, k) +
      (if s < k then Rank(x.pc, |cfg.selects[s].alts|) - Rank(xs[s].pc, |cfg.selects[s].alts|) else 0)
  {
    if k > 0 { RanksPut(cfg, xs, k - 1, s, x); }
  }

  lemma {:induction false} WaitingPut(xs: seq<Chan>, c: nat, ch: Chan)
    requires c < |xs|
    ensures Waiting(xs[c := ch]) + |xs[c].readers| + |xs[c].writers| == Waiting(xs) + |ch.readers| + |ch.writers|
  {
    if c > 0 {
      WaitingPut(xs[1..], c - 1, ch);
      assert xs[c := ch][1..] == xs[1..][c - 1 := ch];
    } else {
      assert xs[0 := ch][1..] == xs[1..];
    }
  }

  /** Only program points count: slots and promises do not. */
  lemma {:induction false} RanksSame(cfg: Config, xs: seq<Sel>, ys: seq<Sel>, k: nat)
    requires |xs| == |ys| == |cfg.selects| && k <= |xs| && (forall q :: 0 <= q < |xs| ==> xs[q].pc == ys[q].pc)
    requires forall q :: 0 <= q < |xs| ==> PcOk(cfg, q, xs[q].pc)
    ensures Ranks(cfg, xs, k) == Ranks(cfg, ys, k)
  {
    if k > 0 { RanksSame(cfg, xs, ys, k - 1); }
  }

  /** The effect of a step on the measure, from what it does to one program point and one channel. */
  lemma MeasureOf(cfg: Config, st: State, r: State, s: nat, c: nat)
    requires Shape(cfg, st) && Shape(cfg, r) && s < |st.sels|
    requires forall q :: 0 <= q < |st.sels| && q != s ==> r.sels[q].pc == st.sels[q].pc
    requires if c < |st.chans| then r.chans == st.chans[c := r.chans[c]] else r.chans == st.chans
    ensures Measure(cfg, r) - Measure(cfg, st) ==
      Rank(r.sels[s].pc, |cfg.selects[s].alts|) - Rank(st.sels[s].pc, |cfg.selects[s].alts|)
      + (if c < |st.chans|
        then |r.chans[c].readers| + |r.chans[c].writers| - |st.chans[c].readers| - |st.chans[c].writers| else 0)
      + (if r.health == Ok then 1 else 0) - (if st.health == Ok then 1 else 0)
  {
    forall q | 0 <= q < |st.sels| ensures PcOk(cfg, q, st.sels[q].pc) && PcOk(cfg, q, r.sels[q].pc) {
      assert SelOk(cfg, q, st.sels[q]) && SelOk(cfg, q, r.sels[q]);
    }
    RanksPut(cfg, st.sels, |st.sels|, s, r.sels[s]);
    RanksSame(cfg, st.sels[s := r.sels[s]], r.sels, |st.sels|);
    if c < |st.chans| { WaitingPut(st.chans, c, r.chans[c]); }
  }

  lemma {:induction false} RemoveShrinks(xs: seq<Node>, n: Node)
    ensures |Remove(xs, n)| <= |xs|
  {
    if xs != [] && xs[0] != n { RemoveShrinks(xs[1..], n); }
  }

  lemma WaitDecreases(cfg: Config, st: State, s: nat, i: nat)
    requires Shape(cfg, st) && st.health == Ok && s < |st.sels| && st.sels[s].pc == Scan(i)
    requires Decide(cfg, st, s, i) == Wait
    ensures Measure(cfg, Enlist(cfg, st, s, i)) < Measure(cfg, st)
  {
    MeasureOf(cfg, st, Enlist(cfg, st, s, i), s, AltAt(cfg, s, i).chan);
  }

  lemma QuitDecreases(cfg: Config, st: State, s: nat, i: nat)
    requires Shape(cfg, st) && st.health == Ok && s < |st.sels| && st.sels[s].pc == Scan(i)
    requires Decide(cfg, st, s, i) == Quit
    ensures Measure(cfg, GiveUp(cfg, st, s, i)) < Measure(cfg, st)
  {
    MeasureOf(cfg, st, GiveUp(cfg, st, s, i), s, AltAt(cfg, s, i).chan);
  }

  lemma FromBufferDecreases(cfg: Config, st: State, s: nat, i: nat)
    requires Shape(cfg, st) && st.health == Ok && s < |st.sels| && st.sels[s].pc == Scan(i)
    requires Decide(cfg, st, s, i) == FromBuffer
    ensures Measure(cfg, TakeBuffered(cfg, st, s, i)) < Measure(cfg, st)
  {
    MeasureOf(cfg, st, TakeBuffered(cfg, st, s, i), s, AltAt(cfg, s, i).chan);
  }

  lemma ToBufferDecreases(cfg: Config, st: State, s: nat, i: nat)
    requires Shape(cfg, st) && st.health == Ok && s < |st.sels| && st.sels[s].pc == Scan(i)
    requires Decide(cfg, st, s, i) == ToBuffer
    ensures Measure(cfg, PutBuffered(cfg, st, s, i)) < Measure(cfg, st)
  {
    MeasureOf(cfg, st, PutBuffered(cfg, st, s, i), s, AltAt(cfg, s, i).chan);
  }

  /** One list gets shorter and the program point advances or stays. */
  ghost predicate Shortens(cfg: Config, st: State, r: State, s: nat, c: nat) {
    && Shape(cfg, st) && Shape(cfg, r) && s < |st.sels| && c < |st.chans| && r.health == st.health
    && r.sels == st.sels[s := r.sels[s]] && r.chans == st.chans[c := r.chans[c]]
    && Rank(r.sels[s].pc, |cfg.selects[s].alts|) <= Rank(st.sels[s].pc, |cfg.selects[s].alts|)
    && |r.chans[c].readers| + |r.chans[c].writers| < |st.chans[c].readers| + |st.chans[c].writers|
  }

  lemma ShorterListDecreases(cfg: Config, st: State, r: State, s: nat, c: nat)
    requires Shortens(cfg, st, r, s, c)
    ensures Measure(cfg, r) < Measure(cfg, st)
  {
    MeasureOf(cfg, st, r, s, c);
  }

  lemma TookBothShortens(cfg: Config, st: State, r: State, s: nat, i: nat, n: Node, c: nat)
    requires Shape(cfg, st) && Shape(cfg, r) && s < |st.sels| && st.sels[s].pc == Scan(i)
    requires TookBoth(cfg, st, r, s, i, n, c)
    ensures Shortens(cfg, st, r, s, c)
  {}

  lemma MatchShortens(cfg: Config, st: State, s: nat, i: nat)
    requires Shape(cfg, st) && s < |st.sels| && st.sels[s].pc == Scan(i) && PcOk(cfg, s, Scan(i))
    requires AltAt(cfg, s, i).chan < |st.chans|
    requires Opposite(AltAt(cfg, s, i).dir, st.chans[AltAt(cfg, s, i).chan]) != []
    ensures Shortens(cfg, st, TakeBoth(cfg, st, s, i), s, AltAt(cfg, s, i).chan)
  {
    var c := AltAt(cfg, s, i).chan;
    TakesBothFlags(cfg, st, s, i);
    TookBothShortens(cfg, st, TakeBoth(cfg, st, s, i), s, i, Opposite(AltAt(cfg, s, i).dir, st.chans[c])[0], c);
  }

  lemma RendezvousDecreases(cfg: Config, st: State, s: nat, i: nat)
    requires Shape(cfg, st) && st.health == Ok && s < |st.sels| && st.sels[s].pc == Scan(i)
    requires Decide(cfg, st, s, i) == Rendezvous
    ensures Measure(cfg, TakeBoth(cfg, st, s, i)) < Measure(cfg, st)
  {
    MatchShortens(cfg, st, s, i);
    ShorterListDecreases(cfg, st, TakeBoth(cfg, st, s, i), s, AltAt(cfg, s, i).chan);
  }

  lemma PopShortens(cfg: Config, st: State, s: nat, c: nat, dir: Dir)
    requires Shape(cfg, st) && s < |st.sels| && c < |st.chans| && Opposite(dir, st.chans[c]) != []
    ensures Shortens(cfg, st, Pop(st, c, dir), s, c)
  {
    assert ChanOk(cfg, Pop(st, c, dir).chans[c]) by { assert ChanOk(cfg, st.chans[c]); }
  }

  lemma DropStaleDecreases(cfg: Config, st: State, s: nat, i: nat)
    requires Shape(cfg, st) && st.health == Ok && s < |st.sels| && st.sels[s].pc == Scan(i)
    requires Decide(cfg, st, s, i) == DropStale
    ensures Measure(cfg, Pop(st, AltAt(cfg, s, i).chan, AltAt(cfg, s, i).dir)) < Measure(cfg, st)
  {
    PopShortens(cfg, st, s, AltAt(cfg, s, i).chan, AltAt(cfg, s, i).dir);
    ShorterListDecreases(cfg, st, Pop(st, AltAt(cfg, s, i).chan, AltAt(cfg, s, i).dir), s, AltAt(cfg, s, i).chan);
  }

  lemma ScanDecreases(cfg: Config, st: State, s: nat, i: nat)
    requires Shape(cfg, st) && st.health == Ok && s < |st.sels| && st.sels[s].pc == Scan(i)
    ensures Measure(cfg, ScanStep(cfg, st, s, i)) < Measure(cfg, st)
  {
    match Decide(cfg, st, s, i) {
      case DropStale => DropStaleDecreases(cfg, st, s, i);
      case Rendezvous => RendezvousDecreases(cfg, st, s, i);
      case FromBuffer => FromBufferDecreases(cfg, st, s, i);
      case ToBuffer => ToBufferDecreases(cfg, st, s, i);
      case Quit => QuitDecreases(cfg, st, s, i);
      case Wait => WaitDecreases(cfg, st, s, i);
    }
  }

  lemma HandOverDecreases(cfg: Config, st: State, s: nat)
    requires Shape(cfg, st) && Enabled(cfg, st, s) && PeerOf(st.sels[s].pc).Some?
    requires PeerOf(st.sels[s].pc).value.sel != s
    ensures Measure(cfg, Step(cfg, st, s)) < Measure(cfg, st)
  {
    MeasureOf(cfg, st, Step(cfg, st, s), s, AltAt(cfg, s, st.sels[s].pc.i).chan);
  }

  lemma ClearDecreases(cfg: Config, st: State, s: nat, j: nat, t: nat)
    requires Shape(cfg, st) && st.health == Ok && s < |st.sels| && st.sels[s].pc == Clear(j, t)
    ensures Measure(cfg, ClearStep(cfg, st, s, j, t)) < Measure(cfg, st)
  {
    var c := ClearedChan(cfg, st, s, j, t);
    if c < |st.chans| {
      RemoveShrinks(st.chans[c].readers, Node(s, j));
      RemoveShrinks(st.chans[c].writers, Node(s, j));
    }
    MeasureOf(cfg, st, ClearStep(cfg, st, s, j, t), s, c);
  }

  lemma SubmitDecreases(cfg: Config, st: State, s: nat, i: nat)
    requires Shape(cfg, st) && Enabled(cfg, st, s) && st.sels[s].pc == Submit(i)
    ensures Measure(cfg, SubmitStep(cfg, st, s, i)) < Measure(cfg, st)
  {
    var c := if i < |cfg.selects[s].alts| && AltAt(cfg, s, i).dir != Skip then AltAt(cfg, s, i).chan else |st.chans|;
    MeasureOf(cfg, st, SubmitStep(cfg, st, s, i), s, c);
  }

  lemma RefillDecreases(cfg: Config, st: State, s: nat, i: nat)
    requires Shape(cfg, st) && st.health == Ok && s < |st.sels| && st.sels[s].pc == Refill(i)
    ensures Measure(cfg, RefillStep(cfg, st, s, i)) < Measure(cfg, st)
  {
    MeasureOf(cfg, st, RefillStep(cfg, st, s, i), s, AltAt(cfg, s, i).chan);
  }

  lemma OtherDecreases(cfg: Config, st: State, s: nat)
    requires Shape(cfg, st) && Enabled(cfg, st, s)
    requires var pc := st.sels[s].pc; pc.Idle? || pc.Publish? || pc.Parked?
    ensures Measure(cfg, Step(cfg, st, s)) < Measure(cfg, st)
  {
    MeasureOf(cfg, st, Step(cfg, st, s), s, |st.chans|);
  }

  /** Every step brings the system closer to rest. */
  lemma StepDecreases(cfg: Config, st: State, s: nat)
    requires Inv(cfg, st) && Enabled(cfg, st, s)
    ensures Measure(cfg, Step(cfg, st, s)) < Measure(cfg, st)
  {
    assert SelCtl(cfg, st, s);
    match st.sels[s].pc {
      case Submit(i) => SubmitDecreases(cfg, st, s, i);
      case Scan(i) => ScanDecreases(cfg, st, s, i);
      case Refill(i) => RefillDecreases(cfg, st, s, i);
      case Match(_, _) => HandOverDecreases(cfg, st, s);
      case Store(_, _) => HandOverDecreases(cfg, st, s);
      case Clear(j, t) => ClearDecreases(cfg, st, s, j, t);
      case Done(_) =>
      case _ => OtherDecreases(cfg, st, s);
    }
  }

  // ---------------------------------------------------------------- no deadlock

  /** Nobody can move. */
  ghost predicate AtRest(cfg: Config, st: State)
    requires Shape(cfg, st)
  {
    forall s :: 0 <= s < |st.sels| ==> !Enabled(cfg, st, s)
  }

  lemma NeverLocksItself(cfg: Config, st: State, s: nat, i: nat)
    requires Shape(cfg, st) && s < |st.sels| && st.sels[s].pc == Scan(i) && i < |cfg.selects[s].alts|
    requires AltAt(cfg, s, i).dir != Skip
    requires (cfg.selects[s].waits ==> NeverMeetsItself(cfg.caps, cfg.selects[s])) && SelCtl(cfg, st, s)
    requires ChanLists(cfg, st, ChanOf(cfg, s, i))
    ensures !LocksItself(cfg, st, s, i)
  {
    var a := AltAt(cfg, s, i);
    var list := Opposite(a.dir, st.chans[a.chan]);
    if list != [] && list[0].sel == s {
      assert list[0] in list && list[0].tok < i && Faces(a, AltAt(cfg, s, list[0].tok));
    }
  }

  /** Whoever holds a channel's mutex has a next step; what other locks that takes is the matter of
      `LockOrder`. */
  lemma HolderCanMove(cfg: Config, st: State, c: nat)
    requires Inv(cfg, st) && NoSelfMatch(cfg) && st.health == Ok && c < |st.chans| && st.chans[c].owner.Some?
    ensures st.chans[c].owner.value < |st.sels| && Enabled(cfg, st, st.chans[c].owner.value)
  {
    assert ChanCtl(cfg, st, c) && ChanLists(cfg, st, c);
    var q := st.chans[c].owner.value;
    assert SelCtl(cfg, st, q);
    if st.sels[q].pc.Scan? { NeverLocksItself(cfg, st, q, st.sels[q].pc.i); }
  }

  /** A thread that is not asleep and holds no mutex can go on when the mutexes are free. */
  lemma RestingPoint(cfg: Config, st: State, s: nat)
    requires Shape(cfg, st) && st.health == Ok && s < |st.sels| && SelCtl(cfg, st, s) && !Enabled(cfg, st, s)
    requires forall c :: 0 <= c < |st.chans| ==> st.chans[c].owner.None?
    ensures st.sels[s].pc.Done? || (st.sels[s].pc == Parked && st.sels[s].promise.None?)
  {}

  /** No deadlock, no lost completion: if nobody can move then every select has returned, or sleeps
      unclaimed.  A sleeper is registered with all its alternatives and none of them is ready. */
  lemma RestIsQuiet(cfg: Config, st: State, s: nat)
    requires Inv(cfg, st) && NoSelfMatch(cfg) && st.health == Ok && AtRest(cfg, st) && s < |st.sels|
    ensures st.sels[s].pc.Done? || (st.sels[s].pc == Parked && st.win[s].None?)
    ensures forall c :: 0 <= c < |st.chans| ==> Free(st, c)
  {
    forall c | 0 <= c < |st.chans| ensures Free(st, c) && st.chans[c].owner.None? {
      if st.chans[c].owner.Some? { HolderCanMove(cfg, st, c); }
    }
    assert SelCtl(cfg, st, s);
    RestingPoint(cfg, st, s);
    if st.win[s].Some? {
      var q := st.win[s].value.who;
      assert q < |st.sels| && SelCtl(cfg, st, q);
      RestingPoint(cfg, st, q);
    }
  }

  lemma {:induction false} OneMore(cfg: Config, sched: seq<nat>, s: nat)
    requires ConfigOk(cfg) && Enabled(cfg, Exec(cfg, sched), s)
    ensures Measure(cfg, Exec(cfg, sched + [s])) < Measure(cfg, Exec(cfg, sched))
  {
    AssertionsHold(cfg, sched);
    StepDecreases(cfg, Exec(cfg, sched), s);
    assert (sched + [s])[..|sched + [s]| - 1] == sched;
  }

  lemma SomebodyMoves(cfg: Config, st: State) returns (s: nat)
    requires Shape(cfg, st) && !AtRest(cfg, st)
    ensures Enabled(cfg, st, s)
  {
    s :| s < |st.sels| && Enabled(cfg, st, s);
  }

  /** Any run can be continued until nobody can move, unless the clean-up of a write breaks a list
      first; the number of steps that takes is bounded by the measure. */
  lemma {:induction false} RunsComeToRest(cfg: Config, sched: seq<nat>) returns (more: seq<nat>)
    requires ConfigOk(cfg)
    ensures AtRest(cfg, Exec(cfg, sched + more))
    ensures |more| <= Measure(cfg, Exec(cfg, sched))
    decreases Measure(cfg, Exec(cfg, sched))
  {
    if AtRest(cfg, Exec(cfg, sched)) {
      more := [];
      assert sched + more == sched;
    } else {
      var s := SomebodyMoves(cfg, Exec(cfg, sched));
      OneMore(cfg, sched, s);
      var rest := RunsComeToRest(cfg, sched + [s]);
      more := [s] + rest;
      assert sched + more == sched + [s] + rest;
    }
  }

  /** A claimed select always gets to return: whatever the run so far, it can be continued so that
      it does, or a list is broken on the way. */
  lemma {:induction false} ClaimedSelectsReturn(cfg: Config, sched: seq<nat>, s: nat) returns (more: seq<nat>)
    requires ConfigOk(cfg) && NoSelfMatch(cfg) && s < |cfg.selects| && Exec(cfg, sched).win[s].Some?
    ensures var st := Exec(cfg, sched + more);
      st.health == Ok ==> st.sels[s].pc == Done(Exec(cfg, sched).win[s].value.tok)
  {
    more := RunsComeToRest(cfg, sched);
    DecisionsAreFinal(cfg, sched, more, s);
    var st := Exec(cfg, sched + more);
    if st.health == Ok {
      assert SelCtl(cfg, st, s) && (st.sels[s].pc.Done? || st.win[s].None?) by {
        AssertionsHold(cfg, sched + more);
        RestIsQuiet(cfg, st, s);
      }
    }
  }
}
