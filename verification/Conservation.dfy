/** Values are neither duplicated nor dropped. */
module Conservation {
  import opened Options
  import opened Protocol
  import opened Invariant
  import opened KeepCtl
  import opened Runs

  /** How often the value `v` occurs: in an optional, in slots, in selects, in buffers. */
  ghost function One(o: Option<Value>, v: Value): nat {
    if o == Some(v) then 1 else 0
  }

  ghost function InSlots(xs: seq<Option<Value>>, v: Value): nat {
    if xs == [] then 0 else One(xs[0], v) + InSlots(xs[1..], v)
  }

  ghost function InSel(x: Sel, v: Value): nat {
    InSlots(x.slots, v) + One(x.result, v)
  }

  ghost function InSels(xs: seq<Sel>, v: Value): nat {
    if xs == [] then 0 else InSel(xs[0], v) + InSels(xs[1..], v)
  }

  ghost function InBuffer(xs: seq<Value>, v: Value): nat {
    multiset(xs)[v]
  }

  ghost function InBuffers(xs: seq<Chan>, v: Value): nat {
    if xs == [] then 0 else InBuffer(xs[0].buffer, v) + InBuffers(xs[1..], v)
  }

  /** How often `v` occurs in the whole system. */
  ghost function Occurrences(st: State, v: Value): nat {
    InSels(st.sels, v) + InBuffers(st.chans, v)
  }

  lemma {:induction false} SlotPut(xs: seq<Option<Value>>, i: nat, o: Option<Value>, v: Value)
    requires i < |xs|
    ensures InSlots(xs[i := o], v) + One(xs[i], v) == InSlots(xs, v) + One(o, v)
  {
    if i > 0 {
      SlotPut(xs[1..], i - 1, o, v);
      assert xs[i := o][1..] == xs[1..][i - 1 := o];
    } else {
      assert xs[0 := o][1..] == xs[1..];
    }
  }

  lemma {:induction false} SelPut(xs: seq<Sel>, i: nat, x: Sel, v: Value)
    requires i < |xs|
    ensures InSels(xs[i := x], v) + InSel(xs[i], v) == InSels(xs, v) + InSel(x, v)
  {
    if i > 0 {
      SelPut(xs[1..], i - 1, x, v);
      assert xs[i := x][1..] == xs[1..][i - 1 := x];
    } else {
      assert xs[0 := x][1..] == xs[1..];
    }
  }

  lemma {:induction false} ChanPut(xs: seq<Chan>, i: nat, ch: Chan, v: Value)
    requires i < |xs|
    ensures InBuffers(xs[i := ch], v) + InBuffer(xs[i].buffer, v) == InBuffers(xs, v) + InBuffer(ch.buffer, v)
  {
    if i > 0 {
      ChanPut(xs[1..], i - 1, ch, v);
      assert xs[i := ch][1..] == xs[1..][i - 1 := ch];
    } else {
      assert xs[0 := ch][1..] == xs[1..];
    }
  }

  /** Steps that touch no slot, no result and no buffer. */
  lemma NothingMoves(st: State, r: State, s: nat, c: nat, v: Value)
    requires |r.sels| == |st.sels| && |r.chans| == |st.chans| && s < |st.sels|
    requires r.sels == st.sels[s := r.sels[s]] && r.sels[s].slots == st.sels[s].slots
    requires r.sels[s].result == st.sels[s].result
    requires if c < |st.chans| then r.chans == st.chans[c := r.chans[c]] && r.chans[c].buffer == st.chans[c].buffer
      else r.chans == st.chans
    ensures Occurrences(r, v) == Occurrences(st, v)
  {
    SelPut(st.sels, s, r.sels[s], v);
    if c < |st.chans| { ChanPut(st.chans, c, r.chans[c], v); }
  }

  lemma FromBufferConserves(cfg: Config, st: State, s: nat, i: nat, v: Value)
    requires Shape(cfg, st) && s < |st.sels| && st.sels[s].pc == Scan(i) && st.chans[AltAt(cfg, s, i).chan].buffer != []
    ensures Occurrences(TakeBuffered(cfg, st, s, i), v) == Occurrences(st, v)
  {
    var a := AltAt(cfg, s, i);
    var r, x, b := TakeBuffered(cfg, st, s, i), st.sels[s], st.chans[a.chan].buffer;
    if x.slots[a.op].None? {
      assert InBuffer(b, v) == One(Some(b[0]), v) + InBuffer(b[1..], v) by { assert b == [b[0]] + b[1..]; }
      SlotPut(x.slots, a.op, Some(b[0]), v);
      SelPut(st.sels, s, r.sels[s], v);
      ChanPut(st.chans, a.chan, r.chans[a.chan], v);
    }
  }

  lemma ToBufferConserves(cfg: Config, st: State, s: nat, i: nat, v: Value)
    requires Shape(cfg, st) && s < |st.sels| && st.sels[s].pc == Scan(i)
    ensures Occurrences(PutBuffered(cfg, st, s, i), v) == Occurrences(st, v)
  {
    var a := AltAt(cfg, s, i);
    var r, x := PutBuffered(cfg, st, s, i), st.sels[s];
    if x.slots[a.op].Some? {
      SlotPut(x.slots, a.op, None, v);
      SelPut(st.sels, s, r.sels[s], v);
      ChanPut(st.chans, a.chan, r.chans[a.chan], v);
    }
  }

  lemma ScanConserves(cfg: Config, st: State, s: nat, i: nat, v: Value)
    requires Shape(cfg, st) && s < |st.sels| && st.sels[s].pc == Scan(i)
    ensures Occurrences(ScanStep(cfg, st, s, i), v) == Occurrences(st, v)
  {
    match Decide(cfg, st, s, i) {
      case FromBuffer => FromBufferConserves(cfg, st, s, i, v);
      case ToBuffer => ToBufferConserves(cfg, st, s, i, v);
      case _ => NothingMoves(st, ScanStep(cfg, st, s, i), s, AltAt(cfg, s, i).chan, v);
    }
  }

  lemma MatchConserves(cfg: Config, st: State, s: nat, i: nat, n: Node, v: Value)
    requires Shape(cfg, st) && s < |st.sels| && st.sels[s].pc == Match(i, n) && n.sel != s
    ensures Occurrences(MatchStep(cfg, st, s, i, n), v) == Occurrences(st, v)
  {
    var r := MatchStep(cfg, st, s, i, n);
    if r != Fail(st) {
      var a, b := AltAt(cfg, s, i), AltAt(cfg, n.sel, n.tok);
      var x, y := st.sels[s], st.sels[n.sel];
      SlotPut(x.slots, a.op, y.slots[b.op], v);
      SlotPut(y.slots, b.op, x.slots[a.op], v);
      SelPut(st.sels, s, r.sels[s], v);
      SelPut(st.sels[s := r.sels[s]], n.sel, r.sels[n.sel], v);
      ChanPut(st.chans, a.chan, r.chans[a.chan], v);
    }
  }

  lemma StoreConserves(cfg: Config, st: State, s: nat, i: nat, n: Node, v: Value)
    requires Shape(cfg, st) && s < |st.sels| && st.sels[s].pc == Store(i, n) && n.sel != s
    ensures Occurrences(StoreStep(cfg, st, s, i, n), v) == Occurrences(st, v)
  {
    var r := StoreStep(cfg, st, s, i, n);
    if r != Fail(st) {
      var a, b := AltAt(cfg, s, i), AltAt(cfg, n.sel, n.tok);
      SlotPut(st.sels[n.sel].slots, b.op, None, v);
      SelPut(st.sels, s, r.sels[s], v);
      SelPut(st.sels[s := r.sels[s]], n.sel, r.sels[n.sel], v);
      ChanPut(st.chans, a.chan, r.chans[a.chan], v);
    }
  }

  /** Taking the result moves the value out of the slot. */
  lemma ResultConserves(cfg: Config, st: State, s: nat, t: nat, pc: Pc, v: Value)
    requires Shape(cfg, st) && s < |st.sels| && t < |cfg.selects[s].alts| && st.sels[s].result.None?
    ensures Occurrences(PutSel(st, s, GetResult(cfg, s, st.sels[s], t).(pc := pc)), v) == Occurrences(st, v)
  {
    var x := GetResult(cfg, s, st.sels[s], t).(pc := pc);
    SlotPut(st.sels[s].slots, AltAt(cfg, s, t).op, None, v);
    SelPut(st.sels, s, x, v);
  }

  lemma QuietConserves(cfg: Config, st: State, s: nat, v: Value)
    requires Shape(cfg, st) && Enabled(cfg, st, s)
    requires st.sels[s].pc.Idle? || st.sels[s].pc.Submit? || st.sels[s].pc.Refill? || st.sels[s].pc.Clear?
    ensures Occurrences(Step(cfg, st, s), v) == Occurrences(st, v)
  {
    var c := match st.sels[s].pc
      case Submit(i) =>
        if i < |cfg.selects[s].alts| && AltAt(cfg, s, i).dir != Skip then AltAt(cfg, s, i).chan else |st.chans|
      case Refill(i) => AltAt(cfg, s, i).chan
      case Clear(j, t) => ClearedChan(cfg, st, s, j, t)
      case _ => |st.chans|;
    NothingMoves(st, Step(cfg, st, s), s, c, v);
  }

  lemma PublishConserves(cfg: Config, st: State, s: nat, i: nat, v: Value)
    requires Shape(cfg, st) && s < |st.sels| && st.sels[s].pc == Publish(i) && st.sels[s].result.None?
    ensures Occurrences(PublishStep(cfg, st, s, i), v) == Occurrences(st, v)
  {
    if cfg.selects[s].waits {
      NothingMoves(st, PublishStep(cfg, st, s, i), s, |st.chans|, v);
    } else {
      ResultConserves(cfg, st, s, i, Done(i), v);
    }
  }

  lemma StepConserves(cfg: Config, st: State, s: nat, v: Value)
    requires Inv(cfg, st) && Enabled(cfg, st, s)
    ensures Occurrences(Step(cfg, st, s), v) == Occurrences(st, v)
  {
    assert SelCtl(cfg, st, s);
    match st.sels[s].pc {
      case Scan(i) => ScanConserves(cfg, st, s, i, v);
      case Match(i, n) => MatchConserves(cfg, st, s, i, n, v);
      case Store(i, n) => StoreConserves(cfg, st, s, i, n, v);
      case Publish(i) => PublishConserves(cfg, st, s, i, v);
      case Parked => ResultConserves(cfg, st, s, st.sels[s].promise.value, Clear(0, st.sels[s].promise.value), v);
      case _ => QuietConserves(cfg, st, s, v);
    }
  }

  /** How many of the selects' writes were given `v`. */
  ghost function Given(selects: seq<SelectSpec>, v: Value): nat {
    if selects == [] then 0 else multiset(selects[0].inputs)[Some(v)] + Given(selects[1..], v)
  }

  lemma {:induction false} SlotsHold(xs: seq<Option<Value>>, v: Value)
    ensures InSlots(xs, v) == multiset(xs)[Some(v)]
  {
    if xs != [] {
      SlotsHold(xs[1..], v);
      assert xs == [xs[0]] + xs[1..];
    }
  }

  /** Selects that have not begun hold what they were given. */
  lemma {:induction false} GivenAtFirst(selects: seq<SelectSpec>, sels: seq<Sel>, v: Value)
    requires |sels| == |selects|
    requires forall s :: 0 <= s < |sels| ==> sels[s].slots == selects[s].inputs && sels[s].result.None?
    ensures InSels(sels, v) == Given(selects, v)
  {
    if sels != [] {
      GivenAtFirst(selects[1..], sels[1..], v);
      SlotsHold(sels[0].slots, v);
    }
  }

  lemma {:induction false} NothingBuffered(chans: seq<Chan>, v: Value)
    requires forall c :: 0 <= c < |chans| ==> chans[c].buffer == []
    ensures InBuffers(chans, v) == 0
  {
    if chans != [] { NothingBuffered(chans[1..], v); }
  }

  /** Conservation: at any time the values in slots, results and buffers are those that the writes
      of the configuration were given; nothing is duplicated, nothing is lost. */
  lemma {:induction false} ValuesAreConserved(cfg: Config, sched: seq<nat>, v: Value)
    requires ConfigOk(cfg)
    ensures Occurrences(Exec(cfg, sched), v) == Given(cfg.selects, v)
  {
    if sched == [] {
      GivenAtFirst(cfg.selects, Init(cfg).sels, v);
      NothingBuffered(Init(cfg).chans, v);
    } else {
      ValuesAreConserved(cfg, sched[..|sched| - 1], v);
      AssertionsHold(cfg, sched[..|sched| - 1]);
      var st, s := Exec(cfg, sched[..|sched| - 1]), sched[|sched| - 1];
      if Enabled(cfg, st, s) { StepConserves(cfg, st, s, v); }
    }
  }

  /** The select was claimed for an alternative of op `o`. */
  ghost predicate WonWith(cfg: Config, st: State, s: nat, o: nat)
    requires Shape(cfg, st) && s < |st.sels|
  {
    st.win[s].Some? && st.win[s].value.tok < |cfg.selects[s].alts| && AltAt(cfg, s, st.win[s].value.tok).op == o
  }

  /** Where a write's value is: in its own slot as long as its select has not handed it over, for
      good if the select completes with another operation; and nowhere else of its own. */
  lemma {:induction false} LosersKeepTheirValues(cfg: Config, sched: seq<nat>, s: nat, o: nat)
    requires ConfigOk(cfg) && s < |cfg.selects| && o < |cfg.selects[s].inputs|
    ensures var st := Exec(cfg, sched);
            !WonWith(cfg, st, s, o) ==> st.sels[s].slots[o] == cfg.selects[s].inputs[o]
    ensures var st := Exec(cfg, sched);
            WonWith(cfg, st, s, o) && cfg.selects[s].inputs[o].Some? && st.sels[s].pc.Done? ==>
              st.sels[s].slots[o].None?
  {
    var st := Exec(cfg, sched);
    assert SlotRight(cfg, st, s, o) && SelCtl(cfg, st, s) by {
      AssertionsHold(cfg, sched);
      assert SelSlots(cfg, st, s);
    }
  }
}
