/**
 What the locks are for.  A flag is looked at and taken only with its context's mutex, lists and buffers
 change only with the channel's, wait states only with the submit mutex.
 */
module LockUse {
  import opened Options
  import opened Protocol
  import opened Invariant
  import opened KeepCtl
  import opened Bystanders
  import opened Locks

  // ---------------------------------------------------------------- flags are taken under their mutexes

  /** A step takes only flags of waiting selects among the contexts that it locks. */
  lemma ClaimsInContexts(cfg: Config, st: State, s: nat, x: nat)
    requires Shape(cfg, st) && Enabled(cfg, st, s) && SelCtl(cfg, st, s) && x < |st.win| && cfg.selects[x].waits
    requires Step(cfg, st, s).win[x] != st.win[x]
    ensures x in Contexts(cfg, st, s)
  {
    assert SpecOk(cfg, cfg.selects[s]);
  }

  /** A move that is a step of the protocol, as such. */
  lemma MoveSteps(cfg: Config, f: Fine, a: Agent)
    requires FineInv(cfg, f) && FineEnabled(cfg, f, a) && Acts(cfg, f, a)
    ensures Enabled(cfg, f.st, a.sel) && FineStep(cfg, f, a).st == Step(cfg, f.st, a.sel) && SelCtl(cfg, f.st, a.sel)
  {
    match a {
      case Submitter(s) => SubmitterActs(cfg, f, s);
      case Resumer(s) => ResumerActs(cfg, f, s);
    }
  }

  /** Whoever takes a flag holds its mutex. */
  lemma FlagsFallUnderMutex(cfg: Config, f: Fine, a: Agent, x: nat)
    requires FineInv(cfg, f) && FineEnabled(cfg, f, a) && x < |f.st.win| && cfg.selects[x].waits
    ensures var w := FineStep(cfg, f, a).st.win;
      |w| == |f.st.win| && (w[x] != f.st.win[x] ==> Held(f, a, ContextMutex(x)))
  {
    MoveKeeps(cfg, f, a);
    if FineStep(cfg, f, a).st.win[x] != f.st.win[x] {
      assert Acts(cfg, f, a) by { if !Acts(cfg, f, a) { LockMoves(cfg, f, a); } }
      MoveSteps(cfg, f, a);
      assert SubmitOk(cfg, f, a.sel);
      ClaimsInContexts(cfg, f.st, a.sel, x);
    }
  }

  // ---------------------------------------------------------------- and looked at under them

  /** The flags outside the contexts that the next step of `s` locks are different ones. */
  ghost predicate OtherFlags(cfg: Config, st: State, s: nat, w: seq<Option<Claim>>)
    requires Shape(cfg, st) && s < |st.sels|
  {
    |w| == |st.win|
    && forall x :: 0 <= x < |w| && (x in Contexts(cfg, st, s) || !cfg.selects[x].waits) ==> w[x] == st.win[x]
  }

  /** From `st` to `r`, and from the same with flags `w` to `q`, the same happened. */
  ghost predicate SameHappened(st: State, r: State, w: seq<Option<Claim>>, q: State) {
    && q == r.(win := q.win) && |q.win| == |r.win| == |st.win| == |w|
    && forall x :: 0 <= x < |w| ==> q.win[x] == if r.win[x] == st.win[x] then w[x] else r.win[x]
  }

  lemma DecidesAlike(cfg: Config, st: State, s: nat, i: nat, w: seq<Option<Claim>>)
    requires Here(cfg, st, s, Scan(i)) && OtherFlags(cfg, st, s, w) && Shape(cfg, st.(win := w))
    ensures Decide(cfg, st.(win := w), s, i) == Decide(cfg, st, s, i)
  {}

  lemma ScansAlike(cfg: Config, st: State, s: nat, i: nat, w: seq<Option<Claim>>)
    requires Here(cfg, st, s, Scan(i)) && OtherFlags(cfg, st, s, w) && Shape(cfg, st.(win := w))
    ensures SameHappened(st, ScanStep(cfg, st, s, i), w, ScanStep(cfg, st.(win := w), s, i))
  {
    DecidesAlike(cfg, st, s, i, w);
  }

  lemma RefillsAlike(cfg: Config, st: State, s: nat, i: nat, w: seq<Option<Claim>>)
    requires Here(cfg, st, s, Refill(i)) && OtherFlags(cfg, st, s, w) && Shape(cfg, st.(win := w))
    ensures SameHappened(st, RefillStep(cfg, st, s, i), w, RefillStep(cfg, st.(win := w), s, i))
  {}

  /** Hand-overs and clean-ups look at no flag at all. */
  lemma RestAlike(cfg: Config, st: State, s: nat, w: seq<Option<Claim>>)
    requires Shape(cfg, st) && Enabled(cfg, st, s) && !st.sels[s].pc.Scan? && !st.sels[s].pc.Refill?
    requires OtherFlags(cfg, st, s, w) && Shape(cfg, st.(win := w)) && Enabled(cfg, st.(win := w), s)
    ensures SameHappened(st, Step(cfg, st, s), w, Step(cfg, st.(win := w), s))
  {}

  /** A step looks at no flag of a waiting select but those of the contexts that it locks. */
  lemma StepsAlike(cfg: Config, st: State, s: nat, w: seq<Option<Claim>>)
    requires Shape(cfg, st) && Enabled(cfg, st, s) && SelCtl(cfg, st, s) && OtherFlags(cfg, st, s, w)
    ensures Shape(cfg, st.(win := w)) && Enabled(cfg, st.(win := w), s)
    ensures SameHappened(st, Step(cfg, st, s), w, Step(cfg, st.(win := w), s))
  {
    match st.sels[s].pc {
      case Scan(i) => ScansAlike(cfg, st, s, i, w);
      case Refill(i) => RefillsAlike(cfg, st, s, i, w);
      case _ => RestAlike(cfg, st, s, w);
    }
  }

  /** The flags whose mutexes the agent does not hold are different ones. */
  ghost predicate UnseenFlags(cfg: Config, f: Fine, a: Agent, w: seq<Option<Claim>>)
    requires FineShape(cfg, f)
  {
    && |w| == |f.st.win|
    && forall x :: 0 <= x < |w| && (Held(f, a, ContextMutex(x)) || !cfg.selects[x].waits) ==> w[x] == f.st.win[x]
  }

  ghost function WithFlags(f: Fine, w: seq<Option<Claim>>): Fine {
    f.(st := f.st.(win := w))
  }

  /** Which moves are possible, and which of them are steps of the protocol, depends on no flag. */
  lemma EnabledAlike(cfg: Config, f: Fine, a: Agent, w: seq<Option<Claim>>)
    requires FineShape(cfg, f) && FineEnabled(cfg, f, a) && |w| == |f.st.win|
    ensures FineShape(cfg, WithFlags(f, w)) && FineEnabled(cfg, WithFlags(f, w), a)
    ensures Acts(cfg, WithFlags(f, w), a) == Acts(cfg, f, a)
  {
    assert Contexts(cfg, WithFlags(f, w).st, a.sel) == Contexts(cfg, f.st, a.sel);
  }

  /** A move that takes locks or lets go of them looks at no flag. */
  lemma LockMovesAlike(cfg: Config, f: Fine, a: Agent, w: seq<Option<Claim>>)
    requires FineShape(cfg, f) && FineEnabled(cfg, f, a) && !Acts(cfg, f, a) && |w| == |f.st.win|
    requires FineShape(cfg, WithFlags(f, w)) && FineEnabled(cfg, WithFlags(f, w), a)
    ensures FineStep(cfg, f, a).st == f.st && FineStep(cfg, WithFlags(f, w), a) == WithFlags(FineStep(cfg, f, a), w)
  {
    assert Contexts(cfg, WithFlags(f, w).st, a.sel) == Contexts(cfg, f.st, a.sel);
  }

  /** A move that is a step of the protocol does the rest alike if the step does. */
  lemma ActsAlike(cfg: Config, f: Fine, a: Agent, w: seq<Option<Claim>>)
    requires FineShape(cfg, f) && FineEnabled(cfg, f, a) && Acts(cfg, f, a) && Enabled(cfg, f.st, a.sel)
    requires |w| == |f.st.win|
    requires FineShape(cfg, WithFlags(f, w)) && FineEnabled(cfg, WithFlags(f, w), a) && Acts(cfg, WithFlags(f, w), a)
    requires Enabled(cfg, WithFlags(f, w).st, a.sel)
    ensures FineStep(cfg, f, a).st == Step(cfg, f.st, a.sel)
    ensures FineStep(cfg, WithFlags(f, w), a) == FineStep(cfg, f, a).(st := Step(cfg, WithFlags(f, w).st, a.sel))
  {}

  /** An agent that makes a step of the protocol holds the contexts of that step. */
  lemma ActingHolds(cfg: Config, f: Fine, a: Agent, w: seq<Option<Claim>>)
    requires FineInv(cfg, f) && FineEnabled(cfg, f, a) && Acts(cfg, f, a) && UnseenFlags(cfg, f, a, w)
    ensures OtherFlags(cfg, f.st, a.sel, w)
  {
    assert SubmitOk(cfg, f, a.sel);
  }

  /** Whoever looks at a flag holds its mutex: whatever the other flags are, the agent's move is the same,
      and leaves them as they are. */
  lemma FlagsSeenUnderMutex(cfg: Config, f: Fine, a: Agent, w: seq<Option<Claim>>)
    requires FineInv(cfg, f) && FineEnabled(cfg, f, a) && UnseenFlags(cfg, f, a, w)
    ensures FineShape(cfg, WithFlags(f, w)) && FineEnabled(cfg, WithFlags(f, w), a)
    ensures var g, h := FineStep(cfg, f, a), FineStep(cfg, WithFlags(f, w), a);
      SameHappened(f.st, g.st, w, h.st) && h == g.(st := h.st)
  {
    EnabledAlike(cfg, f, a, w);
    if Acts(cfg, f, a) {
      MoveSteps(cfg, f, a);
      ActingHolds(cfg, f, a, w);
      StepsAlike(cfg, f.st, a.sel, w);
      ActsAlike(cfg, f, a, w);
    } else {
      LockMovesAlike(cfg, f, a, w);
    }
  }

  // ---------------------------------------------------------------- lists, buffers, wait states

  lemma ScanTouchesItsOwn(cfg: Config, st: State, s: nat, i: nat, c: nat)
    requires Here(cfg, st, s, Scan(i)) && c < |st.chans| && c != ChanOf(cfg, s, i)
    ensures ScanStep(cfg, st, s, i).chans[c] == st.chans[c]
  {}

  lemma WhoTouchesChannels(cfg: Config, st: State, s: nat, c: nat)
    requires Shape(cfg, st) && Enabled(cfg, st, s) && SelCtl(cfg, st, s) && c < |st.chans|
    requires Step(cfg, st, s).chans[c].(owner := None) != st.chans[c].(owner := None)
    ensures if st.sels[s].pc.Clear? then Free(st, c) else st.chans[c].owner == Some(s)
  {
    if st.sels[s].pc.Scan? && c != ChanOf(cfg, s, st.sels[s].pc.i) {
      ScanTouchesItsOwn(cfg, st, s, st.sels[s].pc.i, c);
    }
  }

  /** Lists and buffer of a channel change only while its mutex is held: by the thread that took it, or, in
      the one-step `clear_wait`, by a coroutine that found it free. */
  lemma ChannelsChangeUnderMutex(cfg: Config, f: Fine, a: Agent, c: nat)
    requires FineInv(cfg, f) && FineEnabled(cfg, f, a) && c < |f.st.chans|
    ensures var chans := FineStep(cfg, f, a).st.chans;
      && |chans| == |f.st.chans|
      && (chans[c].(owner := None) != f.st.chans[c].(owner := None) ==>
            Held(f, a, ChanMutex(c)) || (a.Resumer? && f.st.sels[a.sel].pc.Clear? && Free(f.st, c)))
  {
    MoveKeeps(cfg, f, a);
    if FineStep(cfg, f, a).st.chans[c].(owner := None) != f.st.chans[c].(owner := None) {
      assert Acts(cfg, f, a) by { if !Acts(cfg, f, a) { LockMoves(cfg, f, a); } }
      MoveSteps(cfg, f, a);
      WhoTouchesChannels(cfg, f.st, a.sel, c);
    }
  }

  lemma WhoTouchesWaitStates(cfg: Config, st: State, s: nat)
    requires Shape(cfg, st) && Enabled(cfg, st, s) && SelCtl(cfg, st, s) && cfg.selects[s].waits
    requires var x, y := st.sels[s], Step(cfg, st, s).sels[s]; y.nodes != x.nodes || y.result != x.result
    ensures st.sels[s].pc.Scan? || st.sels[s].pc.Parked?
  {}

  /** The wait states and the result of a select that waits change only under its submit mutex. */
  lemma WaitStatesChangeUnderMutex(cfg: Config, f: Fine, a: Agent, s: nat)
    requires FineInv(cfg, f) && FineEnabled(cfg, f, a) && s < |f.st.sels| && cfg.selects[s].waits
    ensures var x, sels := f.st.sels[s], FineStep(cfg, f, a).st.sels;
      && |sels| == |f.st.sels|
      && (sels[s].nodes != x.nodes || sels[s].result != x.result ==> Held(f, a, SubmitMutex(s)))
  {
    MoveKeeps(cfg, f, a);
    var x, y := f.st.sels[s], FineStep(cfg, f, a).st.sels[s];
    if y.nodes != x.nodes || y.result != x.result {
      assert Acts(cfg, f, a) by { if !Acts(cfg, f, a) { LockMoves(cfg, f, a); } }
      MoveSteps(cfg, f, a);
      if a.sel != s { OthersSpare(cfg, f.st, a.sel, s); }
      WhoTouchesWaitStates(cfg, f.st, a.sel);
      assert SubmitOk(cfg, f, s);
    }
  }
}
