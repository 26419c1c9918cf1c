/** Runs with the locks one by one come to rest, and a coroutine that returns leaves nothing behind. */
module LockRuns {
  import opened Options
  import opened Descent
  import opened Protocol
  import opened Invariant
  import opened Runs
  import opened Progress
  import opened Locks
  import opened LockOrder

  // ---------------------------------------------------------------- a measure of what is left to do

  /** The submitter of `s` holds no context. */
  ghost predicate EmptyHanded(context: seq<Option<Agent>>, s: nat) {
    forall x :: 0 <= x < |context| ==> context[x] != Some(Submitter(s))
  }

  /** Moves of the two agents of `s` that may lie between two steps of the protocol. */
  ghost function Moves(f: Fine, s: nat): nat
    requires s < |f.submit| == |f.phase|
  {
    (if f.submit[s] == Some(Submitter(s)) then 1 else 0)
    + (if EmptyHanded(f.context, s) then 1 else 0)
    + (match f.phase[s] case Asleep => 3 case AtLock => 2 case Inside => 1 case Gone => 0)
  }

  ghost function AllMoves(f: Fine, k: nat): nat
    requires k <= |f.submit| == |f.phase|
  {
    if k == 0 then 0 else AllMoves(f, k - 1) + Moves(f, k - 1)
  }

  ghost function FineMeasure(cfg: Config, f: Fine): nat
    requires FineShape(cfg, f)
  {
    3 * Measure(cfg, f.st) + AllMoves(f, |f.submit|)
  }

  lemma {:induction false} AllMovesBut(f: Fine, g: Fine, k: nat, s: nat)
    requires k <= |f.submit| == |f.phase| == |g.submit| == |g.phase| && s < |f.submit|
    requires forall q :: 0 <= q < |f.submit| && q != s ==> Moves(g, q) == Moves(f, q)
    ensures AllMoves(g, k) - AllMoves(f, k) == if s < k then Moves(g, s) - Moves(f, s) else 0
  {
    if k > 0 { AllMovesBut(f, g, k - 1, s); }
  }

  lemma OthersMoves(cfg: Config, f: Fine, a: Agent, q: nat)
    requires FineInv(cfg, f) && FineEnabled(cfg, f, a) && q < |f.submit| && q != a.sel
    ensures Moves(FineStep(cfg, f, a), q) == Moves(f, q)
  {
    var g := FineStep(cfg, f, a);
    assert SubmitOk(cfg, f, a.sel);
    assert |g.context| == |f.context|;
    assert forall x ::
      0 <= x < |f.context| ==> (f.context[x] == Some(Submitter(q)) <==> g.context[x] == Some(Submitter(q)));
  }

  /** Taking contexts, one has some. */
  lemma TakingFills(cfg: Config, f: Fine, s: nat)
    requires FineInv(cfg, f) && s < |f.st.sels| && TakesContexts(cfg, f, s)
    ensures EmptyHanded(f.context, s) && !EmptyHanded(TakeAll(f.context, Contexts(cfg, f.st, s), s), s)
  {
    ContextsExist(cfg, f.st, s);
    forall x | 0 <= x < |f.context| ensures f.context[x] != Some(Submitter(s)) { assert ContextOk(cfg, f, x); }
    var x :| x in Contexts(cfg, f.st, s);
    assert TakeAll(f.context, Contexts(cfg, f.st, s), s)[x] == Some(Submitter(s));
  }

  /** Every move counts. */
  lemma OwnMoves(cfg: Config, f: Fine, a: Agent)
    requires FineInv(cfg, f) && FineEnabled(cfg, f, a)
    ensures Moves(FineStep(cfg, f, a), a.sel) <= Moves(f, a.sel) + 2
    ensures !Acts(cfg, f, a) ==> Moves(FineStep(cfg, f, a), a.sel) < Moves(f, a.sel)
  {
    assert SubmitOk(cfg, f, a.sel);
    if a.Submitter? && !Leaves(cfg, f, a.sel) && !f.st.sels[a.sel].pc.Idle? && TakesContexts(cfg, f, a.sel) {
      TakingFills(cfg, f, a.sel);
    }
  }

  lemma ActingDecreases(cfg: Config, f: Fine, a: Agent)
    requires FineInv(cfg, f) && FineEnabled(cfg, f, a) && Acts(cfg, f, a)
    ensures Shape(cfg, FineStep(cfg, f, a).st) && Measure(cfg, FineStep(cfg, f, a).st) < Measure(cfg, f.st)
  {
    match a {
      case Submitter(s) => SubmitterActs(cfg, f, s); StepDecreases(cfg, f.st, s);
      case Resumer(s) => ResumerActs(cfg, f, s); StepDecreases(cfg, f.st, s);
    }
  }

  lemma MoveDecreases(cfg: Config, f: Fine, a: Agent)
    requires FineInv(cfg, f) && FineEnabled(cfg, f, a)
    ensures FineShape(cfg, FineStep(cfg, f, a)) && FineMeasure(cfg, FineStep(cfg, f, a)) < FineMeasure(cfg, f)
  {
    var g := FineStep(cfg, f, a);
    MoveKeeps(cfg, f, a);
    forall q | 0 <= q < |f.submit| && q != a.sel ensures Moves(g, q) == Moves(f, q) { OthersMoves(cfg, f, a, q); }
    AllMovesBut(f, g, |f.submit|, a.sel);
    OwnMoves(cfg, f, a);
    if Acts(cfg, f, a) { ActingDecreases(cfg, f, a); } else { LockMoves(cfg, f, a); }
  }

  // ---------------------------------------------------------------- runs come to rest

  lemma SomeAgentMoves(cfg: Config, f: Fine) returns (a: Agent)
    requires FineInv(cfg, f) && !FineAtRest(cfg, f)
    ensures FineEnabled(cfg, f, a) && FineShape(cfg, FineStep(cfg, f, a))
    ensures FineMeasure(cfg, FineStep(cfg, f, a)) < FineMeasure(cfg, f)
  {
    a :| FineEnabled(cfg, f, a);
    MoveDecreases(cfg, f, a);
  }

  lemma {:induction false} OneMoreMove(cfg: Config, moves: seq<Agent>) returns (a: Agent)
    requires ConfigOk(cfg) && !FineAtRest(cfg, FineExec(cfg, moves))
    ensures FineMeasure(cfg, FineExec(cfg, moves + [a])) < FineMeasure(cfg, FineExec(cfg, moves))
  {
    FineRunsKeep(cfg, moves);
    a := SomeAgentMoves(cfg, FineExec(cfg, moves));
    assert (moves + [a])[..|moves + [a]| - 1] == moves;
  }

  /** Where one move more always brings down a measure, runs come to rest, after no more moves than it says. */
  lemma {:induction false} RestsInTime(rest: seq<Agent> -> bool, left: seq<Agent> -> nat, moves: seq<Agent>)
    returns (more: seq<Agent>)
    requires forall x :: !rest(x) ==> exists a :: left(x + [a]) < left(x)
    ensures rest(moves + more) && |more| <= left(moves)
  {
    var onward := (x: seq<Agent>, y: seq<Agent>) => x <= y && |y| + left(y) <= |x| + left(x);
    forall x | !rest(x) ensures exists y :: onward(x, y) && left(y) < left(x) {
      var a :| left(x + [a]) < left(x);
      assert onward(x, x + [a]);
    }
    var all := Reaches(_ => true, rest, left, onward, moves);
    more := all[|moves|..];
    assert moves + more == all;
  }

  /** Any run can be continued until no agent can move; how many moves that takes is bounded. */
  lemma {:induction false} FineRunsComeToRest(cfg: Config, moves: seq<Agent>) returns (more: seq<Agent>)
    requires ConfigOk(cfg)
    ensures FineAtRest(cfg, FineExec(cfg, moves + more))
    ensures |more| <= FineMeasure(cfg, FineExec(cfg, moves))
  {
    var rest := (x: seq<Agent>) => ConfigOk(cfg) && FineAtRest(cfg, FineExec(cfg, x));
    var left := (x: seq<Agent>) => if ConfigOk(cfg) then FineMeasure(cfg, FineExec(cfg, x)) else 0;
    forall x | !rest(x) ensures exists a :: left(x + [a]) < left(x) {
      var a := OneMoreMove(cfg, x);
      assert left(x + [a]) < left(x);
    }
    more := RestsInTime(rest, left, moves);
  }

  lemma MoveIsFinal(cfg: Config, f: Fine, a: Agent, s: nat)
    requires FineInv(cfg, f) && FineEnabled(cfg, f, a) && s < |f.st.sels|
    ensures Final(f.st, FineStep(cfg, f, a).st, s)
  {
    MoveKeeps(cfg, f, a);
    if Enabled(cfg, f.st, a.sel) { StepIsFinal(cfg, f.st, a.sel, s); }
  }

  lemma {:induction false} FineDecisionsAreFinal(cfg: Config, moves: seq<Agent>, more: seq<Agent>, s: nat)
    requires ConfigOk(cfg) && s < |cfg.selects|
    ensures Final(FineExec(cfg, moves).st, FineExec(cfg, moves + more).st, s)
  {
    if more == [] {
      assert moves + more == moves;
    } else {
      var most, a := more[..|more| - 1], more[|more| - 1];
      FineDecisionsAreFinal(cfg, moves, most, s);
      assert (moves + more)[..|moves + more| - 1] == moves + most && (moves + more)[|moves + more| - 1] == a;
      FineRunsKeep(cfg, moves + most);
      if FineEnabled(cfg, FineExec(cfg, moves + most), a) { MoveIsFinal(cfg, FineExec(cfg, moves + most), a, s); }
    }
  }

  /** Whatever the run so far, it can go on to where no lock is held, or a list is broken on the way; a
      select that was claimed has then returned with the token it was claimed for. */
  lemma {:induction false} FineClaimedSelectsReturn(cfg: Config, moves: seq<Agent>, s: nat) returns (more: seq<Agent>)
    requires ConfigOk(cfg) && NoSelfMatch(cfg) && s < |cfg.selects|
    ensures var f, w := FineExec(cfg, moves + more), FineExec(cfg, moves).st.win[s];
      f.st.health == Ok ==>
        (forall a, l :: !Held(f, a, l))
          && (w.Some? ==> f.st.sels[s].pc == Done(w.value.tok) && (cfg.selects[s].waits ==> f.phase[s] == Gone))
  {
    more := FineRunsComeToRest(cfg, moves);
    FineDecisionsAreFinal(cfg, moves, more, s);
    var f := FineExec(cfg, moves + more);
    if f.st.health == Ok {
      FineRunsKeep(cfg, moves + more);
      FineRestIsQuiet(cfg, f, s);
      assert SelCtl(cfg, f.st, s);
    }
  }

  // ---------------------------------------------------------------- clean finish

  lemma StaysGone(cfg: Config, f: Fine, a: Agent, s: nat)
    requires FineShape(cfg, f) && FineEnabled(cfg, f, a) && s < |f.phase| && f.phase[s] == Gone
    ensures |FineStep(cfg, f, a).phase| == |f.phase| && FineStep(cfg, f, a).phase[s] == Gone
  {}

  lemma {:induction false} GoneStays(cfg: Config, moves: seq<Agent>, more: seq<Agent>, s: nat)
    requires ConfigOk(cfg) && s < |cfg.selects| && FineExec(cfg, moves).phase[s] == Gone
    ensures FineExec(cfg, moves + more).phase[s] == Gone
  {
    if more == [] {
      assert moves + more == moves;
    } else {
      var most, a := more[..|more| - 1], more[|more| - 1];
      GoneStays(cfg, moves, most, s);
      assert (moves + more)[..|moves + more| - 1] == moves + most && (moves + more)[|moves + more| - 1] == a;
      if FineEnabled(cfg, FineExec(cfg, moves + most), a) { StaysGone(cfg, FineExec(cfg, moves + most), a, s); }
    }
  }

  /** Nobody comes to look at the flag of a select that has returned. */
  lemma NobodyLooks(cfg: Config, st: State, q: nat, s: nat)
    requires Inv(cfg, st) && q < |st.sels| && s < |st.sels| && st.sels[s].pc.Done?
    ensures s !in Contexts(cfg, st, q)
  {
    assert SelCtl(cfg, st, q) && SelOk(cfg, q, st.sels[q]);
    var pc := st.sels[q].pc;
    if pc.Scan? || pc.Refill? {
      assert SpecOk(cfg, cfg.selects[q]) && AltOk(cfg, cfg.selects[q], AltAt(cfg, q, pc.i));
      var c := AltAt(cfg, q, pc.i).chan;
      var list := Opposite(AltAt(cfg, q, pc.i).dir, st.chans[c]);
      assert ChanLists(cfg, st, c);
      assert list == [] || list[0] in list;
    }
  }

  lemma GoneIsClean(cfg: Config, f: Fine, s: nat, c: nat, n: Node)
    requires FineInv(cfg, f) && s < |f.st.sels| && f.phase[s] == Gone && c < |f.st.chans| && n.sel == s
    ensures n !in f.st.chans[c].readers && n !in f.st.chans[c].writers
    ensures !FineEnabled(cfg, f, Submitter(s)) && !FineEnabled(cfg, f, Resumer(s))
    ensures forall l :: !Held(f, Submitter(s), l) && !Held(f, Resumer(s), l)
    ensures f.submit[s].None? && f.context[s].None?
  {
    assert SubmitOk(cfg, f, s) && ChanLists(cfg, f.st, c);
    assert ContextOk(cfg, f, s);
    if f.context[s].Some? { NobodyLooks(cfg, f.st, f.context[s].value.sel, s); }
    forall l ensures !Held(f, Submitter(s), l) && !Held(f, Resumer(s), l) {
      if Held(f, Submitter(s), l) { HeldWhere(cfg, f, Submitter(s), l); }
      if Held(f, Resumer(s), l) { HeldWhere(cfg, f, Resumer(s), l); }
    }
  }

  /** From when a coroutine has returned, and ever after: none of its nodes is in any list, nobody holds
      its mutexes, neither of its two agents holds a lock, and neither does anything more. */
  lemma {:induction false} CleanFinish(cfg: Config, moves: seq<Agent>, more: seq<Agent>, s: nat, c: nat, n: Node)
    requires ConfigOk(cfg) && s < |cfg.selects| && c < |cfg.caps| && n.sel == s && FineExec(cfg, moves).phase[s] == Gone
    ensures var f := FineExec(cfg, moves + more);
      && n !in f.st.chans[c].readers && n !in f.st.chans[c].writers
      && !FineEnabled(cfg, f, Submitter(s)) && !FineEnabled(cfg, f, Resumer(s))
      && f.submit[s].None? && f.context[s].None?
      && forall l :: !Held(f, Submitter(s), l) && !Held(f, Resumer(s), l)
  {
    GoneStays(cfg, moves, more, s);
    FineRunsKeep(cfg, moves + more);
    GoneIsClean(cfg, FineExec(cfg, moves + more), s, c, n);
  }
}
