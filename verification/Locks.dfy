/**
 The locks one by one.  A step of the protocol that looks at flags is split here into taking the
 context mutexes it needs, all together, and acting and letting go; the submit mutex has an owner;
 and a coroutine that is resumed is an agent of its own, which may wake up as soon as the promise is
 set, even while its submission is still going on, and then has to get the submit mutex.

 The machine of `Protocol` is what remains of this one when the locks are forgotten (`Projects`), and no
 clean-up begins before the submission is over (`ClearsAfterSubmission`).  `LockOrder` has the order in
 which locks are taken and what follows from it, `LockRuns` what it means for whole runs.
 */
module Locks {
  import opened Options
  import opened Protocol
  import opened Invariant
  import opened KeepCtl
  import opened Keep
  import opened Runs
  import opened Bystanders

  /** The thread that submits a select (and runs a wait-free one), and the coroutine it resumes. */
  datatype Agent = Submitter(sel: nat) | Resumer(sel: nat)

  datatype Lock = SubmitMutex(sel: nat) | ChanMutex(chan: nat) | ContextMutex(sel: nat)

  /** Where a coroutine is: suspended, resumed and in want of the submit mutex, holding it, returned. */
  datatype Phase = Asleep | AtLock | Inside | Gone

  /** `submit[s]` and `context[s]` own the mutexes of select `s`.  `clash` is set if a coroutine touches
      the wait states while its submission is still going on. */
  datatype Fine = Fine(st: State, submit: seq<Option<Agent>>, context: seq<Option<Agent>>, phase: seq<Phase>,
    clash: bool)

  ghost predicate FineShape(cfg: Config, f: Fine) {
    Shape(cfg, f.st) && |f.submit| == |f.context| == |f.phase| == |f.st.sels|
  }

  ghost function FineInit(cfg: Config): Fine
    requires ConfigOk(cfg)
  {
    var n := |cfg.selects|;
    Fine(Init(cfg), seq(n, _ => None), seq(n, _ => None), seq(n, _ => Asleep), false)
  }

  // ---------------------------------------------------------------- what a step needs

  /** The contexts whose mutexes the next step of select `s` takes. */
  ghost function Contexts(cfg: Config, st: State, s: nat): set<nat>
    requires Shape(cfg, st) && s < |st.sels|
  {
    var own := if cfg.selects[s].waits then {s} else {};
    match st.sels[s].pc
    case Scan(i) =>
      var a := AltAt(cfg, s, i);
      var ch, list := st.chans[a.chan], Opposite(a.dir, st.chans[a.chan]);
      if a.dir == Recv && cfg.caps[a.chan] != Some(0) then (if ch.buffer != [] then own else {})
      else if list != [] then own + {list[0].sel}
      else if a.dir == Send && cfg.caps[a.chan] != Some(0) && !Full(cfg.caps[a.chan], ch.buffer) then own
      else {}
    case Refill(i) =>
      var list := st.chans[AltAt(cfg, s, i).chan].writers;
      if list != [] then {list[0].sel} else {}
    case _ => {}
  }

  /** The contexts that an agent holds. */
  ghost predicate Holds(f: Fine, s: nat, x: nat) {
    x < |f.context| && f.context[x] == Some(Submitter(s))
  }

  ghost predicate HoldsAll(cfg: Config, f: Fine, s: nat)
    requires FineShape(cfg, f) && s < |f.st.sels|
  {
    forall x :: x in Contexts(cfg, f.st, s) ==> Holds(f, s, x)
  }

  /** The submission of a waiting select is over. */
  ghost predicate Submitted(pc: Pc) {
    pc.Publish? || pc.Parked? || pc.Clear? || pc.Done?
  }

  // ---------------------------------------------------------------- the fine machine

  /** The submitter has nothing left to do but to let go of the submit mutex. */
  ghost predicate Leaves(cfg: Config, f: Fine, s: nat)
    requires FineShape(cfg, f) && s < |f.st.sels|
  {
    f.submit[s] == Some(Submitter(s)) && Submitted(f.st.sels[s].pc)
  }

  /** What is left of a select is up to its coroutine. */
  ghost predicate HandedOver(pc: Pc) {
    pc.Parked? || pc.Clear? || pc.Done?
  }

  /** The submitter of `s` takes context mutexes next. */
  ghost predicate TakesContexts(cfg: Config, f: Fine, s: nat)
    requires FineShape(cfg, f) && s < |f.st.sels|
  {
    Contexts(cfg, f.st, s) != {} && !HoldsAll(cfg, f, s)
  }

  /** One `scoped_lock` for one context twice. */
  ghost predicate TwiceTheSame(cfg: Config, st: State, s: nat)
    requires Shape(cfg, st) && s < |st.sels|
  {
    st.sels[s].pc.Scan? && LocksItself(cfg, st, s, st.sels[s].pc.i)
  }

  ghost predicate FineEnabled(cfg: Config, f: Fine, a: Agent)
    requires FineShape(cfg, f)
  {
    && a.sel < |f.st.sels| && f.st.health == Ok
    && var s, pc := a.sel, f.st.sels[a.sel].pc;
       match a
       case Submitter(_) =>
         if Leaves(cfg, f, s) then true
         else if HandedOver(pc) then false
         else if pc.Idle? && cfg.selects[s].waits then f.submit[s].None?
         else if TakesContexts(cfg, f, s) then
           !TwiceTheSame(cfg, f.st, s)
           && forall x :: x in Contexts(cfg, f.st, s) && x < |f.context| ==> f.context[x].None?
         else Enabled(cfg, f.st, s)
       case Resumer(_) =>
         match f.phase[s]
         case Asleep => cfg.selects[s].waits && f.st.sels[s].promise.Some?
         case AtLock => f.submit[s].None?
         case Inside => pc.Parked? || pc.Clear? ==> Enabled(cfg, f.st, s)
         case Gone => false
  }

  /** The contexts without those that the submitter of `s` holds. */
  ghost function LetGo(context: seq<Option<Agent>>, s: nat): seq<Option<Agent>> {
    seq(|context|, x requires 0 <= x < |context| => if context[x] == Some(Submitter(s)) then None else context[x])
  }

  ghost function TakeAll(context: seq<Option<Agent>>, xs: set<nat>, s: nat): seq<Option<Agent>> {
    seq(|context|, x requires 0 <= x < |context| => if x in xs then Some(Submitter(s)) else context[x])
  }

  /** The agent's step is one of the protocol. */
  ghost predicate Acts(cfg: Config, f: Fine, a: Agent)
    requires FineShape(cfg, f) && FineEnabled(cfg, f, a)
  {
    match a
    case Submitter(s) => !Leaves(cfg, f, s) && (f.st.sels[s].pc.Idle? || !TakesContexts(cfg, f, s))
    case Resumer(s) => f.phase[s] == Inside && (f.st.sels[s].pc.Parked? || f.st.sels[s].pc.Clear?)
  }

  ghost function FineStep(cfg: Config, f: Fine, a: Agent): Fine
    requires FineShape(cfg, f) && FineEnabled(cfg, f, a)
  {
    var s, pc := a.sel, f.st.sels[a.sel].pc;
    match a
    case Submitter(_) =>
      if Leaves(cfg, f, s) then f.(submit := f.submit[s := None])
      else if pc.Idle? then
        f.(st := Step(cfg, f.st, s), submit := if cfg.selects[s].waits then f.submit[s := Some(a)] else f.submit)
      else if TakesContexts(cfg, f, s) then f.(context := TakeAll(f.context, Contexts(cfg, f.st, s), s))
      else f.(st := Step(cfg, f.st, s), context := LetGo(f.context, s))
    case Resumer(_) =>
      match f.phase[s]
      case Asleep => f.(phase := f.phase[s := AtLock])
      case AtLock => f.(phase := f.phase[s := Inside], submit := f.submit[s := Some(a)])
      case Inside =>
        if pc.Done? then f.(phase := f.phase[s := Gone], submit := f.submit[s := None])
        else if pc.Parked? || pc.Clear? then f.(st := Step(cfg, f.st, s))
        else f.(clash := true)
      case Gone => f
  }

  // ---------------------------------------------------------------- what holds in every reachable state

  ghost predicate SubmitOk(cfg: Config, f: Fine, s: nat)
    requires FineShape(cfg, f) && s < |f.st.sels|
  {
    var x, m, p := f.st.sels[s], f.submit[s], f.phase[s];
    && (m.Some? ==> cfg.selects[s].waits && (m.value == Submitter(s) || m.value == Resumer(s)))
    && (p == Inside <==> m == Some(Resumer(s)))
    && (p != Asleep ==> cfg.selects[s].waits && x.promise.Some?)
    && (p == Gone ==> x.pc.Done?)
    && (cfg.selects[s].waits ==>
          match x.pc
          case Idle => m.None?
          case Publish(_) => p == Asleep
          case Parked => p != Gone
          case Clear(_, _) => p == Inside
          case Done(_) => p == Inside || p == Gone
          case _ => m == Some(Submitter(s)))
    && (x.pc.Done? ==> m != Some(Submitter(s)))
  }

  /** A context mutex is held by a submitter that holds all it needs for its next step. */
  ghost predicate ContextOk(cfg: Config, f: Fine, x: nat)
    requires FineShape(cfg, f) && x < |f.context|
  {
    f.context[x].Some? ==>
      var a := f.context[x].value;
      a.Submitter? && a.sel < |f.st.sels| && x in Contexts(cfg, f.st, a.sel) && HoldsAll(cfg, f, a.sel)
  }

  ghost predicate FineInv(cfg: Config, f: Fine) {
    && FineShape(cfg, f) && Inv(cfg, f.st) && !f.clash
    && (forall s :: 0 <= s < |f.st.sels| ==> SubmitOk(cfg, f, s))
    && (forall x :: 0 <= x < |f.context| ==> ContextOk(cfg, f, x))
  }

  lemma FineInitInv(cfg: Config)
    requires ConfigOk(cfg)
    ensures FineInv(cfg, FineInit(cfg))
  {
    InitShape(cfg);
    InitInv(cfg);
  }

  /** A thread that has locked a channel sees the same list and buffer until it acts itself. */
  lemma ContextsStay(cfg: Config, st: State, p: nat, q: nat)
    requires Inv(cfg, st) && Enabled(cfg, st, p) && p != q && q < |st.sels|
    ensures Contexts(cfg, Step(cfg, st, p), q) == Contexts(cfg, st, q)
  {
    OthersSpare(cfg, st, p, q);
    assert SelCtl(cfg, st, q);
    var pc := st.sels[q].pc;
    if pc.Scan? || pc.Refill? {
      assert SelOk(cfg, q, st.sels[q]);
      assert SpecOk(cfg, cfg.selects[q]) && AltOk(cfg, cfg.selects[q], AltAt(cfg, q, pc.i));
      assert Step(cfg, st, p).chans[AltAt(cfg, q, pc.i).chan] == st.chans[AltAt(cfg, q, pc.i).chan];
    }
  }

  /** From `f` to `g` the thread of `s` acted. */
  ghost predicate ActedOn(cfg: Config, f: Fine, g: Fine, s: nat) {
    && FineInv(cfg, f) && Enabled(cfg, f.st, s) && g.st == Step(cfg, f.st, s) && Inv(cfg, g.st) && FineShape(cfg, g)
    && g.phase == f.phase && g.clash == f.clash
  }

  lemma OthersSubmit(cfg: Config, f: Fine, g: Fine, s: nat, q: nat)
    requires ActedOn(cfg, f, g, s) && q < |f.st.sels| && q != s && g.submit[q] == f.submit[q]
    ensures SubmitOk(cfg, g, q)
  {
    assert SubmitOk(cfg, f, q);
    OthersSpare(cfg, f.st, s, q);
  }

  lemma ScanGoes(cfg: Config, st: State, s: nat, i: nat)
    requires Here(cfg, st, s, Scan(i))
    ensures var pc := ScanStep(cfg, st, s, i).sels[s].pc; !pc.Idle? && !HandedOver(pc)
  {}

  /** Where a submitter's step can lead. */
  lemma SubmitterGoes(cfg: Config, st: State, s: nat)
    requires Shape(cfg, st) && Enabled(cfg, st, s) && SelCtl(cfg, st, s) && !HandedOver(st.sels[s].pc)
    ensures var pc := Step(cfg, st, s).sels[s].pc;
      !pc.Idle? && !pc.Clear? && (pc.Parked? ==> cfg.selects[s].waits) && (pc.Done? ==> !cfg.selects[s].waits)
  {
    if st.sels[s].pc.Scan? { ScanGoes(cfg, st, s, st.sels[s].pc.i); }
  }

  /** Nobody publishes what is published. */
  lemma PublishesOnce(cfg: Config, st: State, s: nat)
    requires Inv(cfg, st) && Enabled(cfg, st, s) && Inv(cfg, Step(cfg, st, s)) && st.sels[s].promise.Some?
    ensures Step(cfg, st, s).sels[s].promise.Some? && !Step(cfg, st, s).sels[s].pc.Publish?
  {
    StepIsFinal(cfg, st, s, s);
    assert SelCtl(cfg, Step(cfg, st, s), s);
  }

  lemma ResumerGoes(cfg: Config, st: State, s: nat)
    requires Inv(cfg, st) && Enabled(cfg, st, s) && (st.sels[s].pc.Parked? || st.sels[s].pc.Clear?)
    requires Step(cfg, st, s).health != AssertFailed
    ensures var y := Step(cfg, st, s).sels[s]; (y.pc.Clear? || y.pc.Done?) && y.promise == st.sels[s].promise
  {}

  lemma SubmitterKeepsSubmit(cfg: Config, f: Fine, g: Fine, s: nat)
    requires ActedOn(cfg, f, g, s) && !HandedOver(f.st.sels[s].pc) && !Leaves(cfg, f, s)
    requires g.submit[s] == if f.st.sels[s].pc.Idle? && cfg.selects[s].waits then Some(Submitter(s)) else f.submit[s]
    ensures SubmitOk(cfg, g, s)
  {
    assert SubmitOk(cfg, f, s) && SelCtl(cfg, f.st, s);
    SubmitterGoes(cfg, f.st, s);
    if f.st.sels[s].promise.Some? { PublishesOnce(cfg, f.st, s); }
  }

  lemma ResumerKeepsSubmit(cfg: Config, f: Fine, g: Fine, s: nat)
    requires ActedOn(cfg, f, g, s) && g.st.health != AssertFailed && f.phase[s] == Inside
    requires (f.st.sels[s].pc.Parked? || f.st.sels[s].pc.Clear?)
    requires g.submit == f.submit
    ensures SubmitOk(cfg, g, s)
  {
    assert SubmitOk(cfg, f, s);
    ResumerGoes(cfg, f.st, s);
  }

  /** What others hold they still hold, and it is still what they need. */
  lemma ActingKeepsContexts(cfg: Config, f: Fine, g: Fine, s: nat, x: nat)
    requires ActedOn(cfg, f, g, s) && x < |g.context|
    requires g.context == LetGo(f.context, s) || (g.context == f.context && Contexts(cfg, f.st, s) == {})
    ensures ContextOk(cfg, g, x)
  {
    assert ContextOk(cfg, f, x);
    if g.context[x].Some? {
      var q := g.context[x].value.sel;
      assert q != s;
      ContextsStay(cfg, f.st, s, q);
      forall y | y in Contexts(cfg, g.st, q) ensures Holds(g, q, y) { assert Holds(f, q, y); }
    }
  }

  lemma SubmitterActs(cfg: Config, f: Fine, s: nat)
    requires FineInv(cfg, f) && FineEnabled(cfg, f, Submitter(s)) && Acts(cfg, f, Submitter(s))
    ensures Enabled(cfg, f.st, s) && FineStep(cfg, f, Submitter(s)).st == Step(cfg, f.st, s)
    ensures FineInv(cfg, FineStep(cfg, f, Submitter(s)))
  {
    var g := FineStep(cfg, f, Submitter(s));
    KeepStep(cfg, f.st, s);
    assert ActedOn(cfg, f, g, s);
    SubmitterKeepsSubmit(cfg, f, g, s);
    forall q | 0 <= q < |f.st.sels| ensures SubmitOk(cfg, g, q) { if q != s { OthersSubmit(cfg, f, g, s, q); } }
    forall x | 0 <= x < |g.context| ensures ContextOk(cfg, g, x) { ActingKeepsContexts(cfg, f, g, s, x); }
  }

  lemma ResumerActs(cfg: Config, f: Fine, s: nat)
    requires FineInv(cfg, f) && FineEnabled(cfg, f, Resumer(s)) && Acts(cfg, f, Resumer(s))
    ensures Enabled(cfg, f.st, s) && FineStep(cfg, f, Resumer(s)).st == Step(cfg, f.st, s)
    ensures FineInv(cfg, FineStep(cfg, f, Resumer(s)))
  {
    var g := FineStep(cfg, f, Resumer(s));
    KeepStep(cfg, f.st, s);
    assert ActedOn(cfg, f, g, s);
    ResumerKeepsSubmit(cfg, f, g, s);
    forall q | 0 <= q < |f.st.sels| ensures SubmitOk(cfg, g, q) { if q != s { OthersSubmit(cfg, f, g, s, q); } }
    forall x | 0 <= x < |g.context| ensures ContextOk(cfg, g, x) { ActingKeepsContexts(cfg, f, g, s, x); }
  }

  /** Taking the contexts of a step, all at once. */
  lemma TakingKeepsContexts(cfg: Config, f: Fine, s: nat, x: nat)
    requires FineInv(cfg, f) && FineEnabled(cfg, f, Submitter(s)) && !Leaves(cfg, f, s) && TakesContexts(cfg, f, s)
    requires x < |f.context|
    requires forall y :: y in Contexts(cfg, f.st, s) ==> y < |f.context|
    ensures ContextOk(cfg, f.(context := TakeAll(f.context, Contexts(cfg, f.st, s), s)), x)
  {
    var g := f.(context := TakeAll(f.context, Contexts(cfg, f.st, s), s));
    assert ContextOk(cfg, f, x);
    if x !in Contexts(cfg, f.st, s) && f.context[x].Some? {
      var q := f.context[x].value.sel;
      forall y | y in Contexts(cfg, f.st, q) ensures Holds(g, q, y) { assert Holds(f, q, y); }
    }
  }

  lemma ContextsExist(cfg: Config, st: State, s: nat)
    requires Shape(cfg, st) && s < |st.sels|
    ensures forall x :: x in Contexts(cfg, st, s) ==> x < |st.sels|
  {
    var pc := st.sels[s].pc;
    assert SelOk(cfg, s, st.sels[s]);
    if pc.Scan? || pc.Refill? {
      assert SpecOk(cfg, cfg.selects[s]) && AltOk(cfg, cfg.selects[s], AltAt(cfg, s, pc.i));
      assert ChanOk(cfg, st.chans[AltAt(cfg, s, pc.i).chan]);
    }
  }

  /** Moves that are no step of the protocol: locks are taken or let go, a coroutine wakes up, enters or
      returns.  None enters while its submission is going on. */
  lemma LockMoves(cfg: Config, f: Fine, a: Agent)
    requires FineInv(cfg, f) && FineEnabled(cfg, f, a) && !Acts(cfg, f, a)
    ensures FineStep(cfg, f, a).st == f.st && FineInv(cfg, FineStep(cfg, f, a))
  {
    var s, g := a.sel, FineStep(cfg, f, a);
    assert SubmitOk(cfg, f, s) && SelCtl(cfg, f.st, s);
    forall q | 0 <= q < |f.st.sels| ensures SubmitOk(cfg, g, q) { assert SubmitOk(cfg, f, q); }
    forall x | 0 <= x < |g.context| ensures ContextOk(cfg, g, x) {
      assert ContextOk(cfg, f, x);
      if a.Submitter? && !Leaves(cfg, f, s) {
        ContextsExist(cfg, f.st, s);
        TakingKeepsContexts(cfg, f, s, x);
      } else if f.context[x].Some? {
        forall y | y in Contexts(cfg, f.st, f.context[x].value.sel) ensures Holds(g, f.context[x].value.sel, y) {
          assert Holds(f, f.context[x].value.sel, y);
        }
      }
    }
  }

  // ---------------------------------------------------------------- runs

  /** The state after a schedule of agents; one that is blocked when its turn comes does nothing. */
  ghost function FineExec(cfg: Config, moves: seq<Agent>): (f: Fine)
    requires ConfigOk(cfg)
    ensures FineShape(cfg, f)
  {
    if moves == [] then InitShape(cfg); FineInit(cfg) else
    var f := FineExec(cfg, moves[..|moves| - 1]);
    if FineEnabled(cfg, f, moves[|moves| - 1]) then FineStep(cfg, f, moves[|moves| - 1]) else f
  }

  /** A move keeps the invariant, and does to the state of the protocol what one of its steps does, or
      nothing. */
  lemma MoveKeeps(cfg: Config, f: Fine, a: Agent)
    requires FineInv(cfg, f) && FineEnabled(cfg, f, a)
    ensures FineInv(cfg, FineStep(cfg, f, a))
    ensures FineStep(cfg, f, a).st == f.st
      || (Enabled(cfg, f.st, a.sel) && FineStep(cfg, f, a).st == Step(cfg, f.st, a.sel))
  {
    if !Acts(cfg, f, a) {
      LockMoves(cfg, f, a);
    } else {
      match a {
        case Submitter(s) => SubmitterActs(cfg, f, s);
        case Resumer(s) => ResumerActs(cfg, f, s);
      }
    }
  }

  lemma {:induction false} FineRunsKeep(cfg: Config, moves: seq<Agent>)
    requires ConfigOk(cfg)
    ensures FineInv(cfg, FineExec(cfg, moves))
  {
    if moves == [] {
      FineInitInv(cfg);
    } else {
      var most, a := moves[..|moves| - 1], moves[|moves| - 1];
      FineRunsKeep(cfg, most);
      if FineEnabled(cfg, FineExec(cfg, most), a) { MoveKeeps(cfg, FineExec(cfg, most), a); }
    }
  }

  /** The run goes on with the protocol's step, or stays where it is. */
  lemma {:induction false} ExecOneMore(cfg: Config, sched: seq<nat>, st: State, r: State, s: nat)
    returns (more: seq<nat>)
    requires ConfigOk(cfg) && st == Exec(cfg, sched) && (r == st || (Enabled(cfg, st, s) && r == Step(cfg, st, s)))
    ensures r == Exec(cfg, more)
  {
    more := if r == st then sched else sched + [s];
    assert (sched + [s])[..|sched + [s]| - 1] == sched;
  }

  /** Forgetting the locks, every run is a run of the protocol: all that was proved of its runs holds
      of the runs with locks. */
  lemma {:induction false} Projects(cfg: Config, moves: seq<Agent>) returns (sched: seq<nat>)
    requires ConfigOk(cfg)
    ensures FineExec(cfg, moves).st == Exec(cfg, sched)
  {
    if moves == [] {
      sched := [];
    } else {
      var most, a := moves[..|moves| - 1], moves[|moves| - 1];
      var f := FineExec(cfg, most);
      sched := Projects(cfg, most);
      if FineEnabled(cfg, f, a) {
        FineRunsKeep(cfg, most);
        MoveKeeps(cfg, f, a);
        sched := ExecOneMore(cfg, sched, f.st, FineStep(cfg, f, a).st, a.sel);
      }
    }
  }

  // ---------------------------------------------------------------- submission before clean-up

  ghost predicate Held(f: Fine, a: Agent, l: Lock) {
    match l
    case SubmitMutex(s) => s < |f.submit| && f.submit[s] == Some(a)
    case ChanMutex(c) => c < |f.st.chans| && a.Submitter? && f.st.chans[c].owner == Some(a.sel)
    case ContextMutex(x) => x < |f.context| && f.context[x] == Some(a)
  }

  lemma InsideIsAlone(cfg: Config, f: Fine, s: nat)
    requires FineInv(cfg, f) && s < |f.st.sels| && f.phase[s] == Inside
    ensures HandedOver(f.st.sels[s].pc) && f.submit[s] == Some(Resumer(s)) && !FineEnabled(cfg, f, Submitter(s))
    ensures forall l :: !Held(f, Submitter(s), l)
  {
    assert SubmitOk(cfg, f, s);
    forall l ensures !Held(f, Submitter(s), l) {
      match l {
        case SubmitMutex(q) => if q < |f.submit| { assert SubmitOk(cfg, f, q); }
        case ChanMutex(c) => if c < |f.st.chans| { assert ChanCtl(cfg, f.st, c); }
        case ContextMutex(x) => if x < |f.context| { assert ContextOk(cfg, f, x); }
      }
    }
  }

  /** While a coroutine is past the submit mutex its submission is over, the submitter holds nothing and
      will do nothing more; so wait states are never used by both. */
  lemma {:induction false} ClearsAfterSubmission(cfg: Config, moves: seq<Agent>, s: nat)
    requires ConfigOk(cfg) && s < |cfg.selects| && FineExec(cfg, moves).phase[s] == Inside
    ensures var f := FineExec(cfg, moves);
      && HandedOver(f.st.sels[s].pc) && f.submit[s] == Some(Resumer(s)) && !FineEnabled(cfg, f, Submitter(s))
      && !f.clash
      && forall l :: !Held(f, Submitter(s), l)
  {
    FineRunsKeep(cfg, moves);
    InsideIsAlone(cfg, FineExec(cfg, moves), s);
  }
}
