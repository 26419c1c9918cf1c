/**
 Who waits for whom.  An agent that cannot go on is suspended, or needs a lock that somebody holds;
 whoever waits for a lock holds only locks of a lower level.  Hence nobody waits in a circle, somebody who
 holds a lock can always go on, and every run ends where no lock is held and everybody has returned or
 sleeps for want of a partner.
 */
module LockOrder {
  import opened Protocol
  import opened Invariant
  import opened Progress
  import opened Locks

  /** Locks are taken in this order. */
  function Level(l: Lock): nat {
    match l
    case SubmitMutex(_) => 0
    case ChanMutex(_) => 1
    case ContextMutex(_) => 2
  }

  /** The lock is one of those that the agent's next move takes. */
  ghost predicate Needs(cfg: Config, f: Fine, a: Agent, l: Lock)
    requires FineShape(cfg, f) && a.sel < |f.st.sels|
  {
    var s, pc := a.sel, f.st.sels[a.sel].pc;
    match a
    case Submitter(_) =>
      && !Leaves(cfg, f, s)
      && (match l
          case SubmitMutex(q) => q == s && pc.Idle? && cfg.selects[s].waits
          case ChanMutex(c) =>
            pc.Submit? && pc.i < |cfg.selects[s].alts| && AltAt(cfg, s, pc.i).dir != Skip
              && c == AltAt(cfg, s, pc.i).chan
          case ContextMutex(x) => TakesContexts(cfg, f, s) && x in Contexts(cfg, f.st, s))
    case Resumer(_) =>
      match l
      case SubmitMutex(q) => q == s && f.phase[s] == AtLock
      case ChanMutex(c) =>
        f.phase[s] == Inside && pc.Clear? && NeedsClearing(cfg, f.st, s, pc.j, pc.t) && c == AltAt(cfg, s, pc.j).chan
      case ContextMutex(_) => false
  }

  // ---------------------------------------------------------------- the order of the locks

  /** What a thread holds at which point of its program. */
  lemma HeldWhere(cfg: Config, f: Fine, a: Agent, h: Lock)
    requires FineInv(cfg, f) && Held(f, a, h)
    ensures a.sel < |f.st.sels|
    ensures match h
      case SubmitMutex(q) =>
        q == a.sel && (a.Submitter? ==> !f.st.sels[q].pc.Idle?) && (a.Resumer? ==> f.phase[q] == Inside)
      case ChanMutex(c) => a.Submitter? && LockedAlt(f.st.sels[a.sel].pc).Some?
      case ContextMutex(x) => a.Submitter? && x in Contexts(cfg, f.st, a.sel) && HoldsAll(cfg, f, a.sel)
  {
    match h {
      case SubmitMutex(q) => assert SubmitOk(cfg, f, q);
      case ChanMutex(c) => assert ChanCtl(cfg, f.st, c);
      case ContextMutex(x) => assert ContextOk(cfg, f, x);
    }
  }

  /** Locks are taken in the order of their levels. */
  lemma LevelsRise(cfg: Config, f: Fine, a: Agent, h: Lock, l: Lock)
    requires FineInv(cfg, f) && a.sel < |f.st.sels| && Held(f, a, h) && Needs(cfg, f, a, l)
    ensures Level(h) < Level(l)
  {
    HeldWhere(cfg, f, a, h);
    assert SubmitOk(cfg, f, a.sel);
  }

  /** Each of the agents waits for a lock that the next one holds. */
  ghost predicate Chain(cfg: Config, f: Fine, agents: seq<Agent>, locks: seq<Lock>)
    requires FineShape(cfg, f)
  {
    && 0 < |agents| == |locks|
    && (forall k :: 0 <= k < |agents| ==> agents[k].sel < |f.st.sels| && Needs(cfg, f, agents[k], locks[k]))
    && (forall k :: 0 <= k < |agents| - 1 ==> Held(f, agents[k + 1], locks[k]))
  }

  lemma {:induction false} LevelsClimb(cfg: Config, f: Fine, agents: seq<Agent>, locks: seq<Lock>, k: nat)
    requires FineInv(cfg, f) && Chain(cfg, f, agents, locks) && k < |agents|
    ensures Level(locks[0]) + k <= Level(locks[k])
  {
    if k > 0 {
      LevelsClimb(cfg, f, agents, locks, k - 1);
      LevelsRise(cfg, f, agents[k], locks[k - 1], locks[k]);
    }
  }

  /** A chain of waiting agents never closes, and is at most as long as there are kinds of locks. */
  lemma NobodyWaitsInACircle(cfg: Config, f: Fine, agents: seq<Agent>, locks: seq<Lock>)
    requires FineInv(cfg, f) && Chain(cfg, f, agents, locks)
    ensures !Held(f, agents[0], locks[|locks| - 1]) && |agents| <= 3
  {
    LevelsClimb(cfg, f, agents, locks, |agents| - 1);
    if Held(f, agents[0], locks[|locks| - 1]) { LevelsRise(cfg, f, agents[0], locks[|locks| - 1], locks[0]); }
  }

  // ---------------------------------------------------------------- nobody is stuck

  /** Nothing to do: the coroutine has not been woken or has returned, the submission is over. */
  ghost predicate Suspended(cfg: Config, f: Fine, a: Agent)
    requires FineShape(cfg, f) && a.sel < |f.st.sels|
  {
    match a
    case Submitter(s) => !Leaves(cfg, f, s) && HandedOver(f.st.sels[s].pc)
    case Resumer(s) =>
      f.phase[s] == Gone || (f.phase[s] == Asleep && !(cfg.selects[s].waits && f.st.sels[s].promise.Some?))
  }

  lemma SubmitterNotTwice(cfg: Config, st: State, s: nat)
    requires Inv(cfg, st) && NoSelfMatch(cfg) && s < |st.sels|
    ensures !TwiceTheSame(cfg, st, s)
  {
    assert SelCtl(cfg, st, s);
    if st.sels[s].pc.Scan? {
      var i := st.sels[s].pc.i;
      assert SelOk(cfg, s, st.sels[s]);
      assert SpecOk(cfg, cfg.selects[s]) && AltOk(cfg, cfg.selects[s], AltAt(cfg, s, i));
      assert ChanLists(cfg, st, AltAt(cfg, s, i).chan);
      NeverLocksItself(cfg, st, s, i);
    }
  }

  /** A thread outside `clear_wait` and not asleep is held up only by a channel's mutex. */
  lemma SubmitterBlocked(cfg: Config, st: State, s: nat)
    requires Shape(cfg, st) && st.health == Ok && s < |st.sels| && !HandedOver(st.sels[s].pc)
    requires !TwiceTheSame(cfg, st, s) && !Enabled(cfg, st, s)
    ensures st.sels[s].pc.Submit? && st.sels[s].pc.i < |cfg.selects[s].alts|
    ensures AltAt(cfg, s, st.sels[s].pc.i).dir != Skip
    ensures AltAt(cfg, s, st.sels[s].pc.i).chan < |st.chans| && !Free(st, AltAt(cfg, s, st.sels[s].pc.i).chan)
  {
    assert SelOk(cfg, s, st.sels[s]) && SpecOk(cfg, cfg.selects[s]);
    var pc := st.sels[s].pc;
    if pc.Submit? { assert AltOk(cfg, cfg.selects[s], AltAt(cfg, s, pc.i)); }
  }

  /** The context that keeps the thread of `s` waiting is held by somebody. */
  lemma ContextBusy(cfg: Config, f: Fine, s: nat) returns (b: Agent, l: Lock)
    requires FineInv(cfg, f) && f.st.health == Ok && s < |f.st.sels| && !f.st.sels[s].pc.Idle?
    requires !HandedOver(f.st.sels[s].pc)
    requires !TwiceTheSame(cfg, f.st, s) && TakesContexts(cfg, f, s) && !FineEnabled(cfg, f, Submitter(s))
    ensures Needs(cfg, f, Submitter(s), l) && Held(f, b, l)
  {
    ContextsExist(cfg, f.st, s);
    var x :| x in Contexts(cfg, f.st, s) && x < |f.context| && f.context[x].Some?;
    b, l := f.context[x].value, ContextMutex(x);
  }

  lemma SubmitterWaits(cfg: Config, f: Fine, s: nat) returns (b: Agent, l: Lock)
    requires FineInv(cfg, f) && NoSelfMatch(cfg) && f.st.health == Ok && s < |f.st.sels|
    requires !FineEnabled(cfg, f, Submitter(s)) && !Suspended(cfg, f, Submitter(s))
    ensures Needs(cfg, f, Submitter(s), l) && Held(f, b, l)
  {
    assert SubmitOk(cfg, f, s);
    SubmitterNotTwice(cfg, f.st, s);
    if TakesContexts(cfg, f, s) {
      b, l := ContextBusy(cfg, f, s);
    } else {
      SubmitterBlocked(cfg, f.st, s);
      var c := AltAt(cfg, s, f.st.sels[s].pc.i).chan;
      b, l := Submitter(f.st.chans[c].owner.value), ChanMutex(c);
    }
  }

  lemma ResumerWaits(cfg: Config, f: Fine, s: nat) returns (b: Agent, l: Lock)
    requires FineInv(cfg, f) && f.st.health == Ok && s < |f.st.sels|
    requires !FineEnabled(cfg, f, Resumer(s)) && !Suspended(cfg, f, Resumer(s))
    ensures Needs(cfg, f, Resumer(s), l) && Held(f, b, l)
  {
    assert SubmitOk(cfg, f, s) && SelOk(cfg, s, f.st.sels[s]) && SpecOk(cfg, cfg.selects[s]);
    if f.phase[s] == AtLock {
      b, l := f.submit[s].value, SubmitMutex(s);
    } else {
      var pc := f.st.sels[s].pc;
      assert AltOk(cfg, cfg.selects[s], AltAt(cfg, s, pc.j));
      var c := AltAt(cfg, s, pc.j).chan;
      b, l := Submitter(f.st.chans[c].owner.value), ChanMutex(c);
    }
  }

  /** An agent that cannot go on is suspended, or waits for a lock that somebody holds. */
  lemma BlockedMeansWaiting(cfg: Config, f: Fine, a: Agent) returns (b: Agent, l: Lock)
    requires FineInv(cfg, f) && NoSelfMatch(cfg) && f.st.health == Ok && a.sel < |f.st.sels|
    requires !FineEnabled(cfg, f, a) && !Suspended(cfg, f, a)
    ensures Needs(cfg, f, a, l) && Held(f, b, l)
  {
    match a {
      case Submitter(s) => b, l := SubmitterWaits(cfg, f, s);
      case Resumer(s) => b, l := ResumerWaits(cfg, f, s);
    }
  }

  /** Nobody goes to sleep with a lock. */
  lemma HoldersAreAwake(cfg: Config, f: Fine, a: Agent, h: Lock)
    requires FineInv(cfg, f) && Held(f, a, h)
    ensures a.sel < |f.st.sels| && !Suspended(cfg, f, a)
  {
    HeldWhere(cfg, f, a, h);
    assert SubmitOk(cfg, f, a.sel);
  }

  /** Freedom from deadlock: as long as a lock is held, somebody who holds one can go on. */
  lemma {:induction false} SomeHolderMoves(cfg: Config, f: Fine, a: Agent, h: Lock) returns (b: Agent, l: Lock)
    requires FineInv(cfg, f) && NoSelfMatch(cfg) && f.st.health == Ok && Held(f, a, h)
    ensures Held(f, b, l) && FineEnabled(cfg, f, b)
    decreases 2 - Level(h)
  {
    HoldersAreAwake(cfg, f, a, h);
    if FineEnabled(cfg, f, a) {
      b, l := a, h;
    } else {
      b, l := BlockedMeansWaiting(cfg, f, a);
      LevelsRise(cfg, f, a, h, l);
      b, l := SomeHolderMoves(cfg, f, b, l);
    }
  }

  // ---------------------------------------------------------------- where a run ends

  ghost predicate FineAtRest(cfg: Config, f: Fine)
    requires FineShape(cfg, f)
  {
    forall a :: !FineEnabled(cfg, f, a)
  }

  /** Without locks in the way, a step of the protocol is a move of one of its two agents. */
  lemma StepsAreMoves(cfg: Config, f: Fine, s: nat)
    requires FineInv(cfg, f) && NoSelfMatch(cfg) && f.st.health == Ok && Enabled(cfg, f.st, s)
    requires forall a, l :: !Held(f, a, l)
    ensures FineEnabled(cfg, f, Submitter(s)) || FineEnabled(cfg, f, Resumer(s))
  {
    assert SubmitOk(cfg, f, s) && SelCtl(cfg, f.st, s);
    if !FineEnabled(cfg, f, Submitter(s)) && !Suspended(cfg, f, Submitter(s)) {
      var b, l := SubmitterWaits(cfg, f, s);
    }
    if !FineEnabled(cfg, f, Resumer(s)) && !Suspended(cfg, f, Resumer(s)) {
      var b, l := ResumerWaits(cfg, f, s);
    }
  }

  /** If no agent can move then no lock is held, and every select has returned, coroutine and all, or
      sleeps unclaimed. */
  lemma FineRestIsQuiet(cfg: Config, f: Fine, s: nat)
    requires FineInv(cfg, f) && NoSelfMatch(cfg) && f.st.health == Ok && FineAtRest(cfg, f) && s < |f.st.sels|
    ensures forall a, l :: !Held(f, a, l)
    ensures AtRest(cfg, f.st)
    ensures if f.st.sels[s].pc.Done? then cfg.selects[s].waits ==> f.phase[s] == Gone
            else f.st.sels[s].pc == Parked && f.st.win[s].None? && f.phase[s] == Asleep
  {
    forall a, l ensures !Held(f, a, l) {
      if Held(f, a, l) { var b, k := SomeHolderMoves(cfg, f, a, l); }
    }
    forall q | 0 <= q < |f.st.sels| ensures !Enabled(cfg, f.st, q) {
      if Enabled(cfg, f.st, q) { StepsAreMoves(cfg, f, q); }
    }
    RestIsQuiet(cfg, f.st, s);
    assert SubmitOk(cfg, f, s) && SelCtl(cfg, f.st, s);
    assert !FineEnabled(cfg, f, Resumer(s));
  }
}
