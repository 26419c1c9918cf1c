/**
 The code of `select`, `select_ready` and of the submission and clean-up of reads and writes, as
 the thread of one select runs it while all other threads do what they like in between.  Each
 shared access is one step of the machine.
 */
module SelectCode {
  import opened Options
  import opened Protocol
  import opened Invariant
  import opened KeepCtl
  import opened Runs
  import opened Progress
  import opened Bystanders
  import opened Threads
  import opened WaiterList
  import opened Abstract
  import opened Ready

  /** The thread of `s` is at `pc`. */
  ghost predicate On(m: Machine, s: nat, pc: Pc)
    reads m
  {
    m.Valid() && s < |m.st.sels| && m.st.sels[s].pc == pc
  }

  /** Wait for the mutex of channel `c`: whoever holds it can go on, and lets go in the end. */
  method Acquire(m: Machine, s: nat, c: nat)
    requires m.Valid() && s < |m.st.sels| && c < |m.st.chans| && LockedAlt(m.st.sels[s].pc).None?
    modifies m
    ensures m.Valid() && Free(m.st, c) && Undisturbed(old(m.st), m.st, s) && old(m.sched) <= m.sched
  {
    m.Interfere(s);
    while !Free(m.st, c)
      invariant m.Valid() && Undisturbed(old(m.st), m.st, s) && old(m.sched) <= m.sched
      decreases Measure(m.cfg, m.st)
    {
      var holder := m.st.chans[c].owner.value;
      ReachedIsSound(m.cfg, m.sched, m.st);
      HolderCanMove(m.cfg, m.st, c);
      assert ChanCtl(m.cfg, m.st, c);
      OthersSpare(m.cfg, m.st, holder, s);
      ThenUndisturbed(old(m.st), m.st, Step(m.cfg, m.st, holder), s);
      m.Advance(holder);
    }
  }

  /** `scoped_lock` on the channel of alternative `i`. */
  method Lock(m: Machine, s: nat, i: nat)
    requires On(m, s, Submit(i)) && i < |m.cfg.selects[s].alts| && AltAt(m.cfg, s, i).dir != Skip
    modifies m
    ensures On(m, s, Scan(i)) && old(m.sched) <= m.sched
  {
    assert SpecOk(m.cfg, m.cfg.selects[s]) && AltOk(m.cfg, m.cfg.selects[s], AltAt(m.cfg, s, i));
    Acquire(m, s, AltAt(m.cfg, s, i).chan);
    ReachedIsSound(m.cfg, m.sched, m.st);
    m.Advance(s);
  }

  /** The thread holds the mutex for alternative `i` and has decided nothing yet. */
  ghost predicate Looking(cfg: Config, st: State, s: nat, i: nat) {
    && Shape(cfg, st) && s < |st.sels| && st.health == Ok && st.sels[s].pc == Scan(i) && i < |cfg.selects[s].alts|
    && AltAt(cfg, s, i).dir != Skip && AltAt(cfg, s, i).chan < |st.chans| && !LocksItself(cfg, st, s, i)
  }

  /** What a thread that holds a channel's mutex can rely on. */
  lemma {:induction false} Knows(cfg: Config, sched: seq<nat>, st: State, s: nat, i: nat)
    requires Shape(cfg, st) && LeadsTo(cfg, sched, st) && s < |st.sels| && st.sels[s].pc == Scan(i)
    ensures Looking(cfg, st, s, i) && st.chans[AltAt(cfg, s, i).chan].owner == Some(s)
  {
    ReachedIsSound(cfg, sched, st);
    assert SelOk(cfg, s, st.sels[s]) && SelCtl(cfg, st, s);
    assert SpecOk(cfg, cfg.selects[s]) && AltOk(cfg, cfg.selects[s], AltAt(cfg, s, i));
    assert ChanLists(cfg, st, AltAt(cfg, s, i).chan);
    NeverLocksItself(cfg, st, s, i);
  }

  /** It looks for a counterpart in the list: always for a write, without a buffer for a read. */
  ghost predicate Searching(cfg: Config, st: State, s: nat, i: nat) {
    Looking(cfg, st, s, i) && (AltAt(cfg, s, i).dir == Recv ==> cfg.caps[AltAt(cfg, s, i).chan] == Some(0))
  }

  lemma Meets(cfg: Config, st: State, s: nat, i: nat)
    requires Searching(cfg, st, s, i) && st.win[s].None?
    requires var list := Opposite(AltAt(cfg, s, i).dir, st.chans[AltAt(cfg, s, i).chan]);
      list != [] && Open(st.win, list[0])
    ensures Enabled(cfg, st, s) && Step(cfg, st, s) == TakeBoth(cfg, st, s, i)
    ensures Step(cfg, st, s).sels[s].pc.Match? && Step(cfg, st, s).sels[s].pc.i == i
  {}

  lemma Drops(cfg: Config, st: State, s: nat, i: nat)
    requires Searching(cfg, st, s, i)
    requires var list := Opposite(AltAt(cfg, s, i).dir, st.chans[AltAt(cfg, s, i).chan]);
      list != [] && !Open(st.win, list[0])
    ensures Enabled(cfg, st, s) && Step(cfg, st, s) == Pop(st, AltAt(cfg, s, i).chan, AltAt(cfg, s, i).dir)
    ensures Step(cfg, st, s).sels[s].pc == Scan(i)
  {}

  /** The search came to nothing: nobody waits there, or the own flag is gone. */
  ghost predicate FoundNobody(cfg: Config, st: State, s: nat, i: nat) {
    && Searching(cfg, st, s, i)
    && var list := Opposite(AltAt(cfg, s, i).dir, st.chans[AltAt(cfg, s, i).chan]);
       list == [] || (Open(st.win, list[0]) && st.win[s].Some?)
  }

  /** One iteration: look at the first node under both context mutexes. */
  method Inspect(m: Machine, s: nat, i: nat) returns (found: Found)
    requires On(m, s, Scan(i)) && Searching(m.cfg, m.st, s, i)
    requires Opposite(AltAt(m.cfg, s, i).dir, m.st.chans[AltAt(m.cfg, s, i).chan]) != []
    modifies m
    ensures old(m.sched) <= m.sched && m.Valid() && s < |m.st.sels|
    ensures if found == Taken then m.st.sels[s].pc.Match? && m.st.sels[s].pc.i == i else On(m, s, Scan(i))
    ensures found == Refused ==> FoundNobody(m.cfg, m.st, s, i)
    ensures found == Stale ==> Measure(m.cfg, m.st) < Measure(m.cfg, old(m.st))
  {
    Knows(m.cfg, m.sched, m.st, s, i);
    m.Interfere(s);
    Knows(m.cfg, m.sched, m.st, s, i);
    var node := Opposite(AltAt(m.cfg, s, i).dir, m.st.chans[AltAt(m.cfg, s, i).chan])[0];
    if Open(m.st.win, node) {
      if m.st.win[s].Some? {
        return Refused;
      }
      Meets(m.cfg, m.st, s, i);
      m.Advance(s);
      return Taken;
    }
    Drops(m.cfg, m.st, s, i);
    m.Advance(s);
    return Stale;
  }

  /** `dequeue_first_available` with the own context, on the list opposite to alternative `i`: pop
      stale nodes until one is found whose flag is up; take both flags if the own one is up too. */
  method DequeueFirstAvailable(m: Machine, s: nat, i: nat) returns (found: bool)
    requires On(m, s, Scan(i)) && Searching(m.cfg, m.st, s, i)
    modifies m
    ensures old(m.sched) <= m.sched && m.Valid() && s < |m.st.sels|
    ensures if found then m.st.sels[s].pc.Match? && m.st.sels[s].pc.i == i
      else On(m, s, Scan(i)) && FoundNobody(m.cfg, m.st, s, i)
  {
    while Opposite(AltAt(m.cfg, s, i).dir, m.st.chans[AltAt(m.cfg, s, i).chan]) != []
      invariant On(m, s, Scan(i)) && Searching(m.cfg, m.st, s, i) && old(m.sched) <= m.sched
      decreases Measure(m.cfg, m.st)
    {
      var found := Inspect(m, s, i);
      if found != Stale { return found == Taken; }
      Knows(m.cfg, m.sched, m.st, s, i);
    }
    return false;
  }

  lemma {:induction false} Hands(cfg: Config, sched: seq<nat>, st: State, s: nat, i: nat)
    requires Shape(cfg, st) && LeadsTo(cfg, sched, st) && s < |st.sels| && st.sels[s].pc.Match? && st.sels[s].pc.i == i
    ensures Enabled(cfg, st, s) && Step(cfg, st, s) == MatchStep(cfg, st, s, i, st.sels[s].pc.peer)
    ensures Step(cfg, st, s).sels[s].pc == Publish(i)
  {
    ReachedIsSound(cfg, sched, st);
    assert SelCtl(cfg, st, s);
    ReachedNext(cfg, sched, st, s);
    ReachedIsSound(cfg, sched + [s], Step(cfg, st, s));
  }

  /** `transfer` and `notify_waiter` after a match. */
  method HandOver(m: Machine, s: nat, i: nat)
    requires m.Valid() && s < |m.st.sels| && m.st.sels[s].pc.Match? && m.st.sels[s].pc.i == i
    modifies m
    ensures old(m.sched) <= m.sched && On(m, s, Publish(i))
  {
    m.Interfere(s);
    Hands(m.cfg, m.sched, m.st, s, i);
    m.Advance(s);
  }

  // ---------------------------------------------------------------- the other accesses

  /** No step of a sound run fails. */
  lemma {:induction false} StepIsSound(cfg: Config, sched: seq<nat>, st: State, s: nat)
    requires Shape(cfg, st) && LeadsTo(cfg, sched, st) && Enabled(cfg, st, s)
    ensures Step(cfg, st, s).health == Ok
  {
    ReachedNext(cfg, sched, st, s);
    ReachedIsSound(cfg, sched + [s], Step(cfg, st, s));
  }

  /** Overtaken: the next operation comes. */
  lemma {:induction false} Concedes(cfg: Config, sched: seq<nat>, st: State, s: nat, i: nat)
    requires LeadsTo(cfg, sched, st) && Looking(cfg, st, s, i) && Decide(cfg, st, s, i) == Quit
    ensures Enabled(cfg, st, s) && Step(cfg, st, s) == GiveUp(cfg, st, s, i) && st.win[s].Some?
    ensures i !in st.sels[s].nodes
    ensures Step(cfg, st, s).sels[s].pc == Submit(NextOp(cfg.selects[s].alts, i))
    ensures Step(cfg, st, s).sels[s].nodes == st.sels[s].nodes
  {
    ReachedIsSound(cfg, sched, st);
    assert SelCtl(cfg, st, s);
  }

  /** At moment `k` the thread looked at alternative `i` and went on, because that was not ready, or its
      own flag was gone. */
  ghost predicate LookedInVain(cfg: Config, sched: seq<nat>, k: nat, s: nat, i: nat)
    requires ConfigOk(cfg) && s < |cfg.selects|
  {
    && StepsAt(cfg, sched, k, s) && Exec(cfg, sched[..k]).sels[s].pc == Scan(i) && i < |cfg.selects[s].alts|
    && (AltAt(cfg, s, i).dir != Skip ==> AltAt(cfg, s, i).chan < |cfg.caps|)
    && (Exec(cfg, sched[..k]).win[s].None? ==> !Servable(cfg, Exec(cfg, sched[..k]), AltAt(cfg, s, i)))
  }

  ghost predicate WasMissed(cfg: Config, sched: seq<nat>, s: nat, i: nat)
    requires ConfigOk(cfg) && s < |cfg.selects|
  {
    exists k :: LookedInVain(cfg, sched, k, s, i)
  }

  ghost predicate WasTaken(cfg: Config, sched: seq<nat>, s: nat, i: nat)
    requires ConfigOk(cfg) && s < |cfg.selects|
  {
    exists k :: TookReady(cfg, sched, k, s, i)
  }

  /** Nothing to be had: a waiting thread leaves its node. */
  lemma {:induction false} Registers(cfg: Config, sched: seq<nat>, st: State, s: nat, i: nat)
    requires LeadsTo(cfg, sched, st) && Looking(cfg, st, s, i) && Decide(cfg, st, s, i) == Wait
    ensures Enabled(cfg, st, s) && Step(cfg, st, s) == Enlist(cfg, st, s, i)
    ensures Step(cfg, st, s).sels[s].pc == Submit(i + 1)
    ensures cfg.selects[s].waits ==> i in Step(cfg, st, s).sels[s].nodes
    ensures WasMissed(cfg, sched + [s], s, i)
  {
    ReachedIsSound(cfg, sched, st);
    assert Here(cfg, st, s, Scan(i)) && ChanWake(cfg, st, AltAt(cfg, s, i).chan);
    if st.win[s].None? { DecidesRightly(cfg, st, s, i); }
    assert (sched + [s])[..|sched|] == sched;
    assert LookedInVain(cfg, sched + [s], |sched|, s, i);
  }

  /** The submission ends where the thread took its own flag, at a ready alternative. */
  lemma {:induction false} Completes(cfg: Config, sched: seq<nat>, st: State, s: nat, i: nat)
    requires LeadsTo(cfg, sched, st) && Shape(cfg, st) && s < |st.sels| && st.sels[s].pc == Publish(i)
    ensures st.win[s] == Some(Claim(i, s)) && WasTaken(cfg, sched, s, i)
  {
    ReachedIsSound(cfg, sched, st);
    assert SelCtl(cfg, st, s);
    var k := ChosenWasReady(cfg, sched, s, i);
  }

  lemma {:induction false} TakesValue(cfg: Config, sched: seq<nat>, st: State, s: nat, i: nat)
    requires LeadsTo(cfg, sched, st) && Looking(cfg, st, s, i) && Decide(cfg, st, s, i) == FromBuffer
    ensures Enabled(cfg, st, s) && Step(cfg, st, s) == TakeBuffered(cfg, st, s, i)
    ensures Step(cfg, st, s).sels[s].pc == (if cfg.caps[AltAt(cfg, s, i).chan].Some? then Refill(i) else Publish(i))
  {
    StepIsSound(cfg, sched, st, s);
  }

  lemma {:induction false} PutsValue(cfg: Config, sched: seq<nat>, st: State, s: nat, i: nat)
    requires LeadsTo(cfg, sched, st) && Looking(cfg, st, s, i) && Decide(cfg, st, s, i) == ToBuffer
    ensures Enabled(cfg, st, s) && Step(cfg, st, s) == PutBuffered(cfg, st, s, i)
    ensures Step(cfg, st, s).sels[s].pc == Publish(i)
  {
    StepIsSound(cfg, sched, st, s);
  }

  lemma {:induction false} Refills(cfg: Config, sched: seq<nat>, st: State, s: nat, i: nat)
    requires Shape(cfg, st) && LeadsTo(cfg, sched, st) && s < |st.sels| && st.sels[s].pc == Refill(i)
    ensures Enabled(cfg, st, s) && Step(cfg, st, s) == RefillStep(cfg, st, s, i)
  {
    ReachedIsSound(cfg, sched, st);
  }

  lemma {:induction false} Stores(cfg: Config, sched: seq<nat>, st: State, s: nat, i: nat)
    requires Shape(cfg, st) && LeadsTo(cfg, sched, st) && s < |st.sels| && st.sels[s].pc.Store? && st.sels[s].pc.i == i
    ensures Enabled(cfg, st, s) && Step(cfg, st, s) == StoreStep(cfg, st, s, i, st.sels[s].pc.peer)
    ensures Step(cfg, st, s).sels[s].pc == Publish(i)
  {
    ReachedIsSound(cfg, sched, st);
    assert SelCtl(cfg, st, s);
    StepIsSound(cfg, sched, st, s);
  }

  // ---------------------------------------------------------------- submission

  /** Where the search for a waiting writer can have led. */
  ghost predicate AfterRefill(m: Machine, s: nat, i: nat)
    reads m
  {
    m.Valid() && s < |m.st.sels|
    && (m.st.sels[s].pc == Refill(i) || m.st.sels[s].pc == Publish(i)
      || (m.st.sels[s].pc.Store? && m.st.sels[s].pc.i == i))
  }

  /** One iteration of the search. */
  method InspectWriter(m: Machine, s: nat, i: nat)
    requires On(m, s, Refill(i))
    modifies m
    ensures old(m.sched) <= m.sched && AfterRefill(m, s, i) && Measure(m.cfg, m.st) < Measure(m.cfg, old(m.st))
  {
    m.Interfere(s);
    Refills(m.cfg, m.sched, m.st, s, i);
    m.Advance(s);
  }

  /** After a value was taken from a bounded buffer: the oldest available writer gets its place. */
  method RefillFromWriter(m: Machine, s: nat, i: nat)
    requires On(m, s, Refill(i))
    modifies m
    ensures old(m.sched) <= m.sched && On(m, s, Publish(i))
  {
    while m.st.sels[s].pc == Refill(i)
      invariant AfterRefill(m, s, i) && old(m.sched) <= m.sched
      decreases Measure(m.cfg, m.st)
    {
      InspectWriter(m, s, i);
    }
    if m.st.sels[s].pc.Store? {
      m.Interfere(s);
      Stores(m.cfg, m.sched, m.st, s, i);
      m.Advance(s);
    }
  }

  /** Take the own flag and the oldest value of the buffer. */
  method TakeFromBuffer(m: Machine, s: nat, i: nat)
    requires On(m, s, Scan(i)) && Looking(m.cfg, m.st, s, i) && Decide(m.cfg, m.st, s, i) == FromBuffer
    modifies m
    ensures old(m.sched) <= m.sched && On(m, s, Publish(i))
  {
    TakesValue(m.cfg, m.sched, m.st, s, i);
    m.Advance(s);
    if m.cfg.caps[AltAt(m.cfg, s, i).chan].Some? { RefillFromWriter(m, s, i); }
  }

  /** Alternative `i` completed: it was ready when the thread took its own flag for it. */
  ghost predicate Finished(m: Machine, s: nat, i: nat)
    reads m
  {
    On(m, s, Publish(i)) && m.st.win[s] == Some(Claim(i, s)) && WasTaken(m.cfg, m.sched, s, i)
  }

  /** It did not.  Either nothing was to be had there, and a waiting select has left its node; or a peer
      has claimed the select, and the rest of the operation is left out. */
  ghost predicate Passes(m: Machine, s: nat, i: nat, next: nat)
    reads m
  {
    && On(m, s, Submit(next)) && i < next <= |m.cfg.selects[s].alts|
    && (|| (next == i + 1 && WasMissed(m.cfg, m.sched, s, i) && (m.cfg.selects[s].waits ==> i in m.st.sels[s].nodes))
        || (next == NextOp(m.cfg.selects[s].alts, i) && m.st.win[s].Some? && i !in m.st.sels[s].nodes))
  }

  /** How the submission goes on after alternative `i`: it is over if that completed (`done`), else
      it comes to alternative `next`. */
  ghost predicate GoesOn(m: Machine, s: nat, i: nat, done: bool, next: nat)
    reads m
  {
    if done then Finished(m, s, i) else Passes(m, s, i, next)
  }

  /** A peer has won by now: this operation is over, the next one comes. */
  method Concede(m: Machine, s: nat, i: nat) returns (next: nat)
    requires On(m, s, Scan(i)) && Looking(m.cfg, m.st, s, i) && Decide(m.cfg, m.st, s, i) == Quit
    modifies m
    ensures old(m.sched) <= m.sched && Passes(m, s, i, next)
  {
    Concedes(m.cfg, m.sched, m.st, s, i);
    m.Advance(s);
    return NextOp(m.cfg.selects[s].alts, i);
  }

  /** Leave a node, if the select waits, and go on with the next alternative. */
  method Register(m: Machine, s: nat, i: nat)
    requires On(m, s, Scan(i)) && Looking(m.cfg, m.st, s, i) && Decide(m.cfg, m.st, s, i) == Wait
    modifies m
    ensures old(m.sched) <= m.sched && Passes(m, s, i, i + 1)
  {
    Registers(m.cfg, m.sched, m.st, s, i);
    m.Advance(s);
  }

  /** Look for a counterpart in the list, and exchange the value with it. */
  method TryCounterpart(m: Machine, s: nat, i: nat) returns (found: bool)
    requires On(m, s, Scan(i)) && Searching(m.cfg, m.st, s, i)
    modifies m
    ensures old(m.sched) <= m.sched && m.Valid() && s < |m.st.sels|
    ensures if found then Finished(m, s, i) else On(m, s, Scan(i)) && FoundNobody(m.cfg, m.st, s, i)
  {
    found := DequeueFirstAvailable(m, s, i);
    if found {
      HandOver(m, s, i);
      Completes(m.cfg, m.sched, m.st, s, i);
    }
  }

  /** The buffer has a value: take it, unless the own flag is gone. */
  method ReadBuffer(m: Machine, s: nat, i: nat) returns (done: bool, next: nat)
    requires On(m, s, Scan(i)) && Looking(m.cfg, m.st, s, i) && AltAt(m.cfg, s, i).dir == Recv
    requires var c := AltAt(m.cfg, s, i).chan; m.cfg.caps[c] != Some(0) && m.st.chans[c].buffer != []
    modifies m
    ensures old(m.sched) <= m.sched && GoesOn(m, s, i, done, next)
  {
    Knows(m.cfg, m.sched, m.st, s, i);
    m.Interfere(s);
    Knows(m.cfg, m.sched, m.st, s, i);
    if m.st.win[s].Some? {
      next := Concede(m, s, i);
      return false, next;
    }
    TakeFromBuffer(m, s, i);
    Completes(m.cfg, m.sched, m.st, s, i);
    return true, i;
  }

  /** There is room in the buffer: fill it, unless the own flag is gone. */
  method WriteBuffer(m: Machine, s: nat, i: nat) returns (done: bool, next: nat)
    requires On(m, s, Scan(i)) && FoundNobody(m.cfg, m.st, s, i) && AltAt(m.cfg, s, i).dir == Send
    requires var c := AltAt(m.cfg, s, i).chan; m.cfg.caps[c] != Some(0) && !Full(m.cfg.caps[c], m.st.chans[c].buffer)
    modifies m
    ensures old(m.sched) <= m.sched && GoesOn(m, s, i, done, next)
  {
    if m.st.win[s].Some? {
      next := Concede(m, s, i);
      return false, next;
    }
    PutsValue(m.cfg, m.sched, m.st, s, i);
    m.Advance(s);
    Completes(m.cfg, m.sched, m.st, s, i);
    return true, i;
  }

  /** One channel of `read::submit_with_wait`; for a select that does not wait, one channel of
      `read::submit_if_ready`. */
  method SubmitRead(m: Machine, s: nat, i: nat) returns (done: bool, next: nat)
    requires On(m, s, Submit(i)) && i < |m.cfg.selects[s].alts| && AltAt(m.cfg, s, i).dir == Recv
    modifies m
    ensures old(m.sched) <= m.sched && GoesOn(m, s, i, done, next)
  {
    Lock(m, s, i);
    Knows(m.cfg, m.sched, m.st, s, i);
    var c := AltAt(m.cfg, s, i).chan;
    if m.cfg.caps[c] != Some(0) {
      if m.st.chans[c].buffer != [] {
        done, next := ReadBuffer(m, s, i);
        return;
      }
    } else {
      done := TryCounterpart(m, s, i);
      if done { return true, i; }
    }
    Register(m, s, i);
    return false, i + 1;
  }

  /** The same for `write`. */
  method SubmitWrite(m: Machine, s: nat, i: nat) returns (done: bool, next: nat)
    requires On(m, s, Submit(i)) && i < |m.cfg.selects[s].alts| && AltAt(m.cfg, s, i).dir == Send
    modifies m
    ensures old(m.sched) <= m.sched && GoesOn(m, s, i, done, next)
  {
    Lock(m, s, i);
    Knows(m.cfg, m.sched, m.st, s, i);
    var c := AltAt(m.cfg, s, i).chan;
    done := TryCounterpart(m, s, i);
    if done {
      return true, i;
    } else if m.cfg.caps[c] != Some(0) && !Full(m.cfg.caps[c], m.st.chans[c].buffer) {
      done, next := WriteBuffer(m, s, i);
      return;
    }
    Register(m, s, i);
    return false, i + 1;
  }

  /** One alternative of a submission. */
  method SubmitAlternative(m: Machine, s: nat, i: nat) returns (done: bool, next: nat)
    requires On(m, s, Submit(i)) && i < |m.cfg.selects[s].alts|
    modifies m
    ensures old(m.sched) <= m.sched && GoesOn(m, s, i, done, next)
  {
    match AltAt(m.cfg, s, i).dir {
      case Recv => done, next := SubmitRead(m, s, i);
      case Send => done, next := SubmitWrite(m, s, i);
      case Skip =>
        // `nothing` is always ready.
        ReachedIsSound(m.cfg, m.sched, m.st);
        m.Advance(s);
        Completes(m.cfg, m.sched, m.st, s, i);
        return true, i;
    }
  }

  /** The submission: one alternative after the other, until one completes. */
  method SubmitAll(m: Machine, s: nat) returns (i: nat, done: bool)
    requires On(m, s, Idle)
    modifies m
    ensures old(m.sched) <= m.sched
    ensures if done then On(m, s, Publish(i)) else i == |m.cfg.selects[s].alts| && On(m, s, Submit(i))
  {
    ReachedIsSound(m.cfg, m.sched, m.st);
    m.Advance(s);
    i, done := 0, false;
    while i < |m.cfg.selects[s].alts|
      invariant i <= |m.cfg.selects[s].alts| && old(m.sched) <= m.sched && On(m, s, Submit(i))
    {
      var next: nat;
      done, next := SubmitAlternative(m, s, i);
      if done { return; }
      i := next;
    }
  }

  // ---------------------------------------------------------------- after the submission

  lemma {:induction false} Publishes(cfg: Config, sched: seq<nat>, st: State, s: nat, i: nat)
    requires Shape(cfg, st) && LeadsTo(cfg, sched, st) && s < |st.sels| && st.sels[s].pc == Publish(i)
    ensures Enabled(cfg, st, s) && Step(cfg, st, s) == PublishStep(cfg, st, s, i)
    ensures Step(cfg, st, s).sels[s].pc == if cfg.selects[s].waits then Parked else Done(i)
  {
    ReachedIsSound(cfg, sched, st);
    StepIsSound(cfg, sched, st, s);
  }

  /** Wait for the promise.  If it is not set, nobody can move any more: the select sleeps, and
      each of its alternatives is registered and not ready. */
  method Await(m: Machine, s: nat) returns (woken: bool)
    requires On(m, s, Parked)
    modifies m
    ensures old(m.sched) <= m.sched && On(m, s, Parked)
    ensures woken == m.st.sels[s].promise.Some?
    ensures !woken ==> AtRest(m.cfg, m.st) && m.st.win[s].None?
  {
    m.Interfere(s);
    while m.st.sels[s].promise.None?
      invariant old(m.sched) <= m.sched && On(m, s, Parked)
      decreases Measure(m.cfg, m.st)
    {
      if p: nat :| p < |m.st.sels| && Enabled(m.cfg, m.st, p) {
        ReachedIsSound(m.cfg, m.sched, m.st);
        OthersSpare(m.cfg, m.st, p, s);
        m.Advance(p);
      } else {
        assert AtRest(m.cfg, m.st);
        ReachedIsSound(m.cfg, m.sched, m.st);
        RestIsQuiet(m.cfg, m.st, s);
        return false;
      }
    }
    return true;
  }

  lemma {:induction false} Resumes(cfg: Config, sched: seq<nat>, st: State, s: nat)
    requires Shape(cfg, st) && LeadsTo(cfg, sched, st) && s < |st.sels| && st.sels[s].pc == Parked
    requires st.sels[s].promise.Some?
    ensures Enabled(cfg, st, s) && Step(cfg, st, s) == ResumeStep(cfg, st, s, st.sels[s].promise.value)
    ensures Step(cfg, st, s).sels[s].pc == Clear(0, st.sels[s].promise.value)
  {
    ReachedIsSound(cfg, sched, st);
    StepIsSound(cfg, sched, st, s);
  }

  lemma {:induction false} Clears(cfg: Config, sched: seq<nat>, st: State, s: nat, j: nat, t: nat)
    requires Shape(cfg, st) && LeadsTo(cfg, sched, st) && s < |st.sels| && st.sels[s].pc == Clear(j, t)
    requires NeedsClearing(cfg, st, s, j, t) ==> Free(st, AltAt(cfg, s, j).chan)
    ensures Enabled(cfg, st, s) && Step(cfg, st, s) == ClearStep(cfg, st, s, j, t)
    ensures Step(cfg, st, s).sels[s].pc == if j == |cfg.selects[s].alts| then Done(t) else Clear(j + 1, t)
    ensures Step(cfg, st, s).sels[s].result == st.sels[s].result
  {
    ReachedIsSound(cfg, sched, st);
    StepIsSound(cfg, sched, st, s);
  }

  /** `clear_wait` for one alternative. */
  method ClearWait(m: Machine, s: nat, j: nat, t: nat)
    requires On(m, s, Clear(j, t)) && j < |m.cfg.selects[s].alts|
    modifies m
    ensures old(m.sched) <= m.sched && On(m, s, Clear(j + 1, t)) && m.st.sels[s].result == old(m.st.sels[s].result)
  {
    if NeedsClearing(m.cfg, m.st, s, j, t) {
      assert SpecOk(m.cfg, m.cfg.selects[s]) && AltOk(m.cfg, m.cfg.selects[s], AltAt(m.cfg, s, j));
      Acquire(m, s, AltAt(m.cfg, s, j).chan);
    }
    Clears(m.cfg, m.sched, m.st, s, j, t);
    m.Advance(s);
  }

  /** `clear_wait` of all operations: every registered alternative but the successful one has its
      node removed, under its channel's mutex. */
  method ClearWaits(m: Machine, s: nat, t: nat)
    requires On(m, s, Clear(0, t))
    modifies m
    ensures old(m.sched) <= m.sched && On(m, s, Done(t)) && m.st.sels[s].result == old(m.st.sels[s].result)
  {
    for j: nat := 0 to |m.cfg.selects[s].alts|
      invariant old(m.sched) <= m.sched && On(m, s, Clear(j, t)) && m.st.sels[s].result == old(m.st.sels[s].result)
    {
      ClearWait(m, s, j, t);
    }
    Clears(m.cfg, m.sched, m.st, s, |m.cfg.selects[s].alts|, t);
    m.Advance(s);
  }

  // ---------------------------------------------------------------- the two calls

  lemma {:induction false} Sleeps(cfg: Config, sched: seq<nat>, st: State, s: nat)
    requires Shape(cfg, st) && LeadsTo(cfg, sched, st) && s < |st.sels|
    requires st.sels[s].pc == Submit(|cfg.selects[s].alts|)
    ensures cfg.selects[s].waits && Enabled(cfg, st, s) && Step(cfg, st, s).sels[s].pc == Parked
  {
    ReachedIsSound(cfg, sched, st);
    assert SelCtl(cfg, st, s);
  }

  /** The part that runs before the coroutine is suspended. */
  method Suspend(m: Machine, s: nat)
    requires On(m, s, Idle) && m.cfg.selects[s].waits
    modifies m
    ensures old(m.sched) <= m.sched && On(m, s, Parked)
  {
    var i, done := SubmitAll(m, s);
    m.Interfere(s);
    if !done {
      Sleeps(m.cfg, m.sched, m.st, s);
      m.Advance(s);
    } else {
      Publishes(m.cfg, m.sched, m.st, s, i);
      m.Advance(s);
    }
  }

  /** The part that runs once the promise is set. */
  method Resume(m: Machine, s: nat) returns (token: nat, value: Option<Value>)
    requires On(m, s, Parked) && m.st.sels[s].promise.Some?
    modifies m
    ensures old(m.sched) <= m.sched && On(m, s, Done(token)) && value == m.st.sels[s].result
  {
    token := m.st.sels[s].promise.value;
    Resumes(m.cfg, m.sched, m.st, s);
    m.Advance(s);
    value := m.st.sels[s].result;
    ClearWaits(m, s, token);
  }

  /** The token is the one the select completed with, and the value of a read the one it was dealt. */
  ghost predicate Answers(m: Machine, s: nat, token: nat, value: Option<Value>)
    requires m.Valid() && s < |m.st.sels|
    reads m
  {
    && m.st.sels[s].pc == Done(token) && value == m.st.sels[s].result
    && Truthful(m.cfg, Abs(m.cfg, m.st), m.st.sels[s], s, token) && OneDeal(m.cfg, Abs(m.cfg, m.st), s, token)
  }

  /** `select`, among any other threads.  It returns the token it was claimed for and, of a read, the
      value that was dealt to it; or it sleeps while the whole system is at rest. */
  method Select(m: Machine, s: nat) returns (returned: bool, token: nat, value: Option<Value>)
    requires On(m, s, Idle) && m.cfg.selects[s].waits
    modifies m
    ensures m.Valid() && s < |m.st.sels| && old(m.sched) <= m.sched
    ensures if returned then Answers(m, s, token, value)
      else On(m, s, Parked) && AtRest(m.cfg, m.st) && m.st.win[s].None?
  {
    Suspend(m, s);
    token, value := 0, None;
    returned := Await(m, s);
    if returned {
      token, value := Resume(m, s);
      ReturnsWhatWasDealt(m.cfg, m.sched, s, token);
    }
  }

  /** `select_ready`, among any other threads: it always returns, with the first ready alternative. */
  method SelectReady(m: Machine, s: nat) returns (token: nat, value: Option<Value>)
    requires On(m, s, Idle) && !m.cfg.selects[s].waits
    modifies m
    ensures m.Valid() && s < |m.st.sels| && old(m.sched) <= m.sched && Answers(m, s, token, value)
    ensures exists k :: TookReady(m.cfg, m.sched, k, s, token)
    ensures forall i :: 0 <= i < token ==> WasNotReady(m.cfg, m.sched, s, i)
  {
    var i, done := SubmitAll(m, s);
    if !done { Sleeps(m.cfg, m.sched, m.st, s); }
    token := i;
    m.Interfere(s);
    Publishes(m.cfg, m.sched, m.st, s, token);
    m.Advance(s);
    value := m.st.sels[s].result;
    var k := ReturnsFirstReady(m.cfg, m.sched, s, token);
    ReturnsWhatWasDealt(m.cfg, m.sched, s, token);
  }
}
