/** What every run of the protocol guarantees, whatever the configuration and the interleaving. */
module Runs {
  import opened Options
  import opened Protocol
  import opened Filters
  import opened Invariant
  import opened KeepCtl
  import opened Keep

  /** The state after a schedule: the listed selects step one after the other; one that is blocked
      or finished when its turn comes does nothing. */
  function Exec(cfg: Config, sched: seq<nat>): (st: State)
    requires ConfigOk(cfg)
    ensures Shape(cfg, st)
  {
    if sched == [] then InitShape(cfg); Init(cfg) else
      var st := Exec(cfg, sched[..|sched| - 1]);
      var s := sched[|sched| - 1];
      if Enabled(cfg, st, s) then Step(cfg, st, s) else st
  }

  /** Reachable states satisfy the invariant, and no assertion of the code ever fails: slots are
      full or empty as `transfer`, `read` and `write` demand, buffers are not over- or underrun,
      promises are set once, every select ends up with a result. */
  lemma {:induction false} AssertionsHold(cfg: Config, sched: seq<nat>)
    requires ConfigOk(cfg)
    ensures Inv(cfg, Exec(cfg, sched)) && Exec(cfg, sched).health != AssertFailed
  {
    if sched == [] {
      InitInv(cfg);
    } else {
      AssertionsHold(cfg, sched[..|sched| - 1]);
      var st, s := Exec(cfg, sched[..|sched| - 1]), sched[|sched| - 1];
      if Enabled(cfg, st, s) { KeepStep(cfg, st, s); }
    }
  }

  // ---------------------------------------------------------------- wake-ups

  /** An operation on the channel could complete now: the alternative is ready. */
  ghost predicate Servable(cfg: Config, st: State, a: Alt)
    requires Shape(cfg, st) && (a.dir != Skip ==> a.chan < |st.chans|)
  {
    match a.dir
    case Recv =>
      st.chans[a.chan].buffer != [] || (cfg.caps[a.chan] == Some(0) && AnyOpen(st.win, st.chans[a.chan].writers))
    case Send => AnyOpen(st.win, st.chans[a.chan].readers)
                 || (cfg.caps[a.chan] != Some(0) && !Full(cfg.caps[a.chan], st.chans[a.chan].buffer))
    case Skip => true
  }

  /** An available reader finds no value and no available writer; an available writer finds no
      room, except that a thread which holds the mutex may be about to give it the last place of
      the buffer. */
  ghost predicate NobodyWaitsInVain(cfg: Config, st: State, c: nat)
    requires Shape(cfg, st) && c < |st.chans|
  {
    var ch := st.chans[c];
    && (forall n :: n in ch.readers && Open(st.win, n) ==>
          ch.buffer == [] && forall m :: m in ch.writers ==> !Open(st.win, m))
    && (forall n :: n in ch.writers && Open(st.win, n) ==>
          Full(cfg.caps[c], ch.buffer)
          || (ch.owner.Some? && ch.owner.value < |st.sels|
            && (st.sels[ch.owner.value].pc.Refill? || st.sels[ch.owner.value].pc.Store?)
              && cfg.caps[c] == Some(|ch.buffer| + 1)))
    && (cfg.caps[c].Some? ==> |ch.buffer| <= cfg.caps[c].value)
  }

  lemma WakeMeans(cfg: Config, st: State, c: nat)
    requires Shape(cfg, st) && c < |st.chans| && ChanWake(cfg, st, c)
    ensures NobodyWaitsInVain(cfg, st, c)
  {
    OpenOfMembers(st.win, st.chans[c].readers);
    OpenOfMembers(st.win, st.chans[c].writers);
  }

  /** No lost wake-up, in any run: whoever waits on a channel and is still available could not be
      served, although flags are cleared without the channel's mutex. */
  lemma {:induction false} NoLostWakeup(cfg: Config, sched: seq<nat>, c: nat)
    requires ConfigOk(cfg) && c < |cfg.caps|
    ensures NobodyWaitsInVain(cfg, Exec(cfg, sched), c)
  {
    assert ChanWake(cfg, Exec(cfg, sched), c) by { AssertionsHold(cfg, sched); }
    WakeMeans(cfg, Exec(cfg, sched), c);
  }

  /** A select that has gone to sleep unclaimed is registered with every one of its alternatives,
      and none of them is ready while its channel is not being worked on. */
  lemma {:induction false} SleepersAreRegistered(cfg: Config, sched: seq<nat>, s: nat, i: nat)
    requires ConfigOk(cfg) && s < |cfg.selects| && i < |cfg.selects[s].alts|
    requires Exec(cfg, sched).sels[s].pc == Parked && Exec(cfg, sched).win[s].None?
    ensures var st, a := Exec(cfg, sched), AltAt(cfg, s, i);
      && a.dir != Skip && Node(s, i) in Own(a.dir, st.chans[a.chan])
      && (Free(st, a.chan) ==> !Servable(cfg, st, a))
  {
    var st, a := Exec(cfg, sched), AltAt(cfg, s, i);
    assert SelCtl(cfg, st, s) && SelLists(cfg, st, s) by { AssertionsHold(cfg, sched); }
    assert SpecOk(cfg, cfg.selects[s]) && AltOk(cfg, cfg.selects[s], a);
    assert Node(s, i) in Own(a.dir, st.chans[a.chan]) && Open(st.win, Node(s, i));
    NoLostWakeup(cfg, sched, a.chan);
  }

  // ---------------------------------------------------------------- selection happens once

  /** `b` comes after `a`: what was decided stays decided. */
  ghost predicate Final(a: State, b: State, s: nat) {
    && s < |a.win| == |a.sels| && |b.win| == |a.win| && |b.sels| == |a.sels|
    && (a.win[s].Some? ==> b.win[s] == a.win[s])
    && (a.sels[s].promise.Some? ==> b.sels[s].promise == a.sels[s].promise)
    && (a.sels[s].pc.Done? ==> b.sels[s] == a.sels[s])
  }

  lemma ScanIsFinal(cfg: Config, st: State, s: nat, i: nat, q: nat)
    requires Shape(cfg, st) && s < |st.sels| && PcOk(cfg, s, Scan(i)) && !st.sels[s].pc.Done?
    requires Decide(cfg, st, s, i) == Rendezvous ==> HeadListed(cfg, st, s, i)
    requires q < |st.sels|
    ensures Final(st, ScanStep(cfg, st, s, i), q)
  {}

  lemma HandOverIsFinal(cfg: Config, st: State, s: nat, q: nat)
    requires Shape(cfg, st) && Enabled(cfg, st, s) && SelCtl(cfg, st, s) && q < |st.sels| && SelCtl(cfg, st, q)
    requires PeerOf(st.sels[s].pc).Some?
    ensures Final(st, Step(cfg, st, s), q)
  {}

  lemma OtherIsFinal(cfg: Config, st: State, s: nat, q: nat)
    requires Shape(cfg, st) && Enabled(cfg, st, s) && SelCtl(cfg, st, s) && q < |st.sels|
    requires PeerOf(st.sels[s].pc).None? && !st.sels[s].pc.Scan?
    ensures Final(st, Step(cfg, st, s), q)
  {}

  /** A step never takes a flag twice, and sets no promise twice. */
  lemma StepIsFinal(cfg: Config, st: State, s: nat, q: nat)
    requires Inv(cfg, st) && Enabled(cfg, st, s) && q < |st.sels|
    ensures Final(st, Step(cfg, st, s), q)
  {
    assert SelCtl(cfg, st, s) && SelCtl(cfg, st, q);
    if st.sels[s].pc.Scan? {
      if Decide(cfg, st, s, st.sels[s].pc.i) == Rendezvous { HeadIsOther(cfg, st, s, st.sels[s].pc.i); }
      ScanIsFinal(cfg, st, s, st.sels[s].pc.i, q);
    } else if PeerOf(st.sels[s].pc).Some? {
      HandOverIsFinal(cfg, st, s, q);
    } else {
      OtherIsFinal(cfg, st, s, q);
    }
  }

  lemma {:induction false} NextIsFinal(cfg: Config, sched: seq<nat>, s: nat, q: nat)
    requires ConfigOk(cfg) && q < |cfg.selects|
    ensures Final(Exec(cfg, sched), Exec(cfg, sched + [s]), q)
  {
    assert (sched + [s])[..|sched + [s]| - 1] == sched;
    if Enabled(cfg, Exec(cfg, sched), s) {
      assert Final(Exec(cfg, sched), Step(cfg, Exec(cfg, sched), s), q) by {
        AssertionsHold(cfg, sched);
        StepIsFinal(cfg, Exec(cfg, sched), s, q);
      }
    }
  }

  /** What is decided in a run stays decided however it goes on: a flag goes down at most once, for
      one alternative; a promise is set at most once; who has returned does nothing more. */
  lemma {:induction false} DecisionsAreFinal(cfg: Config, sched: seq<nat>, more: seq<nat>, s: nat)
    requires ConfigOk(cfg) && s < |cfg.selects|
    ensures Final(Exec(cfg, sched), Exec(cfg, sched + more), s)
  {
    if more == [] {
      assert sched + more == sched;
    } else {
      var most, last := more[..|more| - 1], more[|more| - 1];
      DecisionsAreFinal(cfg, sched, most, s);
      NextIsFinal(cfg, sched + most, last, s);
      assert sched + more == sched + most + [last];
    }
  }

  /** The thread `q` has taken the flag of `s` and will set its promise. */
  ghost predicate Debtor(st: State, q: nat, s: nat) {
    && q < |st.sels| && s < |st.win| && st.win[s].Some?
    && if q == s
       then
         st.win[s].value.who == s
         && (st.sels[s].pc.Refill? || st.sels[s].pc.Match? || st.sels[s].pc.Store? || st.sels[s].pc.Publish?)
       else PeerOf(st.sels[q].pc) == Some(Node(s, st.win[s].value.tok))
  }

  /** The alternative is among those that completed on its channel. */
  ghost predicate CompletedOn(cfg: Config, st: State, s: nat, t: nat)
    requires Shape(cfg, st) && s < |st.sels|
  {
    && t < |cfg.selects[s].alts|
    && match AltAt(cfg, s, t).dir
       case Send => Node(s, t) in st.chans[AltAt(cfg, s, t).chan].sent
       case Recv => Node(s, t) in st.chans[AltAt(cfg, s, t).chan].recv
       case Skip => true
  }

  /** Exactly one selection: a claimed select completes on the channel of the alternative it was
      claimed for, and nowhere else; unclaimed ones complete nowhere.  Its promise carries that
      alternative's token, or is owed by exactly one thread. */
  lemma {:induction false} SelectedOnce(cfg: Config, sched: seq<nat>, s: nat)
    requires ConfigOk(cfg) && s < |cfg.selects|
    ensures var st := Exec(cfg, sched);
      && (forall c, n | 0 <= c < |st.chans| && n in st.chans[c].sent + st.chans[c].recv && n.sel == s ::
            st.win[s].Some? && n.tok == st.win[s].value.tok && n.tok < |cfg.selects[s].alts|
              && AltAt(cfg, s, n.tok).chan == c)
      && (forall c | 0 <= c < |st.chans| :: NoDup(st.chans[c].sent) && NoDup(st.chans[c].recv))
      && (st.win[s].Some? ==> CompletedOn(cfg, st, s, st.win[s].value.tok))
      && (st.sels[s].promise.Some? ==> st.win[s].Some? && st.sels[s].promise.value == st.win[s].value.tok)
  {
    var st := Exec(cfg, sched);
    assert SelCtl(cfg, st, s) && SelLogged(cfg, st, s) by { AssertionsHold(cfg, sched); }
    forall c | 0 <= c < |st.chans|
      ensures NoDup(st.chans[c].sent) && NoDup(st.chans[c].recv)
      ensures forall n | n in st.chans[c].sent + st.chans[c].recv && n.sel == s ::
        st.win[s].Some? && n.tok == st.win[s].value.tok && n.tok < |cfg.selects[s].alts|
          && AltAt(cfg, s, n.tok).chan == c
    {
      assert ChanQueues(cfg, st, c) by { AssertionsHold(cfg, sched); }
    }
  }

  lemma {:induction false} OneDebtor(cfg: Config, sched: seq<nat>, s: nat) returns (q: nat)
    requires ConfigOk(cfg) && s < |cfg.selects| && cfg.selects[s].waits
    requires Exec(cfg, sched).win[s].Some? && Exec(cfg, sched).sels[s].promise.None?
    ensures Debtor(Exec(cfg, sched), q, s)
    ensures forall p :: Debtor(Exec(cfg, sched), p, s) ==> p == q
    ensures Exec(cfg, sched).health == Ok ==> Enabled(cfg, Exec(cfg, sched), q)
  {
    var st := Exec(cfg, sched);
    assert SelCtl(cfg, st, s) by { AssertionsHold(cfg, sched); }
    q := st.win[s].value.who;
    forall p | Debtor(st, p, s) ensures p == q {
      assert SelCtl(cfg, st, p) by { AssertionsHold(cfg, sched); }
    }
  }
}
