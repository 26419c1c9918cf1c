/**
 What the decisions of a select are worth: an alternative is taken only when it is ready and is
 passed over only when it is not, at a definite moment of the run.  For `select_ready` this says
 that it returns the first ready alternative, in the order of its arguments.
 */
module Ready {
  import opened Options
  import opened Protocol
  import opened Filters
  import opened Invariant
  import opened KeepCtl
  import opened Keep
  import opened Runs
  import opened Fifo
  import opened Abstract
  import opened Progress

  /** The offers of a channel are the stock and the givers of its atomic picture. */
  lemma OffersAreQueued(cfg: Config, st: State, c: nat)
    requires Shape(cfg, st) && c < |st.chans| && ChanFlow(cfg, st, c)
    ensures var q := Abs(cfg, st).queues[c]; Offers(cfg, st, c) == q.stock + Inputs(cfg, q.givers)
  {
    StockIsSent(cfg, st, c);
  }

  /** The holder of the mutex sees a ready alternative, or has to look on, or none is there. */
  lemma DecidesRightly(cfg: Config, st: State, s: nat, i: nat)
    requires Here(cfg, st, s, Scan(i)) && st.win[s].None? && ChanWake(cfg, st, ChanOf(cfg, s, i))
    ensures match Decide(cfg, st, s, i)
      case DropStale => true
      case Quit => false
      case Wait => !Servable(cfg, st, AltAt(cfg, s, i))
      case _ => Servable(cfg, st, AltAt(cfg, s, i))
  {
    var a := AltAt(cfg, s, i);
    var list := Opposite(a.dir, st.chans[a.chan]);
    WakeMeans(cfg, st, a.chan);
    assert list == [] || list[0] in list;
  }

  lemma ServableAfterPop(cfg: Config, st: State, c: nat, dir: Dir, a: Alt)
    requires Shape(cfg, st) && c < |st.chans| && (a.dir != Skip ==> a.chan < |st.chans|)
    requires Opposite(dir, st.chans[c]) != [] && !Open(st.win, Opposite(dir, st.chans[c])[0])
    requires Shape(cfg, Pop(st, c, dir))
    ensures Servable(cfg, Pop(st, c, dir), a) == Servable(cfg, st, a)
  {
    AnyOpenBehind(st.win, Opposite(dir, st.chans[c]));
  }

  /** Dropping a stale node makes no alternative of any select ready, nor unready, and cannot be
      seen in the atomic picture. */
  lemma DroppingChangesNothing(cfg: Config, st: State, s: nat, i: nat)
    requires Here(cfg, st, s, Scan(i)) && Decide(cfg, st, s, i) == DropStale
    ensures forall a: Alt | a.dir != Skip ==> a.chan < |st.chans| ::
      Servable(cfg, ScanStep(cfg, st, s, i), a) == Servable(cfg, st, a)
    ensures Abs(cfg, ScanStep(cfg, st, s, i)) == Abs(cfg, st)
  {
    var c, dir := ChanOf(cfg, s, i), AltAt(cfg, s, i).dir;
    assert ScanStep(cfg, st, s, i) == Pop(st, c, dir);
    forall a: Alt | a.dir != Skip ==> a.chan < |st.chans|
      ensures Servable(cfg, Pop(st, c, dir), a) == Servable(cfg, st, a)
    {
      ServableAfterPop(cfg, st, c, dir, a);
    }
    StalePop(cfg, st, c, dir);
  }

  // ---------------------------------------------------------------- moments of a run

  /** The step that takes the run from `sched[..k]` to `sched[..k + 1]` is one of select `s`. */
  ghost predicate StepsAt(cfg: Config, sched: seq<nat>, k: nat, s: nat)
    requires ConfigOk(cfg)
  {
    k < |sched| && sched[k] == s && Enabled(cfg, Exec(cfg, sched[..k]), s)
  }

  /** At moment `k` the select looked at alternative `i`, which was not ready, and went on without
      any effect that others could notice. */
  ghost predicate TriedInVain(cfg: Config, sched: seq<nat>, k: nat, s: nat, i: nat)
    requires ConfigOk(cfg) && s < |cfg.selects|
  {
    && StepsAt(cfg, sched, k, s) && Exec(cfg, sched[..k]).sels[s].pc == Scan(i) && i < |cfg.selects[s].alts|
    && AltAt(cfg, s, i).dir != Skip && AltAt(cfg, s, i).chan < |cfg.caps|
    && !Servable(cfg, Exec(cfg, sched[..k]), AltAt(cfg, s, i))
    && Abs(cfg, Exec(cfg, sched[..k + 1])) == Abs(cfg, Exec(cfg, sched[..k]))
  }

  /** A wait-free select is past its alternative `i`. */
  ghost predicate Past(st: State, s: nat, i: nat)
    requires s < |st.sels|
  {
    match st.sels[s].pc
    case Idle => false
    case Submit(j) => i < j
    case Scan(j) => i < j
    case Refill(j) => i < j
    case Match(j, _) => i < j
    case Store(j, _) => i < j
    case Publish(j) => i < j
    case Parked => false
    case Clear(_, _) => false
    case Done(t) => i < t
  }

  /** A thread moves no program point but its own. */
  lemma OthersStay(cfg: Config, st: State, p: nat, s: nat)
    requires Shape(cfg, st) && Enabled(cfg, st, p) && s < |st.sels| && p != s
    ensures Step(cfg, st, p).sels[s].pc == st.sels[s].pc
  {}

  lemma ScanGetsPast(cfg: Config, st: State, s: nat, i: nat, j: nat)
    requires Here(cfg, st, s, Scan(j)) && !cfg.selects[s].waits && j <= i && Past(ScanStep(cfg, st, s, j), s, i)
    ensures j == i && Decide(cfg, st, s, i) == Wait && st.win[s].None?
  {}

  lemma SubmitStaysBefore(cfg: Config, st: State, s: nat, i: nat, j: nat)
    requires Here(cfg, st, s, Submit(j)) && j <= i < |cfg.selects[s].alts|
    ensures !Past(SubmitStep(cfg, st, s, j), s, i)
  {}

  lemma OtherStaysBefore(cfg: Config, st: State, s: nat, i: nat)
    requires Shape(cfg, st) && Enabled(cfg, st, s) && SelCtl(cfg, st, s) && !cfg.selects[s].waits && !Past(st, s, i)
    requires !st.sels[s].pc.Scan? && !st.sels[s].pc.Submit?
    ensures !Past(Step(cfg, st, s), s, i)
  {}

  /** Only looking at `i` and finding nothing gets a wait-free select past `i`. */
  lemma GetsPast(cfg: Config, st: State, p: nat, s: nat, i: nat)
    requires Shape(cfg, st) && Enabled(cfg, st, p) && s < |st.sels| && SelCtl(cfg, st, p) && SelCtl(cfg, st, s)
    requires !cfg.selects[s].waits && i < |cfg.selects[s].alts|
    requires !Past(st, s, i) && Past(Step(cfg, st, p), s, i)
    ensures p == s && st.sels[s].pc == Scan(i) && Decide(cfg, st, s, i) == Wait && st.win[s].None?
  {
    if p != s {
      OthersStay(cfg, st, p, s);
    } else {
      match st.sels[s].pc {
        case Scan(j) => ScanGetsPast(cfg, st, s, i, j);
        case Submit(j) => SubmitStaysBefore(cfg, st, s, i, j);
        case _ => OtherStaysBefore(cfg, st, s, i);
      }
    }
  }

  lemma {:induction false} PrefixOfPrefix(sched: seq<nat>, n: nat, k: nat)
    requires k < n <= |sched|
    ensures sched[..n][..k] == sched[..k] && sched[..n][..k + 1] == sched[..k + 1] && sched[..n][k] == sched[k]
  {}

  lemma {:induction false} LastStep(cfg: Config, sched: seq<nat>)
    requires ConfigOk(cfg) && sched != []
    ensures var n := |sched| - 1; var st := Exec(cfg, sched[..n]);
            sched[..n + 1] == sched
              && Exec(cfg, sched) == (if Enabled(cfg, st, sched[n]) then Step(cfg, st, sched[n]) else st)
  {}

  lemma {:induction false} TryFails(cfg: Config, sched: seq<nat>, k: nat, s: nat, i: nat)
    requires ConfigOk(cfg) && StepsAt(cfg, sched, k, s) && s < |cfg.selects| && i < |cfg.selects[s].alts|
    requires !cfg.selects[s].waits
    requires Exec(cfg, sched[..k]).sels[s].pc == Scan(i) && AltAt(cfg, s, i).dir != Skip
    requires Decide(cfg, Exec(cfg, sched[..k]), s, i) == Wait && Exec(cfg, sched[..k]).win[s].None?
    ensures TriedInVain(cfg, sched, k, s, i)
  {
    var st := Exec(cfg, sched[..k]);
    assert Here(cfg, st, s, Scan(i)) && ChanWake(cfg, st, ChanOf(cfg, s, i)) by { AssertionsHold(cfg, sched[..k]); }
    DecidesRightly(cfg, st, s, i);
    Unseen(cfg, st, Enlist(cfg, st, s, i), ChanOf(cfg, s, i));
    LastStep(cfg, sched[..k + 1]);
    assert sched[..k + 1][..k] == sched[..k];
  }

  /** `select_ready` passes an alternative over only if it is not ready at the moment it is looked
      at, and leaves the channel as it was in the eyes of everybody else. */
  lemma {:induction false} EarlierWereTried(cfg: Config, sched: seq<nat>, s: nat, i: nat) returns (k: nat)
    requires ConfigOk(cfg) && s < |cfg.selects| && !cfg.selects[s].waits && i < |cfg.selects[s].alts|
    requires AltAt(cfg, s, i).dir != Skip
    requires Past(Exec(cfg, sched), s, i)
    ensures TriedInVain(cfg, sched, k, s, i)
  {
    var n := |sched| - 1;
    LastStep(cfg, sched);
    if Past(Exec(cfg, sched[..n]), s, i) {
      k := EarlierWereTried(cfg, sched[..n], s, i);
      PrefixOfPrefix(sched, n, k);
    } else {
      k := n;
      assert SelCtl(cfg, Exec(cfg, sched[..n]), s) && SelCtl(cfg, Exec(cfg, sched[..n]), sched[n]) by {
        AssertionsHold(cfg, sched[..n]);
      }
      GetsPast(cfg, Exec(cfg, sched[..n]), sched[n], s, i);
      TryFails(cfg, sched, n, s, i);
    }
  }

  // ---------------------------------------------------------------- the moment of the choice

  /** The atomic action in which alternative `t` completes on its own account. */
  ghost function ActFor(cfg: Config, a: Spec, s: nat, t: nat): Act
    requires s < |cfg.selects| && t < |cfg.selects[s].alts|
    requires (AltAt(cfg, s, t).dir != Skip ==> AltAt(cfg, s, t).chan < |a.queues|)
  {
    var n, alt := Node(s, t), AltAt(cfg, s, t);
    match alt.dir
    case Skip => Pass(n)
    case Send => if a.queues[alt.chan].takers != [] then Meet(n) else Put(n)
    case Recv => if a.queues[alt.chan].stock != [] then Get(n) else Meet(n)
  }

  /** At moment `k` the select took alternative `t`, which was ready, in one atomic action. */
  ghost predicate TookReady(cfg: Config, sched: seq<nat>, k: nat, s: nat, t: nat)
    requires ConfigOk(cfg) && s < |cfg.selects|
  {
    && StepsAt(cfg, sched, k, s) && t < |cfg.selects[s].alts|
    && Exec(cfg, sched[..k]).sels[s].pc == (if AltAt(cfg, s, t).dir == Skip then Submit(t) else Scan(t))
    && (AltAt(cfg, s, t).dir != Skip ==> AltAt(cfg, s, t).chan < |cfg.caps|)
    && Servable(cfg, Exec(cfg, sched[..k]), AltAt(cfg, s, t))
    && Simulates(cfg, Exec(cfg, sched[..k]), ActFor(cfg, Abs(cfg, Exec(cfg, sched[..k])), s, t),
      Exec(cfg, sched[..k + 1]))
  }

  lemma TakesForItself(cfg: Config, st: State, p: nat, s: nat)
    requires Shape(cfg, st) && Enabled(cfg, st, p) && s < |st.sels| && st.win[s].None?
    ensures Step(cfg, st, p).win[s].Some? ==> Step(cfg, st, p).win[s].value.who == p
    ensures Step(cfg, st, p).win[s].Some? ==> st.sels[p].pc.Scan? || st.sels[p].pc.Submit? || st.sels[p].pc.Refill?
  {}

  lemma ScanTakes(cfg: Config, st: State, s: nat, i: nat)
    requires Here(cfg, st, s, Scan(i)) && st.win[s].None? && ScanStep(cfg, st, s, i).win[s].Some?
    requires Decide(cfg, st, s, i) == Rendezvous ==> HeadListed(cfg, st, s, i)
    ensures ScanStep(cfg, st, s, i).win[s].value.tok == i && Decide(cfg, st, s, i) in {Rendezvous, FromBuffer, ToBuffer}
  {}

  lemma SubmitTakes(cfg: Config, st: State, s: nat, i: nat)
    requires Here(cfg, st, s, Submit(i)) && st.win[s].None? && SubmitStep(cfg, st, s, i).win[s].Some?
    ensures i < |cfg.selects[s].alts| && AltAt(cfg, s, i).dir == Skip && SubmitStep(cfg, st, s, i).win[s].value.tok == i
  {}

  /** The outcome of a scan, in atomic terms. */
  lemma ScanActs(cfg: Config, st: State, s: nat, i: nat)
    requires Here(cfg, st, s, Scan(i)) && ChanWake(cfg, st, ChanOf(cfg, s, i)) && ChanFlow(cfg, st, ChanOf(cfg, s, i))
    requires Decide(cfg, st, s, i) in {Rendezvous, FromBuffer, ToBuffer}
    ensures ActOf(cfg, st, s) == ActFor(cfg, Abs(cfg, st), s, i)
  {
    AtScan(cfg, st, s, i);
    WakeMeans(cfg, st, ChanOf(cfg, s, i));
  }

  /** Where a thread takes its own flag: at a ready alternative. */
  lemma OwnClaim(cfg: Config, st: State, s: nat)
    requires Inv(cfg, st) && Enabled(cfg, st, s) && s < |st.sels| && st.win[s].None? && Step(cfg, st, s).win[s].Some?
    ensures var t := Step(cfg, st, s).win[s].value.tok;
      && t < |cfg.selects[s].alts| && (AltAt(cfg, s, t).dir != Skip ==> AltAt(cfg, s, t).chan < |st.chans|)
      && st.sels[s].pc == (if AltAt(cfg, s, t).dir == Skip then Submit(t) else Scan(t))
      && Servable(cfg, st, AltAt(cfg, s, t)) && ActOf(cfg, st, s) == ActFor(cfg, Abs(cfg, st), s, t)
  {
    assert SelCtl(cfg, st, s);
    TakesForItself(cfg, st, s, s);
    match st.sels[s].pc {
      case Scan(i) =>
        OfChan(cfg, st, ChanOf(cfg, s, i));
        if Decide(cfg, st, s, i) == Rendezvous { HeadIsOther(cfg, st, s, i); }
        ScanTakes(cfg, st, s, i);
        DecidesRightly(cfg, st, s, i);
        ScanActs(cfg, st, s, i);
      case Submit(i) => SubmitTakes(cfg, st, s, i);
      case _ =>
    }
  }

  /** If the last step took the flag, it is the one. */
  lemma {:induction false} ChosenNow(cfg: Config, sched: seq<nat>, s: nat, t: nat)
    requires ConfigOk(cfg) && s < |cfg.selects| && sched != [] && Exec(cfg, sched).win[s] == Some(Claim(t, s))
    requires Exec(cfg, sched[..|sched| - 1]).win[s].None?
    ensures TookReady(cfg, sched, |sched| - 1, s, t)
  {
    var n := |sched| - 1;
    var st := Exec(cfg, sched[..n]);
    LastStep(cfg, sched);
    TakesForItself(cfg, st, sched[n], s);
    AssertionsHold(cfg, sched[..n]);
    OwnClaim(cfg, st, s);
    StepRefines(cfg, st, s);
  }

  /** Whoever completes on its own account does so with an alternative that is ready at that very
      moment, and in one atomic action. */
  lemma {:induction false} ChosenWasReady(cfg: Config, sched: seq<nat>, s: nat, t: nat) returns (k: nat)
    requires ConfigOk(cfg) && s < |cfg.selects| && Exec(cfg, sched).win[s] == Some(Claim(t, s))
    ensures TookReady(cfg, sched, k, s, t)
  {
    assert sched != [];
    var n := |sched| - 1;
    if Exec(cfg, sched[..n]).win[s].Some? {
      NextIsFinal(cfg, sched[..n], sched[n], s);
      assert sched[..n] + [sched[n]] == sched;
      k := ChosenWasReady(cfg, sched[..n], s, t);
      PrefixOfPrefix(sched, n, k);
    } else {
      k := n;
      ChosenNow(cfg, sched, s, t);
    }
  }

  // ---------------------------------------------------------------- reads take the head

  lemma DealsStay(cfg: Config, a: Spec, act: Act, c: nat)
    requires SpecShape(cfg, a) && Allowed(cfg, a, act) && c < |cfg.caps|
    ensures SpecShape(cfg, Do(cfg, a, act)) && a.queues[c].deals <= Do(cfg, a, act).queues[c].deals
  {}

  /** From `a` to `b` channel `c` keeps its deals. */
  ghost predicate DealsKept(cfg: Config, a: State, b: State, c: nat) {
    c < |a.chans| == |b.chans| && Abs(cfg, a).queues[c].deals <= Abs(cfg, b).queues[c].deals
  }

  lemma KeptThrough(cfg: Config, a: State, b: State, d: State, c: nat)
    requires DealsKept(cfg, a, b, c) && DealsKept(cfg, b, d, c)
    ensures DealsKept(cfg, a, d, c)
  {}

  lemma {:induction false} NextDeals(cfg: Config, sched: seq<nat>, s: nat, c: nat)
    requires ConfigOk(cfg) && c < |cfg.caps|
    ensures DealsKept(cfg, Exec(cfg, sched), Exec(cfg, sched + [s]), c)
  {
    var act := NextRefines(cfg, sched, s);
    DealsStay(cfg, Abs(cfg, Exec(cfg, sched)), act, c);
  }

  lemma {:induction false} DealsStayFor(cfg: Config, sched: seq<nat>, more: seq<nat>, c: nat)
    requires ConfigOk(cfg) && c < |cfg.caps|
    ensures DealsKept(cfg, Exec(cfg, sched), Exec(cfg, sched + more), c)
  {
    if more == [] {
      assert sched + more == sched;
    } else {
      var most, last := more[..|more| - 1], more[|more| - 1];
      DealsStayFor(cfg, sched, most, c);
      NextDeals(cfg, sched + most, last, c);
      KeptThrough(cfg, Exec(cfg, sched), Exec(cfg, sched + most), Exec(cfg, sched + most + [last]), c);
      assert sched + more == sched + most + [last];
    }
  }

  /** A read that completes on its own account is dealt the first offer. */
  lemma FirstOfferIsDealt(cfg: Config, a: Spec, s: nat, t: nat)
    requires SpecShape(cfg, a) && s < |cfg.selects| && t < |cfg.selects[s].alts| && AltAt(cfg, s, t).dir == Recv
    requires AltAt(cfg, s, t).chan < |a.queues| && Allowed(cfg, a, ActFor(cfg, a, s, t))
    ensures var q := a.queues[AltAt(cfg, s, t).chan]; var offers := q.stock + Inputs(cfg, q.givers);
            offers != []
              && Deal(Node(s, t), offers[0]) in Do(cfg, a, ActFor(cfg, a, s, t)).queues[AltAt(cfg, s, t).chan].deals
  {
    var c := AltAt(cfg, s, t).chan;
    var q, after := a.queues[c], Do(cfg, a, ActFor(cfg, a, s, t)).queues[c].deals;
    var offers := q.stock + Inputs(cfg, q.givers);
    assert after[|after| - 1] == Deal(Node(s, t), offers[0]);
  }

  lemma SameDeal(cfg: Config, a: Spec, c: nat, n: Node, v: Option<Value>, w: Option<Value>)
    requires c < |a.queues| && OneDeal(cfg, a, n.sel, n.tok) && Deal(n, v) in a.queues[c].deals
    requires Deal(n, w) in a.queues[c].deals
    ensures v == w
  {
    var k :| 0 <= k < |a.queues[c].deals| && a.queues[c].deals[k] == Deal(n, v);
    var m :| 0 <= m < |a.queues[c].deals| && a.queues[c].deals[m] == Deal(n, w);
    assert !(k < m) && !(m < k);
  }

  /** In state `b`, alternative `t` of `s` has been dealt what was the first offer in state `a`. */
  ghost predicate DealtFirst(cfg: Config, a: State, b: State, s: nat, t: nat)
    requires s < |cfg.selects| && t < |cfg.selects[s].alts|
  {
    var c := AltAt(cfg, s, t).chan;
    && Shape(cfg, a) && c < |a.chans| == |b.chans| && Offers(cfg, a, c) != []
    && Deal(Node(s, t), Offers(cfg, a, c)[0]) in Abs(cfg, b).queues[c].deals
  }

  lemma DealtNow(cfg: Config, st: State, r: State, s: nat, t: nat)
    requires Shape(cfg, st) && s < |cfg.selects| && t < |cfg.selects[s].alts| && AltAt(cfg, s, t).dir == Recv
    requires AltAt(cfg, s, t).chan < |cfg.caps| == |r.chans| && ChanFlow(cfg, st, AltAt(cfg, s, t).chan)
    requires Simulates(cfg, st, ActFor(cfg, Abs(cfg, st), s, t), r)
    ensures DealtFirst(cfg, st, r, s, t)
  {
    OffersAreQueued(cfg, st, AltAt(cfg, s, t).chan);
    FirstOfferIsDealt(cfg, Abs(cfg, st), s, t);
  }

  lemma DealtStill(cfg: Config, a: State, b: State, d: State, s: nat, t: nat)
    requires s < |cfg.selects| && t < |cfg.selects[s].alts| && DealtFirst(cfg, a, b, s, t)
    requires DealsKept(cfg, b, d, AltAt(cfg, s, t).chan)
    ensures DealtFirst(cfg, a, d, s, t)
  {}

  /** A deal made between `z` and `y` is there for good. */
  lemma {:induction false} DealtFrom(cfg: Config, z: seq<nat>, y: seq<nat>, rest: seq<nat>, s: nat, t: nat)
    requires ConfigOk(cfg) && s < |cfg.selects| && t < |cfg.selects[s].alts| && AltAt(cfg, s, t).dir == Recv
    requires AltAt(cfg, s, t).chan < |cfg.caps|
    requires Simulates(cfg, Exec(cfg, z), ActFor(cfg, Abs(cfg, Exec(cfg, z)), s, t), Exec(cfg, y))
    ensures DealtFirst(cfg, Exec(cfg, z), Exec(cfg, y + rest), s, t)
  {
    var c := AltAt(cfg, s, t).chan;
    assert ChanFlow(cfg, Exec(cfg, z), c) by { AssertionsHold(cfg, z); }
    DealtNow(cfg, Exec(cfg, z), Exec(cfg, y), s, t);
    DealsStayFor(cfg, y, rest, c);
    DealtStill(cfg, Exec(cfg, z), Exec(cfg, y), Exec(cfg, y + rest), s, t);
  }

  /** What was dealt at moment `k` is the first offer of that moment. */
  lemma {:induction false} DealtAtThatMoment(cfg: Config, sched: seq<nat>, k: nat, s: nat, t: nat)
    requires ConfigOk(cfg) && s < |cfg.selects| && TookReady(cfg, sched, k, s, t) && AltAt(cfg, s, t).dir == Recv
    ensures DealtFirst(cfg, Exec(cfg, sched[..k]), Exec(cfg, sched), s, t)
  {
    assert sched[..k + 1] + sched[k + 1..] == sched;
    DealtFrom(cfg, sched[..k], sched[..k + 1], sched[k + 1..], s, t);
  }

  /** The deal and the result are the same. */
  lemma DealtIsReturned(cfg: Config, a: State, b: State, s: nat, t: nat)
    requires s < |cfg.selects| && s < |b.sels| && t < |cfg.selects[s].alts| && AltAt(cfg, s, t).dir == Recv
    requires DealtFirst(cfg, a, b, s, t) && OneDeal(cfg, Abs(cfg, b), s, t)
    requires Truthful(cfg, Abs(cfg, b), b.sels[s], s, t)
    ensures b.sels[s].result == Offers(cfg, a, AltAt(cfg, s, t).chan)[0]
  {
    SameDeal(cfg, Abs(cfg, b), AltAt(cfg, s, t).chan, Node(s, t), Offers(cfg, a, AltAt(cfg, s, t).chan)[0],
      b.sels[s].result);
  }

  /** A read that completes on its own account returns the value that headed the channel's offers
      when it took its flag: from the buffer, or of the longest waiting available write. */
  lemma {:induction false} ReadTakesHead(cfg: Config, sched: seq<nat>, s: nat, t: nat) returns (k: nat)
    requires ConfigOk(cfg) && s < |cfg.selects| && Exec(cfg, sched).sels[s].pc == Done(t)
    requires Exec(cfg, sched).win[s] == Some(Claim(t, s)) && t < |cfg.selects[s].alts| && AltAt(cfg, s, t).dir == Recv
    ensures TookReady(cfg, sched, k, s, t)
    ensures var offers := Offers(cfg, Exec(cfg, sched[..k]), AltAt(cfg, s, t).chan);
            offers != [] && Exec(cfg, sched).sels[s].result == offers[0]
  {
    k := ChosenWasReady(cfg, sched, s, t);
    DealtAtThatMoment(cfg, sched, k, s, t);
    ReturnsWhatWasDealt(cfg, sched, s, t);
    DealtIsReturned(cfg, Exec(cfg, sched[..k]), Exec(cfg, sched), s, t);
  }

  // ---------------------------------------------------------------- wait-free selects

  /** A wait-free select never gets past an `ops::nothing`. */
  lemma {:induction false} SkipEnds(cfg: Config, sched: seq<nat>, s: nat, i: nat)
    requires ConfigOk(cfg) && s < |cfg.selects| && !cfg.selects[s].waits && i < |cfg.selects[s].alts|
    requires AltAt(cfg, s, i).dir == Skip
    ensures !Past(Exec(cfg, sched), s, i)
  {
    if sched != [] {
      var n := |sched| - 1;
      LastStep(cfg, sched);
      SkipEnds(cfg, sched[..n], s, i);
      assert SelCtl(cfg, Exec(cfg, sched[..n]), s)
        && (sched[n] < |cfg.selects| ==> SelCtl(cfg, Exec(cfg, sched[..n]), sched[n])) by {
        AssertionsHold(cfg, sched[..n]);
      }
      if Past(Exec(cfg, sched), s, i) { GetsPast(cfg, Exec(cfg, sched[..n]), sched[n], s, i); }
    }
  }

  /** Alternative `i` was looked at and was not ready. */
  ghost predicate WasNotReady(cfg: Config, sched: seq<nat>, s: nat, i: nat)
    requires ConfigOk(cfg) && s < |cfg.selects|
  {
    exists k :: TriedInVain(cfg, sched, k, s, i)
  }

  lemma {:induction false} EarlierWasNotReady(cfg: Config, sched: seq<nat>, s: nat, i: nat)
    requires ConfigOk(cfg) && s < |cfg.selects| && !cfg.selects[s].waits && i < |cfg.selects[s].alts|
    requires Past(Exec(cfg, sched), s, i)
    ensures WasNotReady(cfg, sched, s, i)
  {
    if AltAt(cfg, s, i).dir == Skip {
      SkipEnds(cfg, sched, s, i);
    } else {
      var k := EarlierWereTried(cfg, sched, s, i);
    }
  }

  /** `select_ready` returns the first ready alternative: the one it returns with was ready when it
      was taken, and every earlier one was not when it was looked at, and was left alone. */
  lemma {:induction false} ReturnsFirstReady(cfg: Config, sched: seq<nat>, s: nat, t: nat) returns (k: nat)
    requires ConfigOk(cfg) && s < |cfg.selects| && !cfg.selects[s].waits && Exec(cfg, sched).sels[s].pc == Done(t)
    ensures TookReady(cfg, sched, k, s, t)
    ensures forall i :: 0 <= i < t ==> WasNotReady(cfg, sched, s, i)
  {
    assert SelCtl(cfg, Exec(cfg, sched), s) by { AssertionsHold(cfg, sched); }
    forall i | 0 <= i < t ensures WasNotReady(cfg, sched, s, i) { EarlierWasNotReady(cfg, sched, s, i); }
    k := ChosenWasReady(cfg, sched, s, t);
  }

  /** It always returns: whatever the others do, the run can go on to where it has. */
  lemma {:induction false} WaitFreeSelectsReturn(cfg: Config, sched: seq<nat>, s: nat) returns (more: seq<nat>)
    requires ConfigOk(cfg) && NoSelfMatch(cfg) && s < |cfg.selects| && !cfg.selects[s].waits
    ensures var st := Exec(cfg, sched + more); st.health == Ok ==> st.sels[s].pc.Done?
  {
    more := RunsComeToRest(cfg, sched);
    var st := Exec(cfg, sched + more);
    if st.health == Ok {
      assert SelCtl(cfg, st, s) && (st.sels[s].pc.Done? || st.sels[s].pc == Parked) by {
        AssertionsHold(cfg, sched + more);
        RestIsQuiet(cfg, st, s);
      }
    }
  }

  // ---------------------------------------------------------------- try_read and try_write

  /** For the holder of the mutex, a read is ready exactly if there are offers. */
  lemma ReadyMeansOffers(cfg: Config, st: State, s: nat, i: nat)
    requires Here(cfg, st, s, Scan(i)) && ChanWake(cfg, st, ChanOf(cfg, s, i)) && ChanFlow(cfg, st, ChanOf(cfg, s, i))
    requires AltAt(cfg, s, i).dir == Recv
    ensures Servable(cfg, st, AltAt(cfg, s, i)) <==> Offers(cfg, st, ChanOf(cfg, s, i)) != []
  {
    var c := ChanOf(cfg, s, i);
    AtScan(cfg, st, s, i);
    OffersAreQueued(cfg, st, c);
    OpenOfMembers(st.win, st.chans[c].writers);
    assert AnyOpen(st.win, st.chans[c].writers) <==> OpenOf(st.win, st.chans[c].writers) != [] by {
      var o := OpenOf(st.win, st.chans[c].writers);
      assert o != [] ==> o[0] in o;
    }
  }

  /** `channel.try_read()`: a read of the channel, else nothing. */
  ghost predicate IsTryRead(spec: SelectSpec, c: nat) {
    spec.alts == [Alt(Recv, c, 0), Alt(Skip, 0, 1)] && !spec.waits
  }

  /** `channel.try_write(v)`: a write to the channel, else nothing. */
  ghost predicate IsTryWrite(spec: SelectSpec, c: nat) {
    spec.alts == [Alt(Send, c, 0), Alt(Skip, 0, 1)] && !spec.waits
  }

  /** `try_read` fails exactly if the channel offers nothing when it is looked at; otherwise it
      returns the first offer. */
  lemma {:induction false} TryReadIsExact(cfg: Config, sched: seq<nat>, s: nat, t: nat, c: nat) returns (k: nat)
    requires ConfigOk(cfg) && s < |cfg.selects| && c < |cfg.caps| && IsTryRead(cfg.selects[s], c)
    requires Exec(cfg, sched).sels[s].pc == Done(t)
    ensures StepsAt(cfg, sched, k, s) && Exec(cfg, sched[..k]).sels[s].pc == Scan(0)
    ensures var offers := Offers(cfg, Exec(cfg, sched[..k]), c);
            (t == 1 <==> offers == []) && (t == 0 <==> offers != [])
              && (t == 0 ==> Exec(cfg, sched).sels[s].result == offers[0])
  {
    assert SelCtl(cfg, Exec(cfg, sched), s) by { AssertionsHold(cfg, sched); }
    if t == 0 {
      k := ReadTakesHead(cfg, sched, s, t);
    } else {
      k := EarlierWereTried(cfg, sched, s, 0);
      assert Here(cfg, Exec(cfg, sched[..k]), s, Scan(0)) && ChanWake(cfg, Exec(cfg, sched[..k]), c)
        && ChanFlow(cfg, Exec(cfg, sched[..k]), c) by {
        AssertionsHold(cfg, sched[..k]);
      }
      ReadyMeansOffers(cfg, Exec(cfg, sched[..k]), s, 0);
    }
  }

  /** `try_write` fails exactly if no available reader waits and the buffer is full when the
      channel is looked at. */
  lemma {:induction false} TryWriteIsExact(cfg: Config, sched: seq<nat>, s: nat, t: nat, c: nat) returns (k: nat)
    requires ConfigOk(cfg) && s < |cfg.selects| && c < |cfg.caps| && IsTryWrite(cfg.selects[s], c)
    requires Exec(cfg, sched).sels[s].pc == Done(t)
    ensures StepsAt(cfg, sched, k, s) && Exec(cfg, sched[..k]).sels[s].pc == Scan(0)
    ensures var st := Exec(cfg, sched[..k]);
            t == 1 <==>
              !AnyOpen(st.win, st.chans[c].readers) && (cfg.caps[c] == Some(0) || Full(cfg.caps[c], st.chans[c].buffer))
    ensures t == 0 || t == 1
  {
    assert SelCtl(cfg, Exec(cfg, sched), s) by { AssertionsHold(cfg, sched); }
    if t == 0 {
      k := ChosenWasReady(cfg, sched, s, t);
    } else {
      k := EarlierWereTried(cfg, sched, s, 0);
    }
  }
}
