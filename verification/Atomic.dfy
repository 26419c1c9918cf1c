/** The atomic machine is first-in first-out, action by action and over whole runs. */
module Atomic {
  import opened Options
  import opened Protocol
  import opened Filters
  import opened Invariant
  import opened Fifo
  import opened Abstract

  // ---------------------------------------------------------------- what an action does to the offers

  /** An entry of a channel's queue of offers. */
  datatype Offer = Stored(value: Option<Value>) | Waiting(node: Node)

  /** First what is in stock, then the writes that wait. */
  ghost function OffersOf(q: Queue): seq<Offer> {
    seq(|q.stock|, k requires 0 <= k < |q.stock| => Stored(q.stock[k]))
      + seq(|q.givers|, k requires 0 <= k < |q.givers| => Waiting(q.givers[k]))
  }

  ghost function Worth(cfg: Config, o: Offer): Option<Value> {
    match o
    case Stored(v) => v
    case Waiting(n) => Input(cfg, n)
  }

  /** The offers without those of the waiting writes of one select. */
  ghost function Without(os: seq<Offer>, s: nat): seq<Offer> {
    if os == [] then [] else (if os[0].Waiting? && os[0].node.sel == s then [] else [os[0]]) + Without(os[1..], s)
  }

  /** What is left of some offers when the selects that complete in an action have withdrawn. */
  ghost function Left(cfg: Config, a: Spec, act: Act, os: seq<Offer>): seq<Offer>
    requires Allowed(cfg, a, act)
  {
    match act
    case Stutter => os
    case Miss(_) => os
    case Join(_) => os
    case Meet(n) => Without(Without(os, n.sel), Peer(cfg, a, n).sel)
    case _ => Without(os, act.n.sel)
  }

  /** The action is one on channel `c`. */
  ghost predicate ActsOn(cfg: Config, a: Spec, act: Act, c: nat)
    requires Allowed(cfg, a, act)
  {
    !act.Stutter? && AltAt(cfg, act.n.sel, act.n.tok).dir != Skip && AltAt(cfg, act.n.sel, act.n.tok).chan == c
  }

  /** The offers of channel `c` after an action, in terms of those before: the first one is taken, one
      is added at the back, or the first waiting write turns into a stored value where it stands;
      apart from that only completed selects withdraw. */
  ghost function OffersAfter(cfg: Config, a: Spec, act: Act, c: nat): seq<Offer>
    requires Allowed(cfg, a, act) && c < |a.queues|
  {
    var q := a.queues[c];
    var os, m := OffersOf(q), |q.stock|;
    if !ActsOn(cfg, a, act, c) then Left(cfg, a, act, os) else
    var n, dir := act.n, AltAt(cfg, act.n.sel, act.n.tok).dir;
    match act
    case Join(_) => if dir == Send then os + [Waiting(n)] else os
    case Get(_) => Left(cfg, a, act, os[1..])
    case Put(_) => os + [Stored(Input(cfg, n))]
    case Meet(_) => if dir == Recv then Left(cfg, a, act, os[1..]) else []
    case Admit(_) => os[..m] + [Stored(Input(cfg, n))] + Left(cfg, a, act, os[m + 1..])
    case _ => os
  }

  lemma {:induction false} WithoutAppend(os: seq<Offer>, ps: seq<Offer>, s: nat)
    ensures Without(os + ps, s) == Without(os, s) + Without(ps, s)
  {
    if os == [] {
      assert os + ps == ps && Without(os, s) == [];
    } else {
      var o := if os[0].Waiting? && os[0].node.sel == s then [] else [os[0]];
      assert (os + ps)[0] == os[0] && (os + ps)[1..] == os[1..] + ps;
      WithoutAppend(os[1..], ps, s);
      assert Without(os + ps, s) == o + (Without(os[1..], s) + Without(ps, s));
    }
  }

  lemma {:induction false} WithoutStored(os: seq<Offer>, s: nat)
    requires forall k :: 0 <= k < |os| ==> os[k].Stored?
    ensures Without(os, s) == os
  {
    if os != [] { WithoutStored(os[1..], s); }
  }

  ghost function Waits(xs: seq<Node>): seq<Offer> {
    seq(|xs|, k requires 0 <= k < |xs| => Waiting(xs[k]))
  }

  lemma {:induction false} WithoutWaiting(xs: seq<Node>, s: nat)
    ensures Without(Waits(xs), s) == Waits(Prune(xs, s))
  {
    if xs != [] {
      assert Waits(xs)[1..] == Waits(xs[1..]);
      WithoutWaiting(xs[1..], s);
      var one := if xs[0].sel != s then [xs[0]] else [];
      assert Waits(one + Prune(xs[1..], s)) == Waits(one) + Waits(Prune(xs[1..], s));
    }
  }

  /** Withdrawing from the queue is withdrawing from the offers. */
  lemma WithdrawnOffers(q: Queue, s: nat)
    ensures OffersOf(Withdrawn(q, s)) == Without(OffersOf(q), s)
  {
    var st := seq(|q.stock|, k requires 0 <= k < |q.stock| => Stored(q.stock[k]));
    assert OffersOf(q) == st + Waits(q.givers);
    WithoutAppend(st, Waits(q.givers), s);
    WithoutStored(st, s);
    WithoutWaiting(q.givers, s);
    assert OffersOf(Withdrawn(q, s)) == st + Waits(Prune(q.givers, s));
  }

  lemma ElsewhereOffers(cfg: Config, a: Spec, act: Act, c: nat)
    requires SpecShape(cfg, a) && Allowed(cfg, a, act) && c < |a.queues| && !ActsOn(cfg, a, act, c)
    ensures OffersOf(Do(cfg, a, act).queues[c]) == OffersAfter(cfg, a, act, c)
  {
    var q := a.queues[c];
    match act {
      case Stutter =>
      case Miss(_) =>
      case Join(_) =>
      case Meet(n) =>
        WithdrawnOffers(q, n.sel);
        WithdrawnOffers(Withdrawn(q, n.sel), Peer(cfg, a, n).sel);
      case _ => WithdrawnOffers(q, act.n.sel);
    }
  }

  lemma GetOffers(cfg: Config, a: Spec, n: Node, c: nat)
    requires SpecShape(cfg, a) && Allowed(cfg, a, Get(n)) && c < |a.queues| && ActsOn(cfg, a, Get(n), c)
    ensures OffersOf(Do(cfg, a, Get(n)).queues[c]) == OffersAfter(cfg, a, Get(n), c)
  {
    var q := a.queues[c];
    var rest := q.(stock := q.stock[1..]);
    assert OffersOf(q)[1..] == OffersOf(rest);
    WithdrawnOffers(rest, n.sel);
  }

  lemma AdmitOffers(cfg: Config, a: Spec, n: Node, c: nat)
    requires SpecShape(cfg, a) && Allowed(cfg, a, Admit(n)) && c < |a.queues| && ActsOn(cfg, a, Admit(n), c)
    ensures OffersOf(Do(cfg, a, Admit(n)).queues[c]) == OffersAfter(cfg, a, Admit(n), c)
  {
    var q := a.queues[c];
    var os, m := OffersOf(q), |q.stock|;
    var after := Do(cfg, a, Admit(n)).queues[c];
    assert os[m + 1..] == Waits(q.givers[1..]);
    WithoutWaiting(q.givers[1..], n.sel);
    assert after.givers == Prune(q.givers[1..], n.sel) && after.stock == q.stock + [Input(cfg, n)];
    assert OffersOf(after) == os[..m] + [Stored(Input(cfg, n))] + Waits(after.givers);
  }

  lemma MeetOffers(cfg: Config, a: Spec, n: Node, c: nat)
    requires SpecShape(cfg, a) && Allowed(cfg, a, Meet(n)) && c < |a.queues| && ActsOn(cfg, a, Meet(n), c)
    ensures OffersOf(Do(cfg, a, Meet(n)).queues[c]) == OffersAfter(cfg, a, Meet(n), c)
  {
    var q, peer := a.queues[c], Peer(cfg, a, n);
    var after := Do(cfg, a, Meet(n)).queues[c];
    assert OffersOf(q) == Waits(q.givers) && OffersOf(after) == Waits(after.givers);
    if AltAt(cfg, n.sel, n.tok).dir == Recv {
      var rest := q.givers[1..];
      assert OffersOf(q)[1..] == Waits(rest);
      WithoutWaiting(rest, n.sel);
      WithoutWaiting(Prune(rest, n.sel), peer.sel);
      assert Prune(q.givers, n.sel) == [peer] + Prune(rest, n.sel);
      assert Prune(Prune(q.givers, n.sel), peer.sel) == Prune(Prune(rest, n.sel), peer.sel);
    }
  }

  /** Every action of the atomic machine takes the first offer, adds one at the back, or turns the
      first waiting write into a stored value where it stands; otherwise offers only go when their
      select completes. */
  lemma ActionOnOffers(cfg: Config, a: Spec, act: Act, c: nat)
    requires SpecShape(cfg, a) && Allowed(cfg, a, act) && c < |a.queues|
    ensures OffersOf(Do(cfg, a, act).queues[c]) == OffersAfter(cfg, a, act, c)
  {
    if !ActsOn(cfg, a, act, c) {
      ElsewhereOffers(cfg, a, act, c);
    } else {
      match act {
        case Get(n) => GetOffers(cfg, a, n, c);
        case Admit(n) => AdmitOffers(cfg, a, n, c);
        case Meet(n) => MeetOffers(cfg, a, n, c);
        case _ =>
      }
    }
  }

  // ---------------------------------------------------------------- whole runs

  /** The flags that go with what was chosen. */
  ghost function AsWin(chosen: seq<Option<nat>>): seq<Option<Claim>> {
    seq(|chosen|, s requires 0 <= s < |chosen| => if chosen[s].Some? then Some(Claim(chosen[s].value, 0)) else None)
  }

  /** Nodes are queued once, for the right channel and direction, while their select is undecided. */
  ghost predicate WellQueued(cfg: Config, chosen: seq<Option<nat>>, xs: seq<Node>, c: nat, dir: Dir) {
    && NoDup(xs)
    && forall n ::
      n in xs ==> NodeOk(cfg, n) && AltAt(cfg, n.sel, n.tok).dir == dir && AltAt(cfg, n.sel, n.tok).chan == c
                               && n.sel < |chosen| && chosen[n.sel].None?
  }

  /** Those that completed, then those that wait, are the arrivals that are still in the running. */
  ghost predicate InLine(cfg: Config, chosen: seq<Option<nat>>, done: seq<Node>, xs: seq<Node>, arrived: seq<Node>,
        c: nat, dir: Dir)
  {
    && WellQueued(cfg, chosen, xs, c, dir)
    && (forall n :: n in done ==> n.sel < |chosen| && chosen[n.sel] == Some(n.tok))
    && done + xs == LiveOf(AsWin(chosen), arrived)
  }

  lemma ChosenWin(chosen: seq<Option<nat>>, n: Node)
    requires n.sel < |chosen|
    ensures AsWin(chosen[n.sel := Some(n.tok)]) == AsWin(chosen)[n.sel := Some(Claim(n.tok, 0))]
  {}

  lemma {:induction false} AllOpen(win: seq<Option<Claim>>, xs: seq<Node>)
    requires forall n :: n in xs ==> Open(win, n)
    ensures OpenOf(win, xs) == xs
  {
    if xs != [] {
      assert xs[0] in xs && forall n :: n in xs[1..] ==> n in xs;
      AllOpen(win, xs[1..]);
    }
  }

  lemma {:induction false} PruneMembers(xs: seq<Node>, s: nat)
    requires NoDup(xs)
    ensures NoDup(Prune(xs, s)) && forall n :: n in Prune(xs, s) <==> n in xs && n.sel != s
  {
    if xs != [] {
      assert xs == [xs[0]] + xs[1..] && xs[0] !in xs[1..];
      PruneMembers(xs[1..], s);
    }
  }

  /** A select completes elsewhere: its nodes leave, the line keeps its order. */
  lemma LineLeft(cfg: Config, chosen: seq<Option<nat>>, done: seq<Node>, xs: seq<Node>, arrived: seq<Node>, c: nat,
        dir: Dir, n: Node)
    requires InLine(cfg, chosen, done, xs, arrived, c, dir) && n.sel < |chosen| && chosen[n.sel].None? && n !in xs
    ensures InLine(cfg, chosen[n.sel := Some(n.tok)], done, Prune(xs, n.sel), arrived, c, dir)
  {
    var win, k := AsWin(chosen), Claim(n.tok, 0);
    ChosenWin(chosen, n);
    AllOpen(win, xs);
    ClaimKeepsOrder(win, done, xs, arrived, n.sel, k);
    OpenOfTaken(win, xs, n.sel, k);
    PruneMembers(xs, n.sel);
  }

  /** Without the other nodes of the first, the line is what a claim for the first leaves open. */
  lemma RestOfLine(win: seq<Option<Claim>>, xs: seq<Node>, k: Claim)
    requires NoDup(xs) && xs != [] && xs[0].sel < |win| && forall n :: n in xs ==> Open(win, n)
    ensures Prune(xs, xs[0].sel) == OpenOf(win[xs[0].sel := Some(k)], xs[1..])
  {
    assert forall n :: n in xs[1..] ==> n in xs;
    AllOpen(win, xs[1..]);
    OpenOfTaken(win, xs[1..], xs[0].sel, k);
  }

  /** The first of the line completes. */
  lemma LineServed(cfg: Config, chosen: seq<Option<nat>>, done: seq<Node>, xs: seq<Node>, arrived: seq<Node>, c: nat,
        dir: Dir)
    requires InLine(cfg, chosen, done, xs, arrived, c, dir) && xs != []
    ensures InLine(cfg, chosen[xs[0].sel := Some(xs[0].tok)], done + [xs[0]], Prune(xs, xs[0].sel), arrived, c, dir)
  {
    var win, n := AsWin(chosen), xs[0];
    var k := Claim(n.tok, 0);
    assert n in xs && xs == [n] + xs[1..] && n !in xs[1..];
    ChosenWin(chosen, n);
    AllOpen(win, xs);
    ClaimHeadKeepsOrder(win, done, xs, arrived, k);
    RestOfLine(win, xs, k);
    PruneMembers(xs, n.sel);
  }

  /** One joins the back of the line. */
  lemma LineJoined(cfg: Config, chosen: seq<Option<nat>>, done: seq<Node>, xs: seq<Node>, arrived: seq<Node>, c: nat,
        dir: Dir, n: Node)
    requires InLine(cfg, chosen, done, xs, arrived, c, dir) && WellQueued(cfg, chosen, [n], c, dir) && n !in xs
    ensures InLine(cfg, chosen, done, xs + [n], arrived + [n], c, dir)
  {
    assert n in [n];
    LiveOfAppend(AsWin(chosen), arrived, [n]);
    assert LiveOf(AsWin(chosen), [n]) == [n];
    assert done + (xs + [n]) == (done + xs) + [n];
  }

  /** One completes on arrival, with nobody in line before it. */
  lemma LinePassed(cfg: Config, chosen: seq<Option<nat>>, done: seq<Node>, arrived: seq<Node>, c: nat, dir: Dir,
        n: Node)
    requires InLine(cfg, chosen, done, [], arrived, c, dir) && WellQueued(cfg, chosen, [n], c, dir)
    ensures InLine(cfg, chosen[n.sel := Some(n.tok)], done + [n], [], arrived + [n], c, dir)
  {
    LineJoined(cfg, chosen, done, [], arrived, c, dir, n);
    assert [] + [n] == [n] && Prune([n], n.sel) == [];
    LineServed(cfg, chosen, done, [n], arrived + [n], c, dir);
  }

  // ---------------------------------------------------------------- the lines of a channel

  /** Who enters the queue of channel `c` in direction `dir` with an action. */
  ghost function EntersNow(cfg: Config, a: Spec, act: Act, c: nat, dir: Dir): seq<Node>
    requires Allowed(cfg, a, act)
  {
    if ActsOn(cfg, a, act, c) && AltAt(cfg, act.n.sel, act.n.tok).dir == dir
      && (act.Join? || act.Get? || act.Put? || act.Meet?) then [act.n] else []
  }

  /** Who completes on channel `c` in direction `dir` with an action. */
  ghost function EndsNow(cfg: Config, a: Spec, act: Act, c: nat, dir: Dir): seq<Node>
    requires Allowed(cfg, a, act)
  {
    if !ActsOn(cfg, a, act, c) then [] else
    match act
    case Get(n) => if dir == Recv then [n] else []
    case Put(n) => if dir == Send then [n] else []
    case Admit(n) => if dir == Send then [n] else []
    case Meet(n) => if AltAt(cfg, n.sel, n.tok).dir == dir then [n] else [Peer(cfg, a, n)]
    case _ => []
  }

  /** The order in which alternatives entered a queue in a sequence of actions. */
  ghost function Arrived(cfg: Config, acts: seq<Act>, c: nat, dir: Dir): seq<Node> {
    if acts == [] then [] else
    var most, act := acts[..|acts| - 1], acts[|acts| - 1];
    var a := After(cfg, most);
    Arrived(cfg, most, c, dir)
      + (if a.Some? && Allowed(cfg, a.value, act) then EntersNow(cfg, a.value, act, c, dir) else [])
  }

  /** The order in which they completed. */
  ghost function Completed(cfg: Config, acts: seq<Act>, c: nat, dir: Dir): seq<Node> {
    if acts == [] then [] else
    var most, act := acts[..|acts| - 1], acts[|acts| - 1];
    var a := After(cfg, most);
    Completed(cfg, most, c, dir)
      + (if a.Some? && Allowed(cfg, a.value, act) then EndsNow(cfg, a.value, act, c, dir) else [])
  }

  /** All queues are well formed. */
  ghost predicate Orderly(cfg: Config, a: Spec) {
    SpecShape(cfg, a) && forall c :: 0 <= c < |a.queues| ==>
      WellQueued(cfg, a.chosen, a.queues[c].givers, c, Send) && WellQueued(cfg, a.chosen, a.queues[c].takers, c, Recv)
  }

  ghost function Line(q: Queue, dir: Dir): seq<Node> {
    if dir == Send then q.givers else q.takers
  }

  /** The line of one direction at one channel. */
  ghost predicate InOrderAt(cfg: Config, a: Spec, done: seq<Node>, arrived: seq<Node>, c: nat, dir: Dir) {
    c < |a.queues| && InLine(cfg, a.chosen, done, Line(a.queues[c], dir), arrived, c, dir)
  }

  lemma MeetPeer(cfg: Config, a: Spec, n: Node)
    requires Orderly(cfg, a) && Allowed(cfg, a, Meet(n))
    ensures var c, dir := AltAt(cfg, n.sel, n.tok).chan, AltAt(cfg, n.sel, n.tok).dir;
            WellQueued(cfg, a.chosen, [Peer(cfg, a, n)], c, if dir == Recv then Send else Recv)
  {
    var q, p := a.queues[AltAt(cfg, n.sel, n.tok).chan], Peer(cfg, a, n);
    assert p in q.givers || p in q.takers;
  }

  lemma MeetElsewhere(cfg: Config, a: Spec, n: Node, done: seq<Node>, arrived: seq<Node>, c: nat, dir: Dir)
    requires Orderly(cfg, a) && Allowed(cfg, a, Meet(n)) && dir != Skip && InOrderAt(cfg, a, done, arrived, c, dir)
    requires !ActsOn(cfg, a, Meet(n), c)
    ensures InOrderAt(cfg, Do(cfg, a, Meet(n)), done, arrived, c, dir)
  {
    var xs, p := Line(a.queues[c], dir), Peer(cfg, a, n);
    MeetPeer(cfg, a, n);
    assert p in [p];
    PruneMembers(xs, n.sel);
    LineLeft(cfg, a.chosen, done, xs, arrived, c, dir, n);
    LineLeft(cfg, a.chosen[n.sel := Some(n.tok)], done, Prune(xs, n.sel), arrived, c, dir, p);
  }

  /** The side of the one that comes: nobody is in line there. */
  lemma MeetComer(cfg: Config, a: Spec, n: Node, done: seq<Node>, arrived: seq<Node>, c: nat, dir: Dir)
    requires Orderly(cfg, a) && Allowed(cfg, a, Meet(n)) && ActsOn(cfg, a, Meet(n), c)
    requires dir == AltAt(cfg, n.sel, n.tok).dir
    requires InOrderAt(cfg, a, done, arrived, c, dir)
    ensures InOrderAt(cfg, Do(cfg, a, Meet(n)), done + [n], arrived + [n], c, dir)
  {
    var p := Peer(cfg, a, n);
    MeetPeer(cfg, a, n);
    assert p in [p] && NodeOk(cfg, n);
    LinePassed(cfg, a.chosen, done, arrived, c, dir, n);
    LineLeft(cfg, a.chosen[n.sel := Some(n.tok)], done + [n], [], arrived + [n], c, dir, p);
  }

  /** The side of the one that waited: it was the first in line. */
  lemma MeetWaiter(cfg: Config, a: Spec, n: Node, done: seq<Node>, arrived: seq<Node>, c: nat, dir: Dir)
    requires Orderly(cfg, a) && Allowed(cfg, a, Meet(n)) && ActsOn(cfg, a, Meet(n), c) && dir != Skip
    requires dir != AltAt(cfg, n.sel, n.tok).dir
    requires InOrderAt(cfg, a, done, arrived, c, dir)
    ensures InOrderAt(cfg, Do(cfg, a, Meet(n)), done + [Peer(cfg, a, n)], arrived, c, dir)
  {
    var xs, p := Line(a.queues[c], dir), Peer(cfg, a, n);
    assert xs == [p] + xs[1..];
    LineLeft(cfg, a.chosen, done, xs, arrived, c, dir, n);
    assert Prune(xs, n.sel) == [p] + Prune(xs[1..], n.sel);
    LineServed(cfg, a.chosen[n.sel := Some(n.tok)], done, Prune(xs, n.sel), arrived, c, dir);
  }

  lemma MeetInOrder(cfg: Config, a: Spec, n: Node, done: seq<Node>, arrived: seq<Node>, c: nat, dir: Dir)
    requires Orderly(cfg, a) && Allowed(cfg, a, Meet(n)) && dir != Skip && InOrderAt(cfg, a, done, arrived, c, dir)
    ensures InOrderAt(cfg, Do(cfg, a, Meet(n)), done + EndsNow(cfg, a, Meet(n), c, dir), arrived
      + EntersNow(cfg, a, Meet(n), c, dir), c, dir)
  {
    if !ActsOn(cfg, a, Meet(n), c) {
      MeetElsewhere(cfg, a, n, done, arrived, c, dir);
      assert done + [] == done && arrived + [] == arrived;
    } else if dir == AltAt(cfg, n.sel, n.tok).dir {
      MeetComer(cfg, a, n, done, arrived, c, dir);
    } else {
      MeetWaiter(cfg, a, n, done, arrived, c, dir);
      assert arrived + [] == arrived;
    }
  }

  /** Actions that complete one select. */
  lemma SingleInOrder(cfg: Config, a: Spec, act: Act, done: seq<Node>, arrived: seq<Node>, c: nat, dir: Dir)
    requires Orderly(cfg, a) && Allowed(cfg, a, act) && dir != Skip && InOrderAt(cfg, a, done, arrived, c, dir)
    requires act.Get? || act.Put? || act.Admit? || act.Pass?
    ensures InOrderAt(cfg, Do(cfg, a, act), done + EndsNow(cfg, a, act, c, dir), arrived
      + EntersNow(cfg, a, act, c, dir), c, dir)
  {
    var n, xs := act.n, Line(a.queues[c], dir);
    assert done + [] == done && arrived + [] == arrived;
    if EntersNow(cfg, a, act, c, dir) != [] {
      assert NodeOk(cfg, n);
      LinePassed(cfg, a.chosen, done, arrived, c, dir, n);
    } else if EndsNow(cfg, a, act, c, dir) != [] {
      LineServed(cfg, a.chosen, done, xs, arrived, c, dir);
    } else {
      LineLeft(cfg, a.chosen, done, xs, arrived, c, dir, n);
    }
  }

  lemma JoinInOrder(cfg: Config, a: Spec, n: Node, done: seq<Node>, arrived: seq<Node>, c: nat, dir: Dir)
    requires Orderly(cfg, a) && Allowed(cfg, a, Join(n)) && dir != Skip && InOrderAt(cfg, a, done, arrived, c, dir)
    ensures InOrderAt(cfg, Do(cfg, a, Join(n)), done + EndsNow(cfg, a, Join(n), c, dir), arrived
      + EntersNow(cfg, a, Join(n), c, dir), c, dir)
  {
    assert done + [] == done && arrived + [] == arrived;
    if EntersNow(cfg, a, Join(n), c, dir) != [] {
      assert NodeOk(cfg, n);
      LineJoined(cfg, a.chosen, done, Line(a.queues[c], dir), arrived, c, dir, n);
    }
  }

  // ---------------------------------------------------------------- over whole runs

  /** All lines are in order after these actions. */
  ghost predicate LinesHold(cfg: Config, a: Spec, acts: seq<Act>) {
    SpecShape(cfg, a) && forall c, dir :: 0 <= c < |a.queues| && dir != Skip ==>
      InOrderAt(cfg, a, Completed(cfg, acts, c, dir), Arrived(cfg, acts, c, dir), c, dir)
  }

  lemma LinesAreOrderly(cfg: Config, a: Spec, acts: seq<Act>)
    requires LinesHold(cfg, a, acts)
    ensures Orderly(cfg, a)
  {
    forall c | 0 <= c < |a.queues|
      ensures WellQueued(cfg, a.chosen, a.queues[c].givers, c, Send)
      ensures WellQueued(cfg, a.chosen, a.queues[c].takers, c, Recv)
    {
      assert InOrderAt(cfg, a, Completed(cfg, acts, c, Send), Arrived(cfg, acts, c, Send), c, Send);
      assert InOrderAt(cfg, a, Completed(cfg, acts, c, Recv), Arrived(cfg, acts, c, Recv), c, Recv);
    }
  }

  lemma ActionInOrder(cfg: Config, a: Spec, act: Act, done: seq<Node>, arrived: seq<Node>, c: nat, dir: Dir)
    requires Orderly(cfg, a) && Allowed(cfg, a, act) && dir != Skip && InOrderAt(cfg, a, done, arrived, c, dir)
    ensures InOrderAt(cfg, Do(cfg, a, act), done + EndsNow(cfg, a, act, c, dir), arrived
      + EntersNow(cfg, a, act, c, dir), c, dir)
  {
    match act {
      case Meet(n) => MeetInOrder(cfg, a, n, done, arrived, c, dir);
      case Join(n) => JoinInOrder(cfg, a, n, done, arrived, c, dir);
      case Stutter => assert done + [] == done && arrived + [] == arrived;
      case Miss(_) => assert done + [] == done && arrived + [] == arrived;
      case _ => SingleInOrder(cfg, a, act, done, arrived, c, dir);
    }
  }

  lemma StartInOrder(cfg: Config)
    ensures LinesHold(cfg, Start(cfg), [])
  {}

  lemma {:induction false} RunsKeepLines(cfg: Config, acts: seq<Act>)
    requires After(cfg, acts).Some?
    ensures LinesHold(cfg, After(cfg, acts).value, acts)
  {
    if acts == [] {
      StartInOrder(cfg);
    } else {
      var most, act := acts[..|acts| - 1], acts[|acts| - 1];
      var a, b := After(cfg, most).value, After(cfg, acts).value;
      RunsKeepLines(cfg, most);
      LinesAreOrderly(cfg, a, most);
      forall c, dir | 0 <= c < |b.queues| && dir != Skip
        ensures InOrderAt(cfg, b, Completed(cfg, acts, c, dir), Arrived(cfg, acts, c, dir), c, dir)
      {
        ActionInOrder(cfg, a, act, Completed(cfg, most, c, dir), Arrived(cfg, most, c, dir), c, dir);
      }
    }
  }

  ghost function Readers(deals: seq<Deal>): seq<Node> {
    seq(|deals|, k requires 0 <= k < |deals| => deals[k].reader)
  }

  ghost function Values(deals: seq<Deal>): seq<Option<Value>> {
    seq(|deals|, k requires 0 <= k < |deals| => deals[k].value)
  }

  /** The deals are with the completed reads, for the values of the completed writes; the values that
      were not dealt yet are in stock. */
  ghost predicate DealsMatch(cfg: Config, q: Queue, got: seq<Node>, writes: seq<Node>) {
    Readers(q.deals) == got && Values(q.deals) + q.stock == Inputs(cfg, writes)
  }

  lemma ActionMatches(cfg: Config, a: Spec, act: Act, c: nat, got: seq<Node>, writes: seq<Node>)
    requires SpecShape(cfg, a) && Allowed(cfg, a, act) && c < |a.queues| && DealsMatch(cfg, a.queues[c], got, writes)
    ensures DealsMatch(cfg, Do(cfg, a, act).queues[c], got + EndsNow(cfg, a, act, c, Recv), writes
      + EndsNow(cfg, a, act, c, Send))
  {
    var q, q' := a.queues[c], Do(cfg, a, act).queues[c];
    var r, w := EndsNow(cfg, a, act, c, Recv), EndsNow(cfg, a, act, c, Send);
    InputsAppend(cfg, writes, w);
    assert Readers(q'.deals) == Readers(q.deals) + r;
    assert Values(q'.deals) + q'.stock == (Values(q.deals) + q.stock) + Inputs(cfg, w);
  }

  lemma {:induction false} RunsMatch(cfg: Config, acts: seq<Act>, c: nat)
    requires After(cfg, acts).Some? && c < |cfg.caps|
    ensures SpecShape(cfg, After(cfg, acts).value)
    ensures DealsMatch(cfg, After(cfg, acts).value.queues[c], Completed(cfg, acts, c, Recv),
      Completed(cfg, acts, c, Send))
  {
    RunsKeepLines(cfg, acts);
    if acts != [] {
      var most, act := acts[..|acts| - 1], acts[|acts| - 1];
      RunsMatch(cfg, most, c);
      ActionMatches(cfg, After(cfg, most).value, act, c, Completed(cfg, most, c, Recv), Completed(cfg, most, c, Send));
    }
  }

  ghost function Worths(cfg: Config, os: seq<Offer>): seq<Option<Value>> {
    seq(|os|, k requires 0 <= k < |os| => Worth(cfg, os[k]))
  }

  /** Values dealt, then on offer, are those of the live arrivals; readers dealt with, then waiting, too. */
  ghost predicate InArrivalOrder(cfg: Config, a: Spec, c: nat, writes: seq<Node>, readers: seq<Node>) {
    && c < |a.queues|
    && Values(a.queues[c].deals) + Worths(cfg, OffersOf(a.queues[c])) == Inputs(cfg, LiveOf(AsWin(a.chosen), writes))
    && Readers(a.queues[c].deals) + a.queues[c].takers == LiveOf(AsWin(a.chosen), readers)
  }

  lemma LinesInArrivalOrder(cfg: Config, a: Spec, c: nat, sent: seq<Node>, writes: seq<Node>, got: seq<Node>,
        readers: seq<Node>)
    requires InOrderAt(cfg, a, sent, writes, c, Send) && InOrderAt(cfg, a, got, readers, c, Recv)
    requires DealsMatch(cfg, a.queues[c], got, sent)
    ensures InArrivalOrder(cfg, a, c, writes, readers)
  {
    var q := a.queues[c];
    InputsAppend(cfg, sent, q.givers);
    assert Worths(cfg, OffersOf(q)) == q.stock + Inputs(cfg, q.givers);
  }

  /** The atomic machine is first-in first-out: on every channel the values dealt so far, then those
      on offer, are the values of the writes in order of arrival, less those whose select completed
      elsewhere; and reads are dealt with, then wait, in order of arrival. */
  lemma {:induction false} AtomicFirstInFirstOut(cfg: Config, acts: seq<Act>, c: nat)
    requires After(cfg, acts).Some? && c < |cfg.caps|
    ensures InArrivalOrder(cfg, After(cfg, acts).value, c, Arrived(cfg, acts, c, Send), Arrived(cfg, acts, c, Recv))
  {
    RunsKeepLines(cfg, acts);
    RunsMatch(cfg, acts, c);
    LinesInArrivalOrder(cfg, After(cfg, acts).value, c, Completed(cfg, acts, c, Send), Arrived(cfg, acts, c, Send),
                        Completed(cfg, acts, c, Recv), Arrived(cfg, acts, c, Recv));
  }
}
