/**
 The example over the atomic channels comes to its end.  As long as the main routine has not got the
 sum, some routine can make a call or go on, or two calls can meet; every move but idling lowers a
 measure; so however the program has gone on so far, it gets to the sum.
 */
module SumProgress {
  import opened Descent
  import opened Options
  import opened Protocol
  import opened Filters
  import opened Invariant
  import opened Abstract
  import opened SumChannels

  // ---------------------------------------------------------------- queues are one-sided

  /** On no channel do reads and writes wait for each other, and whoever waits has not completed. */
  ghost predicate Neat(p: Program) {
    && |p.chans.queues| == 2
    && (p.chans.queues[IN].givers == [] || p.chans.queues[IN].takers == [])
    && (p.chans.queues[OUT].givers == [] || p.chans.queues[OUT].takers == [])
    && (forall s :: s in p.calls ==> s < |p.chans.chosen| && p.chans.chosen[s].None?)
  }

  lemma BeginIsNeat(cfg: Config, numbers: seq<int>, n: nat)
    requires |cfg.caps| == 2
    ensures Neat(Begin(cfg, numbers, n))
  {}

  lemma JoinKeepsNeat(cfg: Config, view: Value -> Message, numbers: seq<int>, n: nat, p: Program, x: Node)
    requires Sane(cfg, view, numbers, n, p) && Neat(p) && MayMove(cfg, view, numbers, p, Channel(Join(x)))
    ensures Neat(AfterMove(cfg, view, numbers, p, Channel(Join(x))))
  {}

  /** A meeting adds to no queue. */
  lemma MeetKeepsOneSided(cfg: Config, a: Spec, x: Node, c: nat)
    requires SpecShape(cfg, a) && Allowed(cfg, a, Meet(x)) && c < |a.queues|
    requires (a.queues[c].givers == [] || a.queues[c].takers == [])
    ensures var q := Do(cfg, a, Meet(x)).queues[c]; q.givers == [] || q.takers == []
  {
    MeetQueue(cfg, a, x, c);
  }

  lemma MeetKeepsNeat(cfg: Config, view: Value -> Message, numbers: seq<int>, n: nat, p: Program, x: Node)
    requires Sane(cfg, view, numbers, n, p) && Neat(p) && MayMove(cfg, view, numbers, p, Channel(Meet(x)))
    ensures Neat(AfterMove(cfg, view, numbers, p, Channel(Meet(x))))
  {
    var q := AfterMove(cfg, view, numbers, p, Channel(Meet(x)));
    var w := MeetingIsNext(cfg, view, numbers, n, p, x);
    MeetKeepsOneSided(cfg, p.chans, x, IN);
    MeetKeepsOneSided(cfg, p.chans, x, OUT);
    forall s | s in q.calls ensures s < |q.chans.chosen| && q.chans.chosen[s].None? { MeetingPairs(cfg, p.chans, x); }
  }

  lemma MoveKeepsNeat(cfg: Config, view: Value -> Message, numbers: seq<int>, n: nat, p: Program, move: Move)
    requires Sane(cfg, view, numbers, n, p) && Neat(p) && MayMove(cfg, view, numbers, p, move)
    ensures Neat(AfterMove(cfg, view, numbers, p, move))
  {
    if move.Channel? {
      OnlyJoinOrMeet(cfg, view, numbers, n, p, move.act);
      match move.act {
        case Join(x) => JoinKeepsNeat(cfg, view, numbers, n, p, x);
        case Meet(x) => MeetKeepsNeat(cfg, view, numbers, n, p, x);
        case _ =>
      }
    }
  }

  // ---------------------------------------------------------------- never stuck

  /** A move that is not idling. */
  predicate Goes(move: Move) {
    move != Channel(Stutter)
  }

  /** Two calls, a read and a write, wait to be made on one channel. */
  ghost predicate Facing(cfg: Config, p: Program, r: nat, g: nat, c: nat) {
    && c < 2 && r in p.calls && g in p.calls && r < |cfg.selects| && g < |cfg.selects|
    && cfg.selects[r].waits && cfg.selects[g].waits
    && cfg.selects[r].alts == [Alt(Recv, c, 0)] && cfg.selects[g].alts == [Alt(Send, c, 0)]
  }

  /** One of them can join its queue, or they, or one of them and somebody else, can meet. */
  lemma FacingCallsMove(cfg: Config, view: Value -> Message, numbers: seq<int>, n: nat, p: Program, r: nat, g: nat,
        c: nat)
    returns (move: Move)
    requires Sane(cfg, view, numbers, n, p) && Neat(p) && Facing(cfg, p, r, g, c)
    ensures Goes(move) && MayMove(cfg, view, numbers, p, move)
  {
    var q, x, y := p.chans.queues[c], Node(r, 0), Node(g, 0);
    assert QueueSane(cfg, q, c, p.calls);
    if q.givers != [] {
      assert q.givers[0] in q.givers;
      move := Channel(Meet(x));
    } else if q.takers != [] {
      assert q.takers[0] in q.takers;
      move := Channel(Meet(y));
    } else {
      move := Channel(Join(x));
    }
  }

  /** A routine that has come to a call and has not made it. */
  ghost predicate Calls(numbers: seq<int>, p: Program, who: Who) {
    Wants(numbers, p.sys, who).Some? && forall s :: s in p.calls ==> p.calls[s] != who
  }

  /** There is a select for the call that is still unused. */
  ghost predicate Unused(cfg: Config, view: Value -> Message, numbers: seq<int>, p: Program, who: Who, s: nat) {
    && Wants(numbers, p.sys, who).Some? && IsCall(cfg, view, s, Wants(numbers, p.sys, who).value)
    && s < |p.chans.chosen| && p.chans.chosen[s].None? && s !in p.calls
  }

  /** Both have made their calls. */
  lemma BothWait(cfg: Config, view: Value -> Message, numbers: seq<int>, n: nat, p: Program, w: nat)
    returns (move: Move)
    requires Sane(cfg, view, numbers, n, p) && Neat(p) && Sum.Enabled(numbers, p.sys, w) && !p.sys.workers[w].Holding?
    requires !Calls(numbers, p, TheMain) && !Calls(numbers, p, TheWorker(w))
    ensures Goes(move) && MayMove(cfg, view, numbers, p, move)
  {
    var s :| s in p.calls && p.calls[s] == TheMain;
    var t :| t in p.calls && p.calls[t] == TheWorker(w);
    assert IsCall(cfg, view, s, Wants(numbers, p.sys, TheMain).value);
    assert IsCall(cfg, view, t, Wants(numbers, p.sys, TheWorker(w)).value);
    if p.sys.workers[w].Reading? {
      move := FacingCallsMove(cfg, view, numbers, n, p, t, s, IN);
    } else {
      move := FacingCallsMove(cfg, view, numbers, n, p, s, t, OUT);
    }
  }

  /** Before the end somebody can move, or has come to a call that it has not made. */
  lemma SomebodyGoes(cfg: Config, view: Value -> Message, numbers: seq<int>, n: nat, p: Program)
    returns (move: Move, who: Option<Who>)
    requires Sane(cfg, view, numbers, n, p) && Neat(p) && !p.sys.main.Complete?
    ensures if who.Some? then Calls(numbers, p, who.value) else Goes(move) && MayMove(cfg, view, numbers, p, move)
  {
    Sum.NeverStuck(numbers, n, p.sys);
    var w: nat :| Sum.Enabled(numbers, p.sys, w);
    move, who := Local(w), None;
    if p.sys.workers[w].Holding? {
    } else if Calls(numbers, p, TheMain) {
      who := Some(TheMain);
    } else if Calls(numbers, p, TheWorker(w)) {
      who := Some(TheWorker(w));
    } else {
      move := BothWait(cfg, view, numbers, n, p, w);
    }
  }

  /** The program is never stuck: before the end, if every routine can make the call it has come to, there
      is a move that is not idling. */
  lemma NotStuck(cfg: Config, view: Value -> Message, numbers: seq<int>, n: nat, p: Program) returns (move: Move)
    requires Sane(cfg, view, numbers, n, p) && Neat(p) && !p.sys.main.Complete?
    requires forall who :: Calls(numbers, p, who) ==> exists s :: Unused(cfg, view, numbers, p, who, s)
    ensures Goes(move) && MayMove(cfg, view, numbers, p, move)
  {
    var who;
    move, who := SomebodyGoes(cfg, view, numbers, n, p);
    if who.Some? {
      var s :| Unused(cfg, view, numbers, p, who.value, s);
      move := Issue(who.value, s);
    }
  }

  // ---------------------------------------------------------------- a measure of what is left to do

  ghost function Total(c: nat -> nat, k: nat): nat {
    if k == 0 then 0 else Total(c, k - 1) + c(k - 1)
  }

  lemma {:induction false} OneLower(c: nat -> nat, d: nat -> nat, k: nat, i: nat)
    requires d(i) < c(i) && forall m: nat :: m != i ==> d(m) == c(m)
    ensures if i < k then Total(d, k) < Total(c, k) else Total(d, k) == Total(c, k)
  {
    if k > 0 { OneLower(c, d, k - 1, i); }
  }

  lemma {:induction false} TwoHigher(c: nat -> nat, d: nat -> nat, k: nat, i: nat, j: nat)
    requires d(i) <= 2 && d(j) <= 2 && i != j && forall m: nat :: m != i && m != j ==> d(m) == c(m)
    ensures Total(d, k) <= Total(c, k) + (if i < k then 2 else 0) + (if j < k then 2 else 0)
  {
    if k > 0 { TwoHigher(c, d, k - 1, i, j); }
  }

  function WhoAt(i: nat): Who {
    if i == 0 then TheMain else TheWorker(i - 1)
  }

  function IndexOf(who: Who): nat {
    match who
    case TheMain => 0
    case TheWorker(w) => w + 1
  }

  ghost predicate Queued(p: Program, s: nat) {
    exists c, x :: 0 <= c < |p.chans.queues| && x in p.chans.queues[c].givers + p.chans.queues[c].takers && x.sel == s
  }

  /** The calls that have joined a queue. */
  ghost function JoinedCalls(p: Program): set<nat> {
    set s | s in p.calls && Queued(p, s)
  }

  /** What a routine has still to do for its next call: make it, and join a queue with it. */
  ghost function Cost(calls: map<nat, Who>, line: set<nat>, who: Who): nat {
    if exists s :: s in calls && calls[s] == who && s in line then 0
    else if exists s :: s in calls && calls[s] == who then 1
    else 2
  }

  ghost function Costs(calls: map<nat, Who>, line: set<nat>): nat -> nat {
    i => Cost(calls, line, WhoAt(i))
  }

  ghost function AllCosts(p: Program, k: nat): nat {
    Total(Costs(p.calls, JoinedCalls(p)), k)
  }

  /** Every action of the system outweighs the two calls that have to be made anew. */
  ghost function Distance(numbers: seq<int>, n: nat, p: Program): int {
    5 * Sum.ToDo(numbers, p.sys) + AllCosts(p, n + 1)
  }

  lemma DistanceIsNat(numbers: seq<int>, n: nat, p: Program)
    requires Sum.Valid(numbers, n, p.sys)
    ensures Distance(numbers, n, p) >= 0
  {}

  /** The routine `who` makes the call `s`. */
  lemma CallCosts(calls: map<nat, Who>, line: set<nat>, s: nat, who: Who, k: nat)
    requires s !in calls && s !in line && IndexOf(who) < k && forall t :: t in calls ==> calls[t] != who
    ensures Total(Costs(calls[s := who], line), k) < Total(Costs(calls, line), k)
  {
    var more := calls[s := who];
    assert s in more && more[s] == who && WhoAt(IndexOf(who)) == who;
    forall m: nat | m != IndexOf(who) ensures Cost(more, line, WhoAt(m)) == Cost(calls, line, WhoAt(m)) {
      assert forall t :: t in more && more[t] == WhoAt(m) <==> t in calls && calls[t] == WhoAt(m);
    }
    OneLower(Costs(calls, line), Costs(more, line), k, IndexOf(who));
  }

  /** The call `s` joins its queue. */
  lemma JoinCosts(calls: map<nat, Who>, line: set<nat>, s: nat, k: nat)
    requires s in calls && s !in line && IndexOf(calls[s]) < k
    requires forall t :: t in calls && calls[t] == calls[s] ==> t == s
    ensures Total(Costs(calls, line + {s}), k) < Total(Costs(calls, line), k)
  {
    assert WhoAt(IndexOf(calls[s])) == calls[s];
    OneLower(Costs(calls, line), Costs(calls, line + {s}), k, IndexOf(calls[s]));
  }

  /** The calls `r` and `g` of the main routine and of worker `w` complete. */
  lemma MeetCosts(calls: map<nat, Who>, line: set<nat>, r: nat, g: nat, w: nat, k: nat)
    requires r in calls && g in calls && {calls[r], calls[g]} == {TheMain, TheWorker(w)}
    ensures Total(Costs(calls - {r, g}, line - {r, g}), k) <= Total(Costs(calls, line), k) + 4
  {
    var less := calls - {r, g};
    forall m: nat | m != 0 && m != w + 1 ensures Cost(less, line - {r, g}, WhoAt(m)) == Cost(calls, line, WhoAt(m)) {
      assert WhoAt(m) !in {TheMain, TheWorker(w)};
      assert forall t :: t in less && less[t] == WhoAt(m) <==> t in calls && calls[t] == WhoAt(m);
    }
    TwoHigher(Costs(calls, line), Costs(less, line - {r, g}), k, 0, w + 1);
  }

  // ---------------------------------------------------------------- every move lowers it

  /** Only callers are queued, each with its only alternative. */
  lemma QueuedCalls(cfg: Config, view: Value -> Message, numbers: seq<int>, n: nat, p: Program, c: nat, x: Node)
    requires Sane(cfg, view, numbers, n, p) && c < 2 && x in p.chans.queues[c].givers + p.chans.queues[c].takers
    ensures x.sel in p.calls && x.tok == 0 && x.sel < |cfg.selects| && |cfg.selects[x.sel].alts| == 1
    ensures cfg.selects[x.sel].alts[0].chan == c
    ensures if cfg.selects[x.sel].alts[0].dir == Recv then x in p.chans.queues[c].takers
      else x in p.chans.queues[c].givers
  {
    assert QueueSane(cfg, p.chans.queues[c], c, p.calls);
    assert IsCall(cfg, view, x.sel, Wants(numbers, p.sys, p.calls[x.sel]).value);
  }

  /** Who is in line after a call has been made. */
  lemma IssueLine(cfg: Config, view: Value -> Message, numbers: seq<int>, n: nat, p: Program, who: Who, s: nat)
    requires Sane(cfg, view, numbers, n, p) && MayMove(cfg, view, numbers, p, Issue(who, s))
    ensures JoinedCalls(p.(calls := p.calls[s := who])) == JoinedCalls(p) && s !in JoinedCalls(p)
    ensures IndexOf(who) < n + 1
  {
    var q := p.(calls := p.calls[s := who]);
    forall c, x | 0 <= c < 2 && x in p.chans.queues[c].givers + p.chans.queues[c].takers ensures x.sel != s {
      QueuedCalls(cfg, view, numbers, n, p, c, x);
    }
    assert forall t: nat :: Queued(q, t) == Queued(p, t);
  }

  lemma IssueDecreases(cfg: Config, view: Value -> Message, numbers: seq<int>, n: nat, p: Program, who: Who, s: nat)
    requires Sane(cfg, view, numbers, n, p) && MayMove(cfg, view, numbers, p, Issue(who, s))
    ensures Distance(numbers, n, AfterMove(cfg, view, numbers, p, Issue(who, s))) < Distance(numbers, n, p)
  {
    IssueLine(cfg, view, numbers, n, p, who, s);
    CallCosts(p.calls, JoinedCalls(p), s, who, n + 1);
  }

  /** A call that joins its queue was not queued before. */
  lemma JoinsAnew(cfg: Config, view: Value -> Message, numbers: seq<int>, n: nat, p: Program, x: Node)
    requires Sane(cfg, view, numbers, n, p) && MayMove(cfg, view, numbers, p, Channel(Join(x)))
    ensures !Queued(p, x.sel)
  {
    assert IsCall(cfg, view, x.sel, Wants(numbers, p.sys, p.calls[x.sel]).value);
    forall c, y | 0 <= c < 2 && y in p.chans.queues[c].givers + p.chans.queues[c].takers ensures y.sel != x.sel {
      QueuedCalls(cfg, view, numbers, n, p, c, y);
    }
  }

  /** Who is queued after a call has joined. */
  lemma JoinQueues(cfg: Config, p: Program, q: Program, x: Node, s: nat)
    requires SpecShape(cfg, p.chans) && Allowed(cfg, p.chans, Join(x)) && q.chans == Do(cfg, p.chans, Join(x))
    ensures Queued(q, s) == (s == x.sel || Queued(p, s))
  {
    var d := AltAt(cfg, x.sel, x.tok).chan;
    assert forall c :: 0 <= c < |p.chans.queues| && c != d ==> q.chans.queues[c] == p.chans.queues[c];
    assert x in q.chans.queues[d].givers + q.chans.queues[d].takers;
    forall y ensures y in q.chans.queues[d].givers + q.chans.queues[d].takers
      <==> y == x || y in p.chans.queues[d].givers + p.chans.queues[d].takers {}
  }

  lemma JoinLine(cfg: Config, p: Program, q: Program, x: Node)
    requires SpecShape(cfg, p.chans) && Allowed(cfg, p.chans, Join(x)) && q.chans == Do(cfg, p.chans, Join(x))
    requires q.calls == p.calls && x.sel in p.calls
    ensures JoinedCalls(q) == JoinedCalls(p) + {x.sel}
  {
    forall s: nat ensures s in JoinedCalls(q) <==> s in JoinedCalls(p) + {x.sel} { JoinQueues(cfg, p, q, x, s); }
  }

  /** Who joins has one call, this one, and is not in line yet. */
  lemma JoinerIsCaller(cfg: Config, view: Value -> Message, numbers: seq<int>, n: nat, p: Program, x: Node)
    requires Sane(cfg, view, numbers, n, p) && MayMove(cfg, view, numbers, p, Channel(Join(x)))
    ensures x.sel in p.calls && x.sel !in JoinedCalls(p) && IndexOf(p.calls[x.sel]) < n + 1
    ensures forall t :: t in p.calls && p.calls[t] == p.calls[x.sel] ==> t == x.sel
  {
    JoinsAnew(cfg, view, numbers, n, p, x);
    assert Wants(numbers, p.sys, p.calls[x.sel]).Some?;
  }

  lemma JoinLowers(cfg: Config, numbers: seq<int>, n: nat, p: Program, q: Program, x: Node)
    requires SpecShape(cfg, p.chans) && Allowed(cfg, p.chans, Join(x))
    requires q.chans == Do(cfg, p.chans, Join(x)) && q.calls == p.calls && q.sys == p.sys
    requires x.sel in p.calls && x.sel !in JoinedCalls(p) && IndexOf(p.calls[x.sel]) < n + 1
    requires forall t :: t in p.calls && p.calls[t] == p.calls[x.sel] ==> t == x.sel
    ensures Distance(numbers, n, q) < Distance(numbers, n, p)
  {
    JoinLine(cfg, p, q, x);
    JoinCosts(p.calls, JoinedCalls(p), x.sel, n + 1);
  }

  lemma JoinDecreases(cfg: Config, view: Value -> Message, numbers: seq<int>, n: nat, p: Program, x: Node)
    requires Sane(cfg, view, numbers, n, p) && MayMove(cfg, view, numbers, p, Channel(Join(x)))
    ensures Distance(numbers, n, AfterMove(cfg, view, numbers, p, Channel(Join(x)))) < Distance(numbers, n, p)
  {
    JoinerIsCaller(cfg, view, numbers, n, p, x);
    JoinLowers(cfg, numbers, n, p, AfterMove(cfg, view, numbers, p, Channel(Join(x))), x);
  }

  lemma {:induction false} PruneKeeps(xs: seq<Node>, s: nat, y: Node)
    requires y.sel != s
    ensures y in Prune(xs, s) <==> y in xs
  {
    if xs != [] {
      PruneKeeps(xs[1..], s, y);
      assert xs == [xs[0]] + xs[1..];
    }
  }

  /** Nobody else leaves a queue when two meet. */
  lemma MeetQueues(cfg: Config, a: Spec, x: Node, y: Node, c: nat)
    requires SpecShape(cfg, a) && Allowed(cfg, a, Meet(x)) && c < |a.queues| && y.sel != x.sel
    requires y.sel != Peer(cfg, a, x).sel
    ensures var q, q' := a.queues[c], Do(cfg, a, Meet(x)).queues[c];
      y in q'.givers + q'.takers <==> y in q.givers + q.takers
  {
    var q, peer := a.queues[c], Peer(cfg, a, x);
    MeetQueue(cfg, a, x, c);
    PruneKeeps(q.givers, x.sel, y);
    PruneKeeps(q.takers, x.sel, y);
    PruneKeeps(Prune(q.givers, x.sel), peer.sel, y);
    PruneKeeps(Prune(q.takers, x.sel), peer.sel, y);
  }

  /** Who is queued after two have met: the same but for these two. */
  lemma MeetLeavesQueued(cfg: Config, p: Program, q: Program, x: Node, s: nat)
    requires SpecShape(cfg, p.chans) && Allowed(cfg, p.chans, Meet(x)) && q.chans == Do(cfg, p.chans, Meet(x))
    requires s != x.sel && s != Peer(cfg, p.chans, x).sel
    ensures Queued(q, s) == Queued(p, s)
  {
    assert |q.chans.queues| == |p.chans.queues|;
    forall c, y: Node | 0 <= c < |p.chans.queues| && y.sel == s
      ensures y in q.chans.queues[c].givers + q.chans.queues[c].takers
        <==> y in p.chans.queues[c].givers + p.chans.queues[c].takers
    {
      MeetQueues(cfg, p.chans, x, y, c);
    }
  }

  lemma MeetLine(cfg: Config, p: Program, q: Program, x: Node, r: nat, g: nat)
    requires SpecShape(cfg, p.chans) && Allowed(cfg, p.chans, Meet(x)) && q.chans == Do(cfg, p.chans, Meet(x))
    requires {x.sel, Peer(cfg, p.chans, x).sel} == {r, g} && q.calls == p.calls - {r, g}
    ensures JoinedCalls(q) == JoinedCalls(p) - {r, g}
  {
    forall s: nat | s !in {r, g} ensures s in JoinedCalls(q) <==> s in JoinedCalls(p) {
      MeetLeavesQueued(cfg, p, q, x, s);
    }
  }

  lemma MeetLowers(cfg: Config, numbers: seq<int>, n: nat, p: Program, q: Program, x: Node, r: nat, g: nat, w: nat)
    requires SpecShape(cfg, p.chans) && Allowed(cfg, p.chans, Meet(x)) && q.chans == Do(cfg, p.chans, Meet(x))
    requires {x.sel, Peer(cfg, p.chans, x).sel} == {r, g} && q.calls == p.calls - {r, g}
    requires r in p.calls && g in p.calls && {p.calls[r], p.calls[g]} == {TheMain, TheWorker(w)}
    requires Sum.ToDo(numbers, q.sys) < Sum.ToDo(numbers, p.sys)
    ensures Distance(numbers, n, q) < Distance(numbers, n, p)
  {
    MeetLine(cfg, p, q, x, r, g);
    MeetCosts(p.calls, JoinedCalls(p), r, g, w, n + 1);
  }

  lemma MeetDecreases(cfg: Config, view: Value -> Message, numbers: seq<int>, n: nat, p: Program, x: Node)
    requires Sane(cfg, view, numbers, n, p) && MayMove(cfg, view, numbers, p, Channel(Meet(x)))
    ensures Distance(numbers, n, AfterMove(cfg, view, numbers, p, Channel(Meet(x)))) < Distance(numbers, n, p)
  {
    var (r, g) := Pairing(cfg, p.chans, x);
    var w := MeetingIsNext(cfg, view, numbers, n, p, x);
    Sum.NextDecreases(numbers, n, p.sys, w);
    MeetLowers(cfg, numbers, n, p, AfterMove(cfg, view, numbers, p, Channel(Meet(x))), x, r.sel, g.sel, w);
  }

  /** Who is in line depends on the queues and the calls alone. */
  lemma SameLine(p: Program, q: Program)
    requires q.calls == p.calls && q.chans.queues == p.chans.queues
    ensures JoinedCalls(q) == JoinedCalls(p)
  {
    assert forall s: nat :: Queued(q, s) == Queued(p, s);
  }

  lemma LocalDecreases(cfg: Config, view: Value -> Message, numbers: seq<int>, n: nat, p: Program, w: nat)
    requires Sane(cfg, view, numbers, n, p) && MayMove(cfg, view, numbers, p, Local(w))
    ensures Distance(numbers, n, AfterMove(cfg, view, numbers, p, Local(w))) < Distance(numbers, n, p)
  {
    Sum.NextDecreases(numbers, n, p.sys, w);
    SameLine(p, AfterMove(cfg, view, numbers, p, Local(w)));
  }

  /** Every move but idling brings the program closer to its end. */
  lemma MoveDecreases(cfg: Config, view: Value -> Message, numbers: seq<int>, n: nat, p: Program, move: Move)
    requires Sane(cfg, view, numbers, n, p) && MayMove(cfg, view, numbers, p, move) && Goes(move)
    ensures 0 <= Distance(numbers, n, AfterMove(cfg, view, numbers, p, move)) < Distance(numbers, n, p)
  {
    MoveRefines(cfg, view, numbers, n, p, move);
    DistanceIsNat(numbers, n, AfterMove(cfg, view, numbers, p, move));
    match move {
      case Issue(who, s) => IssueDecreases(cfg, view, numbers, n, p, who, s);
      case Local(w) => LocalDecreases(cfg, view, numbers, n, p, w);
      case Channel(act) =>
        OnlyJoinOrMeet(cfg, view, numbers, n, p, act);
        match act {
          case Join(x) => JoinDecreases(cfg, view, numbers, n, p, x);
          case Meet(x) => MeetDecreases(cfg, view, numbers, n, p, x);
          case _ =>
        }
    }
  }

  // ---------------------------------------------------------------- more calls can always be made

  /** One more select, which nobody has used so far. */
  ghost function Enlarged(cfg: Config, spec: SelectSpec): Config {
    cfg.(selects := cfg.selects + [spec])
  }

  ghost function Padded(p: Program): Program {
    p.(chans := p.chans.(chosen := p.chans.chosen + [None]))
  }

  lemma AllowedAlike(cfg: Config, spec: SelectSpec, a: Spec, act: Act)
    requires SpecShape(cfg, a) && Allowed(cfg, a, act) && (act.Stutter? || act.Join? || act.Meet?)
    ensures Allowed(Enlarged(cfg, spec), a.(chosen := a.chosen + [None]), act)
  {}

  lemma DoesAlike(cfg: Config, spec: SelectSpec, a: Spec, act: Act)
    requires SpecShape(cfg, a) && Allowed(cfg, a, act) && (act.Stutter? || act.Join? || act.Meet?)
    requires Allowed(Enlarged(cfg, spec), a.(chosen := a.chosen + [None]), act)
    ensures var b := Do(cfg, a, act);
      Do(Enlarged(cfg, spec), a.(chosen := a.chosen + [None]), act) == b.(chosen := b.chosen + [None])
  {
    if act.Meet? {
      var b, b' := Do(cfg, a, act), Do(Enlarged(cfg, spec), a.(chosen := a.chosen + [None]), act);
      var peer := Peer(cfg, a, act.n);
      assert Input(Enlarged(cfg, spec), act.n) == Input(cfg, act.n)
        && Input(Enlarged(cfg, spec), peer) == Input(cfg, peer);
      assert b'.chosen == b.chosen + [None];
      assert b'.queues == b.queues;
    }
  }

  lemma MovesAlike(cfg: Config, spec: SelectSpec, view: Value -> Message, numbers: seq<int>, n: nat, p: Program,
        move: Move)
    requires Sane(cfg, view, numbers, n, p) && MayMove(cfg, view, numbers, p, move)
    ensures MayMove(Enlarged(cfg, spec), view, numbers, Padded(p), move)
    ensures AfterMove(Enlarged(cfg, spec), view, numbers, Padded(p), move)
      == Padded(AfterMove(cfg, view, numbers, p, move))
  {
    if move.Channel? {
      OnlyJoinOrMeet(cfg, view, numbers, n, p, move.act);
      AllowedAlike(cfg, spec, p.chans, move.act);
      DoesAlike(cfg, spec, p.chans, move.act);
    }
  }

  /** A run stays a run when there are more selects. */
  lemma {:induction false} RunsAlike(cfg: Config, spec: SelectSpec, view: Value -> Message, numbers: seq<int>, n: nat,
        moves: seq<Move>)
    requires Unbuffered(cfg) && n >= 1 && RunOf(cfg, view, numbers, n, moves).Some?
    ensures RunOf(Enlarged(cfg, spec), view, numbers, n, moves)
      == Some(Padded(RunOf(cfg, view, numbers, n, moves).value))
  {
    if moves == [] {
      assert Abstract.Start(Enlarged(cfg, spec)).chosen == Abstract.Start(cfg).chosen + [None];
    } else {
      var most := moves[..|moves| - 1];
      RunsAlike(cfg, spec, view, numbers, n, most);
      RunsAreSane(cfg, view, numbers, n, most);
      MovesAlike(cfg, spec, view, numbers, n, RunOf(cfg, view, numbers, n, most).value, moves[|moves| - 1]);
    }
  }

  /** The select that makes a call; `make` puts a message into a value. */
  function SpecFor(make: Message -> Value, call: Call): SelectSpec {
    match call
    case ReadFrom(c) => SelectSpec([Alt(Recv, c, 0)], [None], true)
    case WriteTo(c, m) => SelectSpec([Alt(Send, c, 0)], [Some(make(m))], true)
  }

  // ---------------------------------------------------------------- runs

  lemma {:induction false} RunsAreNeat(cfg: Config, view: Value -> Message, numbers: seq<int>, n: nat, moves: seq<Move>)
    requires Unbuffered(cfg) && n >= 1 && RunOf(cfg, view, numbers, n, moves).Some?
    ensures Neat(RunOf(cfg, view, numbers, n, moves).value)
  {
    if moves == [] {
      BeginIsNeat(cfg, numbers, n);
    } else {
      var most := moves[..|moves| - 1];
      RunsAreNeat(cfg, view, numbers, n, most);
      RunsAreSane(cfg, view, numbers, n, most);
      MoveKeepsNeat(cfg, view, numbers, n, RunOf(cfg, view, numbers, n, most).value, moves[|moves| - 1]);
    }
  }

  /** Whatever the schedule, there are only so many moves that are not idling. */
  lemma {:induction false} RunsAreShort(cfg: Config, view: Value -> Message, numbers: seq<int>, n: nat,
        moves: seq<Move>)
    requires Unbuffered(cfg) && n >= 1 && RunOf(cfg, view, numbers, n, moves).Some?
    requires forall k :: 0 <= k < |moves| ==> Goes(moves[k])
    ensures |moves| + Distance(numbers, n, RunOf(cfg, view, numbers, n, moves).value)
      <= Distance(numbers, n, Begin(cfg, numbers, n))
  {
    if moves != [] {
      var most := moves[..|moves| - 1];
      RunsAreShort(cfg, view, numbers, n, most);
      RunsAreSane(cfg, view, numbers, n, most);
      MoveDecreases(cfg, view, numbers, n, RunOf(cfg, view, numbers, n, most).value, moves[|moves| - 1]);
    }
  }

  /** The run goes on with this move. */
  lemma {:induction false} OneMoreMove(cfg: Config, view: Value -> Message, numbers: seq<int>, n: nat, moves: seq<Move>,
        p: Program, move: Move)
    requires Unbuffered(cfg) && n >= 1 && RunOf(cfg, view, numbers, n, moves) == Some(p)
    requires MayMove(cfg, view, numbers, p, move) && Goes(move)
    ensures RunOf(cfg, view, numbers, n, moves + [move]) == Some(AfterMove(cfg, view, numbers, p, move))
    ensures 0 <= Distance(numbers, n, AfterMove(cfg, view, numbers, p, move)) < Distance(numbers, n, p)
  {
    assert (moves + [move])[..|moves + [move]| - 1] == moves;
    RunsAreSane(cfg, view, numbers, n, moves);
    MoveDecreases(cfg, view, numbers, n, p, move);
  }

  /** A call that nobody has a select for yet can be made with a new one. */
  lemma CallsAnew(cfg: Config, view: Value -> Message, make: Message -> Value, numbers: seq<int>, n: nat, p: Program,
        who: Who)
    returns (spec: SelectSpec)
    requires Sane(cfg, view, numbers, n, p) && Calls(numbers, p, who) && forall m :: view(make(m)) == m
    ensures MayMove(Enlarged(cfg, spec), view, numbers, Padded(p), Issue(who, |cfg.selects|))
    ensures Distance(numbers, n, Padded(p)) == Distance(numbers, n, p)
  {
    spec := SpecFor(make, Wants(numbers, p.sys, who).value);
    assert IsCall(Enlarged(cfg, spec), view, |cfg.selects|, Wants(numbers, p.sys, who).value);
    forall s | s in p.calls ensures s != |cfg.selects| {
      assert IsCall(cfg, view, s, Wants(numbers, p.sys, p.calls[s]).value);
    }
    SameLine(p, Padded(p));
  }

  /** One move nearer to the sum, with one call more if need be. */
  lemma {:induction false} Nearer(cfg: Config, view: Value -> Message, make: Message -> Value, numbers: seq<int>,
        n: nat, moves: seq<Move>, p: Program)
    returns (rich: Config, move: Move, q: Program)
    requires Unbuffered(cfg) && n >= 1 && RunOf(cfg, view, numbers, n, moves) == Some(p) && !p.sys.main.Complete?
    requires forall m :: view(make(m)) == m
    ensures rich.caps == cfg.caps && cfg.selects <= rich.selects
    ensures RunOf(rich, view, numbers, n, moves + [move]) == Some(q)
    ensures 0 <= Distance(numbers, n, q) < Distance(numbers, n, p)
  {
    RunsAreSane(cfg, view, numbers, n, moves);
    RunsAreNeat(cfg, view, numbers, n, moves);
    var who;
    move, who := SomebodyGoes(cfg, view, numbers, n, p);
    if who.None? {
      rich, q := cfg, AfterMove(cfg, view, numbers, p, move);
      OneMoreMove(cfg, view, numbers, n, moves, p, move);
    } else {
      var spec := CallsAnew(cfg, view, make, numbers, n, p, who.value);
      rich, move := Enlarged(cfg, spec), Issue(who.value, |cfg.selects|);
      q := AfterMove(rich, view, numbers, Padded(p), move);
      RunsAlike(cfg, spec, view, numbers, n, moves);
      OneMoreMove(rich, view, numbers, n, moves, Padded(p), move);
    }
  }

  /** These moves are possible and lead to the sum. */
  ghost predicate Sums(cfg: Config, view: Value -> Message, numbers: seq<int>, n: nat, moves: seq<Move>) {
    RunOf(cfg, view, numbers, n, moves).Some? && Summed(numbers, n, RunOf(cfg, view, numbers, n, moves).value.sys)
  }

  /** A run, on channels of the example, and where it has come to. */
  datatype Point = Point(cfg: Config, moves: seq<Move>, p: Program)

  ghost predicate GoodPoint(view: Value -> Message, numbers: seq<int>, n: nat, a: Point) {
    Unbuffered(a.cfg) && RunOf(a.cfg, view, numbers, n, a.moves) == Some(a.p)
  }

  /** The run went on, with more selects. */
  ghost predicate Onward(a: Point, b: Point) {
    b.cfg.caps == a.cfg.caps && a.cfg.selects <= b.cfg.selects && a.moves <= b.moves
  }

  lemma {:induction false} NearerPoint(view: Value -> Message, make: Message -> Value, numbers: seq<int>, n: nat,
        a: Point)
    returns (b: Point)
    requires n >= 1 && GoodPoint(view, numbers, n, a) && !a.p.sys.main.Complete? && forall m :: view(make(m)) == m
    ensures GoodPoint(view, numbers, n, b) && Onward(a, b) && 0 <= Distance(numbers, n, b.p) < Distance(numbers, n, a.p)
  {
    var rich, move, q := Nearer(a.cfg, view, make, numbers, n, a.moves, a.p);
    b := Point(rich, a.moves + [move], q);
  }

  lemma {:induction false} LastPoint(view: Value -> Message, numbers: seq<int>, n: nat, a: Point)
    requires n >= 1 && GoodPoint(view, numbers, n, a) && a.p.sys.main.Complete?
    ensures Sums(a.cfg, view, numbers, n, a.moves)
  {
    SumOverChannels(a.cfg, view, numbers, n, a.moves);
  }

  /** The example comes to its end over the channels.  Whatever calls were made so far, and however the
      channels paired them, the program can go on, making calls as it comes to them, to where the main
      routine has the sum and every worker has finished and consumed one nullopt. */
  lemma {:induction false} SumIsReached(cfg: Config, view: Value -> Message, make: Message -> Value, numbers: seq<int>,
        n: nat, moves: seq<Move>)
    returns (rich: Config, all: seq<Move>)
    requires Unbuffered(cfg) && n >= 1 && RunOf(cfg, view, numbers, n, moves).Some? && forall m :: view(make(m)) == m
    ensures rich.caps == cfg.caps && cfg.selects <= rich.selects && moves <= all && Sums(rich, view, numbers, n, all)
  {
    var good, end := (a: Point) => GoodPoint(view, numbers, n, a), (a: Point) => a.p.sys.main.Complete?;
    var left := (a: Point) => if Distance(numbers, n, a.p) > 0 then Distance(numbers, n, a.p) else 0;
    forall a | good(a) && !end(a) ensures exists b :: good(b) && Onward(a, b) && left(b) < left(a) {
      var b := NearerPoint(view, make, numbers, n, a);
      assert good(b) && left(b) < left(a);
    }
    assert GoesDown(good, end, left, Onward);
    var z := Reaches(good, end, left, Onward, Point(cfg, moves, RunOf(cfg, view, numbers, n, moves).value));
    LastPoint(view, numbers, n, z);
    rich, all := z.cfg, z.moves;
  }
}
