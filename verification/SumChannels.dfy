/**
 The example over the atomic channels.  Here the main routine and the workers issue calls of `read`
 and `write` on two channels without a buffer, and learn of nothing but the completion of their own
 calls.  Every step of that program turns out to be none, or one, of the system of `SumExample`.
 */
module SumChannels {
  import opened Options
  import opened Protocol
  import opened Filters
  import opened Invariant
  import opened Abstract
  import Sum = SumExample

  // ---------------------------------------------------------------- channels without a buffer

  ghost predicate ActsAt(cfg: Config, act: Act, c: nat) {
    !act.Stutter? && act.n.sel < |cfg.selects| && act.n.tok < |cfg.selects[act.n.sel].alts|
    && AltAt(cfg, act.n.sel, act.n.tok).dir != Skip && AltAt(cfg, act.n.sel, act.n.tok).chan == c
  }

  /** Nothing is ever in stock on a channel without a buffer: operations wait or meet, nothing else. */
  lemma {:induction false} UnbufferedMeets(cfg: Config, acts: seq<Act>, c: nat)
    requires After(cfg, acts).Some? && c < |cfg.caps| && cfg.caps[c] == Some(0)
    ensures SpecShape(cfg, After(cfg, acts).value) && After(cfg, acts).value.queues[c].stock == []
    ensures forall act ::
      Allowed(cfg, After(cfg, acts).value, act) && ActsAt(cfg, act, c) ==> act.Join? || act.Miss? || act.Meet?
  {
    if acts != [] {
      UnbufferedMeets(cfg, acts[..|acts| - 1], c);
    }
  }

  /** The two nodes of a meeting, the reader first. */
  ghost function Pairing(cfg: Config, a: Spec, n: Node): (Node, Node)
    requires Allowed(cfg, a, Meet(n))
  {
    var q := a.queues[AltAt(cfg, n.sel, n.tok).chan];
    if AltAt(cfg, n.sel, n.tok).dir == Recv then (n, q.givers[0]) else (q.takers[0], n)
  }

  /** A meeting completes exactly one reader and one writer, and deals the one the other's value. */
  lemma MeetingPairs(cfg: Config, a: Spec, n: Node)
    requires SpecShape(cfg, a) && Allowed(cfg, a, Meet(n))
    ensures var b, (r, w), c := Do(cfg, a, Meet(n)), Pairing(cfg, a, n), AltAt(cfg, n.sel, n.tok).chan;
      && r.sel != w.sel && r.sel < |a.chosen| && w.sel < |a.chosen| && a.chosen[r.sel].None? && a.chosen[w.sel].None?
      && b.chosen == a.chosen[r.sel := Some(r.tok)][w.sel := Some(w.tok)]
      && b.queues[c].deals == a.queues[c].deals + [Deal(r, Input(cfg, w))]
      && forall d :: 0 <= d < |a.queues| && d != c ==> b.queues[d].deals == a.queues[d].deals
  {}

  // ---------------------------------------------------------------- the program

  /** The channels `in` and `out`. */
  const IN := 0
  const OUT := 1

  ghost predicate Unbuffered(cfg: Config) {
    |cfg.caps| == 2 && cfg.caps[IN] == Some(0) && cfg.caps[OUT] == Some(0)
  }

  /** What travels on them. */
  datatype Message = In(number: Option<int>) | Out(sum: int)

  datatype Who = TheMain | TheWorker(w: nat)

  /** A call that somebody is about to make. */
  datatype Call = ReadFrom(chan: nat) | WriteTo(chan: nat, message: Message)

  /** The state of the channels, that of the routines, and who waits for which call to complete. */
  datatype Program = Program(chans: Spec, sys: Sum.System, calls: map<nat, Who>)

  datatype Move = Issue(who: Who, s: nat) | Channel(act: Act) | Local(w: nat)

  /** The call that a routine has come to. */
  ghost function Wants(numbers: seq<int>, sys: Sum.System, who: Who): Option<Call> {
    match who
    case TheMain =>
      var offer := Sum.Offer(numbers, sys.main);
      if offer.Some? then Some(WriteTo(IN, In(offer.value))) else if sys.main.Collecting? then Some(ReadFrom(OUT))
        else None
    case TheWorker(w) =>
      if w >= |sys.workers| then None else
      match sys.workers[w]
      case Reading(_) => Some(ReadFrom(IN))
      case Writing(sum) => Some(WriteTo(OUT, Out(sum)))
      case _ => None
  }

  /** Select `s` is that call; `view` reads the values that the channels carry. */
  ghost predicate IsCall(cfg: Config, view: Value -> Message, s: nat, call: Call) {
    && s < |cfg.selects| && cfg.selects[s].waits
    && match call
       case ReadFrom(c) => cfg.selects[s].alts == [Alt(Recv, c, 0)]
       case WriteTo(c, m) => cfg.selects[s].alts == [Alt(Send, c, 0)] && |cfg.selects[s].inputs| == 1
                             && cfg.selects[s].inputs[0].Some? && view(cfg.selects[s].inputs[0].value) == m
  }

  /** What a routine does when its call has completed: a read has got a message, a write nothing. */
  ghost function Learn(numbers: seq<int>, sys: Sum.System, who: Who, got: Option<Message>): Sum.System {
    match who
    case TheMain =>
      if got.None? then sys.(main := Sum.AfterWrite(numbers, sys.main))
      else if sys.main.Collecting? && got.value.Out? then
        sys.(main := if sys.main.j + 1 == |sys.workers| then Sum.Complete(got.value.sum)
          else Sum.Passing(sys.main.j, got.value.sum))
      else sys
    case TheWorker(w) =>
      if w >= |sys.workers| || |sys.nulls| != |sys.workers| then sys
      else if got.None? then sys.(workers := sys.workers[w := Sum.Finished])
      else if sys.workers[w].Reading? && got.value.In? then
        var v := got.value.number;
        Sum.System(sys.main, sys.workers[w := Sum.Holding(sys.workers[w].sum, v)],
                   if v.None? then sys.nulls[w := sys.nulls[w] + 1] else sys.nulls)
      else sys
  }

  ghost predicate MayMove(cfg: Config, view: Value -> Message, numbers: seq<int>, p: Program, move: Move) {
    match move
    case Issue(who, s) =>
      Wants(numbers, p.sys, who).Some? && IsCall(cfg, view, s, Wants(numbers, p.sys, who).value)
      && s < |p.chans.chosen| && p.chans.chosen[s].None? && s !in p.calls
      && forall t :: t in p.calls ==> p.calls[t] != who
    case Channel(act) =>
      Allowed(cfg, p.chans, act)
      && (act.Stutter? || (act.n.sel in p.calls
          && (act.Meet? ==> var pair := Pairing(cfg, p.chans, act.n); pair.0.sel in p.calls && pair.1.sel in p.calls)))
    case Local(w) => w < |p.sys.workers| && p.sys.workers[w].Holding? && Sum.Enabled(numbers, p.sys, w)
  }

  ghost function AfterMove(cfg: Config, view: Value -> Message, numbers: seq<int>, p: Program, move: Move): Program
    requires MayMove(cfg, view, numbers, p, move)
  {
    match move
    case Issue(who, s) => p.(calls := p.calls[s := who])
    case Local(w) => p.(sys := Sum.Next(numbers, p.sys, w))
    case Channel(act) =>
      if !act.Meet? then p.(chans := Do(cfg, p.chans, act)) else
      var (r, w) := Pairing(cfg, p.chans, act.n);
      var dealt := Input(cfg, w);
      if dealt.None? then p else
      Program(Do(cfg, p.chans, act),
              Learn(numbers, Learn(numbers, p.sys, p.calls[w.sel], None), p.calls[r.sel], Some(view(dealt.value))),
              p.calls - {r.sel, w.sel})
  }

  // ---------------------------------------------------------------- every move is none or one of the system's

  /** Everybody who waits for a call waits for the one that it has come to, and for one only. */
  ghost predicate CallersSane(cfg: Config, view: Value -> Message, numbers: seq<int>, sys: Sum.System, calls: map<nat,
        Who>)
  {
    && (forall s ::
      s in calls ==> Wants(numbers, sys, calls[s]).Some? && IsCall(cfg, view, s, Wants(numbers, sys, calls[s]).value))
    && (forall s, t :: s in calls && t in calls && calls[s] == calls[t] ==> s == t)
  }

  /** Only such calls are in the queues of the two channels, and nothing is in stock. */
  ghost predicate QueueSane(cfg: Config, q: Queue, c: nat, calls: map<nat, Who>) {
    && q.stock == []
    && (forall x :: x in q.givers ==> x.sel in calls && EntersAt(cfg, x, c, Send))
    && (forall x :: x in q.takers ==> x.sel in calls && EntersAt(cfg, x, c, Recv))
  }

  ghost predicate Sane(cfg: Config, view: Value -> Message, numbers: seq<int>, n: nat, p: Program) {
    && Unbuffered(cfg) && SpecShape(cfg, p.chans)
    && Sum.Valid(numbers, n, p.sys) && CallersSane(cfg, view, numbers, p.sys, p.calls)
    && QueueSane(cfg, p.chans.queues[IN], IN, p.calls) && QueueSane(cfg, p.chans.queues[OUT], OUT, p.calls)
  }

  /** Who meets on which channel: the main routine and a worker. */
  lemma MeetingOf(cfg: Config, view: Value -> Message, numbers: seq<int>, n: nat, p: Program, x: Node) returns (w: nat)
    requires Sane(cfg, view, numbers, n, p) && MayMove(cfg, view, numbers, p, Channel(Meet(x)))
    ensures var (r, g) := Pairing(cfg, p.chans, x);
      && w < n && r.sel in p.calls && g.sel in p.calls && Input(cfg, g).Some?
      && if AltAt(cfg, x.sel, x.tok).chan == IN
         then p.calls[g.sel] == TheMain && p.calls[r.sel] == TheWorker(w) && p.sys.workers[w].Reading?
              && Sum.Offer(numbers, p.sys.main).Some?
              && view(Input(cfg, g).value) == In(Sum.Offer(numbers, p.sys.main).value)
         else p.calls[r.sel] == TheMain && p.calls[g.sel] == TheWorker(w) && p.sys.workers[w].Writing?
              && p.sys.main.Collecting? && view(Input(cfg, g).value) == Out(p.sys.workers[w].sum)
  {
    var (r, g) := Pairing(cfg, p.chans, x);
    var c := AltAt(cfg, x.sel, x.tok).chan;
    assert IsCall(cfg, view, x.sel, Wants(numbers, p.sys, p.calls[x.sel]).value);
    assert IsCall(cfg, view, r.sel, Wants(numbers, p.sys, p.calls[r.sel]).value);
    assert IsCall(cfg, view, g.sel, Wants(numbers, p.sys, p.calls[g.sel]).value);
    assert EntersAt(cfg, r, c, Recv) && EntersAt(cfg, g, c, Send);
    w := if c == IN then p.calls[r.sel].w else p.calls[g.sel].w;
  }

  lemma LearntAtIn(numbers: seq<int>, sys: Sum.System, w: nat, v: Option<int>)
    requires w < |sys.workers| == |sys.nulls| && sys.workers[w].Reading? && Sum.Offer(numbers, sys.main) == Some(v)
    ensures Sum.Enabled(numbers, sys, w)
    ensures Learn(numbers, Learn(numbers, sys, TheMain, None), TheWorker(w), Some(In(v))) == Sum.Next(numbers, sys, w)
  {}

  lemma LearntAtOut(numbers: seq<int>, sys: Sum.System, w: nat)
    requires w < |sys.workers| == |sys.nulls| && sys.workers[w].Writing? && sys.main.Collecting?
    ensures Sum.Enabled(numbers, sys, w)
    ensures Learn(numbers, Learn(numbers, sys, TheWorker(w), None), TheMain, Some(Out(sys.workers[w].sum)))
      == Sum.Next(numbers, sys, w)
  {}

  /** What the two learn from their meeting is exactly one action of the system. */
  lemma MeetingIsNext(cfg: Config, view: Value -> Message, numbers: seq<int>, n: nat, p: Program, x: Node)
    returns (w: nat)
    requires Sane(cfg, view, numbers, n, p) && MayMove(cfg, view, numbers, p, Channel(Meet(x)))
    ensures Sum.Enabled(numbers, p.sys, w) && !p.sys.workers[w].Holding?
    ensures var q := AfterMove(cfg, view, numbers, p, Channel(Meet(x))); var (r, g) := Pairing(cfg, p.chans, x);
      && q.sys == Sum.Next(numbers, p.sys, w) && q.calls == p.calls - {r.sel, g.sel}
      && q.chans == Do(cfg, p.chans, Meet(x))
      && r.sel in p.calls && g.sel in p.calls && {p.calls[r.sel], p.calls[g.sel]} == {TheMain, TheWorker(w)}
  {
    w := MeetingOf(cfg, view, numbers, n, p, x);
    if AltAt(cfg, x.sel, x.tok).chan == IN {
      LearntAtIn(numbers, p.sys, w, Sum.Offer(numbers, p.sys.main).value);
    } else {
      LearntAtOut(numbers, p.sys, w);
    }
  }

  /** Whoever does not move wants what it wanted. */
  lemma OthersWantTheSame(numbers: seq<int>, n: nat, sys: Sum.System, w: nat, who: Who)
    requires Sum.Valid(numbers, n, sys) && Sum.Enabled(numbers, sys, w) && who != TheWorker(w)
    requires who == TheMain ==> sys.workers[w].Holding?
    ensures Wants(numbers, Sum.Next(numbers, sys, w), who) == Wants(numbers, sys, who)
  {}

  lemma LocalKeepsSane(cfg: Config, view: Value -> Message, numbers: seq<int>, n: nat, p: Program, w: nat)
    requires Sane(cfg, view, numbers, n, p) && MayMove(cfg, view, numbers, p, Local(w))
    ensures Sane(cfg, view, numbers, n, AfterMove(cfg, view, numbers, p, Local(w)))
  {
    Sum.NextIsValid(numbers, n, p.sys, w);
    forall s | s in p.calls
      ensures Wants(numbers, Sum.Next(numbers, p.sys, w), p.calls[s]) == Wants(numbers, p.sys, p.calls[s])
    {
      assert p.calls[s] != TheWorker(w);
      OthersWantTheSame(numbers, n, p.sys, w, p.calls[s]);
    }
  }

  lemma JoinKeepsQueue(cfg: Config, view: Value -> Message, numbers: seq<int>, n: nat, p: Program, x: Node, c: nat)
    requires Sane(cfg, view, numbers, n, p) && MayMove(cfg, view, numbers, p, Channel(Join(x))) && c < 2
    ensures QueueSane(cfg, Do(cfg, p.chans, Join(x)).queues[c], c, p.calls)
  {
    assert NodeOk(cfg, x);
    var q, q' := p.chans.queues[c], Do(cfg, p.chans, Join(x)).queues[c];
    assert forall y :: y in q'.givers ==> y in q.givers || y == x;
    assert forall y :: y in q'.takers ==> y in q.takers || y == x;
  }

  lemma JoinKeepsSane(cfg: Config, view: Value -> Message, numbers: seq<int>, n: nat, p: Program, x: Node)
    requires Sane(cfg, view, numbers, n, p) && MayMove(cfg, view, numbers, p, Channel(Join(x)))
    ensures Sane(cfg, view, numbers, n, AfterMove(cfg, view, numbers, p, Channel(Join(x))))
  {
    JoinKeepsQueue(cfg, view, numbers, n, p, x, IN);
    JoinKeepsQueue(cfg, view, numbers, n, p, x, OUT);
  }

  lemma TwicePruned(xs: seq<Node>, s: nat, t: nat)
    ensures forall x :: x in Prune(Prune(xs, s), t) ==> x in xs && x.sel != s && x.sel != t
  {
    PrunedOf(xs, s);
    PrunedOf(Prune(xs, s), t);
  }

  lemma MeetQueue(cfg: Config, a: Spec, x: Node, c: nat)
    requires SpecShape(cfg, a) && Allowed(cfg, a, Meet(x)) && c < |a.queues|
    ensures var q, q', peer := a.queues[c], Do(cfg, a, Meet(x)).queues[c], Peer(cfg, a, x);
      && q'.stock == q.stock && q'.givers == Prune(Prune(q.givers, x.sel), peer.sel)
      && q'.takers == Prune(Prune(q.takers, x.sel), peer.sel)
  {}

  lemma QueueLeft(cfg: Config, q: Queue, q': Queue, c: nat, calls: map<nat, Who>, s: nat, t: nat)
    requires QueueSane(cfg, q, c, calls) && q'.stock == q.stock
    requires q'.givers == Prune(Prune(q.givers, s), t) && q'.takers == Prune(Prune(q.takers, s), t)
    ensures QueueSane(cfg, q', c, calls - {s, t})
  {
    TwicePruned(q.givers, s, t);
    TwicePruned(q.takers, s, t);
  }

  /** The two that met are in no queue any more. */
  lemma MeetKeepsQueue(cfg: Config, p: Program, x: Node, c: nat)
    requires SpecShape(cfg, p.chans) && Allowed(cfg, p.chans, Meet(x)) && c < |p.chans.queues|
    requires QueueSane(cfg, p.chans.queues[c], c, p.calls)
    ensures QueueSane(cfg, Do(cfg, p.chans, Meet(x)).queues[c], c, p.calls - {x.sel, Peer(cfg, p.chans, x).sel})
  {
    MeetQueue(cfg, p.chans, x, c);
    QueueLeft(cfg, p.chans.queues[c], Do(cfg, p.chans, Meet(x)).queues[c], c, p.calls, x.sel,
      Peer(cfg, p.chans, x).sel);
  }

  lemma MeetKeepsCallers(cfg: Config, view: Value -> Message, numbers: seq<int>, n: nat, sys: Sum.System,
        calls: map<nat, Who>, r: nat, g: nat, w: nat)
    requires Sum.Valid(numbers, n, sys) && Sum.Enabled(numbers, sys, w) && CallersSane(cfg, view, numbers, sys, calls)
    requires r in calls && g in calls && {calls[r], calls[g]} == {TheMain, TheWorker(w)}
    ensures CallersSane(cfg, view, numbers, Sum.Next(numbers, sys, w), calls - {r, g})
  {
    forall s | s in calls - {r, g}
      ensures Wants(numbers, Sum.Next(numbers, sys, w), calls[s]) == Wants(numbers, sys, calls[s])
    {
      assert calls[s] != calls[r] && calls[s] != calls[g];
      assert calls[s] !in {TheMain, TheWorker(w)};
      OthersWantTheSame(numbers, n, sys, w, calls[s]);
    }
  }

  lemma MeetKeepsSane(cfg: Config, view: Value -> Message, numbers: seq<int>, n: nat, p: Program, x: Node)
    returns (w: nat)
    requires Sane(cfg, view, numbers, n, p) && MayMove(cfg, view, numbers, p, Channel(Meet(x)))
    ensures Sane(cfg, view, numbers, n, AfterMove(cfg, view, numbers, p, Channel(Meet(x))))
    ensures Sum.Enabled(numbers, p.sys, w)
    ensures AfterMove(cfg, view, numbers, p, Channel(Meet(x))).sys == Sum.Next(numbers, p.sys, w)
  {
    w := MeetingIsNext(cfg, view, numbers, n, p, x);
    var (r, g) := Pairing(cfg, p.chans, x);
    Sum.NextIsValid(numbers, n, p.sys, w);
    MeetKeepsCallers(cfg, view, numbers, n, p.sys, p.calls, r.sel, g.sel, w);
    assert {x.sel, Peer(cfg, p.chans, x).sel} == {r.sel, g.sel};
    MeetKeepsQueue(cfg, p, x, IN);
    MeetKeepsQueue(cfg, p, x, OUT);
  }

  /** Callers on channels without a buffer can only wait or meet. */
  lemma OnlyJoinOrMeet(cfg: Config, view: Value -> Message, numbers: seq<int>, n: nat, p: Program, act: Act)
    requires Sane(cfg, view, numbers, n, p) && MayMove(cfg, view, numbers, p, Channel(act))
    ensures act.Stutter? || act.Join? || act.Meet?
  {
    if !act.Stutter? { assert IsCall(cfg, view, act.n.sel, Wants(numbers, p.sys, p.calls[act.n.sel]).value); }
  }

  /** Every move of the program over the channels is no action of the system, or exactly one. */
  lemma MoveRefines(cfg: Config, view: Value -> Message, numbers: seq<int>, n: nat, p: Program, move: Move)
    requires Sane(cfg, view, numbers, n, p) && MayMove(cfg, view, numbers, p, move)
    ensures var q := AfterMove(cfg, view, numbers, p, move);
      && Sane(cfg, view, numbers, n, q)
      && (q.sys == p.sys || exists w :: Sum.Enabled(numbers, p.sys, w) && q.sys == Sum.Next(numbers, p.sys, w))
  {
    match move {
      case Issue(_, _) =>
      case Local(w) => LocalKeepsSane(cfg, view, numbers, n, p, w);
      case Channel(act) =>
        OnlyJoinOrMeet(cfg, view, numbers, n, p, act);
        match act {
          case Join(x) => JoinKeepsSane(cfg, view, numbers, n, p, x);
          case Meet(x) => var w := MeetKeepsSane(cfg, view, numbers, n, p, x);
          case _ =>
        }
    }
  }

  ghost function Begin(cfg: Config, numbers: seq<int>, n: nat): Program {
    Program(Abstract.Start(cfg), Sum.Start(numbers, n), map[])
  }

  /** The state of the program after these moves, if each is possible where it comes. */
  ghost function RunOf(cfg: Config, view: Value -> Message, numbers: seq<int>, n: nat,
        moves: seq<Move>): Option<Program>
  {
    if moves == [] then Some(Begin(cfg, numbers, n)) else
    var p := RunOf(cfg, view, numbers, n, moves[..|moves| - 1]);
    if p.Some? && MayMove(cfg, view, numbers, p.value, moves[|moves| - 1])
    then Some(AfterMove(cfg, view, numbers, p.value, moves[|moves| - 1])) else None
  }

  /** The main routine has the sum, each worker has finished and has consumed one nullopt. */
  ghost predicate Summed(numbers: seq<int>, n: nat, sys: Sum.System) {
    && sys.main == Sum.Complete(Sum.Sum(numbers)) && |sys.workers| == |sys.nulls| == n
    && forall w :: 0 <= w < n ==> sys.workers[w] == Sum.Finished && sys.nulls[w] == 1
  }

  lemma CompleteIsSummed(numbers: seq<int>, n: nat, sys: Sum.System)
    requires Sum.Valid(numbers, n, sys) && sys.main.Complete?
    ensures Summed(numbers, n, sys)
  {
    Sum.Remaining(sys.workers);
  }

  lemma BeginIsSane(cfg: Config, view: Value -> Message, numbers: seq<int>, n: nat)
    requires Unbuffered(cfg) && n >= 1
    ensures Sane(cfg, view, numbers, n, Begin(cfg, numbers, n))
  {
    Sum.StartIsValid(numbers, n);
  }

  lemma {:induction false} RunsAreSane(cfg: Config, view: Value -> Message, numbers: seq<int>, n: nat, moves: seq<Move>)
    requires Unbuffered(cfg) && n >= 1
    requires RunOf(cfg, view, numbers, n, moves).Some?
    ensures Sane(cfg, view, numbers, n, RunOf(cfg, view, numbers, n, moves).value)
  {
    if moves == [] {
      BeginIsSane(cfg, view, numbers, n);
    } else {
      var most := moves[..|moves| - 1];
      RunsAreSane(cfg, view, numbers, n, most);
      MoveRefines(cfg, view, numbers, n, RunOf(cfg, view, numbers, n, most).value, moves[|moves| - 1]);
    }
  }

  /** The sum is right over the channels, too: whatever calls were made, and however the channels
      paired them, if the main routine has come to its end it returns the sum of the numbers. */
  lemma {:induction false} SumOverChannels(cfg: Config, view: Value -> Message, numbers: seq<int>, n: nat,
        moves: seq<Move>)
    requires Unbuffered(cfg) && n >= 1
    requires RunOf(cfg, view, numbers, n, moves).Some?
    ensures var sys := RunOf(cfg, view, numbers, n, moves).value.sys; sys.main.Complete? ==> Summed(numbers, n, sys)
  {
    RunsAreSane(cfg, view, numbers, n, moves);
    var sys := RunOf(cfg, view, numbers, n, moves).value.sys;
    if sys.main.Complete? { CompleteIsSummed(numbers, n, sys); }
  }
}
