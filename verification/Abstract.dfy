/**
 The atomic view of the protocol.  A channel is a queue of values in stock, of waiting writes
 (givers) and of waiting reads (takers); completing an operation is one indivisible action that
 also withdraws the select from every other queue.  There are no locks, no flags, no stale nodes
 and no half-finished hand-overs here; `Refinement` shows that the step machine only ever does
 what this machine can do.
 */
module Abstract {
  import opened Options
  import opened Protocol
  import opened Filters
  import opened Invariant
  import opened KeepCtl
  import opened Keep
  import opened Runs
  import opened Fifo

  /** A completed read and the value it gets. */
  datatype Deal = Deal(reader: Node, value: Option<Value>)

  datatype Queue = Queue(stock: seq<Option<Value>>, givers: seq<Node>, takers: seq<Node>, deals: seq<Deal>)

  /** `chosen[s]` is the alternative that select `s` completed with. */
  datatype Spec = Spec(chosen: seq<Option<nat>>, queues: seq<Queue>)

  datatype Act =
    | Stutter
    | Miss(n: Node)    // a wait-free try that finds nothing
    | Join(n: Node)    // wait at the back
    | Get(n: Node)     // read the oldest value in stock
    | Put(n: Node)     // write into stock
    | Meet(n: Node)    // complete together with the longest waiting counterpart
    | Admit(n: Node)   // the longest waiting write enters stock
    | Pass(n: Node)    // complete without any channel

  // ---------------------------------------------------------------- the atomic machine

  ghost predicate SpecShape(cfg: Config, a: Spec) {
    |a.chosen| == |cfg.selects| && |a.queues| == |cfg.caps|
  }

  /** An alternative of an unfinished select, on an existing channel. */
  ghost predicate Eligible(cfg: Config, a: Spec, n: Node) {
    SpecShape(cfg, a) && n.sel < |cfg.selects| && n.tok < |cfg.selects[n.sel].alts|
    && (AltAt(cfg, n.sel, n.tok).dir != Skip ==> AltAt(cfg, n.sel, n.tok).chan < |a.queues|)
    && a.chosen[n.sel].None?
  }

  /** Nothing to be had for the alternative: a read finds neither a value nor a giver, a write
      neither a taker nor room. */
  ghost predicate Nothing(cap: Option<nat>, dir: Dir, q: Queue) {
    if dir == Recv then q.stock == [] && q.givers == [] else q.takers == [] && cap == Some(|q.stock|)
  }

  ghost predicate Allowed(cfg: Config, a: Spec, act: Act) {
    act.Stutter? ||
    (Eligible(cfg, a, act.n) &&
     var alt := AltAt(cfg, act.n.sel, act.n.tok);
     if act.Pass? then alt.dir == Skip else
     alt.dir != Skip &&
     var q, cap := a.queues[alt.chan], cfg.caps[alt.chan];
     match act
     case Miss(_) => Nothing(cap, alt.dir, q) && !cfg.selects[act.n.sel].waits
     case Join(n) => Nothing(cap, alt.dir, q) && cfg.selects[n.sel].waits && n !in q.takers && n !in q.givers
     case Get(_) => alt.dir == Recv && q.stock != [] && q.takers == []
     case Put(_) => alt.dir == Send && q.takers == [] && q.givers == [] && (cap.Some? ==> |q.stock| < cap.value)
     case Meet(n) =>
       var (list, others) := if alt.dir == Recv then (q.givers, q.takers) else (q.takers, q.givers);
       q.stock == [] && others == [] && list != [] && Eligible(cfg, a, list[0]) && list[0].sel != n.sel
         && (alt.dir == Recv ==> cap == Some(0))
     case Admit(n) => q.givers != [] && q.givers[0] == n && cap.Some? && |q.stock| < cap.value
     case _ => false)
  }

  /** The counterpart in a meeting. */
  ghost function Peer(cfg: Config, a: Spec, n: Node): Node
    requires Allowed(cfg, a, Meet(n))
  {
    var q := a.queues[AltAt(cfg, n.sel, n.tok).chan];
    if AltAt(cfg, n.sel, n.tok).dir == Recv then q.givers[0] else q.takers[0]
  }

  ghost function Withdrawn(q: Queue, s: nat): Queue {
    q.(givers := Prune(q.givers, s), takers := Prune(q.takers, s))
  }

  /** A select completes with one alternative and leaves all queues. */
  ghost function Choose(a: Spec, n: Node): Spec
    requires n.sel < |a.chosen|
  {
    Spec(a.chosen[n.sel := Some(n.tok)],
      seq(|a.queues|, c requires 0 <= c < |a.queues| => Withdrawn(a.queues[c], n.sel)))
  }

  ghost function WithQueue(a: Spec, c: nat, q: Queue): Spec
    requires c < |a.queues|
  {
    a.(queues := a.queues[c := q])
  }

  ghost function Do(cfg: Config, a: Spec, act: Act): Spec
    requires Allowed(cfg, a, act)
  {
    if act.Stutter? then a else
    var n := act.n;
    var alt := AltAt(cfg, n.sel, n.tok);
    if act.Pass? then Choose(a, n) else
    var c := alt.chan;
    var q := a.queues[c];
    match act
    case Join(_) =>
      WithQueue(a, c, if alt.dir == Recv then q.(takers := q.takers + [n]) else q.(givers := q.givers + [n]))
    case Get(_) =>
      WithQueue(Choose(a, n), c, Withdrawn(q, n.sel).(stock := q.stock[1..], deals := q.deals + [Deal(n, q.stock[0])]))
    case Put(_) => WithQueue(Choose(a, n), c, Withdrawn(q, n.sel).(stock := q.stock + [Input(cfg, n)]))
    case Admit(_) => WithQueue(Choose(a, n), c, Withdrawn(q, n.sel).(stock := q.stock + [Input(cfg, n)]))
    case Meet(_) =>
      var peer := Peer(cfg, a, n);
      var deal := if alt.dir == Recv then Deal(n, Input(cfg, peer)) else Deal(peer, Input(cfg, n));
      WithQueue(Choose(Choose(a, n), peer), c, Withdrawn(Withdrawn(q, n.sel), peer.sel).(deals := q.deals + [deal]))
    case _ => a
  }

  ghost function Start(cfg: Config): Spec {
    Spec(seq(|cfg.selects|, _ => None), seq(|cfg.caps|, _ => Queue([], [], [], [])))
  }

  /** The state that a sequence of actions leads to, if each of them is allowed where it comes. */
  ghost function After(cfg: Config, acts: seq<Act>): Option<Spec> {
    if acts == [] then Some(Start(cfg)) else
    var a := After(cfg, acts[..|acts| - 1]);
    if a.Some? && Allowed(cfg, a.value, acts[|acts| - 1]) then Some(Do(cfg, a.value, acts[|acts| - 1])) else None
  }

  // ---------------------------------------------------------------- what a state stands for

  ghost function QueueOf(cfg: Config, win: seq<Option<Claim>>, ch: Chan): Queue {
    Queue(Inputs(cfg, if |ch.recv| <= |ch.sent| then ch.sent[|ch.recv|..] else []),
          OpenOf(win, ch.writers), OpenOf(win, ch.readers),
          seq(|ch.recv|, k requires 0 <= k < |ch.recv| =>
            Deal(ch.recv[k], if k < |ch.sent| then Input(cfg, ch.sent[k]) else None)))
  }

  ghost function Abs(cfg: Config, st: State): Spec {
    Spec(seq(|st.win|, s requires 0 <= s < |st.win| => if st.win[s].Some? then Some(st.win[s].value.tok) else None),
         seq(|st.chans|, c requires 0 <= c < |st.chans| => QueueOf(cfg, st.win, st.chans[c])))
  }

  /** The atomic action that a step amounts to. */
  ghost function ActOf(cfg: Config, st: State, s: nat): Act
    requires Shape(cfg, st) && s < |st.sels|
  {
    match st.sels[s].pc
    case Submit(i) => if i < |cfg.selects[s].alts| && AltAt(cfg, s, i).dir == Skip then Pass(Node(s, i)) else Stutter
    case Refill(i) =>
      var list := st.chans[AltAt(cfg, s, i).chan].writers;
      if list != [] && Open(st.win, list[0]) then Admit(list[0]) else Stutter
    case Scan(i) =>
      (match Decide(cfg, st, s, i)
       case DropStale => Stutter
       case Rendezvous => Meet(Node(s, i))
       case FromBuffer => Get(Node(s, i))
       case ToBuffer => Put(Node(s, i))
       case Quit => Stutter
       case Wait =>
         if st.win[s].Some? then Stutter else if cfg.selects[s].waits then Join(Node(s, i)) else Miss(Node(s, i)))
    case _ => Stutter
  }

  // ---------------------------------------------------------------- equal pictures

  lemma {:induction false} SameQueue(cfg: Config, win: seq<Option<Claim>>, a: Chan, b: Chan)
    requires a.sent == b.sent && a.recv == b.recv
    requires OpenOf(win, a.readers) == OpenOf(win, b.readers) && OpenOf(win, a.writers) == OpenOf(win, b.writers)
    ensures QueueOf(cfg, win, a) == QueueOf(cfg, win, b)
  {}

  /** No flag is taken and at most one channel changes. */
  lemma NoClaim(cfg: Config, st: State, r: State, c: nat)
    requires r.win == st.win && |r.chans| == |st.chans| && c < |st.chans|
    requires forall d :: 0 <= d < |st.chans| && d != c ==> r.chans[d] == st.chans[d]
    ensures Abs(cfg, r) == WithQueue(Abs(cfg, st), c, QueueOf(cfg, st.win, r.chans[c]))
  {}

  lemma {:induction false} ClaimedQueue(cfg: Config, win: seq<Option<Claim>>, s: nat, k: Claim, ch: Chan)
    requires s < |win|
    ensures QueueOf(cfg, win[s := Some(k)], ch) == Withdrawn(QueueOf(cfg, win, ch), s)
  {
    OpenOfTaken(win, ch.readers, s, k);
    OpenOfTaken(win, ch.writers, s, k);
  }

  /** Taking a flag, alone, is completing and leaving all queues. */
  lemma Claimed(cfg: Config, st: State, n: Node, who: nat)
    requires n.sel < |st.win|
    ensures Abs(cfg, Take(st, n.sel, n.tok, who)) == Choose(Abs(cfg, st), n)
  {
    var r := Take(st, n.sel, n.tok, who);
    forall c | 0 <= c < |st.chans| ensures Abs(cfg, r).queues[c] == Choose(Abs(cfg, st), n).queues[c] {
      ClaimedQueue(cfg, st.win, n.sel, Claim(n.tok, who), st.chans[c]);
    }
    assert Abs(cfg, r).queues == Choose(Abs(cfg, st), n).queues;
    assert Abs(cfg, r).chosen == Choose(Abs(cfg, st), n).chosen;
  }

  /** One flag is taken and one channel changes. */
  lemma OneClaim(cfg: Config, st: State, r: State, n: Node, who: nat, c: nat, q: Queue)
    requires n.sel < |st.win| && r.win == st.win[n.sel := Some(Claim(n.tok, who))] && c < |st.chans|
    requires |r.chans| == |st.chans| && forall d :: 0 <= d < |st.chans| && d != c ==> r.chans[d] == st.chans[d]
    requires QueueOf(cfg, r.win, r.chans[c]) == q
    ensures Abs(cfg, r) == WithQueue(Choose(Abs(cfg, st), n), c, q)
  {
    Claimed(cfg, st, n, who);
    NoClaim(cfg, Take(st, n.sel, n.tok, who), r, c);
  }

  /** Two flags are taken and one channel changes. */
  lemma TwoClaims(cfg: Config, st: State, r: State, n: Node, m: Node, who: nat, c: nat, q: Queue)
    requires n.sel < |st.win| && m.sel < |st.win| && c < |st.chans|
    requires r.win == st.win[n.sel := Some(Claim(n.tok, who))][m.sel := Some(Claim(m.tok, who))]
    requires |r.chans| == |st.chans| && forall d :: 0 <= d < |st.chans| && d != c ==> r.chans[d] == st.chans[d]
    requires QueueOf(cfg, r.win, r.chans[c]) == q
    ensures Abs(cfg, r) == WithQueue(Choose(Choose(Abs(cfg, st), n), m), c, q)
  {
    Claimed(cfg, st, n, who);
    OneClaim(cfg, Take(st, n.sel, n.tok, who), r, m, who, c, q);
  }

  // ---------------------------------------------------------------- step by step

  /** The step is what its action says. */
  ghost predicate Simulates(cfg: Config, st: State, act: Act, r: State) {
    Allowed(cfg, Abs(cfg, st), act) && Abs(cfg, r) == Do(cfg, Abs(cfg, st), act)
  }

  /** What the picture of a channel is made of stays as it is. */
  lemma Unseen(cfg: Config, st: State, r: State, c: nat)
    requires r.win == st.win && |r.chans| == |st.chans|
    requires forall d :: 0 <= d < |st.chans| && d != c ==> r.chans[d] == st.chans[d]
    requires c < |st.chans| ==> r.chans[c].sent == st.chans[c].sent && r.chans[c].recv == st.chans[c].recv
    requires c < |st.chans| ==> OpenOf(st.win, r.chans[c].readers) == OpenOf(st.win, st.chans[c].readers)
    requires c < |st.chans| ==> OpenOf(st.win, r.chans[c].writers) == OpenOf(st.win, st.chans[c].writers)
    ensures Abs(cfg, r) == Abs(cfg, st)
  {
    if c < |st.chans| {
      NoClaim(cfg, st, r, c);
      SameQueue(cfg, st.win, r.chans[c], st.chans[c]);
    }
  }

  lemma StalePop(cfg: Config, st: State, c: nat, dir: Dir)
    requires c < |st.chans| && Opposite(dir, st.chans[c]) != [] && !Open(st.win, Opposite(dir, st.chans[c])[0])
    ensures Abs(cfg, Pop(st, c, dir)) == Abs(cfg, st)
  {
    Unseen(cfg, st, Pop(st, c, dir), c);
  }

  /** At a scan, the holder of the mutex sees the whole stock in the buffer, and waiting writes only
      behind a full buffer. */
  lemma AtScan(cfg: Config, st: State, s: nat, i: nat)
    requires Here(cfg, st, s, Scan(i)) && ChanWake(cfg, st, ChanOf(cfg, s, i)) && ChanFlow(cfg, st, ChanOf(cfg, s, i))
    ensures var ch, q := st.chans[ChanOf(cfg, s, i)], QueueOf(cfg, st.win, st.chans[ChanOf(cfg, s, i)]);
      && q.stock == Present(ch.buffer) && |ch.recv| + |ch.buffer| == |ch.sent|
      && (q.takers != [] ==> ch.buffer == [] && q.givers == [])
      && (q.givers != [] ==> cfg.caps[ChanOf(cfg, s, i)] == Some(|ch.buffer|))
      && (cfg.caps[ChanOf(cfg, s, i)].Some? ==> |ch.buffer| <= cfg.caps[ChanOf(cfg, s, i)].value)
  {}

  /** A wait is decided on only where nothing is to be had. */
  lemma WaitFindsNothing(cfg: Config, st: State, s: nat, i: nat)
    requires Here(cfg, st, s, Scan(i)) && ChanWake(cfg, st, ChanOf(cfg, s, i)) && ChanFlow(cfg, st, ChanOf(cfg, s, i))
    requires Decide(cfg, st, s, i) == Wait && st.win[s].None?
    ensures Nothing(cfg.caps[ChanOf(cfg, s, i)], AltAt(cfg, s, i).dir,
      QueueOf(cfg, st.win, st.chans[ChanOf(cfg, s, i)]))
  {
    AtScan(cfg, st, s, i);
  }

  lemma {:induction false} JoinedQueue(cfg: Config, win: seq<Option<Claim>>, a: Chan, b: Chan, me: Node, dir: Dir)
    requires Open(win, me) && b.sent == a.sent && b.recv == a.recv
    requires if dir == Recv then b.readers == a.readers + [me] && b.writers == a.writers
             else b.writers == a.writers + [me] && b.readers == a.readers
    ensures var q := QueueOf(cfg, win, a);
            QueueOf(cfg, win, b) == if dir == Recv then q.(takers := q.takers + [me]) else q.(givers := q.givers + [me])
  {
    OpenOfAppend(win, Own(dir, a), [me]);
  }

  /** A node that comes is not in the channel's lists yet. */
  lemma ComesAnew(cfg: Config, st: State, s: nat, i: nat)
    requires Here(cfg, st, s, Scan(i)) && ChanLists(cfg, st, ChanOf(cfg, s, i))
    ensures var q := QueueOf(cfg, st.win, st.chans[ChanOf(cfg, s, i)]);
      Node(s, i) !in q.takers && Node(s, i) !in q.givers
  {
    var ch := st.chans[ChanOf(cfg, s, i)];
    assert Node(s, i) !in ch.readers && Node(s, i) !in ch.writers;
    OpenOfMembers(st.win, ch.readers);
    OpenOfMembers(st.win, ch.writers);
  }

  lemma JoinStep(cfg: Config, st: State, s: nat, i: nat)
    requires Here(cfg, st, s, Scan(i)) && st.win[s].None? && cfg.selects[s].waits
    requires var q := QueueOf(cfg, st.win, st.chans[ChanOf(cfg, s, i)]);
      Node(s, i) !in q.takers && Node(s, i) !in q.givers
    requires Nothing(cfg.caps[ChanOf(cfg, s, i)], AltAt(cfg, s, i).dir,
      QueueOf(cfg, st.win, st.chans[ChanOf(cfg, s, i)]))
    ensures Simulates(cfg, st, Join(Node(s, i)), Enlist(cfg, st, s, i))
  {
    var c, r := ChanOf(cfg, s, i), Enlist(cfg, st, s, i);
    NoClaim(cfg, st, r, c);
    JoinedQueue(cfg, st.win, st.chans[c], r.chans[c], Node(s, i), AltAt(cfg, s, i).dir);
  }

  lemma MissStep(cfg: Config, st: State, s: nat, i: nat)
    requires Here(cfg, st, s, Scan(i)) && st.win[s].None? && !cfg.selects[s].waits
    requires Nothing(cfg.caps[ChanOf(cfg, s, i)], AltAt(cfg, s, i).dir,
      QueueOf(cfg, st.win, st.chans[ChanOf(cfg, s, i)]))
    ensures Simulates(cfg, st, Miss(Node(s, i)), Enlist(cfg, st, s, i))
  {
    Unseen(cfg, st, Enlist(cfg, st, s, i), ChanOf(cfg, s, i));
  }

  lemma StaleJoin(cfg: Config, st: State, s: nat, i: nat)
    requires Here(cfg, st, s, Scan(i)) && Decide(cfg, st, s, i) == Wait && st.win[s].Some?
    ensures Abs(cfg, Enlist(cfg, st, s, i)) == Abs(cfg, st)
  {
    var c, me := ChanOf(cfg, s, i), Node(s, i);
    OpenOfAppend(st.win, Own(AltAt(cfg, s, i).dir, st.chans[c]), [me]);
    Unseen(cfg, st, Enlist(cfg, st, s, i), c);
  }

  /** From `st` to `r` channel `c` is the only one that changes, `n` is claimed by `who`. */
  ghost predicate ClaimsOn(st: State, r: State, n: Node, who: nat, c: nat) {
    && n.sel < |st.win| && r.win == st.win[n.sel := Some(Claim(n.tok, who))]
    && c < |st.chans| == |r.chans| && forall d :: 0 <= d < |st.chans| && d != c ==> r.chans[d] == st.chans[d]
  }

  /** The oldest value in stock goes to reader `n`. */
  lemma {:induction false} Unstocked(cfg: Config, win: seq<Option<Claim>>, w: seq<Option<Claim>>, a: Chan, b: Chan,
        n: Node)
    requires |a.recv| < |a.sent| && b.sent == a.sent && b.recv == a.recv + [n]
    ensures var q, q' := QueueOf(cfg, win, a), QueueOf(cfg, w, b);
            q.stock != [] && q'.stock == q.stock[1..] && q'.deals == q.deals + [Deal(n, q.stock[0])]
  {
    var q, q' := QueueOf(cfg, win, a), QueueOf(cfg, w, b);
    var rest := a.sent[|a.recv|..];
    assert b.sent[|b.recv|..] == rest[1..] && rest[0] == a.sent[|a.recv|];
    assert Inputs(cfg, rest)[1..] == Inputs(cfg, rest[1..]);
    assert |q'.deals| == |q.deals| + 1 && q'.deals[|q.deals|] == Deal(n, q.stock[0]);
    assert forall k :: 0 <= k < |q.deals| ==> q'.deals[k] == q.deals[k];
  }

  lemma GetSimulates(cfg: Config, st: State, r: State, n: Node, c: nat)
    requires Shape(cfg, st) && NodeOk(cfg, n) && AltAt(cfg, n.sel, n.tok).dir == Recv
    requires AltAt(cfg, n.sel, n.tok).chan == c
    requires ClaimsOn(st, r, n, n.sel, c) && st.win[n.sel].None?
    requires var a, b := st.chans[c], r.chans[c];
      |a.recv| < |a.sent| && b.sent == a.sent && b.recv == a.recv + [n] && b.readers == a.readers
        && b.writers == a.writers
      && OpenOf(st.win, a.readers) == []
    ensures Simulates(cfg, st, Get(n), r)
  {
    var q, q' := QueueOf(cfg, st.win, st.chans[c]), QueueOf(cfg, r.win, r.chans[c]);
    ClaimedQueue(cfg, st.win, n.sel, Claim(n.tok, n.sel), st.chans[c]);
    Unstocked(cfg, st.win, r.win, st.chans[c], r.chans[c], n);
    OneClaim(cfg, st, r, n, n.sel, c, q');
  }

  lemma GetStep(cfg: Config, st: State, s: nat, i: nat)
    requires Here(cfg, st, s, Scan(i)) && ChanWake(cfg, st, ChanOf(cfg, s, i)) && ChanFlow(cfg, st, ChanOf(cfg, s, i))
    requires Decide(cfg, st, s, i) == FromBuffer && TakeBuffered(cfg, st, s, i).health == Ok && st.health == Ok
    ensures Simulates(cfg, st, Get(Node(s, i)), TakeBuffered(cfg, st, s, i))
  {
    AtScan(cfg, st, s, i);
    GetSimulates(cfg, st, TakeBuffered(cfg, st, s, i), Node(s, i), ChanOf(cfg, s, i));
  }

  /** A write by `n` enters stock. */
  lemma {:induction false} Stocked(cfg: Config, win: seq<Option<Claim>>, a: Chan, b: Chan, n: Node)
    requires |a.recv| <= |a.sent| && b.sent == a.sent + [n] && b.recv == a.recv
    ensures QueueOf(cfg, win, b).stock == QueueOf(cfg, win, a).stock + [Input(cfg, n)]
    ensures QueueOf(cfg, win, b).deals == QueueOf(cfg, win, a).deals
  {
    assert b.sent[|a.recv|..] == a.sent[|a.recv|..] + [n];
    InputsAppend(cfg, a.sent[|a.recv|..], [n]);
  }

  lemma PutStep(cfg: Config, st: State, s: nat, i: nat)
    requires Here(cfg, st, s, Scan(i)) && ChanWake(cfg, st, ChanOf(cfg, s, i)) && ChanFlow(cfg, st, ChanOf(cfg, s, i))
    requires Decide(cfg, st, s, i) == ToBuffer && PutBuffered(cfg, st, s, i).health == Ok && st.health == Ok
    ensures Simulates(cfg, st, Put(Node(s, i)), PutBuffered(cfg, st, s, i))
  {
    var c, r, me := ChanOf(cfg, s, i), PutBuffered(cfg, st, s, i), Node(s, i);
    var q, q' := QueueOf(cfg, st.win, st.chans[c]), QueueOf(cfg, r.win, r.chans[c]);
    assert q.stock == Present(st.chans[c].buffer) && |st.chans[c].recv| <= |st.chans[c].sent|
      && (cfg.caps[c].Some? ==> |st.chans[c].buffer| <= cfg.caps[c].value) by { AtScan(cfg, st, s, i); }
    ClaimedQueue(cfg, st.win, s, Claim(i, s), st.chans[c]);
    Stocked(cfg, r.win, st.chans[c], r.chans[c], me);
    OneClaim(cfg, st, r, me, s, c, q');
  }

  /** A value has left a bounded buffer, the oldest waiting write takes the place. */
  lemma AdmitStep(cfg: Config, st: State, s: nat, i: nat)
    requires Here(cfg, st, s, Refill(i)) && ChanWake(cfg, st, ChanOf(cfg, s, i)) && ChanFlow(cfg, st, ChanOf(cfg, s, i))
    requires HeadListed(cfg, st, s, i) && AltAt(cfg, s, i).dir == Recv
    requires st.chans[ChanOf(cfg, s, i)].writers != [] && Open(st.win, st.chans[ChanOf(cfg, s, i)].writers[0])
    ensures Simulates(cfg, st, Admit(st.chans[ChanOf(cfg, s, i)].writers[0]), RefillStep(cfg, st, s, i))
  {
    var c, r := ChanOf(cfg, s, i), RefillStep(cfg, st, s, i);
    var ch, n := st.chans[c], st.chans[c].writers[0];
    var q, q' := QueueOf(cfg, st.win, ch), QueueOf(cfg, r.win, r.chans[c]);
    assert |ch.recv| <= |ch.sent| && |q.stock| == |ch.buffer|;
    ClaimedQueue(cfg, st.win, n.sel, Claim(n.tok, s), ch);
    assert !Open(r.win, n) && OpenOf(r.win, ch.writers) == OpenOf(r.win, r.chans[c].writers);
    Stocked(cfg, r.win, ch, r.chans[c], n);
    OneClaim(cfg, st, r, n, s, c, q');
  }

  /** A reader and a writer complete together. */
  lemma {:induction false} Dealt(cfg: Config, win: seq<Option<Claim>>, a: Chan, b: Chan, r: Node, w: Node)
    requires |a.recv| == |a.sent| && b.recv == a.recv + [r] && b.sent == a.sent + [w]
    ensures QueueOf(cfg, win, b).deals == QueueOf(cfg, win, a).deals + [Deal(r, Input(cfg, w))]
    ensures QueueOf(cfg, win, b).stock == [] == QueueOf(cfg, win, a).stock
  {}

  /** Reader and writer `n`, `m`, of which `n` is the one that comes, complete together. */
  ghost predicate MeetsOn(cfg: Config, st: State, r: State, n: Node, m: Node, c: nat) {
    && Shape(cfg, st) && NodeOk(cfg, n) && NodeOk(cfg, m) && n.sel != m.sel && m.sel < |st.win|
    && ClaimsOn(Take(st, m.sel, m.tok, n.sel), r, n, n.sel, c) && st.win[n.sel].None? && st.win[m.sel].None?
    && AltAt(cfg, n.sel, n.tok).chan == c == AltAt(cfg, m.sel, m.tok).chan
    && |st.chans[c].recv| == |st.chans[c].sent|
  }

  lemma MetClaims(cfg: Config, st: State, r: State, n: Node, m: Node, c: nat)
    requires MeetsOn(cfg, st, r, n, m, c)
    ensures r.win == st.win[n.sel := Some(Claim(n.tok, n.sel))][m.sel := Some(Claim(m.tok, n.sel))]
    ensures QueueOf(cfg, r.win, st.chans[c]) == Withdrawn(Withdrawn(QueueOf(cfg, st.win, st.chans[c]), n.sel), m.sel)
  {
    ClaimedQueue(cfg, st.win, n.sel, Claim(n.tok, n.sel), st.chans[c]);
    ClaimedQueue(cfg, Take(st, n.sel, n.tok, n.sel).win, m.sel, Claim(m.tok, n.sel), st.chans[c]);
    assert r.win == st.win[n.sel := Some(Claim(n.tok, n.sel))][m.sel := Some(Claim(m.tok, n.sel))];
  }

  lemma ReaderSimulates(cfg: Config, st: State, r: State, n: Node, m: Node, c: nat)
    requires MeetsOn(cfg, st, r, n, m, c) && AltAt(cfg, n.sel, n.tok).dir == Recv && cfg.caps[c] == Some(0)
    requires var a, b := st.chans[c], r.chans[c];
      a.writers != [] && a.writers[0] == m && b.writers == a.writers[1..] && b.readers == a.readers
        && OpenOf(st.win, a.readers) == []
      && b.sent == a.sent + [m] && b.recv == a.recv + [n]
    ensures Simulates(cfg, st, Meet(n), r)
  {
    var q' := QueueOf(cfg, r.win, r.chans[c]);
    MetClaims(cfg, st, r, n, m, c);
    Dealt(cfg, r.win, st.chans[c], r.chans[c], n, m);
    assert OpenOf(r.win, st.chans[c].writers) == OpenOf(r.win, r.chans[c].writers);
    TwoClaims(cfg, st, r, n, m, n.sel, c, q');
  }

  lemma WriterSimulates(cfg: Config, st: State, r: State, n: Node, m: Node, c: nat)
    requires MeetsOn(cfg, st, r, n, m, c) && AltAt(cfg, n.sel, n.tok).dir == Send
    requires var a, b := st.chans[c], r.chans[c];
      a.readers != [] && a.readers[0] == m && b.readers == a.readers[1..] && b.writers == a.writers
        && OpenOf(st.win, a.writers) == []
      && b.sent == a.sent + [n] && b.recv == a.recv + [m]
    ensures Simulates(cfg, st, Meet(n), r)
  {
    var q' := QueueOf(cfg, r.win, r.chans[c]);
    MetClaims(cfg, st, r, n, m, c);
    Dealt(cfg, r.win, st.chans[c], r.chans[c], m, n);
    assert OpenOf(r.win, st.chans[c].readers) == OpenOf(r.win, r.chans[c].readers);
    TwoClaims(cfg, st, r, n, m, n.sel, c, q');
  }

  lemma MeetOutline(cfg: Config, st: State, s: nat, i: nat)
    requires Here(cfg, st, s, Scan(i)) && Decide(cfg, st, s, i) == Rendezvous && HeadListed(cfg, st, s, i)
    requires |st.chans[ChanOf(cfg, s, i)].recv| == |st.chans[ChanOf(cfg, s, i)].sent|
    ensures var c := ChanOf(cfg, s, i);
            MeetsOn(cfg, st, TakeBoth(cfg, st, s, i), Node(s, i), Opposite(AltAt(cfg, s, i).dir, st.chans[c])[0], c)
  {
    TakesBothFlags(cfg, st, s, i);
  }

  lemma MeetStep(cfg: Config, st: State, s: nat, i: nat)
    requires Here(cfg, st, s, Scan(i)) && ChanWake(cfg, st, ChanOf(cfg, s, i)) && ChanFlow(cfg, st, ChanOf(cfg, s, i))
    requires Decide(cfg, st, s, i) == Rendezvous && HeadListed(cfg, st, s, i)
    ensures Simulates(cfg, st, Meet(Node(s, i)), TakeBoth(cfg, st, s, i))
  {
    var c, r, me := ChanOf(cfg, s, i), TakeBoth(cfg, st, s, i), Node(s, i);
    var m := Opposite(AltAt(cfg, s, i).dir, st.chans[c])[0];
    assert |st.chans[c].recv| == |st.chans[c].sent| by { AtScan(cfg, st, s, i); }
    MeetOutline(cfg, st, s, i);
    if AltAt(cfg, s, i).dir == Recv {
      ReaderSimulates(cfg, st, r, me, m, c);
    } else {
      WriterSimulates(cfg, st, r, me, m, c);
    }
  }

  lemma ClearUnseen(cfg: Config, st: State, s: nat, j: nat, t: nat)
    requires Here(cfg, st, s, Clear(j, t)) && ClearStep(cfg, st, s, j, t).health == Ok
    ensures Abs(cfg, ClearStep(cfg, st, s, j, t)) == Abs(cfg, st)
  {
    var c := ClearedChan(cfg, st, s, j, t);
    assert !Open(st.win, Node(s, j));
    if c < |st.chans| {
      OpenOfRemove(st.win, st.chans[c].readers, Node(s, j));
      OpenOfRemove(st.win, st.chans[c].writers, Node(s, j));
    }
    Unseen(cfg, st, ClearStep(cfg, st, s, j, t), c);
  }

  lemma ScanRefines(cfg: Config, st: State, s: nat, i: nat)
    requires Here(cfg, st, s, Scan(i)) && ChanLists(cfg, st, ChanOf(cfg, s, i)) && ChanWake(cfg, st, ChanOf(cfg, s, i))
    requires ChanFlow(cfg, st, ChanOf(cfg, s, i))
    requires ScanStep(cfg, st, s, i).health == Ok && st.health == Ok
    requires Decide(cfg, st, s, i) == Rendezvous ==> HeadListed(cfg, st, s, i)
    ensures Simulates(cfg, st, ActOf(cfg, st, s), ScanStep(cfg, st, s, i))
  {
    match Decide(cfg, st, s, i) {
      case DropStale => StalePop(cfg, st, ChanOf(cfg, s, i), AltAt(cfg, s, i).dir);
      case Rendezvous => MeetStep(cfg, st, s, i);
      case FromBuffer => GetStep(cfg, st, s, i);
      case ToBuffer => PutStep(cfg, st, s, i);
      case Quit => Unseen(cfg, st, GiveUp(cfg, st, s, i), ChanOf(cfg, s, i));
      case Wait =>
        if st.win[s].Some? {
          StaleJoin(cfg, st, s, i);
        } else {
          WaitFindsNothing(cfg, st, s, i);
          if cfg.selects[s].waits {
            ComesAnew(cfg, st, s, i);
            JoinStep(cfg, st, s, i);
          } else {
            MissStep(cfg, st, s, i);
          }
        }
    }
  }

  lemma RefillRefines(cfg: Config, st: State, s: nat, i: nat)
    requires Here(cfg, st, s, Refill(i)) && ChanWake(cfg, st, ChanOf(cfg, s, i)) && ChanFlow(cfg, st, ChanOf(cfg, s, i))
    requires var list := st.chans[ChanOf(cfg, s, i)].writers;
      list != [] && Open(st.win, list[0]) ==> HeadListed(cfg, st, s, i)
    ensures Simulates(cfg, st, ActOf(cfg, st, s), RefillStep(cfg, st, s, i))
  {
    var list := st.chans[ChanOf(cfg, s, i)].writers;
    if list == [] {
      Unseen(cfg, st, RefillStep(cfg, st, s, i), ChanOf(cfg, s, i));
    } else if Open(st.win, list[0]) {
      AdmitStep(cfg, st, s, i);
    } else {
      StalePop(cfg, st, ChanOf(cfg, s, i), Recv);
    }
  }

  lemma PassStep(cfg: Config, st: State, s: nat, i: nat)
    requires Here(cfg, st, s, Submit(i)) && i < |cfg.selects[s].alts| && AltAt(cfg, s, i).dir == Skip
    requires !cfg.selects[s].waits
    ensures Simulates(cfg, st, Pass(Node(s, i)), SubmitStep(cfg, st, s, i))
  {
    Claimed(cfg, st, Node(s, i), s);
    Unseen(cfg, Take(st, s, i, s), SubmitStep(cfg, st, s, i), |st.chans|);
  }

  /** Hand-overs, publishing and resuming cannot be seen. */
  lemma QuietRefines(cfg: Config, st: State, s: nat)
    requires Shape(cfg, st) && Enabled(cfg, st, s)
    requires var pc := st.sels[s].pc; pc.Idle? || pc.Match? || pc.Store? || pc.Publish? || pc.Parked?
    ensures Abs(cfg, Step(cfg, st, s)) == Abs(cfg, st)
  {
    var c := match st.sels[s].pc
      case Match(i, _) => ChanOf(cfg, s, i)
      case Store(i, _) => ChanOf(cfg, s, i)
      case _ => |st.chans|;
    Unseen(cfg, st, Step(cfg, st, s), c);
  }

  lemma SubmitRefines(cfg: Config, st: State, s: nat, i: nat)
    requires Here(cfg, st, s, Submit(i)) && Enabled(cfg, st, s)
    ensures Simulates(cfg, st, ActOf(cfg, st, s), SubmitStep(cfg, st, s, i))
  {
    if i == |cfg.selects[s].alts| {
      Unseen(cfg, st, SubmitStep(cfg, st, s, i), |st.chans|);
    } else if AltAt(cfg, s, i).dir == Skip {
      assert SpecOk(cfg, cfg.selects[s]) && AltOk(cfg, cfg.selects[s], AltAt(cfg, s, i));
      PassStep(cfg, st, s, i);
    } else {
      Unseen(cfg, st, SubmitStep(cfg, st, s, i), ChanOf(cfg, s, i));
    }
  }

  /** Every step is one atomic action or cannot be seen at all. */
  lemma StepRefines(cfg: Config, st: State, s: nat)
    requires Inv(cfg, st) && Enabled(cfg, st, s)
    ensures Simulates(cfg, st, ActOf(cfg, st, s), Step(cfg, st, s))
  {
    var pc := st.sels[s].pc;
    KeepStep(cfg, st, s);
    OfSelect(cfg, st, s, pc);
    match pc {
      case Submit(i) => SubmitRefines(cfg, st, s, i);
      case Scan(i) =>
        OfChan(cfg, st, ChanOf(cfg, s, i));
        if Decide(cfg, st, s, i) == Rendezvous { HeadIsOther(cfg, st, s, i); }
        ScanRefines(cfg, st, s, i);
      case Refill(i) =>
        OfChan(cfg, st, ChanOf(cfg, s, i));
        if st.chans[ChanOf(cfg, s, i)].writers != [] && Open(st.win, st.chans[ChanOf(cfg, s, i)].writers[0]) {
          HeadIsOther(cfg, st, s, i);
        }
        RefillRefines(cfg, st, s, i);
      case Clear(j, t) => if Step(cfg, st, s).health == Ok { ClearUnseen(cfg, st, s, j, t); }
      case _ => QuietRefines(cfg, st, s);
    }
  }

  lemma {:induction false} NextRefines(cfg: Config, sched: seq<nat>, s: nat) returns (act: Act)
    requires ConfigOk(cfg)
    ensures Simulates(cfg, Exec(cfg, sched), act, Exec(cfg, sched + [s]))
  {
    assert (sched + [s])[..|sched + [s]| - 1] == sched;
    if Enabled(cfg, Exec(cfg, sched), s) {
      act := ActOf(cfg, Exec(cfg, sched), s);
      AssertionsHold(cfg, sched);
      StepRefines(cfg, Exec(cfg, sched), s);
    } else {
      act := Stutter;
    }
  }

  lemma InitIsStart(cfg: Config)
    requires ConfigOk(cfg)
    ensures Abs(cfg, Init(cfg)) == Start(cfg)
  {
    var a := Abs(cfg, Init(cfg));
    forall c | 0 <= c < |cfg.caps| ensures a.queues[c] == Queue([], [], [], []) {
      assert a.queues[c].deals == [] && a.queues[c].stock == [];
    }
    assert a.queues == Start(cfg).queues && a.chosen == Start(cfg).chosen;
  }

  /** Every run of the step machine is a run of the atomic machine. */
  lemma {:induction false} Refinement(cfg: Config, sched: seq<nat>) returns (acts: seq<Act>)
    requires ConfigOk(cfg)
    ensures |acts| == |sched| && After(cfg, acts) == Some(Abs(cfg, Exec(cfg, sched)))
  {
    if sched == [] {
      acts := [];
      InitIsStart(cfg);
    } else {
      var most, last := sched[..|sched| - 1], sched[|sched| - 1];
      var before := Refinement(cfg, most);
      var act := NextRefines(cfg, most, last);
      acts := before + [act];
      assert sched == most + [last] && acts[..|acts| - 1] == before;
    }
  }

  // ---------------------------------------------------------------- what the callers get

  /** A completed read is dealt with on its channel, once it is not in the middle of a hand-over. */
  lemma LoggedDeal(cfg: Config, st: State, s: nat, t: nat) returns (k: nat)
    requires Shape(cfg, st) && s < |st.sels| && st.sels[s].pc == Done(t) && SelCtl(cfg, st, s) && SelLogged(cfg, st, s)
    requires AltAt(cfg, s, t).dir == Recv && AltAt(cfg, s, t).chan < |st.chans|
    requires var c := AltAt(cfg, s, t).chan;
      ChanCtl(cfg, st, c) && ChanQueues(cfg, st, c) && ChanFlow(cfg, st, c) && ChanPairs(cfg, st, c)
    requires st.chans[AltAt(cfg, s, t).chan].owner.Some? ==>
      SelCtl(cfg, st, st.chans[AltAt(cfg, s, t).chan].owner.value)
    ensures var q := Abs(cfg, st).queues[AltAt(cfg, s, t).chan];
      k < |q.deals| && q.deals[k] == Deal(Node(s, t), st.sels[s].result)
  {
    var c := AltAt(cfg, s, t).chan;
    var ch := st.chans[c];
    assert Node(s, t) in ch.recv;
    k :| k < |ch.recv| && ch.recv[k] == Node(s, t);
    assert Handing(st, c) ==> ch.recv[|ch.recv| - 1] != Node(s, t);
    assert k < |ch.sent|;
    assert Received(cfg, st, ch.recv[k]) == Input(cfg, ch.sent[k]);
  }

  /** Nobody is dealt with twice on a channel, and `s` only for `t`, on the channel of `t`. */
  ghost predicate OneDeal(cfg: Config, a: Spec, s: nat, t: nat) {
    && s < |cfg.selects| && t < |cfg.selects[s].alts|
    && (forall c, k, m | 0 <= c < |a.queues| && 0 <= k < m < |a.queues[c].deals| ::
      a.queues[c].deals[k].reader != a.queues[c].deals[m].reader)
    && (forall c, k | 0 <= c < |a.queues| && 0 <= k < |a.queues[c].deals| && a.queues[c].deals[k].reader.sel == s ::
          a.queues[c].deals[k].reader == Node(s, t) && c == AltAt(cfg, s, t).chan)
  }

  lemma {:induction false} DealtOnce(cfg: Config, sched: seq<nat>, s: nat, t: nat)
    requires ConfigOk(cfg) && s < |cfg.selects| && t < |cfg.selects[s].alts|
    requires Exec(cfg, sched).win[s].Some? && Exec(cfg, sched).win[s].value.tok == t
    ensures OneDeal(cfg, Abs(cfg, Exec(cfg, sched)), s, t)
  {
    var st := Exec(cfg, sched);
    SelectedOnce(cfg, sched, s);
    forall c, k | 0 <= c < |st.chans| && 0 <= k < |st.chans[c].recv| && st.chans[c].recv[k].sel == s
      ensures st.chans[c].recv[k] == Node(s, t) && c == AltAt(cfg, s, t).chan
    {
      assert st.chans[c].recv[k] in st.chans[c].sent + st.chans[c].recv;
    }
  }

  /** What a select returned with: its token, and for a read the value, the way it was dealt. */
  ghost predicate Truthful(cfg: Config, a: Spec, x: Sel, s: nat, t: nat) {
    && s < |cfg.selects| && s < |a.chosen| && t < |cfg.selects[s].alts| && a.chosen[s] == Some(t)
    && (AltAt(cfg, s, t).dir == Recv ==>
          AltAt(cfg, s, t).chan < |a.queues| && x.result.Some?
            && Deal(Node(s, t), x.result) in a.queues[AltAt(cfg, s, t).chan].deals)
  }

  lemma DoneIsTruthful(cfg: Config, st: State, s: nat, t: nat)
    requires Inv(cfg, st) && s < |st.sels| && st.sels[s].pc == Done(t)
    ensures Truthful(cfg, Abs(cfg, st), st.sels[s], s, t)
  {
    assert SelCtl(cfg, st, s) && SelLogged(cfg, st, s) && SelSlots(cfg, st, s);
    if AltAt(cfg, s, t).dir == Recv {
      var c := AltAt(cfg, s, t).chan;
      assert c < |st.chans| && AltAt(cfg, s, t).op < |cfg.selects[s].inputs| by {
        assert SpecOk(cfg, cfg.selects[s]) && AltOk(cfg, cfg.selects[s], AltAt(cfg, s, t));
      }
      assert SlotRight(cfg, st, s, AltAt(cfg, s, t).op);
      OfChan(cfg, st, c);
      var k := LoggedDeal(cfg, st, s, t);
    }
  }

  /** The atomic machine tells the truth about what the callers see: a select that has returned
      with token `t` was chosen for `t`; if that is a read, what it returns is what the read was
      dealt; and there is no other deal for it anywhere. */
  lemma {:induction false} ReturnsWhatWasDealt(cfg: Config, sched: seq<nat>, s: nat, t: nat)
    requires ConfigOk(cfg) && s < |cfg.selects| && Exec(cfg, sched).sels[s].pc == Done(t)
    ensures Truthful(cfg, Abs(cfg, Exec(cfg, sched)), Exec(cfg, sched).sels[s], s, t)
    ensures OneDeal(cfg, Abs(cfg, Exec(cfg, sched)), s, t)
  {
    AssertionsHold(cfg, sched);
    DoneIsTruthful(cfg, Exec(cfg, sched), s, t);
    assert SelCtl(cfg, Exec(cfg, sched), s);
    DealtOnce(cfg, sched, s, t);
  }
}
