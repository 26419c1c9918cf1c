/** Every step keeps the order of each queue: completed nodes, then waiting ones, are the live
    arrivals.  The lemmas up to `TwoClaims` speak of one side (reads or writes) of one channel. */
module KeepQueues {
  import opened Options
  import opened Protocol
  import opened Filters
  import opened Invariant
  import opened KeepCtl
  import opened KeepWake

  /** The nodes in `done` completed. */
  ghost predicate AllDone(win: seq<Option<Claim>>, done: seq<Node>) {
    forall n :: n in done ==> n.sel < |win| && win[n.sel].Some? && win[n.sel].value.tok == n.tok
  }

  /** `w` is `win` after the flags of at most `s` and `p` were taken, for nodes not in `list`. */
  ghost predicate ClaimedOutside(win: seq<Option<Claim>>, w: seq<Option<Claim>>, s: nat, p: nat, list: seq<Node>) {
    && |w| == |win| && s < |win| && p < |win|
    && (forall q :: 0 <= q < |win| && q != s && q != p ==> w[q] == win[q])
    && (forall q | q == s || q == p ::
      if win[q].Some? then w[q] == win[q] else w[q].Some? ==> Node(q, w[q].value.tok) !in list)
  }

  lemma {:induction false} TwoClaims(win: seq<Option<Claim>>, w: seq<Option<Claim>>, s: nat, p: nat, done: seq<Node>,
        list: seq<Node>, arrived: seq<Node>)
    requires AllDone(win, done) && ClaimedOutside(win, w, s, p, list)
    requires done + OpenOf(win, list) == LiveOf(win, arrived)
    ensures AllDone(w, done) && done + OpenOf(w, list) == LiveOf(w, arrived)
  {
    var v := win[s := w[s]];
    if win[s].None? && w[s].Some? { ClaimKeepsOrder(win, done, list, arrived, s, w[s].value); }
    assert v == win || (win[s].None? && w[s].Some?);
    assert w == v[p := w[p]];
    if v[p].None? && w[p].Some? { ClaimKeepsOrder(v, done, list, arrived, p, w[p].value); }
    assert w == v || (v[p].None? && w[p].Some?);
  }

  /** A node completes on arrival, when nobody is waiting before it. */
  lemma {:induction false} CommitNew(win: seq<Option<Claim>>, w: seq<Option<Claim>>, s: nat, p: nat, done: seq<Node>,
        list: seq<Node>, arrived: seq<Node>, me: Node)
    requires AllDone(win, done) && ClaimedOutside(win, w, s, p, list)
    requires done + OpenOf(win, list) == LiveOf(win, arrived) && OpenOf(win, list) == [] && Live(w, me)
    ensures done + [me] + OpenOf(w, list) == LiveOf(w, arrived + [me])
  {
    TwoClaims(win, w, s, p, done, list, arrived);
    NothingOpens(win, w, list, list);
    LiveOfAppend(w, arrived, [me]);
    assert LiveOf(w, [me]) == [me];
  }

  /** The head of the list completes; before that `s` may have been claimed for another node. */
  lemma {:induction false} CommitHead(win: seq<Option<Claim>>, w: seq<Option<Claim>>, s: nat, done: seq<Node>,
        list: seq<Node>, arrived: seq<Node>, k: Claim)
    requires list != [] && Open(win, list[0]) && list[0].sel != s && NoDup(list) && k.tok == list[0].tok
    requires |w| == |win| && AllDone(win, done) && ClaimedOutside(win, w[list[0].sel := None], s, s, list)
    requires w[list[0].sel] == Some(k)
    requires done + OpenOf(win, list) == LiveOf(win, arrived)
    ensures done + [list[0]] + OpenOf(w, list[1..]) == LiveOf(w, arrived)
  {
    var n := list[0];
    var v := w[n.sel := None];
    TwoClaims(win, v, s, s, done, list, arrived);
    assert n !in list[1..] by { assert list == [n] + list[1..]; }
    ClaimHeadKeepsOrder(v, done, list, arrived, k);
    assert v[n.sel := Some(k)] == w;
  }

  /** A node joins the back of the queue; it counts as long as its select was not claimed. */
  lemma {:induction false} JoinBack(win: seq<Option<Claim>>, done: seq<Node>, list: seq<Node>, arrived: seq<Node>,
        me: Node)
    requires done + OpenOf(win, list) == LiveOf(win, arrived) && me.sel < |win|
    requires win[me.sel].Some? ==> win[me.sel].value.tok != me.tok
    ensures done + OpenOf(win, list + [me]) == LiveOf(win, arrived + [me])
  {
    OpenOfAppend(win, list, [me]);
    LiveOfAppend(win, arrived, [me]);
  }

  // ---------------------------------------------------------------- per channel

  /** A node that completes now was not logged before. */
  lemma {:induction false} LogAppend(cfg: Config, win: seq<Option<Claim>>, w: seq<Option<Claim>>, log: seq<Node>,
        me: Node, c: nat, dir: Dir)
    requires Grown(win, w) && NoDup(log) && (forall n :: n in log ==> Won(cfg, win, n, c, dir))
    requires Won(cfg, w, me, c, dir) && win[me.sel].None?
    ensures NoDup(log + [me]) && (forall n :: n in log + [me] ==> Won(cfg, w, n, c, dir))
  {
    assert me !in log;
  }

  lemma QueuesUntouched(cfg: Config, st: State, r: State, s: nat, p: nat, d: nat)
    requires Shape(cfg, st) && Shape(cfg, r) && d < |st.chans| && ChanQueues(cfg, st, d)
    requires r.chans[d] == st.chans[d].(owner := r.chans[d].owner, buffer := r.chans[d].buffer)
    requires ClaimedOutside(st.win, r.win, s, p, st.chans[d].readers)
    requires ClaimedOutside(st.win, r.win, s, p, st.chans[d].writers)
    ensures ChanQueues(cfg, r, d)
  {
    var ch := st.chans[d];
    TwoClaims(st.win, r.win, s, p, ch.sent, ch.writers, ch.arrivedW);
    TwoClaims(st.win, r.win, s, p, ch.recv, ch.readers, ch.arrivedR);
  }

  lemma QueuesWait(cfg: Config, st: State, s: nat, i: nat)
    requires Here(cfg, st, s, Scan(i)) && ChanQueues(cfg, st, ChanOf(cfg, s, i))
    ensures ChanQueues(cfg, Enlist(cfg, st, s, i), ChanOf(cfg, s, i))
  {
    var ch := st.chans[ChanOf(cfg, s, i)];
    if cfg.selects[s].waits {
      JoinBack(st.win, ch.sent, ch.writers, ch.arrivedW, Node(s, i));
      JoinBack(st.win, ch.recv, ch.readers, ch.arrivedR, Node(s, i));
    }
  }

  /** `me` is claimed now, on a channel in whose lists it is not. */
  ghost predicate CompletesNow(cfg: Config, st: State, r: State, me: Node, c: nat, dir: Dir) {
    && Shape(cfg, st) && Shape(cfg, r) && NodeOk(cfg, me) && c < |st.chans| && ChanQueues(cfg, st, c)
    && AltAt(cfg, me.sel, me.tok).dir == dir && AltAt(cfg, me.sel, me.tok).chan == c
    && st.win[me.sel].None? && r.win == st.win[me.sel := Some(Claim(me.tok, me.sel))]
    && me !in st.chans[c].readers && me !in st.chans[c].writers
  }

  /** A read that completes on arrival, with no reader waiting before it. */
  lemma QueuesReadNow(cfg: Config, st: State, r: State, me: Node, c: nat)
    requires CompletesNow(cfg, st, r, me, c, Recv) && OpenOf(st.win, st.chans[c].readers) == []
    requires var ch := st.chans[c];
      r.chans[c].(owner := ch.owner, buffer := ch.buffer) == ch.(recv := ch.recv + [me], arrivedR := ch.arrivedR + [me])
    ensures ChanQueues(cfg, r, c)
  {
    var ch := st.chans[c];
    CommitNew(st.win, r.win, me.sel, me.sel, ch.recv, ch.readers, ch.arrivedR, me);
    TwoClaims(st.win, r.win, me.sel, me.sel, ch.sent, ch.writers, ch.arrivedW);
    LogAppend(cfg, st.win, r.win, ch.recv, me, c, Recv);
  }

  /** A write that completes on arrival, with no writer waiting before it. */
  lemma QueuesWriteNow(cfg: Config, st: State, r: State, me: Node, c: nat)
    requires CompletesNow(cfg, st, r, me, c, Send) && OpenOf(st.win, st.chans[c].writers) == []
    requires var ch := st.chans[c];
      r.chans[c].(owner := ch.owner, buffer := ch.buffer) == ch.(sent := ch.sent + [me], arrivedW := ch.arrivedW + [me])
    ensures ChanQueues(cfg, r, c)
  {
    var ch := st.chans[c];
    CommitNew(st.win, r.win, me.sel, me.sel, ch.sent, ch.writers, ch.arrivedW, me);
    TwoClaims(st.win, r.win, me.sel, me.sel, ch.recv, ch.readers, ch.arrivedR);
    LogAppend(cfg, st.win, r.win, ch.sent, me, c, Send);
  }

  lemma QueuesFromBuffer(cfg: Config, st: State, s: nat, i: nat)
    requires Here(cfg, st, s, Scan(i)) && Decide(cfg, st, s, i) == FromBuffer
    requires TakeBuffered(cfg, st, s, i).health == Ok
    requires var c := ChanOf(cfg, s, i);
      st.health == Ok && ChanWake(cfg, st, c) && ChanLists(cfg, st, c) && ChanQueues(cfg, st, c)
    ensures ChanQueues(cfg, TakeBuffered(cfg, st, s, i), ChanOf(cfg, s, i))
  {
    var r, c, me := TakeBuffered(cfg, st, s, i), ChanOf(cfg, s, i), Node(s, i);
    assert r.win == st.win[s := Some(Claim(i, s))] && me !in st.chans[c].readers && me !in st.chans[c].writers;
    QueuesReadNow(cfg, st, r, me, c);
  }

  lemma QueuesToBuffer(cfg: Config, st: State, s: nat, i: nat)
    requires Here(cfg, st, s, Scan(i)) && Decide(cfg, st, s, i) == ToBuffer && PutBuffered(cfg, st, s, i).health == Ok
    requires var c := ChanOf(cfg, s, i);
      st.health == Ok && ChanWake(cfg, st, c) && ChanLists(cfg, st, c) && ChanQueues(cfg, st, c)
    ensures ChanQueues(cfg, PutBuffered(cfg, st, s, i), ChanOf(cfg, s, i))
  {
    var r, c, me := PutBuffered(cfg, st, s, i), ChanOf(cfg, s, i), Node(s, i);
    assert r.win == st.win[s := Some(Claim(i, s))] && me !in st.chans[c].readers && me !in st.chans[c].writers;
    QueuesWriteNow(cfg, st, r, me, c);
  }

  /** Taking stale nodes out of the lists changes nothing that counts. */
  lemma QueuesSwept(cfg: Config, st: State, r: State, c: nat)
    requires Shape(cfg, st) && Shape(cfg, r) && c < |st.chans| && ChanQueues(cfg, st, c) && r.win == st.win
    requires r.chans[c] == st.chans[c].(readers := r.chans[c].readers, writers := r.chans[c].writers)
    requires OpenOf(st.win, r.chans[c].readers) == OpenOf(st.win, st.chans[c].readers)
    requires OpenOf(st.win, r.chans[c].writers) == OpenOf(st.win, st.chans[c].writers)
    ensures ChanQueues(cfg, r, c)
  {}

  lemma QueuesPop(cfg: Config, st: State, r: State, c: nat, dir: Dir)
    requires Shape(cfg, st) && Shape(cfg, r) && c < |st.chans| && Opposite(dir, st.chans[c]) != []
    requires r == Pop(st, c, dir) && !Open(st.win, Opposite(dir, st.chans[c])[0]) && ChanQueues(cfg, st, c)
    ensures ChanQueues(cfg, r, c)
  {
    assert OpenOf(st.win, Opposite(dir, st.chans[c])) == OpenOf(st.win, Opposite(dir, r.chans[c]));
    QueuesSwept(cfg, st, r, c);
  }

  /** Both sides of a direct hand-over: `n` was the head of its list, `me` never waited. */
  lemma SidesMet(win: seq<Option<Claim>>, w: seq<Option<Claim>>, me: Node, n: Node, k: Claim,
        done: seq<Node>, list: seq<Node>, arrived: seq<Node>,
        done2: seq<Node>, list2: seq<Node>, arrived2: seq<Node>)
    requires me.sel < |win| && n.sel < |win| && me.sel != n.sel && win[me.sel].None? && win[n.sel].None?
    requires n.tok == k.tok
    requires w == win[me.sel := Some(Claim(me.tok, me.sel))][n.sel := Some(k)]
    requires list != [] && list[0] == n && NoDup(list) && AllDone(win, done) && AllDone(win, done2)
    requires me !in list && me !in list2 && n !in list2 && OpenOf(win, list2) == []
    requires done + OpenOf(win, list) == LiveOf(win, arrived) && done2 + OpenOf(win, list2) == LiveOf(win, arrived2)
    ensures done + [n] + OpenOf(w, list[1..]) == LiveOf(w, arrived)
    ensures done2 + [me] + OpenOf(w, list2) == LiveOf(w, arrived2 + [me])
  {
    CommitHead(win, w, me.sel, done, list, arrived, k);
    CommitNew(win, w, me.sel, n.sel, done2, list2, arrived2, me);
  }

  lemma QueuesRendezvousRecv(cfg: Config, st: State, s: nat, i: nat)
    requires Here(cfg, st, s, Scan(i)) && AltAt(cfg, s, i).dir == Recv && HeadListed(cfg, st, s, i)
    requires DecideRecv(cfg, st, s, i) == Rendezvous
    requires var c := ChanOf(cfg, s, i); ChanWake(cfg, st, c) && ChanLists(cfg, st, c) && ChanQueues(cfg, st, c)
    ensures ChanQueues(cfg, TakeBoth(cfg, st, s, i), ChanOf(cfg, s, i))
  {
    var c := ChanOf(cfg, s, i);
    var r, ch, me := TakeBoth(cfg, st, s, i), st.chans[c], Node(s, i);
    var n := ch.writers[0];
    SidesMet(st.win, r.win, me, n, Claim(n.tok, s), ch.sent, ch.writers, ch.arrivedW, ch.recv, ch.readers, ch.arrivedR);
    LogAppend(cfg, st.win, r.win, ch.sent, n, c, Send);
    LogAppend(cfg, st.win, r.win, ch.recv, me, c, Recv);
  }

  lemma QueuesRendezvousSend(cfg: Config, st: State, s: nat, i: nat)
    requires Here(cfg, st, s, Scan(i)) && AltAt(cfg, s, i).dir == Send && HeadListed(cfg, st, s, i)
    requires DecideSend(cfg, st, s, i) == Rendezvous
    requires var c := ChanOf(cfg, s, i); ChanWake(cfg, st, c) && ChanLists(cfg, st, c) && ChanQueues(cfg, st, c)
    ensures ChanQueues(cfg, TakeBoth(cfg, st, s, i), ChanOf(cfg, s, i))
  {
    var c := ChanOf(cfg, s, i);
    var r, ch, me := TakeBoth(cfg, st, s, i), st.chans[c], Node(s, i);
    var n := ch.readers[0];
    SidesMet(st.win, r.win, me, n, Claim(n.tok, s), ch.recv, ch.readers, ch.arrivedR, ch.sent, ch.writers, ch.arrivedW);
    LogAppend(cfg, st.win, r.win, ch.recv, n, c, Recv);
    LogAppend(cfg, st.win, r.win, ch.sent, me, c, Send);
  }

  lemma QueuesRefill(cfg: Config, st: State, s: nat, i: nat)
    requires Here(cfg, st, s, Refill(i)) && HeadListed(cfg, st, s, i)
    requires st.chans[ChanOf(cfg, s, i)].writers != [] && Open(st.win, st.chans[ChanOf(cfg, s, i)].writers[0])
    requires var c := ChanOf(cfg, s, i); ChanLists(cfg, st, c) && ChanQueues(cfg, st, c)
    ensures ChanQueues(cfg, RefillStep(cfg, st, s, i), ChanOf(cfg, s, i))
  {
    var r, c := RefillStep(cfg, st, s, i), ChanOf(cfg, s, i);
    var ch, n := st.chans[c], st.chans[c].writers[0];
    assert r.chans[c] == ch.(writers := ch.writers[1..], sent := ch.sent + [n])
      && r.win == st.win[n.sel := Some(Claim(n.tok, s))];
    assert n in ch.writers && n !in ch.readers;
    CommitHead(st.win, r.win, s, ch.sent, ch.writers, ch.arrivedW, Claim(n.tok, s));
    TwoClaims(st.win, r.win, s, n.sel, ch.recv, ch.readers, ch.arrivedR);
    LogAppend(cfg, st.win, r.win, ch.sent, n, c, Send);
  }

  lemma QueuesClear(cfg: Config, st: State, s: nat, j: nat, t: nat)
    requires Here(cfg, st, s, Clear(j, t)) && st.health == Ok && ClearStep(cfg, st, s, j, t).health == Ok
    requires j < |cfg.selects[s].alts| && AltAt(cfg, s, j).dir != Skip && ChanQueues(cfg, st, ChanOf(cfg, s, j))
    ensures ChanQueues(cfg, ClearStep(cfg, st, s, j, t), ChanOf(cfg, s, j))
  {
    var ch, me := st.chans[ChanOf(cfg, s, j)], Node(s, j);
    OpenOfRemove(st.win, ch.readers, me);
    OpenOfRemove(st.win, ch.writers, me);
    QueuesSwept(cfg, st, ClearStep(cfg, st, s, j, t), ChanOf(cfg, s, j));
  }
}
