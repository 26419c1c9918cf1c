/**
 What holds in every reachable state, in five families: control (claims, promises, locks),
 waiting lists, wake-ups, order, and slots.
 */
module Invariant {
  import opened Options
  import opened Protocol
  import opened Filters

  // ---------------------------------------------------------------- control

  /** Where a select can be once its own thread took its flag for alternative `t`. */
  ghost predicate WonByItself(x: Sel, t: nat, waits: bool) {
    match x.pc
    case Refill(i) => i == t && x.promise.None?
    case Match(i, _) => i == t && x.promise.None?
    case Store(i, _) => i == t && x.promise.None?
    case Publish(i) => i == t && x.promise.None?
    case Parked => x.promise == Some(t)
    case Clear(_, u) => u == t && x.promise == Some(t)
    case Done(u) => u == t && x.promise == (if waits then Some(t) else None)
    case _ => false
  }

  /** Where it can be once a peer took its flag for the registered alternative `t`. */
  ghost predicate WonByPeer(st: State, s: nat, t: nat, who: nat)
    requires s < |st.sels|
  {
    var x := st.sels[s];
    && who < |st.sels| && t in x.nodes
    && (x.promise.None? ==> PeerOf(st.sels[who].pc) == Some(Node(s, t)))
    && (x.promise.Some? ==> x.promise == Some(t))
    && match x.pc
       case Submit(_) => true
       case Scan(_) => true
       case Parked => true
       case Clear(_, u) => u == t && x.promise.Some?
       case Done(u) => u == t && x.promise.Some?
       case _ => false
  }

  /** Every alternative before `i` has its node. */
  ghost predicate AllBefore(x: Sel, i: nat) {
    forall j :: 0 <= j < i ==> j in x.nodes
  }

  /** Where it can be while nobody took its flag: so far it has missed no alternative. */
  ghost predicate Unclaimed(x: Sel, k: nat, waits: bool) {
    && x.promise.None?
    && match x.pc
       case Idle => true
       case Submit(i) => waits ==> AllBefore(x, i)
       case Scan(i) => waits ==> AllBefore(x, i)
       case Parked => AllBefore(x, k)
       case _ => false
  }

  /** How far registration has come, by program point; the result is taken at the end. */
  ghost predicate Registered(x: Sel, k: nat, waits: bool) {
    && (forall j :: j in x.nodes ==> j < k) && (!waits ==> x.nodes == {})
    && (!x.pc.Clear? && !x.pc.Done? ==> x.result.None?)
    && match x.pc
       case Idle => x.nodes == {}
       case Submit(i) => if waits then forall j :: j in x.nodes ==> j < i else i < k
       case Scan(i) => forall j :: j in x.nodes ==> j < i
       case Parked => waits
       case Clear(_, _) => waits
       case _ => true
  }

  /** What a hand-over in progress still has to do, and that nobody else will do it. */
  ghost predicate Owes(cfg: Config, st: State, s: nat, i: nat, n: Node)
    requires Shape(cfg, st) && s < |st.sels| && i < |cfg.selects[s].alts| && NodeOk(cfg, n)
  {
    var a, b := AltAt(cfg, s, i), AltAt(cfg, n.sel, n.tok);
    && n.sel != s && n.tok in st.sels[n.sel].nodes
    && st.win[n.sel] == Some(Claim(n.tok, s)) && st.sels[n.sel].promise.None?
    && b.chan == a.chan && b.dir == (if a.dir == Recv then Send else Recv)
  }

  ghost predicate SelCtl(cfg: Config, st: State, s: nat)
    requires Shape(cfg, st) && s < |st.sels|
  {
    var x, spec := st.sels[s], cfg.selects[s];
    && Registered(x, |spec.alts|, spec.waits)
    && (match st.win[s]
        case None => Unclaimed(x, |spec.alts|, spec.waits)
        case Some(k) =>
          && k.tok < |spec.alts|
          && if k.who == s then k.tok !in x.nodes && WonByItself(x, k.tok, spec.waits)
            else WonByPeer(st, s, k.tok, k.who))
    && (LockedAlt(x.pc).Some? ==> st.chans[AltAt(cfg, s, LockedAlt(x.pc).value).chan].owner == Some(s))
    && (x.pc.Refill? || x.pc.Store? ==>
          AltAt(cfg, s, x.pc.i).dir == Recv && var cap := cfg.caps[AltAt(cfg, s, x.pc.i).chan];
            cap.Some? && cap.value > 0)
    && (PeerOf(x.pc).Some? ==> Owes(cfg, st, s, x.pc.i, x.pc.peer))
  }

  ghost predicate ChanCtl(cfg: Config, st: State, c: nat)
    requires Shape(cfg, st) && c < |st.chans|
  {
    var q := st.chans[c].owner;
    q.Some? ==>
      && q.value < |st.sels|
      && LockedAlt(st.sels[q.value].pc).Some?
      && AltAt(cfg, q.value, LockedAlt(st.sels[q.value].pc).value).chan == c
  }

  ghost predicate Ctl(cfg: Config, st: State)
    requires Shape(cfg, st)
  {
    && (forall s :: 0 <= s < |st.sels| ==> SelCtl(cfg, st, s))
    && (forall c :: 0 <= c < |st.chans| ==> ChanCtl(cfg, st, c))
  }

  // ---------------------------------------------------------------- waiting lists

  /** A node in a list is registered there, was not the one its select was claimed for, and its
      select has not cleaned it up. */
  ghost predicate Listed(cfg: Config, st: State, n: Node, c: nat, dir: Dir)
    requires Shape(cfg, st)
  {
    && NodeOk(cfg, n) && n.tok in st.sels[n.sel].nodes
    && AltAt(cfg, n.sel, n.tok).dir == dir && AltAt(cfg, n.sel, n.tok).chan == c
    && (st.win[n.sel].Some? ==> st.win[n.sel].value.tok != n.tok)
    && (st.sels[n.sel].pc.Clear? ==> st.sels[n.sel].pc.j <= n.tok)
    && !st.sels[n.sel].pc.Done?
  }

  ghost predicate ChanLists(cfg: Config, st: State, c: nat)
    requires Shape(cfg, st) && c < |st.chans|
  {
    && NoDup(st.chans[c].readers) && NoDup(st.chans[c].writers)
    && (forall n :: n in st.chans[c].readers ==> Listed(cfg, st, n, c, Recv))
    && (forall n :: n in st.chans[c].writers ==> Listed(cfg, st, n, c, Send))
  }

  /** Every alternative registered so far has its node in the right list, as long as nobody
      claimed the select. */
  ghost predicate SelLists(cfg: Config, st: State, s: nat)
    requires Shape(cfg, st) && s < |st.sels|
  {
    st.win[s].None? ==>
      forall j {:trigger Node(s, j)} ::
        j in st.sels[s].nodes && j < |cfg.selects[s].alts| && AltAt(cfg, s, j).dir != Skip ==>
        Node(s, j) in Own(AltAt(cfg, s, j).dir, st.chans[AltAt(cfg, s, j).chan])
  }

  ghost predicate Lists(cfg: Config, st: State)
    requires Shape(cfg, st)
  {
    && (forall s :: 0 <= s < |st.sels| ==> SelLists(cfg, st, s))
    && (forall c :: 0 <= c < |st.chans| ==> ChanLists(cfg, st, c))
  }

  // ---------------------------------------------------------------- wake-ups

  /** Room in the buffer that is being given to a waiting writer. */
  ghost function Slack(st: State, c: nat): nat
    requires c < |st.chans|
  {
    var q := st.chans[c].owner;
    if q.Some? && q.value < |st.sels| && (st.sels[q.value].pc.Refill? || st.sels[q.value].pc.Store?) then 1 else 0
  }

  /** No lost wake-up: nobody waits who could be served. */
  ghost predicate ChanWake(cfg: Config, st: State, c: nat)
    requires Shape(cfg, st) && c < |st.chans|
  {
    var ch, cap := st.chans[c], cfg.caps[c];
    && (OpenOf(st.win, ch.readers) != [] ==> ch.buffer == [] && OpenOf(st.win, ch.writers) == [] && Slack(st, c) == 0)
    && (OpenOf(st.win, ch.writers) != [] ==> cap.Some? && |ch.buffer| + Slack(st, c) == cap.value)
    && (cap.Some? ==> |ch.buffer| + Slack(st, c) <= cap.value)
  }

  ghost predicate Wake(cfg: Config, st: State)
    requires Shape(cfg, st)
  {
    forall c :: 0 <= c < |st.chans| ==> ChanWake(cfg, st, c)
  }

  // ---------------------------------------------------------------- order

  /** The value a write alternative was given. */
  ghost function Input(cfg: Config, n: Node): Option<Value> {
    if NodeOk(cfg, n) && AltAt(cfg, n.sel, n.tok).op < |cfg.selects[n.sel].inputs|
    then cfg.selects[n.sel].inputs[AltAt(cfg, n.sel, n.tok).op] else None
  }

  /** The value that a read alternative holds: in its slot, later in its result. */
  ghost function Received(cfg: Config, st: State, n: Node): Option<Value>
    requires Shape(cfg, st) && NodeOk(cfg, n)
  {
    var x := st.sels[n.sel];
    if x.pc.Clear? || x.pc.Done? then x.result else x.slots[AltAt(cfg, n.sel, n.tok).op]
  }

  /** A node that completed: its select was claimed for it. */
  ghost predicate Won(cfg: Config, win: seq<Option<Claim>>, n: Node, c: nat, dir: Dir) {
    && NodeOk(cfg, n) && n.sel < |win| && win[n.sel].Some? && win[n.sel].value.tok == n.tok
    && AltAt(cfg, n.sel, n.tok).dir == dir && AltAt(cfg, n.sel, n.tok).chan == c
  }

  /** The owner of a channel's mutex is in the middle of a direct hand-over. */
  ghost predicate Handing(st: State, c: nat)
    requires c < |st.chans|
  {
    var q := st.chans[c].owner;
    q.Some? && q.value < |st.sels| && st.sels[q.value].pc.Match?
  }

  ghost predicate Storing(st: State, c: nat)
    requires c < |st.chans|
  {
    var q := st.chans[c].owner;
    q.Some? && q.value < |st.sels| && st.sels[q.value].pc.Store?
  }

  /** Completed writes, then waiting ones, are the live arrivals; the same for reads. */
  ghost predicate ChanQueues(cfg: Config, st: State, c: nat)
    requires Shape(cfg, st) && c < |st.chans|
  {
    var ch := st.chans[c];
    && (forall n :: n in ch.sent ==> Won(cfg, st.win, n, c, Send))
    && (forall n :: n in ch.recv ==> Won(cfg, st.win, n, c, Recv))
    && NoDup(ch.sent) && NoDup(ch.recv)
    && ch.sent + OpenOf(st.win, ch.writers) == LiveOf(st.win, ch.arrivedW)
    && ch.recv + OpenOf(st.win, ch.readers) == LiveOf(st.win, ch.arrivedR)
  }

  /** The buffer holds the values of the completed writes that were not read yet, oldest first. */
  ghost predicate ChanFlow(cfg: Config, st: State, c: nat)
    requires Shape(cfg, st) && c < |st.chans|
  {
    var ch := st.chans[c];
    && |ch.recv| + |ch.buffer| + (if Storing(st, c) then 1 else 0) == |ch.sent|
    && (forall k :: 0 <= k < |ch.buffer| ==> Some(ch.buffer[k]) == Input(cfg, ch.sent[|ch.recv| + k]))
    && (Storing(st, c) ==> ch.sent[|ch.sent| - 1] == st.sels[ch.owner.value].pc.peer)
    && (Handing(st, c) ==> ch.recv != [] && ch.buffer == [] && var x := st.sels[ch.owner.value].pc;
          var me := Node(ch.owner.value, x.i);
          x.i < |cfg.selects[ch.owner.value].alts| &&
          if AltAt(cfg, ch.owner.value, x.i).dir == Recv
          then ch.recv[|ch.recv| - 1] == me && ch.sent[|ch.sent| - 1] == x.peer
          else ch.recv[|ch.recv| - 1] == x.peer && ch.sent[|ch.sent| - 1] == me)
  }

  /** The k-th completed read holds the value of the k-th completed write. */
  ghost predicate ChanPairs(cfg: Config, st: State, c: nat)
    requires Shape(cfg, st) && c < |st.chans|
  {
    var ch := st.chans[c];
    forall k {:trigger ch.recv[k]} ::
      0 <= k < |ch.recv| - (if Handing(st, c) then 1 else 0) && k < |ch.sent| && NodeOk(cfg, ch.recv[k]) ==>
      Received(cfg, st, ch.recv[k]) == Input(cfg, ch.sent[k])
  }

  /** A claim is recorded on the channel of its alternative. */
  ghost predicate SelLogged(cfg: Config, st: State, s: nat)
    requires Shape(cfg, st) && s < |st.sels|
  {
    st.win[s].Some? && st.win[s].value.tok < |cfg.selects[s].alts| ==>
      var t := st.win[s].value.tok;
      && (AltAt(cfg, s, t).dir == Send ==> Node(s, t) in st.chans[AltAt(cfg, s, t).chan].sent)
      && (AltAt(cfg, s, t).dir == Recv ==> Node(s, t) in st.chans[AltAt(cfg, s, t).chan].recv)
  }

  ghost predicate Order(cfg: Config, st: State)
    requires Shape(cfg, st)
  {
    && (forall s :: 0 <= s < |st.sels| ==> SelLogged(cfg, st, s))
    && (forall c :: 0 <= c < |st.chans| ==> ChanQueues(cfg, st, c) && ChanFlow(cfg, st, c) && ChanPairs(cfg, st, c))
  }

  /** The alternative has entered its channel's queue, or completed on it at once. */
  ghost predicate Entered(cfg: Config, st: State, n: Node)
    requires Shape(cfg, st)
  {
    NodeOk(cfg, n) && (n.tok in st.sels[n.sel].nodes || (st.win[n.sel].Some? && st.win[n.sel].value.tok == n.tok))
  }

  ghost predicate EntersAt(cfg: Config, n: Node, c: nat, dir: Dir) {
    NodeOk(cfg, n) && AltAt(cfg, n.sel, n.tok).chan == c && AltAt(cfg, n.sel, n.tok).dir == dir
  }

  /** The order of arrival lists exactly the alternatives that entered, once each. */
  ghost predicate ChanArrivals(cfg: Config, st: State, c: nat)
    requires Shape(cfg, st) && c < |st.chans|
  {
    var ch := st.chans[c];
    && NoDup(ch.arrivedR) && NoDup(ch.arrivedW)
    && (forall n :: n in ch.arrivedR <==> EntersAt(cfg, n, c, Recv) && Entered(cfg, st, n))
    && (forall n :: n in ch.arrivedW <==> EntersAt(cfg, n, c, Send) && Entered(cfg, st, n))
  }

  ghost predicate Arrivals(cfg: Config, st: State)
    requires Shape(cfg, st)
  {
    forall c :: 0 <= c < |st.chans| ==> ChanArrivals(cfg, st, c)
  }

  // ---------------------------------------------------------------- slots

  /** The value of a claimed select has changed hands. */
  ghost predicate Handed(st: State, s: nat)
    requires s < |st.win| == |st.sels|
  {
    && st.win[s].Some?
    && if st.win[s].value.who == s then !st.sels[s].pc.Match? else st.sels[s].promise.Some?
  }

  ghost predicate SlotRight(cfg: Config, st: State, s: nat, o: nat)
    requires Shape(cfg, st) && s < |st.sels| && o < |cfg.selects[s].inputs|
  {
    var x, spec := st.sels[s], cfg.selects[s];
    if Handed(st, s) && st.win[s].value.tok < |spec.alts| && AltAt(cfg, s, st.win[s].value.tok).op == o
    then
      match AltAt(cfg, s, st.win[s].value.tok).dir
      case Send => x.slots[o].None?
      case Recv => if x.pc.Clear? || x.pc.Done? then x.slots[o].None? && x.result.Some? else x.slots[o].Some?
      case Skip => x.slots[o].None?
    else x.slots[o] == spec.inputs[o]
  }

  ghost predicate SelSlots(cfg: Config, st: State, s: nat)
    requires Shape(cfg, st) && s < |st.sels|
  {
    forall o :: 0 <= o < |cfg.selects[s].inputs| ==> SlotRight(cfg, st, s, o)
  }

  ghost predicate Slots(cfg: Config, st: State)
    requires Shape(cfg, st)
  {
    forall s :: 0 <= s < |st.sels| ==> SelSlots(cfg, st, s)
  }

  ghost predicate Inv(cfg: Config, st: State) {
    && Shape(cfg, st)
    && Ctl(cfg, st) && Lists(cfg, st) && Wake(cfg, st) && Order(cfg, st) && Arrivals(cfg, st) && Slots(cfg, st)
  }

  lemma InitInv(cfg: Config)
    requires ConfigOk(cfg)
    ensures Inv(cfg, Init(cfg))
  {}
}
