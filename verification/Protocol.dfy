/**
 The channel and select protocol as a step machine.

 A configuration fixes the channels and every select call that takes part; a state is what all
 of them share.  `Step(cfg, st, s)` is the next atomic action of the thread running select `s`:
 taking a channel mutex, one iteration of `dequeue_first_available` under the context mutexes,
 a claim, a hand-over, one `dequeue` of the clean-up.  A run is a schedule: any sequence of
 select numbers, so every interleaving is one.
 */
module Protocol {
  import opened Options

  /** What a channel carries. */
  type Value(==, !new)

  /** Direction of an alternative; `Skip` is the alternative of `ops::nothing`. */
  datatype Dir = Recv | Send | Skip

  /** One alternative of a select: its index in `SelectSpec.alts` is its token. */
  datatype Alt = Alt(dir: Dir, chan: nat, op: nat)

  /** A select call.  `inputs[o]` is what the slot of op `o` is built with: the value of a write,
      nothing for a read.  `waits` tells `select` from `select_ready`. */
  datatype SelectSpec = SelectSpec(alts: seq<Alt>, inputs: seq<Option<Value>>, waits: bool)

  /** `caps[c]` is the buffer size of channel `c`, `None` for an unbounded one.  `intended` selects
      the list that the clean-up of a waiting write works on: the reader list, as the code has
      it (false), or the writer list, on which the node was enqueued (true). */
  datatype Config = Config(caps: seq<Option<nat>>, selects: seq<SelectSpec>, intended: bool)

  /** A waiter node, named by its select and its token. */
  datatype Node = Node(sel: nat, tok: nat)

  /** Who took a select's availability flag, and for which alternative. */
  datatype Claim = Claim(tok: nat, who: nat)

  datatype Pc =
    | Idle
    | Submit(i: nat)               // submit mutex held, alternative i comes next
    | Scan(i: nat)                 // channel mutex of alternative i held, nothing decided yet
    | Refill(i: nat)               // value taken from a bounded buffer, looking for a waiting writer
    | Match(i: nat, peer: Node)    // own and peer's flag taken, peer's node popped
    | Store(i: nat, peer: Node)    // peer's flag taken, its value goes to the buffer
    | Publish(i: nat)              // submission over, own promise still to be set
    | Parked                       // submission over, waiting for the promise
    | Clear(j: nat, t: nat)        // resumed with token t, alternative j is cleaned up next
    | Done(t: nat)

  /** `nodes` are the alternatives whose wait state holds a node; a promise or result is set at most
      once. */
  datatype Sel = Sel(pc: Pc, nodes: set<nat>, slots: seq<Option<Value>>, promise: Option<nat>, result: Option<Value>)

  /** Shared state of a channel.  The last four fields are history that no step reads: the nodes
      in the order in which they entered the channel, and those that completed on it. */
  datatype Chan = Chan(owner: Option<nat>, buffer: seq<Value>, readers: seq<Node>, writers: seq<Node>,
                       arrivedR: seq<Node>, arrivedW: seq<Node>, recv: seq<Node>, sent: seq<Node>)

  /** `AssertFailed`: an assertion of the code did not hold.  `Dangling`: a list is left with a
      pointer to a node that is about to die. */
  datatype Health = Ok | AssertFailed | Dangling

  /** `win[s].None?` is the avail_flag of select `s`; what it holds otherwise is history. */
  datatype State = State(win: seq<Option<Claim>>, sels: seq<Sel>, chans: seq<Chan>, health: Health)

  // ---------------------------------------------------------------- configurations

  predicate AltOk(cfg: Config, spec: SelectSpec, a: Alt) {
    && a.op < |spec.inputs|
    && (a.dir != Skip ==> a.chan < |cfg.caps|)
    && (a.dir == Send <==> spec.inputs[a.op].Some?)
    && (spec.waits ==> a.dir != Skip)
    && (spec.waits && a.dir == Send ==> cfg.caps[a.chan].Some?)
  }

  /** Alternatives that never wait: `nothing`, and a write to an unbounded channel. */
  predicate NeverWaits(cfg: Config, a: Alt)
    requires a.dir != Skip ==> a.chan < |cfg.caps|
  {
    a.dir == Skip || (a.dir == Send && cfg.caps[a.chan].None?)
  }

  predicate SpecOk(cfg: Config, spec: SelectSpec) {
    && |spec.alts| > 0
    && (forall i :: 0 <= i < |spec.alts| ==> AltOk(cfg, spec, spec.alts[i]))
    && (!spec.waits ==> NeverWaits(cfg, spec.alts[|spec.alts| - 1]))
  }

  predicate ConfigOk(cfg: Config) {
    forall s :: 0 <= s < |cfg.selects| ==> SpecOk(cfg, cfg.selects[s])
  }

  /** One reads and the other writes the same channel. */
  predicate Faces(a: Alt, b: Alt) {
    a.chan == b.chan && ((a.dir == Recv && b.dir == Send) || (a.dir == Send && b.dir == Recv))
  }

  /** No alternative of the select can meet the node of an earlier one and lock its own context
      twice: where a channel is used in both directions, the later use is a read, which looks for a
      writer with its own context only on a channel without a buffer. */
  predicate NeverMeetsItself(caps: seq<Option<nat>>, spec: SelectSpec) {
    forall i, j | 0 <= j < i < |spec.alts| && Faces(spec.alts[i], spec.alts[j]) ::
      spec.alts[i].dir == Recv && spec.alts[i].chan < |caps| && caps[spec.alts[i].chan] != Some(0)
  }

  /** No select that waits can meet itself. */
  predicate NoSelfMatch(cfg: Config) {
    forall s :: 0 <= s < |cfg.selects| && cfg.selects[s].waits ==> NeverMeetsItself(cfg.caps, cfg.selects[s])
  }

  function AltAt(cfg: Config, s: nat, i: nat): Alt
    requires s < |cfg.selects| && i < |cfg.selects[s].alts|
  {
    cfg.selects[s].alts[i]
  }

  // ---------------------------------------------------------------- shape of a state

  predicate NodeOk(cfg: Config, n: Node) {
    n.sel < |cfg.selects| && n.tok < |cfg.selects[n.sel].alts| && AltAt(cfg, n.sel, n.tok).dir != Skip
  }

  predicate PcOk(cfg: Config, s: nat, pc: Pc)
    requires s < |cfg.selects|
  {
    var k := |cfg.selects[s].alts|;
    match pc
    case Idle => true
    case Submit(i) => i <= k
    case Scan(i) => i < k && AltAt(cfg, s, i).dir != Skip
    case Refill(i) => i < k && AltAt(cfg, s, i).dir != Skip
    case Match(i, n) => i < k && AltAt(cfg, s, i).dir != Skip && NodeOk(cfg, n)
    case Store(i, n) => i < k && AltAt(cfg, s, i).dir != Skip && NodeOk(cfg, n)
    case Publish(i) => i < k
    case Parked => true
    case Clear(j, t) => j <= k && t < k
    case Done(t) => t < k
  }

  predicate SelOk(cfg: Config, s: nat, x: Sel)
    requires s < |cfg.selects|
  {
    && PcOk(cfg, s, x.pc)
    && |x.slots| == |cfg.selects[s].inputs|
    && (x.promise.Some? ==> x.promise.value < |cfg.selects[s].alts|)
  }

  predicate ChanOk(cfg: Config, ch: Chan) {
    && (forall k :: 0 <= k < |ch.readers| ==> NodeOk(cfg, ch.readers[k]))
    && (forall k :: 0 <= k < |ch.writers| ==> NodeOk(cfg, ch.writers[k]))
  }

  predicate Shape(cfg: Config, st: State) {
    && ConfigOk(cfg)
    && |st.win| == |st.sels| == |cfg.selects|
    && |st.chans| == |cfg.caps|
    && (forall s :: 0 <= s < |st.sels| ==> SelOk(cfg, s, st.sels[s]))
    && (forall c :: 0 <= c < |st.chans| ==> ChanOk(cfg, st.chans[c]))
  }

  function Fresh(inputs: seq<Option<Value>>): Sel {
    Sel(Idle, {}, inputs, None, None)
  }

  const EMPTY_CHAN: Chan := Chan(None, [], [], [], [], [], [], [])

  function Init(cfg: Config): State {
    State(seq(|cfg.selects|, s => None),
          seq(|cfg.selects|, s requires 0 <= s < |cfg.selects| => Fresh(cfg.selects[s].inputs)),
          seq(|cfg.caps|, c => EMPTY_CHAN),
          Ok)
  }

  // ---------------------------------------------------------------- small vocabulary

  predicate Open(win: seq<Option<Claim>>, n: Node) {
    n.sel < |win| && win[n.sel].None?
  }

  predicate Full(cap: Option<nat>, buffer: seq<Value>) {
    cap.Some? && |buffer| == cap.value
  }

  /** The list with one node unlinked; unchanged when the node is not in it. */
  function Remove(xs: seq<Node>, n: Node): seq<Node> {
    if xs == [] then [] else if xs[0] == n then xs[1..] else [xs[0]] + Remove(xs[1..], n)
  }

  predicate AtEnd(xs: seq<Node>, n: Node) {
    |xs| > 0 && (xs[0] == n || xs[|xs| - 1] == n)
  }

  function PutSel(st: State, s: nat, x: Sel): State
    requires s < |st.sels|
  {
    st.(sels := st.sels[s := x])
  }

  function PutChan(st: State, c: nat, ch: Chan): State
    requires c < |st.chans|
  {
    st.(chans := st.chans[c := ch])
  }

  function Take(st: State, s: nat, t: nat, who: nat): State
    requires s < |st.win|
  {
    st.(win := st.win[s := Some(Claim(t, who))])
  }

  function Fail(st: State): State {
    st.(health := AssertFailed)
  }

  /** Alternative whose channel mutex is held. */
  function LockedAlt(pc: Pc): Option<nat> {
    match pc
    case Scan(i) => Some(i)
    case Refill(i) => Some(i)
    case Match(i, _) => Some(i)
    case Store(i, _) => Some(i)
    case _ => None
  }

  /** Peer that has been claimed and is still owed its value and its wake-up. */
  function PeerOf(pc: Pc): Option<Node> {
    match pc
    case Match(_, n) => Some(n)
    case Store(_, n) => Some(n)
    case _ => None
  }

  /** The list that alternative `i` of select `s` looks for a partner in. */
  function Opposite(dir: Dir, ch: Chan): seq<Node> {
    if dir == Recv then ch.writers else ch.readers
  }

  /** The list that it waits in. */
  function Own(dir: Dir, ch: Chan): seq<Node> {
    if dir == Recv then ch.readers else ch.writers
  }

  // ---------------------------------------------------------------- steps of the submission

  function SubmitStep(cfg: Config, st: State, s: nat, i: nat): (r: State)
    requires Shape(cfg, st) && s < |st.sels| && i <= |cfg.selects[s].alts|
    ensures Shape(cfg, r)
  {
    var x := st.sels[s];
    if i == |cfg.selects[s].alts| then
      if cfg.selects[s].waits then PutSel(st, s, x.(pc := Parked)) else Fail(st)
    else if AltAt(cfg, s, i).dir == Skip then
      PutSel(Take(st, s, i, s), s, x.(pc := Publish(i)))
    else
      var c := AltAt(cfg, s, i).chan;
      PutChan(PutSel(st, s, x.(pc := Scan(i))), c, st.chans[c].(owner := Some(s)))
  }

  /** Leave the critical section and go on: with a node left behind when the select waits. */
  function Enlist(cfg: Config, st: State, s: nat, i: nat): (r: State)
    requires Shape(cfg, st) && s < |st.sels| && i < |cfg.selects[s].alts| && AltAt(cfg, s, i).dir != Skip
    ensures Shape(cfg, r)
  {
    var c, ch, x, me := AltAt(cfg, s, i).chan, st.chans[AltAt(cfg, s, i).chan], st.sels[s], Node(s, i);
    if !cfg.selects[s].waits then
      PutChan(PutSel(st, s, x.(pc := Submit(i + 1))), c, ch.(owner := None))
    else
      PutChan(PutSel(st, s, x.(pc := Submit(i + 1), nodes := x.nodes + {i})), c,
              if AltAt(cfg, s, i).dir == Recv
              then ch.(owner := None, readers := ch.readers + [me], arrivedR := ch.arrivedR + [me])
              else ch.(owner := None, writers := ch.writers + [me], arrivedW := ch.arrivedW + [me]))
  }

  /** The first alternative after `i` that belongs to another operation. */
  function NextOp(alts: seq<Alt>, i: nat): (j: nat)
    requires i < |alts|
    ensures i < j <= |alts|
    ensures forall k :: i < k < j ==> alts[k].op == alts[i].op
    ensures j < |alts| ==> alts[j].op != alts[i].op
    decreases |alts| - i
  {
    if i + 1 < |alts| && alts[i + 1].op == alts[i].op then NextOp(alts, i + 1) else i + 1
  }

  /** A peer won meanwhile: the operation tries none of its other channels.  The operations after it
      are still submitted. */
  function GiveUp(cfg: Config, st: State, s: nat, i: nat): (r: State)
    requires Shape(cfg, st) && s < |st.sels| && i < |cfg.selects[s].alts| && AltAt(cfg, s, i).dir != Skip
    ensures Shape(cfg, r)
  {
    var c := AltAt(cfg, s, i).chan;
    PutChan(PutSel(st, s, st.sels[s].(pc := Submit(NextOp(cfg.selects[s].alts, i)))), c, st.chans[c].(owner := None))
  }

  /** Claim the own context and move the head of the buffer to the slot. */
  function TakeBuffered(cfg: Config, st: State, s: nat, i: nat): (r: State)
    requires Shape(cfg, st) && s < |st.sels| && i < |cfg.selects[s].alts| && AltAt(cfg, s, i).dir != Skip
    requires st.chans[AltAt(cfg, s, i).chan].buffer != []
    ensures Shape(cfg, r)
  {
    var a := AltAt(cfg, s, i);
    var ch, x, me := st.chans[a.chan], st.sels[s], Node(s, i);
    var bounded := cfg.caps[a.chan].Some?;
    if x.slots[a.op].Some? then Fail(st) else
    PutChan(PutSel(Take(st, s, i, s), s,
                   x.(pc := if bounded then Refill(i) else Publish(i), slots := x.slots[a.op := Some(ch.buffer[0])])),
            a.chan,
            ch.(owner := if bounded then ch.owner else None, buffer := ch.buffer[1..],
                recv := ch.recv + [me], arrivedR := ch.arrivedR + [me]))
  }

  /** Claim the own context and move the slot to the back of the buffer. */
  function PutBuffered(cfg: Config, st: State, s: nat, i: nat): (r: State)
    requires Shape(cfg, st) && s < |st.sels| && i < |cfg.selects[s].alts| && AltAt(cfg, s, i).dir != Skip
    ensures Shape(cfg, r)
  {
    var a := AltAt(cfg, s, i);
    var ch, x, me := st.chans[a.chan], st.sels[s], Node(s, i);
    if x.slots[a.op].None? then Fail(st) else
    PutChan(PutSel(Take(st, s, i, s), s, x.(pc := Publish(i), slots := x.slots[a.op := None])),
            a.chan,
            ch.(owner := None, buffer := ch.buffer + [x.slots[a.op].value],
                sent := ch.sent + [me], arrivedW := ch.arrivedW + [me]))
  }

  /** Pop the first node of the list opposite to `dir`. */
  function Pop(st: State, c: nat, dir: Dir): State
    requires c < |st.chans| && Opposite(dir, st.chans[c]) != []
  {
    var ch := st.chans[c];
    PutChan(st, c, if dir == Recv then ch.(writers := ch.writers[1..]) else ch.(readers := ch.readers[1..]))
  }

  /** Both flags are up: take both, pop the peer's node. */
  function TakeBoth(cfg: Config, st: State, s: nat, i: nat): (r: State)
    requires Shape(cfg, st) && s < |st.sels| && i < |cfg.selects[s].alts| && AltAt(cfg, s, i).dir != Skip
    requires Opposite(AltAt(cfg, s, i).dir, st.chans[AltAt(cfg, s, i).chan]) != []
    ensures Shape(cfg, r)
  {
    var a := AltAt(cfg, s, i);
    var ch, x, me := st.chans[a.chan], st.sels[s], Node(s, i);
    var n := Opposite(a.dir, ch)[0];
    var popped := if a.dir == Recv
      then ch.(writers := ch.writers[1..], sent := ch.sent + [n],
               recv := ch.recv + [me], arrivedR := ch.arrivedR + [me])
      else ch.(readers := ch.readers[1..], recv := ch.recv + [n],
               sent := ch.sent + [me], arrivedW := ch.arrivedW + [me]);
    assert ChanOk(cfg, popped);
    assert SelOk(cfg, s, x.(pc := Match(i, n)));
    PutChan(PutSel(Take(Take(st, s, i, s), n.sel, n.tok, s), s, x.(pc := Match(i, n))), a.chan, popped)
  }

  /** What an iteration inside a channel's critical section comes to. */
  datatype Outcome =
    | DropStale    // the first node of the opposite list is stale: pop it and look again
    | Rendezvous   // it is not: take both flags
    | FromBuffer   // read: take the flag and the head of the buffer
    | ToBuffer     // write: take the flag, append to the buffer
    | Quit         // the buffer is ready, but the own flag is gone
    | Wait         // nothing to be had here

  function DecideRecv(cfg: Config, st: State, s: nat, i: nat): (o: Outcome)
    requires Shape(cfg, st) && s < |st.sels| && i < |cfg.selects[s].alts| && AltAt(cfg, s, i).dir == Recv
  {
    var c := AltAt(cfg, s, i).chan;
    var ch := st.chans[c];
    if cfg.caps[c] != Some(0) then
      if ch.buffer == [] then Wait
      else if st.win[s].Some? then Quit
      else FromBuffer
    else if ch.writers == [] then Wait
    else if !Open(st.win, ch.writers[0]) then DropStale
    else if st.win[s].Some? then Wait
    else Rendezvous
  }

  function DecideSend(cfg: Config, st: State, s: nat, i: nat): (o: Outcome)
    requires Shape(cfg, st) && s < |st.sels| && i < |cfg.selects[s].alts| && AltAt(cfg, s, i).dir == Send
  {
    var c := AltAt(cfg, s, i).chan;
    var ch := st.chans[c];
    if ch.readers != [] && !Open(st.win, ch.readers[0]) then DropStale
    else if ch.readers != [] && st.win[s].None? then Rendezvous
    else if cfg.caps[c] != Some(0) && !Full(cfg.caps[c], ch.buffer) then
      if st.win[s].Some? then Quit else ToBuffer
    else Wait
  }

  function Decide(cfg: Config, st: State, s: nat, i: nat): (o: Outcome)
    requires Shape(cfg, st) && s < |st.sels| && i < |cfg.selects[s].alts| && AltAt(cfg, s, i).dir != Skip
    ensures o == DropStale || o == Rendezvous ==>
      Opposite(AltAt(cfg, s, i).dir, st.chans[AltAt(cfg, s, i).chan]) != []
    ensures o == FromBuffer ==> st.chans[AltAt(cfg, s, i).chan].buffer != []
  {
    if AltAt(cfg, s, i).dir == Recv then DecideRecv(cfg, st, s, i) else DecideSend(cfg, st, s, i)
  }

  function ScanStep(cfg: Config, st: State, s: nat, i: nat): (r: State)
    requires Shape(cfg, st) && s < |st.sels| && i < |cfg.selects[s].alts| && AltAt(cfg, s, i).dir != Skip
    ensures Shape(cfg, r)
  {
    match Decide(cfg, st, s, i)
    case DropStale => Pop(st, AltAt(cfg, s, i).chan, AltAt(cfg, s, i).dir)
    case Rendezvous => TakeBoth(cfg, st, s, i)
    case FromBuffer => TakeBuffered(cfg, st, s, i)
    case ToBuffer => PutBuffered(cfg, st, s, i)
    case Quit => GiveUp(cfg, st, s, i)
    case Wait => Enlist(cfg, st, s, i)
  }

  /** After a value left a bounded buffer: one iteration of the search for a waiting writer. */
  function RefillStep(cfg: Config, st: State, s: nat, i: nat): (r: State)
    requires Shape(cfg, st) && s < |st.sels| && i < |cfg.selects[s].alts| && AltAt(cfg, s, i).dir != Skip
    ensures Shape(cfg, r)
  {
    var c := AltAt(cfg, s, i).chan;
    var ch, x := st.chans[c], st.sels[s];
    if ch.writers == [] then
      PutChan(PutSel(st, s, x.(pc := Publish(i))), c, ch.(owner := None))
    else if !Open(st.win, ch.writers[0]) then Pop(st, c, Recv)
    else
      var n, popped := ch.writers[0], ch.(writers := ch.writers[1..], sent := ch.sent + [ch.writers[0]]);
      assert NodeOk(cfg, n) && ChanOk(cfg, popped);
      assert SelOk(cfg, s, x.(pc := Store(i, n)));
      PutChan(PutSel(Take(st, n.sel, n.tok, s), s, x.(pc := Store(i, n))), c, popped)
  }

  /** `transfer` between the slots of both sides, then `notify_waiter`. */
  function MatchStep(cfg: Config, st: State, s: nat, i: nat, n: Node): (r: State)
    requires Shape(cfg, st) && s < |st.sels| && PcOk(cfg, s, Match(i, n))
    ensures Shape(cfg, r)
  {
    var a, b := AltAt(cfg, s, i), AltAt(cfg, n.sel, n.tok);
    var x, y := st.sels[s], st.sels[n.sel];
    var mine, theirs := x.slots[a.op], y.slots[b.op];
    var canTransfer := if a.dir == Recv then theirs.Some? && mine.None? else mine.Some? && theirs.None?;
    if !canTransfer || y.promise.Some? then Fail(st) else
    PutChan(PutSel(PutSel(st, s, x.(pc := Publish(i), slots := x.slots[a.op := theirs])),
                   n.sel, y.(slots := y.slots[b.op := mine], promise := Some(n.tok))),
            a.chan, st.chans[a.chan].(owner := None))
  }

  /** The claimed writer's value goes to the buffer, then `notify_waiter`. */
  function StoreStep(cfg: Config, st: State, s: nat, i: nat, n: Node): (r: State)
    requires Shape(cfg, st) && s < |st.sels| && PcOk(cfg, s, Store(i, n))
    ensures Shape(cfg, r)
  {
    var a, b := AltAt(cfg, s, i), AltAt(cfg, n.sel, n.tok);
    var x, y, ch := st.sels[s], st.sels[n.sel], st.chans[a.chan];
    if y.slots[b.op].None? || Full(cfg.caps[a.chan], ch.buffer) || y.promise.Some? then Fail(st) else
    PutChan(PutSel(PutSel(st, s, x.(pc := Publish(i))),
                   n.sel, y.(slots := y.slots[b.op := None], promise := Some(n.tok))),
            a.chan, ch.(owner := None, buffer := ch.buffer + [y.slots[b.op].value]))
  }

  /** `get_result`: a read takes its value out of the slot. */
  function GetResult(cfg: Config, s: nat, x: Sel, t: nat): Sel
    requires s < |cfg.selects| && t < |cfg.selects[s].alts| && SpecOk(cfg, cfg.selects[s]) && SelOk(cfg, s, x)
  {
    var a := AltAt(cfg, s, t);
    if a.dir == Recv then x.(result := x.slots[a.op], slots := x.slots[a.op := None]) else x
  }

  predicate ResultMissing(cfg: Config, s: nat, x: Sel, t: nat)
    requires s < |cfg.selects| && t < |cfg.selects[s].alts| && SpecOk(cfg, cfg.selects[s]) && SelOk(cfg, s, x)
  {
    AltAt(cfg, s, t).dir == Recv && x.slots[AltAt(cfg, s, t).op].None?
  }

  /** The own promise of a waiting select, the result of a wait-free one. */
  function PublishStep(cfg: Config, st: State, s: nat, i: nat): (r: State)
    requires Shape(cfg, st) && s < |st.sels| && i < |cfg.selects[s].alts|
    ensures Shape(cfg, r)
  {
    var x := st.sels[s];
    if cfg.selects[s].waits then
      if x.promise.Some? then Fail(st) else PutSel(st, s, x.(pc := Parked, promise := Some(i)))
    else if ResultMissing(cfg, s, x, i) then Fail(st)
    else PutSel(st, s, GetResult(cfg, s, x, i).(pc := Done(i)))
  }

  // ---------------------------------------------------------------- steps after resumption

  function ResumeStep(cfg: Config, st: State, s: nat, t: nat): (r: State)
    requires Shape(cfg, st) && s < |st.sels| && t < |cfg.selects[s].alts|
    ensures Shape(cfg, r)
  {
    if ResultMissing(cfg, s, st.sels[s], t) then Fail(st)
    else PutSel(st, s, GetResult(cfg, s, st.sels[s], t).(pc := Clear(0, t)))
  }

  lemma {:induction false} RemoveSubset(xs: seq<Node>, n: Node)
    ensures forall m :: m in Remove(xs, n) ==> m in xs
  {
    if xs != [] && xs[0] != n { RemoveSubset(xs[1..], n); }
  }

  lemma {:induction false} RemoveKeepsNodesOk(cfg: Config, xs: seq<Node>, n: Node)
    requires forall k :: 0 <= k < |xs| ==> NodeOk(cfg, xs[k])
    ensures forall k :: 0 <= k < |Remove(xs, n)| ==> NodeOk(cfg, Remove(xs, n)[k])
  {
    RemoveSubset(xs, n);
    forall k | 0 <= k < |Remove(xs, n)| ensures NodeOk(cfg, Remove(xs, n)[k]) {
      assert Remove(xs, n)[k] in xs;
    }
  }

  /** `dequeue` of a registered node, called on the list that the code names.  In the middle of a
      list the node is unlinked through its neighbours whichever list that is; at an end, the list
      that holds it keeps pointing at it unless it is the one named. */
  function Unlink(cfg: Config, st: State, s: nat, j: nat): (r: State)
    requires Shape(cfg, st) && s < |st.sels| && j < |cfg.selects[s].alts| && AltAt(cfg, s, j).dir != Skip
    ensures Shape(cfg, r) && r.sels == st.sels && r.win == st.win && r.health == st.health
  {
    var c, me := AltAt(cfg, s, j).chan, Node(s, j);
    var ch := st.chans[c];
    RemoveKeepsNodesOk(cfg, ch.readers, me);
    RemoveKeepsNodesOk(cfg, ch.writers, me);
    PutChan(st, c, if AltAt(cfg, s, j).dir == Recv
                   then ch.(readers := Remove(ch.readers, me))
                   else ch.(writers := Remove(ch.writers, me)))
  }

  /** The wrong list is named for a node at an end: `first_` or `last_` stays behind. */
  predicate LeavesDangling(cfg: Config, st: State, s: nat, j: nat)
    requires Shape(cfg, st) && s < |st.sels| && j < |cfg.selects[s].alts| && AltAt(cfg, s, j).dir != Skip
  {
    AltAt(cfg, s, j).dir == Send && !cfg.intended && AtEnd(st.chans[AltAt(cfg, s, j).chan].writers, Node(s, j))
  }

  /** Whether `clear_wait` has a node to remove for alternative `j`. */
  predicate NeedsClearing(cfg: Config, st: State, s: nat, j: nat, t: nat)
    requires Shape(cfg, st) && s < |st.sels|
  {
    j < |cfg.selects[s].alts| && j != t && j in st.sels[s].nodes && AltAt(cfg, s, j).dir != Skip
  }

  /** One alternative of `clear_wait`. */
  function ClearStep(cfg: Config, st: State, s: nat, j: nat, t: nat): (r: State)
    requires Shape(cfg, st) && s < |st.sels| && PcOk(cfg, s, Clear(j, t))
    ensures Shape(cfg, r)
  {
    var x := st.sels[s];
    if j == |cfg.selects[s].alts| then PutSel(st, s, x.(pc := Done(t)))
    else if !NeedsClearing(cfg, st, s, j, t) then PutSel(st, s, x.(pc := Clear(j + 1, t)))
    else if LeavesDangling(cfg, st, s, j) then st.(health := Dangling)
    else PutSel(Unlink(cfg, st, s, j), s, x.(pc := Clear(j + 1, t)))
  }

  // ---------------------------------------------------------------- the machine

  /** Locking a context that is already held by the same scoped_lock never returns. */
  predicate LocksItself(cfg: Config, st: State, s: nat, i: nat)
    requires Shape(cfg, st) && s < |st.sels| && i < |cfg.selects[s].alts| && AltAt(cfg, s, i).dir != Skip
  {
    var a := AltAt(cfg, s, i);
    var list := Opposite(a.dir, st.chans[a.chan]);
    list != [] && list[0].sel == s && (a.dir == Send || cfg.caps[a.chan] == Some(0))
  }

  predicate Free(st: State, c: nat)
    requires c < |st.chans|
  {
    st.chans[c].owner.None?
  }

  /** Whether the thread of select `s` can take its next step. */
  predicate Enabled(cfg: Config, st: State, s: nat)
    requires Shape(cfg, st)
  {
    && s < |st.sels| && st.health == Ok
    && match st.sels[s].pc
       case Idle => true
       case Submit(i) => i == |cfg.selects[s].alts| || AltAt(cfg, s, i).dir == Skip || Free(st, AltAt(cfg, s, i).chan)
       case Scan(i) => !LocksItself(cfg, st, s, i)
       case Refill(_) => true
       case Match(_, _) => true
       case Store(_, _) => true
       case Publish(_) => true
       case Parked => st.sels[s].promise.Some?
       case Clear(j, t) => NeedsClearing(cfg, st, s, j, t) ==> Free(st, AltAt(cfg, s, j).chan)
       case Done(_) => false
  }

  function Step(cfg: Config, st: State, s: nat): (r: State)
    requires Shape(cfg, st) && Enabled(cfg, st, s)
    ensures Shape(cfg, r)
  {
    match st.sels[s].pc
    case Idle => PutSel(st, s, st.sels[s].(pc := Submit(0)))
    case Submit(i) => SubmitStep(cfg, st, s, i)
    case Scan(i) => ScanStep(cfg, st, s, i)
    case Refill(i) => RefillStep(cfg, st, s, i)
    case Match(i, n) => MatchStep(cfg, st, s, i, n)
    case Store(i, n) => StoreStep(cfg, st, s, i, n)
    case Publish(i) => PublishStep(cfg, st, s, i)
    case Parked => ResumeStep(cfg, st, s, st.sels[s].promise.value)
    case Clear(j, t) => ClearStep(cfg, st, s, j, t)
    case Done(_) => st
  }

  lemma InitShape(cfg: Config)
    requires ConfigOk(cfg)
    ensures Shape(cfg, Init(cfg))
  {}
}
