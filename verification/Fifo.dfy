/** First in, first out, over whole runs. */
module Fifo {
  import opened Options
  import opened Protocol
  import opened Filters
  import opened Invariant
  import opened KeepCtl
  import opened Runs

  /** The values of a sequence of write alternatives. */
  ghost function Inputs(cfg: Config, xs: seq<Node>): seq<Option<Value>> {
    seq(|xs|, k requires 0 <= k < |xs| => Input(cfg, xs[k]))
  }

  ghost function Present(xs: seq<Value>): seq<Option<Value>> {
    seq(|xs|, k requires 0 <= k < |xs| => Some(xs[k]))
  }

  /** What was sent and not yet received: the buffer, and the value on its way into it. */
  ghost function Stock(cfg: Config, st: State, c: nat): seq<Option<Value>>
    requires Shape(cfg, st) && c < |st.chans|
  {
    Present(st.chans[c].buffer)
      + (if Storing(st, c) then [Input(cfg, st.sels[st.chans[c].owner.value].pc.peer)] else [])
  }

  /** What a channel has to offer: its buffer, the value that is on its way into the buffer, and
      the values of the waiting writes that are still available. */
  ghost function Offers(cfg: Config, st: State, c: nat): seq<Option<Value>>
    requires Shape(cfg, st) && c < |st.chans|
  {
    Stock(cfg, st, c) + Inputs(cfg, OpenOf(st.win, st.chans[c].writers))
  }

  /** The values of the writes that the completed reads of a channel were paired with, in the order
      in which those reads completed. */
  ghost function Matched(cfg: Config, st: State, c: nat): seq<Option<Value>>
    requires Shape(cfg, st) && c < |st.chans|
  {
    var ch := st.chans[c];
    Inputs(cfg, if |ch.recv| <= |ch.sent| then ch.sent[..|ch.recv|] else ch.sent)
  }

  lemma {:induction false} InputsAppend(cfg: Config, xs: seq<Node>, ys: seq<Node>)
    ensures Inputs(cfg, xs + ys) == Inputs(cfg, xs) + Inputs(cfg, ys)
  {}

  ghost predicate InOrder(cfg: Config, st: State, c: nat)
    requires Shape(cfg, st) && c < |st.chans|
  {
    var ch := st.chans[c];
    && Inputs(cfg, LiveOf(st.win, ch.arrivedW)) == Matched(cfg, st, c) + Offers(cfg, st, c)
    && ch.recv + OpenOf(st.win, ch.readers) == LiveOf(st.win, ch.arrivedR)
    && |Matched(cfg, st, c)| == |ch.recv|
    && (forall k :: 0 <= k < |ch.recv| - (if Handing(st, c) then 1 else 0) && NodeOk(cfg, ch.recv[k]) ==>
          Received(cfg, st, ch.recv[k]) == Matched(cfg, st, c)[k])
  }

  lemma StockIsSent(cfg: Config, st: State, c: nat)
    requires Shape(cfg, st) && c < |st.chans| && ChanFlow(cfg, st, c)
    ensures var ch := st.chans[c]; |ch.recv| <= |ch.sent| && Inputs(cfg, ch.sent[|ch.recv|..]) == Stock(cfg, st, c)
  {
    var ch := st.chans[c];
    var late := Inputs(cfg, ch.sent[|ch.recv|..]);
    assert |late| == |Stock(cfg, st, c)|;
    assert forall k :: 0 <= k < |ch.buffer| ==> late[k] == Some(ch.buffer[k]);
    assert late == Stock(cfg, st, c);
  }

  /** The completed writes are those matched with reads, then those whose values are in stock. */
  lemma SentInOrder(cfg: Config, st: State, c: nat)
    requires Shape(cfg, st) && c < |st.chans| && ChanFlow(cfg, st, c)
    ensures var ch := st.chans[c];
            Inputs(cfg, ch.sent) + Inputs(cfg, OpenOf(st.win, ch.writers)) == Matched(cfg, st, c) + Offers(cfg, st, c)
  {
    var ch := st.chans[c];
    var m := |ch.recv|;
    StockIsSent(cfg, st, c);
    assert ch.sent == ch.sent[..m] + ch.sent[m..];
    InputsAppend(cfg, ch.sent[..m], ch.sent[m..]);
  }

  lemma FlowInOrder(cfg: Config, st: State, c: nat)
    requires Shape(cfg, st) && c < |st.chans| && ChanQueues(cfg, st, c) && ChanFlow(cfg, st, c) && ChanPairs(cfg, st, c)
    ensures InOrder(cfg, st, c)
  {
    SentInOrder(cfg, st, c);
    InputsAppend(cfg, st.chans[c].sent, OpenOf(st.win, st.chans[c].writers));
  }

  /** Values leave a channel in the order in which the writes arrived that did not complete
      elsewhere: what the reads got, then what is on offer, is what those writes were given.  The
      k-th read to complete received the k-th of these values, and reads complete in the order in
      which they arrived. */
  lemma {:induction false} ValuesInOrder(cfg: Config, sched: seq<nat>, c: nat)
    requires ConfigOk(cfg) && c < |cfg.caps|
    ensures InOrder(cfg, Exec(cfg, sched), c)
  {
    var st := Exec(cfg, sched);
    assert ChanQueues(cfg, st, c) && ChanFlow(cfg, st, c) && ChanPairs(cfg, st, c) by { AssertionsHold(cfg, sched); }
    FlowInOrder(cfg, Exec(cfg, sched), c);
  }

  /** Whoever waits to write to the channel waits for nothing else.  Wait-free selects, such as
      `try_write`, may do as they like. */
  ghost predicate SoloWriters(cfg: Config, c: nat) {
    forall s, i | 0 <= s < |cfg.selects| && 0 <= i < |cfg.selects[s].alts| && cfg.selects[s].alts[i].dir == Send ::
      cfg.selects[s].alts[i].chan == c && cfg.selects[s].waits ==> |cfg.selects[s].alts| == 1
  }

  /** A channel written by plain writes and wait-free selects delivers every value, in the order of
      arrival. */
  lemma {:induction false} FirstInFirstOut(cfg: Config, sched: seq<nat>, c: nat)
    requires ConfigOk(cfg) && c < |cfg.caps| && SoloWriters(cfg, c)
    ensures var st := Exec(cfg, sched); Inputs(cfg, st.chans[c].arrivedW) == Matched(cfg, st, c) + Offers(cfg, st, c)
  {
    ValuesInOrder(cfg, sched, c);
    var st := Exec(cfg, sched);
    assert ChanArrivals(cfg, st, c) by { AssertionsHold(cfg, sched); }
    forall n | n in st.chans[c].arrivedW ensures Live(st.win, n) {
      assert cfg.selects[n.sel].alts[n.tok].dir == Send;
      assert SelCtl(cfg, st, n.sel) by { AssertionsHold(cfg, sched); }
    }
    LiveOfAllLive(st.win, st.chans[c].arrivedW);
  }

  /** From `st` to `r`, channel `c` saw at most the arrival of `me`. */
  ghost predicate Arrives(st: State, r: State, c: nat, me: Node) {
    && c < |st.chans| == |r.chans|
    && r.chans[c].arrivedR in {st.chans[c].arrivedR, st.chans[c].arrivedR + [me]}
    && r.chans[c].arrivedW in {st.chans[c].arrivedW, st.chans[c].arrivedW + [me]}
  }

  lemma ScanArrives(cfg: Config, st: State, s: nat, i: nat, c: nat)
    requires Shape(cfg, st) && s < |st.sels| && PcOk(cfg, s, Scan(i)) && c < |st.chans|
    ensures var r := ScanStep(cfg, st, s, i);
            Arrives(st, r, c, Node(s, i)) && (c != ChanOf(cfg, s, i) ==> r.chans[c] == st.chans[c])
  {}

  lemma OthersDoNotArrive(cfg: Config, st: State, s: nat, c: nat)
    requires Shape(cfg, st) && Enabled(cfg, st, s) && !st.sels[s].pc.Scan? && c < |st.chans|
    ensures var r := Step(cfg, st, s);
      r.chans[c].arrivedR == st.chans[c].arrivedR && r.chans[c].arrivedW == st.chans[c].arrivedW
  {}

  /** The order of arrival is the order in which the alternatives took the channel's mutex: only
      the holder extends it, by its own node, at the back. */
  lemma {:induction false} ArrivalUnderLock(cfg: Config, sched: seq<nat>, s: nat, c: nat)
    requires ConfigOk(cfg) && c < |cfg.caps| && Enabled(cfg, Exec(cfg, sched), s)
    ensures var st := Exec(cfg, sched); var r := Step(cfg, st, s);
            if st.sels[s].pc.Scan? && st.chans[c].owner == Some(s) then Arrives(st, r, c, Node(s, st.sels[s].pc.i))
            else r.chans[c].arrivedR == st.chans[c].arrivedR && r.chans[c].arrivedW == st.chans[c].arrivedW
  {
    var st := Exec(cfg, sched);
    assert SelCtl(cfg, st, s) by { AssertionsHold(cfg, sched); }
    if st.sels[s].pc.Scan? { ScanArrives(cfg, st, s, st.sels[s].pc.i, c); } else { OthersDoNotArrive(cfg, st, s, c); }
  }
}
