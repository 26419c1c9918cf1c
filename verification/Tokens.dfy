/**
 Operations, alternatives and tokens.  A select is called with a list of operations, each on one or
 more channels; internally an alternative is named by one number, its token: the base token of its
 operation, which is the number of alternatives of all operations before, plus its place there.
 */
module Tokens {
  import opened Options
  import opened Protocol
  import opened Invariant
  import opened Runs

  datatype Op = ReadOp(chans: seq<nat>) | WriteOp(value: Value, chans: seq<nat>) | NothingOp

  function Alternatives(op: Op): nat {
    if op.NothingOp? then 1 else |op.chans|
  }

  /** Number of alternatives of the first `k` operations. */
  function Base(ops: seq<Op>, k: nat): nat
    requires k <= |ops|
  {
    if k == 0 then 0 else Base(ops, k - 1) + Alternatives(ops[k - 1])
  }

  /** `token` names alternative `alt` of operation `op`. */
  predicate Names(ops: seq<Op>, token: nat, op: nat, alt: nat) {
    op < |ops| && alt < Alternatives(ops[op]) && token == Base(ops, op) + alt
  }

  lemma {:induction false} BaseGrows(ops: seq<Op>, j: nat, k: nat)
    requires j < k <= |ops|
    ensures Base(ops, j) + Alternatives(ops[j]) <= Base(ops, k)
  {
    if j < k - 1 { BaseGrows(ops, j, k - 1); }
  }

  /** No token names two alternatives. */
  lemma {:induction false} NamesOne(ops: seq<Op>, token: nat, j: nat, a: nat, k: nat, b: nat)
    requires Names(ops, token, j, a) && Names(ops, token, k, b)
    ensures j == k && a == b
  {
    if j < k { BaseGrows(ops, j, k); } else if k < j { BaseGrows(ops, k, j); }
  }

  /** Every token below the number of all alternatives names one. */
  lemma {:induction false} NamesSome(ops: seq<Op>, token: nat, n: nat) returns (op: nat, alt: nat)
    requires n <= |ops| && token < Base(ops, n)
    ensures op < n && Names(ops, token, op, alt)
  {
    if token < Base(ops, n - 1) {
      op, alt := NamesSome(ops, token, n - 1);
    } else {
      op, alt := n - 1, token - Base(ops, n - 1);
    }
  }

  /** The running sum that numbers the operations: each takes as many tokens as it has channels, and
      `nothing` takes one. */
  method BaseTokens(ops: seq<Op>) returns (bases: seq<nat>)
    ensures |bases| == |ops| && (ops != [] ==> bases[0] == 0)
    ensures forall k :: 0 < k < |ops| ==>
      bases[k] == bases[k - 1] + if ops[k - 1].NothingOp? then 1 else |ops[k - 1].chans|
    ensures forall k :: 0 <= k < |ops| ==> bases[k] == Base(ops, k)
  {
    var tokenBase := 0;
    bases := [];
    for k := 0 to |ops|
      invariant |bases| == k && tokenBase == Base(ops, k)
      invariant forall j :: 0 <= j < k ==> bases[j] == Base(ops, j)
    {
      bases := bases + [tokenBase];
      tokenBase := tokenBase + Alternatives(ops[k]);
    }
    forall k | 0 < k < |ops| ensures bases[k] == bases[k - 1] + Alternatives(ops[k - 1]) {
      assert bases[k] == Base(ops, k) && bases[k - 1] == Base(ops, k - 1);
    }
  }

  /** The decoding after resumption: every operation is asked whether the token is one of its own,
      and the one whose it is sets the result.  Exactly one does, and with the right alternative. */
  method Decode(ops: seq<Op>, successToken: nat) returns (results: seq<(nat, nat)>)
    requires successToken < Base(ops, |ops|)
    ensures |results| == 1 && Names(ops, successToken, results[0].0, results[0].1)
    ensures var (op, alt) := results[0]; if ops[op].NothingOp? then alt == 0 else alt < |ops[op].chans|
  {
    var bases := BaseTokens(ops);
    ghost var op, alt := NamesSome(ops, successToken, |ops|);
    results := [];
    for k := 0 to |ops|
      invariant results == if op < k then [(op, alt)] else []
    {
      if bases[k] <= successToken < bases[k] + Alternatives(ops[k]) {
        NamesOne(ops, successToken, k, successToken - bases[k], op, alt);
        results := results + [(k, successToken - bases[k])];
      }
    }
  }

  // ---------------------------------------------------------------- from operations to alternatives

  /** Alternative `a` of operation number `o`. */
  function AltOf(op: Op, o: nat, a: nat): Alt
    requires a < Alternatives(op)
  {
    match op
    case ReadOp(chans) => Alt(Recv, chans[a], o)
    case WriteOp(_, chans) => Alt(Send, chans[a], o)
    case NothingOp => Alt(Skip, 0, o)
  }

  /** The alternatives of the first `k` operations, one after the other. */
  function Flatten(ops: seq<Op>, k: nat): (alts: seq<Alt>)
    requires k <= |ops|
    ensures |alts| == Base(ops, k)
  {
    if k == 0 then [] else
    Flatten(ops, k - 1)
    + seq(Alternatives(ops[k - 1]), a requires 0 <= a < Alternatives(ops[k - 1]) => AltOf(ops[k - 1], k - 1, a))
  }

  /** A token is the place of the alternative that it names. */
  lemma {:induction false} TokenIsPlace(ops: seq<Op>, token: nat, op: nat, alt: nat, k: nat)
    requires op < k <= |ops| && Names(ops, token, op, alt)
    ensures token < Base(ops, k) && Flatten(ops, k)[token] == AltOf(ops[op], op, alt)
  {
    if op < k - 1 {
      BaseGrows(ops, op, k - 1);
      TokenIsPlace(ops, token, op, alt, k - 1);
    }
  }

  function InputOf(op: Op): Option<Value> {
    if op.WriteOp? then Some(op.value) else None
  }

  /** The select call with these operations. */
  function FromOps(ops: seq<Op>, waits: bool): SelectSpec {
    SelectSpec(Flatten(ops, |ops|), seq(|ops|, o requires 0 <= o < |ops| => InputOf(ops[o])), waits)
  }

  /** The alternatives of operation `o` are its channels, in their order and side by side, from place `b`. */
  predicate Tried(alts: seq<Alt>, b: nat, dir: Dir, chans: seq<nat>, o: nat) {
    && b + |chans| <= |alts|
    && (forall a :: 0 <= a < |chans| ==> alts[b + a] == Alt(dir, chans[a], o))
    && (forall t :: 0 <= t < |alts| && alts[t].op == o ==> b <= t < b + |chans|)
  }

  lemma {:induction false} OneAfterTheOther(ops: seq<Op>, o: nat, dir: Dir, chans: seq<nat>)
    requires o < |ops| && Alternatives(ops[o]) == |chans|
    requires forall a :: 0 <= a < |chans| ==> AltOf(ops[o], o, a) == Alt(dir, chans[a], o)
    ensures Tried(Flatten(ops, |ops|), Base(ops, o), dir, chans, o)
  {
    var alts, b := Flatten(ops, |ops|), Base(ops, o);
    BaseGrows(ops, o, |ops|);
    forall a | 0 <= a < |chans| ensures alts[b + a] == Alt(dir, chans[a], o) {
      TokenIsPlace(ops, b + a, o, a, |ops|);
    }
    forall t | 0 <= t < |alts| && alts[t].op == o ensures b <= t < b + |chans| {
      var p, a := NamesSome(ops, t, |ops|);
      TokenIsPlace(ops, t, p, a, |ops|);
    }
  }

  /** The select call that is made of some operations has the value of each write, waits or not as
      demanded, and tries for each operation its channels, all of them, in their order, and no others;
      `nothing` is one alternative. */
  lemma {:induction false} EveryChannelIsTried(ops: seq<Op>, waits: bool, o: nat) returns (b: nat)
    requires o < |ops|
    ensures FromOps(ops, waits).waits == waits && |FromOps(ops, waits).inputs| == |ops|
    ensures var alts, input := FromOps(ops, waits).alts, FromOps(ops, waits).inputs[o];
      match ops[o]
      case ReadOp(chans) => Tried(alts, b, Recv, chans, o) && input == None
      case WriteOp(v, chans) => Tried(alts, b, Send, chans, o) && input == Some(v)
      case NothingOp => Tried(alts, b, Skip, [0], o) && input == None
  {
    b := Base(ops, o);
    match ops[o] {
      case ReadOp(chans) => OneAfterTheOther(ops, o, Recv, chans);
      case WriteOp(_, chans) => OneAfterTheOther(ops, o, Send, chans);
      case NothingOp => OneAfterTheOther(ops, o, Skip, [0]);
    }
  }

  /** Operations are tried in the order of the arguments. */
  lemma {:induction false} OperationsInOrder(ops: seq<Op>, waits: bool, i: nat, j: nat)
    requires i <= j < |FromOps(ops, waits).alts|
    ensures FromOps(ops, waits).alts[i].op <= FromOps(ops, waits).alts[j].op < |ops|
  {
    var p, a := NamesSome(ops, i, |ops|);
    var q, b := NamesSome(ops, j, |ops|);
    TokenIsPlace(ops, i, p, a, |ops|);
    TokenIsPlace(ops, j, q, b, |ops|);
    if q < p { BaseGrows(ops, q, p); }
  }

  /** An operation whose last alternative never waits. */
  predicate AlwaysWaitfree(caps: seq<Option<nat>>, op: Op) {
    match op
    case ReadOp(_) => false
    case WriteOp(_, chans) => chans != [] && chans[|chans| - 1] < |caps| && caps[chans[|chans| - 1]].None?
    case NothingOp => true
  }

  /** At least one channel, existing channels, and only the last channel of a write is unbounded. */
  predicate OpOk(caps: seq<Option<nat>>, op: Op) {
    match op
    case ReadOp(chans) => chans != [] && forall a :: 0 <= a < |chans| ==> chans[a] < |caps|
    case WriteOp(_, chans) => chans != [] && (forall a :: 0 <= a < |chans| ==> chans[a] < |caps|)
                              && (forall a :: 0 <= a < |chans| - 1 ==> caps[chans[a]].Some?)
    case NothingOp => true
  }

  /** What the types of `select` (`waits`) and `select_ready` demand of their arguments. */
  predicate Selection(caps: seq<Option<nat>>, ops: seq<Op>, waits: bool) {
    && |ops| > 0
    && (forall o :: 0 <= o < |ops| ==> OpOk(caps, ops[o]))
    && (forall o :: 0 <= o < |ops| ==> (AlwaysWaitfree(caps, ops[o]) <==> !waits && o == |ops| - 1))
  }

  lemma {:induction false} AltOfIsOk(cfg: Config, ops: seq<Op>, waits: bool, o: nat, a: nat)
    requires Selection(cfg.caps, ops, waits) && o < |ops| && a < Alternatives(ops[o])
    ensures AltOk(cfg, FromOps(ops, waits), AltOf(ops[o], o, a))
  {
    assert OpOk(cfg.caps, ops[o]);
  }

  /** Legal calls make legal configurations. */
  lemma {:induction false} SelectionIsOk(cfg: Config, ops: seq<Op>, waits: bool)
    requires Selection(cfg.caps, ops, waits)
    ensures SpecOk(cfg, FromOps(ops, waits))
  {
    var spec, last := FromOps(ops, waits), |ops| - 1;
    assert OpOk(cfg.caps, ops[last]);
    forall i | 0 <= i < |spec.alts| ensures AltOk(cfg, spec, spec.alts[i]) {
      var o, a := NamesSome(ops, i, |ops|);
      TokenIsPlace(ops, i, o, a, |ops|);
      AltOfIsOk(cfg, ops, waits, o, a);
    }
    var lastAlt := Alternatives(ops[last]) - 1;
    TokenIsPlace(ops, |spec.alts| - 1, last, lastAlt, |ops|);
    assert AltOk(cfg, spec, AltOf(ops[last], last, lastAlt));
  }

  /** The channels of an operation exist, and there is at least one. */
  predicate OnChannels(caps: seq<Option<nat>>, op: Op) {
    op.NothingOp? || (op.chans != [] && forall a :: 0 <= a < |op.chans| ==> op.chans[a] < |caps|)
  }

  /** The alternative is sure not to wait if and only if it is the last one and the select does not wait. */
  predicate InTurn(cfg: Config, alts: seq<Alt>, waits: bool, t: nat)
    requires t < |alts|
  {
    && (alts[t].dir != Skip ==> alts[t].chan < |cfg.caps|)
    && (NeverWaits(cfg, alts[t]) <==> !waits && t == |alts| - 1)
  }

  lemma LastOfLast(ops: seq<Op>, token: nat, op: nat, alt: nat)
    requires Names(ops, token, op, alt) && Alternatives(ops[|ops| - 1]) > 0
    ensures token == Base(ops, |ops|) - 1 <==> op == |ops| - 1 && alt == Alternatives(ops[op]) - 1
  {
    if op < |ops| - 1 { BaseGrows(ops, op, |ops| - 1); }
  }

  lemma {:induction false} InTurnIsLegal(cfg: Config, ops: seq<Op>, waits: bool, o: nat)
    requires o < |ops| && OnChannels(cfg.caps, ops[o]) && OnChannels(cfg.caps, ops[|ops| - 1])
    requires forall t :: 0 <= t < |FromOps(ops, waits).alts| ==> InTurn(cfg, FromOps(ops, waits).alts, waits, t)
    ensures OpOk(cfg.caps, ops[o]) && (AlwaysWaitfree(cfg.caps, ops[o]) <==> !waits && o == |ops| - 1)
  {
    var alts, n := FromOps(ops, waits).alts, Alternatives(ops[o]);
    forall a: nat | a < n
      ensures NeverWaits(cfg, AltOf(ops[o], o, a)) <==> !waits && o == |ops| - 1 && a == n - 1
    {
      TokenIsPlace(ops, Base(ops, o) + a, o, a, |ops|);
      LastOfLast(ops, Base(ops, o) + a, o, a);
      assert InTurn(cfg, alts, waits, Base(ops, o) + a);
    }
    assert n > 0 && (NeverWaits(cfg, AltOf(ops[o], o, n - 1)) <==> !waits && o == |ops| - 1);
    if ops[o].WriteOp? {
      forall a: nat | a < n - 1 ensures cfg.caps[ops[o].chans[a]].Some? {
        assert !NeverWaits(cfg, AltOf(ops[o], o, a));
      }
    }
  }

  lemma {:induction false} LegalIsInTurn(cfg: Config, ops: seq<Op>, waits: bool, t: nat)
    requires Selection(cfg.caps, ops, waits) && t < |FromOps(ops, waits).alts|
    ensures InTurn(cfg, FromOps(ops, waits).alts, waits, t)
  {
    var o, a := NamesSome(ops, t, |ops|);
    assert OpOk(cfg.caps, ops[o]) && OpOk(cfg.caps, ops[|ops| - 1]);
    TokenIsPlace(ops, t, o, a, |ops|);
    LastOfLast(ops, t, o, a);
  }

  /** The demands on the arguments, for operations on existing channels, are exactly this: there is one,
      and no alternative but the last one of `select_ready` is sure not to wait, and that one is. */
  lemma {:induction false} SelectionIsExact(cfg: Config, ops: seq<Op>, waits: bool)
    requires forall o :: 0 <= o < |ops| ==> OnChannels(cfg.caps, ops[o])
    ensures var alts := FromOps(ops, waits).alts;
      Selection(cfg.caps, ops, waits) <==> ops != [] && forall t :: 0 <= t < |alts| ==> InTurn(cfg, alts, waits, t)
  {
    var alts := FromOps(ops, waits).alts;
    if Selection(cfg.caps, ops, waits) {
      forall t | 0 <= t < |alts| ensures InTurn(cfg, alts, waits, t) { LegalIsInTurn(cfg, ops, waits, t); }
    }
    if ops != [] && forall t :: 0 <= t < |alts| ==> InTurn(cfg, alts, waits, t) {
      forall o | 0 <= o < |ops|
        ensures OpOk(cfg.caps, ops[o]) && (AlwaysWaitfree(cfg.caps, ops[o]) <==> !waits && o == |ops| - 1)
      {
        InTurnIsLegal(cfg, ops, waits, o);
      }
    }
  }

  /** Where a submission goes on that was overtaken in operation `op`: at the next operation. */
  lemma NextOpIsNext(ops: seq<Op>, waits: bool, token: nat, op: nat, alt: nat)
    requires Names(ops, token, op, alt)
    ensures token < |FromOps(ops, waits).alts| && NextOp(FromOps(ops, waits).alts, token) == Base(ops, op + 1)
  {
    var alts := FromOps(ops, waits).alts;
    TokenIsPlace(ops, token, op, alt, |ops|);
    var j, next := NextOp(alts, token), Base(ops, op + 1);
    if op + 1 < |ops| { BaseGrows(ops, op, |ops|); }
    if j < next {
      TokenIsPlace(ops, j, op, j - Base(ops, op), |ops|);
    } else if next < j {
      var o, b := NamesSome(ops, next, |ops|);
      if o < op { BaseGrows(ops, o, op); }
      TokenIsPlace(ops, next, o, b, |ops|);
    }
  }

  /** The token with which a select returns names, among its operations, the channel and the
      direction for which it was claimed; any other reading of it is excluded. */
  lemma {:induction false} TokensRoundTrip(cfg: Config, sched: seq<nat>, s: nat, ops: seq<Op>, waits: bool, t: nat)
    returns (o: nat, a: nat)
    requires ConfigOk(cfg) && s < |cfg.selects| && cfg.selects[s] == FromOps(ops, waits)
    requires Exec(cfg, sched).sels[s].pc == Done(t)
    ensures Names(ops, t, o, a) && forall p, b :: Names(ops, t, p, b) ==> p == o && b == a
    ensures var w := Exec(cfg, sched).win[s]; w.Some? && w.value.tok == t && t < |cfg.selects[s].alts|
    ensures match ops[o]
      case ReadOp(chans) => a < |chans| && AltAt(cfg, s, t) == Alt(Recv, chans[a], o)
      case WriteOp(_, chans) => a < |chans| && AltAt(cfg, s, t) == Alt(Send, chans[a], o)
      case NothingOp => a == 0 && AltAt(cfg, s, t).dir == Skip && AltAt(cfg, s, t).op == o
  {
    assert SelCtl(cfg, Exec(cfg, sched), s) by { AssertionsHold(cfg, sched); }
    o, a := NamesSome(ops, t, |ops|);
    TokenIsPlace(ops, t, o, a, |ops|);
    forall p, b | Names(ops, t, p, b) ensures p == o && b == a { NamesOne(ops, t, p, b, o, a); }
  }
}
