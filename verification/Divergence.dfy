/**
 The clean-up of a waiting write works on the channel's reader list, while its node is in the
 writer list.  Exactly which selects that can hurt.
 */
module Divergence {
  import opened Options
  import opened Protocol
  import opened Invariant
  import opened Keep
  import opened Runs
  import opened Stage
  import opened Doomed
  import opened Acts

  /** What a caller can check: no write waits beside another alternative. */
  ghost predicate Safe(spec: SelectSpec) {
    !spec.waits || |spec.alts| == 1 || forall i :: 0 <= i < |spec.alts| ==> spec.alts[i].dir != Send
  }

  /** If every select is safe, or the clean-up worked on the list it should, no list is ever left
      with a pointer to a dead node. */
  lemma {:induction false} SafeNeverDangles(cfg: Config, sched: seq<nat>)
    requires ConfigOk(cfg)
    requires cfg.intended || forall s :: 0 <= s < |cfg.selects| ==> Safe(cfg.selects[s])
    ensures Exec(cfg, sched).health == Ok
  {
    if sched != [] {
      SafeNeverDangles(cfg, sched[..|sched| - 1]);
      var st, s := Exec(cfg, sched[..|sched| - 1]), sched[|sched| - 1];
      AssertionsHold(cfg, sched[..|sched| - 1]);
      if Enabled(cfg, st, s) {
        KeepStep(cfg, st, s);
        assert SelCtl(cfg, st, s);
      }
    }
  }

  // ---------------------------------------------------------------- every unsafe select can be hit

  function Attempts(n: nat, d: nat, v: Value): seq<SelectSpec> {
    seq(n, _ => TryWrite(d, v))
  }

  function Counterparts(alts: seq<Alt>, v: Value): seq<SelectSpec> {
    seq(|alts|, i requires 0 <= i < |alts| => Counterpart(alts[i], v))
  }

  /** One that makes alternative `a` ready, or waits for it. */
  function Enticer(caps: seq<Option<nat>>, a: Alt, v: Value): SelectSpec {
    if a.dir == Send then PlainRead(a.chan)
    else if a.chan < |caps| && caps[a.chan] == Some(0) then PlainWrite(a.chan, v)
    else TryWrite(a.chan, v)
  }

  /** The select is legal on these channels, waits, and is not safe. */
  ghost predicate Unsafe(caps: seq<Option<nat>>, spec: SelectSpec) {
    SpecOk(Config(caps, [], false), spec) && !Safe(spec)
  }

  /** The given select and others that are safe. */
  ghost predicate Legal(cfg: Config, caps: seq<Option<nat>>, spec: SelectSpec) {
    && ConfigOk(cfg) && cfg.caps == caps && !cfg.intended && 0 < |cfg.selects| && cfg.selects[0] == spec
    && forall s :: 0 < s < |cfg.selects| ==> Safe(cfg.selects[s])
  }

  lemma SpecOkAnyway(caps: seq<Option<nat>>, spec: SelectSpec, cfg: Config)
    requires SpecOk(Config(caps, [], false), spec) && cfg.caps == caps
    ensures SpecOk(cfg, spec)
  {
    forall n | 0 <= n < |spec.alts| ensures AltOk(cfg, spec, spec.alts[n]) {
      assert AltOk(Config(caps, [], false), spec, spec.alts[n]);
    }
  }

  lemma CounterpartIsLegal(caps: seq<Option<nat>>, a: Alt, v: Value, cfg: Config)
    requires a.chan < |caps| && a.dir != Skip && cfg.caps == caps
    ensures SpecOk(cfg, Counterpart(a, v)) && Safe(Counterpart(a, v)) && !Counterpart(a, v).waits
  {}

  /** The counterparts stand at the end of the cast. */
  lemma {:induction false} CounterpartsAreLegal(caps: seq<Option<nat>>, spec: SelectSpec, cfg: Config,
        front: seq<SelectSpec>, k: nat, v: Value)
    requires SpecOk(Config(caps, [], false), spec) && spec.waits && k <= |spec.alts|
    requires cfg.caps == caps && cfg.selects == front + Counterparts(spec.alts[k..], v)
    ensures forall m :: k <= m < |spec.alts| ==> cfg.selects[|front| + m - k] == Counterpart(spec.alts[m], v)
    ensures forall q ::
      |front| <= q < |cfg.selects| ==> SpecOk(cfg, cfg.selects[q]) && Safe(cfg.selects[q]) && !cfg.selects[q].waits
  {
    forall q | |front| <= q < |cfg.selects|
      ensures SpecOk(cfg, cfg.selects[q]) && Safe(cfg.selects[q]) && !cfg.selects[q].waits
    {
      var a := spec.alts[k + q - |front|];
      assert cfg.selects[q] == Counterpart(a, v) && AltOk(Config(caps, [], false), spec, a);
      CounterpartIsLegal(caps, a, v, cfg);
    }
  }

  /** The cast of the first act, member by member. */
  lemma {:induction false} ReadFirstCast(caps: seq<Option<nat>>, spec: SelectSpec, x: nat, d: nat, w: nat, v: Value)
    returns (cfg: Config)
    requires SpecOk(Config(caps, [], false), spec) && spec.waits && w < |spec.alts| && 2 <= x
    ensures cfg.caps == caps && !cfg.intended && |cfg.selects| == x + |spec.alts| - w && cfg.selects[0] == spec
    ensures cfg.selects[1] == TryWrite(spec.alts[0].chan, v)
    ensures (forall q :: 2 <= q < x ==> cfg.selects[q] == TryWrite(d, v)) && cfg.selects[x] == PlainWrite(d, v)
    ensures forall m :: w < m < |spec.alts| ==> cfg.selects[x + m - w] == Counterpart(spec.alts[m], v)
    ensures forall q ::
      x < q < |cfg.selects| ==> SpecOk(cfg, cfg.selects[q]) && Safe(cfg.selects[q]) && !cfg.selects[q].waits
  {
    var front := [spec, TryWrite(spec.alts[0].chan, v)] + Attempts(x - 2, d, v) + [PlainWrite(d, v)];
    cfg := Config(caps, front + Counterparts(spec.alts[w + 1..], v), false);
    CounterpartsAreLegal(caps, spec, cfg, front, w + 1, v);
    forall q | 2 <= q < x ensures cfg.selects[q] == TryWrite(d, v) { assert cfg.selects[q] == front[q]; }
    forall m | w < m < |spec.alts| ensures cfg.selects[x + m - w] == Counterpart(spec.alts[m], v) {
      assert cfg.selects[|front| + m - (w + 1)] == Counterpart(spec.alts[m], v);
    }
  }

  lemma ReadFirstIsLegal(caps: seq<Option<nat>>, spec: SelectSpec, w: nat, v: Value)
    returns (cfg: Config, x: nat, d: nat)
    requires Unsafe(caps, spec) && 0 < w < |spec.alts| && spec.alts[w].dir == Send
    requires forall k :: 0 <= k < w ==> spec.alts[k].dir == Recv
    ensures Legal(cfg, caps, spec) && ReadFirst(cfg, x, d, w, v)
  {
    assert AltOk(Config(caps, [], false), spec, spec.alts[0]) && AltOk(Config(caps, [], false), spec, spec.alts[w]);
    d := spec.alts[w].chan;
    x := 2 + caps[d].value;
    cfg := ReadFirstCast(caps, spec, x, d, w, v);
    SpecOkAnyway(caps, spec, cfg);
  }

  /** The cast of the second act, member by member. */
  lemma {:induction false} SameTwiceCast(caps: seq<Option<nat>>, spec: SelectSpec, x: nat, d: nat, v: Value)
    returns (cfg: Config)
    requires SpecOk(Config(caps, [], false), spec) && spec.waits && 2 <= |spec.alts| && 2 <= x
    ensures cfg.caps == caps && !cfg.intended && |cfg.selects| == x + |spec.alts| - 1 && cfg.selects[0] == spec
    ensures (forall q :: 1 <= q < x - 1 ==> cfg.selects[q] == TryWrite(d, v)) && cfg.selects[x - 1] == TryRead(d)
    ensures cfg.selects[x] == PlainWrite(d, v)
    ensures forall m :: 1 < m < |spec.alts| ==> cfg.selects[x + m - 1] == Counterpart(spec.alts[m], v)
    ensures forall q ::
      x < q < |cfg.selects| ==> SpecOk(cfg, cfg.selects[q]) && Safe(cfg.selects[q]) && !cfg.selects[q].waits
  {
    var front := [spec] + Attempts(x - 2, d, v) + [TryRead(d), PlainWrite(d, v)];
    cfg := Config(caps, front + Counterparts(spec.alts[2..], v), false);
    CounterpartsAreLegal(caps, spec, cfg, front, 2, v);
    forall q | 1 <= q < x - 1 ensures cfg.selects[q] == TryWrite(d, v) { assert cfg.selects[q] == front[q]; }
    forall m | 1 < m < |spec.alts| ensures cfg.selects[x + m - 1] == Counterpart(spec.alts[m], v) {
      assert cfg.selects[|front| + m - 2] == Counterpart(spec.alts[m], v);
    }
  }

  lemma SameTwiceIsLegal(caps: seq<Option<nat>>, spec: SelectSpec, v: Value) returns (cfg: Config, x: nat, d: nat)
    requires Unsafe(caps, spec)
    requires forall k :: 0 <= k < 2 ==> spec.alts[k].dir == Send && spec.alts[k].chan == spec.alts[0].chan
    ensures Legal(cfg, caps, spec) && SameTwice(cfg, x, d, v)
  {
    assert AltOk(Config(caps, [], false), spec, spec.alts[0]);
    d := spec.alts[0].chan;
    x := 2 + caps[d].value;
    cfg := SameTwiceCast(caps, spec, x, d, v);
    SpecOkAnyway(caps, spec, cfg);
  }

  lemma {:induction false} WriteFirstIsLegal(caps: seq<Option<nat>>, spec: SelectSpec, v: Value)
    returns (cfg: Config, x: nat, c: nat)
    requires Unsafe(caps, spec) && spec.alts[0].dir == Send
    requires (spec.alts[1].dir == Send ==> spec.alts[1].chan != spec.alts[0].chan)
    ensures Legal(cfg, caps, spec) && WriteFirst(cfg, x, c)
  {
    var plain := Config(caps, [], false);
    assert AltOk(plain, spec, spec.alts[0]) && AltOk(plain, spec, spec.alts[1]);
    c := spec.alts[0].chan;
    x := 1 + caps[c].value;
    cfg := Config(caps, [spec] + Attempts(x - 1, c, v) + [PlainWrite(c, v), Enticer(caps, spec.alts[1], v)], false);
    SpecOkAnyway(caps, spec, cfg);
    forall q | 1 <= q < x ensures cfg.selects[q] == TryWrite(c, v) {
      assert cfg.selects[q] == Attempts(x - 1, c, v)[q - 1];
    }
    forall s | 0 < s < |cfg.selects| ensures SpecOk(cfg, cfg.selects[s]) && Safe(cfg.selects[s]) {}
  }

  /** Its first write. */
  lemma FirstWrite(caps: seq<Option<nat>>, spec: SelectSpec) returns (w: nat, v: Value)
    requires Unsafe(caps, spec)
    ensures w < |spec.alts| && spec.alts[w].dir == Send && forall k :: 0 <= k < w ==> spec.alts[k].dir == Recv
  {
    var m: nat :| m < |spec.alts| && spec.alts[m].dir == Send;
    w := 0;
    while spec.alts[w].dir != Send
      invariant w <= m && forall k :: 0 <= k < w ==> spec.alts[k].dir == Recv
      decreases m - w
    {
      assert AltOk(Config(caps, [], false), spec, spec.alts[w]);
      w := w + 1;
    }
    assert AltOk(Config(caps, [], false), spec, spec.alts[w]);
    v := spec.inputs[spec.alts[w].op].value;
  }

  /** In one of the three acts a list breaks. */
  lemma SomeActBreaks(caps: seq<Option<nat>>, spec: SelectSpec) returns (cfg: Config, r: State)
    requires Unsafe(caps, spec)
    ensures Legal(cfg, caps, spec) && Reached(cfg)(r) && r.health == Dangling
  {
    var w, v := FirstWrite(caps, spec);
    var x, d;
    if w > 0 {
      cfg, x, d := ReadFirstIsLegal(caps, spec, w, v);
      ReachedIsClosed(cfg);
      r := ReadFirstBreaks(cfg, Reached(cfg), x, d, w, v);
    } else if spec.alts[1].dir == Send && spec.alts[1].chan == spec.alts[0].chan {
      cfg, x, d := SameTwiceIsLegal(caps, spec, v);
      ReachedIsClosed(cfg);
      r := SameTwiceBreaks(cfg, Reached(cfg), x, d, v);
    } else {
      cfg, x, d := WriteFirstIsLegal(caps, spec, v);
      ReachedIsClosed(cfg);
      r := WriteFirstBreaks(cfg, Reached(cfg), x, d);
    }
  }

  /** Every select that is not safe leaves a dangling pointer in some run, on channels of the given sizes
      and among selects that are all safe. */
  lemma UnsafeCanDangle(caps: seq<Option<nat>>, spec: SelectSpec) returns (cfg: Config, sched: seq<nat>)
    requires SpecOk(Config(caps, [], false), spec) && !Safe(spec)
    ensures ConfigOk(cfg) && !cfg.intended && cfg.caps == caps && |cfg.selects| > 0 && cfg.selects[0] == spec
    ensures forall s :: 0 < s < |cfg.selects| ==> Safe(cfg.selects[s])
    ensures Exec(cfg, sched).health == Dangling
  {
    var r;
    cfg, r := SomeActBreaks(caps, spec);
    sched :| Exec(cfg, sched) == r;
  }
}
