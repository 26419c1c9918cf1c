/** When an operation of the atomic machine fails or waits: exactly when there is nothing for it to do. */
module Vain {
  import opened Options
  import opened Protocol
  import opened Filters
  import opened Abstract
  import opened Atomic

  // ---------------------------------------------------------------- what queues look like in runs

  /** Only selects that wait are queued. */
  ghost predicate Waiters(cfg: Config, xs: seq<Node>) {
    forall x :: x in xs ==> x.sel < |cfg.selects| && cfg.selects[x.sel].waits
  }

  /** Where reads wait there is nothing to read, writes wait only on bounded channels, and no more is in
      stock than there is room for. */
  ghost predicate Tidy(cfg: Config, q: Queue, cap: Option<nat>) {
    && (q.takers != [] ==> q.stock == [] && q.givers == [])
    && (q.givers != [] ==> cap.Some?)
    && (cap.Some? ==> |q.stock| <= cap.value)
    && Waiters(cfg, q.givers) && Waiters(cfg, q.takers)
  }

  ghost predicate AllTidy(cfg: Config, a: Spec) {
    SpecShape(cfg, a) && forall c :: 0 <= c < |a.queues| ==> Tidy(cfg, a.queues[c], cfg.caps[c])
  }

  lemma WithdrawnTidy(cfg: Config, q: Queue, cap: Option<nat>, s: nat)
    requires Tidy(cfg, q, cap)
    ensures Tidy(cfg, Withdrawn(q, s), cap)
  {
    PrunedOf(q.givers, s);
    PrunedOf(q.takers, s);
  }

  lemma ChooseTidy(cfg: Config, a: Spec, n: Node)
    requires AllTidy(cfg, a) && n.sel < |a.chosen|
    ensures AllTidy(cfg, Choose(a, n))
  {
    forall c | 0 <= c < |a.queues| ensures Tidy(cfg, Choose(a, n).queues[c], cfg.caps[c]) {
      WithdrawnTidy(cfg, a.queues[c], cfg.caps[c], n.sel);
    }
  }

  lemma JoinTidy(cfg: Config, a: Spec, n: Node)
    requires AllTidy(cfg, a) && Allowed(cfg, a, Join(n))
    ensures AllTidy(cfg, Do(cfg, a, Join(n)))
  {}

  lemma MeetTidy(cfg: Config, a: Spec, n: Node)
    requires AllTidy(cfg, a) && Allowed(cfg, a, Meet(n))
    ensures AllTidy(cfg, Do(cfg, a, Meet(n)))
  {
    ChooseTidy(cfg, a, n);
    ChooseTidy(cfg, Choose(a, n), Peer(cfg, a, n));
  }

  lemma ActionTidy(cfg: Config, a: Spec, act: Act)
    requires AllTidy(cfg, a) && Allowed(cfg, a, act)
    ensures AllTidy(cfg, Do(cfg, a, act))
  {
    match act {
      case Join(n) => JoinTidy(cfg, a, n);
      case Meet(n) => MeetTidy(cfg, a, n);
      case Stutter =>
      case Miss(_) =>
      case _ => ChooseTidy(cfg, a, act.n);
    }
  }

  lemma {:induction false} RunsAreTidy(cfg: Config, acts: seq<Act>)
    requires After(cfg, acts).Some?
    ensures AllTidy(cfg, After(cfg, acts).value)
  {
    if acts != [] {
      var most := acts[..|acts| - 1];
      RunsAreTidy(cfg, most);
      ActionTidy(cfg, After(cfg, most).value, acts[|acts| - 1]);
    }
  }

  // ---------------------------------------------------------------- giving up

  /** Nothing can be done for the alternative: it cannot be served from stock, put into it or meet
      anybody, and no write of its channel is on its way into stock. */
  ghost predicate InVain(cfg: Config, a: Spec, n: Node)
    requires Eligible(cfg, a, n)
  {
    && !Allowed(cfg, a, Get(n)) && !Allowed(cfg, a, Put(n)) && !Allowed(cfg, a, Meet(n))
    && forall m :: Allowed(cfg, a, Admit(m)) ==> AltAt(cfg, m.sel, m.tok).chan != AltAt(cfg, n.sel, n.tok).chan
  }

  /** The first that the alternative could meet is of its own select. */
  ghost predicate FacesItself(cfg: Config, a: Spec, n: Node)
    requires Eligible(cfg, a, n) && AltAt(cfg, n.sel, n.tok).dir != Skip
  {
    var q := a.queues[AltAt(cfg, n.sel, n.tok).chan];
    var list := if AltAt(cfg, n.sel, n.tok).dir == Recv then q.givers else q.takers;
    list != [] && list[0].sel == n.sel
  }

  /** Whoever is queued is eligible, on that channel. */
  lemma QueuedIsEligible(cfg: Config, a: Spec, c: nat, x: Node)
    requires Orderly(cfg, a) && c < |a.queues| && (x in a.queues[c].givers || x in a.queues[c].takers)
    ensures Eligible(cfg, a, x) && AltAt(cfg, x.sel, x.tok).dir != Skip && AltAt(cfg, x.sel, x.tok).chan == c
  {
    assert WellQueued(cfg, a.chosen, a.queues[c].givers, c, Send);
    assert WellQueued(cfg, a.chosen, a.queues[c].takers, c, Recv);
  }

  /** A write is on its way into stock exactly if one waits although there is room. */
  lemma InVainMeans(cfg: Config, a: Spec, n: Node)
    requires AllTidy(cfg, a) && Orderly(cfg, a) && Eligible(cfg, a, n) && AltAt(cfg, n.sel, n.tok).dir != Skip
    ensures var c := AltAt(cfg, n.sel, n.tok).chan; var q, cap := a.queues[c], cfg.caps[c];
      InVain(cfg, a, n) <==>
        !Allowed(cfg, a, Get(n)) && !Allowed(cfg, a, Put(n)) && !Allowed(cfg, a, Meet(n))
        && !(q.givers != [] && cap.Some? && |q.stock| < cap.value)
  {
    var q := a.queues[AltAt(cfg, n.sel, n.tok).chan];
    if q.givers != [] {
      assert q.givers[0] in q.givers;
      QueuedIsEligible(cfg, a, AltAt(cfg, n.sel, n.tok).chan, q.givers[0]);
      assert Allowed(cfg, a, Admit(q.givers[0])) <==>
        cfg.caps[AltAt(cfg, n.sel, n.tok).chan].Some? && |q.stock| < cfg.caps[AltAt(cfg, n.sel, n.tok).chan].value;
    }
  }

  lemma NothingInVain(cfg: Config, a: Spec, n: Node)
    requires AllTidy(cfg, a) && Orderly(cfg, a) && Eligible(cfg, a, n) && AltAt(cfg, n.sel, n.tok).dir != Skip
    ensures var alt := AltAt(cfg, n.sel, n.tok);
      Nothing(cfg.caps[alt.chan], alt.dir, a.queues[alt.chan]) <==> InVain(cfg, a, n) && !FacesItself(cfg, a, n)
  {
    var alt := AltAt(cfg, n.sel, n.tok);
    var q := a.queues[alt.chan];
    InVainMeans(cfg, a, n);
    assert Tidy(cfg, q, cfg.caps[alt.chan]);
    var list := if alt.dir == Recv then q.givers else q.takers;
    if list != [] {
      assert list[0] in list;
      QueuedIsEligible(cfg, a, alt.chan, list[0]);
    }
  }

  /** An operation gives up, or waits, exactly if it would be in vain to do anything else. */
  lemma GivesUpOnlyInVain(cfg: Config, acts: seq<Act>, n: Node)
    requires After(cfg, acts).Some? && Eligible(cfg, After(cfg, acts).value, n)
    requires AltAt(cfg, n.sel, n.tok).dir != Skip
    ensures var a, q := After(cfg, acts).value, After(cfg, acts).value.queues[AltAt(cfg, n.sel, n.tok).chan];
      if cfg.selects[n.sel].waits
      then Allowed(cfg, a, Join(n)) <==>
             InVain(cfg, a, n) && !FacesItself(cfg, a, n) && n !in q.givers && n !in q.takers
      else Allowed(cfg, a, Miss(n)) <==> InVain(cfg, a, n)
  {
    var a := After(cfg, acts).value;
    RunsAreTidy(cfg, acts);
    RunsKeepLines(cfg, acts);
    LinesAreOrderly(cfg, a, acts);
    NothingInVain(cfg, a, n);
    assert Tidy(cfg, a.queues[AltAt(cfg, n.sel, n.tok).chan], cfg.caps[AltAt(cfg, n.sel, n.tok).chan]);
  }

  /** On a channel with a buffer nothing passes by the buffer: only a write meets, when the buffer is
      empty and no other write waits. */
  lemma MeetsOverEmptyBuffer(cfg: Config, acts: seq<Act>, n: Node)
    requires After(cfg, acts).Some? && Allowed(cfg, After(cfg, acts).value, Meet(n))
    requires cfg.caps[AltAt(cfg, n.sel, n.tok).chan] != Some(0)
    ensures var q := After(cfg, acts).value.queues[AltAt(cfg, n.sel, n.tok).chan];
      AltAt(cfg, n.sel, n.tok).dir == Send && q.stock == [] && q.givers == []
  {
    RunsAreTidy(cfg, acts);
    assert Tidy(cfg, After(cfg, acts).value.queues[AltAt(cfg, n.sel, n.tok).chan],
      cfg.caps[AltAt(cfg, n.sel, n.tok).chan]);
  }
}
