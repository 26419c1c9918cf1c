/** The shared state as an object that threads step, one after the other. */
module Threads {
  import opened Protocol
  import opened Invariant
  import opened Bystanders
  import opened Runs
  import opened Progress
  import opened Divergence

  /** No select meets itself, and no clean-up of a write goes wrong. */
  ghost predicate Sound(cfg: Config) {
    && ConfigOk(cfg) && NoSelfMatch(cfg)
    && (cfg.intended || forall s :: 0 <= s < |cfg.selects| ==> Safe(cfg.selects[s]))
  }

  /** Where the run is after `sched`, and that all is well. */
  ghost predicate LeadsTo(cfg: Config, sched: seq<nat>, st: State) {
    Sound(cfg) && st == Exec(cfg, sched)
  }

  lemma {:induction false} ReachedIsSound(cfg: Config, sched: seq<nat>, st: State)
    requires LeadsTo(cfg, sched, st)
    ensures Inv(cfg, st) && st.health == Ok
  {
    AssertionsHold(cfg, sched);
    SafeNeverDangles(cfg, sched);
  }

  lemma {:induction false} ReachedNext(cfg: Config, sched: seq<nat>, st: State, s: nat)
    requires LeadsTo(cfg, sched, st) && Shape(cfg, st) && Enabled(cfg, st, s)
    ensures LeadsTo(cfg, sched + [s], Step(cfg, st, s))
  {
    assert (sched + [s])[..|sched + [s]| - 1] == sched;
  }

  class Machine {
    const cfg: Config
    var st: State
    /** The run so far. */
    ghost var sched: seq<nat>

    ghost predicate Valid()
      reads this
    {
      Shape(cfg, st) && LeadsTo(cfg, sched, st)
    }

    constructor (cfg: Config)
      requires Sound(cfg)
      ensures Valid() && this.cfg == cfg && sched == []
    {
      this.cfg := cfg;
      st := Init(cfg);
      sched := [];
      new;
      InitShape(cfg);
    }

    /** One atomic step of the thread of select `s`. */
    method Advance(s: nat)
      requires Valid() && Enabled(cfg, st, s)
      modifies this
      ensures Valid() && st == Step(cfg, old(st), s) && sched == old(sched) + [s]
      ensures Measure(cfg, st) < Measure(cfg, old(st))
    {
      ReachedIsSound(cfg, sched, st);
      StepDecreases(cfg, st, s);
      ReachedNext(cfg, sched, st, s);
      st := Step(cfg, st, s);
      sched := sched + [s];
    }

    /** Whatever the threads of all other selects may do. */
    method Interfere(s: nat)
      requires Valid() && s < |st.sels|
      modifies this
      ensures Valid() && Undisturbed(old(st), st, s) && old(sched) <= sched && Measure(cfg, st) <= Measure(cfg, old(st))
    {
      var go: bool := *;
      while go
        invariant Valid() && Undisturbed(old(st), st, s) && old(sched) <= sched
        invariant Measure(cfg, st) <= Measure(cfg, old(st))
        decreases Measure(cfg, st)
      {
        var p: nat := *;
        if p == s || !Enabled(cfg, st, p) { return; }
        ReachedIsSound(cfg, sched, st);
        OthersSpare(cfg, st, p, s);
        ThenUndisturbed(old(st), st, Step(cfg, st, p), s);
        Advance(p);
        go := *;
      }
    }
  }
}
