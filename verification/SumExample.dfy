/**
 The example program that sums an array with many workers: `sum_task` hands out numbers over one
 unbuffered channel and collects partial sums over another; `sum_subtask` adds up what it reads
 until it reads a nullopt.  On unbuffered channels a write and a read complete together, with any
 of the workers that are reading (or writing).
 */
module SumExample {
  import opened Options

  /** Where a worker is: about to read, holding what it has read, about to write its sum, finished. */
  datatype Worker = Reading(sum: int) | Holding(sum: int, value: Option<int>) | Writing(sum: int) | Finished

  /** Where the main routine is: writing number `k` of the array, writing a nullopt to join the `j`-th
      worker, reading its sum, writing that sum back for the others, or done. */
  datatype Main = Sending(k: nat) | Joining(j: nat) | Collecting(j: nat) | Passing(j: nat,
    sub: int) | Complete(result: int)

  /** `nulls[w]` counts the nullopts that worker `w` has consumed. */
  datatype System = System(main: Main, workers: seq<Worker>, nulls: seq<nat>)

  function Start(numbers: seq<int>, workers: nat): System {
    System(if numbers == [] then Joining(0) else Sending(0), seq(workers, _ => Reading(0)), seq(workers, _ => 0))
  }

  /** What the main routine offers on the channel `in`, if it is writing there. */
  function Offer(numbers: seq<int>, main: Main): Option<Option<int>> {
    match main
    case Sending(k) => if k < |numbers| then Some(Some(numbers[k])) else None
    case Joining(_) => Some(None)
    case Passing(_, sub) => Some(Some(sub))
    case _ => None
  }

  /** Every action is one of exactly one worker, together with the main routine or alone. */
  predicate Enabled(numbers: seq<int>, sys: System, w: nat) {
    && w < |sys.workers| == |sys.nulls|
    && match sys.workers[w]
       case Reading(_) => Offer(numbers, sys.main).Some?
       case Holding(_, _) => true
       case Writing(_) => sys.main.Collecting?
       case Finished => false
  }

  function AfterWrite(numbers: seq<int>, main: Main): Main {
    match main
    case Sending(k) => if k + 1 < |numbers| then Sending(k + 1) else Joining(0)
    case Joining(j) => Collecting(j)
    case Passing(j, _) => Joining(j + 1)
    case _ => main
  }

  function Next(numbers: seq<int>, sys: System, w: nat): System
    requires Enabled(numbers, sys, w)
  {
    match sys.workers[w]
    case Reading(sum) =>
      var v := Offer(numbers, sys.main).value;
      System(AfterWrite(numbers, sys.main), sys.workers[w := Holding(sum, v)],
             if v.None? then sys.nulls[w := sys.nulls[w] + 1] else sys.nulls)
    case Holding(sum, value) =>
      sys.(workers := sys.workers[w := if value.Some? then Reading(sum + value.value) else Writing(sum)])
    case Writing(sum) =>
      var j := sys.main.j;
      System(if j + 1 == |sys.workers| then Complete(sum) else Passing(j, sum), sys.workers[w := Finished], sys.nulls)
    case Finished => sys
  }

  // ---------------------------------------------------------------- sums and counts

  function Sum(xs: seq<int>): int {
    if xs == [] then 0 else xs[0] + Sum(xs[1..])
  }

  /** What a worker still has to hand on. */
  function Carries(w: Worker): int {
    match w
    case Reading(sum) => sum
    case Holding(sum, value) => sum + (if value.Some? then value.value else 0)
    case Writing(sum) => sum
    case Finished => 0
  }

  function Carried(ws: seq<Worker>): int {
    if ws == [] then 0 else Carries(ws[0]) + Carried(ws[1..])
  }

  /** The worker has read its nullopt. */
  predicate Leaving(w: Worker) {
    w.Writing? || w.Finished? || (w.Holding? && w.value.None?)
  }

  function LeavingCount(ws: seq<Worker>): nat {
    if ws == [] then 0 else (if Leaving(ws[0]) then 1 else 0) + LeavingCount(ws[1..])
  }

  function FinishedCount(ws: seq<Worker>): nat {
    if ws == [] then 0 else (if ws[0].Finished? then 1 else 0) + FinishedCount(ws[1..])
  }

  function HoldingCount(ws: seq<Worker>): nat {
    if ws == [] then 0 else (if ws[0].Holding? then 1 else 0) + HoldingCount(ws[1..])
  }

  lemma {:induction false} Put(ws: seq<Worker>, w: nat, x: Worker)
    requires w < |ws|
    ensures Carried(ws[w := x]) == Carried(ws) - Carries(ws[w]) + Carries(x)
    ensures LeavingCount(ws[w := x])
      == LeavingCount(ws) - (if Leaving(ws[w]) then 1 else 0) + (if Leaving(x) then 1 else 0)
    ensures FinishedCount(ws[w := x])
      == FinishedCount(ws) - (if ws[w].Finished? then 1 else 0) + (if x.Finished? then 1 else 0)
    ensures HoldingCount(ws[w := x])
      == HoldingCount(ws) - (if ws[w].Holding? then 1 else 0) + (if x.Holding? then 1 else 0)
  {
    if w == 0 {
      assert ws[0 := x][1..] == ws[1..];
    } else {
      assert ws[w := x][1..] == ws[1..][w - 1 := x];
      Put(ws[1..], w - 1, x);
    }
  }

  lemma {:induction false} AllTheSame(n: nat)
    ensures var ws := seq(n, _ => Reading(0));
      Carried(ws) == LeavingCount(ws) == FinishedCount(ws) == HoldingCount(ws) == 0
  {
    if n > 0 {
      assert seq(n, _ => Reading(0))[1..] == seq(n - 1, _ => Reading(0));
      AllTheSame(n - 1);
    }
  }

  /** If some worker has not read its nullopt, there is one to point at; and so on. */
  lemma {:induction false} Remaining(ws: seq<Worker>)
    ensures FinishedCount(ws) <= LeavingCount(ws) <= |ws|
    ensures LeavingCount(ws) < |ws| ==> exists w :: 0 <= w < |ws| && !Leaving(ws[w])
    ensures FinishedCount(ws) < LeavingCount(ws) ==> exists w :: 0 <= w < |ws| && Leaving(ws[w]) && !ws[w].Finished?
    ensures FinishedCount(ws) == |ws| ==> Carried(ws) == 0 && forall w :: 0 <= w < |ws| ==> ws[w].Finished?
  {
    if ws != [] {
      Remaining(ws[1..]);
      assert forall w :: 0 <= w < |ws| - 1 ==> ws[w + 1] == ws[1..][w];
    }
  }

  // ---------------------------------------------------------------- the invariant

  /** What the main routine has not handed out, or holds in its hand. */
  function Pending(numbers: seq<int>, main: Main): int {
    match main
    case Sending(k) => if k <= |numbers| then Sum(numbers[k..]) else 0
    case Passing(_, sub) => sub
    case Complete(result) => result
    case _ => 0
  }

  /** Nullopts written, and sums collected, so far. */
  function Joined(main: Main, n: nat): (nat, nat) {
    match main
    case Sending(_) => (0, 0)
    case Joining(j) => (j, j)
    case Collecting(j) => (j + 1, j)
    case Passing(j, _) => (j + 1, j + 1)
    case Complete(_) => (n, n)
  }

  ghost predicate Valid(numbers: seq<int>, n: nat, sys: System) {
    && n >= 1 && |sys.workers| == |sys.nulls| == n
    && (match sys.main
        case Sending(k) => k < |numbers|
        case Joining(j) => j < n
        case Collecting(j) => j < n
        case Passing(j, _) => j + 1 < n
        case Complete(_) => true)
    && Pending(numbers, sys.main) + Carried(sys.workers) == Sum(numbers)
    && (LeavingCount(sys.workers), FinishedCount(sys.workers)) == Joined(sys.main, n)
    && forall w :: 0 <= w < n ==> sys.nulls[w] == if Leaving(sys.workers[w]) then 1 else 0
  }

  lemma {:induction false} StartIsValid(numbers: seq<int>, n: nat)
    requires n >= 1
    ensures Valid(numbers, n, Start(numbers, n))
  {
    AllTheSame(n);
    assert numbers[0..] == numbers;
  }

  /** A worker reads what the main routine writes. */
  lemma {:induction false} ReadIsValid(numbers: seq<int>, n: nat, sys: System, w: nat)
    requires Valid(numbers, n, sys) && Enabled(numbers, sys, w) && sys.workers[w].Reading?
    ensures Valid(numbers, n, Next(numbers, sys, w))
  {
    var next := Next(numbers, sys, w);
    Put(sys.workers, w, next.workers[w]);
    Remaining(next.workers);
    if sys.main.Sending? {
      var rest := numbers[sys.main.k..];
      assert rest[1..] == numbers[sys.main.k + 1..];
      assert Sum(rest) == numbers[sys.main.k] + Sum(rest[1..]);
    }
  }

  /** A worker adds what it has read, or leaves its loop. */
  lemma {:induction false} AddIsValid(numbers: seq<int>, n: nat, sys: System, w: nat)
    requires Valid(numbers, n, sys) && Enabled(numbers, sys, w) && sys.workers[w].Holding?
    ensures Valid(numbers, n, Next(numbers, sys, w))
  {
    Put(sys.workers, w, Next(numbers, sys, w).workers[w]);
  }

  /** A worker writes its sum. */
  lemma {:induction false} WriteIsValid(numbers: seq<int>, n: nat, sys: System, w: nat)
    requires Valid(numbers, n, sys) && Enabled(numbers, sys, w) && sys.workers[w].Writing?
    ensures Valid(numbers, n, Next(numbers, sys, w))
  {
    Put(sys.workers, w, Next(numbers, sys, w).workers[w]);
  }

  lemma {:induction false} NextIsValid(numbers: seq<int>, n: nat, sys: System, w: nat)
    requires Valid(numbers, n, sys) && Enabled(numbers, sys, w)
    ensures Valid(numbers, n, Next(numbers, sys, w))
  {
    match sys.workers[w] {
      case Reading(_) => ReadIsValid(numbers, n, sys, w);
      case Holding(_, _) => AddIsValid(numbers, n, sys, w);
      case Writing(_) => WriteIsValid(numbers, n, sys, w);
    }
  }

  /** No state before the end is stuck. */
  lemma {:induction false} NeverStuck(numbers: seq<int>, n: nat, sys: System)
    requires Valid(numbers, n, sys) && !sys.main.Complete?
    ensures exists w :: Enabled(numbers, sys, w)
  {
    Remaining(sys.workers);
    if sys.main.Collecting? {
      var w :| 0 <= w < n && Leaving(sys.workers[w]) && !sys.workers[w].Finished?;
      assert Enabled(numbers, sys, w);
    } else {
      var w :| 0 <= w < n && !Leaving(sys.workers[w]);
      assert Enabled(numbers, sys, w);
    }
  }

  /** Actions still to come. */
  function ToDo(numbers: seq<int>, sys: System): int {
    var n := |sys.workers|;
    HoldingCount(sys.workers) +
    match sys.main
    case Sending(k) => 2 * (|numbers| - k) + 5 * n
    case Joining(j) => 5 * (n - j)
    case Collecting(j) => 5 * (n - j) - 2
    case Passing(j, _) => 5 * (n - j) - 3
    case Complete(_) => 0
  }

  lemma {:induction false} NextDecreases(numbers: seq<int>, n: nat, sys: System, w: nat)
    requires Valid(numbers, n, sys) && Enabled(numbers, sys, w)
    ensures 0 <= ToDo(numbers, Next(numbers, sys, w)) < ToDo(numbers, sys)
  {
    NextIsValid(numbers, n, sys, w);
    Put(sys.workers, w, Next(numbers, sys, w).workers[w]);
  }

  /** The whole program, under any scheduling: it ends, with the sum of the array; every worker has
      finished and has consumed exactly one nullopt. */
  method SumTask(numbers: seq<int>, workers: nat) returns (result: int, ghost sys: System)
    requires workers >= 1
    ensures result == Sum(numbers)
    ensures sys.main == Complete(result) && |sys.workers| == |sys.nulls| == workers
    ensures forall w :: 0 <= w < workers ==> sys.workers[w] == Finished && sys.nulls[w] == 1
  {
    var now := Start(numbers, workers);
    StartIsValid(numbers, workers);
    while !now.main.Complete?
      invariant Valid(numbers, workers, now)
      decreases ToDo(numbers, now)
    {
      NeverStuck(numbers, workers, now);
      var w: nat :| w < |now.workers| && Enabled(numbers, now, w);
      NextIsValid(numbers, workers, now, w);
      NextDecreases(numbers, workers, now, w);
      now := Next(numbers, now, w);
    }
    Remaining(now.workers);
    result := now.main.result;
    sys := now;
  }
}
