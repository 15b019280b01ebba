/**
 * The bounded worker pool that runs the context providers: a shared claim counter, a shared output
 * array, and a few workers that take the next unclaimed task whenever their current one ends.
 *
 * `result(i)` is what task i comes to. A schedule lists the workers in the order their tasks end.
 */
module BoundedPool {
  import opened Basics
  import opened Options

  datatype Outcome<+T> = Fulfilled(value: T) | Rejected

  type Results<!T> = nat -> Outcome<T>

  datatype Worker = Running(index: nat) | Returned | Threw(index: nat)

  datatype Pool<+T> = Pool(next: nat, output: seq<Option<T>>, workers: seq<Worker>)

  function Width(concurrency: int, tasks: nat): nat {
    Min(Max(1, Min(16, concurrency)), tasks)
  }

  /** A worker looks at the counter, advances it, and either has a task or is finished. */
  function Claim(next: nat, tasks: nat): Worker {
    if next >= tasks then Returned else Running(next)
  }

  function Launched<T>(p: Pool<T>): Pool<T> {
    p.(next := p.next + 1, workers := p.workers + [Claim(p.next, |p.output|)])
  }

  function LaunchAll<T>(p: Pool<T>, width: nat): Pool<T> {
    if width == 0 then p else Launched(LaunchAll(p, width - 1))
  }

  function Empty<T>(tasks: nat): Pool<T> {
    Pool(0, seq(tasks, _ => None), [])
  }

  function Start<T>(concurrency: int, tasks: nat): Pool<T> {
    LaunchAll(Empty(tasks), Width(concurrency, tasks))
  }

  predicate CanEnd<T>(p: Pool<T>, w: nat) {
    w < |p.workers| && p.workers[w].Running? && p.workers[w].index < |p.output|
  }

  /** The task of worker `w` ends: its result is stored, and the worker claims again. */
  function Ended<T>(p: Pool<T>, result: Results<T>, w: nat): Pool<T>
    requires CanEnd(p, w)
  {
    var i := p.workers[w].index;
    match result(i)
    case Fulfilled(value) =>
      Pool(p.next + 1, p.output[i := Some(value)], p.workers[w := Claim(p.next, |p.output|)])
    case Rejected => p.(workers := p.workers[w := Threw(i)])
  }

  /** The pool after a schedule; an entry that names an idle worker changes nothing. */
  function Run<T>(result: Results<T>, concurrency: int, tasks: nat, schedule: seq<nat>): Pool<T> {
    if schedule == [] then Start(concurrency, tasks)
    else
      var p := Run(result, concurrency, tasks, schedule[..|schedule| - 1]);
      var w := schedule[|schedule| - 1];
      if CanEnd(p, w) then Ended(p, result, w) else p
  }

  class WorkerPool<T> {
    const result: Results<T>
    const output: array<Option<T>>
    var next: nat
    var workers: seq<Worker>

    ghost function View(): Pool<T>
      reads this, output
    {
      Pool(next, output[..], workers)
    }

    /** Allocates the output and starts every worker, each of which claims before the next one starts. */
    constructor (result: Results<T>, concurrency: int, tasks: nat)
      ensures fresh(output) && this.result == result
      ensures View() == Start(concurrency, tasks)
    {
      this.result := result;
      output := new Option<T>[tasks](_ => None);
      next := 0;
      workers := [];
      new;
      var width := Width(concurrency, tasks);
      ghost var first := View();
      assert first.output == seq(tasks, _ => None);
      var n := 0;
      while n < width
        invariant n <= width && fresh(output)
        invariant View() == LaunchAll(first, n)
      {
        var worker := Advance();
        workers := workers + [worker];
        n := n + 1;
      }
    }

    method Advance() returns (worker: Worker)
      modifies this`next
      ensures next == old(next) + 1 && worker == Claim(old(next), output.Length)
    {
      var index := next;
      next := next + 1;
      worker := if index >= output.Length then Returned else Running(index);
    }

    method EndTask(w: nat)
      requires CanEnd(View(), w)
      modifies this, output
      ensures View() == Ended(old(View()), result, w)
    {
      var index := workers[w].index;
      var outcome := result(index);
      if outcome.Fulfilled? {
        output[index] := Some(outcome.value);
        var worker := Advance();
        workers := workers[w := worker];
      } else {
        workers := workers[w := Threw(index)];
      }
    }
  }

  // ---------------------------------------------------------------- every schedule

  predicate Holds(worker: Worker, i: nat) {
    (worker.Running? || worker.Threw?) && worker.index == i
  }

  /**
   * Tasks below the counter are claimed and no others. A claimed task either has its own result
   * stored and no worker, or nothing stored and exactly one worker.
   */
  ghost predicate Inv<T(!new)>(p: Pool<T>, result: Results<T>) {
    && (forall w :: 0 <= w < |p.workers| && !p.workers[w].Returned? ==> p.workers[w].index < Min(p.next, |p.output|))
    && (forall v, w :: 0 <= v < w < |p.workers| && !p.workers[v].Returned? && !p.workers[w].Returned?
          ==> p.workers[v].index != p.workers[w].index)
    && (forall w :: 0 <= w < |p.workers| && !p.workers[w].Returned? ==> p.output[p.workers[w].index].None?)
    && (forall w :: 0 <= w < |p.workers| && p.workers[w].Threw? ==> result(p.workers[w].index).Rejected?)
    && (forall w :: 0 <= w < |p.workers| && p.workers[w].Returned? ==> p.next > |p.output|)
    && (forall i :: 0 <= i < |p.output| && p.output[i].Some? ==>
          result(i) == Fulfilled(p.output[i].value) && i < p.next)
    && Covered(p)
  }

  ghost predicate Covered<T(!new)>(p: Pool<T>) {
    forall i :: 0 <= i < Min(p.next, |p.output|) && p.output[i].None? ==> Held(p, i)
  }

  ghost predicate Held<T(!new)>(p: Pool<T>, i: nat) {
    exists w :: 0 <= w < |p.workers| && Holds(p.workers[w], i)
  }

  lemma LaunchInv<T(!new)>(p: Pool<T>, result: Results<T>)
    requires Inv(p, result)
    ensures Inv(Launched(p), result)
  {
    hide Covered;
    LaunchCovers(p);
  }

  lemma LaunchCovers<T(!new)>(p: Pool<T>)
    requires Covered(p)
    ensures Covered(Launched(p))
  {
    var q := Launched(p);
    forall i | 0 <= i < Min(q.next, |q.output|) && q.output[i].None? ensures Held(q, i) {
      if i == p.next {
        assert Holds(q.workers[|p.workers|], i);
      } else {
        assert Held(p, i);
        var w :| 0 <= w < |p.workers| && Holds(p.workers[w], i);
        assert Holds(q.workers[w], i);
      }
    }
  }

  lemma {:induction false} LaunchAllInv<T(!new)>(p: Pool<T>, result: Results<T>, width: nat)
    requires Inv(p, result) && p.workers == []
    ensures var q := LaunchAll(p, width); Inv(q, result) && |q.workers| == width && |q.output| == |p.output|
  {
    if width == 0 {
    } else {
      LaunchAllInv(p, result, width - 1);
      LaunchInv(LaunchAll(p, width - 1), result);
    }
  }

  lemma EndCovers<T(!new)>(p: Pool<T>, result: Results<T>, w: nat)
    requires Covered(p) && CanEnd(p, w)
    ensures Covered(Ended(p, result, w))
  {
    var q := Ended(p, result, w);
    forall i | 0 <= i < Min(q.next, |q.output|) && q.output[i].None? ensures Held(q, i) {
      if result(p.workers[w].index).Rejected? || i < p.next {
        assert Held(p, i);
        var v :| 0 <= v < |p.workers| && Holds(p.workers[v], i);
        assert Holds(q.workers[v], i);
      } else {
        assert Holds(q.workers[w], i);
      }
    }
  }

  lemma EndInv<T(!new)>(p: Pool<T>, result: Results<T>, w: nat)
    requires Inv(p, result) && CanEnd(p, w)
    ensures Inv(Ended(p, result, w), result)
  {
    hide Covered;
    EndCovers(p, result, w);
  }

  lemma {:induction false} RunInv<T(!new)>(result: Results<T>, concurrency: int, tasks: nat, schedule: seq<nat>)
    ensures var p := Run(result, concurrency, tasks, schedule);
            Inv(p, result) && |p.workers| == Width(concurrency, tasks) && |p.output| == tasks
  {
    hide Inv;
    if schedule == [] {
      var empty := Empty<T>(tasks);
      assert Inv(empty, result) by {
        EmptyInv(result, tasks);
      }
      LaunchAllInv(empty, result, Width(concurrency, tasks));
    } else {
      var before := schedule[..|schedule| - 1];
      RunInv(result, concurrency, tasks, before);
      var p := Run(result, concurrency, tasks, before);
      var w := schedule[|schedule| - 1];
      if CanEnd(p, w) {
        EndInv(p, result, w);
      }
    }
  }

  lemma EmptyInv<T(!new)>(result: Results<T>, tasks: nat)
    ensures Inv(Empty<T>(tasks), result)
  {
  }

  // ---------------------------------------------------------------- claims

  /** The task claimed when the counter stands at `next`, if any. */
  function NewClaim(next: nat, tasks: nat): seq<nat> {
    if next < tasks then [next] else []
  }

  function LaunchClaims(width: nat, tasks: nat): seq<nat> {
    if width == 0 then [] else LaunchClaims(width - 1, tasks) + NewClaim(width - 1, tasks)
  }

  /** Every index a worker came to run, in the order of the claims. */
  function Claims<T>(result: Results<T>, concurrency: int, tasks: nat, schedule: seq<nat>): seq<nat> {
    if schedule == [] then LaunchClaims(Width(concurrency, tasks), tasks)
    else
      var before := schedule[..|schedule| - 1];
      var p := Run(result, concurrency, tasks, before);
      var w := schedule[|schedule| - 1];
      Claims(result, concurrency, tasks, before)
      + if CanEnd(p, w) && result(p.workers[w].index).Fulfilled? then NewClaim(p.next, tasks) else []
  }

  function UpTo(n: nat): seq<nat> {
    seq(n, i => i)
  }

  lemma {:induction false} LaunchClaimsInOrder<T(!new)>(width: nat, tasks: nat)
    ensures LaunchClaims(width, tasks) == UpTo(Min(width, tasks))
    ensures LaunchAll(Empty<T>(tasks), width).next == width
  {
    if width == 0 {
    } else {
      LaunchClaimsInOrder<T>(width - 1, tasks);
    }
  }

  /** Each task is claimed at most once, in order, and exactly those below the counter are. */
  lemma {:induction false} ClaimedOnce<T(!new)>(result: Results<T>, concurrency: int, tasks: nat, schedule: seq<nat>)
    ensures Claims(result, concurrency, tasks, schedule)
            == UpTo(Min(Run(result, concurrency, tasks, schedule).next, tasks))
  {
    if schedule == [] {
      LaunchClaimsInOrder<T>(Width(concurrency, tasks), tasks);
    } else {
      var before := schedule[..|schedule| - 1];
      ClaimedOnce(result, concurrency, tasks, before);
      RunInv(result, concurrency, tasks, before);
      hide Inv, UpTo, NewClaim;
      var p := Run(result, concurrency, tasks, before);
      NextClaim(p.next, tasks);
      assert UpTo(Min(p.next, tasks)) + [] == UpTo(Min(p.next, tasks));
    }
  }

  lemma NextClaim(next: nat, tasks: nat)
    ensures UpTo(Min(next, tasks)) + NewClaim(next, tasks) == UpTo(Min(next + 1, tasks))
  {
  }

  // ---------------------------------------------------------------- what the pool promises

  function RunningTasks<T>(p: Pool<T>): set<nat> {
    set w | 0 <= w < |p.workers| && p.workers[w].Running? :: p.workers[w].index
  }

  function RunningWorkers<T>(p: Pool<T>): set<nat> {
    set w: nat | w < |p.workers| && p.workers[w].Running?
  }

  /**
   * Never more than the bound run together; and as long as unclaimed tasks remain and none has been
   * rejected, exactly that many do, on different tasks.
   */
  lemma BoundedAndBusy<T(!new)>(result: Results<T>, concurrency: int, tasks: nat, schedule: seq<nat>)
    ensures var p := Run(result, concurrency, tasks, schedule);
            var bound := Min(Max(1, Min(16, concurrency)), tasks);
            && |RunningTasks(p)| <= bound
            && (p.next < tasks && (forall i: nat :: i < tasks ==> result(i).Fulfilled?) ==> |RunningTasks(p)| == bound)
  {
    var p := Run(result, concurrency, tasks, schedule);
    RunInv(result, concurrency, tasks, schedule);
    CountRunning(p, |p.workers|);
  }

  ghost predicate AllOnDifferentTasks<T(!new)>(p: Pool<T>, n: nat)
    requires n <= |p.workers|
  {
    && (forall w :: 0 <= w < n ==> p.workers[w].Running?)
    && (forall v, w :: 0 <= v < w < n ==> p.workers[v].index != p.workers[w].index)
  }

  lemma {:induction false} CountRunning<T(!new)>(p: Pool<T>, n: nat)
    requires n <= |p.workers|
    ensures var running := set w | 0 <= w < n && p.workers[w].Running? :: p.workers[w].index;
            && |running| <= n
            && (AllOnDifferentTasks(p, n) ==> |running| == n)
  {
    var running := set w | 0 <= w < n && p.workers[w].Running? :: p.workers[w].index;
    if n == 0 {
    } else {
      CountRunning(p, n - 1);
      var fewer := set w | 0 <= w < n - 1 && p.workers[w].Running? :: p.workers[w].index;
      if p.workers[n - 1].Running? {
        assert running == fewer + {p.workers[n - 1].index};
      } else {
        assert running == fewer;
      }
    }
  }

  /**
   * Once no task is running: every worker has returned exactly when every task was fulfilled, and then
   * the output holds task i's result at i, for every i.
   */
  lemma CompletesWithEveryResult<T(!new)>(result: Results<T>, concurrency: int, tasks: nat, schedule: seq<nat>)
    requires RunningTasks(Run(result, concurrency, tasks, schedule)) == {}
    ensures var p := Run(result, concurrency, tasks, schedule);
            && ((forall w :: 0 <= w < |p.workers| ==> p.workers[w].Returned?)
                <==> forall i: nat :: i < tasks ==> result(i).Fulfilled?)
            && ((forall w :: 0 <= w < |p.workers| ==> p.workers[w].Returned?) ==>
                  && |p.output| == tasks
                  && forall i :: 0 <= i < tasks ==> p.output[i].Some? && result(i) == Fulfilled(p.output[i].value))
  {
    var p := Run(result, concurrency, tasks, schedule);
    RunInv(result, concurrency, tasks, schedule);
    assert forall w :: 0 <= w < |p.workers| && p.workers[w].Running? ==> p.workers[w].index in RunningTasks(p);
    if forall w :: 0 <= w < |p.workers| ==> p.workers[w].Returned? {
      forall i: nat | i < tasks ensures p.output[i].Some? {
        WidthPositive(concurrency, tasks);
        assert p.workers[0].Returned?;
        assert p.output[i].None? ==> Held(p, i);
      }
    }
  }

  lemma WidthPositive(concurrency: int, tasks: nat)
    requires tasks > 0
    ensures 1 <= Width(concurrency, tasks) <= 16
  {
  }

  /** The schedule counts every finished task once: a full run has exactly one entry per task. */
  lemma {:induction false} OneEndPerTask<T(!new)>(result: Results<T>, concurrency: int, tasks: nat, schedule: seq<nat>)
    requires Enabled(result, concurrency, tasks, schedule)
    ensures var p := Run(result, concurrency, tasks, schedule);
            |schedule| + |RunningWorkers(p)| == Min(p.next, tasks)
  {
    if schedule == [] {
      LaunchedAllRun<T>(Width(concurrency, tasks), tasks);
    } else {
      var before, w := schedule[..|schedule| - 1], schedule[|schedule| - 1];
      OneEndPerTask(result, concurrency, tasks, before);
      RunInv(result, concurrency, tasks, before);
      hide Inv, Ended, RunningWorkers;
      EndCounts(Run(result, concurrency, tasks, before), result, w);
    }
  }

  /** When a task ends, its worker claims the next task or runs no more. */
  lemma EndCounts<T(!new)>(p: Pool<T>, result: Results<T>, w: nat)
    requires CanEnd(p, w) && Inv(p, result)
    ensures var q := Ended(p, result, w);
            1 + |RunningWorkers(q)| - Min(q.next, |p.output|) == |RunningWorkers(p)| - Min(p.next, |p.output|)
  {
    var q := Ended(p, result, w);
    assert w in RunningWorkers(p);
    if q.workers[w].Running? {
      assert RunningWorkers(q) == RunningWorkers(p);
    } else {
      assert RunningWorkers(q) == RunningWorkers(p) - {w};
    }
  }

  /** Every entry of the schedule names a worker that is running. */
  ghost predicate Enabled<T(!new)>(result: Results<T>, concurrency: int, tasks: nat, schedule: seq<nat>) {
    schedule != [] ==>
      && Enabled(result, concurrency, tasks, schedule[..|schedule| - 1])
      && CanEnd(Run(result, concurrency, tasks, schedule[..|schedule| - 1]), schedule[|schedule| - 1])
  }

  lemma {:induction false} LaunchedAllRun<T(!new)>(width: nat, tasks: nat)
    requires width <= tasks
    ensures var p := LaunchAll(Empty<T>(tasks), width);
            p.next == width && |p.output| == tasks && |p.workers| == width && |RunningWorkers(p)| == width
  {
    var empty := Empty<T>(tasks);
    if width > 0 {
      LaunchedAllRun<T>(width - 1, tasks);
      var p := LaunchAll(empty, width - 1);
      assert RunningWorkers(Launched(p)) == RunningWorkers(p) + {width - 1};
    } else {
      assert RunningWorkers(LaunchAll(empty, 0)) == {};
    }
  }
}
