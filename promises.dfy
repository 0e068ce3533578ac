/** `runSerially` (lib/utils/promises.js): a left fold that chains each task
    onto the previous one's promise and pushes every resolved value. A task is
    a call without arguments that resolves with a value or rejects with an
    error; the chain is modelled as a sequential loop. */
module Promises {
  import opened Common

  type Task<T, E> = () -> Result<T, E>

  /** The value the chain settles with: every result in task order, or the
      first rejection. */
  function Serially<T, E>(tasks: seq<Task<T, E>>): Result<seq<T>, E>
  {
    if tasks == [] then Success([])
    else
      match Serially(tasks[..|tasks| - 1])
      case Failure(e) => Failure(e)
      case Success(results) =>
        match tasks[|tasks| - 1]()
        case Failure(e) => Failure(e)
        case Success(v) => Success(results + [v])
  }

  /** The index of the first task that rejects, or `|tasks|` when none does. */
  function FirstFailure<T, E>(tasks: seq<Task<T, E>>): (k: nat)
    ensures k <= |tasks|
    ensures forall j :: 0 <= j < k ==> tasks[j]().Success?
    ensures k < |tasks| ==> tasks[k]().Failure?
  {
    if tasks == [] then 0
    else if tasks[0]().Failure? then 0
    else 1 + FirstFailure(tasks[1..])
  }

  /** Running a task list: `ran` counts the tasks that were called. */
  method RunSerially<T, E>(tasks: seq<Task<T, E>>) returns (r: Result<seq<T>, E>, ran: nat)
    ensures r == Serially(tasks)
    ensures ran == if FirstFailure(tasks) < |tasks| then FirstFailure(tasks) + 1 else |tasks|
    ensures tasks == [] ==> r == Success([]) && ran == 0
  {
    var results: seq<T> := [];
    var i := 0;
    while i < |tasks|
      invariant 0 <= i <= |tasks|
      invariant Serially(tasks[..i]) == Success(results)
      invariant forall j :: 0 <= j < i ==> tasks[j]().Success?
    {
      assert tasks[..i + 1][..i] == tasks[..i];
      var res := tasks[i]();
      match res
      case Failure(e) =>
        FirstFailureAt(tasks, i);
        SeriallyStops(tasks, i + 1);
        return Failure(e), i + 1;
      case Success(v) =>
        results := results + [v];
      i := i + 1;
    }
    assert tasks[..i] == tasks;
    FirstFailureAt(tasks, i);
    r, ran := Success(results), |tasks|;
  }

  /** Helper: when the tasks before `i` resolve and task `i` rejects (or `i` is
      the end), `i` is the first failure. */
  lemma {:induction false} FirstFailureAt<T, E>(tasks: seq<Task<T, E>>, i: nat)
    requires i <= |tasks|
    requires forall j :: 0 <= j < i ==> tasks[j]().Success?
    requires i < |tasks| ==> tasks[i]().Failure?
    ensures FirstFailure(tasks) == i
  {
    if tasks != [] && i > 0 {
      FirstFailureAt(tasks[1..], i - 1);
    }
  }

  /** A rejection in a prefix is the rejection of the whole chain: the later
      tasks change nothing. */
  lemma {:induction false} SeriallyStops<T, E>(tasks: seq<Task<T, E>>, n: nat)
    requires n <= |tasks| && Serially(tasks[..n]).Failure?
    ensures Serially(tasks) == Serially(tasks[..n])
  {
    if n < |tasks| {
      var p := tasks[..|tasks| - 1];
      assert p[..n] == tasks[..n];
      SeriallyStops(p, n);
    } else {
      assert tasks[..n] == tasks;
    }
  }

  /** Ordered results: the chain resolves exactly when every task resolves, and
      then with their values in task order. */
  lemma {:induction false} SeriallyOrdered<T, E>(tasks: seq<Task<T, E>>)
    ensures Serially(tasks).Success? <==> FirstFailure(tasks) == |tasks|
    ensures Serially(tasks).Success? ==>
      |Serially(tasks).value| == |tasks| &&
      forall k :: 0 <= k < |tasks| ==> Serially(tasks).value[k] == tasks[k]().value
  {
    if tasks != [] {
      var p := tasks[..|tasks| - 1];
      SeriallyOrdered(p);
      FirstFailurePrefix(tasks);
    }
  }

  /** Bail-out: when the chain rejects, it rejects with the error of the first
      task that rejected. */
  lemma {:induction false} SeriallyFirstRejection<T, E>(tasks: seq<Task<T, E>>)
    ensures Serially(tasks).Failure? ==>
      FirstFailure(tasks) < |tasks| && Serially(tasks).error == tasks[FirstFailure(tasks)]().error
  {
    if tasks != [] {
      var p := tasks[..|tasks| - 1];
      SeriallyFirstRejection(p);
      SeriallyOrdered(p);
      FirstFailurePrefix(tasks);
    }
  }

  /** Helper: the first failure of a list is that of its prefix, unless the
      prefix has none. */
  lemma FirstFailurePrefix<T, E>(tasks: seq<Task<T, E>>)
    requires tasks != []
    ensures var p := tasks[..|tasks| - 1];
      FirstFailure(tasks) == if FirstFailure(p) < |p| then FirstFailure(p) else
        if tasks[|tasks| - 1]().Failure? then |p| else |tasks|
  {
    var p := tasks[..|tasks| - 1];
    var f := FirstFailure(p);
    if f < |p| {
      FirstFailureAt(tasks, f);
    } else if tasks[|tasks| - 1]().Failure? {
      FirstFailureAt(tasks, |p|);
    } else {
      FirstFailureAt(tasks, |tasks|);
    }
  }
}
