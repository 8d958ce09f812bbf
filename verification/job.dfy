/**
 The job of internal/routines/taskz/jobs/ijob.go: a wrapper around one
 action with a running flag, a cancel and a done channel, results and errors
 of its own.

 A channel is modelled by its buffer capacity. The job's own `Running` flag
 is only ever cleared by its methods, never set; the action's running flag
 is a separate thing.
 */
module Job {
  import opened Wrappers
  import Action

  datatype Job<T> = Job(
    running: bool,
    results: map<string, Action.Res>,
    errors: seq<string>,
    cancelCapacity: nat,
    doneCapacity: nat,
    action: Action.Action<T>)

  /** The capacity of a channel the constructor makes when given nil. */
  const DefaultCapacity: nat := 2

  /**
   `NewJob(action, cancelChanel, doneChanel, logger)`: a nil channel is
   replaced by a fresh one of capacity 2; the job starts not running with
   no results or errors of its own.
   */
  function NewJob<T>(action: Action.Action<T>, cancel: Option<nat>, done: Option<nat>): (j: Job<T>)
    ensures !j.running && j.results == map[] && j.errors == [] && j.action == action
    ensures j.cancelCapacity == cancel.GetOr(DefaultCapacity)
    ensures j.doneCapacity == done.GetOr(DefaultCapacity)
  {
    Job(false, map[], [], cancel.GetOr(DefaultCapacity), done.GetOr(DefaultCapacity), action)
  }

  /** `GetResults`: a fresh copy of the action's results, not the job's own. */
  function GetResults<T>(j: Job<T>): (r: map<string, Action.Res>)
    ensures r.Keys == j.action.results.Keys
    ensures forall k :: k in r ==> r[k] == j.action.results[k]
  {
    map k | k in j.action.results :: j.action.results[k]
  }

  /**
   `Execute`: a running job returns nil and does nothing; an action that
   cannot execute is skipped with nil; otherwise the action executes and its
   error, if any, is the job's. The job's own flag is left as it was.
   */
  function Execute<T>(j: Job<T>, eval: (Action.Task, T) -> Outcome): (r: Run<(Outcome, Job<T>)>)
    ensures j.running || !Action.CanExecute(j.action) ==> r == Returns((Pass, j))
    ensures !j.running && Action.CanExecute(j.action) ==>
              match Action.Execute(j.action, eval)
              case Panics(_) => r.Panics?
              case Returns((out, a)) => r == Returns((out, j.(action := a)))
    ensures r.Returns? ==> r.value.1.running == j.running
  {
    if j.running then Returns((Pass, j))
    else if !Action.CanExecute(j.action) then Returns((Pass, j))
    else match Action.Execute(j.action, eval)
      case Panics(why) => Panics(why)
      case Returns((out, a)) => Returns((out, j.(action := a)))
  }

  /** `Cancel`: a running job stops running; otherwise "job is not running". */
  function Cancel<T>(j: Job<T>): (r: (Outcome, Job<T>))
    ensures r.0 == Pass <==> j.running
    ensures r.0.Fail? ==> r == (Fail("job is not running"), j)
    ensures !r.1.running && r.1.(running := j.running) == j
  {
    if j.running then (Pass, j.(running := false)) else (Fail("job is not running"), j)
  }

  // ---------------------------------------------------------------------
  // Properties
  // ---------------------------------------------------------------------

  /**
   Since nothing sets the job's flag, a job built by `NewJob` can never be
   cancelled, even after its action has executed.
   */
  lemma NewJobNeverCancels<T>(action: Action.Action<T>, cancel: Option<nat>, done: Option<nat>, eval: (Action.Task, T) -> Outcome)
    ensures Cancel(NewJob(action, cancel, done)) == (Fail("job is not running"), NewJob(action, cancel, done))
    ensures var e := Execute(NewJob(action, cancel, done), eval);
      e.Returns? ==> Cancel(e.value.1).0 == Fail("job is not running")
  {
  }

  /**
   A job executes its action at most once: once the action runs, a second
   `Execute` skips it and reports nil, leaving the job as it was.
   */
  lemma SecondExecuteSkipped<T>(j: Job<T>, eval: (Action.Task, T) -> Outcome)
    requires Execute(j, eval).Returns?
    ensures var k := Execute(j, eval).value.1;
      !j.running ==> Execute(k, eval) == Returns((Pass, k))
  {
    var k := Execute(j, eval).value.1;
    if !j.running && Action.CanExecute(j.action) {
      assert k.action.running;
    }
  }
}
