/**
 * The session lifecycle shared, line for line, by `MCPClient` and
 * `MCPToolset`: the fields `_started`, `_runner_task`, `_started_future`,
 * `_session`, `_stop_requested` and `_runner_exception`, driven by
 * `start`, `stop` and the background runner `_run_session`.
 *
 * The background task is not run: what it does before `start` resumes is
 * supplied as a `StartupOutcome`, and how it ends when `stop` joins it as
 * a `JoinOutcome`. Each runner phase is a method that performs the
 * runner's own field updates, so `start` and `stop` interleave them at the
 * points where the source awaits the task.
 */
module Lifecycle {
  import opened Wrappers
  import opened Python

  /** An initialized protocol session (`ClientSession`), known only by identity. */
  datatype Session = Session(id: nat)

  /** The runner task: still running, or finished with the exception it raised, if any. */
  datatype Task = Running | Finished(failure: Option<PyException>)

  /** What the runner does while `start` waits on the readiness future. */
  datatype StartupOutcome =
    | Initialized(session: Session)     // spawn and `initialize()` complete in time
    | RunnerRaised(cause: PyException)  // spawn or handshake raised
    | StartupTimedOut                   // neither happened within the startup timeout

  /** How a running runner ends once `stop` has set the stop flag and awaits it. */
  datatype JoinOutcome =
    | Exited                            // the idle loop sees the flag and the contexts close
    | ExitRaised(cause: PyException)    // closing the session or process raised
    | JoinTimedOut                      // it does not end within the timeout and is cancelled

  /** Why `start` failed. */
  datatype StartError =
    | TimedOut                          // "MCP runtime startup timed out. ..."
    | FailedToStart(cause: PyException) // "MCP runtime failed to start", from the runner's exception
    | Reraised(cause: PyException)      // the runner's own exception, surfacing unwrapped

  /**
   * Whether awaiting a task that failed with `e` lets `e` out of `stop`:
   * `CancelledError` is caught, and a `TimeoutError` lands in the timeout
   * branch whose second await is suppressed (Python 3.11 and later, where
   * `asyncio.TimeoutError` is `TimeoutError`).
   */
  predicate EscapesStop(e: PyException) {
    e.kind != "CancelledError" && e.kind != "TimeoutError"
  }

  /** The exception the awaited runner task ends with. */
  function TaskFailure(task: Task, join: JoinOutcome): Option<PyException> {
    match task
    case Finished(failure) => failure
    case Running =>
      match join
      case Exited => None
      case ExitRaised(e) => Some(e)
      case JoinTimedOut => Some(Cancellation)
  }

  /** What `stop` raises after its cleanup, given the task it found. */
  function StopResult(task: Option<Task>, join: JoinOutcome): Outcome<PyException> {
    if task.None? then Pass
    else
      var failure := TaskFailure(task.value, join);
      if failure.Some? && EscapesStop(failure.value) then Fail(failure.value) else Pass
  }

  /**
   * `stop` raises nothing of its own: only an exception the runner itself
   * raised, never the cancellation `stop` or a startup timeout inflicted,
   * so a clean or timed-out join never raises.
   */
  lemma StopRaisesOnlyRunnerErrors(task: Option<Task>, join: JoinOutcome)
    ensures StopResult(task, join).Fail? ==>
      || (task == Some(Finished(Some(StopResult(task, join).error))))
      || (task == Some(Running) && join == ExitRaised(StopResult(task, join).error))
    ensures StopResult(task, join) != Fail(Cancellation)
    ensures task == Some(Running) && !join.ExitRaised? ==> StopResult(task, join) == Pass
    ensures task.None? || task == Some(Finished(None)) ==> StopResult(task, join) == Pass
  {
  }

  /**
   * The error `start` surfaces AS WRITTEN once the runner recorded
   * `cause`: it awaits `stop`, which re-raises the finished task's
   * exception before the wrapping `RuntimeError` is reached.
   */
  function StartFailureAsWritten(cause: PyException): (e: StartError)
    ensures e == (if EscapesStop(cause) then Reraised(cause) else FailedToStart(cause))
  {
    match StopResult(Some(Finished(Some(cause))), Exited)
    case Fail(raised) => Reraised(raised)
    case Pass => FailedToStart(cause)
  }

  /** A runtime that cannot be spawned surfaces as a bare `FileNotFoundError`, not as "failed to start". */
  lemma StartFailureAsWrittenLosesWrapper()
    ensures StartFailureAsWritten(PyException("FileNotFoundError", "node")) == Reraised(PyException("FileNotFoundError", "node"))
    ensures StartFailureAsWritten(PyException("FileNotFoundError", "node")) != FailedToStart(PyException("FileNotFoundError", "node"))
  {
  }

  /**
   * The readiness signal (`asyncio.Future`). `set_result` on a done future
   * raises, so a caller must test `done()` first; `completions` counts how
   * often the future was completed, which is never more than once.
   */
  class Future {
    var done: bool
    var cancelled: bool
    ghost var completions: nat

    ghost predicate Valid()
      reads this
    {
      completions == (if done then 1 else 0) && (cancelled ==> done)
    }

    constructor ()
      ensures Valid() && !done && !cancelled
    {
      done, cancelled := false, false;
      completions := 0;
    }

    method SetResult()
      requires Valid() && !done
      modifies this
      ensures Valid() && done && !cancelled && completions == old(completions) + 1
    {
      done := true;
      completions := completions + 1;
    }

    /** `cancel()`: completes a pending future as cancelled; a done one is left alone. */
    method Cancel()
      requires Valid()
      modifies this
      ensures Valid() && done
      ensures old(done) ==> unchanged(this)
      ensures !old(done) ==> cancelled
    {
      if !done {
        done, cancelled := true, true;
        completions := completions + 1;
      }
    }
  }

  class Controller {
    var started: bool
    var runnerTask: Option<Task>
    var startedFuture: Future?
    var session: Option<Session>
    var stopRequested: bool
    var runnerException: Option<PyException>
    ghost var launches: nat    // runner tasks created so far
    ghost var handshakes: nat  // `initialize()` handshakes completed so far

    /** The states between public operations. */
    ghost predicate Valid()
      reads this, startedFuture
    {
      && (startedFuture != null ==> startedFuture.Valid())
      && (started ==> runnerTask.Some? && startedFuture != null && startedFuture.done && !stopRequested)
      && (!started ==> runnerTask.None? && startedFuture == null && session.None?)
      && (session.Some? <==> runnerTask == Some(Running))
      && (runnerTask.Some? && runnerTask.value.Finished? ==>
            runnerTask.value.failure.Some? && runnerException == runnerTask.value.failure)
    }

    /** Task, future and session slots empty and not started. */
    ghost predicate Cleared()
      reads this
    {
      !started && runnerTask.None? && startedFuture == null && session.None?
    }

    constructor ()
      ensures Valid() && Cleared()
      ensures !stopRequested && runnerException.None?
      ensures launches == 0 && handshakes == 0
    {
      started, runnerTask, startedFuture, session := false, None, null, None;
      stopRequested, runnerException := false, None;
      launches, handshakes := 0, 0;
    }

    /** The runner resolves the readiness future only while it is still pending. */
    method ResolveReadiness()
      requires startedFuture != null ==> startedFuture.Valid()
      modifies startedFuture
      ensures startedFuture != null ==> startedFuture.Valid() && startedFuture.done
      ensures startedFuture != null && old(startedFuture.done) ==> unchanged(startedFuture)
      ensures startedFuture != null && !old(startedFuture.done) ==> !startedFuture.cancelled
    {
      if startedFuture != null && !startedFuture.done {
        startedFuture.SetResult();
      }
    }

    /** The runner from spawn to readiness: publish the session, handshake, resolve. */
    method RunnerReady(s: Session)
      requires runnerTask == Some(Running)
      requires startedFuture != null ==> startedFuture.Valid()
      modifies this, startedFuture
      ensures session == Some(s) && handshakes == old(handshakes) + 1
      ensures started == old(started) && runnerTask == old(runnerTask) && startedFuture == old(startedFuture)
      ensures stopRequested == old(stopRequested) && runnerException == old(runnerException)
      ensures launches == old(launches)
      ensures startedFuture != null ==> startedFuture.Valid() && startedFuture.done
      ensures startedFuture != null && old(startedFuture.done) ==> unchanged(startedFuture)
      ensures startedFuture != null && !old(startedFuture.done) ==> !startedFuture.cancelled
    {
      session := Some(s);
      handshakes := handshakes + 1;
      ResolveReadiness();
    }

    /**
     * The runner's exit. A failure is recorded and resolves a still
     * pending readiness future; on every path the session slot is cleared.
     * It ends without failure only after the stop flag was set.
     */
    method RunnerExit(failure: Option<PyException>)
      requires runnerTask == Some(Running)
      requires failure.None? ==> stopRequested
      requires startedFuture != null ==> startedFuture.Valid()
      modifies this, startedFuture
      ensures runnerTask == Some(Finished(failure)) && session.None?
      ensures runnerException == (if failure.Some? then failure else old(runnerException))
      ensures started == old(started) && startedFuture == old(startedFuture)
      ensures stopRequested == old(stopRequested)
      ensures launches == old(launches) && handshakes == old(handshakes)
      ensures startedFuture != null ==> startedFuture.Valid()
      ensures startedFuture != null && failure.Some? ==> startedFuture.done
      ensures startedFuture != null && (old(startedFuture.done) || failure.None?) ==> unchanged(startedFuture)
      ensures old(Valid()) && failure.Some? ==> Valid()
    {
      if failure.Some? {
        runnerException := failure;
        ResolveReadiness();
      }
      session := None;
      runnerTask := Some(Finished(failure));
    }

    /**
     * `start`: a no-op once started; otherwise launch a fresh runner and
     * wait for readiness. A timeout cancels the runner and clears the
     * slots; a recorded runner exception stops the controller and fails.
     */
    method Start(outcome: StartupOutcome) returns (r: Outcome<StartError>)
      requires Valid()
      modifies this
      ensures Valid()
      ensures old(started) ==> r == Pass && unchanged(this) && unchanged(startedFuture)
      ensures launches == old(launches) + (if old(started) then 0 else 1)
      ensures handshakes == old(handshakes) + (if !old(started) && outcome.Initialized? then 1 else 0)
      ensures !old(started) && outcome.Initialized? ==>
        && r == Pass && started && session == Some(outcome.session) && runnerTask == Some(Running)
        && !stopRequested && runnerException.None?
        && fresh(startedFuture) && startedFuture.done && !startedFuture.cancelled
      ensures !old(started) && outcome.StartupTimedOut? ==>
        r == Fail(TimedOut) && Cleared() && stopRequested && runnerException == Some(Cancellation)
      ensures !old(started) && outcome.RunnerRaised? ==>
        r == Fail(FailedToStart(outcome.cause)) && Cleared() && stopRequested && runnerException == Some(outcome.cause)
    {
      if started {
        return Pass;
      }
      runnerException := None;
      startedFuture := new Future();
      stopRequested := false;
      runnerTask := Some(Running);
      launches := launches + 1;
      match outcome {
        case Initialized(s) =>
          RunnerReady(s);
        case RunnerRaised(cause) =>
          RunnerExit(Some(cause));
        case StartupTimedOut =>
          // wait_for gives up and cancels the future it waited on
          startedFuture.Cancel();
          stopRequested := true;
          // the runner is cancelled and awaited, its CancelledError suppressed
          RunnerExit(Some(Cancellation));
          runnerTask := None;
          startedFuture := null;
          session := None;
          started := false;
          return Fail(TimedOut);
      }
      if runnerException.Some? {
        var cause := runnerException.value;
        // what stop() raises is not let through (see StartFailureAsWritten)
        var _ := Stop(Exited);
        return Fail(FailedToStart(cause));
      }
      started := true;
      r := Pass;
    }

    /**
     * `stop`: a no-op when not started and no task exists; otherwise set
     * the stop flag, join the runner, and whatever the join did, clear the
     * task, future and session slots and the started flag.
     */
    method Stop(join: JoinOutcome) returns (r: Outcome<PyException>)
      requires startedFuture != null ==> startedFuture.Valid()
      modifies this, startedFuture
      ensures !old(started) && old(runnerTask).None? ==>
        r == Pass && unchanged(this) && (startedFuture != null ==> unchanged(startedFuture))
      ensures old(started) || old(runnerTask).Some? ==> Cleared() && stopRequested
      ensures r == StopResult(old(runnerTask), join)
      ensures runnerException ==
        (if old(runnerTask) == Some(Running) && TaskFailure(Running, join).Some?
         then TaskFailure(Running, join) else old(runnerException))
      ensures launches == old(launches) && handshakes == old(handshakes)
      ensures old(Valid()) ==> Valid() && Cleared()
    {
      if !started && runnerTask.None? {
        return Pass;
      }
      stopRequested := true;
      r := Pass;
      if runnerTask.Some? {
        var task := runnerTask.value;
        if task.Running? {
          RunnerExit(TaskFailure(Running, join));
        }
        var failure := TaskFailure(task, join);
        if failure.Some? && EscapesStop(failure.value) {
          r := Fail(failure.value);
        }
      }
      runnerTask := None;
      startedFuture := null;
      session := None;
      started := false;
    }
  }

  /** Why an operation that starts the controller first could not reach a live session. */
  datatype Unavailable =
    | StartFailed(error: StartError)  // `start` raised
    | NoSession                       // started earlier, but the runner has since died

  /**
   * The session an operation reaches after its implicit `start`, from the
   * state before it: the existing session when already started, otherwise
   * the one the runner initializes, if it does.
   */
  function LiveSession(wasStarted: bool, session: Option<Session>, outcome: StartupOutcome): (r: Result<Session, Unavailable>)
  {
    if wasStarted then
      if session.Some? then Success(session.value) else Failure(NoSession)
    else
      match outcome
      case Initialized(s) => Success(s)
      case RunnerRaised(cause) => Failure(StartFailed(FailedToStart(cause)))
      case StartupTimedOut => Failure(StartFailed(TimedOut))
  }

  /**
   * The implicit `start` of a client operation: `start` fails exactly when
   * `LiveSession` reports a start failure, with that error, and otherwise
   * leaves in place the session `LiveSession` says the operation reaches.
   */
  method StartReachesLiveSession(c: Controller, outcome: StartupOutcome) returns (r: Outcome<StartError>)
    requires c.Valid()
    modifies c
    ensures var live := LiveSession(old(c.started), old(c.session), outcome);
      && (r.Fail? <==> (live.Failure? && live.error.StartFailed?))
      && (r.Fail? ==> live.error == StartFailed(r.error))
      && (r.Pass? ==> live == (if c.session.Some? then Success(c.session.value) else Failure(NoSession)))
  {
    r := c.Start(outcome);
  }

  /** A second `start` launches nothing and keeps the first session, whatever the runner would do. */
  method StartTwiceKeepsSession(s: Session, again: StartupOutcome)
    returns (second: Outcome<StartError>, live: Option<Session>, ghost launches: nat, ghost handshakes: nat)
    ensures second == Pass && live == Some(s)
    ensures launches == 1 && handshakes == 1
  {
    var c := new Controller();
    var first := c.Start(Initialized(s));
    second := c.Start(again);
    live, launches, handshakes := c.session, c.launches, c.handshakes;
  }

  /** `stop` before any `start` does nothing and raises nothing. */
  method StopBeforeStart(join: JoinOutcome) returns (r: Outcome<PyException>, stopFlag: bool)
    ensures r == Pass && !stopFlag
  {
    var c := new Controller();
    r := c.Stop(join);
    stopFlag := c.stopRequested;
  }

  /** After any `start` and `stop`, a second `stop` is a no-op and raises nothing. */
  method StopTwice(outcome: StartupOutcome, join1: JoinOutcome, join2: JoinOutcome)
    returns (second: Outcome<PyException>, started: bool, live: Option<Session>)
    ensures second == Pass && !started && live.None?
  {
    var c := new Controller();
    var _ := c.Start(outcome);
    var _ := c.Stop(join1);
    second := c.Stop(join2);
    started, live := c.started, c.session;
  }

  /** A failed or timed-out `start` leaves the controller ready for a retry that succeeds. */
  method RetryAfterFailedStart(first: StartupOutcome, s: Session)
    returns (firstResult: Outcome<StartError>, retry: Outcome<StartError>, live: Option<Session>)
    requires !first.Initialized?
    ensures firstResult.Fail? && retry == Pass && live == Some(s)
  {
    var c := new Controller();
    firstResult := c.Start(first);
    retry := c.Start(Initialized(s));
    live := c.session;
  }

  /**
   * Once the runner of a started controller has died, `start` is a no-op
   * (the started flag is still set), so the session stays absent until an
   * explicit `stop`.
   */
  method CrashedRunnerIsNotRestarted(s: Session, cause: PyException, again: StartupOutcome)
    returns (r: Outcome<StartError>, live: Option<Session>, recorded: Option<PyException>)
    ensures r == Pass && live.None? && recorded == Some(cause)
  {
    var c := new Controller();
    var _ := c.Start(Initialized(s));
    c.RunnerExit(Some(cause));
    r := c.Start(again);
    live, recorded := c.session, c.runnerException;
  }
}
