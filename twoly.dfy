/**
 * `MCPToolset` of the 2ly package: the same validation, environment (never
 * with `LOG_LEVEL`) and lifecycle as the Skilder client, plus the
 * `options` record; tools come from the adapter library's loader, which is
 * supplied as a parameter.
 */
module Twoly {
  import opened Wrappers
  import opened Python
  import opened Auth
  import opened LaunchEnv
  import opened Lifecycle

  /** The runtime entry point the toolset launches with `node`. */
  const RuntimeEntry := "/Users/ben/web/alpinai/2ly/packages/runtime/dist/index.js"

  /** The keyword defaults of the constructor and both factories. */
  const DefaultNatsServers := "nats://localhost:4222"
  const DefaultVersion := "latest"
  const DefaultStartupTimeout := 20.0

  const TimeoutMessage := "MCP runtime startup timed out. Ensure runtime can start and dependencies are reachable."
  const FailedMessage := "MCP runtime failed to start"

  /** `self.options`: the constructor's arguments as passed. */
  datatype Options = Options(workspaceKey: Option<string>, skillKey: Option<string>, natsServers: string,
                             version: string, startupTimeoutSeconds: real)

  /** What an operation raises when no live session could be reached. */
  function UnavailableException(u: Unavailable): PyException {
    match u
    case StartFailed(TimedOut) => PyException("RuntimeError", TimeoutMessage)
    case StartFailed(FailedToStart(_)) => PyException("RuntimeError", FailedMessage)
    case StartFailed(Reraised(cause)) => cause
    case NoSession => PyException("AssertionError", "")  // `assert self._session is not None`
  }

  /** What loading the tools returns or raises once the session is `live`. */
  function LoadResponse<T>(live: Result<Session, Unavailable>, loadTools: Session -> Result<seq<T>, PyException>)
    : Result<seq<T>, PyException>
  {
    match live
    case Failure(u) => Failure(UnavailableException(u))
    case Success(s) => loadTools(s)
  }

  /**
   * A start that does not initialize never reaches the loader: whatever it
   * would return, the caller gets the same `RuntimeError`.
   */
  lemma FailedStartNeverLoads<T>(outcome: StartupOutcome, load1: Session -> Result<seq<T>, PyException>,
                                 load2: Session -> Result<seq<T>, PyException>)
    requires !outcome.Initialized?
    ensures LoadResponse(LiveSession(false, None, outcome), load1) == LoadResponse(LiveSession(false, None, outcome), load2)
    ensures LoadResponse(LiveSession(false, None, outcome), load1).Failure?
    ensures LoadResponse(LiveSession(false, None, outcome), load1).error.kind == "RuntimeError"
  {
  }

  class MCPToolset {
    const name: Option<string>
    const options: Options
    const serverParams: ServerParams
    const startupTimeoutSeconds: real
    /** The lifecycle slots, as in the Skilder client. */
    const lifecycle: Controller

    ghost predicate Valid()
      reads this, lifecycle, lifecycle.startedFuture
    {
      lifecycle.Valid()
    }

    /** The state change of the implicit `start`. */
    twostate predicate StartedBy(outcome: StartupOutcome)
      reads this, lifecycle
    {
      && (lifecycle.started <==> old(lifecycle.started) || outcome.Initialized?)
      && (old(lifecycle.started) ==> unchanged(lifecycle))
      && (!old(lifecycle.started) && outcome.Initialized? ==> lifecycle.session == Some(outcome.session))
      && (!lifecycle.started ==> lifecycle.Cleared())
    }

    /** The part of `__init__` after validation. */
    constructor (name: Option<string> := None, workspaceKey: Option<string> := None, skillKey: Option<string> := None,
                 natsServers: string := DefaultNatsServers, version: string := DefaultVersion,
                 startupTimeoutSeconds: real := DefaultStartupTimeout)
      requires ValidateAuth(name, workspaceKey, skillKey).Pass?
      ensures Valid() && fresh(lifecycle) && lifecycle.Cleared()
      ensures !lifecycle.stopRequested && lifecycle.runnerException.None?
      ensures this.name == name && this.startupTimeoutSeconds == startupTimeoutSeconds
      ensures options == Options(workspaceKey, skillKey, natsServers, version, startupTimeoutSeconds)
      ensures serverParams.command == "node" && serverParams.args == [RuntimeEntry]
      ensures IsLaunchEnv(serverParams.env, name, workspaceKey, skillKey, natsServers, None)
      ensures "LOG_LEVEL" !in serverParams.env
    {
      this.name := name;
      options := Options(workspaceKey, skillKey, natsServers, version, startupTimeoutSeconds);
      var env := BuildEnv(name, workspaceKey, skillKey, natsServers, None);
      serverParams := ServerParams("node", [RuntimeEntry], env);
      this.startupTimeoutSeconds := startupTimeoutSeconds;
      lifecycle := new Controller();
    }

    /** `MCPToolset(...)`: raises `ValueError` for an invalid credential combination. */
    static method Create(name: Option<string> := None, workspaceKey: Option<string> := None,
                         skillKey: Option<string> := None, natsServers: string := DefaultNatsServers,
                         version: string := DefaultVersion, startupTimeoutSeconds: real := DefaultStartupTimeout)
      returns (r: Result<MCPToolset, PyException>)
      ensures r.Failure? <==> ValidateAuth(name, workspaceKey, skillKey).Fail?
      ensures r.Failure? ==> r.error == AuthException(ValidateAuth(name, workspaceKey, skillKey).error, "2ly")
      ensures r.Success? ==> fresh(r.value) && fresh(r.value.lifecycle) && r.value.Valid() && r.value.lifecycle.Cleared()
      ensures r.Success? ==> r.value.name == name && r.value.startupTimeoutSeconds == startupTimeoutSeconds
      ensures r.Success? ==> r.value.options == Options(workspaceKey, skillKey, natsServers, version, startupTimeoutSeconds)
      ensures r.Success? ==> IsLaunchEnv(r.value.serverParams.env, name, workspaceKey, skillKey, natsServers, None)
    {
      var checked := ValidateAuth(name, workspaceKey, skillKey);
      if checked.Fail? {
        return Failure(AuthException(checked.error, "2ly"));
      }
      var toolset := new MCPToolset(name, workspaceKey, skillKey, natsServers, version, startupTimeoutSeconds);
      return Success(toolset);
    }

    /** `with_workspace_key`: fails exactly when the name is empty. */
    static method WithWorkspaceKey(name: string, workspaceKey: string, natsServers: string := DefaultNatsServers,
                                   version: string := DefaultVersion, startupTimeoutSeconds: real := DefaultStartupTimeout)
      returns (r: Result<MCPToolset, PyException>)
      ensures r.Failure? <==> name == ""
      ensures r.Failure? ==> r.error == AuthException(NameRequired, "2ly")
      ensures r.Success? ==> fresh(r.value) && fresh(r.value.lifecycle) && r.value.Valid() && r.value.lifecycle.Cleared()
      ensures r.Success? ==> r.value.name == Some(name)
      ensures r.Success? ==> r.value.options == Options(Some(workspaceKey), None, natsServers, version, startupTimeoutSeconds)
      ensures r.Success? ==> IsLaunchEnv(r.value.serverParams.env, Some(name), Some(workspaceKey), None, natsServers, None)
      ensures r.Success? && workspaceKey != "" ==>
        && "WORKSPACE_KEY" in r.value.serverParams.env && r.value.serverParams.env["WORKSPACE_KEY"] == workspaceKey
        && "SKILL_NAME" in r.value.serverParams.env && r.value.serverParams.env["SKILL_NAME"] == name
    {
      r := Create(Some(name), Some(workspaceKey), None, natsServers, version, startupTimeoutSeconds);
    }

    /** `with_skill_key`: never fails. */
    static method WithSkillKey(skillKey: string, natsServers: string := DefaultNatsServers,
                               version: string := DefaultVersion, startupTimeoutSeconds: real := DefaultStartupTimeout)
      returns (r: Result<MCPToolset, PyException>)
      ensures r.Success? && fresh(r.value) && fresh(r.value.lifecycle) && r.value.Valid() && r.value.lifecycle.Cleared()
      ensures r.value.name.None?
      ensures r.value.options == Options(None, Some(skillKey), natsServers, version, startupTimeoutSeconds)
      ensures IsLaunchEnv(r.value.serverParams.env, None, None, Some(skillKey), natsServers, None)
      ensures "WORKSPACE_KEY" !in r.value.serverParams.env && "SKILL_NAME" !in r.value.serverParams.env
      ensures skillKey != "" ==>
        "SKILL_KEY" in r.value.serverParams.env && r.value.serverParams.env["SKILL_KEY"] == skillKey
    {
      r := Create(None, None, Some(skillKey), natsServers, version, startupTimeoutSeconds);
    }

    /** `start` (and entering `async with`). */
    method Start(outcome: StartupOutcome) returns (r: Outcome<PyException>)
      requires Valid()
      modifies lifecycle
      ensures Valid() && StartedBy(outcome)
      ensures r.Pass? <==> lifecycle.started
      ensures !old(lifecycle.started) && outcome.Initialized? ==>
        fresh(lifecycle.startedFuture) && lifecycle.runnerTask == Some(Running)
      ensures r.Fail? ==> r.error == UnavailableException(LiveSession(old(lifecycle.started), old(lifecycle.session), outcome).error)
    {
      var res := lifecycle.Start(outcome);
      r := if res.Fail? then Fail(UnavailableException(StartFailed(res.error))) else Pass;
    }

    /** `stop` (and leaving `async with`): every slot cleared, whatever the join did. */
    method Stop(join: JoinOutcome) returns (r: Outcome<PyException>)
      requires Valid()
      modifies lifecycle, lifecycle.startedFuture
      ensures Valid() && lifecycle.Cleared()
      ensures r == StopResult(old(lifecycle.runnerTask), join)
    {
      r := lifecycle.Stop(join);
    }

    /** `get_langchain_tools`: start, then hand the live session to the loader and return its tools as they are. */
    method GetLangchainTools<T>(outcome: StartupOutcome, loadTools: Session -> Result<seq<T>, PyException>)
      returns (r: Result<seq<T>, PyException>)
      requires Valid()
      modifies lifecycle
      ensures Valid() && StartedBy(outcome)
      ensures r == LoadResponse(LiveSession(old(lifecycle.started), old(lifecycle.session), outcome), loadTools)
    {
      var started := Start(outcome);
      if started.Fail? {
        return Failure(started.error);
      }
      if lifecycle.session.None? {
        return Failure(UnavailableException(NoSession));
      }
      r := loadTools(lifecycle.session.value);
    }

    /** `list_tools`: an alias of `get_langchain_tools`. */
    method ListTools<T>(outcome: StartupOutcome, loadTools: Session -> Result<seq<T>, PyException>)
      returns (r: Result<seq<T>, PyException>)
      requires Valid()
      modifies lifecycle
      ensures Valid() && StartedBy(outcome)
      ensures r == LoadResponse(LiveSession(old(lifecycle.started), old(lifecycle.session), outcome), loadTools)
    {
      r := GetLangchainTools(outcome, loadTools);
    }

    /** `tools`: an alias of `get_langchain_tools`. */
    method Tools<T>(outcome: StartupOutcome, loadTools: Session -> Result<seq<T>, PyException>)
      returns (r: Result<seq<T>, PyException>)
      requires Valid()
      modifies lifecycle
      ensures Valid() && StartedBy(outcome)
      ensures r == LoadResponse(LiveSession(old(lifecycle.started), old(lifecycle.session), outcome), loadTools)
    {
      r := GetLangchainTools(outcome, loadTools);
    }
  }

  /**
   * The toolset test's lifecycle: a successful start leaves a session;
   * after a stop, the session, task and started flag are cleared, and a
   * second stop is a no-op.
   */
  method ManualStartStop(s: Session, join1: JoinOutcome, join2: JoinOutcome)
    returns (startedSession: Option<Session>, firstStop: Outcome<PyException>, secondStop: Outcome<PyException>,
             started: bool, live: Option<Session>, task: Option<Task>)
    ensures startedSession.Some?
    ensures !started && live.None? && task.None? && secondStop == Pass
    ensures firstStop == StopResult(Some(Running), join1)
  {
    var created := MCPToolset.WithSkillKey("SKL_test");
    var toolset := created.value;
    var _ := toolset.Start(Initialized(s));
    startedSession := toolset.lifecycle.session;
    firstStop := toolset.Stop(join1);
    secondStop := toolset.Stop(join2);
    started, live, task := toolset.lifecycle.started, toolset.lifecycle.session, toolset.lifecycle.runnerTask;
  }

  /**
   * What a client operation raises when the runner failed during startup:
   * as written, the runner's own exception (unless it is a cancellation or
   * timeout); with the corrected `start`, the "failed to start" error.
   */
  lemma StartFailureAtClient(cause: PyException)
    ensures EscapesStop(cause) ==> UnavailableException(StartFailed(StartFailureAsWritten(cause))) == cause
    ensures !EscapesStop(cause) ==> UnavailableException(StartFailed(StartFailureAsWritten(cause))) == PyException("RuntimeError", FailedMessage)
    ensures UnavailableException(LiveSession(false, None, RunnerRaised(cause)).error) == PyException("RuntimeError", FailedMessage)
  {
  }

  /**
   * The toolset tests' workspace-key toolset with every other argument
   * left at its default: local NATS servers, version "latest", a 20 second
   * startup timeout, all recorded in `options`.
   */
  method DefaultWorkspaceToolset() returns (env: map<string, string>, options: Options)
    ensures env == map["NATS_SERVERS" := "nats://localhost:4222", "WORKSPACE_KEY" := "WSK_test", "SKILL_NAME" := "test"]
    ensures options == Options(Some("WSK_test"), None, "nats://localhost:4222", "latest", 20.0)
  {
    var created := MCPToolset.WithWorkspaceKey("test", "WSK_test");
    env, options := created.value.serverParams.env, created.value.options;
  }

  /** `MCPToolset()` with no argument at all raises the "Authentication required" error naming the 2ly UI. */
  method NoArgumentsRejected() returns (r: Result<MCPToolset, PyException>)
    ensures r.Failure? && r.error == AuthException(AuthenticationRequired, "2ly")
  {
    r := MCPToolset.Create();
  }
}
