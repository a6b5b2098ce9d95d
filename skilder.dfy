/**
 * `MCPClient` of the Skilder package: validated construction with its
 * launch environment, the lifecycle it owns, and the tool operations, each
 * of which starts the session first.
 */
module Skilder {
  import opened Wrappers
  import opened Python
  import opened Auth
  import opened LaunchEnv
  import opened Lifecycle
  import opened ToolGateway

  /** The runtime entry point the client launches with `node`. */
  const RuntimeEntry := "/Users/ben/web/alpinai/Skilder/packages/runtime/dist/index.js"
  /** The keyword defaults of the constructor and both factories. */
  const DefaultNatsServers := "nats://localhost:4222"
  const DefaultVersion := "latest"
  const DefaultStartupTimeout := 20.0

  const TimeoutMessage := "MCP runtime startup timed out. Ensure runtime can start and dependencies (e.g., NATS) are reachable."
  const FailedMessage := "MCP runtime failed to start"

  /** What an operation raises when no live session could be reached. */
  function UnavailableException(u: Unavailable): PyException {
    match u
    case StartFailed(TimedOut) => PyException("RuntimeError", TimeoutMessage)
    case StartFailed(FailedToStart(_)) => PyException("RuntimeError", FailedMessage)
    case StartFailed(Reraised(cause)) => cause
    case NoSession => PyException("AssertionError", "")  // `assert self._session is not None`
  }

  /** The live session, or the exception raised on the way to it. */
  function SessionOrRaise(live: Result<Session, Unavailable>): Result<Session, PyException> {
    match live
    case Success(s) => Success(s)
    case Failure(u) => Failure(UnavailableException(u))
  }

  /** What `call_tool` returns or raises once it reached `live`. */
  function CallResponse(live: Result<Session, PyException>,
                        remote: (Session, string, map<string, PyValue>) -> Result<CallToolResult, PyException>,
                        toolName: string, arguments: map<string, PyValue>): Result<map<string, PyValue>, PyException>
  {
    match live
    case Failure(e) => Failure(e)
    case Success(s) =>
      match remote(s, toolName, arguments)
      case Success(res) => Success(CallToolDict(res))
      case Failure(e) => Failure(e)
  }

  /** What `get_langchain_tools` returns or raises once it reached `live`. */
  function ListingResponse(live: Result<Session, PyException>,
                           listTools: Session -> Result<seq<RemoteTool>, PyException>): Result<seq<RemoteTool>, PyException>
  {
    match live
    case Failure(e) => Failure(e)
    case Success(s) => listTools(s)
  }

  class MCPClient {
    const name: Option<string>
    const serverParams: ServerParams
    const startupTimeoutSeconds: real
    /** The lifecycle slots `_started`, `_runner_task`, `_started_future`, `_session`, `_stop_requested`, `_runner_exception`. */
    const lifecycle: Controller

    ghost predicate Valid()
      reads this, lifecycle, lifecycle.startedFuture
    {
      lifecycle.Valid()
    }

    /** The state change of the implicit `start` every operation performs first. */
    twostate predicate StartedBy(outcome: StartupOutcome)
      reads this, lifecycle
    {
      && (lifecycle.started <==> old(lifecycle.started) || outcome.Initialized?)
      && (old(lifecycle.started) ==> unchanged(lifecycle))
      && (!old(lifecycle.started) && outcome.Initialized? ==> lifecycle.session == Some(outcome.session))
      && (!lifecycle.started ==> lifecycle.Cleared())
    }

    /** The part of `__init__` after validation. */
    constructor (name: Option<string> := None, workspaceKey: Option<string> := None, skillKey: Option<string> := None,
                 natsServers: string := DefaultNatsServers, version: string := DefaultVersion,
                 startupTimeoutSeconds: real := DefaultStartupTimeout, logLevel: Option<string> := None)
      requires ValidateAuth(name, workspaceKey, skillKey).Pass?
      ensures Valid() && fresh(lifecycle) && lifecycle.Cleared()
      ensures !lifecycle.stopRequested && lifecycle.runnerException.None?
      ensures this.name == name && this.startupTimeoutSeconds == startupTimeoutSeconds
      ensures serverParams.command == "node" && serverParams.args == [RuntimeEntry]
      ensures IsLaunchEnv(serverParams.env, name, workspaceKey, skillKey, natsServers, logLevel)
    {
      var env := BuildEnv(name, workspaceKey, skillKey, natsServers, logLevel);
      this.name := name;
      serverParams := ServerParams("node", [RuntimeEntry], env);
      this.startupTimeoutSeconds := startupTimeoutSeconds;
      lifecycle := new Controller();
    }

    /** `MCPClient(...)`: raises `ValueError` for an invalid credential combination. */
    static method Create(name: Option<string> := None, workspaceKey: Option<string> := None,
                         skillKey: Option<string> := None, natsServers: string := DefaultNatsServers,
                         version: string := DefaultVersion, startupTimeoutSeconds: real := DefaultStartupTimeout,
                         logLevel: Option<string> := None) returns (r: Result<MCPClient, PyException>)
      ensures r.Failure? <==> ValidateAuth(name, workspaceKey, skillKey).Fail?
      ensures r.Failure? ==> r.error == AuthException(ValidateAuth(name, workspaceKey, skillKey).error, "Skilder")
      ensures r.Success? ==> fresh(r.value) && fresh(r.value.lifecycle) && r.value.Valid() && r.value.lifecycle.Cleared()
      ensures r.Success? ==> r.value.name == name && r.value.startupTimeoutSeconds == startupTimeoutSeconds
      ensures r.Success? ==> IsLaunchEnv(r.value.serverParams.env, name, workspaceKey, skillKey, natsServers, logLevel)
    {
      var checked := ValidateAuth(name, workspaceKey, skillKey);
      if checked.Fail? {
        return Failure(AuthException(checked.error, "Skilder"));
      }
      var client := new MCPClient(name, workspaceKey, skillKey, natsServers, version, startupTimeoutSeconds, logLevel);
      return Success(client);
    }

    /** `with_workspace_key`: fails exactly when the name is empty. */
    static method WithWorkspaceKey(name: string, workspaceKey: string, natsServers: string := DefaultNatsServers,
                                   version: string := DefaultVersion, startupTimeoutSeconds: real := DefaultStartupTimeout,
                                   logLevel: Option<string> := None)
      returns (r: Result<MCPClient, PyException>)
      ensures r.Failure? <==> name == ""
      ensures r.Failure? ==> r.error == AuthException(NameRequired, "Skilder")
      ensures r.Success? ==> fresh(r.value) && r.value.Valid() && r.value.lifecycle.Cleared()
      ensures r.Success? ==> r.value.name == Some(name) && r.value.startupTimeoutSeconds == startupTimeoutSeconds
      ensures r.Success? ==> IsLaunchEnv(r.value.serverParams.env, Some(name), Some(workspaceKey), None, natsServers, logLevel)
      ensures r.Success? && workspaceKey != "" ==>
        && "WORKSPACE_KEY" in r.value.serverParams.env && r.value.serverParams.env["WORKSPACE_KEY"] == workspaceKey
        && "SKILL_NAME" in r.value.serverParams.env && r.value.serverParams.env["SKILL_NAME"] == name
    {
      r := Create(Some(name), Some(workspaceKey), None, natsServers, version, startupTimeoutSeconds, logLevel);
    }

    /** `with_skill_key`: never fails. */
    static method WithSkillKey(skillKey: string, natsServers: string := DefaultNatsServers,
                               version: string := DefaultVersion, startupTimeoutSeconds: real := DefaultStartupTimeout,
                               logLevel: Option<string> := None)
      returns (r: Result<MCPClient, PyException>)
      ensures r.Success? && fresh(r.value) && r.value.Valid() && r.value.lifecycle.Cleared()
      ensures r.value.name.None? && r.value.startupTimeoutSeconds == startupTimeoutSeconds
      ensures IsLaunchEnv(r.value.serverParams.env, None, None, Some(skillKey), natsServers, logLevel)
      ensures "WORKSPACE_KEY" !in r.value.serverParams.env && "SKILL_NAME" !in r.value.serverParams.env
      ensures skillKey != "" ==>
        "SKILL_KEY" in r.value.serverParams.env && r.value.serverParams.env["SKILL_KEY"] == skillKey
    {
      r := Create(None, None, Some(skillKey), natsServers, version, startupTimeoutSeconds, logLevel);
    }

    /** `start` (and entering `async with`). */
    method Start(outcome: StartupOutcome) returns (r: Outcome<PyException>)
      requires Valid()
      modifies lifecycle
      ensures Valid() && StartedBy(outcome)
      ensures r.Pass? <==> lifecycle.started
      ensures r.Fail? ==> r.error == UnavailableException(LiveSession(old(lifecycle.started), old(lifecycle.session), outcome).error)
    {
      var res := lifecycle.Start(outcome);
      r := if res.Fail? then Fail(UnavailableException(StartFailed(res.error))) else Pass;
    }

    /** `stop` (and leaving `async with`): every slot cleared, whatever the join did. */
    method Stop(join: JoinOutcome) returns (r: Outcome<PyException>)
      requires Valid()
      modifies lifecycle, lifecycle.startedFuture
      ensures Valid() && lifecycle.Cleared()
      ensures r == StopResult(old(lifecycle.runnerTask), join)
    {
      r := lifecycle.Stop(join);
    }

    /** `get_langchain_tools`: start, list, adapt each descriptor in order. */
    method GetLangchainTools(outcome: StartupOutcome, listTools: Session -> Result<seq<RemoteTool>, PyException>)
      returns (r: Result<seq<Tool>, PyException>)
      requires Valid()
      modifies lifecycle
      ensures Valid() && StartedBy(outcome)
      ensures var listing := ListingResponse(SessionOrRaise(LiveSession(old(lifecycle.started), old(lifecycle.session), outcome)), listTools);
        && (r.Failure? <==> listing.Failure?)
        && (r.Failure? ==> r.error == listing.error)
        && (r.Success? ==>
              && |r.value| == |listing.value|
              && forall i :: 0 <= i < |listing.value| ==> r.value[i] == ToolFromDescriptor(listing.value[i]))
    {
      var started := Start(outcome);
      if started.Fail? {
        return Failure(started.error);
      }
      if lifecycle.session.None? {
        return Failure(UnavailableException(NoSession));
      }
      var listing := listTools(lifecycle.session.value);
      if listing.Failure? {
        return Failure(listing.error);
      }
      var tools := AdaptTools(listing.value);
      return Success(tools);
    }

    /** `list_tools`: an alias of `get_langchain_tools`. */
    method ListTools(outcome: StartupOutcome, listTools: Session -> Result<seq<RemoteTool>, PyException>)
      returns (r: Result<seq<Tool>, PyException>)
      requires Valid()
      modifies lifecycle
      ensures Valid() && StartedBy(outcome)
      ensures var listing := ListingResponse(SessionOrRaise(LiveSession(old(lifecycle.started), old(lifecycle.session), outcome)), listTools);
        && (r.Failure? <==> listing.Failure?)
        && (r.Failure? ==> r.error == listing.error)
        && (r.Success? ==>
              && |r.value| == |listing.value|
              && forall i :: 0 <= i < |listing.value| ==> r.value[i] == ToolFromDescriptor(listing.value[i]))
    {
      r := GetLangchainTools(outcome, listTools);
    }

    /** `tools()`: the metadata dict of every listed tool, in order. */
    method Tools(outcome: StartupOutcome, listTools: Session -> Result<seq<RemoteTool>, PyException>)
      returns (r: Result<seq<map<string, PyValue>>, PyException>)
      requires Valid()
      modifies lifecycle
      ensures Valid() && StartedBy(outcome)
      ensures var listing := ListingResponse(SessionOrRaise(LiveSession(old(lifecycle.started), old(lifecycle.session), outcome)), listTools);
        && (r.Failure? <==> listing.Failure?)
        && (r.Failure? ==> r.error == listing.error)
        && (r.Success? ==>
              && |r.value| == |listing.value|
              && forall i :: 0 <= i < |listing.value| ==> r.value[i] == ToolDict(ToolFromDescriptor(listing.value[i])))
    {
      var tools := GetLangchainTools(outcome, listTools);
      if tools.Failure? {
        return Failure(tools.error);
      }
      return Success(ToolDicts(tools.value));
    }

    /** `get_tool_by_name`: the first listed tool with that name, or nothing. */
    method GetToolByName(outcome: StartupOutcome, listTools: Session -> Result<seq<RemoteTool>, PyException>,
                         toolName: string) returns (r: Result<Option<Tool>, PyException>)
      requires Valid()
      modifies lifecycle
      ensures Valid() && StartedBy(outcome)
      ensures var listing := ListingResponse(SessionOrRaise(LiveSession(old(lifecycle.started), old(lifecycle.session), outcome)), listTools);
        && (r.Failure? <==> listing.Failure?)
        && (r.Failure? ==> r.error == listing.error)
        && (r.Success? && r.value.None? ==> forall i :: 0 <= i < |listing.value| ==> listing.value[i].name != toolName)
        && (r.Success? && r.value.Some? ==>
              exists i :: 0 <= i < |listing.value| && r.value.value == ToolFromDescriptor(listing.value[i])
                          && listing.value[i].name == toolName
                          && forall j :: 0 <= j < i ==> listing.value[j].name != toolName)
    {
      var tools := GetLangchainTools(outcome, listTools);
      if tools.Failure? {
        return Failure(tools.error);
      }
      var found := FindTool(tools.value, toolName);
      return Success(found);
    }

    /** `call_tool`: start, then pass name and arguments to the session unchanged and return its response. */
    method CallTool(outcome: StartupOutcome, toolName: string, arguments: map<string, PyValue>,
                    remote: (Session, string, map<string, PyValue>) -> Result<CallToolResult, PyException>)
      returns (r: Result<map<string, PyValue>, PyException>)
      requires Valid()
      modifies lifecycle
      ensures Valid() && StartedBy(outcome)
      ensures r == CallResponse(SessionOrRaise(LiveSession(old(lifecycle.started), old(lifecycle.session), outcome)),
                                remote, toolName, arguments)
    {
      var started := Start(outcome);
      if started.Fail? {
        return Failure(started.error);
      }
      if lifecycle.session.None? {
        return Failure(UnavailableException(NoSession));
      }
      var res := remote(lifecycle.session.value, toolName, arguments);
      if res.Failure? {
        return Failure(res.error);
      }
      return Success(CallToolDict(res.value));
    }

    /** `MCPTool._arun` of a tool of this client: call it and format the outcome as text. */
    method RunTool(tool: Tool, kwargs: map<string, PyValue>, outcome: StartupOutcome,
                   remote: (Session, string, map<string, PyValue>) -> Result<CallToolResult, PyException>,
                   show: PyValue -> string) returns (r: Result<string, PyException>)
      requires Valid()
      modifies lifecycle
      ensures Valid() && StartedBy(outcome)
      ensures r == ArunResult(tool.name,
                              CallResponse(SessionOrRaise(LiveSession(old(lifecycle.started), old(lifecycle.session), outcome)),
                                           remote, tool.name, kwargs), show)
    {
      var result := CallTool(outcome, tool.name, kwargs, remote);
      if result.Failure? && !IsException(result.error) {
        return Failure(result.error);
      }
      var text := FormatToolOutput(tool.name, result, show);
      return Success(text);
    }
  }

  /** A call on a live session returns exactly the response's content and error flag. */
  lemma CallForwardsResponse(s: Session, remote: (Session, string, map<string, PyValue>) -> Result<CallToolResult, PyException>,
                             toolName: string, arguments: map<string, PyValue>, res: CallToolResult)
    requires remote(s, toolName, arguments) == Success(res)
    ensures var r := CallResponse(Success(s), remote, toolName, arguments);
      r.Success? && r.value.Keys == {"content", "isError"}
      && r.value["content"] == res.content && r.value["isError"] == PyBool(res.isError)
  {
  }

  /** A start that times out surfaces in `_arun` as the timeout message, never as a raised error. */
  lemma TimeoutReportedByRun(toolName: string, arguments: map<string, PyValue>,
                             remote: (Session, string, map<string, PyValue>) -> Result<CallToolResult, PyException>,
                             show: PyValue -> string)
    ensures ArunResult(toolName, CallResponse(SessionOrRaise(LiveSession(false, None, StartupTimedOut)), remote, toolName, arguments), show)
            == Success("Error calling " + toolName + ": " + TimeoutMessage)
  {
  }

  /** A cancelled call is not turned into text by `_arun`: the cancellation propagates. */
  lemma CancelledCallPropagates(s: Session, toolName: string, arguments: map<string, PyValue>,
                                remote: (Session, string, map<string, PyValue>) -> Result<CallToolResult, PyException>,
                                show: PyValue -> string)
    requires remote(s, toolName, arguments) == Failure(Cancellation)
    ensures ArunResult(toolName, CallResponse(Success(s), remote, toolName, arguments), show) == Failure(Cancellation)
  {
  }

  /**
   * What a client operation raises when the runner failed during startup:
   * as written, the runner's own exception (unless it is a cancellation or
   * timeout); with the corrected `start`, the "failed to start" error.
   */
  lemma StartFailureAtClient(cause: PyException)
    ensures EscapesStop(cause) ==> UnavailableException(StartFailed(StartFailureAsWritten(cause))) == cause
    ensures !EscapesStop(cause) ==> UnavailableException(StartFailed(StartFailureAsWritten(cause))) == PyException("RuntimeError", FailedMessage)
    ensures UnavailableException(LiveSession(false, None, RunnerRaised(cause)).error) == PyException("RuntimeError", FailedMessage)
  {
  }

  /**
   * The client tests' workspace-key client with every other argument left
   * at its default: local NATS servers, no log level, no skill key.
   */
  method DefaultWorkspaceClient() returns (env: map<string, string>, name: Option<string>, timeout: real)
    ensures env == map["NATS_SERVERS" := "nats://localhost:4222", "WORKSPACE_KEY" := "WSK_test", "SKILL_NAME" := "test"]
    ensures name == Some("test") && timeout == 20.0
  {
    var created := MCPClient.WithWorkspaceKey("test", "WSK_test");
    env, name, timeout := created.value.serverParams.env, created.value.name, created.value.startupTimeoutSeconds;
  }

  /** `MCPClient()` with no argument at all raises the "Authentication required" error. */
  method NoArgumentsRejected() returns (r: Result<MCPClient, PyException>)
    ensures r.Failure? && r.error == AuthException(AuthenticationRequired, "Skilder")
  {
    r := MCPClient.Create();
  }
}
