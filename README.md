# Verified model of the 2ly / Skilder MCP client

The 2ly repository ships two Python packages, `langchain_skilder` and `langchain_2ly`. Each holds the same client. It launches the 2ly/Skilder runtime as a child process, holds one shared MCP (Model Context Protocol) session to it, and hands the runtime's tools to LangChain agents. The client is `MCPClient` in `langchain_skilder/mcp_only.py` and `MCPToolset` in `langchain_2ly/mcp.py`. This project models, in Dafny, the parts of that client that decide things:

- **Authentication** (`Auth`). `_validate_auth` accepts exactly one credential. A workspace key needs a skill name, and a skill key forbids one. A key counts as given when it `is not None`; the name counts by truthiness. Each of the four rejections raises its own `ValueError` message.
- **Launch environment** (`LaunchEnv`). `__init__` builds the dictionary handed to the runtime process: `NATS_SERVERS`, then `WORKSPACE_KEY` and `SKILL_NAME`, or else `SKILL_KEY`, each only when the key is truthy. The Skilder client also emits `LOG_LEVEL` when it is truthy.
- **Session lifecycle** (`Lifecycle`). The six fields `_started`, `_runner_task`, `_started_future`, `_session`, `_stop_requested` and `_runner_exception` live in a `Controller` class. Its methods `Start`, `Stop`, `RunnerReady` and `RunnerExit` make the same field updates, in the same order, as `start`, `stop` and the background coroutine `_run_session`.
  - The background task is not run. What it does while `start` waits is a `StartupOutcome` parameter: initialized, raised, or timed out. How it ends when `stop` joins it is a `JoinOutcome` parameter.
  - The readiness future is a small `Future` class. A ghost counter in it shows the future is completed at most once.
- **Tool gateway** (`ToolGateway`, Skilder only). This covers:
  - adapting listed descriptors into `MCPTool`s (`description or ""`, `inputSchema or {}`), in listing order;
  - the `tools()` metadata dicts;
  - the first-match `get_tool_by_name`;
  - the `{content, isError}` dict of `call_tool`;
  - the text `MCPTool._arun` returns. That includes Python's `"\n".join`, which raises `TypeError` on a non-string item.
- **The two clients** (`Skilder.MCPClient`, `Twoly.MCPToolset`). Each is a class that owns a `Controller`. Every tool operation first runs the implicit `start`, then calls the session.
  - Session calls are function parameters taking the `Session`: `list_tools`, `call_tool`, and `load_mcp_tools` from the adapter library.
  - Their contracts tie each result to the session the operation reaches (`Lifecycle.LiveSession`) and to the response of that call.

Python values the client receives (content items, schemas, arguments) are the `Python.PyValue` datatype. Exceptions are `Python.PyException`: a class name and the text `str(e)` gives. The string form `str(x)` of a non-string is a function parameter `show`.

Three points where the code does not do what its surroundings suggest. The model follows the code in the last two; for the first it states the code as written and builds on the corrected behaviour:

- The `raise RuntimeError("MCP runtime failed to start")` in `start` is never reached for ordinary runner exceptions; see Findings. `Lifecycle.StartFailureAsWritten` states the behaviour as written, and `Lifecycle.Controller.Start` the evidently intended one. The whole client layer is built on the corrected `start`. So every operation that starts the client first (`Start`, the tool operations, `RunTool`) reports a runner failure during startup as "MCP runtime failed to start", where the code as written would raise the runner's own exception. `Skilder.StartFailureAtClient` and `Twoly.StartFailureAtClient` state both behaviours at the client level. The rows below that depend on this say "(corrected, see Findings)".
- `call_tool` lets an exception from the session propagate. Only `_arun` turns it into text, and only when it is an `Exception`.
- The tests expect the launch command `npx` with a versioned package argument. The code launches `node` with a fixed path and ignores `version`.

## Model

| member | source | states |
|---|---|---|
| Auth.ValidateAuth | packages/langchain_skilder/src/langchain_skilder/mcp_only.py:46-83 | Accepts iff exactly one key is non-None, a workspace key comes with a truthy name, and a skill key comes with a falsy name. Each of the four errors is returned exactly under its own condition (both directions). The copy in `langchain_2ly/mcp.py` (16-53) is the same decision; only the product name in the first message differs (`AuthErrorMessage`). |
| LaunchEnv.BuildEnv | packages/langchain_skilder/src/langchain_skilder/mcp_only.py:207-219 | The filled dictionary satisfies `IsLaunchEnv`, key by key: `NATS_SERVERS` always; `WORKSPACE_KEY` and `SKILL_NAME` iff the workspace key is truthy; `SKILL_KEY` iff the workspace key is falsy and the skill key truthy; `LOG_LEVEL` iff it is truthy; values as passed, and no other key. The 2ly constructor (`mcp.py` 106-115) calls it with no log level, so `LOG_LEVEL` is never present there. |
| LaunchEnv.LaunchEnvUnique | packages/langchain_skilder/src/langchain_skilder/mcp_only.py:207-219 | The key-by-key description determines the whole map. Two maps meeting it for one configuration are equal. |
| LaunchEnv.ValidConfigEmitsOneCredential | packages/langchain_skilder/tests/test_mcp_only.py:242-250 | For a valid configuration with a non-empty key, exactly one of `WORKSPACE_KEY` and `SKILL_KEY` is emitted. `SKILL_NAME` is emitted with the workspace key. The deprecated `RUNTIME_NAME` and `WORKSPACE_ID` never are. |
| LaunchEnv.EmptyWorkspaceKeyEmitsNoCredential | packages/langchain_skilder/src/langchain_skilder/mcp_only.py:57-216 | `workspace_key=""` with a name passes validation (presence is `is not None`), yet no credential key at all reaches the environment. |
| LaunchEnv.EmptySkillKeyEmitsNoCredential | packages/langchain_skilder/src/langchain_skilder/mcp_only.py:57-216 | `skill_key=""` without a name passes validation, and only `NATS_SERVERS` and `LOG_LEVEL` can be present. |
| LaunchEnv.WorkspaceKeyExample | packages/langchain_skilder/tests/test_mcp_only.py:20-29 | The test's workspace-key configuration yields exactly `NATS_SERVERS`, `WORKSPACE_KEY` and `SKILL_NAME` with the test's values. |
| LaunchEnv.SkillKeyExample | packages/langchain_skilder/tests/test_mcp_only.py:31-38 | The test's skill-key configuration yields exactly `NATS_SERVERS` and `SKILL_KEY`. |
| Lifecycle.StopRaisesOnlyRunnerErrors | packages/langchain_skilder/src/langchain_skilder/mcp_only.py:370-380 | `stop` raises nothing of its own. Whatever it raises is an exception the runner raised: the recorded failure of a finished task, or the failure of a running task as it exits. It never raises the cancellation it or a startup timeout inflicted. So a clean or timed-out join of a running task never raises, and neither does a stop without a task or after a clean exit. |
| Lifecycle.StartFailureAsWritten | packages/langchain_skilder/src/langchain_skilder/mcp_only.py:361-363 | As written, `start` after a recorded runner exception surfaces that exception unwrapped, unless it is `CancelledError` or `TimeoutError`. Only in those two cases does the "failed to start" error appear. |
| Lifecycle.StartFailureAsWrittenLosesWrapper | packages/langchain_skilder/src/langchain_skilder/mcp_only.py:361-363 | A runtime that cannot be spawned (`FileNotFoundError`) surfaces as itself, not as "MCP runtime failed to start". |
| Lifecycle.Future.constructor | packages/langchain_skilder/src/langchain_skilder/mcp_only.py:344 | A new readiness future is pending and has never been completed. |
| Lifecycle.Future.SetResult | packages/langchain_skilder/src/langchain_skilder/mcp_only.py:398-399 | `set_result` may only be called on a pending future. It completes the future once, not as cancelled. |
| Lifecycle.Future.Cancel | packages/langchain_skilder/src/langchain_skilder/mcp_only.py:349-350 | The timed-out `wait_for` cancels a pending future. A done one is left alone. Either way it is completed at most once. |
| Lifecycle.Controller.constructor | packages/langchain_skilder/src/langchain_skilder/mcp_only.py:229-235 | All slots empty, not started, stop flag false, no recorded exception. |
| Lifecycle.Controller.ResolveReadiness | packages/langchain_skilder/src/langchain_skilder/mcp_only.py:398-399 | The runner resolves the future only while it is pending. A done future is unchanged, so it is assigned at most once. |
| Lifecycle.Controller.RunnerReady | packages/langchain_skilder/src/langchain_skilder/mcp_only.py:394-399 | The runner publishes the session, counts one handshake and resolves readiness. Every other field is unchanged. |
| Lifecycle.Controller.RunnerExit | packages/langchain_skilder/src/langchain_skilder/mcp_only.py:402-408 | On exit the session slot is cleared on every path. A failure is recorded and resolves a still-pending future. A clean exit happens only after the stop flag was set. |
| Lifecycle.Controller.Start | packages/langchain_skilder/src/langchain_skilder/mcp_only.py:341-364 | A no-op when started. Otherwise it makes exactly one launch, resets the exception and the stop flag, and then: on initialization it is started with that session; on timeout it fails with every slot cleared and the stop flag set; on a runner exception it runs `stop` and fails with the cause (corrected, see Findings). The class invariant `Valid` is preserved. The 2ly `start` (`mcp.py` 222-246) is the same state machine. |
| Lifecycle.Controller.Stop | packages/langchain_skilder/src/langchain_skilder/mcp_only.py:366-385 | A no-op when not started and no task exists. Otherwise it sets the stop flag and, whatever the join did, clears task, future and session and the started flag. What it raises is `StopResult` of the task it found (characterised by `StopRaisesOnlyRunnerErrors`). It records the joined runner's failure and preserves `Valid`. The 2ly `stop` (`mcp.py` 248-266) is the same. |
| Lifecycle.StartReachesLiveSession | packages/langchain_skilder/src/langchain_skilder/mcp_only.py:415-416 | The implicit `await self.start()` followed by `assert self._session is not None`. `start` fails exactly when `LiveSession` reports a start failure, and then with that same error. Otherwise `LiveSession` is the session left in place: the existing one when already started, the runner's new one when it initializes, and `NoSession` (the failing assert) when a started runner has died. The failure error is the corrected one (see Findings). |
| Lifecycle.StartTwiceKeepsSession | packages/langchain_skilder/src/langchain_skilder/mcp_only.py:341-342 | A second `start` succeeds and keeps the first session, whatever the runner would do. Over both calls, exactly one runner task is launched and exactly one `initialize()` handshake happens. |
| Lifecycle.StopBeforeStart | packages/langchain_skilder/src/langchain_skilder/mcp_only.py:368-369 | `stop` on a fresh controller raises nothing and leaves the stop flag unset. |
| Lifecycle.StopTwice | packages/langchain_skilder/tests/test_mcp_only.py:202-208 | After any start and stop, a second stop raises nothing, and the controller is not started and has no session. |
| Lifecycle.RetryAfterFailedStart | packages/langchain_skilder/src/langchain_skilder/mcp_only.py:350-363 | A timed-out or failed start rolls back far enough that a retry succeeds with the new session. |
| Lifecycle.CrashedRunnerIsNotRestarted | packages/langchain_skilder/src/langchain_skilder/mcp_only.py:402-408 | When the runner of a started controller dies, the exception is recorded. A later `start` is a no-op, and the session stays absent. |
| ToolGateway.NewTool | packages/langchain_skilder/src/langchain_skilder/mcp_only.py:95-102 | An `MCPTool` keeps name, description and schema. The `or {}` only replaces an empty schema by an empty one. |
| ToolGateway.ToolFromDescriptor | packages/langchain_skilder/src/langchain_skilder/mcp_only.py:421-426 | A present description or schema is kept verbatim. An absent one becomes `""` or `{}`. |
| ToolGateway.AdaptTools | packages/langchain_skilder/src/langchain_skilder/mcp_only.py:419-429 | One tool per listed descriptor, in listing order, each being `ToolFromDescriptor` of it. |
| ToolGateway.ToolDicts | packages/langchain_skilder/src/langchain_skilder/mcp_only.py:437-445 | One dict per tool, in order, with exactly the keys name, description and inputSchema. Reading the dict back gives the tool. |
| ToolGateway.FindTool | packages/langchain_skilder/src/langchain_skilder/mcp_only.py:465-468 | Returns nothing iff no tool has the name. Otherwise it returns the tool at the first index with that name. |
| ToolGateway.CallToolDict | packages/langchain_skilder/src/langchain_skilder/mcp_only.py:457-460 | The call result dict has exactly the keys content and isError, holding the response's values. |
| ToolGateway.FirstNonStr | packages/langchain_skilder/src/langchain_skilder/mcp_only.py:125 | `str.join` fails at the first non-string item and nowhere before it. |
| ToolGateway.SplitJoin | packages/langchain_skilder/src/langchain_skilder/mcp_only.py:125 | Splitting a `"\n".join` on `"\n"` gives back the pieces when no piece contains a newline. |
| ToolGateway.FormatToolOutput | packages/langchain_skilder/src/langchain_skilder/mcp_only.py:106-127 | The formatting loop produces `OutputText`: the raised error's text; "Error executing" for a flagged error; the newline join of the rendered items for a non-empty list; otherwise the string form. |
| ToolGateway.TextItemsRecovered | packages/langchain_skilder/src/langchain_skilder/mcp_only.py:113-125 | For a response of text items without newlines, splitting `_arun`'s output on `"\n"` gives back the texts in order. |
| ToolGateway.FlaggedErrorReported | packages/langchain_skilder/src/langchain_skilder/mcp_only.py:109-110 | A flagged error is reported as "Error executing <name>: " followed by the content's string form. |
| ToolGateway.SingleTextItemExample | packages/langchain_skilder/tests/test_mcp_only.py:116-131 | The test's single text item "ok" is formatted as "ok". |
| ToolGateway.NonStringTextReported | packages/langchain_skilder/src/langchain_skilder/mcp_only.py:118-130 | A text item whose text is not a string makes the join raise `TypeError`. `_arun` returns that error as "Error calling" text. |
| ToolGateway.ArunRaisesOnlyUncaught | packages/langchain_skilder/src/langchain_skilder/mcp_only.py:129-130 | Every exception of class `Exception` that the call raised reaches the agent as "Error calling <name>: " plus its text. Anything that escapes `except Exception` is raised again unchanged. |
| Skilder.MCPClient.constructor | packages/langchain_skilder/src/langchain_skilder/mcp_only.py:205-237 | After validation: name and timeout as passed, `node` with the fixed entry point, an environment meeting `IsLaunchEnv`, and a cleared lifecycle. |
| Skilder.MCPClient.Create | packages/langchain_skilder/src/langchain_skilder/mcp_only.py:178-237 | Construction raises the rule's `ValueError` iff validation fails. Otherwise it gives a fresh client with name and timeout as passed and the launch environment. Omitted arguments take the source's defaults: no name or keys, local NATS servers, version "latest", 20 seconds, no log level. |
| Skilder.MCPClient.WithWorkspaceKey | packages/langchain_skilder/src/langchain_skilder/mcp_only.py:239-279 | Fails iff the name is empty, with the "must provide a 'name'" error. Otherwise the client's name is the given one and the timeout is as passed. The environment meets `IsLaunchEnv` for this name and workspace key with no skill key, so a non-empty key is emitted with the name. |
| Skilder.MCPClient.WithSkillKey | packages/langchain_skilder/src/langchain_skilder/mcp_only.py:281-318 | Never fails. No name and the timeout as passed. The environment meets `IsLaunchEnv` for the skill key alone: no workspace credentials, and a non-empty skill key is emitted. |
| Skilder.MCPClient.Start | packages/langchain_skilder/src/langchain_skilder/mcp_only.py:320-364 | Succeeds iff the client ends up started. Otherwise it raises the timeout `RuntimeError` or, for a runner failure, the "failed to start" `RuntimeError` (corrected, see Findings), with the exact messages, and the lifecycle is cleared. |
| Skilder.MCPClient.Stop | packages/langchain_skilder/src/langchain_skilder/mcp_only.py:324-385 | Every slot is cleared whatever the join did. It raises `StopResult` of the task it found. |
| Skilder.MCPClient.GetLangchainTools | packages/langchain_skilder/src/langchain_skilder/mcp_only.py:410-429 | It starts first. It fails iff reaching the session or listing fails, with that error (a startup failure as corrected, see Findings). Otherwise it returns one adapted tool per listed descriptor, in order. |
| Skilder.MCPClient.ListTools | packages/langchain_skilder/src/langchain_skilder/mcp_only.py:431-433 | The same result as `get_langchain_tools`. |
| Skilder.MCPClient.Tools | packages/langchain_skilder/src/langchain_skilder/mcp_only.py:435-445 | It fails iff reaching the session or listing fails, and raises exactly that error. Otherwise it returns one metadata dict per listed descriptor, in order, carrying the adapted name, description and schema. |
| Skilder.MCPClient.GetToolByName | packages/langchain_skilder/src/langchain_skilder/mcp_only.py:462-468 | It fails iff reaching the session or listing fails, and raises exactly that error. Otherwise it returns nothing iff no listed tool has the name, or else the adaptation of the first listed descriptor with that name. |
| Skilder.MCPClient.CallTool | packages/langchain_skilder/src/langchain_skilder/mcp_only.py:447-460 | The result is `CallResponse` of the session reached by the implicit start (a startup failure as corrected, see Findings). Name and arguments are forwarded unchanged. |
| Skilder.MCPClient.RunTool | packages/langchain_skilder/src/langchain_skilder/mcp_only.py:104-130 | `_arun` of a tool of this client is `ArunResult` of its `call_tool` outcome (a startup failure as corrected, see Findings). |
| Skilder.CallForwardsResponse | packages/langchain_skilder/tests/test_mcp_only.py:130-132 | A call on a live session returns exactly the response's content and flag under the two keys. |
| Skilder.TimeoutReportedByRun | packages/langchain_skilder/src/langchain_skilder/mcp_only.py:350-360 | A start that times out reaches the agent as "Error calling <name>: " plus the exact timeout message, and is not raised. |
| Skilder.CancelledCallPropagates | packages/langchain_skilder/src/langchain_skilder/mcp_only.py:129-130 | A cancelled call is not turned into text. The `CancelledError` propagates out of `_arun`. |
| Skilder.StartFailureAtClient | packages/langchain_skilder/src/langchain_skilder/mcp_only.py:361-363 | A runner failure during startup reaches a client operation as the runner's own exception as written, unless it is a cancellation or timeout. With the corrected start it always reaches it as "MCP runtime failed to start". |
| Skilder.DefaultWorkspaceClient | packages/langchain_skilder/src/langchain_skilder/mcp_only.py:239-279 | `with_workspace_key("test", "WSK_test")` with all defaults gives exactly the environment `NATS_SERVERS` = local servers, `WORKSPACE_KEY`, `SKILL_NAME`, with no `LOG_LEVEL`. The name is "test" and the timeout 20 seconds. |
| Skilder.NoArgumentsRejected | packages/langchain_skilder/tests/test_mcp_only.py:54-57 | `MCPClient()` with no arguments raises the "Authentication required" `ValueError` naming the Skilder UI. |
| Twoly.MCPToolset.constructor | packages/langchain_2ly/src/langchain_2ly/mcp.py:96-130 | `options` records the five arguments exactly as passed. The environment meets `IsLaunchEnv` without `LOG_LEVEL`, the launch is `node` with the fixed entry point, and the lifecycle is cleared. |
| Twoly.MCPToolset.Create | packages/langchain_2ly/src/langchain_2ly/mcp.py:71-130 | Raises the rule's `ValueError`, naming the 2ly UI, iff validation fails. Otherwise name, timeout, options and environment are as for the constructor. Omitted arguments take the source's defaults. |
| Twoly.MCPToolset.WithWorkspaceKey | packages/langchain_2ly/src/langchain_2ly/mcp.py:132-169 | Fails iff the name is empty. Otherwise the name is the given one and the options record the workspace key, no skill key, and the other arguments. The environment meets `IsLaunchEnv` for this name and key, so a non-empty key is emitted as `WORKSPACE_KEY` with `SKILL_NAME`. |
| Twoly.MCPToolset.WithSkillKey | packages/langchain_2ly/src/langchain_2ly/mcp.py:171-205 | Never fails. No name, and the options record only the skill key. The environment meets `IsLaunchEnv` for the skill key alone: no workspace credentials, and a non-empty skill key is emitted as `SKILL_KEY`. |
| Twoly.MCPToolset.Start | packages/langchain_2ly/src/langchain_2ly/mcp.py:207-246 | As in Skilder, with the 2ly timeout message, which does not mention NATS. A runner failure is reported as "failed to start" (corrected, see Findings). |
| Twoly.MCPToolset.Stop | packages/langchain_2ly/src/langchain_2ly/mcp.py:211-266 | Every slot is cleared whatever the join did. It raises `StopResult` of the task it found. |
| Twoly.MCPToolset.GetLangchainTools | packages/langchain_2ly/src/langchain_2ly/mcp.py:286-290 | It starts first, then returns the loader's result on the reached session, unchanged (`LoadResponse`). When no session was reached, it raises the start error (corrected, see Findings), or `AssertionError` when the session is missing. |
| Twoly.MCPToolset.ListTools | packages/langchain_2ly/src/langchain_2ly/mcp.py:292-293 | The same result as `get_langchain_tools`. |
| Twoly.MCPToolset.Tools | packages/langchain_2ly/src/langchain_2ly/mcp.py:295-296 | The same result as `get_langchain_tools`. |
| Twoly.ManualStartStop | packages/langchain_2ly/tests/test_mcp.py:189-213 | After `start` a session exists. After `stop` the toolset is not started and has neither a session nor a runner task. A second `stop` raises nothing. |
| Twoly.FailedStartNeverLoads | packages/langchain_2ly/src/langchain_2ly/mcp.py:286-290 | A start that does not initialize never consults the loader. Whatever the loader would return, the caller gets the same `RuntimeError`. |
| Twoly.StartFailureAtClient | packages/langchain_2ly/src/langchain_2ly/mcp.py:243-245 | The same two behaviours as in Skilder, for the toolset. |
| Twoly.DefaultWorkspaceToolset | packages/langchain_2ly/src/langchain_2ly/mcp.py:132-169 | `with_workspace_key("test", "WSK_test")` with all defaults gives exactly the environment `NATS_SERVERS` = local servers, `WORKSPACE_KEY`, `SKILL_NAME`. The `options` record the workspace key, no skill key, the local servers, version "latest" and 20 seconds. |
| Twoly.NoArgumentsRejected | packages/langchain_2ly/tests/test_mcp.py:43-46 | `MCPToolset()` with no arguments raises the "Authentication required" `ValueError` naming the 2ly UI. |

## Left out

- Concurrency and timing. The model leaves out the asyncio task itself, the `asyncio.Lock` around `call_tool`, the 10 ms idle poll, `wait_for` deadlines, and the float timeout values. The runner's behaviour is the `StartupOutcome` and `JoinOutcome` parameters. The timeout value is stored but never compared.
- Process launch, `stdio_client`, `ClientSession` and `load_mcp_tools` are foreign code. Their results are parameters (`listTools`, `remote`, `loadTools`, and the `Session` values).
- `str()` of non-string values is Python's repr machinery. It is the uninterpreted parameter `show`. Exception messages are the abstract `message` field.
- `MCPTool._run`, the synchronous escape hatch, probes the event loop and is not modelled.
- `__del__` in both classes is a best-effort finalizer and is not modelled.
- `__aenter__` and `__aexit__` are one-line delegations to `start` and `stop`. The `Start` and `Stop` rows cite them.
- The `version` argument is accepted and, in 2ly, recorded in `options`, but never reaches the launch arguments. The code does not use it, so neither does the model.
- `TwolyOptions` is a type declaration only.
- `packages/langchain_2ly/tests/test_auth.py` uses parameter and variable names the code does not have, so it is not a source of properties. The example scripts are console demos and are not modelled either.
- Python 3.11 or later is assumed, where `asyncio.TimeoutError` is `TimeoutError`. On older versions a runner `TimeoutError` would escape `stop` as well.
- Lifecycle.Controller.Start: on a startup timeout, the runner is taken to have been entered and cancelled, so `_runner_exception` ends as the cancellation. A task cancelled before its first step records nothing. The slots the contract states are the same either way.

## Findings

| source | as written | input that shows it | evidently intended | confidence | as-written member | corrected member |
|---|---|---|---|---|---|---|
| packages/langchain_skilder/src/langchain_skilder/mcp_only.py:361-363 | After the runner recorded an exception, `start` awaits `stop()`. `stop` awaits the finished runner task, which re-raises that exception. So `raise RuntimeError("MCP runtime failed to start") from ...` is never reached unless the cause is `CancelledError` or `TimeoutError`. | The runtime binary is missing, so the spawn raises `FileNotFoundError("node")`. `start` raises the bare `FileNotFoundError`. | `start` fails with "MCP runtime failed to start", chained to the cause, after `stop` has cleared the state. | not executed | Lifecycle.StartFailureAsWritten | Lifecycle.Controller.Start |
| packages/langchain_2ly/src/langchain_2ly/mcp.py:243-245 | The same sequence in `MCPToolset.start`. | The same `FileNotFoundError` from spawning. | The same. | not executed | Lifecycle.StartFailureAsWritten | Lifecycle.Controller.Start |
