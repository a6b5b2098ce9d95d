/**
 * The environment handed to the runtime process. Both clients build it the
 * same way after validation: `NATS_SERVERS` always, then the workspace key
 * with the skill name, or else the skill key, each only when truthy, and
 * (in the Skilder client) `LOG_LEVEL` only when truthy.
 */
module LaunchEnv {
  import opened Wrappers
  import opened Python
  import opened Auth

  /** How the runtime process is launched: `StdioServerParameters`. */
  datatype ServerParams = ServerParams(command: string, args: seq<string>, env: map<string, string>)

  /** Every key either client may emit. */
  const EnvKeys: set<string> := {"NATS_SERVERS", "WORKSPACE_KEY", "SKILL_NAME", "SKILL_KEY", "LOG_LEVEL"}

  /** What the environment promises for a configuration, key by key. */
  ghost predicate IsLaunchEnv(env: map<string, string>, name: Option<string>, workspaceKey: Option<string>,
                              skillKey: Option<string>, natsServers: string, logLevel: Option<string>)
  {
    && env.Keys <= EnvKeys
    && "NATS_SERVERS" in env && env["NATS_SERVERS"] == natsServers
    && ("WORKSPACE_KEY" in env <==> Truthy(workspaceKey))
    && ("SKILL_NAME" in env <==> Truthy(workspaceKey))
    && (Truthy(workspaceKey) ==> env["WORKSPACE_KEY"] == workspaceKey.value && name.Some? && env["SKILL_NAME"] == name.value)
    && ("SKILL_KEY" in env <==> !Truthy(workspaceKey) && Truthy(skillKey))
    && ("SKILL_KEY" in env ==> env["SKILL_KEY"] == skillKey.value)
    && ("LOG_LEVEL" in env <==> Truthy(logLevel))
    && ("LOG_LEVEL" in env ==> env["LOG_LEVEL"] == logLevel.value)
  }

  /** Fills the environment dictionary entry by entry, as the constructors do. */
  method BuildEnv(name: Option<string>, workspaceKey: Option<string>, skillKey: Option<string>,
                  natsServers: string, logLevel: Option<string>) returns (env: map<string, string>)
    requires ValidateAuth(name, workspaceKey, skillKey).Pass?
    ensures IsLaunchEnv(env, name, workspaceKey, skillKey, natsServers, logLevel)
  {
    env := map["NATS_SERVERS" := natsServers];
    if Truthy(workspaceKey) {
      env := env["WORKSPACE_KEY" := workspaceKey.value];
      env := env["SKILL_NAME" := name.value];
    } else if Truthy(skillKey) {
      env := env["SKILL_KEY" := skillKey.value];
    }
    if Truthy(logLevel) {
      env := env["LOG_LEVEL" := logLevel.value];
    }
  }

  /** The key-by-key description leaves no freedom: it fixes the whole map. */
  lemma LaunchEnvUnique(env1: map<string, string>, env2: map<string, string>, name: Option<string>,
                        workspaceKey: Option<string>, skillKey: Option<string>, natsServers: string,
                        logLevel: Option<string>)
    requires IsLaunchEnv(env1, name, workspaceKey, skillKey, natsServers, logLevel)
    requires IsLaunchEnv(env2, name, workspaceKey, skillKey, natsServers, logLevel)
    ensures env1 == env2
  {
  }

  /**
   * For a valid configuration whose supplied key is non-empty, exactly one
   * credential key is emitted, and the skill name travels with the
   * workspace key and only with it.
   */
  lemma ValidConfigEmitsOneCredential(env: map<string, string>, name: Option<string>, workspaceKey: Option<string>,
                                      skillKey: Option<string>, natsServers: string, logLevel: Option<string>)
    requires ValidateAuth(name, workspaceKey, skillKey).Pass?
    requires workspaceKey != Some("") && skillKey != Some("")
    requires IsLaunchEnv(env, name, workspaceKey, skillKey, natsServers, logLevel)
    ensures ("WORKSPACE_KEY" in env) != ("SKILL_KEY" in env)
    ensures ("SKILL_NAME" in env) <==> ("WORKSPACE_KEY" in env)
    ensures "RUNTIME_NAME" !in env && "WORKSPACE_ID" !in env
  {
  }

  /**
   * An empty workspace key with a name passes validation (presence is
   * `is not None`) yet, being falsy, emits no credential at all.
   */
  lemma EmptyWorkspaceKeyEmitsNoCredential(env: map<string, string>, name: string, natsServers: string,
                                           logLevel: Option<string>)
    requires name != ""
    requires IsLaunchEnv(env, Some(name), Some(""), None, natsServers, logLevel)
    ensures ValidateAuth(Some(name), Some(""), None).Pass?
    ensures "WORKSPACE_KEY" !in env && "SKILL_NAME" !in env && "SKILL_KEY" !in env
  {
  }

  /** Likewise an empty skill key without a name: valid, and no credential is emitted. */
  lemma EmptySkillKeyEmitsNoCredential(env: map<string, string>, name: Option<string>, natsServers: string,
                                       logLevel: Option<string>)
    requires !Truthy(name)
    requires IsLaunchEnv(env, name, None, Some(""), natsServers, logLevel)
    ensures ValidateAuth(name, None, Some("")).Pass?
    ensures env.Keys <= {"NATS_SERVERS", "LOG_LEVEL"}
  {
  }

  /** The workspace-key configuration of the client tests yields exactly this environment. */
  lemma WorkspaceKeyExample(env: map<string, string>)
    requires IsLaunchEnv(env, Some("test-client"), Some("WSK_test123"), None, "nats://localhost:4222", None)
    ensures env == map["NATS_SERVERS" := "nats://localhost:4222", "WORKSPACE_KEY" := "WSK_test123",
                       "SKILL_NAME" := "test-client"]
  {
  }

  /** The skill-key configuration of the client tests yields only the skill key besides the servers. */
  lemma SkillKeyExample(env: map<string, string>)
    requires IsLaunchEnv(env, None, None, Some("SKL_test456"), "nats://localhost:4222", None)
    ensures env == map["NATS_SERVERS" := "nats://localhost:4222", "SKILL_KEY" := "SKL_test456"]
  {
  }
}
