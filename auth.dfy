/**
 * The authentication rule shared by both clients: exactly one of a
 * workspace key (which needs a skill name) or a skill key (which forbids
 * one). Keys count as given when they are `is not None`, the name by
 * truthiness.
 */
module Auth {
  import opened Wrappers
  import opened Python

  /** The four rejection rules, in the order the validator applies them. */
  datatype AuthError =
    | AuthenticationRequired   // neither key
    | AuthenticationConflict   // both keys
    | NameRequired             // workspace key without a truthy name
    | NameForbidden            // skill key with a truthy name

  function ValidateAuth(name: Option<string>, workspaceKey: Option<string>, skillKey: Option<string>): (r: Outcome<AuthError>)
    ensures r.Pass? <==>
      && (workspaceKey.Some? != skillKey.Some?)
      && (workspaceKey.Some? ==> Truthy(name))
      && (skillKey.Some? ==> !Truthy(name))
    ensures r == Fail(AuthenticationRequired) <==> workspaceKey.None? && skillKey.None?
    ensures r == Fail(AuthenticationConflict) <==> workspaceKey.Some? && skillKey.Some?
    ensures r == Fail(NameRequired) <==> workspaceKey.Some? && skillKey.None? && !Truthy(name)
    ensures r == Fail(NameForbidden) <==> workspaceKey.None? && skillKey.Some? && Truthy(name)
  {
    var hasWorkspaceKey := workspaceKey.Some?;
    var hasSkillKey := skillKey.Some?;
    if !hasWorkspaceKey && !hasSkillKey then Fail(AuthenticationRequired)
    else if hasWorkspaceKey && hasSkillKey then Fail(AuthenticationConflict)
    else if hasWorkspaceKey && !Truthy(name) then Fail(NameRequired)
    else if hasSkillKey && Truthy(name) then Fail(NameForbidden)
    else Pass
  }

  /**
   * The `ValueError` message each client raises for a rule; `ui` names
   * the product whose settings page the first message points to.
   */
  function AuthErrorMessage(e: AuthError, ui: string): string {
    match e
    case AuthenticationRequired =>
      "Authentication required: provide either 'workspace_key' (with 'name') or 'skill_key'. "
      + "Get keys from the " + ui + " UI: Settings > API Keys (workspace key) or "
      + (if ui == "Skilder" then "Skills" else "Toolsets") + " page (skill key)."
    case AuthenticationConflict =>
      "Authentication conflict: provide either 'workspace_key' or 'skill_key', not both."
    case NameRequired =>
      "When using 'workspace_key' (workspace key), you must provide a 'name' parameter to identify the skill."
    case NameForbidden =>
      "When using 'skill_key', do not provide a 'name' parameter. The skill is identified by the key itself."
  }

  function AuthException(e: AuthError, ui: string): PyException {
    PyException("ValueError", AuthErrorMessage(e, ui))
  }
}
