/** The governance policy (src/services/governance/policy_engine.py): whether a tool call
    runs, waits for a human, or is refused. */
module Policy {

  /** The keyword arguments of a call, as far as the handlers look into them: the approval
      and dry-run flags, and everything else. */
  datatype Args = Args(approved: bool, dryRun: bool, payload: string)

  datatype Session = Session(role: string, riskMode: string, shadowMode: bool)

  datatype Verdict = Allow | NeedsApproval | Deny

  const DEVELOPER_TOOLS := {
    "bash_execute", "read_file", "write_file",
    "git_clone", "git_read", "git_write", "git_commit", "git_create_pr",
    "code_review", "security_scan",
    "generate_tests", "generate_docs", "generate_cicd",
    "database_query", "api_test", "manage_dependencies",
    "code_graph_query", "web_search", "update_agent_memory",
    "search_past_decisions", "delegate_task", "dispatch_output"}

  const VIEWER_TOOLS := {"read_file", "code_graph_query", "web_search"}

  const SANDBOXED_DANGEROUS_TOOLS := {"bash_execute"}

  const UNSANDBOXED_DANGEROUS_TOOLS := {"mcp_Blender_capture_viewport_screenshot"}

  const PATH_TOOLS := {"read_file", "write_file", "create_file", "edit_file", "bash_execute"}

  function PermittedTools(role: string): set<string> {
    if role == "developer" then DEVELOPER_TOOLS else if role == "viewer" then VIEWER_TOOLS else {}
  }

  predicate IsDynamicTool(tool: string) {
    "mcp_" <= tool
  }

  predicate Dangerous(session: Session, tool: string) {
    tool in UNSANDBOXED_DANGEROUS_TOOLS || (tool in SANDBOXED_DANGEROUS_TOOLS && session.riskMode == "strict")
  }

  /** `pathAllowed` is the outcome of resolving the path argument inside the workspace. */
  function Judge(session: Session, tool: string, args: Args, pathAllowed: bool): Verdict {
    if session.role == "admin" then Allow
    else if Dangerous(session, tool) && !args.approved then NeedsApproval
    else if tool !in PermittedTools(session.role) && !IsDynamicTool(tool) then Deny
    else if tool in PATH_TOOLS && !pathAllowed then Deny
    else Allow
  }

  /** A call waits for a human whatever its path resolves to. */
  predicate Pauses(session: Session, tool: string, args: Args) {
    session.role != "admin" && Dangerous(session, tool) && !args.approved
  }

  lemma PausesExactly(session: Session, tool: string, args: Args, pathAllowed: bool)
    ensures Judge(session, tool, args, pathAllowed) == NeedsApproval <==> Pauses(session, tool, args)
    ensures args.approved ==> Judge(session, tool, args, pathAllowed) != NeedsApproval
  {
  }

  /** Whether a call really does something once it is judged: it is not simulated. */
  predicate TakesEffect(session: Session, args: Args) {
    !args.dryRun && !session.shadowMode
  }

  /** A dangerous call that would run just as it stands: not simulated, and either of an admin
      or permitted to the role and already carrying the approval flag. */
  predicate RunsUnasked(session: Session, tool: string, args: Args) {
    && Dangerous(session, tool) && TakesEffect(session, args)
    && (session.role == "admin" ||
        (args.approved && (tool in PermittedTools(session.role) || IsDynamicTool(tool))))
  }

  lemma RunsUnaskedExactly(session: Session, tool: string, args: Args)
    ensures RunsUnasked(session, tool, args) <==>
            Dangerous(session, tool) && TakesEffect(session, args) &&
            exists pathAllowed :: Judge(session, tool, args, pathAllowed) == Allow
  {
    if RunsUnasked(session, tool, args) {
      assert Judge(session, tool, args, true) == Allow;
    }
  }

  // ---------------------------------------------------------------------------
  // The rules in plain words

  /** Who may use what: an MCP tool anyone, any other tool the roles that list it. */
  predicate MayUse(role: string, tool: string) {
    || "mcp_" <= tool
    || (role in {"viewer", "developer"} && tool in {"read_file", "code_graph_query", "web_search"})
    || (role == "developer" && tool in {
         "bash_execute", "write_file", "git_clone", "git_read", "git_write", "git_commit", "git_create_pr",
         "code_review", "security_scan", "generate_tests", "generate_docs", "generate_cicd",
         "database_query", "api_test", "manage_dependencies", "update_agent_memory",
         "search_past_decisions", "delegate_task", "dispatch_output"})
  }

  /** What waits for a human: an unapproved screenshot, and in strict mode an unapproved shell. */
  predicate Waits(session: Session, tool: string, args: Args) {
    !args.approved &&
    (tool == "mcp_Blender_capture_viewport_screenshot" || (tool == "bash_execute" && session.riskMode == "strict"))
  }

  predicate ChecksPath(tool: string) {
    tool in {"read_file", "write_file", "create_file", "edit_file", "bash_execute"}
  }

  /** An admin's call is allowed. Of the others', one that has to wait waits; otherwise one whose
      role may not use the tool, or whose checked path is outside, is refused; the rest is
      allowed. */
  lemma VerdictExactly(session: Session, tool: string, args: Args, pathAllowed: bool)
    ensures var verdict := Judge(session, tool, args, pathAllowed);
            && (verdict == NeedsApproval <==> session.role != "admin" && Waits(session, tool, args))
            && (verdict == Deny <==>
                  session.role != "admin" && !Waits(session, tool, args) &&
                  (!MayUse(session.role, tool) || (ChecksPath(tool) && !pathAllowed)))
            && (verdict == Allow <==>
                  session.role == "admin" ||
                  (!Waits(session, tool, args) && MayUse(session.role, tool) && (ChecksPath(tool) ==> pathAllowed)))
  {
  }
}
