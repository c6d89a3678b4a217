/**
 * The three pure policy functions of backend/app/main.py: the scopes a mode
 * grants, the risk of a tool, and whether an action of that risk needs the
 * user's approval in that mode.
 */
module Policy {
  import opened Models
  import opened Text

  // ---------------------------------------------------------------------------
  // Scopes

  /** `get_allowed_scopes`: the scope list a session of this mode is created with. */
  function AllowedScopes(mode: Mode): (r: seq<string>)
    ensures "system.read" in r
    ensures "files.sandbox_rw" in r <==> mode != Paranoid
    ensures "apps.open" in r <==> mode != Paranoid
    ensures "files.outside_sandbox" in r <==> mode == HandsFree
  {
    match mode
    case Paranoid => ["system.read"]
    case Normal => ["apps.open", "system.read", "files.sandbox_rw", "browser.basic"]
    case HandsFree => ["apps.open", "system.read", "files.sandbox_rw", "browser.basic", "files.outside_sandbox"]
  }

  /**
   * The scope sets grow strictly from paranoid to normal to hands-free, and the
   * hands-free list is the normal list with `files.outside_sandbox` appended.
   */
  lemma ScopesNested()
    ensures Elems(AllowedScopes(Paranoid)) < Elems(AllowedScopes(Normal)) < Elems(AllowedScopes(HandsFree))
    ensures AllowedScopes(HandsFree) == AllowedScopes(Normal) + ["files.outside_sandbox"]
  {
    assert "apps.open" in Elems(AllowedScopes(Normal));
    assert "files.outside_sandbox" in Elems(AllowedScopes(HandsFree));
  }

  // ---------------------------------------------------------------------------
  // Risk

  /** A tool name lies in at most one of the `system.` and `files.` namespaces. */
  lemma NamespacesDisjoint(tool: string)
    ensures StartsWith(tool, "files.") ==> !StartsWith(tool, "system.") && tool != "privilege.request"
    ensures StartsWith(tool, "system.") ==> !StartsWith(tool, "files.")
  {
    if StartsWith(tool, "files.") {
      assert tool[0] == 'f';
    }
    if StartsWith(tool, "system.") {
      assert tool[0] == 's';
    }
  }

  /** The tools that `assess_risk` rates high. */
  predicate HighRiskTool(tool: string) {
    (StartsWith(tool, "system.") && tool != "system.time") || tool == "privilege.request"
  }

  /**
   * `assess_risk`: every `system.` tool except `system.time` and
   * `privilege.request` are high, every `files.` tool is medium, anything else
   * is low. The arguments are never consulted.
   */
  function AssessRisk(tool: string, args: Args): (r: Risk)
    ensures r == High <==> HighRiskTool(tool)
    ensures r == Medium <==> StartsWith(tool, "files.")
    ensures r == Low <==> !HighRiskTool(tool) && !StartsWith(tool, "files.")
  {
    NamespacesDisjoint(tool);
    if StartsWith(tool, "system.") && tool != "system.time" then High
    else if StartsWith(tool, "files.") && tool in ["files.delete", "files.move"] then Medium
    else if StartsWith(tool, "files.") then Medium
    else if tool == "privilege.request" then High
    else Low
  }

  /** The risk of each of the nine tools the executor knows. */
  lemma KnownToolRisks(args: Args)
    ensures AssessRisk("system.time", args) == Low
    ensures AssessRisk("files.write", args) == Medium
    ensures AssessRisk("files.read", args) == Medium
    ensures AssessRisk("files.delete", args) == Medium
    ensures AssessRisk("files.copy", args) == Medium
    ensures AssessRisk("files.move", args) == Medium
    ensures AssessRisk("files.list", args) == Medium
    ensures AssessRisk("apps.open", args) == Low
    ensures AssessRisk("privilege.request", args) == High
  {
    NamespacesDisjoint("system.time");
    assert "apps.open"[0] != "system."[0] && "apps.open"[0] != "files."[0];
    assert "privilege.request"[0] != "system."[0];
    assert StartsWith("files.write", "files.") && StartsWith("files.read", "files.");
    assert StartsWith("files.delete", "files.") && StartsWith("files.copy", "files.");
    assert StartsWith("files.move", "files.") && StartsWith("files.list", "files.");
  }

  /** Risk depends on the tool name alone. */
  lemma RiskIgnoresArgs(tool: string, a: Args, b: Args)
    ensures AssessRisk(tool, a) == AssessRisk(tool, b)
  {
  }

  // ---------------------------------------------------------------------------
  // Approval

  /** Risks ordered low < medium < high. */
  function Rank(risk: Risk): nat {
    match risk
    case Low => 0
    case Medium => 1
    case High => 2
  }

  /** The lowest risk rank that needs approval in each mode. */
  function ApprovalFloor(mode: Mode): nat {
    match mode
    case Paranoid => 0
    case Normal => 1
    case HandsFree => 2
  }

  /**
   * `needs_approval`: paranoid asks for every risk, normal for medium and
   * high, hands-free for high only. The tool name is not consulted.
   */
  function NeedsApproval(tool: string, risk: Risk, mode: Mode): (b: bool)
    ensures b <==> Rank(risk) >= ApprovalFloor(mode)
  {
    match mode
    case Paranoid => risk in [Low, Medium, High]
    case Normal => risk in [Medium, High]
    case HandsFree => risk == High
  }

  /** The full 3x3 matrix. */
  lemma ApprovalMatrix(tool: string)
    ensures NeedsApproval(tool, Low, Paranoid) && NeedsApproval(tool, Medium, Paranoid) && NeedsApproval(tool, High, Paranoid)
    ensures !NeedsApproval(tool, Low, Normal) && NeedsApproval(tool, Medium, Normal) && NeedsApproval(tool, High, Normal)
    ensures !NeedsApproval(tool, Low, HandsFree) && !NeedsApproval(tool, Medium, HandsFree) && NeedsApproval(tool, High, HandsFree)
  {
  }

  /** A mode at least as strict as another: paranoid, then normal, then hands-free. */
  predicate AtLeastAsStrict(m1: Mode, m2: Mode) {
    ApprovalFloor(m1) <= ApprovalFloor(m2)
  }

  /**
   * Approval is monotone: whatever a laxer mode asks approval for, a stricter
   * mode asks for too, and a riskier action needs approval whenever a less
   * risky one does.
   */
  lemma ApprovalMonotone(tool: string, r1: Risk, r2: Risk, m1: Mode, m2: Mode)
    requires AtLeastAsStrict(m1, m2) && Rank(r1) >= Rank(r2)
    ensures NeedsApproval(tool, r2, m2) ==> NeedsApproval(tool, r1, m1)
  {
  }

  /** High-risk actions, privilege requests included, always wait for the user. */
  lemma HighRiskAlwaysGated(tool: string, args: Args, mode: Mode)
    requires HighRiskTool(tool)
    ensures NeedsApproval(tool, AssessRisk(tool, args), mode)
  {
  }

  /**
   * What the backend tests observe in normal mode: the time query runs at
   * once, file operations wait for approval.
   */
  lemma NormalModeGate(args: Args)
    ensures !NeedsApproval("system.time", AssessRisk("system.time", args), Normal)
    ensures NeedsApproval("files.write", AssessRisk("files.write", args), Normal)
    ensures NeedsApproval("files.read", AssessRisk("files.read", args), Normal)
    ensures NeedsApproval("files.delete", AssessRisk("files.delete", args), Normal)
  {
    KnownToolRisks(args);
  }
}
