/**
 * The records and closed enumerations of backend/app/models.py. Identifiers
 * and timestamps, which the source draws from uuid4 and the clock, are values
 * the callers pass in.
 */
module Models {
  import opened Wrappers

  /** `Literal["paranoid", "normal", "hands_free"]` */
  datatype Mode = Paranoid | Normal | HandsFree

  /** `Literal["low", "medium", "high"]` */
  datatype Risk = Low | Medium | High

  /** `Literal["rules", "llm"]` */
  datatype Source = Rules | Llm

  /** `Literal["allow", "deny"]` */
  datatype Decision = Allow | Deny

  /** A JSON-like value as stored in argument and settings dictionaries. */
  datatype Value = Str(s: string) | Int(i: int) | Bool(b: bool) | StrList(items: seq<string>)

  type Args = map<string, Value>

  /** A point in time; its textual form is all the core ever forwards. */
  datatype Instant = Instant(iso: string)

  /** One reading of the UTC clock, as `system.time` reports it. */
  datatype ClockReading = ClockReading(nowIso: string, unix: real)

  /** The dictionaries the tools return, one shape per tool. */
  datatype Payload =
    | TimeNow(nowIso: string, unix: real)
    | BytesWritten(count: nat)
    | Text(text: string)
    | Deleted
    | Copied
    | Moved
    | Entries(names: seq<string>)
    | Opened(app: Option<Value>, note: string)
    | PendingApproval

  datatype ParseResult = ParseResult(intent: string, args: Args, confidence: real, source: Source)

  datatype Action = Action(
    id: string,
    tool: string,
    args: Args,
    needApproval: bool,
    reasonBrief: string,
    risk: Risk,
    sessionId: Option<string>,
    timestamp: Instant)

  datatype ActionResult = ActionResult(
    actionId: string,
    success: bool,
    result: Option<Payload>,
    error: Option<string>)

  datatype Session = Session(
    id: string,
    mode: Mode,
    allowedScopes: seq<string>,
    expiresInMinutes: int,
    createdAt: Instant,
    rootPath: string)

  /** Unlike an action, a log entry always belongs to a session. */
  datatype LogEntry = LogEntry(
    actionId: string,
    tool: string,
    args: Args,
    success: bool,
    result: Option<Payload>,
    error: Option<string>,
    timestamp: Instant,
    sessionId: string)

  datatype SessionStartRequest = SessionStartRequest(mode: Mode)

  datatype PlanRequest = PlanRequest(sessionId: string, utterance: string)

  datatype ApprovalRequest = ApprovalRequest(actionId: string, decision: Decision)

  datatype PrivilegeRequest = PrivilegeRequest(
    need: seq<string>,
    targetPath: string,
    expiresMinutes: int,
    reasonBrief: string)

  datatype RootPathRequest = RootPathRequest(path: string)

  /** A session-start request that leaves the mode out asks for `normal`. */
  const DefaultStartRequest: SessionStartRequest := SessionStartRequest(Normal)

  /** A privilege request that leaves the duration out asks for 15 minutes. */
  const DefaultExpiresMinutes: int := 15

  /** A session built without a root path has the empty one. */
  const DefaultRootPath: string := ""

  /** A privilege request built with its defaults filled in. */
  function NewPrivilegeRequest(need: seq<string>, targetPath: string, reasonBrief: string): (r: PrivilegeRequest)
    ensures r.expiresMinutes == 15
    ensures r.need == need && r.targetPath == targetPath && r.reasonBrief == reasonBrief
  {
    PrivilegeRequest(need, targetPath, DefaultExpiresMinutes, reasonBrief)
  }
}
