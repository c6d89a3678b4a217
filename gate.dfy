/**
 * The request handlers of backend/app/main.py that change the store:
 * starting a session, planning an utterance into a gated action, resolving
 * an action, requesting a privilege and setting the root path. Each handler
 * is specified by a function from the store and the disk before it to its
 * reply and the store and disk after it; the methods run the same steps
 * against a `Storage` and a `Disk` and are proved to agree with them.
 */
module Gate {
  import opened Wrappers
  import opened Models
  import opened Settings
  import opened Text
  import opened Policy
  import opened Paths
  import opened FileSystem
  import opened Tools
  import opened Store
  import Parser
  import ParserFacts

  /** What a handler answers instead of a body: a 404, or an exception nothing catches. */
  datatype ApiError = NotFound(detail: string) | ServerError(detail: string)

  /** The body of the `/api/plan` reply. */
  datatype PlanReply = PlanReply(actions: seq<Action>, autoResults: seq<ActionResult>)

  /** What the process around the handlers supplies: the settings, the home directory and the working directory. */
  datatype Env = Env(cfg: Config, home: Loc, cwd: Loc)

  /** A handler's reply with the store and the disk it leaves behind. */
  datatype Step<T> = Step(reply: Result<T, ApiError>, store: StoreState, disk: DiskState)

  /**
   * What building an executor and running one tool gives: the sandbox could
   * not be made (and the disk as `mkdir` left it), or the tool's outcome.
   */
  datatype Launch = SetupFailed(error: OsError, disk: DiskState) | Ran(outcome: Outcome)

  /** A handler's reply with the store it leaves behind; it does not touch the disk. */
  datatype Update<T> = Update(reply: Result<T, ApiError>, store: StoreState)

  const DeniedText: string := "User denied action"

  const RulesReason: string := "proposed by rules"

  // ---------------------------------------------------------------------------
  // Pieces shared by the handlers

  /** The root a `ToolExecutor(root_path)` works under. */
  function ExecutorRoot(env: Env, rootPath: string): Path {
    RootOf(rootPath, env.cfg.sandboxPath, env.home)
  }

  /**
   * `ToolExecutor(root_path)` and then `execute`: the constructor creates the
   * sandbox first, and its failure is the error on the left.
   */
  ghost function Run(env: Env, rootPath: string, tool: string, args: Args, clock: ClockReading, d: DiskState): (x: Launch)
    ensures x.SetupFailed? <==> MakePath(d, ExecutorRoot(env, rootPath), env.cwd).error.Some?
    ensures x.SetupFailed? ==> x.disk.files == d.files
    ensures Wellformed(d) && x.SetupFailed? ==> Wellformed(x.disk)
    ensures Wellformed(d) && x.Ran? ==> Wellformed(x.outcome.disk)
    ensures x.Ran? && tool !in KnownTools ==> x.outcome.result == Err(UnknownTool("Unknown tool: " + tool))
  {
    var root := ExecutorRoot(env, rootPath);
    var made := MakePath(d, root, env.cwd);
    if made.error.Some? then SetupFailed(made.error.value, made.disk)
    else Ran(Dispatch(Sandbox(root, env.cwd), tool, args, clock, made.disk))
  }

  /**
   * The action `create_plan` proposes for a recognised intent: its risk comes
   * from the tool name and it waits for approval exactly when the session's
   * mode asks for that risk.
   */
  function Proposed(session: Session, parsed: ParseResult, id: string, now: Instant): (a: Action)
    ensures a.id == id && a.tool == parsed.intent && a.args == parsed.args
    ensures a.sessionId == Some(session.id) && a.reasonBrief == RulesReason && a.timestamp == now
    ensures a.needApproval <==> Rank(a.risk) >= ApprovalFloor(session.mode)
    ensures a.risk == High <==> HighRiskTool(a.tool)
    ensures HighRiskTool(a.tool) || session.mode == Paranoid ==> a.needApproval
  {
    var a := Action(id, parsed.intent, parsed.args, false, RulesReason, AssessRisk(parsed.intent, parsed.args), Some(session.id), now);
    a.(needApproval := NeedsApproval(a.tool, a.risk, session.mode))
  }

  /** The log entry recording the outcome of an action for a session. */
  function Entry(a: Action, sessionId: string, success: bool, result: Option<Payload>, error: Option<string>, t: Instant): (e: LogEntry)
    ensures e.actionId == a.id && e.tool == a.tool && e.args == a.args && e.sessionId == sessionId
  {
    LogEntry(a.id, a.tool, a.args, success, result, error, t, sessionId)
  }

  /** `if session: save_log(...)`: the outcome is logged only when there is a session. */
  function LogFor(logs: map<string, seq<LogEntry>>, session: Option<Session>, a: Action,
                  success: bool, result: Option<Payload>, error: Option<string>, t: Instant): (r: map<string, seq<LogEntry>>)
    ensures session.None? ==> r == logs
    ensures session.Some? ==> r == AppendLog(logs, Entry(a, session.value.id, success, result, error, t))
  {
    if session.Some? then AppendLog(logs, Entry(a, session.value.id, success, result, error, t)) else logs
  }

  /** `if action.session_id:` — an absent or empty session id means the action has no session. */
  function SessionKey(a: Action): (k: Option<string>)
    ensures k.Some? <==> a.sessionId.Some? && a.sessionId.value != ""
    ensures k.Some? ==> k == a.sessionId
  {
    match a.sessionId
    case Some(id) => if id != "" then Some(id) else None
    case None => None
  }

  /** The stored root path, or the configured sandbox when none was ever stored. */
  function RootSetting(cfg: Config, settings: map<string, Value>): (v: Value)
    ensures "root_path" in settings ==> v == settings["root_path"]
    ensures "root_path" !in settings ==> v == Str(cfg.sandboxPath)
  {
    if "root_path" in settings then settings["root_path"] else Str(cfg.sandboxPath)
  }

  // ---------------------------------------------------------------------------
  // The handlers as functions

  /**
   * `start_session`: a session of the requested mode, with that mode's scopes,
   * the configured length and the stored root path. A stored root that is not
   * a string fails the `Session` validation.
   */
  function Start(cfg: Config, st: StoreState, req: SessionStartRequest, id: string, createdAt: Instant): (u: Update<Session>)
    ensures u.reply.Ok? <==> RootSetting(cfg, st.settings).Str?
    ensures u.reply.Ok? ==>
      && u.reply.value.id == id && u.reply.value.mode == req.mode
      && u.reply.value.allowedScopes == AllowedScopes(req.mode)
      && u.reply.value.expiresInMinutes == cfg.maxSessionMinutes
      && u.reply.value.rootPath == RootSetting(cfg, st.settings).s
      && u.store == st.(sessions := st.sessions[id := u.reply.value])
    ensures u.reply.Err? ==> u.store == st
  {
    match RootSetting(cfg, st.settings)
    case Str(root) =>
      var session := Session(id, req.mode, AllowedScopes(req.mode), cfg.maxSessionMinutes, createdAt, root);
      Update(Ok(session), st.(sessions := st.sessions[id := session]))
    case _ => Update(Err(ServerError("root_path must be a string")), st)
  }

  /**
   * `create_plan`: a missing session is a 404; an unrecognised utterance
   * proposes nothing; otherwise exactly one action is saved, and it is run at
   * once when the session's mode does not ask for approval. A run that
   * succeeds is logged and the action is dropped; a run that fails is
   * reported, not logged, and the action stays pending.
   */
  ghost function Plan(env: Env, st: StoreState, req: PlanRequest, actionId: string, now: Instant, logTime: Instant,
                      clock: ClockReading, d: DiskState): (s: Step<PlanReply>)
    ensures req.sessionId !in st.sessions ==> s == Step(Err(NotFound("Session not found")), st, d)
    ensures s.store.sessions == st.sessions && s.store.settings == st.settings
    ensures Wellformed(d) ==> Wellformed(s.disk)
  {
    if req.sessionId !in st.sessions then Step(Err(NotFound("Session not found")), st, d)
    else
      var session := st.sessions[req.sessionId];
      var parsed := Parser.Parse(env.cfg, req.utterance);
      if parsed.intent == "unknown" then Step(Ok(PlanReply([], [])), st, d)
      else
        var a := Proposed(session, parsed, actionId, now);
        var saved := st.(actions := st.actions[a.id := a]);
        if a.needApproval then Step(Ok(PlanReply([a], [])), saved, d)
        else AutoRun(env, saved, session, a, logTime, clock, d)
  }

  /**
   * The auto-execution branch of `create_plan`, once the action is saved: a
   * success is logged for the session and drops the action, a failure leaves
   * the store as it is.
   */
  ghost function AutoRun(env: Env, st: StoreState, session: Session, a: Action, logTime: Instant,
                         clock: ClockReading, d: DiskState): (s: Step<PlanReply>)
    ensures s.store.sessions == st.sessions && s.store.settings == st.settings
    ensures Wellformed(d) ==> Wellformed(s.disk)
  {
    match Run(env, session.rootPath, a.tool, a.args, clock, d)
    case SetupFailed(e, d1) => Step(Err(ServerError(ErrorText(Os(e)))), st, d1)
    case Ran(o) =>
      match o.result
      case Ok(p) =>
        Step(Ok(PlanReply([a], [ActionResult(a.id, true, Some(p), None)])),
             st.(logs := AppendLog(st.logs, Entry(a, session.id, true, Some(p), None, logTime)),
                 actions := st.actions - {a.id}),
             o.disk)
      case Err(f) =>
        Step(Ok(PlanReply([a], [ActionResult(a.id, false, None, Some(ErrorText(f)))])), st, o.disk)
  }

  /**
   * `approve_action`: a missing action, or a missing session of an action
   * that names one, is a 404. A denial runs nothing, logs the denial when
   * there is a session and drops the action. An approval runs the tool under
   * the session's root (the configured sandbox without a session) and logs
   * the outcome when there is a session; the action is dropped only when the
   * run succeeds.
   */
  ghost function Approve(env: Env, st: StoreState, req: ApprovalRequest, logTime: Instant, clock: ClockReading, d: DiskState): (s: Step<ActionResult>)
    ensures req.actionId !in st.actions ==> s == Step(Err(NotFound("Action not found")), st, d)
    ensures s.store.sessions == st.sessions && s.store.settings == st.settings
    ensures req.decision == Deny ==> s.disk == d
    ensures Wellformed(d) ==> Wellformed(s.disk)
  {
    if req.actionId !in st.actions then Step(Err(NotFound("Action not found")), st, d)
    else
      var a := st.actions[req.actionId];
      var key := SessionKey(a);
      if key.Some? && key.value !in st.sessions then Step(Err(NotFound("Session not found")), st, d)
      else
        var session := if key.Some? then Some(st.sessions[key.value]) else None;
        if req.decision == Deny then
          Step(Ok(ActionResult(req.actionId, false, None, Some(DeniedText))),
               st.(logs := LogFor(st.logs, session, a, false, None, Some(DeniedText), logTime),
                   actions := st.actions - {req.actionId}),
               d)
        else
          var rootPath := if session.Some? then session.value.rootPath else env.cfg.sandboxPath;
          match Run(env, rootPath, a.tool, a.args, clock, d)
          case SetupFailed(e, d1) => Step(Err(ServerError(ErrorText(Os(e)))), st, d1)
          case Ran(o) =>
            match o.result
            case Ok(p) =>
              Step(Ok(ActionResult(req.actionId, true, Some(p), None)),
                   st.(logs := LogFor(st.logs, session, a, true, Some(p), None, logTime),
                       actions := st.actions - {req.actionId}),
                   o.disk)
            case Err(f) =>
              Step(Ok(ActionResult(req.actionId, false, None, Some(ErrorText(f)))),
                   st.(logs := LogFor(st.logs, session, a, false, None, Some(ErrorText(f)), logTime)),
                   o.disk)
  }

  /** The arguments of a privilege-request action. */
  function PrivilegeArgs(req: PrivilegeRequest): (args: Args)
    ensures args.Keys == {"need", "target_path", "expires_minutes", "reason_brief"}
    ensures args["need"] == StrList(req.need) && args["target_path"] == Str(req.targetPath)
    ensures args["expires_minutes"] == Int(req.expiresMinutes) && args["reason_brief"] == Str(req.reasonBrief)
  {
    map["need" := StrList(req.need), "target_path" := Str(req.targetPath),
        "expires_minutes" := Int(req.expiresMinutes), "reason_brief" := Str(req.reasonBrief)]
  }

  /**
   * `request_privilege`: a high-risk action with no session that waits for
   * approval; its fixed risk and approval flag agree with what the policy
   * gives `privilege.request` in every mode.
   */
  function PrivilegeAction(req: PrivilegeRequest, id: string, now: Instant): (a: Action)
    ensures a.id == id && a.tool == "privilege.request" && a.args == PrivilegeArgs(req)
    ensures a.needApproval && a.risk == High && a.sessionId == None && a.reasonBrief == req.reasonBrief
    ensures a.risk == AssessRisk(a.tool, a.args)
    ensures forall mode :: NeedsApproval(a.tool, a.risk, mode)
    ensures SessionKey(a) == None
  {
    Action(id, "privilege.request", PrivilegeArgs(req), true, req.reasonBrief, High, None, now)
  }

  /** `set_root_path`: the trimmed path, or the configured sandbox when the request's path is empty. */
  function ChosenRoot(cfg: Config, req: RootPathRequest): (p: string)
    ensures req.path == "" ==> p == cfg.sandboxPath
    ensures req.path != "" ==> p == Strip(req.path)
  {
    if req.path != "" then Strip(req.path) else cfg.sandboxPath
  }

  /** `get_root_settings`: the stored root and first-run flag, with the configured sandbox and `True` as defaults. */
  function RootSettings(cfg: Config, settings: map<string, Value>): (r: (Value, Value))
    ensures r.0 == RootSetting(cfg, settings)
    ensures "first_run" in settings ==> r.1 == settings["first_run"]
    ensures "first_run" !in settings ==> r.1 == Bool(true)
  {
    (RootSetting(cfg, settings), if "first_run" in settings then settings["first_run"] else Bool(true))
  }

  // ---------------------------------------------------------------------------
  // The handlers as methods over the store and the disk

  method StartSession(cfg: Config, store: Storage, req: SessionStartRequest, id: string, createdAt: Instant)
    returns (r: Result<Session, ApiError>)
    modifies store
    ensures r == Start(cfg, old(store.State()), req, id, createdAt).reply
    ensures store.State() == Start(cfg, old(store.State()), req, id, createdAt).store
  {
    var root := store.GetSetting("root_path", Some(Str(cfg.sandboxPath)));
    if !root.value.Str? {
      return Err(ServerError("root_path must be a string"));
    }
    var session := Session(id, req.mode, AllowedScopes(req.mode), cfg.maxSessionMinutes, createdAt, root.value.s);
    store.SaveSession(session);
    return Ok(session);
  }

  method CreatePlan(env: Env, store: Storage, disk: Disk, req: PlanRequest, actionId: string, now: Instant,
                    logTime: Instant, clock: ClockReading) returns (r: Result<PlanReply, ApiError>)
    modifies store, disk
    ensures r == Plan(env, old(store.State()), req, actionId, now, logTime, clock, old(disk.State())).reply
    ensures store.State() == Plan(env, old(store.State()), req, actionId, now, logTime, clock, old(disk.State())).store
    ensures disk.State() == Plan(env, old(store.State()), req, actionId, now, logTime, clock, old(disk.State())).disk
  {
    var found := store.GetSession(req.sessionId);
    if found.None? {
      return Err(NotFound("Session not found"));
    }
    var session := found.value;
    var parsed := Parser.Parse(env.cfg, req.utterance);
    if parsed.intent == "unknown" {
      return Ok(PlanReply([], []));
    }
    var action := Action(actionId, parsed.intent, parsed.args, false, RulesReason,
                         AssessRisk(parsed.intent, parsed.args), Some(session.id), now);
    action := action.(needApproval := NeedsApproval(action.tool, action.risk, session.mode));
    store.SaveAction(action);
    if action.needApproval {
      return Ok(PlanReply([action], []));
    }
    r := RunNow(env, store, disk, session, action, logTime, clock);
  }

  /** The `if not action.need_approval:` block of `create_plan`. */
  method RunNow(env: Env, store: Storage, disk: Disk, session: Session, action: Action, logTime: Instant,
                clock: ClockReading) returns (r: Result<PlanReply, ApiError>)
    modifies store, disk
    ensures r == AutoRun(env, old(store.State()), session, action, logTime, clock, old(disk.State())).reply
    ensures store.State() == AutoRun(env, old(store.State()), session, action, logTime, clock, old(disk.State())).store
    ensures disk.State() == AutoRun(env, old(store.State()), session, action, logTime, clock, old(disk.State())).disk
  {
    var autoResults: seq<ActionResult>;
    var executor := new ToolExecutor(session.rootPath, env.cfg.sandboxPath, env.home, env.cwd, disk);
    var setup := executor.EnsureSandbox();
    if setup.Some? {
      return Err(ServerError(ErrorText(Os(setup.value))));
    }
    var result := executor.Execute(action.tool, action.args, clock);
    match result {
      case Ok(p) =>
        store.SaveLog(Entry(action, session.id, true, Some(p), None, logTime));
        store.DeleteAction(action.id);
        autoResults := [ActionResult(action.id, true, Some(p), None)];
      case Err(f) =>
        autoResults := [ActionResult(action.id, false, None, Some(ErrorText(f)))];
    }
    return Ok(PlanReply([action], autoResults));
  }

  method ApproveAction(env: Env, store: Storage, disk: Disk, req: ApprovalRequest, logTime: Instant, clock: ClockReading)
    returns (r: Result<ActionResult, ApiError>)
    modifies store, disk
    ensures r == Approve(env, old(store.State()), req, logTime, clock, old(disk.State())).reply
    ensures store.State() == Approve(env, old(store.State()), req, logTime, clock, old(disk.State())).store
    ensures disk.State() == Approve(env, old(store.State()), req, logTime, clock, old(disk.State())).disk
  {
    var found := store.GetAction(req.actionId);
    if found.None? {
      return Err(NotFound("Action not found"));
    }
    var action := found.value;
    var session: Option<Session> := None;
    if SessionKey(action).Some? {
      session := store.GetSession(action.sessionId.value);
      if session.None? {
        return Err(NotFound("Session not found"));
      }
    }
    if req.decision == Deny {
      if session.Some? {
        store.SaveLog(Entry(action, session.value.id, false, None, Some(DeniedText), logTime));
      }
      store.DeleteAction(req.actionId);
      return Ok(ActionResult(req.actionId, false, None, Some(DeniedText)));
    }
    var rootPath := if session.Some? then session.value.rootPath else env.cfg.sandboxPath;
    var executor := new ToolExecutor(rootPath, env.cfg.sandboxPath, env.home, env.cwd, disk);
    var setup := executor.EnsureSandbox();
    if setup.Some? {
      return Err(ServerError(ErrorText(Os(setup.value))));
    }
    var result := executor.Execute(action.tool, action.args, clock);
    match result
    case Ok(p) =>
      if session.Some? {
        store.SaveLog(Entry(action, session.value.id, true, Some(p), None, logTime));
      }
      store.DeleteAction(req.actionId);
      r := Ok(ActionResult(req.actionId, true, Some(p), None));
    case Err(f) =>
      if session.Some? {
        store.SaveLog(Entry(action, session.value.id, false, None, Some(ErrorText(f)), logTime));
      }
      r := Ok(ActionResult(req.actionId, false, None, Some(ErrorText(f))));
  }

  method RequestPrivilege(store: Storage, req: PrivilegeRequest, id: string, now: Instant) returns (a: Action)
    modifies store
    ensures a == PrivilegeAction(req, id, now)
    ensures store.State() == old(store.State()).(actions := old(store.actions)[id := a])
  {
    a := Action(id, "privilege.request", PrivilegeArgs(req), true, req.reasonBrief, High, None, now);
    store.SaveAction(a);
  }

  method SetRootPath(cfg: Config, store: Storage, req: RootPathRequest) returns (root: string)
    modifies store
    ensures root == ChosenRoot(cfg, req)
    ensures store.State() == old(store.State()).(settings := old(store.settings)["root_path" := Str(root)]["first_run" := Bool(false)])
  {
    root := if req.path != "" then Strip(req.path) else cfg.sandboxPath;
    store.SaveSetting("root_path", Str(root));
    store.SaveSetting("first_run", Bool(false));
  }

  method GetRootSettings(cfg: Config, store: Storage) returns (root: Value, firstRun: Value)
    ensures (root, firstRun) == RootSettings(cfg, store.settings)
  {
    var r := store.GetSetting("root_path", Some(Str(cfg.sandboxPath)));
    var f := store.GetSetting("first_run", Some(Bool(true)));
    root, firstRun := r.value, f.value;
  }

  method GetLogs(store: Storage, sessionId: string) returns (logs: seq<LogEntry>)
    ensures logs == LogsOf(store.logs, sessionId)
  {
    logs := store.GetLogs(sessionId);
  }
}
