/**
 * What the handlers of backend/app/main.py promise across calls: the store
 * stays consistent, logs only grow, the approval gate decides what runs
 * without the user, and a resolved action cannot be resolved again.
 */
module GateFacts {
  import opened Wrappers
  import opened Models
  import opened Settings
  import opened Text
  import opened Policy
  import opened Paths
  import opened FileSystem
  import opened Tools
  import opened Store
  import opened Gate
  import Parser
  import ParserFacts

  // ---------------------------------------------------------------------------
  // The store invariant

  /** Records are filed under their own ids, and every log belongs to a session that exists. */
  ghost predicate Consistent(st: StoreState) {
    && (forall k :: k in st.sessions ==> st.sessions[k].id == k)
    && (forall k :: k in st.actions ==> st.actions[k].id == k)
    && (forall k :: k in st.logs ==> k in st.sessions)
    && (forall k, i :: k in st.logs && 0 <= i < |st.logs[k]| ==> st.logs[k][i].sessionId == k)
  }

  lemma FreshStoreConsistent(sandboxPath: string)
    ensures Consistent(StoreState(map[], map[], map[], InitialSettings(sandboxPath)))
  {
  }

  /** Logging for a session that exists keeps the store consistent. */
  lemma AppendKeepsConsistent(st: StoreState, e: LogEntry)
    requires Consistent(st) && e.sessionId in st.sessions
    ensures Consistent(st.(logs := AppendLog(st.logs, e)))
  {
    var logs: map<string, seq<LogEntry>> := AppendLog(st.logs, e);
    forall k: string, i: int | k in logs && 0 <= i < |logs[k]| ensures logs[k][i].sessionId == k {
      if k == e.sessionId {
        assert logs[k] == LogsOf(st.logs, k) + [e];
        if i < |LogsOf(st.logs, k)| {
          assert logs[k][i] == st.logs[k][i];
        }
      } else {
        assert logs[k] == LogsOf(st.logs, k);
      }
    }
  }

  /** Logging an action's outcome through `LogFor` keeps the store consistent. */
  lemma LogForKeepsConsistent(st: StoreState, session: Option<Session>, a: Action,
                              success: bool, result: Option<Payload>, error: Option<string>, t: Instant)
    requires Consistent(st)
    requires session.Some? ==> session.value.id in st.sessions
    ensures Consistent(st.(logs := LogFor(st.logs, session, a, success, result, error, t)))
  {
    if session.Some? {
      AppendKeepsConsistent(st, Entry(a, session.value.id, success, result, error, t));
    }
  }

  lemma StartKeepsConsistent(cfg: Config, st: StoreState, req: SessionStartRequest, id: string, createdAt: Instant)
    requires Consistent(st)
    ensures Consistent(Start(cfg, st, req, id, createdAt).store)
  {
  }

  lemma PlanKeepsConsistent(env: Env, st: StoreState, req: PlanRequest, actionId: string, now: Instant, logTime: Instant,
                            clock: ClockReading, d: DiskState)
    requires Consistent(st)
    ensures Consistent(Plan(env, st, req, actionId, now, logTime, clock, d).store)
  {
    if req.sessionId in st.sessions {
      var session := st.sessions[req.sessionId];
      var parsed := Parser.Parse(env.cfg, req.utterance);
      if parsed.intent != "unknown" {
        var a := Proposed(session, parsed, actionId, now);
        var saved := st.(actions := st.actions[a.id := a]);
        assert Consistent(saved);
        var x := Run(env, session.rootPath, a.tool, a.args, clock, d);
        if !a.needApproval && x.Ran? && x.outcome.result.Ok? {
          var e := Entry(a, session.id, true, Some(x.outcome.result.value), None, logTime);
          AppendKeepsConsistent(saved, e);
          assert Plan(env, st, req, actionId, now, logTime, clock, d).store
              == saved.(logs := AppendLog(saved.logs, e)).(actions := saved.actions - {a.id});
        }
      }
    }
  }

  lemma ApproveKeepsConsistent(env: Env, st: StoreState, req: ApprovalRequest, logTime: Instant, clock: ClockReading, d: DiskState)
    requires Consistent(st)
    ensures Consistent(Approve(env, st, req, logTime, clock, d).store)
  {
    if req.actionId in st.actions {
      var a := st.actions[req.actionId];
      var key := SessionKey(a);
      if !(key.Some? && key.value !in st.sessions) {
        var session := if key.Some? then Some(st.sessions[key.value]) else None;
        var s := Approve(env, st, req, logTime, clock, d);
        if req.decision == Deny {
          LogForKeepsConsistent(st, session, a, false, None, Some(DeniedText), logTime);
        } else {
          var rootPath := if session.Some? then session.value.rootPath else env.cfg.sandboxPath;
          var x := Run(env, rootPath, a.tool, a.args, clock, d);
          if x.Ran? {
            if x.outcome.result.Ok? {
              LogForKeepsConsistent(st, session, a, true, Some(x.outcome.result.value), None, logTime);
            } else {
              LogForKeepsConsistent(st, session, a, false, None, Some(ErrorText(x.outcome.result.error)), logTime);
            }
          }
        }
      }
    }
  }

  lemma RequestKeepsConsistent(st: StoreState, req: PrivilegeRequest, id: string, now: Instant)
    requires Consistent(st)
    ensures Consistent(st.(actions := st.actions[id := PrivilegeAction(req, id, now)]))
  {
  }

  // ---------------------------------------------------------------------------
  // Logs are append-only

  /** Every session's log before `create_plan` is a prefix of its log after, at most one entry shorter. */
  lemma PlanLogsOnlyGrow(env: Env, st: StoreState, req: PlanRequest, actionId: string, now: Instant, logTime: Instant,
                         clock: ClockReading, d: DiskState)
    ensures forall k :: LogsOf(st.logs, k) <= LogsOf(Plan(env, st, req, actionId, now, logTime, clock, d).store.logs, k)
    ensures forall k :: |LogsOf(Plan(env, st, req, actionId, now, logTime, clock, d).store.logs, k)| <= |LogsOf(st.logs, k)| + 1
  {
    var e := PlanLogged(env, st, req, actionId, now, logTime, clock, d);
    LoggedAtMostOnce(st.logs, Plan(env, st, req, actionId, now, logTime, clock, d).store.logs, e);
  }

  /** Logs that are unchanged, or have one entry appended, only grew, by at most one entry per session. */
  lemma LoggedAtMostOnce(before: map<string, seq<LogEntry>>, after: map<string, seq<LogEntry>>, e: Option<LogEntry>)
    requires e.None? ==> after == before
    requires e.Some? ==> after == AppendLog(before, e.value)
    ensures forall k :: LogsOf(before, k) <= LogsOf(after, k)
    ensures forall k :: |LogsOf(after, k)| <= |LogsOf(before, k)| + 1
  {
  }

  /** The one entry `create_plan` logs, if it logs one: its store's logs are the old ones or these plus that entry. */
  lemma PlanLogged(env: Env, st: StoreState, req: PlanRequest, actionId: string, now: Instant, logTime: Instant,
                   clock: ClockReading, d: DiskState) returns (e: Option<LogEntry>)
    ensures e.None? ==> Plan(env, st, req, actionId, now, logTime, clock, d).store.logs == st.logs
    ensures e.Some? ==> Plan(env, st, req, actionId, now, logTime, clock, d).store.logs == AppendLog(st.logs, e.value)
  {
    if req.sessionId !in st.sessions {
      return None;
    } else if Parser.Parse(env.cfg, req.utterance).intent == "unknown" {
      UnknownIntentChangesNothing(env, st, req, actionId, now, logTime, clock, d);
      return None;
    }
    var a := ProposedFor(env, st, req, actionId, now);
    var x := AutoRunOf(env, st, req, actionId, now, clock, d);
    if a.needApproval {
      GatedPlanWaits(env, st, req, actionId, now, logTime, clock, d);
      return None;
    } else if x.SetupFailed? {
      AutoRunWithoutSandbox(env, st, req, actionId, now, logTime, clock, d);
      return None;
    } else if x.outcome.result.Err? {
      AutoRunFailure(env, st, req, actionId, now, logTime, clock, d, x.outcome.result.error);
      return None;
    }
    AutoRunSuccess(env, st, req, actionId, now, logTime, clock, d, x.outcome.result.value);
    var sid := st.sessions[req.sessionId].id;
    e := Some(Entry(a, sid, true, Some(x.outcome.result.value), None, logTime));
    AppendLogsEqual(Plan(env, st, req, actionId, now, logTime, clock, d).store.logs, st.logs, e.value);
  }

  /** Two log dictionaries that agree on every session's list are equal. */
  lemma AppendLogsEqual(logs: map<string, seq<LogEntry>>, old_logs: map<string, seq<LogEntry>>, e: LogEntry)
    requires LogsOf(logs, e.sessionId) == LogsOf(old_logs, e.sessionId) + [e]
    requires forall k :: k != e.sessionId ==> LogsOf(logs, k) == LogsOf(old_logs, k)
    requires logs.Keys == old_logs.Keys + {e.sessionId}
    ensures logs == AppendLog(old_logs, e)
  {
    var r := AppendLog(old_logs, e);
    forall k | k in logs ensures logs[k] == r[k] {
      assert LogsOf(logs, k) == LogsOf(r, k);
    }
  }

  /** The same for `approve_action`. */
  lemma ApproveLogsOnlyGrow(env: Env, st: StoreState, req: ApprovalRequest, logTime: Instant, clock: ClockReading, d: DiskState)
    ensures forall k :: LogsOf(st.logs, k) <= LogsOf(Approve(env, st, req, logTime, clock, d).store.logs, k)
    ensures forall k :: |LogsOf(Approve(env, st, req, logTime, clock, d).store.logs, k)| <= |LogsOf(st.logs, k)| + 1
  {
    var e := ApproveLogged(env, st, req, logTime, clock, d);
    LoggedAtMostOnce(st.logs, Approve(env, st, req, logTime, clock, d).store.logs, e);
  }

  /** The one entry `approve_action` logs, if it logs one. */
  lemma ApproveLogged(env: Env, st: StoreState, req: ApprovalRequest, logTime: Instant, clock: ClockReading, d: DiskState)
    returns (e: Option<LogEntry>)
    ensures e.None? ==> Approve(env, st, req, logTime, clock, d).store.logs == st.logs
    ensures e.Some? ==> Approve(env, st, req, logTime, clock, d).store.logs == AppendLog(st.logs, e.value)
  {
    if !Resolvable(st, req.actionId) {
      UnresolvableIsNotFound(env, st, req, logTime, clock, d);
      return None;
    }
    var a := st.actions[req.actionId];
    var session := SessionOf(st, a);
    if req.decision == Deny {
      DenyDropsAction(env, st, req, logTime, clock, d);
      e := if session.Some? then Some(Entry(a, session.value.id, false, None, Some(DeniedText), logTime)) else None;
    } else if ApprovedRun(env, st, req.actionId, clock, d).SetupFailed? {
      AllowWithoutSandbox(env, st, req, logTime, clock, d);
      e := None;
    } else {
      AllowOutcome(env, st, req, logTime, clock, d);
      var o := ApprovedRun(env, st, req.actionId, clock, d).outcome;
      var result := if o.result.Ok? then Some(o.result.value) else None;
      var error := if o.result.Ok? then None else Some(ErrorText(o.result.error));
      e := if session.Some? then Some(Entry(a, session.value.id, o.result.Ok?, result, error, logTime)) else None;
    }
  }

  // ---------------------------------------------------------------------------
  // create_plan

  /** An utterance the parser does not recognise proposes nothing and changes nothing. */
  lemma UnknownIntentChangesNothing(env: Env, st: StoreState, req: PlanRequest, actionId: string, now: Instant,
                                    logTime: Instant, clock: ClockReading, d: DiskState)
    requires req.sessionId in st.sessions
    requires Parser.Parse(env.cfg, req.utterance).intent == "unknown"
    ensures Plan(env, st, req, actionId, now, logTime, clock, d) == Step(Ok(PlanReply([], [])), st, d)
  {
  }

  /** A blank utterance is one of them. */
  lemma BlankUtteranceChangesNothing(env: Env, st: StoreState, req: PlanRequest, actionId: string, now: Instant,
                                     logTime: Instant, clock: ClockReading, d: DiskState)
    requires req.sessionId in st.sessions
    requires AllSpace(req.utterance)
    ensures Plan(env, st, req, actionId, now, logTime, clock, d) == Step(Ok(PlanReply([], [])), st, d)
  {
    ParserFacts.BlankIsUnknown(env.cfg, req.utterance);
  }

  /**
   * A recognised utterance proposes exactly one action, saved under its id;
   * while it waits for approval that is the only change, and in any case no
   * other pending action is touched.
   */
  lemma KnownIntentProposesOne(env: Env, st: StoreState, req: PlanRequest, actionId: string, now: Instant,
                               logTime: Instant, clock: ClockReading, d: DiskState)
    requires req.sessionId in st.sessions
    requires Parser.Parse(env.cfg, req.utterance).intent != "unknown"
    ensures
      var a := Proposed(st.sessions[req.sessionId], Parser.Parse(env.cfg, req.utterance), actionId, now);
      var s := Plan(env, st, req, actionId, now, logTime, clock, d);
      && (s.reply.Ok? ==> s.reply.value.actions == [a] && |s.reply.value.autoResults| <= 1)
      && (a.needApproval ==> s == Step(Ok(PlanReply([a], [])), st.(actions := st.actions[actionId := a]), d))
      && s.store.actions.Keys <= st.actions.Keys + {actionId}
      && (forall k :: k != actionId && k in st.actions ==> k in s.store.actions && s.store.actions[k] == st.actions[k])
  {
    var a := ProposedFor(env, st, req, actionId, now);
    var x := AutoRunOf(env, st, req, actionId, now, clock, d);
    if a.needApproval {
      GatedPlanWaits(env, st, req, actionId, now, logTime, clock, d);
    } else if x.SetupFailed? {
      AutoRunWithoutSandbox(env, st, req, actionId, now, logTime, clock, d);
    } else if x.outcome.result.Err? {
      AutoRunFailure(env, st, req, actionId, now, logTime, clock, d, x.outcome.result.error);
    } else {
      AutoRunSuccess(env, st, req, actionId, now, logTime, clock, d, x.outcome.result.value);
    }
    OthersKept(st.actions, Plan(env, st, req, actionId, now, logTime, clock, d).store.actions, actionId, a);
  }

  /** Saving or deleting one action leaves every other pending action where it was. */
  lemma OthersKept(before: map<string, Action>, after: map<string, Action>, id: string, a: Action)
    requires after == before[id := a] || after == before - {id}
    ensures after.Keys <= before.Keys + {id}
    ensures forall k :: k != id && k in before ==> k in after && after[k] == before[k]
  {
  }

  /** An action that needs approval is saved and returned, and nothing else happens. */
  lemma GatedPlanWaits(env: Env, st: StoreState, req: PlanRequest, actionId: string, now: Instant,
                       logTime: Instant, clock: ClockReading, d: DiskState)
    requires req.sessionId in st.sessions
    requires Parser.Parse(env.cfg, req.utterance).intent != "unknown"
    requires ProposedFor(env, st, req, actionId, now).needApproval
    ensures
      var a := ProposedFor(env, st, req, actionId, now);
      Plan(env, st, req, actionId, now, logTime, clock, d) == Step(Ok(PlanReply([a], [])), st.(actions := st.actions[actionId := a]), d)
  {
  }

  /** The action a recognised utterance proposes in a session. */
  ghost function ProposedFor(env: Env, st: StoreState, req: PlanRequest, actionId: string, now: Instant): (a: Action)
    requires req.sessionId in st.sessions
    ensures a.id == actionId && a.tool == Parser.Parse(env.cfg, req.utterance).intent
  {
    Proposed(st.sessions[req.sessionId], Parser.Parse(env.cfg, req.utterance), actionId, now)
  }

  /** The run an auto-executed action gets. */
  ghost function AutoRunOf(env: Env, st: StoreState, req: PlanRequest, actionId: string, now: Instant,
                           clock: ClockReading, d: DiskState): Launch
    requires req.sessionId in st.sessions
  {
    var a := ProposedFor(env, st, req, actionId, now);
    Run(env, st.sessions[req.sessionId].rootPath, a.tool, a.args, clock, d)
  }

  /**
   * Auto-execution that succeeds writes one success log for the session,
   * drops the action and returns one success result.
   */
  lemma AutoRunSuccess(env: Env, st: StoreState, req: PlanRequest, actionId: string, now: Instant,
                       logTime: Instant, clock: ClockReading, d: DiskState, p: Payload)
    requires req.sessionId in st.sessions
    requires Parser.Parse(env.cfg, req.utterance).intent != "unknown"
    requires !ProposedFor(env, st, req, actionId, now).needApproval
    requires AutoRunOf(env, st, req, actionId, now, clock, d).Ran?
    requires AutoRunOf(env, st, req, actionId, now, clock, d).outcome.result == Ok(p)
    ensures
      var a := ProposedFor(env, st, req, actionId, now);
      var sid := st.sessions[req.sessionId].id;
      var s := Plan(env, st, req, actionId, now, logTime, clock, d);
      && s.reply == Ok(PlanReply([a], [ActionResult(actionId, true, Some(p), None)]))
      && s.store.actions == st.actions - {actionId}
      && LogsOf(s.store.logs, sid) == LogsOf(st.logs, sid) + [Entry(a, sid, true, Some(p), None, logTime)]
      && (forall k :: k != sid ==> LogsOf(s.store.logs, k) == LogsOf(st.logs, k))
      && s.disk == AutoRunOf(env, st, req, actionId, now, clock, d).outcome.disk
  {
    var a := ProposedFor(env, st, req, actionId, now);
    var session := st.sessions[req.sessionId];
    var saved := st.(actions := st.actions[actionId := a]);
    PlanAutoRuns(env, st, req, actionId, now, logTime, clock, d);
    AutoRunSucceeds(env, saved, session, a, logTime, clock, d, AutoRunOf(env, st, req, actionId, now, clock, d).outcome);
    SaveThenDelete(st.actions, actionId, a);
  }

  /** Saving an action and deleting it again leaves the other actions as they were. */
  lemma SaveThenDelete(actions: map<string, Action>, id: string, a: Action)
    ensures actions[id := a] - {id} == actions - {id}
  {
    assert (actions[id := a] - {id}).Keys == (actions - {id}).Keys;
  }

  /** An action that needs no approval goes to auto-execution once saved. */
  lemma PlanAutoRuns(env: Env, st: StoreState, req: PlanRequest, actionId: string, now: Instant,
                     logTime: Instant, clock: ClockReading, d: DiskState)
    requires req.sessionId in st.sessions
    requires Parser.Parse(env.cfg, req.utterance).intent != "unknown"
    requires !ProposedFor(env, st, req, actionId, now).needApproval
    ensures
      var a := ProposedFor(env, st, req, actionId, now);
      Plan(env, st, req, actionId, now, logTime, clock, d) ==
        AutoRun(env, st.(actions := st.actions[actionId := a]), st.sessions[req.sessionId], a, logTime, clock, d)
  {
  }

  /** A run that succeeds is logged for the session and drops the action. */
  lemma AutoRunSucceeds(env: Env, st: StoreState, session: Session, a: Action, logTime: Instant,
                        clock: ClockReading, d: DiskState, o: Outcome)
    requires Run(env, session.rootPath, a.tool, a.args, clock, d) == Ran(o)
    requires o.result.Ok?
    ensures AutoRun(env, st, session, a, logTime, clock, d) ==
      Step(Ok(PlanReply([a], [ActionResult(a.id, true, Some(o.result.value), None)])),
           st.(logs := AppendLog(st.logs, Entry(a, session.id, true, Some(o.result.value), None, logTime)),
               actions := st.actions - {a.id}),
           o.disk)
  {
  }

  /**
   * Auto-execution that fails returns one failed result, writes no log and
   * leaves the action pending, although it does not need approval.
   */
  lemma AutoRunFailure(env: Env, st: StoreState, req: PlanRequest, actionId: string, now: Instant,
                       logTime: Instant, clock: ClockReading, d: DiskState, f: Failure)
    requires req.sessionId in st.sessions
    requires Parser.Parse(env.cfg, req.utterance).intent != "unknown"
    requires !ProposedFor(env, st, req, actionId, now).needApproval
    requires AutoRunOf(env, st, req, actionId, now, clock, d).Ran?
    requires AutoRunOf(env, st, req, actionId, now, clock, d).outcome.result == Err(f)
    ensures
      var a := ProposedFor(env, st, req, actionId, now);
      var s := Plan(env, st, req, actionId, now, logTime, clock, d);
      && s.reply == Ok(PlanReply([a], [ActionResult(actionId, false, None, Some(ErrorText(f)))]))
      && s.store == st.(actions := st.actions[actionId := a])
      && s.disk == AutoRunOf(env, st, req, actionId, now, clock, d).outcome.disk
  {
  }

  /**
   * The executor is built outside the `try`: when the sandbox cannot be
   * created the request fails, the action is already saved, nothing is
   * logged, and the directories `mkdir` made before it failed stay made.
   */
  lemma AutoRunWithoutSandbox(env: Env, st: StoreState, req: PlanRequest, actionId: string, now: Instant,
                              logTime: Instant, clock: ClockReading, d: DiskState)
    requires req.sessionId in st.sessions
    requires Parser.Parse(env.cfg, req.utterance).intent != "unknown"
    requires !ProposedFor(env, st, req, actionId, now).needApproval
    requires AutoRunOf(env, st, req, actionId, now, clock, d).SetupFailed?
    ensures
      var s := Plan(env, st, req, actionId, now, logTime, clock, d);
      && s.reply == Err(ServerError(ErrorText(Os(AutoRunOf(env, st, req, actionId, now, clock, d).error))))
      && s.store == st.(actions := st.actions[actionId := ProposedFor(env, st, req, actionId, now)])
      && s.disk == AutoRunOf(env, st, req, actionId, now, clock, d).disk
  {
  }

  /** In a paranoid session nothing runs without the user. */
  lemma ParanoidNeverAutoRuns(env: Env, st: StoreState, req: PlanRequest, actionId: string, now: Instant,
                              logTime: Instant, clock: ClockReading, d: DiskState)
    requires req.sessionId in st.sessions && st.sessions[req.sessionId].mode == Paranoid
    ensures Plan(env, st, req, actionId, now, logTime, clock, d).disk == d
    ensures Plan(env, st, req, actionId, now, logTime, clock, d).reply.Ok? ==>
      Plan(env, st, req, actionId, now, logTime, clock, d).reply.value.autoResults == []
  {
  }

  /** Outside hands-free mode a file operation always waits for approval. */
  lemma FileToolsWait(env: Env, st: StoreState, req: PlanRequest, actionId: string, now: Instant,
                      logTime: Instant, clock: ClockReading, d: DiskState)
    requires req.sessionId in st.sessions && st.sessions[req.sessionId].mode != HandsFree
    requires StartsWith(Parser.Parse(env.cfg, req.utterance).intent, "files.")
    ensures
      var a := ProposedFor(env, st, req, actionId, now);
      && a.needApproval && a.risk == Medium
      && Plan(env, st, req, actionId, now, logTime, clock, d)
         == Step(Ok(PlanReply([a], [])), st.(actions := st.actions[actionId := a]), d)
  {
    FileProposalWaits(st.sessions[req.sessionId], Parser.Parse(env.cfg, req.utterance), actionId, now);
    GatedPlanWaits(env, st, req, actionId, now, logTime, clock, d);
  }

  lemma FileProposalWaits(session: Session, parsed: ParseResult, id: string, now: Instant)
    requires session.mode != HandsFree && StartsWith(parsed.intent, "files.")
    ensures parsed.intent != "unknown"
    ensures Proposed(session, parsed, id, now).needApproval && Proposed(session, parsed, id, now).risk == Medium
  {
    assert parsed.intent[0] == 'f';
  }

  /**
   * "what time is it?" in a normal-mode session under the default settings is
   * answered at once from the clock, logged, and not left pending.
   */
  lemma TimeQueryRunsAtOnce(env: Env, st: StoreState, req: PlanRequest, actionId: string, now: Instant,
                            logTime: Instant, clock: ClockReading, d: DiskState)
    requires env.cfg == Defaults(env.cfg.sandboxPath)
    requires req.utterance == "what time is it?"
    requires req.sessionId in st.sessions && st.sessions[req.sessionId].mode == Normal
    requires MakePath(d, ExecutorRoot(env, st.sessions[req.sessionId].rootPath), env.cwd).error.None?
    ensures
      var sid := st.sessions[req.sessionId].id;
      var a := Action(actionId, "system.time", map[], false, RulesReason, Low, Some(sid), now);
      var p := TimeNow(clock.nowIso, clock.unix);
      var s := Plan(env, st, req, actionId, now, logTime, clock, d);
      && s.reply == Ok(PlanReply([a], [ActionResult(actionId, true, Some(p), None)]))
      && s.store.actions == st.actions - {actionId}
      && LogsOf(s.store.logs, sid) == LogsOf(st.logs, sid) + [Entry(a, sid, true, Some(p), None, logTime)]
  {
    ParserFacts.TimeScenario(env.cfg, req.utterance);
    KnownToolRisks(map[]);
    var a := ProposedFor(env, st, req, actionId, now);
    assert a.tool == "system.time" && a.args == map[] && a.risk == Low && !a.needApproval;
    AutoRunSuccess(env, st, req, actionId, now, logTime, clock, d, TimeNow(clock.nowIso, clock.unix));
  }

  // ---------------------------------------------------------------------------
  // approve_action

  /** The session an action is logged under when it is resolved, if any. */
  ghost function SessionOf(st: StoreState, a: Action): Option<Session> {
    var key := SessionKey(a);
    if key.Some? && key.value in st.sessions then Some(st.sessions[key.value]) else None
  }

  /** The action and, when it names one, its session are in the store. */
  ghost predicate Resolvable(st: StoreState, id: string) {
    id in st.actions && (SessionKey(st.actions[id]).Some? ==> SessionKey(st.actions[id]).value in st.sessions)
  }

  /** An id that is not pending, or whose session is gone, is a 404 and changes nothing. */
  lemma UnresolvableIsNotFound(env: Env, st: StoreState, req: ApprovalRequest, logTime: Instant, clock: ClockReading, d: DiskState)
    requires !Resolvable(st, req.actionId)
    ensures Approve(env, st, req, logTime, clock, d).reply.Err?
    ensures Approve(env, st, req, logTime, clock, d).reply.error.NotFound?
    ensures Approve(env, st, req, logTime, clock, d).store == st
    ensures Approve(env, st, req, logTime, clock, d).disk == d
  {
  }

  /** A denial runs nothing, logs the denial under the action's session if it has one, and drops the action. */
  lemma DenyDropsAction(env: Env, st: StoreState, req: ApprovalRequest, logTime: Instant, clock: ClockReading, d: DiskState)
    requires req.decision == Deny && Resolvable(st, req.actionId)
    ensures
      var a := st.actions[req.actionId];
      var s := Approve(env, st, req, logTime, clock, d);
      && s.reply == Ok(ActionResult(req.actionId, false, None, Some(DeniedText)))
      && s.store == st.(logs := LogFor(st.logs, SessionOf(st, a), a, false, None, Some(DeniedText), logTime),
                        actions := st.actions - {req.actionId})
      && s.disk == d
  {
  }

  /** The run an approved action gets: under its session's root, or the configured sandbox without one. */
  ghost function ApprovedRun(env: Env, st: StoreState, id: string, clock: ClockReading, d: DiskState): Launch
    requires id in st.actions
  {
    var a := st.actions[id];
    var session := SessionOf(st, a);
    Run(env, if session.Some? then session.value.rootPath else env.cfg.sandboxPath, a.tool, a.args, clock, d)
  }

  /**
   * An approval that runs: success is logged and drops the action; failure is
   * logged too but leaves the action pending.
   */
  lemma AllowOutcome(env: Env, st: StoreState, req: ApprovalRequest, logTime: Instant, clock: ClockReading, d: DiskState)
    requires req.decision == Allow && Resolvable(st, req.actionId)
    requires ApprovedRun(env, st, req.actionId, clock, d).Ran?
    ensures
      var a := st.actions[req.actionId];
      var session := SessionOf(st, a);
      var o := ApprovedRun(env, st, req.actionId, clock, d).outcome;
      var s := Approve(env, st, req, logTime, clock, d);
      && s.disk == o.disk
      && (o.result.Ok? ==>
          && s.reply == Ok(ActionResult(req.actionId, true, Some(o.result.value), None))
          && s.store == st.(logs := LogFor(st.logs, session, a, true, Some(o.result.value), None, logTime),
                            actions := st.actions - {req.actionId}))
      && (o.result.Err? ==>
          && s.reply == Ok(ActionResult(req.actionId, false, None, Some(ErrorText(o.result.error))))
          && s.store == st.(logs := LogFor(st.logs, session, a, false, None, Some(ErrorText(o.result.error)), logTime)))
  {
  }

  /**
   * An approval whose sandbox cannot be created fails, leaves the store as it
   * was, and leaves the disk as `mkdir` left it.
   */
  lemma AllowWithoutSandbox(env: Env, st: StoreState, req: ApprovalRequest, logTime: Instant, clock: ClockReading, d: DiskState)
    requires req.decision == Allow && Resolvable(st, req.actionId)
    requires ApprovedRun(env, st, req.actionId, clock, d).SetupFailed?
    ensures Approve(env, st, req, logTime, clock, d)
         == Step(Err(ServerError(ErrorText(Os(ApprovedRun(env, st, req.actionId, clock, d).error)))), st,
                 ApprovedRun(env, st, req.actionId, clock, d).disk)
  {
  }

  /** After a denial, or an approval that succeeded, resolving the same id again is a 404. */
  lemma ResolvedActionIsGone(env: Env, st: StoreState, req: ApprovalRequest, logTime: Instant, clock: ClockReading, d: DiskState,
                             again: Decision, logTime2: Instant, clock2: ClockReading, d2: DiskState)
    requires Approve(env, st, req, logTime, clock, d).reply.Ok?
    requires req.decision == Deny || Approve(env, st, req, logTime, clock, d).reply.value.success
    ensures
      var st2 := Approve(env, st, req, logTime, clock, d).store;
      Approve(env, st2, ApprovalRequest(req.actionId, again), logTime2, clock2, d2)
        == Step(Err(NotFound("Action not found")), st2, d2)
  {
    assert req.actionId !in Approve(env, st, req, logTime, clock, d).store.actions;
  }

  /** An approval that failed leaves the action pending, so it can be approved again. */
  lemma FailedApprovalCanRetry(env: Env, st: StoreState, req: ApprovalRequest, logTime: Instant, clock: ClockReading, d: DiskState)
    requires req.decision == Allow
    requires Approve(env, st, req, logTime, clock, d).reply.Ok?
    requires !Approve(env, st, req, logTime, clock, d).reply.value.success
    ensures Approve(env, st, req, logTime, clock, d).store.actions == st.actions
    ensures Resolvable(Approve(env, st, req, logTime, clock, d).store, req.actionId)
  {
  }

  // ---------------------------------------------------------------------------
  // request_privilege

  /**
   * A privilege request waits for approval; approving it runs the
   * `privilege.request` tool, which only reports the request as pending,
   * under the configured sandbox, and nothing is logged because the action
   * has no session.
   */
  lemma ApprovedPrivilegeStaysPending(env: Env, st: StoreState, preq: PrivilegeRequest, id: string, now: Instant,
                                      logTime: Instant, clock: ClockReading, d: DiskState)
    ensures
      var a := PrivilegeAction(preq, id, now);
      var st1 := st.(actions := st.actions[id := a]);
      var made := MakePath(d, ExecutorRoot(env, env.cfg.sandboxPath), env.cwd);
      var s := Approve(env, st1, ApprovalRequest(id, Allow), logTime, clock, d);
      && (made.error.None? ==> s == Step(Ok(ActionResult(id, true, Some(PendingApproval), None)), st1.(actions := st1.actions - {id}), made.disk))
      && (made.error.Some? ==> s == Step(Err(ServerError(ErrorText(Os(made.error.value)))), st1, made.disk))
  {
    var a := PrivilegeAction(preq, id, now);
    assert SessionKey(a) == None;
  }

  // ---------------------------------------------------------------------------
  // Settings and sessions

  /** A fresh store reports the configured sandbox as root and that this is the first run. */
  lemma FreshRootSettings(cfg: Config)
    ensures RootSettings(cfg, InitialSettings(cfg.sandboxPath)) == (Str(cfg.sandboxPath), Bool(true))
  {
  }

  /** After `set_root_path` the store reports the chosen root and that the first run is over. */
  lemma RootSettingsAfterSet(cfg: Config, settings: map<string, Value>, req: RootPathRequest)
    ensures
      var after := settings["root_path" := Str(ChosenRoot(cfg, req))]["first_run" := Bool(false)];
      RootSettings(cfg, after) == (Str(ChosenRoot(cfg, req)), Bool(false))
  {
  }

  /** A session started after `set_root_path` carries the chosen root. */
  lemma SessionUsesChosenRoot(cfg: Config, st: StoreState, rreq: RootPathRequest, sreq: SessionStartRequest, id: string, t: Instant)
    ensures
      var root := ChosenRoot(cfg, rreq);
      var st1 := st.(settings := st.settings["root_path" := Str(root)]["first_run" := Bool(false)]);
      Start(cfg, st1, sreq, id, t).reply
        == Ok(Session(id, sreq.mode, AllowedScopes(sreq.mode), cfg.maxSessionMinutes, t, root))
  {
  }

  /**
   * A root path of blanks is stored as the empty string, and an executor
   * built on the empty string works under the configured sandbox.
   */
  lemma BlankRootMeansSandbox(env: Env, req: RootPathRequest)
    requires req.path != "" && AllSpace(req.path)
    ensures ChosenRoot(env.cfg, req) == ""
    ensures ExecutorRoot(env, ChosenRoot(env.cfg, req)) == ExecutorRoot(env, env.cfg.sandboxPath)
  {
  }

  /**
   * A root that goes through a file cannot be made, although resolving it
   * first would name "/tmp/box": the request fails before the tool runs.
   */
  lemma RootThroughFile(env: Env, tool: string, args: Args, clock: ClockReading, d: DiskState)
    requires ["tmp", "f"] in d.files && ["tmp", "f"] !in d.dirs
    ensures Run(env, "/tmp/f/../box", tool, args, clock, d) == SetupFailed(NotADirectory, d)
  {
    var p := Path(true, ["tmp", "f", "..", "box"]);
    assert JoinParts(["box"]) == "box";
    assert JoinParts(["..", "box"]) == ".." + "/" + "box";
    assert JoinParts(["f", "..", "box"]) == "f" + "/" + "../box";
    assert JoinParts(p.parts) == "tmp" + "/" + "f/../box";
    assert ToString(p) == "/tmp/f/../box";
    assert WellFormed(p) by {
      assert IsComponent("tmp") && IsComponent("f") && IsComponent("..") && IsComponent("box");
    }
    ParsePrinted(p);
    assert ExecutorRoot(env, "/tmp/f/../box") == p;
    MakePathThroughFile(d, env.cwd);
  }
}
