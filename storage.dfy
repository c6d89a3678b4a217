/**
 * The in-memory part of `Storage` (backend/app/storage.py:10-200): sessions
 * and actions by id, a list of log entries per session, and the settings
 * dictionary. The SQLite mirror of each write is not modelled.
 */
module Store {
  import opened Wrappers
  import opened Models

  /** The four dictionaries, as one value. */
  datatype StoreState = StoreState(
    sessions: map<string, Session>,
    actions: map<string, Action>,
    logs: map<string, seq<LogEntry>>,
    settings: map<string, Value>)

  /** The settings dictionary a fresh store starts with. */
  function InitialSettings(sandboxPath: string): (m: map<string, Value>)
    ensures m.Keys == {"root_path", "first_run"}
    ensures m["root_path"] == Str(sandboxPath) && m["first_run"] == Bool(true)
  {
    map["root_path" := Str(sandboxPath), "first_run" := Bool(true)]
  }

  class Storage {
    var sessions: map<string, Session>
    var actions: map<string, Action>
    var logs: map<string, seq<LogEntry>>
    var settings: map<string, Value>

    function State(): StoreState
      reads this
    {
      StoreState(sessions, actions, logs, settings)
    }

    /** Nothing stored yet; the root path is the configured sandbox and this is the first run. */
    constructor (sandboxPath: string)
      ensures sessions == map[] && actions == map[] && logs == map[]
      ensures settings == InitialSettings(sandboxPath)
    {
      sessions := map[];
      actions := map[];
      logs := map[];
      settings := InitialSettings(sandboxPath);
    }

    /** `save_setting`: overwrites the key. */
    method SaveSetting(key: string, value: Value)
      modifies this
      ensures settings == old(settings)[key := value]
      ensures sessions == old(sessions) && actions == old(actions) && logs == old(logs)
    {
      settings := settings[key := value];
    }

    /** `get_setting`: the stored value, or the default when the key is absent. */
    method GetSetting(key: string, default: Option<Value>) returns (v: Option<Value>)
      ensures key in settings ==> v == Some(settings[key])
      ensures key !in settings ==> v == default
    {
      if key in settings {
        v := Some(settings[key]);
      } else {
        v := default;
      }
    }

    /** `save_session`: overwrites by id. */
    method SaveSession(session: Session)
      modifies this
      ensures sessions == old(sessions)[session.id := session]
      ensures actions == old(actions) && logs == old(logs) && settings == old(settings)
    {
      sessions := sessions[session.id := session];
    }

    method GetSession(id: string) returns (s: Option<Session>)
      ensures s.Some? <==> id in sessions
      ensures s.Some? ==> s.value == sessions[id] && s.value in sessions.Values
    {
      if id in sessions {
        s := Some(sessions[id]);
      } else {
        s := None;
      }
    }

    /** `save_action`: overwrites by id. */
    method SaveAction(action: Action)
      modifies this
      ensures actions == old(actions)[action.id := action]
      ensures sessions == old(sessions) && logs == old(logs) && settings == old(settings)
    {
      actions := actions[action.id := action];
    }

    method GetAction(id: string) returns (a: Option<Action>)
      ensures a.Some? <==> id in actions
      ensures a.Some? ==> a.value == actions[id]
    {
      if id in actions {
        a := Some(actions[id]);
      } else {
        a := None;
      }
    }

    /** `delete_action`: removes the id if present, and is silent otherwise. */
    method DeleteAction(id: string)
      modifies this
      ensures actions == old(actions) - {id}
      ensures id !in old(actions) ==> actions == old(actions)
      ensures sessions == old(sessions) && logs == old(logs) && settings == old(settings)
    {
      if id in actions {
        actions := actions - {id};
      }
    }

    /** `save_log`: appends to the entry's session, starting its list if needed. */
    method SaveLog(entry: LogEntry)
      modifies this
      ensures logs == AppendLog(old(logs), entry)
      ensures sessions == old(sessions) && actions == old(actions) && settings == old(settings)
    {
      if entry.sessionId !in logs {
        logs := logs[entry.sessionId := []];
      }
      logs := logs[entry.sessionId := logs[entry.sessionId] + [entry]];
    }

    /** `get_logs`: the session's entries in the order they were saved, or none. */
    method GetLogs(sessionId: string) returns (entries: seq<LogEntry>)
      ensures sessionId !in logs ==> entries == []
      ensures sessionId in logs ==> entries == logs[sessionId]
    {
      if sessionId in logs {
        entries := logs[sessionId];
      } else {
        entries := [];
      }
    }
  }

  /** The log list of a session; a session that never logged has the empty list. */
  function LogsOf(logs: map<string, seq<LogEntry>>, sessionId: string): (entries: seq<LogEntry>)
    ensures sessionId !in logs ==> entries == []
    ensures sessionId in logs ==> entries == logs[sessionId]
  {
    if sessionId in logs then logs[sessionId] else []
  }

  /** `save_log` on the dictionary: the entry goes last in its session's list, and no other list changes. */
  function AppendLog(logs: map<string, seq<LogEntry>>, entry: LogEntry): (r: map<string, seq<LogEntry>>)
    ensures LogsOf(r, entry.sessionId) == LogsOf(logs, entry.sessionId) + [entry]
    ensures forall k :: k != entry.sessionId ==> LogsOf(r, k) == LogsOf(logs, k)
    ensures r.Keys == logs.Keys + {entry.sessionId}
  {
    logs[entry.sessionId := LogsOf(logs, entry.sessionId) + [entry]]
  }
}
