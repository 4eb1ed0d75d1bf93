/**
  The session, turn, preference and run handlers as operations on one store
  that holds the database rows. Each handler that takes a session id first
  looks the session up by id and owner and fails with 404 "Session not found", changing nothing, when
  that lookup fails; handlers that take a turn id then look the turn up within
  the session and fail with 404 "Turn not found" in the same way.
 */
module SessionStore {
  import opened Wrappers
  import opened Models
  import opened Lookup
  import opened TurnNumbering
  import opened SessionUpdates
  import opened Analytics
  import opened CodeRuns

  datatype ExportFormat = Json | Markdown | Csv

  datatype SessionExport = SessionExport(
    session: Session,
    turns: seq<Turn>,
    preferences: seq<Preference>,
    exportFormat: ExportFormat)

  /** The runs of one turn in store order: `select(Run).where(Run.turn_id == turn_id and Run.session_id == session_id)`. */
  function RunsOf(runs: seq<Run>, sessionId: string, turnId: string): (r: seq<Run>)
    ensures forall run :: run in r <==> run in runs && run.sessionId == sessionId && run.turnId == turnId
  {
    if runs == [] then []
    else (if runs[0].sessionId == sessionId && runs[0].turnId == turnId then [runs[0]] else [])
         + RunsOf(runs[1..], sessionId, turnId)
  }

  ghost predicate UniquePreferenceIds(preferences: seq<Preference>) {
    forall i, j :: 0 <= i < j < |preferences| ==> preferences[i].id != preferences[j].id
  }

  ghost predicate UniqueRunIds(runs: seq<Run>) {
    forall i, j :: 0 <= i < j < |runs| ==> runs[i].id != runs[j].id
  }

  class Store {
    var sessions: seq<Session>
    var turns: seq<Turn>
    var preferences: seq<Preference>
    var runs: seq<Run>

    /**
      Ids are primary keys, every turn is numbered after the earlier turns of
      its session, and every session's `total_turns` counts its turns.
     */
    ghost predicate Valid()
      reads this
    {
      && UniqueSessionIds(sessions)
      && UniqueTurnIds(turns)
      && UniquePreferenceIds(preferences)
      && UniqueRunIds(runs)
      && TurnsNumbered(turns)
      && TotalsMatch(sessions, turns)
    }

    constructor ()
      ensures Valid()
      ensures sessions == [] && turns == [] && preferences == [] && runs == []
    {
      sessions, turns, preferences, runs := [], [], [], [];
    }

    /**
      `create_session`. The id is a fresh uuid, so no row mentions it yet.
      The columns the handler does not set take the model's defaults, which
      are parameters here; `total_turns` starts at 0.
     */
    method CreateSession(id: string, userId: string, title: string, description: Option<string>,
                         modelsUsed: seq<string>, defaultActive: bool, defaultArchived: bool, now: Timestamp)
      returns (s: Session)
      requires Valid()
      requires forall i :: 0 <= i < |sessions| ==> sessions[i].id != id
      requires forall i :: 0 <= i < |turns| ==> turns[i].sessionId != id
      modifies this
      ensures Valid()
      ensures s == Session(id, userId, title, description, modelsUsed, defaultActive, defaultArchived, 0, now, now)
      ensures sessions == old(sessions) + [s]
      ensures turns == old(turns) && preferences == old(preferences) && runs == old(runs)
    {
      s := Session(id, userId, title, description, modelsUsed, defaultActive, defaultArchived, 0, now, now);
      TurnsOfAbsent(turns, id);
      sessions := sessions + [s];
    }

    /** `get_session_by_id`. */
    method GetSession(sessionId: string, userId: string) returns (r: Result<Session, ApiError>)
      ensures r.Ok? <==> exists i :: 0 <= i < |sessions| && OwnedSession(sessions[i], sessionId, userId)
      ensures r.Ok? ==> r.value in sessions && OwnedSession(r.value, sessionId, userId)
      ensures r.Err? ==> r.error == SessionNotFound
    {
      match FindSession(sessions, sessionId, userId)
      case None => r := Err(SessionNotFound);
      case Some(k) => r := Ok(sessions[k]);
    }

    /** `update_session`: the set fields are written in order, then `updated_at`. */
    method UpdateSession(sessionId: string, userId: string, updates: seq<FieldUpdate>, now: Timestamp)
      returns (r: Result<Session, ApiError>)
      requires Valid()
      modifies this
      ensures Valid()
      ensures FindSession(old(sessions), sessionId, userId).None? ==> r == Err(SessionNotFound) && unchanged(this)
      ensures FindSession(old(sessions), sessionId, userId).Some? ==>
        var k := FindSession(old(sessions), sessionId, userId).value;
        && sessions == old(sessions)[k := ApplyAll(old(sessions)[k], updates).(updatedAt := now)]
        && r == Ok(sessions[k])
      ensures turns == old(turns) && preferences == old(preferences) && runs == old(runs)
    {
      match FindSession(sessions, sessionId, userId)
      case None => r := Err(SessionNotFound);
      case Some(k) =>
        var s := ApplyUpdates(sessions[k], updates, now);
        sessions := sessions[k := s];
        r := Ok(s);
    }

    /** `delete_session`: the session row is removed; other tables are left as they are. */
    method DeleteSession(sessionId: string, userId: string) returns (r: Result<string, ApiError>)
      requires Valid()
      modifies this
      ensures Valid()
      ensures FindSession(old(sessions), sessionId, userId).None? ==> r == Err(SessionNotFound) && unchanged(this)
      ensures FindSession(old(sessions), sessionId, userId).Some? ==>
        var k := FindSession(old(sessions), sessionId, userId).value;
        && sessions == old(sessions)[..k] + old(sessions)[k + 1..]
        && r == Ok("Session deleted successfully")
      ensures turns == old(turns) && preferences == old(preferences) && runs == old(runs)
    {
      match FindSession(sessions, sessionId, userId)
      case None => r := Err(SessionNotFound);
      case Some(k) =>
        sessions := sessions[..k] + sessions[k + 1..];
        r := Ok("Session deleted successfully");
    }

    /** `get_session_turns`: the session's turns ordered by number, which is their store order. */
    method GetSessionTurns(sessionId: string, userId: string) returns (r: Result<seq<Turn>, ApiError>)
      requires Valid()
      ensures r.Err? <==> FindSession(sessions, sessionId, userId).None?
      ensures r.Err? ==> r.error == SessionNotFound
      ensures r.Ok? ==> r.value == TurnsOf(turns, sessionId)
      ensures r.Ok? ==> |r.value| == sessions[FindSession(sessions, sessionId, userId).value].totalTurns
      ensures r.Ok? ==> forall j :: 0 <= j < |r.value| ==> r.value[j].turnNumber == j + 1
    {
      match FindSession(sessions, sessionId, userId)
      case None => r := Err(SessionNotFound);
      case Some(k) =>
        TurnsOfNumbered(turns, sessionId);
        r := Ok(TurnsOf(turns, sessionId));
    }

    /**
      `create_turn`: the turn is numbered one more than the session's existing
      turns and the session's `total_turns` grows by one. The turn id is a
      fresh uuid.
     */
    method CreateTurn(sessionId: string, userId: string, turnId: string, prompt: string,
                      context: Option<string>, modelsRequested: seq<string>, now: Timestamp)
      returns (r: Result<Turn, ApiError>)
      requires Valid()
      requires forall i :: 0 <= i < |turns| ==> turns[i].id != turnId
      modifies this
      ensures Valid()
      ensures FindSession(old(sessions), sessionId, userId).None? ==> r == Err(SessionNotFound) && unchanged(this)
      ensures FindSession(old(sessions), sessionId, userId).Some? ==>
        var k := FindSession(old(sessions), sessionId, userId).value;
        var s := old(sessions)[k];
        && r.Ok?
        && r.value == Turn(turnId, sessionId, userId, |TurnsOf(old(turns), sessionId)| + 1,
                           prompt, context, modelsRequested, None)
        && r.value.turnNumber == s.totalTurns + 1
        && turns == old(turns) + [r.value]
        && sessions == old(sessions)[k := s.(totalTurns := s.totalTurns + 1, lastActivityAt := now, updatedAt := now)]
      ensures preferences == old(preferences) && runs == old(runs)
    {
      match FindSession(sessions, sessionId, userId)
      case None => r := Err(SessionNotFound);
      case Some(k) =>
        var turnNumber := |TurnsOf(turns, sessionId)| + 1;
        var turn := Turn(turnId, sessionId, userId, turnNumber, prompt, context, modelsRequested, None);
        var s := sessions[k];
        AppendKeepsNumbering(turns, turn);
        ghost var oldTurns := turns;
        turns := turns + [turn];
        sessions := sessions[k := s.(totalTurns := s.totalTurns + 1, lastActivityAt := now, updatedAt := now)];
        forall i | 0 <= i < |sessions|
          ensures sessions[i].totalTurns == |TurnsOf(turns, sessions[i].id)|
        {
          if i != k {
            assert sessions[i].id != sessionId;
          }
        }
        r := Ok(turn);
    }

    /** `get_turn`. */
    method GetTurn(sessionId: string, turnId: string, userId: string) returns (r: Result<Turn, ApiError>)
      ensures FindSession(sessions, sessionId, userId).None? ==> r == Err(SessionNotFound)
      ensures FindSession(sessions, sessionId, userId).Some? && FindTurn(turns, turnId, sessionId).None? ==>
        r == Err(TurnNotFound)
      ensures r.Ok? ==> r.value in turns && TurnOfSession(r.value, turnId, sessionId)
      ensures r.Ok? <==> FindSession(sessions, sessionId, userId).Some? && FindTurn(turns, turnId, sessionId).Some?
    {
      match FindSession(sessions, sessionId, userId)
      case None => r := Err(SessionNotFound);
      case Some(_) =>
        match FindTurn(turns, turnId, sessionId)
        case None => r := Err(TurnNotFound);
        case Some(j) => r := Ok(turns[j]);
    }

    /** `create_preference`, with a fresh uuid for the preference id: recorded against an existing turn of an owned session; the session's activity is stamped. */
    method CreatePreference(sessionId: string, turnId: string, userId: string, preferenceId: string,
                            preferredModel: string, comparedModels: seq<string>, now: Timestamp)
      returns (r: Result<Preference, ApiError>)
      requires Valid()
      requires forall i :: 0 <= i < |preferences| ==> preferences[i].id != preferenceId
      modifies this
      ensures Valid()
      ensures FindSession(old(sessions), sessionId, userId).None? ==> r == Err(SessionNotFound) && unchanged(this)
      ensures FindSession(old(sessions), sessionId, userId).Some? && FindTurn(old(turns), turnId, sessionId).None? ==>
        r == Err(TurnNotFound) && unchanged(this)
      ensures FindSession(old(sessions), sessionId, userId).Some? && FindTurn(old(turns), turnId, sessionId).Some? ==>
        var k := FindSession(old(sessions), sessionId, userId).value;
        && r == Ok(Preference(preferenceId, userId, sessionId, turnId, preferredModel, comparedModels))
        && preferences == old(preferences) + [r.value]
        && sessions == old(sessions)[k := old(sessions)[k].(lastActivityAt := now, updatedAt := now)]
      ensures turns == old(turns) && runs == old(runs)
    {
      match FindSession(sessions, sessionId, userId)
      case None => r := Err(SessionNotFound);
      case Some(k) =>
        match FindTurn(turns, turnId, sessionId)
        case None => r := Err(TurnNotFound);
        case Some(_) =>
          var p := Preference(preferenceId, userId, sessionId, turnId, preferredModel, comparedModels);
          preferences := preferences + [p];
          sessions := sessions[k := sessions[k].(lastActivityAt := now, updatedAt := now)];
          r := Ok(p);
    }

    /** `get_session_preferences`. */
    method GetSessionPreferences(sessionId: string, userId: string) returns (r: Result<seq<Preference>, ApiError>)
      ensures r.Err? <==> FindSession(sessions, sessionId, userId).None?
      ensures r.Err? ==> r.error == SessionNotFound
      ensures r.Ok? ==> r.value == PreferencesOf(preferences, sessionId)
      ensures r.Ok? ==> forall p :: p in r.value <==> p in preferences && p.sessionId == sessionId
    {
      match FindSession(sessions, sessionId, userId)
      case None => r := Err(SessionNotFound);
      case Some(_) => r := Ok(PreferencesOf(preferences, sessionId));
    }

    /** `get_session_analytics`. */
    method GetSessionAnalytics(sessionId: string, userId: string) returns (r: Result<SessionAnalytics, ApiError>)
      requires Valid()
      ensures r.Err? <==> FindSession(sessions, sessionId, userId).None?
      ensures r.Err? ==> r.error == SessionNotFound
      ensures r.Ok? ==>
        var s := sessions[FindSession(sessions, sessionId, userId).value];
        var prefs := PreferencesOf(preferences, sessionId);
        && r.value.totalSessions == 1
        && r.value.activeSessions == (if s.isActive then 1 else 0)
        && r.value.archivedSessions == (if s.isArchived then 1 else 0)
        && r.value.totalTurns == r.value.averageTurnsPerSession == s.totalTurns
        && |r.value.mostUsedModels| == |s.modelsUsed|
        && (forall i :: 0 <= i < |s.modelsUsed| ==> r.value.mostUsedModels[i] == ModelUsage(s.modelsUsed[i], 1))
        && (forall m :: m in r.value.modelPreferenceStats <==> m in s.modelsUsed)
        && (forall m :: m in r.value.modelPreferenceStats ==>
              && r.value.modelPreferenceStats[m].wins == Wins(prefs, m)
              && r.value.modelPreferenceStats[m].winRate == WinRate(Wins(prefs, m), |prefs|)
              && (prefs == [] ==> r.value.modelPreferenceStats[m].winRate == 0.0))
    {
      match FindSession(sessions, sessionId, userId)
      case None => r := Err(SessionNotFound);
      case Some(k) =>
        var a := Analyze(sessions[k], TurnsOf(turns, sessionId), PreferencesOf(preferences, sessionId));
        r := Ok(a);
    }

    /** `export_session`: the session with its turns in number order and its preferences. */
    method ExportSession(sessionId: string, userId: string, format: ExportFormat)
      returns (r: Result<SessionExport, ApiError>)
      requires Valid()
      ensures r.Err? <==> FindSession(sessions, sessionId, userId).None?
      ensures r.Err? ==> r.error == SessionNotFound
      ensures r.Ok? ==>
        && r.value.session == sessions[FindSession(sessions, sessionId, userId).value]
        && r.value.turns == TurnsOf(turns, sessionId)
        && (forall j :: 0 <= j < |r.value.turns| ==> r.value.turns[j].turnNumber == j + 1)
        && r.value.preferences == PreferencesOf(preferences, sessionId)
        && r.value.exportFormat == format
    {
      match FindSession(sessions, sessionId, userId)
      case None => r := Err(SessionNotFound);
      case Some(k) =>
        TurnsOfNumbered(turns, sessionId);
        r := Ok(SessionExport(sessions[k], TurnsOf(turns, sessionId), PreferencesOf(preferences, sessionId), format));
    }

    /** `get_turn_runs`. */
    method GetTurnRuns(sessionId: string, turnId: string, userId: string) returns (r: Result<seq<Run>, ApiError>)
      ensures FindSession(sessions, sessionId, userId).None? ==> r == Err(SessionNotFound)
      ensures FindSession(sessions, sessionId, userId).Some? && FindTurn(turns, turnId, sessionId).None? ==>
        r == Err(TurnNotFound)
      ensures r.Ok? <==> FindSession(sessions, sessionId, userId).Some? && FindTurn(turns, turnId, sessionId).Some?
      ensures r.Ok? ==> r.value == RunsOf(runs, sessionId, turnId)
      ensures r.Ok? ==> forall run :: run in r.value <==> run in runs && run.sessionId == sessionId && run.turnId == turnId
    {
      match FindSession(sessions, sessionId, userId)
      case None => r := Err(SessionNotFound);
      case Some(_) =>
        match FindTurn(turns, turnId, sessionId)
        case None => r := Err(TurnNotFound);
        case Some(_) => r := Ok(RunsOf(runs, sessionId, turnId));
    }

    /**
      `execute_code`: after both lookups, the turn takes a changed prompt, a
      pending run is recorded with the kept variants, and the session's
      activity is stamped. The run id is a fresh uuid generated by the caller.
     */
    method ExecuteCode(sessionId: string, turnId: string, userId: string, request: CodeRequest,
                       runId: string, now: Timestamp)
      returns (r: Result<CodeResponse, ApiError>, call: Option<OrchestratorCall>)
      requires Valid()
      requires forall i :: 0 <= i < |runs| ==> runs[i].id != runId
      modifies this
      ensures Valid()
      ensures FindSession(old(sessions), sessionId, userId).None? ==> r == Err(SessionNotFound) && unchanged(this)
      ensures FindSession(old(sessions), sessionId, userId).Some? && FindTurn(old(turns), turnId, sessionId).None? ==>
        r == Err(TurnNotFound) && unchanged(this)
      ensures FindSession(old(sessions), sessionId, userId).Some? && FindTurn(old(turns), turnId, sessionId).Some? ==>
        var k := FindSession(old(sessions), sessionId, userId).value;
        var j := FindTurn(old(turns), turnId, sessionId).value;
        && turns == old(turns)[j := RefreshTurn(old(turns)[j], request)]
        && runs == old(runs) + [NewRun(runId, request, userId, sessionId, turnId)]
        && sessions == old(sessions)[k := old(sessions)[k].(lastActivityAt := now, updatedAt := now)]
        && r == Ok(CodeAccepted(turnId, runId, request))
      ensures call.Some? <==> r.Ok?
      ensures r.Ok? ==> call == Some(BackgroundCall(runId, request, userId))
      ensures preferences == old(preferences)
    {
      call := None;
      match FindSession(sessions, sessionId, userId)
      case None => r := Err(SessionNotFound);
      case Some(k) =>
        match FindTurn(turns, turnId, sessionId)
        case None => r := Err(TurnNotFound);
        case Some(j) =>
          var refreshed := RefreshTurn(turns[j], request);
          ReplaceKeepsNumbering(turns, j, refreshed);
          turns := turns[j := refreshed];
          runs := runs + [NewRun(runId, request, userId, sessionId, turnId)];
          sessions := sessions[k := sessions[k].(lastActivityAt := now, updatedAt := now)];
          r := Ok(CodeAccepted(turnId, runId, request));
          call := Some(BackgroundCall(runId, request, userId));
    }
  }
}
