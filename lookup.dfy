/**
  The ownership-checked lookups every handler that takes a session id starts
  with: a session is found
  only by its id together with the current user's id, and a turn only by its
  id together with its session's id. Rows are given as the sequence the
  database holds.
 */
module Lookup {
  import opened Wrappers
  import opened Models

  /** The first index at or after `from` whose element satisfies `p`, if any. */
  function IndexWhere<T>(s: seq<T>, p: T -> bool, from: nat): (r: Option<nat>)
    requires from <= |s|
    ensures r.Some? ==> from <= r.value < |s| && p(s[r.value])
    ensures r.Some? ==> forall j :: from <= j < r.value ==> !p(s[j])
    ensures r.None? ==> forall j :: from <= j < |s| ==> !p(s[j])
    decreases |s| - from
  {
    if from == |s| then None
    else if p(s[from]) then Some(from)
    else IndexWhere(s, p, from + 1)
  }

  predicate OwnedSession(s: Session, sessionId: string, userId: string) {
    s.id == sessionId && s.userId == userId
  }

  predicate TurnOfSession(t: Turn, turnId: string, sessionId: string) {
    t.id == turnId && t.sessionId == sessionId
  }

  /** `select(Session).where(Session.id == session_id and Session.user_id == user_id)`. */
  function FindSession(sessions: seq<Session>, sessionId: string, userId: string): (r: Option<nat>)
    ensures r.Some? ==> r.value < |sessions| && OwnedSession(sessions[r.value], sessionId, userId)
    ensures r.None? <==> forall i :: 0 <= i < |sessions| ==> !OwnedSession(sessions[i], sessionId, userId)
  {
    IndexWhere(sessions, s => OwnedSession(s, sessionId, userId), 0)
  }

  /** `select(Turn).where(Turn.id == turn_id and Turn.session_id == session_id)`. */
  function FindTurn(turns: seq<Turn>, turnId: string, sessionId: string): (r: Option<nat>)
    ensures r.Some? ==> r.value < |turns| && TurnOfSession(turns[r.value], turnId, sessionId)
    ensures r.None? <==> forall i :: 0 <= i < |turns| ==> !TurnOfSession(turns[i], turnId, sessionId)
  {
    IndexWhere(turns, t => TurnOfSession(t, turnId, sessionId), 0)
  }

  ghost predicate UniqueSessionIds(sessions: seq<Session>) {
    forall i, j :: 0 <= i < j < |sessions| ==> sessions[i].id != sessions[j].id
  }

  ghost predicate UniqueTurnIds(turns: seq<Turn>) {
    forall i, j :: 0 <= i < j < |turns| ==> turns[i].id != turns[j].id
  }

  /**
    With primary-key ids the lookup is exact: it returns the one row that has
    both the id and the owner, and it fails for another user's session.
   */
  lemma FindSessionExact(sessions: seq<Session>, k: nat, userId: string)
    requires UniqueSessionIds(sessions) && k < |sessions|
    ensures FindSession(sessions, sessions[k].id, userId) ==
      if sessions[k].userId == userId then Some(k) else None
  {
  }

  /** With unique turn ids, a turn is found through its own session and through no other. */
  lemma FindTurnExact(turns: seq<Turn>, k: nat, sessionId: string)
    requires UniqueTurnIds(turns) && k < |turns|
    ensures FindTurn(turns, turns[k].id, sessionId) ==
      if turns[k].sessionId == sessionId then Some(k) else None
  {
  }
}
