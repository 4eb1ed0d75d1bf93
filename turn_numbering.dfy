/**
  Turn numbering in `create_turn`: a new turn is numbered one more than the
  number of turns its session already has, and the session's `total_turns`
  counter moves with it. The predicates here are the invariants the session
  store keeps; the lemmas say what they give and that appending or editing a
  turn keeps them.
 */
module TurnNumbering {
  import opened Models

  /** The turns of one session in store order: `select(Turn).where(Turn.session_id == session_id)`. */
  function TurnsOf(turns: seq<Turn>, sessionId: string): (r: seq<Turn>)
    ensures |r| <= |turns|
    ensures forall t :: t in r ==> t in turns && t.sessionId == sessionId
    ensures forall t :: t in turns && t.sessionId == sessionId ==> t in r
  {
    if turns == [] then []
    else
      var last := turns[|turns| - 1];
      TurnsOf(turns[..|turns| - 1], sessionId) + (if last.sessionId == sessionId then [last] else [])
  }

  /** The turn at position `i` is numbered one more than the earlier turns of its session. */
  ghost predicate NumberedAt(turns: seq<Turn>, i: nat)
    requires i < |turns|
  {
    turns[i].turnNumber == |TurnsOf(turns[..i], turns[i].sessionId)| + 1
  }

  /** Every turn's number is one more than the number of earlier turns of the same session. */
  ghost predicate TurnsNumbered(turns: seq<Turn>) {
    forall i :: 0 <= i < |turns| ==> NumberedAt(turns, i)
  }

  /** Each session's `total_turns` counter is the number of its turns. */
  ghost predicate TotalsMatch(sessions: seq<Session>, turns: seq<Turn>) {
    forall i :: 0 <= i < |sessions| ==> sessions[i].totalTurns == |TurnsOf(turns, sessions[i].id)|
  }

  /** A session id no turn refers to, such as a freshly generated one, has no turns. */
  lemma {:induction false} TurnsOfAbsent(turns: seq<Turn>, sessionId: string)
    requires forall i :: 0 <= i < |turns| ==> turns[i].sessionId != sessionId
    ensures TurnsOf(turns, sessionId) == []
  {
    if turns != [] {
      TurnsOfAbsent(turns[..|turns| - 1], sessionId);
    }
  }

  /** Appending one turn adds it to its own session's list and to no other. */
  lemma TurnsOfAppend(turns: seq<Turn>, t: Turn, sessionId: string)
    ensures TurnsOf(turns + [t], sessionId) ==
      TurnsOf(turns, sessionId) + (if t.sessionId == sessionId then [t] else [])
  {
    assert (turns + [t])[..|turns|] == turns;
  }

  /**
    Numbering a new turn from the count of its session's existing turns keeps
    the numbering invariant, and only that session's count grows, by one.
   */
  lemma AppendKeepsNumbering(turns: seq<Turn>, t: Turn)
    requires TurnsNumbered(turns)
    requires t.turnNumber == |TurnsOf(turns, t.sessionId)| + 1
    ensures TurnsNumbered(turns + [t])
    ensures forall sid :: |TurnsOf(turns + [t], sid)| == |TurnsOf(turns, sid)| + (if t.sessionId == sid then 1 else 0)
  {
    var ts := turns + [t];
    forall i | 0 <= i < |ts|
      ensures NumberedAt(ts, i)
    {
      if i < |turns| {
        assert NumberedAt(turns, i);
        assert ts[..i] == turns[..i];
      } else {
        assert ts[..i] == turns;
      }
    }
    forall sid
      ensures |TurnsOf(ts, sid)| == |TurnsOf(turns, sid)| + (if t.sessionId == sid then 1 else 0)
    {
      TurnsOfAppend(turns, t, sid);
    }
  }

  /** Numbered turns list each session's turns as 1, 2, 3, ... in store order, so ordering by number keeps that order. */
  lemma {:induction false} TurnsOfNumbered(turns: seq<Turn>, sessionId: string)
    requires TurnsNumbered(turns)
    ensures forall j :: 0 <= j < |TurnsOf(turns, sessionId)| ==> TurnsOf(turns, sessionId)[j].turnNumber == j + 1
  {
    if turns != [] {
      var n := |turns| - 1;
      var front, last := turns[..n], turns[n];
      assert TurnsNumbered(front) by {
        forall i | 0 <= i < |front|
          ensures NumberedAt(front, i)
        {
          assert NumberedAt(turns, i);
          assert front[..i] == turns[..i];
        }
      }
      TurnsOfNumbered(front, sessionId);
      assert turns == front + [last];
      TurnsOfAppend(front, last, sessionId);
      var r := TurnsOf(turns, sessionId);
      assert NumberedAt(turns, n);
      assert turns[..n] == front;
      forall j | 0 <= j < |r|
        ensures r[j].turnNumber == j + 1
      {
        if j < |TurnsOf(front, sessionId)| {
          assert r[j] == TurnsOf(front, sessionId)[j];
        }
      }
    }
  }

  /** Two turn lists whose rows belong to the same sessions, position by position, have equally many turns per session. */
  lemma {:induction false} TurnsOfSameSessions(ts1: seq<Turn>, ts2: seq<Turn>, sessionId: string)
    requires |ts1| == |ts2|
    requires forall i :: 0 <= i < |ts1| ==> ts1[i].sessionId == ts2[i].sessionId
    ensures |TurnsOf(ts1, sessionId)| == |TurnsOf(ts2, sessionId)|
  {
    if ts1 != [] {
      TurnsOfSameSessions(ts1[..|ts1| - 1], ts2[..|ts2| - 1], sessionId);
    }
  }

  /** Editing a turn in place without touching its session or its number keeps numbering and counts. */
  lemma ReplaceKeepsNumbering(turns: seq<Turn>, k: nat, t: Turn)
    requires TurnsNumbered(turns) && k < |turns|
    requires t.sessionId == turns[k].sessionId && t.turnNumber == turns[k].turnNumber
    ensures TurnsNumbered(turns[k := t])
    ensures forall sid :: |TurnsOf(turns[k := t], sid)| == |TurnsOf(turns, sid)|
  {
    var ts := turns[k := t];
    forall i | 0 <= i < |ts|
      ensures NumberedAt(ts, i)
    {
      assert NumberedAt(turns, i);
      TurnsOfSameSessions(ts[..i], turns[..i], ts[i].sessionId);
    }
    forall sid
      ensures |TurnsOf(ts, sid)| == |TurnsOf(turns, sid)|
    {
      TurnsOfSameSessions(ts, turns, sid);
    }
  }
}
