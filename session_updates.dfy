/**
  `update_session`: the fields the client set in its `SessionUpdate` are
  written onto the session one by one with `setattr`, in the order the
  update lists them, and `updated_at` is stamped afterwards.
 */
module SessionUpdates {
  import opened Wrappers
  import opened Models

  /** The session columns an update may write. */
  datatype Field = Title | Description | ModelsUsed | IsActive | IsArchived

  /** One `(field, value)` pair of `session_update.model_dump(exclude_unset=True)`. */
  datatype FieldUpdate =
    | SetTitle(title: string)
    | SetDescription(description: Option<string>)
    | SetModelsUsed(modelsUsed: seq<string>)
    | SetActive(isActive: bool)
    | SetArchived(isArchived: bool)
  {
    function Target(): Field {
      match this
      case SetTitle(_) => Title
      case SetDescription(_) => Description
      case SetModelsUsed(_) => ModelsUsed
      case SetActive(_) => IsActive
      case SetArchived(_) => IsArchived
    }
  }

  /** `setattr(session, field, value)`. */
  function Apply(s: Session, u: FieldUpdate): Session {
    match u
    case SetTitle(t) => s.(title := t)
    case SetDescription(d) => s.(description := d)
    case SetModelsUsed(m) => s.(modelsUsed := m)
    case SetActive(a) => s.(isActive := a)
    case SetArchived(a) => s.(isArchived := a)
  }

  /** The `setattr` loop over every set field, first to last. */
  function ApplyAll(s: Session, updates: seq<FieldUpdate>): Session
    decreases updates
  {
    if updates == [] then s else ApplyAll(Apply(s, updates[0]), updates[1..])
  }

  /** Some update in the list writes `f`. */
  predicate Writes(updates: seq<FieldUpdate>, f: Field) {
    exists i :: 0 <= i < |updates| && updates[i].Target() == f
  }

  /** `s1` and `s2` have the same identity, counters and timestamps, and the same value in every field `updates` leaves alone. */
  ghost predicate AgreeOutside(s1: Session, s2: Session, updates: seq<FieldUpdate>) {
    && s1.id == s2.id && s1.userId == s2.userId && s1.totalTurns == s2.totalTurns
    && s1.lastActivityAt == s2.lastActivityAt && s1.updatedAt == s2.updatedAt
    && (!Writes(updates, Title) ==> s1.title == s2.title)
    && (!Writes(updates, Description) ==> s1.description == s2.description)
    && (!Writes(updates, ModelsUsed) ==> s1.modelsUsed == s2.modelsUsed)
    && (!Writes(updates, IsActive) ==> s1.isActive == s2.isActive)
    && (!Writes(updates, IsArchived) ==> s1.isArchived == s2.isArchived)
  }

  /** An update never changes the session's id, owner or turn counter, nor any field it does not name. */
  lemma {:induction false} ApplyAllUntouched(s: Session, updates: seq<FieldUpdate>)
    ensures AgreeOutside(ApplyAll(s, updates), s, updates)
    decreases updates
  {
    if updates != [] {
      var rest := updates[1..];
      ApplyAllUntouched(Apply(s, updates[0]), rest);
      forall f | Writes(rest, f)
        ensures Writes(updates, f)
      {
        var i :| 0 <= i < |rest| && rest[i].Target() == f;
        assert updates[i + 1] == rest[i];
      }
      assert updates[0].Target() == Title ==> Writes(updates, Title);
      assert updates[0].Target() == Description ==> Writes(updates, Description);
      assert updates[0].Target() == ModelsUsed ==> Writes(updates, ModelsUsed);
      assert updates[0].Target() == IsActive ==> Writes(updates, IsActive);
      assert updates[0].Target() == IsArchived ==> Writes(updates, IsArchived);
    }
  }

  /** The result of an update depends on the old session only through the fields the update leaves alone. */
  lemma {:induction false} ApplyAllDeterminedByWrites(s1: Session, s2: Session, updates: seq<FieldUpdate>)
    requires AgreeOutside(s1, s2, updates)
    ensures ApplyAll(s1, updates) == ApplyAll(s2, updates)
    decreases updates
  {
    if updates == [] {
      assert !Writes(updates, Title) && !Writes(updates, Description) && !Writes(updates, ModelsUsed);
      assert !Writes(updates, IsActive) && !Writes(updates, IsArchived);
    } else {
      var rest := updates[1..];
      assert updates == [updates[0]] + rest;
      ApplyKeepsAgreement(s1, s2, updates[0], rest);
      ApplyAllDeterminedByWrites(Apply(s1, updates[0]), Apply(s2, updates[0]), rest);
    }
  }

  /** What the tail of a list writes, the whole list writes. */
  lemma WritesOfTail(updates: seq<FieldUpdate>)
    requires updates != []
    ensures forall f :: Writes(updates[1..], f) ==> Writes(updates, f)
    ensures Writes(updates, updates[0].Target())
  {
    forall f | Writes(updates[1..], f)
      ensures Writes(updates, f)
    {
      var i :| 0 <= i < |updates[1..]| && updates[1..][i].Target() == f;
      assert updates[i + 1] == updates[1..][i];
    }
  }

  /** Writing the same first field on both sessions leaves them agreeing outside what the rest writes. */
  lemma ApplyKeepsAgreement(s1: Session, s2: Session, u: FieldUpdate, rest: seq<FieldUpdate>)
    requires AgreeOutside(s1, s2, [u] + rest)
    ensures AgreeOutside(Apply(s1, u), Apply(s2, u), rest)
  {
    var updates := [u] + rest;
    assert updates[1..] == rest && updates[0] == u;
    WritesOfTail(updates);
    match u
    case SetTitle(_) =>
    case SetDescription(_) =>
    case SetModelsUsed(_) =>
    case SetActive(_) =>
    case SetArchived(_) =>
  }

  /** Sending the same update twice leaves the session as one sending did (PUT is idempotent on these fields). */
  lemma ApplyAllIdempotent(s: Session, updates: seq<FieldUpdate>)
    ensures ApplyAll(ApplyAll(s, updates), updates) == ApplyAll(s, updates)
  {
    ApplyAllUntouched(s, updates);
    ApplyAllDeterminedByWrites(ApplyAll(s, updates), s, updates);
  }

  /** Fields are written in list order, so a later value for a field overrides an earlier one. */
  lemma {:induction false} LaterUpdateWins(s: Session, updates: seq<FieldUpdate>, u: FieldUpdate)
    ensures ApplyAll(s, updates + [u]) == Apply(ApplyAll(s, updates), u)
    decreases updates
  {
    if updates != [] {
      assert (updates + [u])[1..] == updates[1..] + [u];
      LaterUpdateWins(Apply(s, updates[0]), updates[1..], u);
    }
  }

  /** The `setattr` loop of `update_session` followed by `updated_at = now`. */
  method ApplyUpdates(s: Session, updates: seq<FieldUpdate>, now: Timestamp) returns (r: Session)
    ensures r == ApplyAll(s, updates).(updatedAt := now)
    ensures r.id == s.id && r.userId == s.userId && r.totalTurns == s.totalTurns
  {
    r := s;
    var i := 0;
    while i < |updates|
      invariant 0 <= i <= |updates|
      invariant ApplyAll(r, updates[i..]) == ApplyAll(s, updates)
    {
      assert updates[i..][1..] == updates[i + 1..];
      r := Apply(r, updates[i]);
      i := i + 1;
    }
    ApplyAllUntouched(s, updates);
    r := r.(updatedAt := now);
  }
}
