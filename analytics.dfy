/**
  `get_session_analytics`: per-session figures, and in particular the
  preference tally, which counts for each model how many of the session's
  preferences chose it and reports that count for every model the session
  uses.
 */
module Analytics {
  import opened Models

  datatype ModelUsage = ModelUsage(model: string, usage: nat)

  /** `win_rate` is held as an exact real; the service computes it as a float. */
  datatype PreferenceStat = PreferenceStat(wins: nat, winRate: real)

  datatype SessionAnalytics = SessionAnalytics(
    totalSessions: nat,
    activeSessions: nat,
    archivedSessions: nat,
    totalTurns: nat,
    averageTurnsPerSession: nat,
    mostUsedModels: seq<ModelUsage>,
    modelPreferenceStats: map<string, PreferenceStat>)

  /** The preferences of one session in store order: `select(Preference).where(Preference.session_id == session_id)`. */
  function PreferencesOf(prefs: seq<Preference>, sessionId: string): (r: seq<Preference>)
    ensures |r| <= |prefs|
    ensures forall p :: p in r ==> p in prefs && p.sessionId == sessionId
    ensures forall p :: p in prefs && p.sessionId == sessionId ==> p in r
  {
    if prefs == [] then []
    else (if prefs[0].sessionId == sessionId then [prefs[0]] else []) + PreferencesOf(prefs[1..], sessionId)
  }

  /** How many of `prefs` name `model` as the preferred one. */
  function Wins(prefs: seq<Preference>, model: string): (n: nat)
    ensures n <= |prefs|
  {
    if prefs == [] then 0
    else Wins(prefs[..|prefs| - 1], model) + (if prefs[|prefs| - 1].preferredModel == model then 1 else 0)
  }

  /** A model has no wins exactly when no preference names it. */
  lemma {:induction false} NoWinsIff(prefs: seq<Preference>, model: string)
    ensures Wins(prefs, model) == 0 <==> forall i :: 0 <= i < |prefs| ==> prefs[i].preferredModel != model
  {
    if prefs != [] {
      var front := prefs[..|prefs| - 1];
      NoWinsIff(front, model);
      assert forall i :: 0 <= i < |front| ==> front[i] == prefs[i];
    }
  }

  /** The first loop: `model_wins[p.preferred_model] = model_wins.get(p.preferred_model, 0) + 1` for each preference. */
  method TallyWins(prefs: seq<Preference>) returns (modelWins: map<string, nat>)
    ensures forall m :: m in modelWins <==> Wins(prefs, m) > 0
    ensures forall m :: m in modelWins ==> modelWins[m] == Wins(prefs, m)
  {
    modelWins := map[];
    var i := 0;
    while i < |prefs|
      invariant 0 <= i <= |prefs|
      invariant forall m :: m in modelWins <==> Wins(prefs[..i], m) > 0
      invariant forall m :: m in modelWins ==> modelWins[m] == Wins(prefs[..i], m)
    {
      var model := prefs[i].preferredModel;
      var count := if model in modelWins then modelWins[model] else 0;
      modelWins := modelWins[model := count + 1];
      assert prefs[..i + 1][..i] == prefs[..i];
      i := i + 1;
    }
    assert prefs[..i] == prefs;
  }

  /** `model_wins / len(preferences) if preferences else 0`. */
  function WinRate(wins: nat, total: nat): (rate: real)
    requires wins <= total
    ensures 0.0 <= rate <= 1.0
    ensures total == 0 ==> rate == 0.0
    ensures total > 0 ==> rate * total as real == wins as real
  {
    if total == 0 then 0.0 else wins as real / total as real
  }

  /** The analytics of one session from its already-selected turns and preferences. */
  method Analyze(session: Session, turns: seq<Turn>, prefs: seq<Preference>) returns (a: SessionAnalytics)
    ensures a.totalSessions == 1
    ensures a.activeSessions == (if session.isActive then 1 else 0)
    ensures a.archivedSessions == (if session.isArchived then 1 else 0)
    ensures a.totalTurns == |turns| && a.averageTurnsPerSession == |turns|
    ensures |a.mostUsedModels| == |session.modelsUsed|
    ensures forall i :: 0 <= i < |session.modelsUsed| ==> a.mostUsedModels[i] == ModelUsage(session.modelsUsed[i], 1)
    ensures forall m :: m in a.modelPreferenceStats <==> m in session.modelsUsed
    ensures forall m :: m in a.modelPreferenceStats ==>
      && a.modelPreferenceStats[m].wins == Wins(prefs, m)
      && a.modelPreferenceStats[m].winRate == WinRate(Wins(prefs, m), |prefs|)
  {
    var modelWins := TallyWins(prefs);
    var models := session.modelsUsed;
    var stats: map<string, PreferenceStat> := map[];
    var i := 0;
    while i < |models|
      invariant 0 <= i <= |models|
      invariant forall m :: m in stats <==> m in models[..i]
      invariant forall m :: m in stats ==>
        stats[m].wins == Wins(prefs, m) && stats[m].winRate == WinRate(Wins(prefs, m), |prefs|)
    {
      var model := models[i];
      var wins := if model in modelWins then modelWins[model] else 0;
      stats := stats[model := PreferenceStat(wins, WinRate(wins, |prefs|))];
      assert models[..i + 1] == models[..i] + [model];
      i := i + 1;
    }
    assert models[..i] == models;
    var usage := seq(|models|, j requires 0 <= j < |models| => ModelUsage(models[j], 1));
    a := SessionAnalytics(1, if session.isActive then 1 else 0, if session.isArchived then 1 else 0,
                          |turns|, |turns|, usage, stats);
  }
}
