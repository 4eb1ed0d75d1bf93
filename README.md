# Session handlers of the agent dashboard backend, in Dafny

This project models the decision rules inside the session, turn, preference
and code-run HTTP handlers of `app/api/v1/sessions.py`. The database rows are
held in a `Store` class as sequences. Each handler is a method on that store.
Its pure parts are functions with lemmas:

- `_determine_agent_mode` picks an agent mode from a model id and a context.
  It is a priority-ordered rule over case-insensitive substring tests
  (`agent_modes.dfy`, built on `text.dfy`).
- `execute_code` truncates the request's variants to `max_models` and gives
  each kept variant a configuration and an agent mode. It records a pending
  run and starts the orchestrator with the same figures (`code_runs.dfy`).
- Every handler that takes a session id first looks the session up by id
  *and* owner, and every handler that takes a turn id then looks the turn up by
  id *and* session; `create_session` does no lookup. A failed lookup is a 404 that changes nothing
  (`lookup.dfy`, `session_store.dfy`).
- `create_turn` numbers a new turn one more than the session's existing turns
  and bumps the session's `total_turns`. The store keeps these as invariants:
  turn numbers within a session run 1, 2, 3, … in store order, and
  `total_turns` equals the number of the session's turns
  (`turn_numbering.dfy`).
- `update_session` writes the set fields one after another with `setattr`
  (`session_updates.dfy`).
- `get_session_analytics` counts the wins of each model in a dictionary and
  projects the counts onto the session's `models_used` (`analytics.dfy`).

Python's `.lower()` is modelled as ASCII lower-casing (`Text.Lower`). The
`in` test on strings is `Text.Contains`. A slice `xs[:n]` is modelled with
Python's rules for every integer `n`, negative ones included
(`CodeRuns.SliceEnd`). Ids from `uuid4()` and timestamps from
`datetime.utcnow()` are parameters of the store methods. Each id a handler
generates (session, turn, preference and run) is required not to occur among
the stored ids of its kind, and the store keeps all four kinds of id unique.

## Model

| member | source | states |
|---|---|---|
| Text.Lower | app/api/v1/sessions.py:36 | the lower-cased id has the same length, contains no ASCII capital, and differs from the input only where the input had a capital |
| Text.ContainsIff | app/api/v1/sessions.py:39-47 | the substring test succeeds exactly when the needle occurs at some position of the string |
| Text.ContainsTransitive | app/api/v1/sessions.py:45 | if `t in s` and `u in t`, then `u in s` |
| AgentModes.DetermineAgentMode | app/api/v1/sessions.py:34-51 | the mode is always one of the five strings chat, claude-cli, openai-codex, gemini-cli, litellm |
| AgentModes.ModeMatchesRules | app/api/v1/sessions.py:34-51 | the handler's rule equals the plain rule table: chat if the lower-cased context contains "chat", otherwise the first of claude, codex, gemini found in the lower-cased id, otherwise litellm; the non-empty-context test and the `== "claude-code"`, `== "gemini-code"` and "gpt-4-codex" tests never change the outcome |
| AgentModes.ModePriority | app/api/v1/sessions.py:38-51 | each mode in both directions: chat exactly when the context mentions chat, whatever the id; claude-cli exactly when it does not and the id contains claude (so an id with both claude and codex gives claude-cli); openai-codex, gemini-cli and litellm likewise down the priority order |
| AgentModes.ModeIgnoresCase | app/api/v1/sessions.py:36-47 | two ids (and two contexts) that are equal once lower-cased give the same mode |
| AgentModes.ExactIdsContainKeywords | app/api/v1/sessions.py:43-47 | "claude-code" and "gemini-code" already contain the keywords claude and gemini once lower-cased |
| AgentModes.Gpt4CodexContainsCodex | app/api/v1/sessions.py:45 | an id containing "gpt-4-codex" contains "codex" |
| AgentModes.EmptyContextIsNotChat | app/api/v1/sessions.py:39 | an empty context never selects chat, so the emptiness test is redundant |
| CodeRuns.RepoUrl | app/api/v1/sessions.py:583-584 | the repository URL is never empty; it is the context itself whenever the context is present and non-empty, and the placeholder exactly when the context is absent, empty or the placeholder itself |
| CodeRuns.SliceEnd | app/api/v1/sessions.py:533 | the slice `xs[:stop]` ends inside the list and keeps exactly the elements whose index (for a non-negative stop) or whose negative alias `i - len` (for a negative stop) lies below `stop` |
| CodeRuns.SliceEndFromEnd | app/api/v1/sessions.py:533 | a negative stop counts from the end (`xs[:-j]` is `xs[:len - j]`), a stop at or before `-len` keeps nothing, and a stop at or past the end keeps everything |
| CodeRuns.SelectedVariants | app/api/v1/sessions.py:533 | the kept variants are a prefix of the request's variants, of length min(len, max_models) when max_models ≥ 0 |
| CodeRuns.ModelsToUse | app/api/v1/sessions.py:531-534 | `models_to_use` has one entry per kept variant, entry i being variant i's model id |
| CodeRuns.VariantConfigs | app/api/v1/sessions.py:535-545 | one config per kept variant, in request order; config i carries variant i's model id (equal to `models_to_use[i]`), parameters and id, and the agent mode of that model id under `context or ""`, which is one of the five modes |
| CodeRuns.NewRun | app/api/v1/sessions.py:580-598 | the run is PENDING, has `variations == len(models_to_use)`, stores the variant configs, records the repository URL `request.context or` the placeholder, and its agent mode is "code" exactly when no variant is kept and the first variant's mode otherwise |
| CodeRuns.BackgroundCall | app/api/v1/sessions.py:614-627 | the orchestrator is started for the run's id and user with the request's prompt, the same repository URL as the run, `len(models_to_use)` variations, and agent mode "code" exactly when no variant is kept |
| CodeRuns.RunAndCallAgree | app/api/v1/sessions.py:614-627 | the background orchestrator call gets the run's id, user, repository URL, prompt, variation count and agent mode |
| CodeRuns.NoVariantsKept | app/api/v1/sessions.py:531-534 | nothing is kept exactly when there are no variants, `max_models` is 0, or `max_models` is at most minus the number of variants |
| CodeRuns.RefreshTurn | app/api/v1/sessions.py:570-575 | the turn keeps its id, session, owner and number and ends with the request's prompt; it is unchanged when the prompt was already the same, and otherwise takes the request's context, the kept model ids and status "streaming" |
| CodeRuns.CodeAccepted | app/api/v1/sessions.py:639-646 | the response is "accepted", names the turn and run, and lists exactly `models_to_use`, one per kept variant |
| Lookup.FindSession | app/api/v1/sessions.py:118-125 | a session is found only if it has both the requested id and the user's id, and the lookup fails exactly when no row has both |
| Lookup.FindTurn | app/api/v1/sessions.py:272-279 | a turn is found only if it has both the turn id and the session id, and the lookup fails exactly when no row has both |
| Lookup.FindSessionExact | app/api/v1/sessions.py:118-122 | with unique ids the lookup of a session's id finds that session for its owner and fails for every other user |
| Lookup.FindTurnExact | app/api/v1/sessions.py:272-276 | with unique ids a turn is found through its own session and through no other |
| TurnNumbering.TurnsOf | app/api/v1/sessions.py:195-200 | the selected turns are exactly the store's turns of that session: every one belongs to it, and every turn of it is selected |
| TurnNumbering.TurnsOfAbsent | app/api/v1/sessions.py:98-103 | a freshly generated session id has no turns |
| TurnNumbering.TurnsOfAppend | app/api/v1/sessions.py:240 | adding a turn adds it to its own session's turns and to no other session's |
| TurnNumbering.AppendKeepsNumbering | app/api/v1/sessions.py:222-243 | numbering a new turn as the count of the session's existing turns plus one keeps every turn numbered after the earlier turns of its session, and grows that session's count by exactly one |
| TurnNumbering.TurnsOfNumbered | app/api/v1/sessions.py:195-199 | a session's turns in store order are numbered 1, 2, 3, …, so ordering by turn number is store order |
| TurnNumbering.ReplaceKeepsNumbering | app/api/v1/sessions.py:570-575 | editing a turn in place without changing its session or number keeps the numbering and every session's count |
| SessionUpdates.ApplyUpdates | app/api/v1/sessions.py:148-152 | the `setattr` loop yields the fold of the set fields over the session, then stamps `updated_at`; id, owner and `total_turns` are unchanged |
| SessionUpdates.ApplyAllUntouched | app/api/v1/sessions.py:148-150 | an update keeps the id, owner, counter and timestamps, and every field it does not name |
| SessionUpdates.ApplyAllDeterminedByWrites | app/api/v1/sessions.py:148-150 | the updated session depends on the old one only through the fields the update leaves alone |
| SessionUpdates.ApplyAllIdempotent | app/api/v1/sessions.py:130-150 | sending the same update twice gives the same fields as sending it once |
| SessionUpdates.LaterUpdateWins | app/api/v1/sessions.py:149-150 | the fold writes the set fields in order: applying one more update after a list is applying it to the list's result (the fold's append law) |
| Analytics.PreferencesOf | app/api/v1/sessions.py:390-394 | the selected preferences are exactly the store's preferences of that session |
| Analytics.Wins | app/api/v1/sessions.py:401-403 | a model's win count never exceeds the number of preferences |
| Analytics.NoWinsIff | app/api/v1/sessions.py:405-408 | a model has 0 wins exactly when no preference names it |
| Analytics.TallyWins | app/api/v1/sessions.py:401-403 | after the loop the dictionary holds exactly the models some preference names, each mapped to the number of preferences naming it |
| Analytics.WinRate | app/api/v1/sessions.py:409-411 | the win rate lies in [0, 1], is 0 when there are no preferences, and otherwise times the number of preferences gives the wins |
| Analytics.Analyze | app/api/v1/sessions.py:396-424 | one session, active/archived flags as 1 or 0, turn counts equal to the number of turns, one usage entry per used model, and stats for exactly the models in `models_used`, each with its win count and win rate |
| SessionStore.RunsOf | app/api/v1/sessions.py:497-504 | the selected runs are exactly the store's runs of that session and turn |
| SessionStore.Store.CreateSession | app/api/v1/sessions.py:91-110 | appends a session with the user as owner and `total_turns` 0, keeping the store invariant |
| SessionStore.Store.GetSession | app/api/v1/sessions.py:113-127 | returns a stored session with both the id and the owner, exactly when one exists; otherwise "Session not found" |
| SessionStore.Store.UpdateSession | app/api/v1/sessions.py:130-156 | on an owned session, replaces it with the updated session and returns it; otherwise 404 and nothing changes |
| SessionStore.Store.DeleteSession | app/api/v1/sessions.py:159-176 | on an owned session, removes exactly that row; otherwise 404 and nothing changes |
| SessionStore.Store.GetSessionTurns | app/api/v1/sessions.py:179-201 | on an owned session, returns its turns numbered 1, 2, 3, …, as many as its `total_turns`; otherwise 404 |
| SessionStore.Store.CreateTurn | app/api/v1/sessions.py:204-250 | the new turn's number is the number of existing turns of the session plus one (equal to the old `total_turns` plus one), the turn is appended, and `total_turns` grows by exactly one; on a failed lookup nothing changes |
| SessionStore.Store.GetTurn | app/api/v1/sessions.py:253-281 | returns a turn of the session with the turn id exactly when both lookups succeed; "Session not found" first, then "Turn not found" |
| SessionStore.Store.CreatePreference | app/api/v1/sessions.py:284-339 | given a fresh preference id, keeps all ids unique and the numbering invariant; appends the preference and stamps the session only when the session is owned and the turn is in it; otherwise the matching 404 and nothing changes |
| SessionStore.Store.GetSessionPreferences | app/api/v1/sessions.py:342-367 | on an owned session, returns that session's preferences in store order, each of them and nothing else; otherwise 404 |
| SessionStore.Store.GetSessionAnalytics | app/api/v1/sessions.py:370-424 | on an owned session, one session is counted, active and archived counts follow the session's flags, the turn count and average both equal the session's `total_turns`, `most_used_models` lists each of `models_used` with usage 1 in order; stats exist exactly for the models in `models_used`; each model's wins are the number of the session's preferences naming it, and its win rate is wins over the number of preferences, 0 when there are none; otherwise 404 |
| SessionStore.Store.ExportSession | app/api/v1/sessions.py:427-466 | on an owned session, returns the session, its turns numbered 1, 2, 3, …, its preferences and the format; otherwise 404 |
| SessionStore.Store.GetTurnRuns | app/api/v1/sessions.py:469-504 | returns the runs of that session and turn in store order, each of them and nothing else, when both lookups succeed, otherwise the matching 404 |
| SessionStore.Store.ExecuteCode | app/api/v1/sessions.py:507-646 | given a fresh run id, keeps all ids unique and the numbering invariant; after both lookups succeed, refreshes the turn, appends the pending run built from the request, stamps the session, answers "accepted" and schedules exactly `BackgroundCall` for the run (the `execute_variations` arguments); a failed lookup changes nothing and schedules nothing |

## Left out

- The browser side is not part of this model: `frontend/app/session/[id]/turn/[turnId]/run/[runId]/page.tsx` (run page) and `frontend/components/page-header.tsx` (header component). They consume the handlers' responses and decide nothing the handlers do.
- The browser's run-state synchronisation (stream deduplication, snapshot and stream reconciliation, diff readiness) lives in the frontend run page, not in these handlers. It is not modelled.
- Columns that `create_preference` only copies from the request (`preferred_response_id`, `response_quality_scores`, `feedback_text`, `confidence_score`, `preference_type`) are dropped from `Models.Preference`. No handler decides anything from them.
- SQLAlchemy queries, `commit`/`refresh`, FastAPI routing, dependency injection, `HTTPException` transport and Pydantic validation are left out. The rows are given as sequences, and errors are `Result` values (404 with the detail text, `Models.ApiError`).
- `get_sessions` (lines 54-88) is not modelled. Its ordering by `last_activity_at` and its offset/limit paging are database work.
- `total_cost`, `average_cost_per_session` and float rounding are left out. Analytics.WinRate holds `win_rate` as an exact real.
- The websocket URL building (lines 633-637) and logging are left out. They depend on settings that are not part of this model.
- `BackgroundTasks`, `async_session_maker` and `AgentOrchestrator.execute_variations` are foreign async services. Only the arguments of the scheduled call are modelled.
- Text.Lower: lower-cases ASCII letters only. Python's `str.lower()` also folds non-ASCII letters, some of them into two characters.
- SessionUpdates.ApplyUpdates: the `SessionUpdate` schema is not part of this model. The settable fields are taken to be title, description, models_used, is_active and is_archived.
- SessionStore.Store.CreateSession: the `Session` model's column defaults are not part of this model. `is_active` and `is_archived` are parameters, and `total_turns` is taken to start at 0.
- SessionStore.Store.CreateTurn: a new turn's `status` default is not part of this model (`None`). Two concurrent `create_turn` calls could read the same count and get the same number. Concurrency is not modelled: the handlers run one at a time.
- SessionStore.Store.DeleteSession: cascade rules of the database schema are not part of this model. Only the session row is removed.
- SessionStore.Store.GetSessionPreferences: `order_by(created_at)` is modelled as store (insertion) order. This assumes timestamps do not go backwards. The same holds for `get_turn_runs`.
- `scalar_one_or_none` raising on several matching rows cannot happen here: ids are unique in the store.
