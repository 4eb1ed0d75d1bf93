/**
  `_determine_agent_mode`: the agent mode a code run uses for one model variant,
  chosen from the model id and the request context by a fixed priority of
  case-insensitive substring tests.
 */
module AgentModes {
  import opened Text

  /** The five modes the rule can produce. */
  const Modes: set<string> := {"chat", "claude-cli", "openai-codex", "gemini-cli", "litellm"}

  /** The rule as the handler writes it, including its two equality tests and its `gpt-4-codex` test. */
  function DetermineAgentMode(modelDefinitionId: string, context: string): (mode: string)
    ensures mode in Modes
  {
    var modelLower := Lower(modelDefinitionId);
    if context != "" && Contains(Lower(context), "chat") then "chat"
    else if Contains(modelLower, "claude") || modelDefinitionId == "claude-code" then "claude-cli"
    else if Contains(modelLower, "codex") || Contains(modelLower, "gpt-4-codex") then "openai-codex"
    else if Contains(modelLower, "gemini") || modelDefinitionId == "gemini-code" then "gemini-cli"
    else "litellm"
  }

  /** Keyword rules for the model id, in the order they are tried. */
  const ModelRules: seq<(string, string)> :=
    [("claude", "claude-cli"), ("codex", "openai-codex"), ("gemini", "gemini-cli")]

  /** The mode of the first rule whose keyword occurs in `modelLower`, or "litellm" when none does. */
  function FirstMatch(modelLower: string, rules: seq<(string, string)>): string {
    if rules == [] then "litellm"
    else if Contains(modelLower, rules[0].0) then rules[0].1
    else FirstMatch(modelLower, rules[1..])
  }

  /** Reference statement of the rule: a chat context wins, otherwise the first keyword rule that matches. */
  function ModeByRules(modelDefinitionId: string, context: string): string {
    if Contains(Lower(context), "chat") then "chat"
    else FirstMatch(Lower(modelDefinitionId), ModelRules)
  }

  /** "claude-code" and "gemini-code" contain, once lower-cased, the keywords of their rules. */
  lemma ExactIdsContainKeywords(modelDefinitionId: string)
    ensures modelDefinitionId == "claude-code" ==> Contains(Lower(modelDefinitionId), "claude")
    ensures modelDefinitionId == "gemini-code" ==> Contains(Lower(modelDefinitionId), "gemini")
  {
    if modelDefinitionId == "claude-code" || modelDefinitionId == "gemini-code" {
      LowerOfLower(modelDefinitionId);
      ContainsPrefix(modelDefinitionId, 6);
    }
  }

  /** Any id containing "gpt-4-codex" contains "codex". */
  lemma Gpt4CodexContainsCodex(modelLower: string)
    ensures Contains(modelLower, "gpt-4-codex") ==> Contains(modelLower, "codex")
  {
    if Contains(modelLower, "gpt-4-codex") {
      ContainsPrefix("gpt-4-codex"[6..], 5);
      ContainsTransitive(modelLower, "gpt-4-codex", "codex");
    }
  }

  /** The rule table tried in order. */
  lemma FirstMatchOfModelRules(modelLower: string)
    ensures FirstMatch(modelLower, ModelRules) ==
      if Contains(modelLower, "claude") then "claude-cli"
      else if Contains(modelLower, "codex") then "openai-codex"
      else if Contains(modelLower, "gemini") then "gemini-cli"
      else "litellm"
  {
    var r1 := ModelRules[1..];
    var r2 := r1[1..];
    assert ModelRules[0] == ("claude", "claude-cli");
    assert r1[0] == ("codex", "openai-codex");
    assert r2 == [("gemini", "gemini-cli")];
    assert r2[1..] == [];
    assert FirstMatch(modelLower, r2) == if Contains(modelLower, "gemini") then "gemini-cli" else "litellm";
    assert FirstMatch(modelLower, r1) == if Contains(modelLower, "codex") then "openai-codex" else FirstMatch(modelLower, r2);
  }

  /** The empty context is never a chat context. */
  lemma EmptyContextIsNotChat(context: string)
    ensures context == "" ==> !Contains(Lower(context), "chat")
  {
  }

  /**
    The equality tests `== "claude-code"` and `== "gemini-code"`, the test for
    "gpt-4-codex" and the non-emptiness test on the context never change the
    outcome: the handler's rule is the plain priority-ordered rule table.
   */
  lemma {:induction false} ModeMatchesRules(modelDefinitionId: string, context: string)
    ensures DetermineAgentMode(modelDefinitionId, context) == ModeByRules(modelDefinitionId, context)
  {
    EmptyContextIsNotChat(context);
    ExactIdsContainKeywords(modelDefinitionId);
    Gpt4CodexContainsCodex(Lower(modelDefinitionId));
    FirstMatchOfModelRules(Lower(modelDefinitionId));
  }

  /**
    The outcome of each branch, in both directions: a chat context decides
    "chat" whatever the model is, then "claude" beats "codex", which beats
    "gemini", and "litellm" is what is left.
   */
  lemma ModePriority(modelDefinitionId: string, context: string)
    ensures var mode := DetermineAgentMode(modelDefinitionId, context);
      var chat := Contains(Lower(context), "chat");
      var modelLower := Lower(modelDefinitionId);
      && (mode == "chat" <==> chat)
      && (mode == "claude-cli" <==> !chat && Contains(modelLower, "claude"))
      && (mode == "openai-codex" <==> !chat && !Contains(modelLower, "claude") && Contains(modelLower, "codex"))
      && (mode == "gemini-cli" <==>
            !chat && !Contains(modelLower, "claude") && !Contains(modelLower, "codex") && Contains(modelLower, "gemini"))
      && (mode == "litellm" <==>
            !chat && !Contains(modelLower, "claude") && !Contains(modelLower, "codex") && !Contains(modelLower, "gemini"))
  {
    ModeMatchesRules(modelDefinitionId, context);
    FirstMatchOfModelRules(Lower(modelDefinitionId));
  }

  /** The mode sees the model id and the context only through their lower-cased forms. */
  lemma ModeIgnoresCase(id1: string, id2: string, context1: string, context2: string)
    requires Lower(id1) == Lower(id2) && Lower(context1) == Lower(context2)
    ensures DetermineAgentMode(id1, context1) == DetermineAgentMode(id2, context2)
  {
    ModeMatchesRules(id1, context1);
    ModeMatchesRules(id2, context2);
  }
}
