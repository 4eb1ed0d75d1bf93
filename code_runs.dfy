/**
  The pure part of `execute_code`: which model variants a code request keeps,
  the per-variant configuration stored on the run, the run record itself and
  the call handed to the orchestrator in the background.
 */
module CodeRuns {
  import opened Wrappers
  import opened Models
  import opened AgentModes

  datatype ModelVariant = ModelVariant(id: string, modelDefinitionId: string, modelParameters: map<string, string>)

  datatype CodeRequest = CodeRequest(
    prompt: string,
    context: Option<string>,
    modelVariants: seq<ModelVariant>,
    maxModels: int)

  /** The arguments of the background `execute_variations` call. */
  datatype OrchestratorCall = OrchestratorCall(
    runId: string,
    repoUrl: string,
    prompt: string,
    variations: nat,
    userId: string,
    agentMode: string)

  datatype CodeResponse = CodeResponse(turnId: string, runId: string, status: string, modelsUsed: seq<string>)

  const PlaceholderRepo := "https://github.com/temp/repo"

  /** The mode a run falls back to when it keeps no variant. */
  const FallbackMode := "code"

  /** `request.context or ""`. */
  function ContextOrEmpty(context: Option<string>): (r: string)
    ensures context.Some? ==> r == context.value
    ensures context.None? ==> r == ""
  {
    match context
    case Some(c) => c
    case None => ""
  }

  /** `request.context or "https://github.com/temp/repo"`: an absent or empty context gives the placeholder. */
  function RepoUrl(context: Option<string>): (r: string)
    ensures r != ""
    ensures context.Some? && context.value != "" ==> r == context.value
    ensures r == PlaceholderRepo <==> (context.None? || context.value in {"", PlaceholderRepo})
  {
    if context.Some? && context.value != "" then context.value else PlaceholderRepo
  }

  /**
    Whether `xs[:stop]` keeps the element at index `i` of a list of length `n`.
    That element is also reachable as `xs[i - n]`; a negative `stop` is
    compared with that alias, a non-negative one with `i` itself.
   */
  predicate SliceKeeps(n: nat, stop: int, i: nat) {
    if stop >= 0 then i < stop else i - n < stop
  }

  /** Where Python's `xs[:stop]` ends on a list of length `n`: the kept elements are exactly those before it. */
  function SliceEnd(n: nat, stop: int): (k: nat)
    ensures k <= n
    ensures forall i: nat :: i < n ==> (i < k <==> SliceKeeps(n, stop, i))
  {
    if stop >= 0 then (if stop < n then stop else n)
    else if n + stop > 0 then n + stop else 0
  }

  /** A negative stop counts from the end, and a stop past the end keeps everything. */
  lemma SliceEndFromEnd(n: nat, stop: int)
    ensures stop < 0 && n + stop >= 0 ==> SliceEnd(n, stop) == SliceEnd(n, n + stop) == n + stop
    ensures n + stop <= 0 ==> SliceEnd(n, stop) == 0
    ensures stop >= n ==> SliceEnd(n, stop) == n
  {
  }

  /** `request.model_variants[: request.max_models]`. */
  function SelectedVariants(request: CodeRequest): (vs: seq<ModelVariant>)
    ensures |vs| <= |request.modelVariants| && vs == request.modelVariants[..|vs|]
    ensures request.maxModels >= 0 ==>
      |vs| == if request.maxModels < |request.modelVariants| then request.maxModels else |request.modelVariants|
  {
    request.modelVariants[..SliceEnd(|request.modelVariants|, request.maxModels)]
  }

  /** `models_to_use`: the model id of each kept variant. */
  function ModelsToUse(request: CodeRequest): (models: seq<string>)
    ensures |models| == |SelectedVariants(request)|
    ensures forall i :: 0 <= i < |models| ==> models[i] == request.modelVariants[i].modelDefinitionId
  {
    var vs := SelectedVariants(request);
    seq(|vs|, i requires 0 <= i < |vs| => vs[i].modelDefinitionId)
  }

  /** `model_variants_config`: one configuration per kept variant, with its agent mode. */
  function VariantConfigs(request: CodeRequest): (configs: seq<VariantConfig>)
    ensures |configs| == |ModelsToUse(request)|
    ensures forall i :: 0 <= i < |configs| ==>
      && configs[i].modelDefinitionId == ModelsToUse(request)[i]
      && configs[i].modelParameters == request.modelVariants[i].modelParameters
      && configs[i].variantId == request.modelVariants[i].id
      && configs[i].agentMode == DetermineAgentMode(request.modelVariants[i].modelDefinitionId, ContextOrEmpty(request.context))
      && configs[i].agentMode in Modes
  {
    var vs := SelectedVariants(request);
    var context := ContextOrEmpty(request.context);
    seq(|vs|, i requires 0 <= i < |vs| =>
      VariantConfig(vs[i].modelDefinitionId, vs[i].modelParameters, vs[i].id,
                    DetermineAgentMode(vs[i].modelDefinitionId, context)))
  }

  /** The run-level agent mode: the first configuration's mode, or "code" when there is none. */
  function RunAgentMode(configs: seq<VariantConfig>): string {
    if configs != [] then configs[0].agentMode else FallbackMode
  }

  /** The run record `execute_code` creates for a request. */
  function NewRun(runId: string, request: CodeRequest, userId: string, sessionId: string, turnId: string): (run: Run)
    ensures run.id == runId && run.userId == userId && run.sessionId == sessionId && run.turnId == turnId
    ensures run.githubUrl == RepoUrl(request.context)
    ensures run.status == Pending
    ensures run.prompt == request.prompt
    ensures run.variations == |ModelsToUse(request)|
    ensures run.agentConfig.modelVariants == VariantConfigs(request)
    ensures run.agentConfig.useClaudeCode
    ensures run.agentConfig.agentMode == FallbackMode <==> ModelsToUse(request) == []
    ensures ModelsToUse(request) != [] ==>
      run.agentConfig.agentMode == DetermineAgentMode(request.modelVariants[0].modelDefinitionId, ContextOrEmpty(request.context))
  {
    var configs := VariantConfigs(request);
    Run(runId, RepoUrl(request.context), request.prompt, |ModelsToUse(request)|,
        AgentConfig(configs, true, RunAgentMode(configs)),
        userId, sessionId, turnId, Pending)
  }

  /** The background orchestration call scheduled for the same run. */
  function BackgroundCall(runId: string, request: CodeRequest, userId: string): (call: OrchestratorCall)
    ensures call.runId == runId && call.userId == userId && call.prompt == request.prompt
    ensures call.repoUrl == RepoUrl(request.context)
    ensures call.variations == |ModelsToUse(request)|
    ensures call.agentMode == FallbackMode <==> ModelsToUse(request) == []
  {
    OrchestratorCall(runId, RepoUrl(request.context), request.prompt, |ModelsToUse(request)|, userId,
                     RunAgentMode(VariantConfigs(request)))
  }

  /** The orchestrator is started with exactly the run's repository, prompt, variation count and agent mode. */
  lemma RunAndCallAgree(runId: string, request: CodeRequest, userId: string, sessionId: string, turnId: string)
    ensures var run := NewRun(runId, request, userId, sessionId, turnId);
      var call := BackgroundCall(runId, request, userId);
      && call.runId == run.id && call.userId == run.userId
      && call.repoUrl == run.githubUrl && call.prompt == run.prompt
      && call.variations == run.variations == |run.agentConfig.modelVariants|
      && call.agentMode == run.agentConfig.agentMode
  {
  }

  /** The variant list and `models_to_use` are empty exactly when `max_models` keeps nothing. */
  lemma NoVariantsKept(request: CodeRequest)
    ensures ModelsToUse(request) == [] <==>
      (request.modelVariants == [] || request.maxModels == 0 || request.maxModels <= -|request.modelVariants|)
  {
  }

  /**
    The turn update at the start of `execute_code`: only a changed prompt
    rewrites the turn, which then takes the request's prompt and context, the
    kept model ids and the status "streaming".
   */
  function RefreshTurn(turn: Turn, request: CodeRequest): (t: Turn)
    ensures t.id == turn.id && t.sessionId == turn.sessionId && t.userId == turn.userId
    ensures t.turnNumber == turn.turnNumber
    ensures t.prompt == request.prompt
    ensures turn.prompt == request.prompt ==> t == turn
    ensures turn.prompt != request.prompt ==>
      t.context == request.context && t.modelsRequested == ModelsToUse(request) && t.status == Some("streaming")
  {
    if turn.prompt != request.prompt then
      turn.(prompt := request.prompt, context := request.context,
            modelsRequested := ModelsToUse(request), status := Some("streaming"))
    else turn
  }

  /** The response reports `models_to_use` and its status is "accepted". */
  function CodeAccepted(turnId: string, runId: string, request: CodeRequest): (r: CodeResponse)
    ensures r.status == "accepted" && r.turnId == turnId && r.runId == runId
    ensures r.modelsUsed == ModelsToUse(request)
    ensures |r.modelsUsed| == |SelectedVariants(request)|
  {
    CodeResponse(turnId, runId, "accepted", ModelsToUse(request))
  }
}
