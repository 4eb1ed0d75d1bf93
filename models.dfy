/**
  The database rows the session handlers read and write, reduced to the columns
  those handlers decide on. Columns a handler only copies from the request into
  a new row, such as a preference's quality scores and feedback, are dropped. Ids are the strings the service generates with uuid4;
  timestamps are opaque clock readings supplied by the caller.
 */
module Models {
  import opened Wrappers

  type Timestamp = nat

  datatype Session = Session(
    id: string,
    userId: string,
    title: string,
    description: Option<string>,
    modelsUsed: seq<string>,
    isActive: bool,
    isArchived: bool,
    totalTurns: nat,
    lastActivityAt: Timestamp,
    updatedAt: Timestamp)

  /** `status` is None until a code run sets it; the column's default is not part of this model. */
  datatype Turn = Turn(
    id: string,
    sessionId: string,
    userId: string,
    turnNumber: nat,
    prompt: string,
    context: Option<string>,
    modelsRequested: seq<string>,
    status: Option<string>)

  datatype Preference = Preference(
    id: string,
    userId: string,
    sessionId: string,
    turnId: string,
    preferredModel: string,
    comparedModels: seq<string>)

  datatype RunStatus = Pending | Running | Completed | Failed

  /** One entry of a run's `agent_config["model_variants"]`. */
  datatype VariantConfig = VariantConfig(
    modelDefinitionId: string,
    modelParameters: map<string, string>,
    variantId: string,
    agentMode: string)

  datatype AgentConfig = AgentConfig(
    modelVariants: seq<VariantConfig>,
    useClaudeCode: bool,
    agentMode: string)

  datatype Run = Run(
    id: string,
    githubUrl: string,
    prompt: string,
    variations: nat,
    agentConfig: AgentConfig,
    userId: string,
    sessionId: string,
    turnId: string,
    status: RunStatus)

  /** The two 404 errors the handlers raise. */
  datatype ApiError = SessionNotFound | TurnNotFound {
    function StatusCode(): int {
      404
    }

    function Detail(): string {
      match this
      case SessionNotFound => "Session not found"
      case TurnNotFound => "Turn not found"
    }
  }
}
