/**
 * The canonical response envelope and the shapes it carries (`TicketShape`,
 * `AnalysisShape`, `CanonicalEnvelope`). Optional members are `Option`s;
 * `None` is `undefined`, or `null` for members the schema types as `T | null`.
 */
module Canonical {
  import opened Wrappers
  import opened Text

  datatype Priority = Low | Medium | High | Critical

  /** The literal each priority is written as. */
  function PriorityName(p: Priority): string {
    match p
    case Low => "low"
    case Medium => "medium"
    case High => "high"
    case Critical => "critical"
  }

  /** Reading a priority literal; the four literals are the only priorities. */
  function ParsePriority(s: string): (r: Option<Priority>)
    ensures r.Some? ==> PriorityName(r.value) == s
  {
    if s == "low" then Some(Low)
    else if s == "medium" then Some(Medium)
    else if s == "high" then Some(High)
    else if s == "critical" then Some(Critical)
    else None
  }

  lemma PriorityNamesRoundTrip(p: Priority, q: Priority)
    ensures ParsePriority(PriorityName(p)) == Some(p)
    ensures PriorityName(p) == PriorityName(q) <==> p == q
  {
  }

  datatype TicketMetadata = TicketMetadata(
    confidence: Option<real>,
    extractedFrom: Option<string>,
    processingTimestamp: Option<string>,
    conversationTurns: Option<int>)

  /**
   * A ticket. The fields down to `metadata` are `TicketShape`; the ones after it
   * are the extra members the ticket-creation tool writes, which the envelope
   * carries through untouched. `id` is optional: a draft ticket taken from the
   * extraction tool or from the response itself has none.
   */
  datatype Ticket = Ticket(
    id: Option<string>,
    summary: string,
    description: Option<string>,
    priority: Priority,
    severity: Option<string>,
    sentiment: Option<string>,
    category: Option<string>,
    tags: Option<seq<string>>,
    estimatedResolutionTime: Option<string>,
    suggestedActions: Option<seq<string>>,
    metadata: Option<TicketMetadata>,
    location: Option<string>,
    urgency: Option<string>,
    impact: Option<string>,
    stepsTriedResult: Option<string>,
    status: Option<string>,
    createdAt: Option<string>,
    estimatedResolution: Option<string>)

  /** `analysis.routing`; only `recommendedTeam` is ever read. */
  datatype Routing = Routing(recommendedTeam: Option<string>)

  /** `analysis.escalation`; `required` is the truthiness of its `required` member. */
  datatype Escalation = Escalation(required: bool)

  /** `AnalysisShape`; `sla` and `automation` are opaque payloads, kept as text. */
  datatype Analysis = Analysis(
    routing: Option<Routing>,
    escalation: Option<Escalation>,
    sla: Option<string>,
    automation: Option<string>)

  datatype Phase = TicketDraft | FinalTicket | Clarification | AnalysisOnly | Generic

  function PhaseName(p: Phase): string {
    match p
    case TicketDraft => "ticketDraft"
    case FinalTicket => "finalTicket"
    case Clarification => "clarification"
    case AnalysisOnly => "analysisOnly"
    case Generic => "generic"
  }

  function ParsePhase(s: string): (r: Option<Phase>)
    ensures r.Some? ==> PhaseName(r.value) == s
  {
    if s == "ticketDraft" then Some(TicketDraft)
    else if s == "finalTicket" then Some(FinalTicket)
    else if s == "clarification" then Some(Clarification)
    else if s == "analysisOnly" then Some(AnalysisOnly)
    else if s == "generic" then Some(Generic)
    else None
  }

  /** `state.phase` takes exactly five pairwise distinct values. */
  lemma PhaseNamesRoundTrip(p: Phase, q: Phase)
    ensures ParsePhase(PhaseName(p)) == Some(p)
    ensures PhaseName(p) == PhaseName(q) <==> p == q
  {
  }

  /**
   * `state.clarification`. The schema declares `question` a required string,
   * but the builder copies whatever the clarification tool returned, which may
   * be absent; the model keeps that.
   */
  datatype ClarificationInfo = ClarificationInfo(question: Option<string>, turn: Option<int>, maxTurns: Option<int>)

  datatype State = State(phase: Phase, complete: bool, needsClarification: bool, clarification: Option<ClarificationInfo>)

  datatype Display = Display(primaryText: string, secondaryText: Option<string>, suggestedNext: seq<string>)

  /** Correlation ids; `None` is `null` here. */
  datatype SourceRefs = SourceRefs(
    ticketToolCallId: Option<string>,
    analysisToolCallId: Option<string>,
    clarificationToolCallId: Option<string>,
    compiledFromWorkflow: bool)

  /** Token and cost accounting; every member is always present, `None` being `null`. */
  datatype Usage = Usage(inputTokens: Option<int>, outputTokens: Option<int>, usd: Option<real>)

  datatype ModelInfo = ModelInfo(id: Option<string>, provider: Option<string>, temperature: Option<real>)

  datatype ChannelHints = ChannelHints(shortMessage: string, richPanel: bool, canStreamFollowups: bool)

  /**
   * `CanonicalEnvelope`, generic in the tool-call record type `R` that
   * `raw.toolResults` passes through.
   */
  datatype Envelope<R> = Envelope(
    schemaVersion: string,
    agentVersion: string,
    runId: Option<string>,
    state: State,
    ticket: Option<Ticket>,
    analysis: Option<Analysis>,
    display: Display,
    sourceRefs: SourceRefs,
    usage: Usage,
    model: ModelInfo,
    channelHints: ChannelHints,
    rawToolResults: seq<R>)

  /** Longest `shortMessage` a channel hint carries. */
  const ShortMessageLimit: nat := 120

  /**
   * The agreements between the parts of an envelope that make its phase
   * meaningful to a consumer: completion, the clarification block and the
   * channel hints follow the phase, a ticket phase carries a ticket, and the
   * short message is the head of the primary text.
   */
  predicate PhaseConsistent<R>(e: Envelope<R>) {
    && (e.state.complete <==> e.state.phase == FinalTicket)
    && (e.state.needsClarification <==> e.state.phase == Clarification)
    && (e.state.clarification.Some? <==> e.state.needsClarification)
    && (e.state.phase in {TicketDraft, FinalTicket} ==> e.ticket.Some?)
    && (e.channelHints.richPanel <==> e.state.phase in {TicketDraft, FinalTicket})
    && (e.channelHints.canStreamFollowups <==> e.state.phase == Clarification)
    && e.channelHints.shortMessage <= e.display.primaryText
    && |e.channelHints.shortMessage| == (if |e.display.primaryText| < ShortMessageLimit then |e.display.primaryText| else ShortMessageLimit)
  }
}
