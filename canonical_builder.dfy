/**
 * The canonical envelope builder (`buildCanonicalEnvelope`): classifies a
 * loosely shaped agent or workflow response into one of five phases and
 * derives the whole envelope from that phase and the tool-call evidence.
 *
 * The response is duck-typed in the source; here it is a record holding
 * exactly the members the builder reads, each optional. A string member is
 * tested for truthiness (present and non-empty), an object or array member
 * for presence (an empty array is truthy).
 */
module CanonicalBuilder {
  import opened Wrappers
  import opened Text
  import opened ToolIds
  import opened Canonical

  /**
   * A tool's `result` payload: every member any reader probes. `needsClarification`
   * is the truthiness of that member; `success`, `ticketId` and `message` are written
   * by the ticket-creation tool and only passed through.
   */
  datatype ToolOutput = ToolOutput(
    ticketData: Option<Ticket>,
    ticket: Option<Ticket>,
    analysis: Option<Analysis>,
    needsClarification: bool,
    question: Option<string>,
    conversationTurn: Option<int>,
    maxTurns: Option<int>,
    success: Option<bool>,
    ticketId: Option<string>,
    message: Option<string>)

  /** One tool-call record. */
  datatype ToolCallRecord = ToolCallRecord(
    toolName: Option<string>,
    id: Option<string>,
    toolCallId: Option<string>,
    result: Option<ToolOutput>)

  /** `response.result`, the nested shape some producers use. */
  datatype NestedResult = NestedResult(toolResults: Option<seq<ToolCallRecord>>, ticketData: Option<Ticket>)

  datatype ConversationState = ConversationState(conversationComplete: bool)

  datatype ReportedUsage = ReportedUsage(inputTokens: Option<int>, outputTokens: Option<int>, usd: Option<real>)

  datatype AgentResponse = AgentResponse(
    toolResults: Option<seq<ToolCallRecord>>,
    result: Option<NestedResult>,
    steps: Option<seq<ToolCallRecord>>,
    text: Option<string>,
    usage: Option<ReportedUsage>,
    ticketData: Option<Ticket>,
    analysis: Option<Analysis>,
    conversationState: Option<ConversationState>)

  /** `BuildOptions`; `temperature` is carried as an opaque number. */
  datatype BuildOptions = BuildOptions(
    runId: Option<string>,
    agentVersion: string,
    schemaVersion: string,
    modelId: Option<string>,
    temperature: Option<real>,
    compiledFromWorkflow: Option<bool>)

  type CanonicalEnvelope = Envelope<ToolCallRecord>

  // ---------------------------------------------------------------------
  // Fallback chains and lookups
  // ---------------------------------------------------------------------

  /** `a || b || c ...` over values that are truthy whenever present: the first present one. */
  function FirstSome<T>(candidates: seq<Option<T>>): (r: Option<T>)
    ensures r.None? <==> forall i :: 0 <= i < |candidates| ==> candidates[i].None?
    ensures r.Some? ==> exists k :: 0 <= k < |candidates| && candidates[k] == r &&
                                    forall i :: 0 <= i < k ==> candidates[i].None?
  {
    if candidates == [] then None
    else if candidates[0].Some? then candidates[0]
    else
      var r := FirstSome(candidates[1..]);
      assert forall i :: 1 <= i < |candidates| ==> candidates[i] == candidates[1..][i - 1];
      r
  }

  /** The first candidate wins when present; otherwise the rest decide. */
  lemma FirstSomeStep<T>(candidates: seq<Option<T>>)
    requires candidates != []
    ensures candidates[0].Some? ==> FirstSome(candidates) == candidates[0]
    ensures candidates[0].None? ==> FirstSome(candidates) == FirstSome(candidates[1..])
  {
  }

  /**
   * A JavaScript `a || b || c` chain of strings is a search for the first
   * truthy candidate, `c` being the last resort; without a last resort
   * (`a || b || null`) it finds something exactly when some candidate is truthy.
   */
  lemma OrChainIsFirstTruthy(a: Option<string>, b: Option<string>, c: string)
    ensures FirstSome([WhenTruthy(a), WhenTruthy(b), Some(c)]).Some?
    ensures OrElse(a, OrElse(b, c)) == FirstSome([WhenTruthy(a), WhenTruthy(b), Some(c)]).value
    ensures FirstSome([WhenTruthy(a), WhenTruthy(b)]).Some? <==> Truthy(a) || Truthy(b)
  {
    var candidates := [WhenTruthy(a), WhenTruthy(b), Some(c)];
    FirstSomeStep(candidates);
    FirstSomeStep(candidates[1..]);
    FirstSomeStep([WhenTruthy(a), WhenTruthy(b)]);
    FirstSomeStep([WhenTruthy(b)]);
  }

  /**
   * `t.toolName === id || t.id === id`: a record matches an identifier only
   * when its name or its id reads back as that identifier.
   */
  predicate Matches(rec: ToolCallRecord, id: ToolId)
    ensures Matches(rec, id) ==>
      (rec.toolName.Some? && FromName(rec.toolName.value) == Some(id)) || (rec.id.Some? && FromName(rec.id.value) == Some(id))
  {
    FromNameExact(Name(id));
    rec.toolName == Some(Name(id)) || rec.id == Some(Name(id))
  }

  /** `findTool`: the first record whose name or id is the identifier. */
  function FindTool(ts: seq<ToolCallRecord>, id: ToolId): (r: Option<ToolCallRecord>)
    ensures r.None? <==> forall i :: 0 <= i < |ts| ==> !Matches(ts[i], id)
    ensures r.Some? ==> exists k :: 0 <= k < |ts| && ts[k] == r.value && Matches(ts[k], id) &&
                                    forall i :: 0 <= i < k ==> !Matches(ts[i], id)
    decreases |ts|
  {
    if ts == [] then None
    else if Matches(ts[0], id) then Some(ts[0])
    else
      var r := FindTool(ts[1..], id);
      assert forall i :: 1 <= i < |ts| ==> ts[i] == ts[1..][i - 1];
      r
  }

  /** `response.result?.toolResults`. */
  function NestedToolResults(resp: AgentResponse): Option<seq<ToolCallRecord>> {
    if resp.result.Some? then resp.result.value.toolResults else None
  }

  /** `response.result?.ticketData`. */
  function NestedTicketData(resp: AgentResponse): Option<Ticket> {
    if resp.result.Some? then resp.result.value.ticketData else None
  }

  /** The tool-call list: `toolResults || result?.toolResults || steps || []`. */
  function ProbeToolResults(resp: AgentResponse): (r: seq<ToolCallRecord>)
    ensures resp.toolResults.Some? ==> r == resp.toolResults.value
    ensures resp.toolResults.None? && NestedToolResults(resp).Some? ==> r == NestedToolResults(resp).value
    ensures resp.toolResults.None? && NestedToolResults(resp).None? && resp.steps.Some? ==> r == resp.steps.value
    ensures resp.toolResults.None? && NestedToolResults(resp).None? && resp.steps.None? ==> r == []
  {
    var candidates := [resp.toolResults, NestedToolResults(resp), resp.steps];
    FirstSomeStep(candidates);
    FirstSomeStep(candidates[1..]);
    FirstSomeStep(candidates[2..]);
    FirstSome(candidates).GetOr([])
  }

  /** `tool?.result`. */
  function OutputOf(tool: Option<ToolCallRecord>): Option<ToolOutput> {
    if tool.Some? then tool.value.result else None
  }

  /** `tool?.result?.ticketData`. */
  function CreatedTicketData(tool: Option<ToolCallRecord>): Option<Ticket> {
    if OutputOf(tool).Some? then OutputOf(tool).value.ticketData else None
  }

  /** `tool?.result?.ticket`. */
  function ExtractedTicket(tool: Option<ToolCallRecord>): Option<Ticket> {
    if OutputOf(tool).Some? then OutputOf(tool).value.ticket else None
  }

  /** `tool?.result?.analysis`. */
  function ToolAnalysis(tool: Option<ToolCallRecord>): Option<Analysis> {
    if OutputOf(tool).Some? then OutputOf(tool).value.analysis else None
  }

  /** `tool?.result?.question`. */
  function ClarificationQuestion(tool: Option<ToolCallRecord>): Option<string> {
    if OutputOf(tool).Some? then OutputOf(tool).value.question else None
  }

  /** `tool?.toolCallId`. */
  function CallId(tool: Option<ToolCallRecord>): Option<string> {
    if tool.Some? then tool.value.toolCallId else None
  }

  /** `Boolean(tool?.result?.needsClarification || tool?.result?.question)`. */
  predicate ClarificationRequested(tool: Option<ToolCallRecord>)
    ensures ClarificationRequested(tool) ==> tool.Some? && tool.value.result.Some?
  {
    OutputOf(tool).Some? && (OutputOf(tool).value.needsClarification || Truthy(OutputOf(tool).value.question))
  }

  /** `response.conversationState?.conversationComplete`, as a truth value. */
  predicate ConversationComplete(resp: AgentResponse) {
    resp.conversationState.Some? && resp.conversationState.value.conversationComplete
  }

  /** What the builder finds in a response before it decides anything. */
  datatype Evidence = Evidence(
    toolResults: seq<ToolCallRecord>,
    extract: Option<ToolCallRecord>,
    analyze: Option<ToolCallRecord>,
    clarify: Option<ToolCallRecord>,
    create: Option<ToolCallRecord>,
    ticket: Option<Ticket>,
    analysis: Option<Analysis>,
    needsClarification: bool)

  /** The working ticket, in the fixed fallback order. */
  function ResolveTicket(resp: AgentResponse, create: Option<ToolCallRecord>, extract: Option<ToolCallRecord>): (r: Option<Ticket>)
    ensures r.None? <==>
      CreatedTicketData(create).None? && ExtractedTicket(extract).None? && resp.ticketData.None? && NestedTicketData(resp).None?
    ensures r.Some? ==>
      r == CreatedTicketData(create) || r == ExtractedTicket(extract) || r == resp.ticketData || r == NestedTicketData(resp)
  {
    var candidates := [CreatedTicketData(create), ExtractedTicket(extract), resp.ticketData, NestedTicketData(resp)];
    FirstSomeStep(candidates);
    FirstSomeStep(candidates[1..]);
    FirstSomeStep(candidates[2..]);
    FirstSomeStep(candidates[3..]);
    FirstSome(candidates)
  }

  /** The working analysis, in the fixed fallback order. */
  function ResolveAnalysis(resp: AgentResponse, analyze: Option<ToolCallRecord>): (r: Option<Analysis>)
    ensures r.None? <==> ToolAnalysis(analyze).None? && resp.analysis.None?
    ensures r.Some? ==> r == ToolAnalysis(analyze) || r == resp.analysis
  {
    var candidates := [ToolAnalysis(analyze), resp.analysis];
    FirstSomeStep(candidates);
    FirstSomeStep(candidates[1..]);
    FirstSome(candidates)
  }

  /** The records found are records of the probed list that match their identifiers. */
  function Gather(resp: AgentResponse): (ev: Evidence)
    ensures ev.toolResults == ProbeToolResults(resp)
    ensures ev.extract.Some? ==> ev.extract.value in ev.toolResults && Matches(ev.extract.value, ExtractIssue)
    ensures ev.analyze.Some? ==> ev.analyze.value in ev.toolResults && Matches(ev.analyze.value, AnalyzeTicket)
    ensures ev.clarify.Some? ==> ev.clarify.value in ev.toolResults && Matches(ev.clarify.value, RequestClarification)
    ensures ev.create.Some? ==> ev.create.value in ev.toolResults && Matches(ev.create.value, CreateTicket)
    ensures ev.needsClarification ==> ev.clarify.Some?
  {
    var ts := ProbeToolResults(resp);
    var extract := FindTool(ts, ExtractIssue);
    var analyze := FindTool(ts, AnalyzeTicket);
    var clarify := FindTool(ts, RequestClarification);
    var create := FindTool(ts, CreateTicket);
    Evidence(ts, extract, analyze, clarify, create,
             ResolveTicket(resp, create, extract),
             ResolveAnalysis(resp, analyze),
             ClarificationRequested(clarify))
  }

  // ---------------------------------------------------------------------
  // Phase and display
  // ---------------------------------------------------------------------

  /** The priority-ordered decision tree; the first rule that applies wins. */
  function DecidePhase(ev: Evidence, conversationComplete: bool): (p: Phase)
    ensures p == Clarification <==> ev.needsClarification
    ensures p == FinalTicket <==> !ev.needsClarification && ev.ticket.Some? && (ev.create.Some? || conversationComplete)
    ensures p == TicketDraft <==> !ev.needsClarification && ev.ticket.Some? && ev.create.None? && !conversationComplete
    ensures p == AnalysisOnly <==> !ev.needsClarification && ev.ticket.None? && ev.analysis.Some?
    ensures p == Generic <==> !ev.needsClarification && ev.ticket.None? && ev.analysis.None?
  {
    if ev.needsClarification then Clarification
    else if ev.create.Some? && ev.ticket.Some? then FinalTicket
    else if ev.ticket.Some? && conversationComplete then FinalTicket
    else if ev.ticket.Some? then TicketDraft
    else if ev.analysis.Some? && ev.ticket.None? then AnalysisOnly
    else Generic
  }

  /** The primary display text of a phase. */
  function PrimaryText(phase: Phase, ev: Evidence, text: Option<string>): (r: string)
    requires phase in {TicketDraft, FinalTicket} ==> ev.ticket.Some?
    ensures r != ""
  {
    match phase
    case Clarification => OrElse(ClarificationQuestion(ev.clarify), "Need more information.")
    case TicketDraft =>
      "Draft ticket: " + ev.ticket.value.summary + " (priority: " + PriorityName(ev.ticket.value.priority) + ")."
    case FinalTicket =>
      "Ticket " + Interpolate(ev.ticket.value.id) + " created: " + ev.ticket.value.summary +
      " (priority: " + PriorityName(ev.ticket.value.priority) + ")."
    case AnalysisOnly => "Analysis prepared."
    case Generic => OrElse(text, "Processing complete.")
  }

  const EscalationSuffix: string := " | Escalation required"

  /** The routing line, present when the analysis recommends a team. */
  function SecondaryText(analysis: Option<Analysis>): (r: Option<string>)
    ensures r.Some? <==> analysis.Some? && analysis.value.routing.Some? && Truthy(analysis.value.routing.value.recommendedTeam)
    ensures r.Some? ==> "Routing → " <= r.value
  {
    if analysis.Some? && analysis.value.routing.Some? && Truthy(analysis.value.routing.value.recommendedTeam) then
      var escalate := analysis.value.escalation.Some? && analysis.value.escalation.value.required;
      Some("Routing → " + analysis.value.routing.value.recommendedTeam.value + (if escalate then EscalationSuffix else ""))
    else None
  }

  /** The next actions a channel may offer in a phase. */
  function SuggestedNext(phase: Phase): (r: seq<string>)
    ensures r == [] <==> phase == AnalysisOnly || phase == Generic
    ensures |r| <= 2
  {
    match phase
    case Clarification => ["user_provide_details"]
    case TicketDraft => ["confirm_ticket", "add_details"]
    case FinalTicket => ["assign_engineer", "notify_customer"]
    case AnalysisOnly => []
    case Generic => []
  }

  /** `primaryText.slice(0, 120)`. */
  function ShortMessage(primary: string): (r: string)
    ensures r <= primary
    ensures |r| == if |primary| < ShortMessageLimit then |primary| else ShortMessageLimit
  {
    if |primary| < ShortMessageLimit then primary else primary[..ShortMessageLimit]
  }

  // ---------------------------------------------------------------------
  // The builder
  // ---------------------------------------------------------------------

  function Build(resp: AgentResponse, opts: BuildOptions): (e: CanonicalEnvelope)
    ensures PhaseConsistent(e)
    ensures e.display.primaryText != ""
    ensures e.model.provider == Some("openai")
    ensures e.rawToolResults == ProbeToolResults(resp)
  {
    var ev := Gather(resp);
    var phase := DecidePhase(ev, ConversationComplete(resp));
    var clarifyOut := OutputOf(ev.clarify);
    var primary := PrimaryText(phase, ev, resp.text);
    var usage := resp.usage;
    Envelope(
      opts.schemaVersion,
      opts.agentVersion,
      opts.runId,
      State(phase, phase == FinalTicket, ev.needsClarification,
            if ev.needsClarification then
              Some(ClarificationInfo(clarifyOut.value.question, clarifyOut.value.conversationTurn, clarifyOut.value.maxTurns))
            else None),
      ev.ticket,
      ev.analysis,
      Display(primary, SecondaryText(ev.analysis), SuggestedNext(phase)),
      SourceRefs(
        FirstSome([WhenTruthy(CallId(ev.create)), WhenTruthy(CallId(ev.extract))]),
        WhenTruthy(CallId(ev.analyze)),
        WhenTruthy(CallId(ev.clarify)),
        opts.compiledFromWorkflow == Some(true)),
      Usage(
        if usage.Some? then usage.value.inputTokens else None,
        if usage.Some? then usage.value.outputTokens else None,
        if usage.Some? then usage.value.usd else None),
      ModelInfo(opts.modelId, Some("openai"), opts.temperature),
      ChannelHints(ShortMessage(primary), phase == TicketDraft || phase == FinalTicket, phase == Clarification),
      ev.toolResults)
  }

  // ---------------------------------------------------------------------
  // Classification
  // ---------------------------------------------------------------------

  /**
   * The decision tree as five independent conditions, one per phase: every
   * response satisfies exactly one, and it names the phase of its envelope.
   */
  lemma PhaseClassification(resp: AgentResponse, opts: BuildOptions)
    ensures var ev, p := Gather(resp), Build(resp, opts).state.phase;
      && (p == Clarification <==> ev.needsClarification)
      && (p == FinalTicket <==> !ev.needsClarification && ev.ticket.Some? && (ev.create.Some? || ConversationComplete(resp)))
      && (p == TicketDraft <==> !ev.needsClarification && ev.ticket.Some? && ev.create.None? && !ConversationComplete(resp))
      && (p == AnalysisOnly <==> !ev.needsClarification && ev.ticket.None? && ev.analysis.Some?)
      && (p == Generic <==> !ev.needsClarification && ev.ticket.None? && ev.analysis.None?)
  {
  }

  /** A pending clarification decides the phase whatever ticket or analysis is also present. */
  lemma ClarificationDominates(resp: AgentResponse, opts: BuildOptions)
    requires Gather(resp).needsClarification
    ensures var e, ev := Build(resp, opts), Gather(resp);
      && e.state.phase == Clarification
      && !e.state.complete
      && e.state.clarification == Some(ClarificationInfo(
           ClarificationQuestion(ev.clarify), OutputOf(ev.clarify).value.conversationTurn, OutputOf(ev.clarify).value.maxTurns))
      && e.display.primaryText == OrElse(ClarificationQuestion(ev.clarify), "Need more information.")
      && e.display.suggestedNext == ["user_provide_details"]
      && e.channelHints.canStreamFollowups && !e.channelHints.richPanel
      && e.ticket == ev.ticket && e.analysis == ev.analysis
  {
  }

  /** The clarification tool asks for clarification when either of its two signals is truthy. */
  lemma ClarificationSignals(resp: AgentResponse)
    ensures var clarify := FindTool(ProbeToolResults(resp), RequestClarification);
      Gather(resp).needsClarification <==>
        clarify.Some? && clarify.value.result.Some? &&
        (clarify.value.result.value.needsClarification || Truthy(clarify.value.result.value.question))
  {
  }

  /** The working ticket is the first present of the four places it may come from. */
  lemma TicketResolutionOrder(resp: AgentResponse)
    ensures var ev := Gather(resp);
      var fromCreate, fromExtract := CreatedTicketData(ev.create), ExtractedTicket(ev.extract);
      && (fromCreate.Some? ==> ev.ticket == fromCreate)
      && (fromCreate.None? && fromExtract.Some? ==> ev.ticket == fromExtract)
      && (fromCreate.None? && fromExtract.None? && resp.ticketData.Some? ==> ev.ticket == resp.ticketData)
      && (fromCreate.None? && fromExtract.None? && resp.ticketData.None? ==> ev.ticket == NestedTicketData(resp))
  {
    var ev := Gather(resp);
    var candidates := [CreatedTicketData(ev.create), ExtractedTicket(ev.extract), resp.ticketData, NestedTicketData(resp)];
    FirstSomeStep(candidates);
    FirstSomeStep(candidates[1..]);
    FirstSomeStep(candidates[2..]);
    FirstSomeStep(candidates[3..]);
  }

  /** The working analysis is the analysis tool's, else the response's own. */
  lemma AnalysisResolutionOrder(resp: AgentResponse)
    ensures var ev := Gather(resp);
      && (ToolAnalysis(ev.analyze).Some? ==> ev.analysis == ToolAnalysis(ev.analyze))
      && (ToolAnalysis(ev.analyze).None? ==> ev.analysis == resp.analysis)
  {
    var ev := Gather(resp);
    var candidates := [ToolAnalysis(ev.analyze), resp.analysis];
    FirstSomeStep(candidates);
    FirstSomeStep(candidates[1..]);
  }

  /**
   * `finalTicket` needs only that some creation record exists and that some
   * ticket resolved: the ticket may come from the extraction tool.
   */
  lemma FinalTicketWithoutCreatedData(resp: AgentResponse, opts: BuildOptions)
    requires var ev := Gather(resp); !ev.needsClarification && ev.create.Some? && CreatedTicketData(ev.create).None?
    requires ExtractedTicket(Gather(resp).extract).Some?
    ensures Build(resp, opts).state.phase == FinalTicket
    ensures Build(resp, opts).ticket == ExtractedTicket(Gather(resp).extract)
  {
    TicketResolutionOrder(resp);
  }

  /**
   * A creation record whose result carries ticket data, with no clarification
   * pending, gives a complete final ticket announcing that ticket.
   */
  lemma CreatedTicketFinalizes(resp: AgentResponse, opts: BuildOptions, rec: ToolCallRecord, ticket: Ticket)
    requires FindTool(ProbeToolResults(resp), CreateTicket) == Some(rec)
    requires rec.result.Some? && rec.result.value.ticketData == Some(ticket)
    requires !Gather(resp).needsClarification
    ensures var e := Build(resp, opts);
      && e.state.phase == FinalTicket
      && e.state.complete
      && e.ticket == Some(ticket)
      && e.display.primaryText ==
           "Ticket " + Interpolate(ticket.id) + " created: " + ticket.summary + " (priority: " + PriorityName(ticket.priority) + ")."
      && e.display.suggestedNext == ["assign_engineer", "notify_customer"]
      && e.channelHints.richPanel
  {
    TicketResolutionOrder(resp);
  }

  // ---------------------------------------------------------------------
  // Display and hints
  // ---------------------------------------------------------------------

  /** The per-phase templates of the primary text. */
  lemma PrimaryTextByPhase(resp: AgentResponse, opts: BuildOptions)
    ensures var e, ev := Build(resp, opts), Gather(resp);
      var p, text := e.state.phase, e.display.primaryText;
      && (p == Clarification ==> text == OrElse(ClarificationQuestion(ev.clarify), "Need more information."))
      && (p == TicketDraft ==>
            text == "Draft ticket: " + e.ticket.value.summary + " (priority: " + PriorityName(e.ticket.value.priority) + ").")
      && (p == FinalTicket ==>
            text == "Ticket " + Interpolate(e.ticket.value.id) + " created: " + e.ticket.value.summary +
                    " (priority: " + PriorityName(e.ticket.value.priority) + ").")
      && (p == AnalysisOnly ==> text == "Analysis prepared.")
      && (p == Generic && Truthy(resp.text) ==> text == resp.text.value)
      && (p == Generic && !Truthy(resp.text) ==> text == "Processing complete.")
  {
  }

  /** A final ticket without an id is announced as ticket `undefined`, as a template literal prints it. */
  lemma FinalTicketWithoutIdSaysUndefined(ev: Evidence, text: Option<string>)
    requires ev.ticket.Some? && ev.ticket.value.id.None?
    ensures "Ticket undefined created: " <= PrimaryText(FinalTicket, ev, text)
  {
  }

  /** The routing line appears exactly when the analysis recommends a team, in whatever phase. */
  lemma SecondaryTextRule(resp: AgentResponse, opts: BuildOptions)
    ensures var e, a := Build(resp, opts), Gather(resp).analysis;
      var recommends := a.Some? && a.value.routing.Some? && Truthy(a.value.routing.value.recommendedTeam);
      var escalate := a.Some? && a.value.escalation.Some? && a.value.escalation.value.required;
      && (e.display.secondaryText.Some? <==> recommends)
      && (recommends && escalate ==>
            e.display.secondaryText.value == "Routing → " + a.value.routing.value.recommendedTeam.value + EscalationSuffix)
      && (recommends && !escalate ==>
            e.display.secondaryText.value == "Routing → " + a.value.routing.value.recommendedTeam.value)
      && (recommends && escalate ==> EndsWith(e.display.secondaryText.value, EscalationSuffix))
  {
    var e, a := Build(resp, opts), Gather(resp).analysis;
    if e.display.secondaryText.Some? {
      var s := e.display.secondaryText.value;
      if a.value.escalation.Some? && a.value.escalation.value.required {
        assert s[|s| - |EscalationSuffix|..] == EscalationSuffix;
      }
    }
  }

  /** "Ends with the escalation suffix" is not "escalation required": a team name can carry it. */
  lemma EscalationSuffixFromTeamName()
    ensures var a := Some(Analysis(Some(Routing(Some("billing" + EscalationSuffix))), None, None, None));
      && SecondaryText(a).Some?
      && EndsWith(SecondaryText(a).value, EscalationSuffix)
      && a.value.escalation.None?
  {
  }

  /** Two responses that resolve the same analysis get the same routing line, whatever their phases. */
  lemma SecondaryTextIgnoresPhase(r1: AgentResponse, o1: BuildOptions, r2: AgentResponse, o2: BuildOptions)
    requires Gather(r1).analysis == Gather(r2).analysis
    ensures Build(r1, o1).display.secondaryText == Build(r2, o2).display.secondaryText
  {
  }

  /** The fixed list of next actions per phase. */
  lemma SuggestedNextByPhase(resp: AgentResponse, opts: BuildOptions)
    ensures var e := Build(resp, opts); var p, next := e.state.phase, e.display.suggestedNext;
      && (p == Clarification ==> next == ["user_provide_details"])
      && (p == TicketDraft ==> next == ["confirm_ticket", "add_details"])
      && (p == FinalTicket ==> next == ["assign_engineer", "notify_customer"])
      && (p == AnalysisOnly || p == Generic ==> next == [])
  {
  }

  /** The short message is the primary text cut hard at 120 characters. */
  lemma ShortMessageIsHead(resp: AgentResponse, opts: BuildOptions)
    ensures var e := Build(resp, opts); var text, short := e.display.primaryText, e.channelHints.shortMessage;
      && |short| <= ShortMessageLimit
      && (|text| <= ShortMessageLimit ==> short == text)
      && (|text| > ShortMessageLimit ==> short == text[..ShortMessageLimit])
  {
  }

  // ---------------------------------------------------------------------
  // The remaining members
  // ---------------------------------------------------------------------

  /** The clarification block, present exactly while clarification is needed. */
  lemma ClarificationBlock(resp: AgentResponse, opts: BuildOptions)
    ensures var e, ev := Build(resp, opts), Gather(resp);
      && (e.state.clarification.Some? <==> ev.needsClarification)
      && (e.state.clarification.Some? ==>
            e.state.clarification.value.question == ClarificationQuestion(ev.clarify) &&
            e.state.clarification.value.turn == OutputOf(ev.clarify).value.conversationTurn &&
            e.state.clarification.value.maxTurns == OutputOf(ev.clarify).value.maxTurns)
  {
  }

  /** Correlation ids: the first truthy one in each chain, else `null`. */
  lemma SourceRefsRule(resp: AgentResponse, opts: BuildOptions)
    ensures var refs, ev := Build(resp, opts).sourceRefs, Gather(resp);
      && (Truthy(CallId(ev.create)) ==> refs.ticketToolCallId == CallId(ev.create))
      && (!Truthy(CallId(ev.create)) && Truthy(CallId(ev.extract)) ==> refs.ticketToolCallId == CallId(ev.extract))
      && (!Truthy(CallId(ev.create)) && !Truthy(CallId(ev.extract)) ==> refs.ticketToolCallId.None?)
      && (refs.analysisToolCallId.Some? <==> Truthy(CallId(ev.analyze)))
      && (refs.analysisToolCallId.Some? ==> refs.analysisToolCallId == CallId(ev.analyze))
      && (refs.clarificationToolCallId.Some? <==> Truthy(CallId(ev.clarify)))
      && (refs.clarificationToolCallId.Some? ==> refs.clarificationToolCallId == CallId(ev.clarify))
      && (refs.compiledFromWorkflow <==> opts.compiledFromWorkflow == Some(true))
  {
    var ev := Gather(resp);
    var candidates := [WhenTruthy(CallId(ev.create)), WhenTruthy(CallId(ev.extract))];
    FirstSomeStep(candidates);
    FirstSomeStep(candidates[1..]);
  }

  /** Usage figures are copied when reported and are `null` otherwise. */
  lemma UsageDefaults(resp: AgentResponse, opts: BuildOptions)
    ensures var u := Build(resp, opts).usage;
      && (resp.usage.None? ==> u.inputTokens.None? && u.outputTokens.None? && u.usd.None?)
      && (resp.usage.Some? ==>
            u.inputTokens == resp.usage.value.inputTokens &&
            u.outputTokens == resp.usage.value.outputTokens &&
            u.usd == resp.usage.value.usd)
  {
  }

  /** The caller's options are echoed back; the provider is always `openai`. */
  lemma OptionsEchoed(resp: AgentResponse, opts: BuildOptions)
    ensures var e := Build(resp, opts);
      && e.schemaVersion == opts.schemaVersion
      && e.agentVersion == opts.agentVersion
      && e.runId == opts.runId
      && e.model == ModelInfo(opts.modelId, Some("openai"), opts.temperature)
  {
  }

  // ---------------------------------------------------------------------
  // Records the builder does not look for
  // ---------------------------------------------------------------------

  /** Inserting a record that does not match an identifier does not change what is found for it. */
  lemma {:induction false} FindToolSkips(a: seq<ToolCallRecord>, rec: ToolCallRecord, b: seq<ToolCallRecord>, id: ToolId)
    requires !Matches(rec, id)
    ensures FindTool(a + [rec] + b, id) == FindTool(a + b, id)
    decreases |a|
  {
    if a == [] {
      assert a + [rec] + b == [rec] + b;
      assert ([rec] + b)[1..] == b;
      assert a + b == b;
    } else {
      FindToolSkips(a[1..], rec, b, id);
      assert (a + [rec] + b)[1..] == a[1..] + [rec] + b;
      assert (a + b)[1..] == a[1..] + b;
      assert (a + [rec] + b)[0] == a[0] == (a + b)[0];
    }
  }

  /**
   * A record that matches none of the four looked-up identifiers changes
   * nothing but the pass-through list.
   */
  lemma UnrelatedRecordIgnored(resp: AgentResponse, opts: BuildOptions, a: seq<ToolCallRecord>, rec: ToolCallRecord, b: seq<ToolCallRecord>)
    requires resp.toolResults == Some(a + b)
    requires forall id :: id in LookedUp ==> !Matches(rec, id)
    ensures Build(resp.(toolResults := Some(a + [rec] + b)), opts) == Build(resp, opts).(rawToolResults := a + [rec] + b)
  {
    var resp' := resp.(toolResults := Some(a + [rec] + b));
    FindToolSkips(a, rec, b, ExtractIssue);
    FindToolSkips(a, rec, b, AnalyzeTicket);
    FindToolSkips(a, rec, b, RequestClarification);
    FindToolSkips(a, rec, b, CreateTicket);
    assert Gather(resp') == Gather(resp).(toolResults := a + [rec] + b);
    BuildDependsOnEvidence(resp', resp, opts);
  }

  /** The envelope depends on the response only through its evidence, text, usage and conversation state. */
  lemma BuildDependsOnEvidence(r1: AgentResponse, r2: AgentResponse, opts: BuildOptions)
    requires Gather(r1) == Gather(r2).(toolResults := Gather(r1).toolResults)
    requires r1.text == r2.text && r1.usage == r2.usage && r1.conversationState == r2.conversationState
    ensures Build(r1, opts) == Build(r2, opts).(rawToolResults := Gather(r1).toolResults)
  {
    var ev1, ev2 := Gather(r1), Gather(r2);
    assert DecidePhase(ev1, ConversationComplete(r1)) == DecidePhase(ev2, ConversationComplete(r2));
  }

  /** A `triggerWorkflow` record plays no part in classification or display. */
  lemma TriggerWorkflowIgnored(resp: AgentResponse, opts: BuildOptions, a: seq<ToolCallRecord>, b: seq<ToolCallRecord>, result: Option<ToolOutput>, callId: Option<string>)
    requires resp.toolResults == Some(a + b)
    ensures var rec := ToolCallRecord(Some(Name(TriggerWorkflow)), None, callId, result);
      Build(resp.(toolResults := Some(a + [rec] + b)), opts) == Build(resp, opts).(rawToolResults := a + [rec] + b)
  {
    var rec := ToolCallRecord(Some(Name(TriggerWorkflow)), None, callId, result);
    forall id | id in LookedUp ensures !Matches(rec, id) {
      NamesDistinct(id, TriggerWorkflow);
    }
    UnrelatedRecordIgnored(resp, opts, a, rec, b);
  }

  // ---------------------------------------------------------------------
  // Worked scenarios
  // ---------------------------------------------------------------------

  /** A result payload with no members set. */
  function EmptyOutput(): ToolOutput {
    ToolOutput(None, None, None, false, None, None, None, None, None, None)
  }

  /** A response holding only a `toolResults` list and, optionally, `text`. */
  function ResponseOf(records: seq<ToolCallRecord>, text: Option<string>): AgentResponse {
    AgentResponse(Some(records), None, None, text, None, None, None, None)
  }

  /** A ticket with only the members the schema requires. */
  function BareTicket(id: Option<string>, summary: string, priority: Priority): Ticket {
    Ticket(id, summary, None, priority, None, None, None, None, None, None, None,
           None, None, None, None, None, None, None)
  }

  /** A clarification question alone puts the envelope in the clarification phase. */
  lemma ScenarioClarificationQuestion(opts: BuildOptions)
    ensures var e := Build(ResponseOf([ToolCallRecord(Some("requestClarification"), None, None,
                                         Some(EmptyOutput().(question := Some("What city?"))))], None), opts);
      && e.state.phase == Clarification
      && e.display.primaryText == "What city?"
      && e.channelHints.canStreamFollowups
  {
  }

  /** A creation record carrying ticket data gives a complete final ticket. */
  lemma ScenarioCreatedTicket(opts: BuildOptions)
    ensures var e := Build(ResponseOf([ToolCallRecord(Some("createTicket"), None, None,
                                         Some(EmptyOutput().(ticketData := Some(BareTicket(Some("T-1"), "Login broken", High)))))], None), opts);
      && e.state.phase == FinalTicket
      && e.state.complete
      && e.display.primaryText == "Ticket T-1 created: Login broken (priority: high)."
  {
    var ticket := BareTicket(Some("T-1"), "Login broken", High);
    var rec := ToolCallRecord(Some("createTicket"), None, None, Some(EmptyOutput().(ticketData := Some(ticket))));
    var resp := ResponseOf([rec], None);
    NamesDistinct(RequestClarification, CreateTicket);
    assert FindTool([rec], CreateTicket) == Some(rec);
    assert FindTool([rec], RequestClarification) == None;
    CreatedTicketFinalizes(resp, opts, rec, ticket);
    FilledCreatedTemplate();
  }

  /** The creation template filled in with the scenario's values. */
  lemma FilledCreatedTemplate()
    ensures "Ticket " + "T-1" + " created: " + "Login broken" + " (priority: " + "high" + ")." == "Ticket T-1 created: Login broken (priority: high)."
  {
    assert "Ticket " + "T-1" == "Ticket T-1";
    assert "Ticket T-1" + " created: " == "Ticket T-1 created: ";
    assert "Ticket T-1 created: " + "Login broken" == "Ticket T-1 created: Login broken";
    assert "Ticket T-1 created: Login broken" + " (priority: " == "Ticket T-1 created: Login broken (priority: ";
    assert "Ticket T-1 created: Login broken (priority: " + "high" == "Ticket T-1 created: Login broken (priority: high";
  }

  /** Text and an empty tool list give the generic phase showing that text. */
  lemma ScenarioPlainText(opts: BuildOptions)
    ensures var e := Build(ResponseOf([], Some("Hello, how can I help?")), opts);
      && e.state.phase == Generic
      && e.display.primaryText == "Hello, how can I help?"
  {
  }

  /** An analysis with routing and escalation and no ticket. */
  lemma ScenarioAnalysisOnly(opts: BuildOptions)
    ensures var analysis := Analysis(Some(Routing(Some("billing"))), Some(Escalation(true)), None, None);
      var e := Build(ResponseOf([ToolCallRecord(Some("analyzeTicket"), None, None,
                                   Some(EmptyOutput().(analysis := Some(analysis))))], None), opts);
      && e.state.phase == AnalysisOnly
      && e.display.secondaryText == Some("Routing → billing | Escalation required")
  {
    var analysis := Analysis(Some(Routing(Some("billing"))), Some(Escalation(true)), None, None);
    var rec := ToolCallRecord(Some("analyzeTicket"), None, None, Some(EmptyOutput().(analysis := Some(analysis))));
    SoleAnalysisEvidence(rec, analysis);
    assert Truthy(Some("billing"));
    FilledRoutingLine();
  }

  /** What the builder gathers from a lone `analyzeTicket` record. */
  lemma SoleAnalysisEvidence(rec: ToolCallRecord, analysis: Analysis)
    requires rec == ToolCallRecord(Some("analyzeTicket"), None, None, Some(EmptyOutput().(analysis := Some(analysis))))
    ensures var ev := Gather(ResponseOf([rec], None));
      ev.ticket == None && ev.analysis == Some(analysis) && !ev.needsClarification
  {
    var resp := ResponseOf([rec], None);
    NamesDistinct(ExtractIssue, AnalyzeTicket);
    NamesDistinct(CreateTicket, AnalyzeTicket);
    NamesDistinct(RequestClarification, AnalyzeTicket);
    assert FindTool([rec], AnalyzeTicket) == Some(rec);
    TicketResolutionOrder(resp);
    AnalysisResolutionOrder(resp);
  }

  /** The routing line filled in with the scenario's values. */
  lemma FilledRoutingLine()
    ensures "Routing → " + "billing" + EscalationSuffix == "Routing → billing | Escalation required"
  {
    assert "Routing → " + "billing" == "Routing → billing";
  }

  /** `needsClarification` without a question leaves the block's question undefined. */
  lemma ScenarioClarificationWithoutQuestion(opts: BuildOptions)
    ensures var e := Build(ResponseOf([ToolCallRecord(None, Some("requestClarification"), None,
                                         Some(EmptyOutput().(needsClarification := true)))], None), opts);
      && e.state.phase == Clarification
      && e.state.clarification == Some(ClarificationInfo(None, None, None))
      && e.display.primaryText == "Need more information."
  {
  }

  /** An empty `toolResults` list is still the list used: `steps` is never consulted. */
  lemma ScenarioEmptyListWins(opts: BuildOptions, steps: seq<ToolCallRecord>)
    ensures var resp := ResponseOf([], None).(steps := Some(steps));
      && ProbeToolResults(resp) == []
      && Build(resp, opts).state.phase == Generic
      && Build(resp, opts).display.primaryText == "Processing complete."
  {
  }
}
