/**
 * The ticket-creation tool (`createTicketTool`): its `execute` body turns the
 * gathered ticket fields into a ticket record and a confirmation. The clock
 * and the random suffix of the identifier, and the creation timestamp, are
 * parameters.
 */
module TicketTool {
  import opened Wrappers
  import opened Text
  import opened ToolIds
  import opened Canonical
  import opened CanonicalBuilder

  /** The id under which the tool is registered. */
  const RegisteredId: string := "createTicket"

  /** The key under which the support agent lists the tool (`tools: { createTicketTool, … }`). */
  const AgentToolKey: string := "createTicketTool"

  datatype Category = Technical | Billing | Account | General

  function CategoryName(c: Category): string {
    match c
    case Technical => "technical"
    case Billing => "billing"
    case Account => "account"
    case General => "general"
  }

  /** The tool's input schema. */
  datatype TicketInput = TicketInput(
    summary: string,
    description: string,
    priority: Priority,
    category: Category,
    location: string,
    impact: string,
    stepsTriedResult: string)

  /** `urgencyMap`: the priority capped at high, so critical and high are both high urgency. */
  function UrgencyOf(p: Priority): (u: string)
    ensures u in {"low", "medium", "high"}
    ensures ParsePriority(u) == Some(if p == Critical then High else p)
  {
    match p
    case Critical => "high"
    case High => "high"
    case Medium => "medium"
    case Low => "low"
  }

  /** The promised resolution time. */
  function EstimatedResolution(p: Priority): (r: string)
    ensures EndsWith(r, " hours")
  {
    if p == Critical then "2 hours"
    else if p == High then "8 hours"
    else if p == Medium then "24 hours"
    else "72 hours"
  }

  /** Order of priorities, lowest first. */
  function Rank(p: Priority): nat {
    match p
    case Low => 0
    case Medium => 1
    case High => 2
    case Critical => 3
  }

  /** Hours in each promised resolution time. */
  function ResolutionHours(p: Priority): nat {
    match p
    case Critical => 2
    case High => 8
    case Medium => 24
    case Low => 72
  }

  /** Each promised resolution time is its number of hours, spelled out. */
  lemma EstimateSpellsHours(p: Priority)
    ensures EstimatedResolution(p) == NatToString(ResolutionHours(p)) + " hours"
  {
    match p
    case Critical => assert NatToString(2) + " hours" == "2 hours";
    case High => assert NatToString(8) == "8";
    case Medium => assert NatToString(24) == NatToString(2) + "4";
    case Low => assert NatToString(72) == NatToString(7) + "2";
  }

  /** Different priorities promise different resolution times. */
  lemma EstimatesDistinct(p: Priority, q: Priority)
    ensures EstimatedResolution(p) == EstimatedResolution(q) <==> p == q
  {
    EstimateSpellsHours(p);
    EstimateSpellsHours(q);
    if EstimatedResolution(p) == EstimatedResolution(q) {
      var a, b := NatToString(ResolutionHours(p)), NatToString(ResolutionHours(q));
      assert a == b by {
        assert |a| == |b|;
        forall i | 0 <= i < |a| ensures a[i] == b[i] {
          assert a[i] == EstimatedResolution(p)[i];
        }
      }
      NatToStringInjective(ResolutionHours(p), ResolutionHours(q));
    }
  }

  /**
   * Urgency never falls as priority rises, and the promised resolution time
   * shrinks strictly as priority rises.
   */
  lemma UrgencyAndResolutionFollowPriority(p: Priority, q: Priority)
    ensures Rank(p) < Rank(q) ==> ResolutionHours(q) < ResolutionHours(p)
    ensures Rank(p) <= Rank(q) ==> Rank(ParsePriority(UrgencyOf(p)).value) <= Rank(ParsePriority(UrgencyOf(q)).value)
  {
  }

  /** `TICKET-{clock}-{suffix}`. */
  function TicketIdOf(nowMillis: int, randomSuffix: string): (id: string)
    ensures "TICKET-" <= id
  {
    "TICKET-" + IntToString(nowMillis) + "-" + randomSuffix
  }

  datatype CreateTicketResult = CreateTicketResult(success: bool, ticketId: string, ticketData: Ticket, message: string)

  const ConfirmationHeading: string := "\U{2705} Support ticket created successfully!"
  const ConfirmationIdLabel: string := "\n\n**Ticket ID:** "
  const ConfirmationSummaryLabel: string := "\n**Summary:** "
  const ConfirmationPriorityLabel: string := "\n**Priority:** "
  const ConfirmationEtaLabel: string := "\n**Estimated Resolution:** "
  const ConfirmationClosing: string :=
    "\n\nYour ticket has been logged and our support team will be in touch soon. Is there anything else I can help you with?"

  /** The confirmation text returned to the agent: it names the new id, the summary and the estimate. */
  function ConfirmationMessage(ticketId: string, input: TicketInput, estimate: string): (msg: string)
    ensures ConfirmationHeading <= msg
    ensures IsInfix(ticketId, msg) && IsInfix(input.summary, msg) && IsInfix(estimate, msg)
  {
    var parts := [ConfirmationHeading, ConfirmationIdLabel, ticketId, ConfirmationSummaryLabel, input.summary,
                  ConfirmationPriorityLabel, PriorityName(input.priority), ConfirmationEtaLabel, estimate,
                  ConfirmationClosing];
    InfixOfPiece(parts, 2);
    InfixOfPiece(parts, 4);
    InfixOfPiece(parts, 8);
    Concat(parts)
  }

  /** The `execute` body. */
  function Execute(input: TicketInput, nowMillis: int, randomSuffix: string, createdAt: string): (r: CreateTicketResult)
    ensures r.success
    ensures r.ticketData.id == Some(r.ticketId) && "TICKET-" <= r.ticketId
    ensures r.ticketData.summary == input.summary
    ensures r.ticketData.description == Some(input.description)
    ensures r.ticketData.priority == input.priority
    ensures r.ticketData.category == Some(CategoryName(input.category))
    ensures r.ticketData.location == Some(input.location)
    ensures r.ticketData.impact == Some(input.impact)
    ensures r.ticketData.stepsTriedResult == Some(input.stepsTriedResult)
    ensures r.ticketData.urgency == Some(UrgencyOf(input.priority))
    ensures r.ticketData.status == Some("open")
    ensures r.ticketData.createdAt == Some(createdAt)
    ensures r.ticketData.estimatedResolution == Some(EstimatedResolution(input.priority))
    ensures r.ticketData.estimatedResolutionTime.None?
    ensures r.ticketData.severity.None? && r.ticketData.sentiment.None? && r.ticketData.tags.None?
    ensures r.ticketData.suggestedActions.None? && r.ticketData.metadata.None?
    ensures IsInfix(r.ticketId, r.message) && IsInfix(input.summary, r.message)
  {
    var id := TicketIdOf(nowMillis, randomSuffix);
    var estimate := EstimatedResolution(input.priority);
    var ticket := Ticket(
      Some(id), input.summary, Some(input.description), input.priority,
      None, None, Some(CategoryName(input.category)), None, None, None, None,
      Some(input.location), Some(UrgencyOf(input.priority)), Some(input.impact), Some(input.stepsTriedResult),
      Some("open"), Some(createdAt), Some(estimate));
    CreateTicketResult(true, id, ticket, ConfirmationMessage(id, input, estimate))
  }

  /** The tool's result as the payload of a tool-call record. */
  function AsToolOutput(r: CreateTicketResult): ToolOutput {
    ToolOutput(Some(r.ticketData), None, None, false, None, None, None, Some(r.success), Some(r.ticketId), Some(r.message))
  }

  /**
   * The record the agent framework logs for one call of the tool, under the
   * name `loggedName` it gives the call. Which name the framework uses (the
   * tool's `id` or the key the agent lists it under) is outside this model.
   */
  function CreateTicketRecord(r: CreateTicketResult, loggedName: string, toolCallId: Option<string>): ToolCallRecord {
    ToolCallRecord(Some(loggedName), None, toolCallId, Some(AsToolOutput(r)))
  }

  /**
   * The builder's `CREATE_TICKET` identifier is the tool's registered id: it
   * finds the tool's record exactly when the record is logged under that id,
   * and not when it is logged under the agent's key for the tool.
   */
  lemma BuilderFindsTheTool(r: CreateTicketResult, loggedName: string, toolCallId: Option<string>)
    ensures Name(CreateTicket) == RegisteredId
    ensures FindTool([CreateTicketRecord(r, loggedName, toolCallId)], CreateTicket).Some? <==> loggedName == RegisteredId
    ensures loggedName == RegisteredId ==>
      FindTool([CreateTicketRecord(r, loggedName, toolCallId)], CreateTicket) == Some(CreateTicketRecord(r, loggedName, toolCallId))
    ensures loggedName == AgentToolKey ==> FindTool([CreateTicketRecord(r, loggedName, toolCallId)], CreateTicket).None?
  {
  }

  /**
   * The tool's result, found as the creation record with no clarification
   * pending, makes the envelope a complete final ticket announcing the new id.
   */
  lemma CreatedTicketIsFinal(resp: AgentResponse, opts: BuildOptions, input: TicketInput, nowMillis: int, randomSuffix: string, createdAt: string, loggedName: string, toolCallId: Option<string>)
    requires var r := Execute(input, nowMillis, randomSuffix, createdAt);
      FindTool(ProbeToolResults(resp), CreateTicket) == Some(CreateTicketRecord(r, loggedName, toolCallId))
    requires !Gather(resp).needsClarification
    ensures var r, e := Execute(input, nowMillis, randomSuffix, createdAt), Build(resp, opts);
      && e.state.phase == FinalTicket
      && e.state.complete
      && e.ticket == Some(r.ticketData)
      && e.display.primaryText ==
           "Ticket " + r.ticketId + " created: " + input.summary + " (priority: " + PriorityName(input.priority) + ")."
  {
    var r := Execute(input, nowMillis, randomSuffix, createdAt);
    CreatedTicketFinalizes(resp, opts, CreateTicketRecord(r, loggedName, toolCallId), r.ticketData);
  }

  /** A response whose only tool call is this tool's, logged under its id, is a final ticket. */
  lemma SoleCreationRecordIsFinal(opts: BuildOptions, input: TicketInput, nowMillis: int, randomSuffix: string, createdAt: string, toolCallId: Option<string>)
    ensures var r := Execute(input, nowMillis, randomSuffix, createdAt);
      var e := Build(ResponseOf([CreateTicketRecord(r, RegisteredId, toolCallId)], None), opts);
      && e.state.phase == FinalTicket
      && e.display.primaryText ==
           "Ticket " + r.ticketId + " created: " + input.summary + " (priority: " + PriorityName(input.priority) + ")."
      && e.sourceRefs.ticketToolCallId == WhenTruthy(toolCallId)
  {
    var r := Execute(input, nowMillis, randomSuffix, createdAt);
    var rec := CreateTicketRecord(r, RegisteredId, toolCallId);
    var resp := ResponseOf([rec], None);
    NamesDistinct(RequestClarification, CreateTicket);
    NamesDistinct(ExtractIssue, CreateTicket);
    assert FindTool([rec], RequestClarification) == None;
    assert FindTool([rec], ExtractIssue) == None;
    CreatedTicketIsFinal(resp, opts, input, nowMillis, randomSuffix, createdAt, RegisteredId, toolCallId);
    SourceRefsRule(resp, opts);
  }

  /**
   * Logged under the agent's key for the tool instead, the same record is
   * found under no looked-up identifier, and the turn is generic.
   */
  lemma SoleRecordUnderAgentKeyIsGeneric(opts: BuildOptions, input: TicketInput, nowMillis: int, randomSuffix: string, createdAt: string, toolCallId: Option<string>)
    ensures var r := Execute(input, nowMillis, randomSuffix, createdAt);
      var e := Build(ResponseOf([CreateTicketRecord(r, AgentToolKey, toolCallId)], None), opts);
      && e.state.phase == Generic
      && e.ticket.None?
      && e.display.primaryText == "Processing complete."
  {
    var r := Execute(input, nowMillis, randomSuffix, createdAt);
    var rec := CreateTicketRecord(r, AgentToolKey, toolCallId);
    var none: seq<ToolCallRecord> := [];
    var empty := ResponseOf(none, None);
    forall id | id in LookedUp ensures !Matches(rec, id) {
    }
    assert none + none == none && none + [rec] + none == [rec];
    UnrelatedRecordIgnored(empty, opts, none, rec, none);
    EmptyResponseIsGeneric(opts);
  }

  /** A response with an empty tool list and nothing else. */
  lemma EmptyResponseIsGeneric(opts: BuildOptions)
    ensures var e := Build(ResponseOf([], None), opts);
      e.state.phase == Generic && e.ticket.None? && e.display.primaryText == "Processing complete."
  {
  }
}
