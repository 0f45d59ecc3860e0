/**
 * Properties that span the ticket tool, the envelope builder and the
 * Telegram channel.
 */
module EndToEnd {
  import opened Wrappers
  import opened Text
  import opened ToolIds
  import opened Canonical
  import opened CanonicalBuilder
  import opened TicketTool
  import opened TelegramWebhook

  /**
   * The confirmation reads `estimatedResolutionTime`, which the ticket tool
   * never sets (it fills `estimatedResolution`), so a ticket the tool created
   * is always announced with the estimate "TBD".
   */
  lemma CreatedTicketReplyShowsTBD(resp: AgentResponse, opts: BuildOptions, input: TicketInput, nowMillis: int, randomSuffix: string, createdAt: string, loggedName: string, toolCallId: Option<string>)
    requires var r := Execute(input, nowMillis, randomSuffix, createdAt);
      FindTool(ProbeToolResults(resp), CreateTicket) == Some(CreateTicketRecord(r, loggedName, toolCallId))
    requires !Gather(resp).needsClarification
    ensures var r := Execute(input, nowMillis, randomSuffix, createdAt);
      FormatResponse(Build(resp, opts)) ==
        FinalTicketReply(r.ticketId, input.summary, ToUpperAscii(PriorityName(input.priority)), "TBD")
  {
    CreatedTicketIsFinal(resp, opts, input, nowMillis, randomSuffix, createdAt, loggedName, toolCallId);
  }
}
