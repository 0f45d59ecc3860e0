# Canonical envelope and Telegram channel of the support chatbot

The support chatbot lets an LLM agent talk with a customer. The agent calls a
few tools: issue extraction, ticket analysis, a clarification request and
ticket creation. Each turn feeds whatever the agent or workflow returned into
`buildCanonicalEnvelope`, which turns it into a channel-neutral *canonical
envelope*.

Building the envelope goes in four steps:

1. It probes three places where the tool-call records may be stored.
2. It finds the four tool calls it cares about.
3. It resolves the working ticket and the working analysis through fixed
   fallback chains.
4. It classifies the turn into one of five phases: `clarification`,
   `finalTicket`, `ticketDraft`, `analysisOnly` or `generic`. From the phase
   it derives completion, the display texts, the suggested next actions, the
   channel hints, the correlation ids and the usage figures.

The model covers five parts of the system:

- the envelope schema and the closed set of tool identifiers (`Canonical`,
  `ToolIds`);
- the builder itself, as a total function with lemmas for each
  classification and derivation rule (`CanonicalBuilder`);
- the `execute` body of the ticket-creation tool, with the clock, the random
  suffix and the timestamp as parameters (`TicketTool`);
- the Telegram channel (`TelegramWebhook`):
  - `processMessage` is a method that builds the agent input step by step, as
    the source does;
  - `formatResponseForTelegram` is a function over the envelope's phase;
  - `handleWebhook` is a method that links them. The Bot API file lookup and
    the agent's `generate` are function parameters, and `None` stands for a
    call that throws.
- properties that cross these parts (`EndToEnd`).

`Text` holds the JavaScript string behaviours the code relies on: the truthiness
of optional strings, `s || fallback`, `${n}` on integers, ASCII upper-casing,
and a substring test used to state what a reply contains. `Wrappers` holds
`Option`.

Some behaviours of the code differ from what a reader might expect. The model
follows the code:

- The tool-call list is the first of `toolResults`, `result.toolResults` and
  `steps` that is *present*, not the first non-empty one: an empty array is
  truthy in JavaScript, so an empty `toolResults` hides `steps`
  (`ScenarioEmptyListWins`).
- The clarification phase suggests the action `user_provide_details`.
- A ticket can be final without an id. `finalTicket` needs only *some*
  `createTicket` record and *some* resolved ticket, which may come from the
  extraction tool (`FinalTicketWithoutCreatedData`). A missing id prints as
  `undefined`.
- `state.clarification.question` is absent when only `needsClarification` was
  set. The schema declares it required (`ScenarioClarificationWithoutQuestion`).

One cross-file observation is proved in `EndToEnd.CreatedTicketReplyShowsTBD`.
The Telegram confirmation prints `estimatedResolutionTime`, but the ticket tool
fills `estimatedResolution`. So a ticket the tool created is always announced
with the estimate `TBD`.

The project has eight files: `wrappers.dfy`, `text.dfy`, `tool_ids.dfy`,
`canonical.dfy`, `canonical_builder.dfy`, `ticket_tool.dfy`,
`telegram_webhook.dfy` and `end_to_end.dfy`.

## Model

| member | source | states |
|---|---|---|
| Text.NatToString | src/mastra/tools/ticket-tool.ts:21 | `${n}` for a natural number: non-empty, all decimal digits, a single digit exactly when n < 10, and a leading `0` only for zero itself |
| Text.NatToStringValue | src/mastra/tools/ticket-tool.ts:21 | the digits printed denote the number: read back from the left by `DecimalValue`, they give n (by induction on the digits) |
| Text.NatToStringCanonical | src/mastra/tools/ticket-tool.ts:21 | the printed form is the only digit string without a leading zero that denotes its number, so `${n}` is fixed exactly |
| Text.IntToString | src/telegram/telegram-webhook.ts:161 | `${n}` for an integer: all decimal digits when n >= 0; a leading minus followed by at least one digit, and digits only, when n < 0; no leading zero except for zero itself |
| Text.IntToStringValue | src/telegram/telegram-webhook.ts:161 | the digits printed denote the number when n >= 0, and the digits after the minus denote -n when n < 0 |
| Text.NatToStringInjective | src/mastra/tools/ticket-tool.ts:21 | distinct naturals print differently (by induction on the digits) |
| Text.IntToStringInjective | src/telegram/telegram-webhook.ts:161 | distinct integers print differently |
| Text.PrefixedIntInjective | src/telegram/telegram-webhook.ts:161 | distinct integers after a common prefix give distinct strings |
| Text.ToUpperAscii | src/telegram/telegram-webhook.ts:231 | `toUpperCase` keeps the length and upper-cases each ASCII letter, leaving every other character alone |
| Text.InfixOfPiece | src/telegram/telegram-webhook.ts:227-234 | every interpolated piece of a template occurs in the filled template |
| ToolIds.FromName | src/mastra/constants/tools.ts:9 | a string is read as an identifier only when it is that identifier's literal |
| ToolIds.NamesDistinct | src/mastra/constants/tools.ts:1-7 | the five identifier literals are pairwise distinct |
| ToolIds.FromNameExact | src/mastra/constants/tools.ts:9 | `ToolId` is exactly the union of the five literals, and each literal reads back as its identifier |
| ToolIds.LookedUpExactly | src/mastra/utils/buildCanonicalEnvelope.ts:25-28 | the builder looks up four distinct identifiers: every identifier except `triggerWorkflow` |
| Canonical.ParsePriority | src/mastra/types/canonical.ts:5 | a priority literal reads back only as the priority it names |
| Canonical.PriorityNamesRoundTrip | src/mastra/types/canonical.ts:5 | each priority reads back from its literal, and the four literals are distinct |
| Canonical.ParsePhase | src/mastra/types/canonical.ts:32 | a phase literal reads back only as the phase it names |
| Canonical.PhaseNamesRoundTrip | src/mastra/types/canonical.ts:32 | `state.phase` ranges over exactly five distinct literals, each reading back as its phase |
| CanonicalBuilder.FirstSome | src/mastra/utils/buildCanonicalEnvelope.ts:30-38 | a logical-or chain over objects is undefined exactly when every candidate is absent; otherwise it is the first present candidate |
| CanonicalBuilder.FirstSomeStep | src/mastra/utils/buildCanonicalEnvelope.ts:30-34 | a present head wins; an absent head defers to the rest of the chain |
| CanonicalBuilder.OrChainIsFirstTruthy | src/mastra/utils/buildCanonicalEnvelope.ts:102 | a JavaScript `or` chain of strings is a search for the first truthy candidate, the last operand being the last resort; without a last resort (`a || b || null`, as here) it finds something exactly when some candidate is truthy; the last-resort form is `text || caption || ''` at telegram-webhook.ts:163 |
| CanonicalBuilder.Matches | src/mastra/utils/buildCanonicalEnvelope.ts:23 | a record matches an identifier only when its `toolName` or its `id` reads back as that identifier |
| CanonicalBuilder.FindTool | src/mastra/utils/buildCanonicalEnvelope.ts:22-23 | `findTool` finds nothing exactly when no record matches by `toolName` or `id`; otherwise it returns the first matching record |
| CanonicalBuilder.ProbeToolResults | src/mastra/utils/buildCanonicalEnvelope.ts:17-20 | the tool list is `toolResults`, else `result.toolResults`, else `steps`, else empty; the first present list wins even when it is empty |
| CanonicalBuilder.ClarificationRequested | src/mastra/utils/buildCanonicalEnvelope.ts:40 | a clarification request needs a clarification record that carries a result |
| CanonicalBuilder.ResolveTicket | src/mastra/utils/buildCanonicalEnvelope.ts:30-34 | the working ticket is undefined exactly when all four sources are absent, and otherwise comes from one of them |
| CanonicalBuilder.ResolveAnalysis | src/mastra/utils/buildCanonicalEnvelope.ts:36-38 | the working analysis is undefined exactly when both sources are absent, and otherwise comes from one of them |
| CanonicalBuilder.Gather | src/mastra/utils/buildCanonicalEnvelope.ts:17-40 | each record found is in the probed list and matches its identifier, and a clarification is needed only when a clarification record was found |
| CanonicalBuilder.DecidePhase | src/mastra/utils/buildCanonicalEnvelope.ts:42-47 | the decision tree, stated as five exclusive conditions: each phase holds exactly under its own condition on the evidence |
| CanonicalBuilder.PrimaryText | src/mastra/utils/buildCanonicalEnvelope.ts:51-64 | the primary text is never empty, in any phase: each fallback and each template is non-empty |
| CanonicalBuilder.SecondaryText | src/mastra/utils/buildCanonicalEnvelope.ts:66-71 | the routing line exists exactly when the analysis recommends a truthy team, and starts with `Routing → ` |
| CanonicalBuilder.SuggestedNext | src/mastra/utils/buildCanonicalEnvelope.ts:73-78 | at most two next actions, and none exactly in `analysisOnly` and `generic` |
| CanonicalBuilder.ShortMessage | src/mastra/utils/buildCanonicalEnvelope.ts:118 | `slice(0, 120)` is a prefix of the text, of length min(120, length) |
| CanonicalBuilder.Build | src/mastra/utils/buildCanonicalEnvelope.ts:80-125 | every envelope is phase-consistent: `complete` iff `finalTicket`; `needsClarification` and the clarification block iff `clarification`; a ticket in both ticket phases; `richPanel` and `canStreamFollowups` follow the phase; the short message is the head of the primary text. The primary text is never empty, the provider is `openai`, and `raw.toolResults` is the probed list |
| CanonicalBuilder.PhaseClassification | src/mastra/utils/buildCanonicalEnvelope.ts:42-47 | each of the five phases holds exactly under its own condition on the evidence: clarification pending; ticket plus a creation record or a complete conversation; ticket otherwise; analysis and no ticket; neither |
| CanonicalBuilder.ClarificationDominates | src/mastra/utils/buildCanonicalEnvelope.ts:40-49 | a pending clarification gives the `clarification` phase whatever ticket or analysis is present: not complete, the clarification block, the question or `Need more information.`, `user_provide_details`, streaming hints, ticket and analysis still carried |
| CanonicalBuilder.ClarificationSignals | src/mastra/utils/buildCanonicalEnvelope.ts:40 | clarification is needed iff the clarification record's result has a truthy `needsClarification` or a truthy `question` |
| CanonicalBuilder.TicketResolutionOrder | src/mastra/utils/buildCanonicalEnvelope.ts:30-34 | the working ticket is the creation tool's `ticketData`, else the extraction tool's `ticket`, else top-level `ticketData`, else `result.ticketData` |
| CanonicalBuilder.AnalysisResolutionOrder | src/mastra/utils/buildCanonicalEnvelope.ts:36-38 | the working analysis is the analysis tool's, else the top-level `analysis` |
| CanonicalBuilder.FinalTicketWithoutCreatedData | src/mastra/utils/buildCanonicalEnvelope.ts:44 | a creation record without ticket data, plus an extracted ticket, still gives `finalTicket`, announcing the extracted ticket |
| CanonicalBuilder.CreatedTicketFinalizes | src/mastra/utils/buildCanonicalEnvelope.ts:44-58 | a creation record carrying ticket data, with no clarification pending, gives a complete `finalTicket` showing `Ticket {id} created: …`, the two follow-up actions and the rich panel |
| CanonicalBuilder.FinalTicketWithoutIdSaysUndefined | src/mastra/utils/buildCanonicalEnvelope.ts:58 | a final ticket without an id is announced as `Ticket undefined created: …`, as a template literal prints an undefined member |
| CanonicalBuilder.PrimaryTextByPhase | src/mastra/utils/buildCanonicalEnvelope.ts:51-64 | the primary text follows each phase's template; the generic phase shows the response text, or `Processing complete.` when that is absent or empty |
| CanonicalBuilder.SecondaryTextRule | src/mastra/utils/buildCanonicalEnvelope.ts:66-71 | the routing line exists iff a team is recommended; it carries the escalation suffix exactly when escalation is required |
| CanonicalBuilder.EscalationSuffixFromTeamName | src/mastra/utils/buildCanonicalEnvelope.ts:67-68 | counterexample: a routing line can end with the escalation suffix with no escalation at all, when the team name ends with it |
| CanonicalBuilder.SecondaryTextIgnoresPhase | src/mastra/utils/buildCanonicalEnvelope.ts:66-71 | the routing line depends on the resolved analysis only, never on the phase |
| CanonicalBuilder.SuggestedNextByPhase | src/mastra/utils/buildCanonicalEnvelope.ts:73-78 | the fixed next-action list of each phase, empty for `analysisOnly` and `generic` |
| CanonicalBuilder.ShortMessageIsHead | src/mastra/utils/buildCanonicalEnvelope.ts:118 | the short message is at most 120 characters: the whole primary text when that fits, its first 120 characters otherwise |
| CanonicalBuilder.ClarificationBlock | src/mastra/utils/buildCanonicalEnvelope.ts:88-92 | the clarification block is present iff clarification is needed, and it copies the tool's question, turn and maximum turns |
| CanonicalBuilder.SourceRefsRule | src/mastra/utils/buildCanonicalEnvelope.ts:101-106 | `ticketToolCallId` is the creation record's truthy id, else the extraction record's, else null; the analysis and clarification ids are present iff truthy; `compiledFromWorkflow` iff the option is true |
| CanonicalBuilder.UsageDefaults | src/mastra/utils/buildCanonicalEnvelope.ts:107-111 | usage figures are copied when reported and null when not |
| CanonicalBuilder.OptionsEchoed | src/mastra/utils/buildCanonicalEnvelope.ts:81-116 | schema version, agent version and run id are echoed, and the model block is the option's model id, `openai` and the option's temperature |
| CanonicalBuilder.FindToolSkips | src/mastra/utils/buildCanonicalEnvelope.ts:22-23 | inserting a record that does not match an identifier anywhere leaves what `findTool` finds for it unchanged |
| CanonicalBuilder.UnrelatedRecordIgnored | src/mastra/utils/buildCanonicalEnvelope.ts:22-28 | a record matching none of the four looked-up identifiers changes nothing in the envelope but `raw.toolResults` |
| CanonicalBuilder.BuildDependsOnEvidence | src/mastra/utils/buildCanonicalEnvelope.ts:13-126 | the envelope depends on the response only through the records found, the resolved ticket and analysis, the text, the usage and the conversation state |
| CanonicalBuilder.TriggerWorkflowIgnored | src/mastra/utils/buildCanonicalEnvelope.ts:25-28 | a `triggerWorkflow` record, inserted anywhere, plays no part in classification or display |
| CanonicalBuilder.ScenarioClarificationQuestion | src/mastra/utils/buildCanonicalEnvelope.ts:40-54 | a lone clarification record with the question `What city?` gives `clarification`, showing the question, with streaming follow-ups |
| CanonicalBuilder.ScenarioCreatedTicket | src/mastra/utils/buildCanonicalEnvelope.ts:30-58 | a lone creation record with ticket `T-1` gives a complete `finalTicket` reading `Ticket T-1 created: Login broken (priority: high).` |
| CanonicalBuilder.ScenarioPlainText | src/mastra/utils/buildCanonicalEnvelope.ts:61-62 | text and an empty tool list give `generic`, showing that text |
| CanonicalBuilder.ScenarioAnalysisOnly | src/mastra/utils/buildCanonicalEnvelope.ts:47-68 | a lone analysis routing to `billing` with escalation gives `analysisOnly` and the routing line for `billing` with the escalation suffix |
| CanonicalBuilder.ScenarioClarificationWithoutQuestion | src/mastra/utils/buildCanonicalEnvelope.ts:88-89 | `needsClarification` without a question gives a clarification block with no question, and the text `Need more information.` |
| CanonicalBuilder.ScenarioEmptyListWins | src/mastra/utils/buildCanonicalEnvelope.ts:17-20 | an empty `toolResults` list is used even when `steps` holds records, giving `generic` with `Processing complete.` |
| TicketTool.UrgencyOf | src/mastra/tools/ticket-tool.ts:24-29 | urgency is one of low, medium or high: the priority capped at high, so critical and high both map to high |
| TicketTool.EstimatedResolution | src/mastra/tools/ticket-tool.ts:44-46 | every promised resolution time is a number of hours, ending in ` hours` |
| TicketTool.EstimateSpellsHours | src/mastra/tools/ticket-tool.ts:44-46 | the estimated resolution is the priority's hour count (2, 8, 24, 72) followed by ` hours` |
| TicketTool.EstimatesDistinct | src/mastra/tools/ticket-tool.ts:44-46 | two priorities promise the same resolution time iff they are the same priority |
| TicketTool.UrgencyAndResolutionFollowPriority | src/mastra/tools/ticket-tool.ts:24-46 | a higher priority promises strictly fewer hours, and never a lower urgency |
| TicketTool.TicketIdOf | src/mastra/tools/ticket-tool.ts:21 | the ticket id begins with `TICKET-` |
| TicketTool.ConfirmationMessage | src/mastra/tools/ticket-tool.ts:55-62 | the confirmation starts with its heading and shows the ticket id, the summary and the estimate |
| TicketTool.Execute | src/mastra/tools/ticket-tool.ts:17-64 | success; `ticketId` is `ticketData.id` and starts with `TICKET-`; the input fields are copied; urgency and estimate follow the priority; status `open`; the given timestamp; none of the members the tool never sets (`severity`, `sentiment`, `tags`, `suggestedActions`, `metadata`, `estimatedResolutionTime`); the message names the id and the summary |
| TicketTool.BuilderFindsTheTool | src/mastra/tools/ticket-tool.ts:5 | the builder's `CREATE_TICKET` equals the tool's registered id: `findTool` finds the tool's record exactly when it is logged under that id, and not when it is logged under the agent's key for the tool |
| TicketTool.CreatedTicketIsFinal | src/mastra/tools/ticket-tool.ts:51-54 | the tool's result found as the creation record, with no clarification pending, gives a complete `finalTicket` carrying its ticket data and announcing `Ticket {ticketId} created: {summary} (priority: {priority}).` |
| TicketTool.SoleCreationRecordIsFinal | src/mastra/tools/ticket-tool.ts:51-54 | a response whose only record is the tool's is such a final ticket, and `ticketToolCallId` is that record's truthy call id |
| TicketTool.SoleRecordUnderAgentKeyIsGeneric | src/mastra/agents/support-agent.ts:138-139 | the same lone record logged under the agent's key `createTicketTool` matches no looked-up identifier, and the turn is `generic` with no ticket |
| TicketTool.EmptyResponseIsGeneric | src/mastra/utils/buildCanonicalEnvelope.ts:61-62 | an empty tool list with no text gives `generic`, no ticket and `Processing complete.` |
| TelegramWebhook.LargestPhotoIndex | src/telegram/telegram-webhook.ts:168-170 | the `reduce` keeps a photo of maximal `file_size` (missing counts as 0), and every later photo is strictly smaller, so ties go to the later photo |
| TelegramWebhook.LargestPhotoUnique | src/telegram/telegram-webhook.ts:168-170 | those two conditions pick exactly one photo |
| TelegramWebhook.MediaUrls | src/telegram/telegram-webhook.ts:166-204 | one URL per medium present (photo, voice, video, document); the list is empty exactly when no medium is carried |
| TelegramWebhook.InitialTextOrder | src/telegram/telegram-webhook.ts:163 | the starting text is `text`, else `caption`, else empty |
| TelegramWebhook.InitialText | src/telegram/telegram-webhook.ts:163 | the starting text is empty exactly when neither `text` nor `caption` is truthy |
| TelegramWebhook.DocumentPlaceholder | src/telegram/telegram-webhook.ts:202 | the document sentence starts with `I've shared a document` and names the file when the file name is truthy |
| TelegramWebhook.MessageText | src/telegram/telegram-webhook.ts:163-204 | the message text is empty exactly when the user wrote no text or caption and sent no medium |
| TelegramWebhook.UserInfo | src/telegram/telegram-webhook.ts:207-209 | no sender gives `Unknown User`; otherwise the text starts with the first name, and ends with `)` when there is a truthy username |
| TelegramWebhook.ProcessMessage | src/telegram/telegram-webhook.ts:156-218 | no agent input exactly when a file lookup fails; otherwise session `telegram_{chat id}`, text `Message from {user}: {text or first medium's sentence}`, and URLs undefined exactly when no medium is carried, else the media URLs in order |
| TelegramWebhook.SessionPerChat | src/telegram/telegram-webhook.ts:161 | different chats get different session ids |
| TelegramWebhook.FinalTicketReply | src/telegram/telegram-webhook.ts:227-234 | the confirmation starts with its heading and shows the id, the summary, the priority and the estimate |
| TelegramWebhook.ClarificationReply | src/telegram/telegram-webhook.ts:237-241 | the request starts with its heading and shows the question |
| TelegramWebhook.DraftReply | src/telegram/telegram-webhook.ts:244-250 | the draft offer starts with its heading and shows the primary and the secondary text |
| TelegramWebhook.AnalysisReply | src/telegram/telegram-webhook.ts:253-257 | the analysis report starts with its heading and shows the primary and the secondary text |
| TelegramWebhook.FormatResponse | src/telegram/telegram-webhook.ts:221-262 | each of the four special phases gets its own heading, and the generic reply is never empty |
| TelegramWebhook.FinalTicketReplyShowsTicket | src/telegram/telegram-webhook.ts:226-234 | a final ticket's reply shows its id, its summary, its upper-cased priority and `estimatedResolutionTime`, else `TBD` |
| TelegramWebhook.ClarificationReplyShowsQuestion | src/telegram/telegram-webhook.ts:236-241 | a clarification reply shows the primary text under the clarification heading |
| TelegramWebhook.DraftReplyShowsDisplay | src/telegram/telegram-webhook.ts:243-250 | a draft reply shows the primary text, and the secondary text or nothing in its place |
| TelegramWebhook.AnalysisReplyShowsDisplay | src/telegram/telegram-webhook.ts:252-257 | an analysis reply shows the primary text, and the secondary text or nothing in its place |
| TelegramWebhook.GenericReplyIsText | src/telegram/telegram-webhook.ts:259-260 | any other phase replies with the primary text when it is non-empty, else with the help sentence |
| TelegramWebhook.BuiltGenericReplyIsText | src/telegram/telegram-webhook.ts:259-260 | a generic envelope from the builder is answered with its own text: its primary text is never empty, so the help sentence is never used for it |
| TelegramWebhook.PriorityShownUpperCase | src/telegram/telegram-webhook.ts:231 | the confirmation shows the priorities as `LOW`, `MEDIUM`, `HIGH` and `CRITICAL` |
| TelegramWebhook.TelegramOptions | src/telegram/telegram-webhook.ts:295-302 | the builder gets the deployment's versions, a model id that is never empty (`MODEL_ID` when truthy, else `gpt-4o-mini`), temperature 0.7, not compiled from a workflow, and a run id starting with `telegram_` |
| TelegramWebhook.RunPerUpdate | src/telegram/telegram-webhook.ts:296 | different updates get different run ids |
| TelegramWebhook.HandleWebhook | src/telegram/telegram-webhook.ts:265-335 | the acknowledgement is `ok` exactly when the status is 200, and the status is 200 or 500. Any reply goes to the sender's chat. No message: 200 `ok`, agent not invoked, nothing sent. A failed file lookup: 500 before the agent runs. A failed agent call: 500. On every failure the apology is sent exactly when the chat id is truthy (non-zero). Otherwise: 200, and the chat receives the formatted envelope built from the agent's response with the Telegram options |
| EndToEnd.CreatedTicketReplyShowsTBD | src/telegram/telegram-webhook.ts:232 | when the ticket tool's record decides the turn, the Telegram confirmation shows the tool's id, summary and upper-cased priority, and the estimate `TBD` |

## Left out

- Telegram network I/O (`sendMessage`, `sendTypingAction`, the `fetch` inside `getFileUrl`).
  - The file lookup is the parameter `fileUrl`. The message sent back is the `reply` of the outcome.
  - A `sendMessage` that fails after formatting is not modelled; the source would then land in its `catch` branch.
  - A failing apology send is not modelled either; the source only logs it.
- The HTTP layer: Express `req`/`res` become `WebhookOutcome`. The `error.message` in the 500 body is not modelled.
- Console logging throughout: it has no effect on results.
- `supportAgent.generate` is the parameter `agent`. `None` stands for a call that throws.
- In the source, `processMessage` computes `mediaUrls` and `sessionId`, but `handleWebhook` passes only `text` to the agent. The model keeps this.
- Edits, channel posts and every other update kind: the handler never reads them. `Update` carries only `update_id` and `message`.
- Telegram fields that no modelled code reads (`is_bot`, chat type, photo dimensions, MIME types and the like) are dropped from the datatypes.
- `Date.now()`, `Math.random().toString(36).substr(2, 5)` and `new Date().toISOString()` are the parameters `nowMillis`, `randomSuffix` and `createdAt`. The suffix's base-36 form and the timestamp's ISO format are not constrained.
- `AGENT_VERSION` and `SCHEMA_VERSION` come from `src/mastra/constants/version.ts`, which is not part of this model. They are `Deployment` fields, like the `MODEL_ID` environment variable.
- Floating point: temperature and cost are `real`, carried through untouched.
- Text.NatToString, Text.IntToString: every JavaScript number is an IEEE double, but `chat.id` (telegram-webhook.ts:161), `update_id` (telegram-webhook.ts:296), `Date.now()` (ticket-tool.ts:21), `file_size` and the usage counts are modelled as unbounded `int`/`nat`. `${n}` prints plain digits only for integers below 1e21 in magnitude, and distinct integers above 2^53 collapse to one double. So `TelegramWebhook.SessionPerChat`, `TelegramWebhook.RunPerUpdate` and the ticket-id format hold for integers within the double's exact range, which covers Telegram's ids (at most 52 bits) and the clock.
- CanonicalBuilder.ShortMessage: counts characters, while `slice` counts UTF-16 code units; the two differ for text outside the Basic Multilingual Plane.
- Text.ToUpperAscii: upper-cases ASCII letters only. The only strings upper-cased are the four priority literals, which are ASCII.
- The emoji in the reply templates are stored double-encoded in the source text. The model uses the emoji those bytes stand for.
- The logged name of a tool call. `buildCanonicalEnvelope` finds the ticket tool's record only when it is logged under the tool's `id` (`createTicket`, ticket-tool.ts:5). The support agent lists the tool under the key `createTicketTool` (support-agent.ts:138-139), and which of the two names the agent framework records is framework behaviour that is not part of this model. `CreateTicketRecord` takes the name as a parameter; `TicketTool.CreatedTicketIsFinal`, `TicketTool.SoleCreationRecordIsFinal` and `EndToEnd.CreatedTicketReplyShowsTBD` hold for records logged under the id, and `TicketTool.SoleRecordUnderAgentKeyIsGeneric` shows the turn is generic otherwise.
- JavaScript truthiness on `any` is not modelled in general.
  - Each member the builder probes has the type it is tested as: an optional string (truthy when non-empty), an optional object or list (truthy when present), or a boolean for `needsClarification`, `escalation.required` and `conversationComplete`.
  - Members no reader touches are absent.
- `Ticket.id` is optional, although the schema declares it required: draft tickets from the extraction tool or from the response have none. Templates print a missing id as `undefined`.
- TelegramWebhook.FormatResponse: requires a `finalTicket` envelope to carry a ticket.
  - The source reads `ticket.id` unguarded and would throw otherwise.
  - Every envelope `Build` produces meets this (`PhaseConsistent`), and `formatResponseForTelegram` is given nothing else.
- CanonicalBuilder.SecondaryTextRule: proves "ends with ` | Escalation required`" only in the direction from required escalation.
  - The converse is false: a recommended team whose name ends with that suffix produces it without escalation.
  - `EscalationSuffixFromTeamName` exhibits such a case. The exact rule (the suffix is appended iff escalation is required) is proved instead.
- TelegramWebhook.ProcessMessage: the order of the file lookups is not observable, because the lookup is a pure function. The source stops at the first failed lookup, and the model returns at the same point.
- The OCR, audio, video and text-structure tools, the agent configuration, the HTTP routes, the model provider and the scripts are not part of this model: they are network, process and framework glue.
