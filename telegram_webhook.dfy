/**
 * The Telegram channel (`TelegramWebhookHandler`): turning an incoming message
 * into the agent's input (`processMessage`), rendering an envelope as a reply
 * (`formatResponseForTelegram`) and the request sequence of `handleWebhook`.
 * The Bot API calls are parameters: `fileUrl` resolves a file id to its
 * download URL, `agent` is the support agent's `generate`.
 */
module TelegramWebhook {
  import opened Wrappers
  import opened Text
  import opened Canonical
  import opened CanonicalBuilder

  // ---------------------------------------------------------------------
  // Bot API shapes (the members the handler reads)
  // ---------------------------------------------------------------------

  datatype User = User(firstName: string, lastName: Option<string>, username: Option<string>)
  datatype Chat = Chat(id: int)
  datatype PhotoSize = PhotoSize(fileId: string, fileSize: Option<int>)
  datatype Voice = Voice(fileId: string)
  datatype Video = Video(fileId: string)
  datatype Document = Document(fileId: string, fileName: Option<string>)

  datatype Message = Message(
    from: Option<User>,
    chat: Chat,
    text: Option<string>,
    caption: Option<string>,
    photo: Option<seq<PhotoSize>>,
    voice: Option<Voice>,
    video: Option<Video>,
    document: Option<Document>)

  datatype Update = Update(updateId: int, message: Option<Message>)

  /** What `processMessage` hands to the agent. */
  datatype AgentInput = AgentInput(text: string, mediaUrls: Option<seq<string>>, sessionId: string)

  // ---------------------------------------------------------------------
  // processMessage
  // ---------------------------------------------------------------------

  /** `file_size || 0`. */
  function PhotoBytes(p: PhotoSize): int {
    p.fileSize.GetOr(0)
  }

  /**
   * The photo the `reduce` keeps: a previous photo survives only when strictly
   * larger, so the result is the last photo of maximal size.
   */
  function LargestPhotoIndex(ps: seq<PhotoSize>): (k: nat)
    requires |ps| > 0
    ensures k < |ps|
    ensures forall j :: 0 <= j < |ps| ==> PhotoBytes(ps[j]) <= PhotoBytes(ps[k])
    ensures forall j :: k < j < |ps| ==> PhotoBytes(ps[j]) < PhotoBytes(ps[k])
    decreases |ps|
  {
    if |ps| == 1 then 0
    else
      var k := LargestPhotoIndex(ps[..|ps| - 1]);
      assert forall j :: 0 <= j < |ps| - 1 ==> ps[..|ps| - 1][j] == ps[j];
      if PhotoBytes(ps[k]) > PhotoBytes(ps[|ps| - 1]) then k else |ps| - 1
  }

  /** The two conditions above pick one photo: the last of the largest. */
  lemma LargestPhotoUnique(ps: seq<PhotoSize>, k: nat)
    requires k < |ps|
    requires forall j :: 0 <= j < |ps| ==> PhotoBytes(ps[j]) <= PhotoBytes(ps[k])
    requires forall j :: k < j < |ps| ==> PhotoBytes(ps[j]) < PhotoBytes(ps[k])
    ensures k == LargestPhotoIndex(ps)
  {
  }

  predicate HasPhoto(m: Message) {
    m.photo.Some? && |m.photo.value| > 0
  }

  /** The photo whose URL is fetched. */
  function LargestPhoto(m: Message): PhotoSize
    requires HasPhoto(m)
  {
    m.photo.value[LargestPhotoIndex(m.photo.value)]
  }

  /** Whether the message carries any medium the handler looks at. */
  predicate CarriesMedia(m: Message) {
    HasPhoto(m) || m.voice.Some? || m.video.Some? || m.document.Some?
  }

  /**
   * Whether a file lookup the handler makes fails. `fileUrl` is the Bot API's
   * `getFile`: `None` when the API answers `ok: false`, which `getFileUrl`
   * turns into an exception.
   */
  predicate LookupFails(m: Message, fileUrl: string -> Option<string>) {
    || (HasPhoto(m) && fileUrl(LargestPhoto(m).fileId).None?)
    || (m.voice.Some? && fileUrl(m.voice.value.fileId).None?)
    || (m.video.Some? && fileUrl(m.video.value.fileId).None?)
    || (m.document.Some? && fileUrl(m.document.value.fileId).None?)
  }

  /** The download URLs: the largest photo's, the voice note's, the video's, the document's, for those present. */
  function MediaUrls(m: Message, fileUrl: string -> Option<string>): (urls: seq<string>)
    requires !LookupFails(m, fileUrl)
    ensures |urls| == (if HasPhoto(m) then 1 else 0) + (if m.voice.Some? then 1 else 0) +
                      (if m.video.Some? then 1 else 0) + (if m.document.Some? then 1 else 0)
    ensures urls == [] <==> !CarriesMedia(m)
  {
    (if HasPhoto(m) then [fileUrl(LargestPhoto(m).fileId).value] else []) +
    (if m.voice.Some? then [fileUrl(m.voice.value.fileId).value] else []) +
    (if m.video.Some? then [fileUrl(m.video.value.fileId).value] else []) +
    (if m.document.Some? then [fileUrl(m.document.value.fileId).value] else [])
  }

  const PhotoPlaceholder: string := "I've shared an image with you. Can you help me with what you see?"
  const VoicePlaceholder: string := "I've sent a voice message. Can you help me with what I said?"
  const VideoPlaceholder: string := "I've shared a video with you. Can you help me with what you see and hear?"

  const DocumentIntro: string := "I've shared a document"
  const DocumentClosing: string := ". Can you help me with its contents?"

  /** The document sentence: it names the file when the document has a truthy name. */
  function DocumentPlaceholder(d: Document): (r: string)
    ensures DocumentIntro <= r
    ensures Truthy(d.fileName) ==> IsInfix(d.fileName.value, r)
  {
    if Truthy(d.fileName) then
      var parts := [DocumentIntro, " (", d.fileName.value, ")", DocumentClosing];
      InfixOfPiece(parts, 2);
      assert Concat(parts) == DocumentIntro + Concat(parts[1..]);
      Concat(parts)
    else DocumentIntro + DocumentClosing
  }

  /** `message.text || message.caption || ''`. */
  function InitialText(m: Message): (r: string)
    ensures r == "" <==> !Truthy(m.text) && !Truthy(m.caption)
  {
    OrElse(m.text, OrElse(m.caption, ""))
  }

  /**
   * The message text: the user's own words, else the sentence for the first
   * medium carried (photo, voice, video, document), else nothing.
   */
  function MessageText(m: Message): (r: string)
    ensures r == "" <==> InitialText(m) == "" && !CarriesMedia(m)
  {
    if InitialText(m) != "" then InitialText(m)
    else if HasPhoto(m) then PhotoPlaceholder
    else if m.voice.Some? then VoicePlaceholder
    else if m.video.Some? then VideoPlaceholder
    else if m.document.Some? then DocumentPlaceholder(m.document.value)
    else ""
  }

  /** The user's words are the text, else the caption, else nothing. */
  lemma InitialTextOrder(m: Message)
    ensures Truthy(m.text) ==> InitialText(m) == m.text.value
    ensures !Truthy(m.text) && Truthy(m.caption) ==> InitialText(m) == m.caption.value
    ensures !Truthy(m.text) && !Truthy(m.caption) ==> InitialText(m) == ""
  {
  }

  /** The sender as shown to the agent. */
  function UserInfo(from: Option<User>): (r: string)
    ensures from.None? ==> r == "Unknown User"
    ensures from.Some? ==> from.value.firstName <= r
    ensures from.Some? && Truthy(from.value.username) ==> EndsWith(r, ")")
  {
    match from
    case None => "Unknown User"
    case Some(u) =>
      u.firstName + (if Truthy(u.lastName) then " " + u.lastName.value else "") +
      (if Truthy(u.username) then " (@" + u.username.value + ")" else "")
  }

  /** The prefix of an agent session id, followed by the chat id. */
  const SessionPrefix: string := "telegram_"

  /**
   * `processMessage`, with the Bot API's file lookup as `fileUrl`; `None`
   * when a lookup fails, which the source signals by throwing.
   */
  method ProcessMessage(m: Message, fileUrl: string -> Option<string>) returns (r: Option<AgentInput>)
    ensures r.None? <==> LookupFails(m, fileUrl)
    ensures r.Some? ==> r.value.sessionId == SessionPrefix + IntToString(m.chat.id)
    ensures r.Some? ==> r.value.text == "Message from " + UserInfo(m.from) + ": " + MessageText(m)
    ensures r.Some? ==> (r.value.mediaUrls.None? <==> !CarriesMedia(m))
    ensures r.Some? && r.value.mediaUrls.Some? ==> r.value.mediaUrls.value == MediaUrls(m, fileUrl)
  {
    var sessionId := SessionPrefix + IntToString(m.chat.id);
    var mediaUrls: seq<string> := [];
    var messageText := InitialText(m);

    if m.photo.Some? && |m.photo.value| > 0 {
      var largest := m.photo.value[LargestPhotoIndex(m.photo.value)];
      var photoUrl := fileUrl(largest.fileId);
      if photoUrl.None? {
        return None;
      }
      mediaUrls := mediaUrls + [photoUrl.value];
      if messageText == "" {
        messageText := PhotoPlaceholder;
      }
    }
    ghost var photoPart := if HasPhoto(m) then [fileUrl(LargestPhoto(m).fileId).value] else [];
    assert mediaUrls == photoPart;

    if m.voice.Some? {
      var voiceUrl := fileUrl(m.voice.value.fileId);
      if voiceUrl.None? {
        return None;
      }
      mediaUrls := mediaUrls + [voiceUrl.value];
      if messageText == "" {
        messageText := VoicePlaceholder;
      }
    }
    ghost var voicePart := photoPart + if m.voice.Some? then [fileUrl(m.voice.value.fileId).value] else [];
    assert mediaUrls == voicePart;

    if m.video.Some? {
      var videoUrl := fileUrl(m.video.value.fileId);
      if videoUrl.None? {
        return None;
      }
      mediaUrls := mediaUrls + [videoUrl.value];
      if messageText == "" {
        messageText := VideoPlaceholder;
      }
    }
    assert mediaUrls == voicePart + if m.video.Some? then [fileUrl(m.video.value.fileId).value] else [];

    if m.document.Some? {
      var docUrl := fileUrl(m.document.value.fileId);
      if docUrl.None? {
        return None;
      }
      mediaUrls := mediaUrls + [docUrl.value];
      if messageText == "" {
        messageText := DocumentPlaceholder(m.document.value);
      }
    }

    var userInfo := UserInfo(m.from);
    r := Some(AgentInput("Message from " + userInfo + ": " + messageText,
                         if |mediaUrls| > 0 then Some(mediaUrls) else None,
                         sessionId));
  }

  /** Each chat gets its own agent session. */
  lemma SessionPerChat(a: Message, b: Message)
    requires a.chat.id != b.chat.id
    ensures SessionPrefix + IntToString(a.chat.id) != SessionPrefix + IntToString(b.chat.id)
  {
    if SessionPrefix + IntToString(a.chat.id) == SessionPrefix + IntToString(b.chat.id) {
      PrefixedIntInjective(SessionPrefix, a.chat.id, b.chat.id);
    }
  }

  // ---------------------------------------------------------------------
  // formatResponseForTelegram
  // ---------------------------------------------------------------------

  const HelpSentence: string :=
    "I'm here to help you create support tickets. Please describe your issue and I'll gather the necessary information."

  /** The first line of each kind of reply. */
  const FinalTicketHeading: string := "\U{2705} *Support Ticket Created!*"
  const ClarificationHeading: string := "\U{1F914} *I need a bit more information:*"
  const DraftHeading: string := "\U{1F4DD} *Draft Ticket Prepared:*"
  const AnalysisHeading: string := "\U{1F50D} *Analysis Complete:*"

  const IdLabel: string := "\n\n\U{1F4CB} *Ticket ID:* `"
  const SummaryLabel: string := "`\n\U{1F4DD} *Summary:* "
  const PriorityLabel: string := "\n\U{1F525} *Priority:* "
  const EtaLabel: string := "\n\U{23F0} *Estimated Resolution:* "
  const FinalTicketClosing: string :=
    "\n\nYour ticket has been logged and our support team will be in touch soon. Is there anything else I can help you with?"

  const BlankLine: string := "\n\n"
  const ClarificationClosing: string :=
    "\n\nPlease provide the additional details so I can create an accurate support ticket for you."
  const DraftClosing: string :=
    "\n\nWould you like me to create this ticket, or do you need to add more details?"

  /** The ticket-created confirmation: it shows the id, the summary, the priority and the estimate. */
  function FinalTicketReply(id: string, summary: string, priority: string, eta: string): (r: string)
    ensures FinalTicketHeading <= r
    ensures IsInfix(id, r) && IsInfix(summary, r) && IsInfix(priority, r) && IsInfix(eta, r)
  {
    var parts := [FinalTicketHeading, IdLabel, id, SummaryLabel, summary, PriorityLabel, priority, EtaLabel, eta, FinalTicketClosing];
    InfixOfPiece(parts, 2);
    InfixOfPiece(parts, 4);
    InfixOfPiece(parts, 6);
    InfixOfPiece(parts, 8);
    Concat(parts)
  }

  /** The request for more details: it shows the assistant's question. */
  function ClarificationReply(primary: string): (r: string)
    ensures ClarificationHeading <= r
    ensures IsInfix(primary, r)
  {
    var parts := [ClarificationHeading, BlankLine, primary, ClarificationClosing];
    InfixOfPiece(parts, 2);
    Concat(parts)
  }

  /** The draft offer: it shows the draft's summary line and the routing line. */
  function DraftReply(primary: string, secondary: string): (r: string)
    ensures DraftHeading <= r
    ensures IsInfix(primary, r) && IsInfix(secondary, r)
  {
    var parts := [DraftHeading, BlankLine, primary, BlankLine, secondary, DraftClosing];
    InfixOfPiece(parts, 2);
    InfixOfPiece(parts, 4);
    Concat(parts)
  }

  /** The analysis report: it shows the summary line and the routing line. */
  function AnalysisReply(primary: string, secondary: string): (r: string)
    ensures AnalysisHeading <= r
    ensures IsInfix(primary, r) && IsInfix(secondary, r)
  {
    var parts := [AnalysisHeading, BlankLine, primary, BlankLine, secondary];
    InfixOfPiece(parts, 2);
    InfixOfPiece(parts, 4);
    Concat(parts)
  }

  /**
   * `formatResponseForTelegram`: the heading names the kind of reply, and the
   * reply is never empty. A final ticket must carry its ticket (the source
   * reads `ticket.id` unguarded); every envelope the builder makes does.
   */
  function FormatResponse<R>(e: Envelope<R>): (reply: string)
    requires e.state.phase == FinalTicket ==> e.ticket.Some?
    ensures e.state.phase == FinalTicket ==> FinalTicketHeading <= reply
    ensures e.state.phase == Clarification ==> ClarificationHeading <= reply
    ensures e.state.phase == TicketDraft ==> DraftHeading <= reply
    ensures e.state.phase == AnalysisOnly ==> AnalysisHeading <= reply
    ensures e.state.phase == Generic ==> reply != ""
  {
    match e.state.phase
    case FinalTicket =>
      var t := e.ticket.value;
      FinalTicketReply(Interpolate(t.id), t.summary, ToUpperAscii(PriorityName(t.priority)),
                       OrElse(t.estimatedResolutionTime, "TBD"))
    case Clarification => ClarificationReply(e.display.primaryText)
    case TicketDraft => DraftReply(e.display.primaryText, OrElse(e.display.secondaryText, ""))
    case AnalysisOnly => AnalysisReply(e.display.primaryText, OrElse(e.display.secondaryText, ""))
    case Generic => OrElse(Some(e.display.primaryText), HelpSentence)
  }

  /** A created ticket's reply shows its id, summary, upper-cased priority and estimate ("TBD" when unset). */
  lemma FinalTicketReplyShowsTicket<R>(e: Envelope<R>)
    requires e.state.phase == FinalTicket && e.ticket.Some?
    ensures FinalTicketHeading <= FormatResponse(e)
    ensures var t := e.ticket.value;
      && IsInfix(Interpolate(t.id), FormatResponse(e))
      && IsInfix(t.summary, FormatResponse(e))
      && IsInfix(ToUpperAscii(PriorityName(t.priority)), FormatResponse(e))
      && IsInfix(OrElse(t.estimatedResolutionTime, "TBD"), FormatResponse(e))
  {
  }

  /** A clarification reply asks for more information and shows the question. */
  lemma ClarificationReplyShowsQuestion<R>(e: Envelope<R>)
    requires e.state.phase == Clarification
    ensures ClarificationHeading <= FormatResponse(e)
    ensures IsInfix(e.display.primaryText, FormatResponse(e))
  {
  }

  /** A draft reply shows the summary line and the routing line (or nothing in its place). */
  lemma DraftReplyShowsDisplay<R>(e: Envelope<R>)
    requires e.state.phase == TicketDraft
    ensures DraftHeading <= FormatResponse(e)
    ensures IsInfix(e.display.primaryText, FormatResponse(e))
    ensures IsInfix(OrElse(e.display.secondaryText, ""), FormatResponse(e))
  {
  }

  /** An analysis reply shows the summary line and the routing line (or nothing in its place). */
  lemma AnalysisReplyShowsDisplay<R>(e: Envelope<R>)
    requires e.state.phase == AnalysisOnly
    ensures AnalysisHeading <= FormatResponse(e)
    ensures IsInfix(e.display.primaryText, FormatResponse(e))
    ensures IsInfix(OrElse(e.display.secondaryText, ""), FormatResponse(e))
  {
  }

  /** Any other envelope is answered with its own text, or with the help sentence when that is empty. */
  lemma GenericReplyIsText<R>(e: Envelope<R>)
    requires e.state.phase == Generic
    ensures e.display.primaryText != "" ==> FormatResponse(e) == e.display.primaryText
    ensures e.display.primaryText == "" ==> FormatResponse(e) == HelpSentence
  {
  }

  /**
   * The builder never leaves the primary text empty, so a generic envelope it
   * built is answered with its own text and never with the help sentence.
   */
  lemma BuiltGenericReplyIsText(resp: AgentResponse, opts: BuildOptions)
    requires Build(resp, opts).state.phase == Generic
    ensures FormatResponse(Build(resp, opts)) == Build(resp, opts).display.primaryText
  {
  }

  /** The priority as the confirmation shows it. */
  lemma PriorityShownUpperCase(p: Priority)
    ensures ToUpperAscii(PriorityName(p)) == match p
      case Low => "LOW" case Medium => "MEDIUM" case High => "HIGH" case Critical => "CRITICAL"
  {
  }

  // ---------------------------------------------------------------------
  // handleWebhook
  // ---------------------------------------------------------------------

  /** What the handler takes from its deployment: the version constants and the `MODEL_ID` variable. */
  datatype Deployment = Deployment(agentVersion: string, schemaVersion: string, modelIdEnv: Option<string>)

  datatype Reply = Reply(chatId: int, text: string)

  /**
   * The effect of one webhook request: the HTTP status and `ok` flag of the
   * acknowledgement, the text the agent was asked about (`None` when it was
   * not invoked) and the message sent back to the chat.
   */
  datatype WebhookOutcome = WebhookOutcome(status: int, ok: bool, agentInput: Option<string>, reply: Option<Reply>)

  /** The prefix of a run id, followed by the update id. */
  const RunIdPrefix: string := "telegram_"

  /** The model used when `MODEL_ID` is unset or empty. */
  const DefaultModelId: string := "gpt-4o-mini"

  /**
   * The options the handler passes to the builder: the deployment's versions,
   * a model id that is never empty, the fixed temperature, and a run id per
   * update.
   */
  function TelegramOptions(update: Update, env: Deployment): (opts: BuildOptions)
    ensures opts.agentVersion == env.agentVersion && opts.schemaVersion == env.schemaVersion
    ensures Truthy(opts.modelId)
    ensures Truthy(env.modelIdEnv) ==> opts.modelId == env.modelIdEnv
    ensures !Truthy(env.modelIdEnv) ==> opts.modelId == Some(DefaultModelId)
    ensures opts.temperature == Some(0.7)
    ensures opts.compiledFromWorkflow == Some(false)
    ensures opts.runId.Some? && RunIdPrefix <= opts.runId.value
  {
    BuildOptions(Some(RunIdPrefix + IntToString(update.updateId)), env.agentVersion, env.schemaVersion,
                 Some(OrElse(env.modelIdEnv, DefaultModelId)), Some(0.7), Some(false))
  }

  /** Each update gets its own run id. */
  lemma RunPerUpdate(a: Update, b: Update, env: Deployment)
    requires a.updateId != b.updateId
    ensures TelegramOptions(a, env).runId != TelegramOptions(b, env).runId
  {
    if TelegramOptions(a, env).runId == TelegramOptions(b, env).runId {
      PrefixedIntInjective(RunIdPrefix, a.updateId, b.updateId);
    }
  }

  const ErrorApology: string :=
    "Sorry, I encountered an error while processing your request. Please try again or contact support if the issue persists."

  /**
   * The `catch` branch: a 500 acknowledgement, and an apology to the chat
   * unless its id is falsy (zero).
   */
  function FailureOutcome(chatId: int, agentInput: Option<string>): (out: WebhookOutcome)
    ensures out.status == 500 && !out.ok && out.agentInput == agentInput
    ensures out.reply.Some? <==> chatId != 0
    ensures out.reply.Some? ==> out.reply.value == Reply(chatId, ErrorApology)
  {
    WebhookOutcome(500, false, agentInput, if chatId != 0 then Some(Reply(chatId, ErrorApology)) else None)
  }

  /**
   * `handleWebhook`. `agent` is the support agent's `generate`, `None` when
   * generation fails; a failed file lookup or a failed generation lands in
   * the `catch` branch.
   */
  method HandleWebhook(update: Update, fileUrl: string -> Option<string>, agent: string -> Option<AgentResponse>, env: Deployment)
    returns (out: WebhookOutcome)
    ensures out.ok <==> out.status == 200
    ensures out.status == 200 || out.status == 500
    ensures update.message.None? ==> out == WebhookOutcome(200, true, None, None)
    ensures update.message.Some? ==> var m := update.message.value;
      && (out.reply.Some? ==> out.reply.value.chatId == m.chat.id)
      && (!out.ok ==> (out.reply.Some? <==> m.chat.id != 0))
      && (!out.ok && out.reply.Some? ==> out.reply.value.text == ErrorApology)
    ensures update.message.Some? && LookupFails(update.message.value, fileUrl) ==>
      out.status == 500 && out.agentInput.None?
    ensures update.message.Some? && !LookupFails(update.message.value, fileUrl) ==>
      var m := update.message.value;
      var text := "Message from " + UserInfo(m.from) + ": " + MessageText(m);
      && out.agentInput == Some(text)
      && (agent(text).None? ==> out.status == 500)
      && (agent(text).Some? ==>
            && out.status == 200
            && out.reply == Some(Reply(m.chat.id, FormatResponse(Build(agent(text).value, TelegramOptions(update, env))))))
  {
    if update.message.None? {
      return WebhookOutcome(200, true, None, None);
    }
    var message := update.message.value;
    var chatId := message.chat.id;
    var input := ProcessMessage(message, fileUrl);
    if input.None? {
      return FailureOutcome(chatId, None);
    }
    var text := input.value.text;
    var response := agent(text);
    if response.None? {
      return FailureOutcome(chatId, Some(text));
    }
    var canonicalResponse := Build(response.value, TelegramOptions(update, env));
    var telegramMessage := FormatResponse(canonicalResponse);
    out := WebhookOutcome(200, true, Some(text), Some(Reply(chatId, telegramMessage)));
  }
}
