/**
 * The closed set of tool identifiers (`TOOL_IDS` and the `ToolId` union type):
 * each constructor stands for one member of the frozen constant object, and
 * `Name` gives the string literal it carries.
 */
module ToolIds {
  import opened Wrappers

  datatype ToolId = ExtractIssue | AnalyzeTicket | RequestClarification | CreateTicket | TriggerWorkflow

  /** The string literal of each identifier. */
  function Name(t: ToolId): string {
    match t
    case ExtractIssue => "extractIssue"
    case AnalyzeTicket => "analyzeTicket"
    case RequestClarification => "requestClarification"
    case CreateTicket => "createTicket"
    case TriggerWorkflow => "triggerWorkflow"
  }

  /** Membership in the `ToolId` union: the identifier a string is, if it is one. */
  function FromName(s: string): (r: Option<ToolId>)
    ensures r.Some? ==> Name(r.value) == s
  {
    if s == "extractIssue" then Some(ExtractIssue)
    else if s == "analyzeTicket" then Some(AnalyzeTicket)
    else if s == "requestClarification" then Some(RequestClarification)
    else if s == "createTicket" then Some(CreateTicket)
    else if s == "triggerWorkflow" then Some(TriggerWorkflow)
    else None
  }

  /** The five literals are pairwise distinct, so a name identifies its tool. */
  lemma NamesDistinct(a: ToolId, b: ToolId)
    ensures Name(a) == Name(b) <==> a == b
  {
  }

  /** `ToolId` is exactly the union of the five literals. */
  lemma FromNameExact(s: string)
    ensures FromName(s).Some? <==> exists t: ToolId :: Name(t) == s
    ensures forall t: ToolId :: FromName(Name(t)) == Some(t)
  {
    if FromName(s).None? {
      forall t: ToolId ensures Name(t) != s {
        match t
        case ExtractIssue =>
        case AnalyzeTicket =>
        case RequestClarification =>
        case CreateTicket =>
        case TriggerWorkflow =>
      }
    }
  }

  /** The identifiers the envelope builder looks up, in the order it looks them up. */
  const LookedUp: seq<ToolId> := [ExtractIssue, AnalyzeTicket, RequestClarification, CreateTicket]

  /** The builder looks up four distinct identifiers, and every identifier except `TriggerWorkflow`. */
  lemma LookedUpExactly(t: ToolId)
    ensures t in LookedUp <==> t != TriggerWorkflow
    ensures |LookedUp| == 4
    ensures forall i, j :: 0 <= i < j < |LookedUp| ==> LookedUp[i] != LookedUp[j]
  {
  }
}
