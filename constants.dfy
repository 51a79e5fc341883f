/** The enumerations of api/core/constants.py, the event names and queues of
    api/messaging/constants.py and the canvas node types of
    api/canvases/constants.py. The database stores the string values; each
    enumeration gives its stored value through `Value()`. */
module Constants {

  import opened Common

  /** Feasibility assessment of a research topic. */
  datatype FeasibilityStatus = HIGH | MEDIUM | LOW
  {
    function Value(): string
    {
      match this
      case HIGH => "HIGH"
      case MEDIUM => "MEDIUM"
      case LOW => "LOW"
    }
  }

  /** Reads a stored feasibility value back; None for anything not in the enumeration. */
  function ParseFeasibility(s: string): (r: Option<FeasibilityStatus>)
    ensures r.Some? ==> r.value.Value() == s
    ensures forall f: FeasibilityStatus :: f.Value() == s ==> r == Some(f)
  {
    if s == "HIGH" then Some(HIGH)
    else if s == "MEDIUM" then Some(MEDIUM)
    else if s == "LOW" then Some(LOW)
    else None
  }

  /** Roles of chat participants. */
  datatype ParticipantRole = USER | SYSTEM | AI_AGENT
  {
    function Value(): string
    {
      match this
      case USER => "user"
      case SYSTEM => "system"
      case AI_AGENT => "ai-agent"
    }
  }

  /** Workflow status tokens of keywords and scope elements. */
  datatype EntityStatus = USER_DRAFT | AI_EXTRACTED | LOCKED | ON_HOLD | ARCHIVED
  {
    function Value(): string
    {
      match this
      case USER_DRAFT => "USER_DRAFT"
      case AI_EXTRACTED => "AI_EXTRACTED"
      case LOCKED => "LOCKED"
      case ON_HOLD => "ON_HOLD"
      case ARCHIVED => "ARCHIVED"
    }
  }

  /** Phases of the Information Search Process. */
  datatype ISPStep = DEFINITION | EXPLORATION | FORMULATION | COLLECTION | PRESENTATION
  {
    function Value(): string
    {
      match this
      case DEFINITION => "DEFINITION"
      case EXPLORATION => "EXPLORATION"
      case FORMULATION => "FORMULATION"
      case COLLECTION => "COLLECTION"
      case PRESENTATION => "PRESENTATION"
    }
  }

  /** Node types of the conceptual canvas. */
  datatype NodeType = FOCUS | RESOURCE | CONCEPT | INSIGHT | QUERY | GROUP | NAVIGATION
  {
    function Value(): string
    {
      match this
      case FOCUS => "FOCUS"
      case RESOURCE => "RESOURCE"
      case CONCEPT => "CONCEPT"
      case INSIGHT => "INSIGHT"
      case QUERY => "QUERY"
      case GROUP => "GROUP"
      case NAVIGATION => "NAVIGATION"
    }
  }

  /** How solid a canvas node is drawn. */
  datatype NodeSolidity = SOLID | PULSING | DIMMED
  {
    function Value(): string
    {
      match this
      case SOLID => "SOLID"
      case PULSING => "PULSING"
      case DIMMED => "DIMMED"
    }
  }

  /** Broker queues. */
  const DefaultQueue: string := "default"
  const StreamQueue: string := "stream"

  /** The event that asks the Explorer Agent for a streamed reply, and its queue. */
  const InitiationEAStreamRequestName: string := "handle_initiation_ea_stream_request_event"
  const InitiationEAStreamRequestQueue: string := StreamQueue

  /** The event published when a streamed reply is complete, and its queue. */
  const InitiationEAStreamCompletedName: string := "handle_initiation_ea_stream_complete_event"
  const InitiationEAStreamCompletedQueue: string := DefaultQueue

  /** The (still unnamed) event for a computed structured-knowledge response. */
  const InitiationSKEResponseComputedName: string := ""
  const InitiationSKEResponseComputedQueue: string := DefaultQueue

  /** The event type published when dichotomy suggestions are computed.
      api/agents/tasks.py imports it, but api/messaging/constants.py does not
      define it, so its value here is the model's own choice: the constant's
      name. */
  const DichotomySuggestionCompleted: string := "DICHOTOMY_SUGGESTION_COMPLETED"

  /** The stored values of each enumeration are pairwise distinct, so a stored
      value identifies its member. */
  lemma ValuesDistinct()
    ensures forall f: FeasibilityStatus, g: FeasibilityStatus :: f.Value() == g.Value() ==> f == g
    ensures forall a: EntityStatus, b: EntityStatus :: a.Value() == b.Value() ==> a == b
    ensures forall a: ISPStep, b: ISPStep :: a.Value() == b.Value() ==> a == b
    ensures forall a: ParticipantRole, b: ParticipantRole :: a.Value() == b.Value() ==> a == b
  {
  }
}
