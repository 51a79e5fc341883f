/** The research workflow records (api/workflows/models.py and the abstract
    chat entry of api/core/models.py): the workflow of one research session,
    its initiation-phase data, its chat history and its reflection logs. */
module WorkflowModels {

  import opened Common
  import opened Constants
  import opened Tables

  /** Kuhlthau's stages of the Information Search Process. */
  datatype KuhlthauStage = INITIATION | SELECTION | EXPLORATION | FORMULATION | COLLECTION | PRESENTATION
  {
    function Value(): string
    {
      match this
      case INITIATION => "INITIATION"
      case SELECTION => "SELECTION"
      case EXPLORATION => "EXPLORATION"
      case FORMULATION => "FORMULATION"
      case COLLECTION => "COLLECTION"
      case PRESENTATION => "PRESENTATION"
    }
  }

  /** `KuhlthauStage.get_emotional_state(stage)` on a stored stage value:
      only the initiation stage has a named feeling. */
  function EmotionalState(stage: string): (feeling: string)
    ensures feeling == "Uncertainty" <==> stage == INITIATION.Value()
    ensures feeling != "Uncertainty" ==> feeling == "N/A"
  {
    if stage == INITIATION.Value() then "Uncertainty" else "N/A"
  }

  /** Every stage after initiation has no named feeling. */
  lemma LaterStagesHaveNoFeeling(s: KuhlthauStage)
    requires s != INITIATION
    ensures EmotionalState(s.Value()) == "N/A"
  {
  }

  /** The control record of one research session; its primary key is the
      session id. Stage values are stored strings. */
  datatype ResearchWorkflow = ResearchWorkflow(
    sessionId: Id,
    userId: Id,
    currentStage: string,
    isActive: bool)

  /** A workflow created with only its key and owner gets the field defaults. */
  function DefaultWorkflow(sessionId: Id, userId: Id): (w: ResearchWorkflow)
    ensures w.sessionId == sessionId && w.userId == userId
    ensures w.currentStage == INITIATION.Value() && w.isActive
  {
    ResearchWorkflow(sessionId, userId, INITIATION.Value(), true)
  }

  /** The initiation-phase data of a workflow (one row per workflow, keyed by
      the workflow's session id). The first five fields are those the
      initiation helpers read and write; the phase model does not declare
      them. The last five are fields the phase model declares. */
  datatype InitiationPhaseData = InitiationPhaseData(
    stabilityScore: real,
    finalResearchQuestion: string,
    feasibilityStatus: string,
    conversationSummary: string,
    lastAnalysisSequenceNumber: int,
    keywordStabilityCount: int,
    isTransitionReady: bool,
    chatHistory: seq<Value>,
    optimizedKeywords: seq<string>,
    unverifiedKeywords: seq<string>)

  /** The record `get_or_create` makes: the helper's `defaults` and the
      model's field defaults. */
  const DefaultInitiationData: InitiationPhaseData :=
    InitiationPhaseData(0.0, "", LOW.Value(), "", 0, 0, false, [], [], [])

  /** The default record starts with no stability, no question, LOW
      feasibility, no summary and nothing analysed or collected. */
  lemma DefaultInitiationDataFields()
    ensures DefaultInitiationData.stabilityScore == 0.0
    ensures DefaultInitiationData.finalResearchQuestion == "" && DefaultInitiationData.conversationSummary == ""
    ensures ParseFeasibility(DefaultInitiationData.feasibilityStatus) == Some(LOW)
    ensures DefaultInitiationData.lastAnalysisSequenceNumber == 0 && DefaultInitiationData.keywordStabilityCount == 0
    ensures !DefaultInitiationData.isTransitionReady
    ensures DefaultInitiationData.chatHistory == [] && DefaultInitiationData.optimizedKeywords == []
    ensures DefaultInitiationData.unverifiedKeywords == []
  {
  }

  /** A chat message of a session (stored with `objectId` = the session id).
      `sequenceNumber` is a positive-integer column, so never negative. */
  datatype ChatHistoryEntry = ChatHistoryEntry(role: string, content: string, sequenceNumber: nat)

  /** A reflection log of a session. */
  datatype ReflectionLog = ReflectionLog(title: string, content: string, status: string)

  /** The status a reflection log is created with. */
  const DraftStatus: string := "DRAFT"

  // ---------------------------------------------------------------------------
  // `ordering = ['sequence_number']`: chat entries are read in sequence order.

  predicate SortedBySequence(s: seq<Record<ChatHistoryEntry>>)
  {
    forall i, j | 0 <= i < j < |s| :: s[i].fields.sequenceNumber <= s[j].fields.sequenceNumber
  }

  /** Inserts `x` before the first entry whose number is not smaller; the
      front becomes `x` or stays the old front. */
  function InsertBySequence(x: Record<ChatHistoryEntry>, s: seq<Record<ChatHistoryEntry>>): (r: seq<Record<ChatHistoryEntry>>)
    ensures |r| == |s| + 1
    ensures r[0] == x || (s != [] && r[0] == s[0])
  {
    if s == [] then [x]
    else if x.fields.sequenceNumber <= s[0].fields.sequenceNumber then [x] + s
    else [s[0]] + InsertBySequence(x, s[1..])
  }

  /** The entries in sequence order (entries with equal numbers keep their
      stored order). */
  function OrderBySequence(s: seq<Record<ChatHistoryEntry>>): (r: seq<Record<ChatHistoryEntry>>)
    ensures |r| == |s|
  {
    if s == [] then [] else InsertBySequence(s[0], OrderBySequence(s[1..]))
  }

  lemma {:induction false} InsertBySequenceKeeps(x: Record<ChatHistoryEntry>, s: seq<Record<ChatHistoryEntry>>)
    ensures multiset(InsertBySequence(x, s)) == multiset(s) + multiset{x}
  {
    if s != [] && x.fields.sequenceNumber > s[0].fields.sequenceNumber {
      InsertBySequenceKeeps(x, s[1..]);
      assert s == [s[0]] + s[1..];
    }
  }

  lemma {:induction false} InsertBySequenceSorted(x: Record<ChatHistoryEntry>, s: seq<Record<ChatHistoryEntry>>)
    requires SortedBySequence(s)
    ensures SortedBySequence(InsertBySequence(x, s))
  {
    if s != [] && x.fields.sequenceNumber > s[0].fields.sequenceNumber {
      var rest := InsertBySequence(x, s[1..]);
      InsertBySequenceSorted(x, s[1..]);
      InsertBySequenceKeeps(x, s[1..]);
      forall k | 0 <= k < |rest| ensures s[0].fields.sequenceNumber <= rest[k].fields.sequenceNumber {
        assert rest[k] in multiset(rest);
        if rest[k] != x {
          assert rest[k] in multiset(s[1..]);
          var m :| 0 <= m < |s[1..]| && s[1..][m] == rest[k];
          assert s[m + 1] == rest[k];
        }
      }
      var r := [s[0]] + rest;
      forall i, j | 0 <= i < j < |r| ensures r[i].fields.sequenceNumber <= r[j].fields.sequenceNumber {
        if i > 0 {
          assert r[i] == rest[i - 1] && r[j] == rest[j - 1];
        } else {
          assert r[j] == rest[j - 1];
        }
      }
    }
  }

  /** Ordering keeps every entry, as often as it occurs, and sorts them by
      sequence number. */
  lemma {:induction false} OrderBySequenceSorts(s: seq<Record<ChatHistoryEntry>>)
    ensures SortedBySequence(OrderBySequence(s))
    ensures multiset(OrderBySequence(s)) == multiset(s)
  {
    if s != [] {
      OrderBySequenceSorts(s[1..]);
      InsertBySequenceSorted(s[0], OrderBySequence(s[1..]));
      InsertBySequenceKeeps(s[0], OrderBySequence(s[1..]));
      assert s == [s[0]] + s[1..];
    }
  }

  /** `ChatHistoryEntry.objects.filter(workflow_state_id=session)`. */
  function ChatHistoryOf(chat: seq<Record<ChatHistoryEntry>>, session: Id): (r: seq<Record<ChatHistoryEntry>>)
    ensures |r| <= |chat|
  {
    OrderBySequence(Owned(chat, session))
  }

  /** The history of a session holds exactly that session's entries, each as
      often as it is stored, in sequence order. */
  lemma ChatHistoryOfSession(chat: seq<Record<ChatHistoryEntry>>, session: Id)
    ensures SortedBySequence(ChatHistoryOf(chat, session))
    ensures multiset(ChatHistoryOf(chat, session)) == multiset(Owned(chat, session))
    ensures forall e :: e in ChatHistoryOf(chat, session) <==> e in chat && e.objectId == session
  {
    var h := ChatHistoryOf(chat, session);
    OrderBySequenceSorts(Owned(chat, session));
    forall e ensures e in h <==> e in Owned(chat, session) {
      assert e in h <==> e in multiset(h);
      assert e in Owned(chat, session) <==> e in multiset(Owned(chat, session));
    }
  }
}
