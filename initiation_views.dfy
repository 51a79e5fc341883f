/** The initiation-phase views of api/workflows/views/initiation.py as
    decision functions from a request and the store to a response, the store
    afterwards and the events published: keyword and scope-element POST, the
    refined-topic GET and the chat-input POST. Request bodies are string
    maps; serializers are passed in as functions from rows to JSON values. */
module InitiationViews {

  import opened Common
  import opened Constants
  import opened Text
  import opened Tables
  import opened KnowledgeModels
  import opened WorkflowModels
  import opened Http
  import opened Messaging
  import opened WorkflowUtils
  import opened InitiationUtils

  /** The session id as it appears in messages and payloads (`str(session_id)`). */
  function SessionText(session: Id): (s: string)
    ensures ParseNat(s) == Some(session)
  {
    ParseNatToString(session);
    NatToString(session)
  }

  /** The views' `except ResearchWorkflowState.DoesNotExist` clause around a
      create helper. The helpers catch a missing workflow themselves and
      return None, so the clause does not fire for them; every other
      exception escapes the view. */
  function CatchStateMissing<T>(e: Exception, session: Id): (o: Outcome<Response<T>>)
    ensures e == DoesNotExist ==> o == Ok(Response(NOT_FOUND, Message("detail", "Research workflow state not found for session " + SessionText(session) + ".")))
    ensures e != DoesNotExist ==> o == Raised(e)
  {
    if e == DoesNotExist then Ok(Response(NOT_FOUND, Message("detail", "Research workflow state not found for session " + SessionText(session) + ".")))
    else Raised(e)
  }

  // ---------------------------------------------------------------------------
  // SessionTopicKeywordView.post

  function KeywordPost(data: map<string, string>, session: Id, workflows: map<Id, ResearchWorkflow>, keywords: seq<Record<TopicKeyword>>)
    : (h: Handled<seq<Record<TopicKeyword>>, seq<Record<TopicKeyword>>>)
    ensures !Given(Field(data, "text")) ==> h == Handled(Ok(Response(BAD_REQUEST, Message("detail", "text is required."))), keywords)
    ensures Given(Field(data, "text")) ==>
      var spec := CreateTopicKeyword(workflows, keywords, session, data["text"], Field(data, "status"), true);
      h.state == RowsAfter(spec, keywords)
      && (spec.Ok? ==> h.outcome == Ok(Response(CREATED, ListingBody(spec.value.listing))))
      && (spec.Raised? ==> h.outcome == Raised(spec.error))
  {
    var text := Field(data, "text");
    if !Given(text) then Handled(Ok(Response(BAD_REQUEST, Message("detail", "text is required."))), keywords)
    else match CreateTopicKeyword(workflows, keywords, session, text.value, Field(data, "status"), true)
      case Ok(w) => Handled(Ok(Response(CREATED, ListingBody(w.listing))), w.rows)
      case Raised(e) => Handled(CatchStateMissing(e, session), keywords)
  }

  /** With a text given, the POST answers 201 with the workflow's keywords
      (the new one first, USER_DRAFT unless a status is sent) when the
      workflow exists and lacks the label; 201 with an empty body and no
      write when the session is unknown; and lets the IntegrityError of a
      duplicate label escape (a server error) without writing. */
  lemma KeywordPostOutcomes(data: map<string, string>, session: Id, workflows: map<Id, ResearchWorkflow>, keywords: seq<Record<TopicKeyword>>)
    requires Given(Field(data, "text")) && KeywordTableValid(keywords)
    ensures var h := KeywordPost(data, session, workflows, keywords);
      KeywordTableValid(h.state)
      && (session !in workflows ==> h == Handled(Ok(Response(CREATED, NoBody)), keywords))
      && (session in workflows && KeywordExists(keywords, session, data["text"]) ==>
            h.outcome == Raised(IntegrityError) && h.state == keywords && Served(h.outcome) == SERVER_ERROR)
      && (session in workflows && !KeywordExists(keywords, session, data["text"]) ==>
            h.outcome.Ok? && h.outcome.value.status == CREATED
            && h.state[1..] == keywords && h.state[0].objectId == session
            && h.state[0].fields.labelText == data["text"]
            && h.state[0].fields.status == (if "status" in data then data["status"] else USER_DRAFT.Value())
            && h.outcome.value.body == Data([h.state[0]] + Owned(keywords, session)))
  {
    var spec := CreateTopicKeyword(workflows, keywords, session, data["text"], Field(data, "status"), true);
    if spec.Ok? {
      CreateTopicKeywordValid(workflows, keywords, session, data["text"], Field(data, "status"));
    }
  }

  // ---------------------------------------------------------------------------
  // SessionTopicScopeElementView.post

  /** The request's `value` goes to the helper's label parameter and the
      request's `label` to its rationale parameter, as in the source. */
  function ScopePost(data: map<string, string>, session: Id, workflows: map<Id, ResearchWorkflow>, scopes: seq<Record<TopicScopeElement>>)
    : (h: Handled<seq<Record<TopicScopeElement>>, seq<Record<TopicScopeElement>>>)
    ensures !Given(Field(data, "label")) ==> h == Handled(Ok(Response(BAD_REQUEST, Message("detail", "label is required."))), scopes)
    ensures Given(Field(data, "label")) && !Given(Field(data, "value")) ==>
      h == Handled(Ok(Response(BAD_REQUEST, Message("detail", "value is required."))), scopes)
    ensures Given(Field(data, "label")) && Given(Field(data, "value")) ==>
      var spec := CreateTopicScopeElement(workflows, scopes, session, data["value"], data["label"], Field(data, "status"), true);
      h.state == RowsAfter(spec, scopes)
      && (spec.Ok? ==> h.outcome == Ok(Response(CREATED, ListingBody(spec.value.listing))))
      && (spec.Raised? ==> h.outcome == Raised(spec.error))
  {
    var scopeLabel := Field(data, "label");
    var scopeValue := Field(data, "value");
    if !Given(scopeLabel) then Handled(Ok(Response(BAD_REQUEST, Message("detail", "label is required."))), scopes)
    else if !Given(scopeValue) then Handled(Ok(Response(BAD_REQUEST, Message("detail", "value is required."))), scopes)
    else match CreateTopicScopeElement(workflows, scopes, session, scopeValue.value, scopeLabel.value, Field(data, "status"), true)
      case Ok(w) => Handled(Ok(Response(CREATED, ListingBody(w.listing))), w.rows)
      case Raised(e) => Handled(CatchStateMissing(e, session), scopes)
  }

  /** A created scope element stores the request's `value` as its label and
      the request's `label` as its rationale; the table stays valid. */
  lemma ScopePostSwapsArguments(data: map<string, string>, session: Id, workflows: map<Id, ResearchWorkflow>, scopes: seq<Record<TopicScopeElement>>)
    requires Given(Field(data, "label")) && Given(Field(data, "value")) && ScopeTableValid(scopes)
    requires session in workflows && !ScopeExists(scopes, session, data["value"], data["label"])
    ensures var h := ScopePost(data, session, workflows, scopes);
      h.outcome.Ok? && h.outcome.value.status == CREATED
      && ScopeTableValid(h.state) && h.state[1..] == scopes
      && h.state[0].objectId == session
      && h.state[0].fields.labelText == data["value"] && h.state[0].fields.rationale == data["label"]
  {
    CreateTopicScopeElementValid(workflows, scopes, session, data["value"], data["label"], Field(data, "status"));
  }

  // ---------------------------------------------------------------------------
  // RefinedTopicView.get

  /** As written: the helper is called without a serializer class, so it
      raises ValueError, which the view does not catch; every request is a
      server error. */
  function RefinedTopicGetAsWritten(phase: map<Id, InitiationPhaseData>, keywords: seq<Record<TopicKeyword>>, scopes: seq<Record<TopicScopeElement>>, session: Id)
    : (o: Outcome<Response<RefinedTopic>>)
    ensures o == Raised(SerializerMissing) && Served(o) == SERVER_ERROR
  {
    match GetRefinedTopic(phase, keywords, scopes, session, false)
    case Ok(t) => Ok(Response(OK, Data(t)))
    case Raised(DoesNotExist) => Ok(Response(NOT_FOUND, Message("detail", "Initiation data not found for session " + SessionText(session) + ".")))
    case Raised(e) => Raised(e)
  }

  /** As intended: the serializer class is passed, its fields read the
      namespace's attributes (`InitiationUtils.RefinedTopicFields`), and the
      view answers the helper's data as it is, without serializing it a
      second time. An existing phase record then answers 200 with the
      refined topic and a missing one 404. Neither half alone is enough: the
      fields as declared make the helper's pass raise, and mapped fields make
      the view's second pass raise (`InitiationUtils.RefinedTopicRendering`). */
  function RefinedTopicGet(phase: map<Id, InitiationPhaseData>, keywords: seq<Record<TopicKeyword>>, scopes: seq<Record<TopicScopeElement>>, session: Id)
    : (o: Outcome<Response<RefinedTopic>>)
    ensures o.Ok?
    ensures o.value.status == OK <==> session in phase
    ensures session in phase ==> (o.value.body == Data(GetRefinedTopic(phase, keywords, scopes, session, true).value)
      && o.value.body.data.resourceSuggestion == ResourceSuggestion(phase[session].feasibilityStatus))
    ensures session !in phase ==> o.value == Response(NOT_FOUND, Message("detail", "Initiation data not found for session " + SessionText(session) + "."))
  {
    match GetRefinedTopic(phase, keywords, scopes, session, true)
    case Ok(t) => Ok(Response(OK, Data(t)))
    case Raised(DoesNotExist) => Ok(Response(NOT_FOUND, Message("detail", "Initiation data not found for session " + SessionText(session) + ".")))
    case Raised(e) => Raised(e)
  }

  /** The two differ on every session that has a phase record. */
  lemma RefinedTopicGetDiscrepancy(phase: map<Id, InitiationPhaseData>, keywords: seq<Record<TopicKeyword>>, scopes: seq<Record<TopicScopeElement>>, session: Id)
    requires session in phase
    ensures Served(RefinedTopicGetAsWritten(phase, keywords, scopes, session)) == SERVER_ERROR
    ensures Served(RefinedTopicGet(phase, keywords, scopes, session)) == OK
  {
  }

  // ---------------------------------------------------------------------------
  // WorkflowChatInputView.post

  /** The serializers of the rows that travel in the chat payload. */
  datatype Serializers = Serializers(
    keyword: Record<TopicKeyword> -> Value,
    scope: Record<TopicScopeElement> -> Value,
    chatEntry: Record<ChatHistoryEntry> -> Value)

  /** The session's LOCKED keywords: each as often as the table holds
      it, in table order. */
  function LockedKeywords(keywords: seq<Record<TopicKeyword>>, session: Id): (out: seq<Record<TopicKeyword>>)
    ensures forall k :: k in out <==> k in keywords && k.objectId == session && k.fields.status == LOCKED.Value()
    ensures forall k :: (multiset(out)[k] ==
      if k.objectId == session && k.fields.status == LOCKED.Value() then multiset(keywords)[k] else 0)
  {
    if keywords == [] then []
    else
      assert keywords == [keywords[0]] + keywords[1..];
      var rest := LockedKeywords(keywords[1..], session);
      if keywords[0].objectId == session && keywords[0].fields.status == LOCKED.Value() then [keywords[0]] + rest else rest
  }

  /** They keep their table order. */
  lemma {:induction false} LockedKeywordsInOrder(keywords: seq<Record<TopicKeyword>>, session: Id)
    ensures Subsequence(LockedKeywords(keywords, session), keywords)
  {
    if keywords != [] {
      LockedKeywordsInOrder(keywords[1..], session);
      var rest := LockedKeywords(keywords[1..], session);
      if rest != [] {
        assert rest[0] in rest;
      }
    }
  }

  /** The session's LOCKED scope elements: each as often as the table holds
      it, in table order. */
  function LockedScopes(scopes: seq<Record<TopicScopeElement>>, session: Id): (out: seq<Record<TopicScopeElement>>)
    ensures forall e :: e in out <==> e in scopes && e.objectId == session && e.fields.status == LOCKED.Value()
    ensures forall e :: (multiset(out)[e] ==
      if e.objectId == session && e.fields.status == LOCKED.Value() then multiset(scopes)[e] else 0)
  {
    if scopes == [] then []
    else
      assert scopes == [scopes[0]] + scopes[1..];
      var rest := LockedScopes(scopes[1..], session);
      if scopes[0].objectId == session && scopes[0].fields.status == LOCKED.Value() then [scopes[0]] + rest else rest
  }

  /** They keep their table order. */
  lemma {:induction false} LockedScopesInOrder(scopes: seq<Record<TopicScopeElement>>, session: Id)
    ensures Subsequence(LockedScopes(scopes, session), scopes)
  {
    if scopes != [] {
      LockedScopesInOrder(scopes[1..], session);
      var rest := LockedScopes(scopes[1..], session);
      if rest != [] {
        assert rest[0] in rest;
      }
    }
  }

  /** The payload of the stream-request event. */
  function ChatPayload(session: Id, user: Id, message: string, role: string, d: InitiationPhaseData,
                       keywords: seq<Record<TopicKeyword>>, scopes: seq<Record<TopicScopeElement>>,
                       chat: seq<Record<ChatHistoryEntry>>, ser: Serializers): map<string, Value>
  {
    PayloadMap(session, user, message, role, d,
               MapSeq(ser.keyword, LockedKeywords(keywords, session)),
               MapSeq(ser.scope, LockedScopes(scopes, session)),
               MapSeq(ser.chatEntry, ChatHistoryOf(chat, session)))
  }

  /** The payload dictionary, over the already serialized lists. */
  function PayloadMap(session: Id, user: Id, message: string, role: string, d: InitiationPhaseData,
                      lockedKeywords: seq<Value>, lockedScopes: seq<Value>, history: seq<Value>): map<string, Value>
  {
    map[
      "session_id" := Str(SessionText(session)),
      "user_id" := Int(user),
      "user_message" := Str(message),
      "ea_agent_role_name" := Str(role),
      "final_question_draft" := Str(d.finalResearchQuestion),
      "locked_keywords_list" := List(lockedKeywords),
      "locked_scope_elements_list" := List(lockedScopes),
      "discarded_elements_list" := List([]),
      "conversation_summary_of_old_history" := Str(d.conversationSummary),
      "last_analysis_sequence_number" := Int(d.lastAnalysisSequenceNumber),
      "current_chat_history" := List(history)
    ]
  }

  /** The entries of the payload dictionary. */
  lemma PayloadMapFields(session: Id, user: Id, message: string, role: string, d: InitiationPhaseData,
                         lockedKeywords: seq<Value>, lockedScopes: seq<Value>, history: seq<Value>)
    ensures var p := PayloadMap(session, user, message, role, d, lockedKeywords, lockedScopes, history);
      p.Keys == {"session_id", "user_id", "user_message", "ea_agent_role_name", "final_question_draft",
                 "locked_keywords_list", "locked_scope_elements_list", "discarded_elements_list",
                 "conversation_summary_of_old_history", "last_analysis_sequence_number", "current_chat_history"}
      && p["session_id"].Str? && ParseNat(p["session_id"].s) == Some(session)
      && p["user_id"] == Int(user) && p["user_message"] == Str(message) && p["ea_agent_role_name"] == Str(role)
      && p["final_question_draft"] == Str(d.finalResearchQuestion)
      && p["conversation_summary_of_old_history"] == Str(d.conversationSummary)
      && p["last_analysis_sequence_number"] == Int(d.lastAnalysisSequenceNumber)
      && p["discarded_elements_list"] == List([])
      && p["locked_keywords_list"] == List(lockedKeywords)
      && p["locked_scope_elements_list"] == List(lockedScopes)
      && p["current_chat_history"] == List(history)
  {
  }

  /** `request.data.get('ea_agent_role_name', 'ExplorerAgent')`. */
  function RoleOf(data: map<string, string>): (role: string)
    ensures "ea_agent_role_name" !in data ==> role == "ExplorerAgent"
    ensures "ea_agent_role_name" in data ==> role == data["ea_agent_role_name"]
  {
    if "ea_agent_role_name" in data then data["ea_agent_role_name"] else "ExplorerAgent"
  }

  const AcceptedBody: Value := Dict(map[
    "status" := Str("processing"),
    "message" := Str("Chat input request submitted. Please await the real-time response.")])

  function StageConflict(stage: string): string
  {
    "Operation not allowed. Current stage is '" + stage + "', expected '" + DEFINITION.Value() + "' for this chat endpoint."
  }

  /** The view's outcome, the phase table after it and the events it published. */
  datatype ChatResult = ChatResult(outcome: Outcome<Response<Value>>, phase: map<Id, InitiationPhaseData>, published: seq<Publication>)

  /** The lookup's `except` clauses for a fault the database raises during
      the locked read (the transaction is rolled back). */
  function LockFailure(e: Exception): (r: Response<Value>)
    ensures e.PermissionError? ==> r == Response(FORBIDDEN, Message("error", e.message))
    ensures !e.PermissionError? && (e == Http404 || e == DoesNotExist) ==> r.status == NOT_FOUND
    ensures !e.PermissionError? && e != Http404 && e != DoesNotExist ==> r == Response(SERVER_ERROR, Message("error", "Database access error."))
  {
    if e.PermissionError? then Response(FORBIDDEN, Message("error", e.message))
    else if e == Http404 || e == DoesNotExist then Response(NOT_FOUND, Message("error", "Workflow session not found or access denied."))
    else Response(SERVER_ERROR, Message("error", "Database access error."))
  }

  /** `WorkflowChatInputView.post` as intended. `lockFault` is an error the
      database raises during the locked read, if any. Order: the message
      check (400), the owner-checked lookup (404, or 403/500 for a fault), the
      stage gate against DEFINITION (409), then one stream-request event and
      202. Creating the phase record in the lookup's committed transaction
      persists even when the gate then refuses. */
  function ChatInput(data: map<string, string>, session: Id, user: Id, workflows: map<Id, ResearchWorkflow>,
                     phase: map<Id, InitiationPhaseData>, keywords: seq<Record<TopicKeyword>>, scopes: seq<Record<TopicScopeElement>>,
                     chat: seq<Record<ChatHistoryEntry>>, ser: Serializers, lockFault: Option<Exception>): (r: ChatResult)
    ensures r.outcome.Ok?
    ensures |r.published| <= 1
    ensures r.published != [] <==> r.outcome.value.status == ACCEPTED
  {
    var message := Field(data, "user_message");
    if !Given(message) then ChatResult(Ok(Response(BAD_REQUEST, Message("error", "user_message is required."))), phase, [])
    else if lockFault.Some? then ChatResult(Ok(LockFailure(lockFault.value)), phase, [])
    else match ReadAndLock(workflows, phase, session, user)
      case (Raised(e), phase') => ChatResult(Ok(LockFailure(e)), phase', [])
      case (Ok((w, d)), phase') =>
        if w.currentStage != DEFINITION.Value() then
          ChatResult(Ok(Response(CONFLICT, Message("error", StageConflict(w.currentStage)))), phase', [])
        else
          var payload := ChatPayload(session, user, message.value, RoleOf(data), d, keywords, scopes, chat, ser);
          ChatResult(Ok(Response(ACCEPTED, Data(AcceptedBody))), phase',
                     [Publication(InitiationEAStreamRequestName, payload, Some(InitiationEAStreamRequestQueue))])
  }

  /** The checks come in order, and each refusal publishes nothing: a missing
      message is refused before any lookup (the phase table is untouched), a
      failed lookup before the stage gate, and the gate before publishing. */
  lemma ChatInputRefusals(data: map<string, string>, session: Id, user: Id, workflows: map<Id, ResearchWorkflow>,
                          phase: map<Id, InitiationPhaseData>, keywords: seq<Record<TopicKeyword>>, scopes: seq<Record<TopicScopeElement>>,
                          chat: seq<Record<ChatHistoryEntry>>, ser: Serializers, lockFault: Option<Exception>)
    ensures var r := ChatInput(data, session, user, workflows, phase, keywords, scopes, chat, ser, lockFault);
      (!Given(Field(data, "user_message")) ==> r.outcome.value.status == BAD_REQUEST && r.phase == phase && r.published == [])
      && (Given(Field(data, "user_message")) && lockFault.Some? && lockFault.value.PermissionError? ==>
            r.outcome.value.status == FORBIDDEN && r.phase == phase && r.published == [])
      && (Given(Field(data, "user_message")) && lockFault.None? && !(session in workflows && workflows[session].userId == user) ==>
            r.outcome.value.status == NOT_FOUND && r.phase == phase && r.published == [])
      && (Given(Field(data, "user_message")) && lockFault.None? && session in workflows && workflows[session].userId == user ==>
            r.phase == GetOrCreateInitiationData(phase, session).1
            && (workflows[session].currentStage != DEFINITION.Value() <==> r.outcome.value.status == CONFLICT))
  {
  }

  /** The stream-request payload carries the session (whose text parses
      back to the id), the user, the message and role, the phase record's
      question draft, summary and last analysed sequence number, the
      session's LOCKED keywords and scope elements, no discarded elements,
      and the session's chat history in sequence order. */
  lemma ChatPayloadFields(session: Id, user: Id, message: string, role: string, d: InitiationPhaseData,
                          keywords: seq<Record<TopicKeyword>>, scopes: seq<Record<TopicScopeElement>>,
                          chat: seq<Record<ChatHistoryEntry>>, ser: Serializers)
    ensures var p := ChatPayload(session, user, message, role, d, keywords, scopes, chat, ser);
      p.Keys == {"session_id", "user_id", "user_message", "ea_agent_role_name", "final_question_draft",
                 "locked_keywords_list", "locked_scope_elements_list", "discarded_elements_list",
                 "conversation_summary_of_old_history", "last_analysis_sequence_number", "current_chat_history"}
      && p["session_id"].Str? && ParseNat(p["session_id"].s) == Some(session)
      && p["user_id"] == Int(user) && p["user_message"] == Str(message) && p["ea_agent_role_name"] == Str(role)
      && p["final_question_draft"] == Str(d.finalResearchQuestion)
      && p["conversation_summary_of_old_history"] == Str(d.conversationSummary)
      && p["last_analysis_sequence_number"] == Int(d.lastAnalysisSequenceNumber)
      && p["discarded_elements_list"] == List([])
      && p["locked_keywords_list"] == List(MapSeq(ser.keyword, LockedKeywords(keywords, session)))
      && p["locked_scope_elements_list"] == List(MapSeq(ser.scope, LockedScopes(scopes, session)))
      && p["current_chat_history"] == List(MapSeq(ser.chatEntry, ChatHistoryOf(chat, session)))
  {
    PayloadMapFields(session, user, message, role, d,
                     MapSeq(ser.keyword, LockedKeywords(keywords, session)),
                     MapSeq(ser.scope, LockedScopes(scopes, session)),
                     MapSeq(ser.chatEntry, ChatHistoryOf(chat, session)));
  }

  /** An accepted request passed every check, and its one event is the
      stream request on the stream queue with the payload built from the
      request and the (found or created) phase record. The chat table is
      only read. */
  lemma ChatInputAccepted(data: map<string, string>, session: Id, user: Id, workflows: map<Id, ResearchWorkflow>,
                          phase: map<Id, InitiationPhaseData>, keywords: seq<Record<TopicKeyword>>, scopes: seq<Record<TopicScopeElement>>,
                          chat: seq<Record<ChatHistoryEntry>>, ser: Serializers, lockFault: Option<Exception>)
    requires ChatInput(data, session, user, workflows, phase, keywords, scopes, chat, ser, lockFault).outcome.value.status == ACCEPTED
    ensures Given(Field(data, "user_message")) && lockFault.None?
    ensures session in workflows && workflows[session].userId == user && workflows[session].currentStage == DEFINITION.Value()
    ensures var r := ChatInput(data, session, user, workflows, phase, keywords, scopes, chat, ser, lockFault);
      var (d, phase') := GetOrCreateInitiationData(phase, session);
      r == ChatResult(Ok(Response(ACCEPTED, Data(AcceptedBody))), phase',
        [Publication(InitiationEAStreamRequestName,
                     ChatPayload(session, user, data["user_message"], RoleOf(data), d, keywords, scopes, chat, ser),
                     Some(StreamQueue))])
  {
  }

  /** The except-chain of the locked read as written: only the workflow
      state's DoesNotExist answers 404, so Http404 falls to `except
      Exception` with every other fault and answers 500; PermissionError
      answers 403 with its message. */
  function LockFailureAsWritten(e: Exception): (r: Response<Value>)
    ensures e.PermissionError? ==> r == Response(FORBIDDEN, Message("error", e.message))
    ensures e == DoesNotExist ==> r == Response(NOT_FOUND, Message("error", "Workflow session not found or access denied."))
    ensures !e.PermissionError? && e != DoesNotExist ==> r == Response(SERVER_ERROR, Message("error", "Database access error."))
    ensures e == Http404 ==> r.status == SERVER_ERROR && LockFailure(e).status == NOT_FOUND
  {
    if e.PermissionError? then Response(FORBIDDEN, Message("error", e.message))
    else if e == DoesNotExist then Response(NOT_FOUND, Message("error", "Workflow session not found or access denied."))
    else Response(SERVER_ERROR, Message("error", "Database access error."))
  }

  /** `WorkflowChatInputView.post` as written. `get_object_or_404` raises
      Http404, which is not the `ResearchWorkflowState.DoesNotExist` the
      view catches, so a failed lookup falls to `except Exception` and
      answers 500; and `ISPStep.TOPIC_DEFINITION` does not exist, so every
      request that passes the lookup raises AttributeError at the stage gate. */
  function ChatInputAsWritten(data: map<string, string>, session: Id, user: Id, workflows: map<Id, ResearchWorkflow>,
                              phase: map<Id, InitiationPhaseData>, lockFault: Option<Exception>): (r: ChatResult)
    ensures r.published == []
    ensures Given(Field(data, "user_message")) && lockFault.Some? ==> r.outcome == Ok(LockFailureAsWritten(lockFault.value))
  {
    var message := Field(data, "user_message");
    if !Given(message) then ChatResult(Ok(Response(BAD_REQUEST, Message("error", "user_message is required."))), phase, [])
    else if lockFault.Some? then ChatResult(Ok(LockFailureAsWritten(lockFault.value)), phase, [])
    else match ReadAndLock(workflows, phase, session, user)
      case (Raised(e), phase') => ChatResult(Ok(LockFailureAsWritten(e)), phase', [])
      case (Ok(_), phase') => ChatResult(Raised(AttributeError), phase', [])
  }

  /** As written, the view never accepts a request: it answers 400, a lock
      fault's status, or a server error, and publishes nothing. */
  lemma ChatInputAsWrittenNeverAccepts(data: map<string, string>, session: Id, user: Id, workflows: map<Id, ResearchWorkflow>,
                                       phase: map<Id, InitiationPhaseData>, lockFault: Option<Exception>)
    requires Given(Field(data, "user_message")) && lockFault.None?
    ensures Served(ChatInputAsWritten(data, session, user, workflows, phase, lockFault).outcome) == SERVER_ERROR
  {
  }

  /** A request for an unknown session: as written a server error, as
      intended 404; for a known, owned session at the DEFINITION stage: as
      written a server error, as intended 202 with one published event. */
  lemma ChatInputDiscrepancy(ser: Serializers)
    ensures var data := map["user_message" := "hello"];
      Served(ChatInputAsWritten(data, 7, 1, map[], map[], None).outcome) == SERVER_ERROR
      && Served(ChatInput(data, 7, 1, map[], map[], [], [], [], ser, None).outcome) == NOT_FOUND
    ensures var data := map["user_message" := "hello"];
      var ws := map[7 := ResearchWorkflow(7, 1, DEFINITION.Value(), true)];
      Served(ChatInputAsWritten(data, 7, 1, ws, map[], None).outcome) == SERVER_ERROR
      && Served(ChatInput(data, 7, 1, ws, map[], [], [], [], ser, None).outcome) == ACCEPTED
      && |ChatInput(data, 7, 1, ws, map[], [], [], [], ser, None).published| == 1
  {
    var data := map["user_message" := "hello"];
    assert Given(Field(data, "user_message"));
  }
}
