/** The shared workflow views of api/workflows/views/base.py: chat-history
    GET and the reflection-log POST and PUT, which check `title` and then
    `content` before calling the store helpers. */
module BaseViews {

  import opened Common
  import opened Text
  import opened Tables
  import opened WorkflowModels
  import opened Http
  import opened WorkflowUtils

  /** `ChatHistoryEntryView.get`: the session's entries in sequence order. */
  function ChatHistoryGet(chat: seq<Record<ChatHistoryEntry>>, session: Id): (r: Response<seq<Record<ChatHistoryEntry>>>)
    ensures r.status == OK && r.body.Data?
  {
    Response(OK, Data(ChatHistoryOf(chat, session)))
  }

  /** The history answered holds exactly the session's entries, each as
      often as stored, sorted by sequence number. */
  lemma ChatHistoryGetExact(chat: seq<Record<ChatHistoryEntry>>, session: Id)
    ensures var h := ChatHistoryGet(chat, session).body.data;
      SortedBySequence(h)
      && multiset(h) == multiset(Owned(chat, session))
      && forall e :: e in h <==> e in chat && e.objectId == session
  {
    ChatHistoryOfSession(chat, session);
  }

  /** The title-then-content check of both reflection views: the 400
      response for the first missing field, if any. */
  function ReflectionFieldsMissing(data: map<string, string>): (r: Option<Response<seq<Record<ReflectionLog>>>>)
    ensures !Given(Field(data, "title")) ==> r == Some(Response(BAD_REQUEST, Message("detail", "title is required.")))
    ensures Given(Field(data, "title")) && !Given(Field(data, "content")) ==> r == Some(Response(BAD_REQUEST, Message("detail", "content is required.")))
    ensures r.None? <==> Given(Field(data, "title")) && Given(Field(data, "content"))
  {
    if !Given(Field(data, "title")) then Some(Response(BAD_REQUEST, Message("detail", "title is required.")))
    else if !Given(Field(data, "content")) then Some(Response(BAD_REQUEST, Message("detail", "content is required.")))
    else None
  }

  /** `SessionReflectionLogView.post`. */
  function ReflectionPost(data: map<string, string>, session: Id, workflows: map<Id, ResearchWorkflow>, logs: seq<Record<ReflectionLog>>)
    : (h: Handled<seq<Record<ReflectionLog>>, seq<Record<ReflectionLog>>>)
    ensures ReflectionFieldsMissing(data).Some? ==> h == Handled(Ok(ReflectionFieldsMissing(data).value), logs)
    ensures ReflectionFieldsMissing(data).None? ==>
      var spec := CreateReflectionLog(workflows, logs, session, data["title"], data["content"], Field(data, "status"), true);
      spec.Ok? && h == Handled(Ok(Response(CREATED, ListingBody(spec.value.listing))), spec.value.rows)
  {
    var missing := ReflectionFieldsMissing(data);
    if missing.Some? then Handled(Ok(missing.value), logs)
    else match CreateReflectionLog(workflows, logs, session, data["title"], data["content"], Field(data, "status"), true)
      case Ok(w) => Handled(Ok(Response(CREATED, ListingBody(w.listing))), w.rows)
      case Raised(e) =>
        // The helper raises only for a missing serializer class, which the view passes.
        Handled(Raised(e), logs)
  }

  /** A valid POST always answers 201. For a known session it stores one new
      log of that session with the given title and content, DRAFT unless a
      status is sent, and answers the session's logs; for an unknown session
      it answers 201 with an empty body and stores nothing. */
  lemma ReflectionPostOutcomes(data: map<string, string>, session: Id, workflows: map<Id, ResearchWorkflow>, logs: seq<Record<ReflectionLog>>)
    requires Given(Field(data, "title")) && Given(Field(data, "content")) && IdsUnique(logs)
    ensures var h := ReflectionPost(data, session, workflows, logs);
      h.outcome.Ok? && h.outcome.value.status == CREATED && IdsUnique(h.state)
      && (session !in workflows ==> h.outcome.value.body == NoBody && h.state == logs)
      && (session in workflows ==>
            h.state[1..] == logs && h.state[0].objectId == session
            && h.state[0].fields == ReflectionLog(data["title"], data["content"], if "status" in data then data["status"] else DraftStatus)
            && h.outcome.value.body == Data([h.state[0]] + Owned(logs, session)))
  {
    var h := ReflectionPost(data, session, workflows, logs);
    if session in workflows {
      SaveKeepsIdsUnique(logs, h.state[0]);
      SaveNew(logs, h.state[0]);
      OwnedAfterSave(logs, h.state[0], session);
    }
  }

  /** `ReflectionLogView.put`. */
  function ReflectionPut(data: map<string, string>, logId: Id, logs: seq<Record<ReflectionLog>>)
    : (h: Handled<seq<Record<ReflectionLog>>, seq<Record<ReflectionLog>>>)
    ensures ReflectionFieldsMissing(data).Some? ==> h == Handled(Ok(ReflectionFieldsMissing(data).value), logs)
    ensures ReflectionFieldsMissing(data).None? && !HasId(logs, logId) ==>
      h == Handled(Ok(Response(NOT_FOUND, Message("detail", "Reflection Log '" + NatToString(logId) + "' not found."))), logs)
    ensures ReflectionFieldsMissing(data).None? && HasId(logs, logId) ==>
      var spec := UpdateReflectionLog(logs, logId, data["title"], data["content"], Field(data, "status"), true);
      spec.Ok? && h == Handled(Ok(Response(OK, ListingBody(spec.value.listing))), spec.value.rows)
  {
    var missing := ReflectionFieldsMissing(data);
    if missing.Some? then Handled(Ok(missing.value), logs)
    else match UpdateReflectionLog(logs, logId, data["title"], data["content"], Field(data, "status"), true)
      case Ok(w) => Handled(Ok(Response(OK, ListingBody(w.listing))), w.rows)
      case Raised(DoesNotExist) => Handled(Ok(Response(NOT_FOUND, Message("detail", "Reflection Log '" + NatToString(logId) + "' not found."))), logs)
      case Raised(e) => Handled(Raised(e), logs)
  }

  /** A valid PUT of a stored log answers 200 with its owner's logs, the
      updated one first with the new title and content, the sent status or,
      when none is sent, its old status; other logs stay stored. */
  lemma ReflectionPutOutcomes(data: map<string, string>, x: Record<ReflectionLog>, logs: seq<Record<ReflectionLog>>)
    requires Given(Field(data, "title")) && Given(Field(data, "content")) && IdsUnique(logs) && x in logs
    ensures var h := ReflectionPut(data, x.id, logs);
      h.outcome.Ok? && h.outcome.value.status == OK && IdsUnique(h.state)
      && h.state[0].id == x.id && h.state[0].objectId == x.objectId
      && h.state[0].fields.title == data["title"] && h.state[0].fields.content == data["content"]
      && ("status" !in data ==> h.state[0].fields.status == x.fields.status)
      && ("status" in data ==> h.state[0].fields.status == data["status"])
      && (forall y | y in logs && y.id != x.id :: y in h.state)
      && h.outcome.value.body == Data(Owned(h.state, x.objectId))
      && h.outcome.value.body.data != [] && h.outcome.value.body.data[0] == h.state[0]
  {
    GetUnique(logs, x);
    UpdateReflectionLogEffect(logs, x, data["title"], data["content"], Field(data, "status"));
  }
}
