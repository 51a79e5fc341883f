/** The workflow store helpers of api/workflows/utils/base.py: the resource
    advice table, workflow creation and lookup, and the create / get / update
    helpers for reflection logs, topic keywords and topic scope elements.
    Each helper is a specification function over the tables it touches and a
    method that performs the same steps on the `Database`. A helper's
    `serializer_class` only shapes the returned data (serializers are not
    modelled), so it is represented by whether one was passed; the helper
    returns the instances the serializer would render. */
module WorkflowUtils {

  import opened Common
  import opened Constants
  import opened Tables
  import opened KnowledgeModels
  import opened WorkflowModels
  import opened Store

  // ---------------------------------------------------------------------------
  // get_resource_suggestion

  const HighSuggestion: string := "Focus your next search using specialized academic databases (e.g., Scopus, Web of Science) targeting the specific geographical and time scope."
  const MediumSuggestion: string := "Use a combination of general search engines and credible institutional reports (e.g., OECD, World Bank) to solidify your topic."
  const LowSuggestion: string := "The topic is highly niche or information-scarce. Start with broad keyword searches and general encyclopedias to establish foundational context before narrowing down."
  const FallbackSuggestion: string := "Please define your topic further to get a resource suggestion."

  /** The advice for each feasibility level. */
  function SuggestionFor(f: FeasibilityStatus): string
  {
    match f
    case HIGH => HighSuggestion
    case MEDIUM => MediumSuggestion
    case LOW => LowSuggestion
  }

  /** `get_resource_suggestion`: the advice of a stored feasibility value; any
      value outside the enumeration gets the request to define the topic. */
  function ResourceSuggestion(feasibilityStatus: string): (advice: string)
    ensures ParseFeasibility(feasibilityStatus).Some? ==> advice == SuggestionFor(ParseFeasibility(feasibilityStatus).value)
    ensures ParseFeasibility(feasibilityStatus).None? ==> advice == FallbackSuggestion
  {
    if feasibilityStatus == "HIGH" then HighSuggestion
    else if feasibilityStatus == "MEDIUM" then MediumSuggestion
    else if feasibilityStatus == "LOW" then LowSuggestion
    else FallbackSuggestion
  }

  /** The four texts differ, so the advice tells which level (or none) was stored. */
  lemma SuggestionIdentifiesLevel(a: string, b: string)
    requires ResourceSuggestion(a) == ResourceSuggestion(b)
    ensures ParseFeasibility(a) == ParseFeasibility(b)
  {
    assert |HighSuggestion| == 142 && |MediumSuggestion| == 127;
    assert |LowSuggestion| == 165 && |FallbackSuggestion| == 62;
  }

  // ---------------------------------------------------------------------------
  // create_workflow / get_workflow

  /** `ResearchWorkflow.objects.create(...)`: inserts a workflow with exactly
      the given key, owner and stage (and the default `is_active`); an insert
      on a key in use violates the primary key. */
  function CreateWorkflow(workflows: map<Id, ResearchWorkflow>, sessionId: Id, userId: Id, initialStage: string): (r: Outcome<ResearchWorkflow>)
    ensures r.Ok? <==> sessionId !in workflows
    ensures r.Ok? ==> (r.value.sessionId == sessionId && r.value.userId == userId
      && r.value.currentStage == initialStage && r.value.isActive)
    ensures r.Raised? ==> r.error == IntegrityError
  {
    if sessionId in workflows then Raised(IntegrityError)
    else Ok(ResearchWorkflow(sessionId, userId, initialStage, true))
  }

  /** `get_workflow`: the workflow with that session id, only when it belongs
      to that user. */
  function GetWorkflow(workflows: map<Id, ResearchWorkflow>, sessionId: Id, userId: Id): (r: Outcome<ResearchWorkflow>)
    ensures r.Ok? <==> sessionId in workflows && workflows[sessionId].userId == userId
    ensures r.Ok? ==> r.value == workflows[sessionId]
    ensures r.Raised? ==> r.error == DoesNotExist
  {
    if sessionId in workflows && workflows[sessionId].userId == userId then Ok(workflows[sessionId])
    else Raised(DoesNotExist)
  }

  /** A created workflow is found again by its owner, and by nobody else. */
  lemma CreateThenGet(workflows: map<Id, ResearchWorkflow>, sessionId: Id, userId: Id, stage: string, other: Id)
    requires CreateWorkflow(workflows, sessionId, userId, stage).Ok?
    ensures var w := CreateWorkflow(workflows, sessionId, userId, stage).value;
      GetWorkflow(workflows[sessionId := w], sessionId, userId) == Ok(w)
      && (other != userId ==> GetWorkflow(workflows[sessionId := w], sessionId, other) == Raised(DoesNotExist))
  {
  }

  method CreateWorkflowIn(db: Database, sessionId: Id, userId: Id, initialStage: string) returns (r: Outcome<ResearchWorkflow>)
    requires db.Valid()
    modifies db`workflows
    ensures db.Valid()
    ensures r == CreateWorkflow(old(db.workflows), sessionId, userId, initialStage)
    ensures db.workflows == if r.Ok? then old(db.workflows)[sessionId := r.value] else old(db.workflows)
  {
    if sessionId in db.workflows {
      return Raised(IntegrityError);
    }
    var w := ResearchWorkflow(sessionId, userId, initialStage, true);
    db.workflows := db.workflows[sessionId := w];
    r := Ok(w);
  }

  // ---------------------------------------------------------------------------
  // Shared shapes of the session helpers.

  const SerializerMissing: Exception := ValueError("serializer_class must be provided")

  /** `value if value is not None else default`. */
  function StatusOr(status: Option<string>, default: string): (s: string)
    ensures status.Some? ==> s == status.value
    ensures status.None? ==> s == default
  {
    if status.Some? then status.value else default
  }

  /** What a helper's outcome returns to its caller. */
  function Returned<D>(o: Outcome<Written<D>>): Outcome<Option<seq<Record<D>>>>
  {
    match o
    case Ok(w) => Ok(w.listing)
    case Raised(e) => Raised(e)
  }

  /** The table after a helper's outcome: a helper that raises writes nothing. */
  function RowsAfter<D>(o: Outcome<Written<D>>, before: seq<Record<D>>): seq<Record<D>>
  {
    match o
    case Ok(w) => w.rows
    case Raised(_) => before
  }

  /** The `get_*_by_session` helpers (reflection logs, scope elements and
      keywords alike): the rows the session's workflow owns, each once per
      occurrence and in table order; None for an unknown session. */
  function GetBySession<D(==,!new)>(workflows: map<Id, ResearchWorkflow>, rows: seq<Record<D>>, sessionId: Id, hasSerializer: bool): (r: Outcome<Option<seq<Record<D>>>>)
    ensures !hasSerializer ==> r == Raised(SerializerMissing)
    ensures hasSerializer && sessionId !in workflows ==> r == Ok(None)
    ensures hasSerializer && sessionId in workflows ==> (r.Ok? && r.value.Some?
      && (forall x :: x in r.value.value <==> x in rows && x.objectId == sessionId)
      && (forall x :: multiset(r.value.value)[x] == if x.objectId == sessionId then multiset(rows)[x] else 0)
      && Subsequence(r.value.value, rows))
  {
    if !hasSerializer then Raised(SerializerMissing)
    else if sessionId !in workflows then Ok(None)
    else
      OwnedInOrder(rows, sessionId);
      Ok(Some(Owned(rows, sessionId)))
  }

  // ---------------------------------------------------------------------------
  // Reflection logs.

  /** `create_reflection_log_by_session`. */
  function CreateReflectionLog(workflows: map<Id, ResearchWorkflow>, logs: seq<Record<ReflectionLog>>, sessionId: Id,
                               title: string, content: string, status: Option<string>, hasSerializer: bool): (r: Outcome<Written<ReflectionLog>>)
    ensures !hasSerializer ==> r == Raised(SerializerMissing)
    ensures hasSerializer && sessionId !in workflows ==> r == Ok(Written(None, logs))
    ensures hasSerializer && sessionId in workflows ==> (r.Ok?
      && |r.value.rows| == |logs| + 1 && r.value.rows[1..] == logs
      && r.value.rows[0].objectId == sessionId && !HasId(logs, r.value.rows[0].id)
      && r.value.rows[0].fields == ReflectionLog(title, content, StatusOr(status, DraftStatus))
      && r.value.listing == Some(Owned(r.value.rows, sessionId)))
  {
    if !hasSerializer then Raised(SerializerMissing)
    else if sessionId !in workflows then Ok(Written(None, logs))
    else
      var row := Record(FreshId(logs), sessionId, ReflectionLog(title, content, StatusOr(status, DraftStatus)));
      SaveNew(logs, row);
      var rows := Save(logs, row);
      Ok(Written(Some(Owned(rows, sessionId)), rows))
  }

  /** `update_reflection_log_by_id`. */
  function UpdateReflectionLog(logs: seq<Record<ReflectionLog>>, logId: Id, title: string, content: string,
                               status: Option<string>, hasSerializer: bool): (r: Outcome<Written<ReflectionLog>>)
    ensures !hasSerializer ==> r == Raised(SerializerMissing)
    ensures hasSerializer && !HasId(logs, logId) ==> r == Raised(DoesNotExist)
    ensures hasSerializer && HasId(logs, logId) ==> (r.Ok?
      && var old_ := Get(logs, logId).value;
         r.value.rows == Save(logs, Record(logId, old_.objectId, ReflectionLog(title, content, StatusOr(status, old_.fields.status))))
         && r.value.listing == Some(Owned(r.value.rows, old_.objectId)))
  {
    if !hasSerializer then Raised(SerializerMissing)
    else match Get(logs, logId)
      case None => Raised(DoesNotExist)
      case Some(row) =>
        var updated := row.(fields := ReflectionLog(title, content, StatusOr(status, row.fields.status)));
        var rows := Save(logs, updated);
        Ok(Written(Some(Owned(rows, row.objectId)), rows))
  }

  /** An update overwrites title and content, keeps the status when none is
      given, leaves every other log as it was, and lists the owner's logs with
      the updated one first. */
  lemma UpdateReflectionLogEffect(logs: seq<Record<ReflectionLog>>, x: Record<ReflectionLog>, title: string, content: string, status: Option<string>)
    requires IdsUnique(logs) && x in logs
    ensures var r := UpdateReflectionLog(logs, x.id, title, content, status, true);
      r.Ok? && IdsUnique(r.value.rows)
      && r.value.rows[0] == Record(x.id, x.objectId, ReflectionLog(title, content, StatusOr(status, x.fields.status)))
      && (forall y | y in logs && y.id != x.id :: y in r.value.rows)
      && r.value.listing.Some? && r.value.listing.value != [] && r.value.listing.value[0] == r.value.rows[0]
      && forall y :: y in r.value.listing.value <==> y in r.value.rows && y.objectId == x.objectId
  {
    GetUnique(logs, x);
    var updated := Record(x.id, x.objectId, ReflectionLog(title, content, StatusOr(status, x.fields.status)));
    SaveKeepsIdsUnique(logs, updated);
    OwnedAfterSave(logs, updated, x.objectId);
  }

  method CreateReflectionLogBySession(db: Database, sessionId: Id, title: string, content: string, status: Option<string>, hasSerializer: bool)
    returns (r: Outcome<Option<seq<Record<ReflectionLog>>>>)
    requires db.Valid()
    modifies db`logs
    ensures db.Valid()
    ensures var spec := CreateReflectionLog(old(db.workflows), old(db.logs), sessionId, title, content, status, hasSerializer);
      r == Returned(spec) && db.logs == RowsAfter(spec, old(db.logs))
  {
    if !hasSerializer {
      return Raised(SerializerMissing);
    }
    if sessionId !in db.workflows {
      return Ok(None);
    }
    var log := ReflectionLog(title, content, DraftStatus);
    if status.Some? {
      log := log.(status := status.value);
    }
    // `workflow.reflection_logs.add(new_log, bulk=False)` sets the owner and saves.
    var row := Record(FreshId(db.logs), sessionId, log);
    SaveKeepsIdsUnique(db.logs, row);
    db.logs := Save(db.logs, row);
    r := Ok(Some(Owned(db.logs, sessionId)));
  }

  method UpdateReflectionLogById(db: Database, logId: Id, title: string, content: string, status: Option<string>, hasSerializer: bool)
    returns (r: Outcome<Option<seq<Record<ReflectionLog>>>>)
    requires db.Valid()
    modifies db`logs
    ensures db.Valid()
    ensures var spec := UpdateReflectionLog(old(db.logs), logId, title, content, status, hasSerializer);
      r == Returned(spec) && db.logs == RowsAfter(spec, old(db.logs))
  {
    if !hasSerializer {
      return Raised(SerializerMissing);
    }
    var found := Get(db.logs, logId);
    if found.None? {
      return Raised(DoesNotExist);
    }
    var instance := found.value;
    instance := instance.(fields := instance.fields.(title := title));
    instance := instance.(fields := instance.fields.(content := content));
    if status.Some? {
      instance := instance.(fields := instance.fields.(status := status.value));
    }
    SaveKeepsIdsUnique(db.logs, instance);
    db.logs := Save(db.logs, instance);
    r := Ok(Some(Owned(db.logs, instance.objectId)));
  }

  // ---------------------------------------------------------------------------
  // Topic keywords.

  /** `create_topic_keyword_by_session`: a new keyword of the session's
      workflow, USER_DRAFT unless a status is given. Adding it saves it, and
      the (owner, label) constraint refuses a label the workflow already has. */
  function CreateTopicKeyword(workflows: map<Id, ResearchWorkflow>, keywords: seq<Record<TopicKeyword>>, sessionId: Id,
                              labelText: string, status: Option<string>, hasSerializer: bool): (r: Outcome<Written<TopicKeyword>>)
    ensures !hasSerializer ==> r == Raised(SerializerMissing)
    ensures hasSerializer && sessionId !in workflows ==> r == Ok(Written(None, keywords))
    ensures hasSerializer && sessionId in workflows && KeywordExists(keywords, sessionId, labelText) ==> r == Raised(IntegrityError)
    ensures hasSerializer && sessionId in workflows && !KeywordExists(keywords, sessionId, labelText) ==> (r.Ok?
      && |r.value.rows| == |keywords| + 1 && r.value.rows[1..] == keywords
      && r.value.rows[0].objectId == sessionId && !HasId(keywords, r.value.rows[0].id)
      && r.value.rows[0].fields == NewKeyword(labelText).(status := StatusOr(status, USER_DRAFT.Value()))
      && r.value.listing == Some(Owned(r.value.rows, sessionId)))
  {
    if !hasSerializer then Raised(SerializerMissing)
    else if sessionId !in workflows then Ok(Written(None, keywords))
    else if KeywordExists(keywords, sessionId, labelText) then Raised(IntegrityError)
    else
      var row := Record(FreshId(keywords), sessionId, NewKeyword(labelText).(status := StatusOr(status, USER_DRAFT.Value())));
      SaveNew(keywords, row);
      var rows := Save(keywords, row);
      Ok(Written(Some(Owned(rows, sessionId)), rows))
  }

  /** Creating a keyword keeps the keyword table valid; the returned list is
      the workflow's earlier keywords with the new one in front. */
  lemma CreateTopicKeywordValid(workflows: map<Id, ResearchWorkflow>, keywords: seq<Record<TopicKeyword>>, sessionId: Id,
                                labelText: string, status: Option<string>)
    requires KeywordTableValid(keywords)
    requires CreateTopicKeyword(workflows, keywords, sessionId, labelText, status, true).Ok?
    ensures var w := CreateTopicKeyword(workflows, keywords, sessionId, labelText, status, true).value;
      KeywordTableValid(w.rows)
      && (w.listing.Some? ==> w.listing.value == [w.rows[0]] + Owned(keywords, sessionId))
  {
    var w := CreateTopicKeyword(workflows, keywords, sessionId, labelText, status, true).value;
    if sessionId in workflows {
      var row := w.rows[0];
      SaveNew(keywords, row);
      SaveKeywordValid(keywords, row);
      OwnedAfterSave(keywords, row, sessionId);
    }
  }

  method CreateTopicKeywordBySession(db: Database, sessionId: Id, labelText: string, status: Option<string>, hasSerializer: bool)
    returns (r: Outcome<Option<seq<Record<TopicKeyword>>>>)
    requires db.Valid()
    modifies db`keywords
    ensures db.Valid()
    ensures var spec := CreateTopicKeyword(old(db.workflows), old(db.keywords), sessionId, labelText, status, hasSerializer);
      r == Returned(spec) && db.keywords == RowsAfter(spec, old(db.keywords))
  {
    if !hasSerializer {
      return Raised(SerializerMissing);
    }
    if sessionId !in db.workflows {
      return Ok(None);
    }
    var keyword := NewKeyword(labelText).(status := USER_DRAFT.Value());
    if status.Some? {
      keyword := keyword.(status := status.value);
    }
    if KeywordExists(db.keywords, sessionId, labelText) {
      return Raised(IntegrityError);
    }
    var row := Record(FreshId(db.keywords), sessionId, keyword);
    CreateTopicKeywordValid(db.workflows, db.keywords, sessionId, labelText, status);
    db.keywords := Save(db.keywords, row);
    r := Ok(Some(Owned(db.keywords, sessionId)));
  }

  // ---------------------------------------------------------------------------
  // Topic scope elements.

  /** `create_topic_scope_element_by_session` as written: the new element is
      saved with `new_scope.save()` and never attached to the workflow, so its
      `object_id` (a NOT NULL column) is empty and the insert fails for every
      known session. */
  function CreateTopicScopeElementAsWritten(workflows: map<Id, ResearchWorkflow>, scopes: seq<Record<TopicScopeElement>>, sessionId: Id,
                                            labelText: string, rationale: string, status: Option<string>, hasSerializer: bool): (r: Outcome<Written<TopicScopeElement>>)
    ensures !hasSerializer ==> r == Raised(SerializerMissing)
    ensures hasSerializer && sessionId !in workflows ==> r == Ok(Written(None, scopes))
    ensures hasSerializer && sessionId in workflows ==> r == Raised(IntegrityError)
  {
    if !hasSerializer then Raised(SerializerMissing)
    else if sessionId !in workflows then Ok(Written(None, scopes))
    else Raised(IntegrityError)
  }

  /** As written, the helper never stores a scope element and never returns
      a listing, whatever it is given. */
  lemma ScopeCreateAsWrittenNeverStores(workflows: map<Id, ResearchWorkflow>, scopes: seq<Record<TopicScopeElement>>, sessionId: Id,
                                        labelText: string, rationale: string, status: Option<string>, hasSerializer: bool)
    ensures var r := CreateTopicScopeElementAsWritten(workflows, scopes, sessionId, labelText, rationale, status, hasSerializer);
      RowsAfter(r, scopes) == scopes && (r.Ok? ==> r.value.listing.None?)
  {
  }

  /** `create_topic_scope_element_by_session` as intended: the new element is
      attached to the session's workflow as keywords and logs are, USER_DRAFT
      unless a status is given; (owner, label, rationale) must be new. */
  function CreateTopicScopeElement(workflows: map<Id, ResearchWorkflow>, scopes: seq<Record<TopicScopeElement>>, sessionId: Id,
                                   labelText: string, rationale: string, status: Option<string>, hasSerializer: bool): (r: Outcome<Written<TopicScopeElement>>)
    ensures !hasSerializer ==> r == Raised(SerializerMissing)
    ensures hasSerializer && sessionId !in workflows ==> r == Ok(Written(None, scopes))
    ensures hasSerializer && sessionId in workflows && ScopeExists(scopes, sessionId, labelText, rationale) ==> r == Raised(IntegrityError)
    ensures hasSerializer && sessionId in workflows && !ScopeExists(scopes, sessionId, labelText, rationale) ==> (r.Ok?
      && |r.value.rows| == |scopes| + 1 && r.value.rows[1..] == scopes
      && r.value.rows[0].objectId == sessionId && !HasId(scopes, r.value.rows[0].id)
      && r.value.rows[0].fields == NewScopeElement(labelText, rationale).(status := StatusOr(status, USER_DRAFT.Value()))
      && r.value.listing == Some(Owned(r.value.rows, sessionId)))
  {
    if !hasSerializer then Raised(SerializerMissing)
    else if sessionId !in workflows then Ok(Written(None, scopes))
    else if ScopeExists(scopes, sessionId, labelText, rationale) then Raised(IntegrityError)
    else
      var row := Record(FreshId(scopes), sessionId, NewScopeElement(labelText, rationale).(status := StatusOr(status, USER_DRAFT.Value())));
      SaveNew(scopes, row);
      var rows := Save(scopes, row);
      Ok(Written(Some(Owned(rows, sessionId)), rows))
  }

  /** Creating a scope element keeps the scope table valid; the returned list
      is the workflow's earlier elements with the new one in front. */
  lemma CreateTopicScopeElementValid(workflows: map<Id, ResearchWorkflow>, scopes: seq<Record<TopicScopeElement>>, sessionId: Id,
                                     labelText: string, rationale: string, status: Option<string>)
    requires ScopeTableValid(scopes)
    requires CreateTopicScopeElement(workflows, scopes, sessionId, labelText, rationale, status, true).Ok?
    ensures var w := CreateTopicScopeElement(workflows, scopes, sessionId, labelText, rationale, status, true).value;
      ScopeTableValid(w.rows)
      && (w.listing.Some? ==> w.listing.value == [w.rows[0]] + Owned(scopes, sessionId))
  {
    var w := CreateTopicScopeElement(workflows, scopes, sessionId, labelText, rationale, status, true).value;
    if sessionId in workflows {
      var row := w.rows[0];
      SaveNew(scopes, row);
      SaveScopeValid(scopes, row);
      OwnedAfterSave(scopes, row, sessionId);
    }
  }

  method CreateTopicScopeElementBySession(db: Database, sessionId: Id, labelText: string, rationale: string, status: Option<string>, hasSerializer: bool)
    returns (r: Outcome<Option<seq<Record<TopicScopeElement>>>>)
    requires db.Valid()
    modifies db`scopes
    ensures db.Valid()
    ensures var spec := CreateTopicScopeElement(old(db.workflows), old(db.scopes), sessionId, labelText, rationale, status, hasSerializer);
      r == Returned(spec) && db.scopes == RowsAfter(spec, old(db.scopes))
  {
    if !hasSerializer {
      return Raised(SerializerMissing);
    }
    if sessionId !in db.workflows {
      return Ok(None);
    }
    var element := NewScopeElement(labelText, rationale).(status := USER_DRAFT.Value());
    if status.Some? {
      element := element.(status := status.value);
    }
    if ScopeExists(db.scopes, sessionId, labelText, rationale) {
      return Raised(IntegrityError);
    }
    var row := Record(FreshId(db.scopes), sessionId, element);
    CreateTopicScopeElementValid(db.workflows, db.scopes, sessionId, labelText, rationale, status);
    db.scopes := Save(db.scopes, row);
    r := Ok(Some(Owned(db.scopes, sessionId)));
  }
}
