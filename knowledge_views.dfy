/** The keyword and scope-element PUT views of api/knowledge/views.py
    (api/workflows/views/initiation.py carries the same two handlers). Each
    checks the request fields in order, calls the in-place update helper and
    turns its DoesNotExist into 404. */
module KnowledgeViews {

  import opened Common
  import opened Text
  import opened Tables
  import opened KnowledgeModels
  import opened Http
  import opened WorkflowUtils
  import opened KnowledgeUtils

  /** The helper's outcome as the view answers it: 200 with the owner's
      list, 404 with the message for a missing row, any other exception
      escaping. */
  function AnswerUpdate<D>(spec: Outcome<Written<D>>, notFound: string, before: seq<Record<D>>): (h: Handled<seq<Record<D>>, seq<Record<D>>>)
    ensures spec.Ok? ==> h == Handled(Ok(Response(OK, ListingBody(spec.value.listing))), spec.value.rows)
    ensures spec == Raised(DoesNotExist) ==> h == Handled(Ok(Response(NOT_FOUND, Message("detail", notFound))), before)
    ensures spec.Raised? && spec.error != DoesNotExist ==> h == Handled(Raised(spec.error), before)
  {
    match spec
    case Ok(w) => Handled(Ok(Response(OK, ListingBody(w.listing))), w.rows)
    case Raised(DoesNotExist) => Handled(Ok(Response(NOT_FOUND, Message("detail", notFound))), before)
    case Raised(e) => Handled(Raised(e), before)
  }

  /** `TopicKeywordView.put`. */
  function KeywordPut(data: map<string, string>, keywordId: Id, keywords: seq<Record<TopicKeyword>>)
    : (h: Handled<seq<Record<TopicKeyword>>, seq<Record<TopicKeyword>>>)
    ensures !Given(Field(data, "text")) ==> h == Handled(Ok(Response(BAD_REQUEST, Message("detail", "text is required."))), keywords)
    ensures Given(Field(data, "text")) ==>
      h == AnswerUpdate(UpdateKeyword(keywords, keywordId, data["text"], Field(data, "status"), true),
                        "Keyword '" + NatToString(keywordId) + "' not found.", keywords)
  {
    var text := Field(data, "text");
    if !Given(text) then Handled(Ok(Response(BAD_REQUEST, Message("detail", "text is required."))), keywords)
    else AnswerUpdate(UpdateKeyword(keywords, keywordId, text.value, Field(data, "status"), true),
                      "Keyword '" + NatToString(keywordId) + "' not found.", keywords)
  }

  /** With a text given: an unknown id answers 404 and writes nothing; a
      known one answers 200 with the owner's list, which starts with the
      renamed keyword; a status missing from the request keeps the stored
      one. The table keeps its constraints whatever happens. */
  lemma KeywordPutOutcomes(data: map<string, string>, keywordId: Id, keywords: seq<Record<TopicKeyword>>)
    requires Given(Field(data, "text")) && KeywordTableValid(keywords)
    ensures var h := KeywordPut(data, keywordId, keywords);
      KeywordTableValid(h.state)
      && (!HasId(keywords, keywordId) ==> h.outcome.Ok? && h.outcome.value.status == NOT_FOUND && h.state == keywords)
      && (HasId(keywords, keywordId) && h.outcome.Ok? ==>
            var x := Get(keywords, keywordId).value;
            h.outcome.value.status == OK
            && h.state[0].id == keywordId && h.state[0].fields.labelText == data["text"]
            && ("status" !in data ==> h.state[0].fields.status == x.fields.status)
            && h.outcome.value.body == Data([h.state[0]] + Owned(Without(keywords, keywordId), x.objectId)))
  {
    if HasId(keywords, keywordId) {
      var x := Get(keywords, keywordId).value;
      var spec := UpdateKeyword(keywords, keywordId, data["text"], Field(data, "status"), true);
      if spec.Ok? {
        UpdateKeywordEffect(keywords, x, data["text"], Field(data, "status"));
      }
    }
  }

  /** `TopicScopeElementView.put`: `label` is checked before `value`; the
      request's `value` is passed as the new label and its `label` as the new
      rationale, as in the source. */
  function ScopePut(data: map<string, string>, scopeId: Id, scopes: seq<Record<TopicScopeElement>>)
    : (h: Handled<seq<Record<TopicScopeElement>>, seq<Record<TopicScopeElement>>>)
    ensures !Given(Field(data, "label")) ==> h == Handled(Ok(Response(BAD_REQUEST, Message("detail", "label is required."))), scopes)
    ensures Given(Field(data, "label")) && !Given(Field(data, "value")) ==>
      h == Handled(Ok(Response(BAD_REQUEST, Message("detail", "value is required."))), scopes)
    ensures Given(Field(data, "label")) && Given(Field(data, "value")) ==>
      h == AnswerUpdate(UpdateScope(scopes, scopeId, data["value"], data["label"], Field(data, "status"), true),
                        "Scope Element '" + NatToString(scopeId) + "' not found.", scopes)
  {
    var scopeLabel := Field(data, "label");
    var scopeValue := Field(data, "value");
    if !Given(scopeLabel) then Handled(Ok(Response(BAD_REQUEST, Message("detail", "label is required."))), scopes)
    else if !Given(scopeValue) then Handled(Ok(Response(BAD_REQUEST, Message("detail", "value is required."))), scopes)
    else AnswerUpdate(UpdateScope(scopes, scopeId, scopeValue.value, scopeLabel.value, Field(data, "status"), true),
                      "Scope Element '" + NatToString(scopeId) + "' not found.", scopes)
  }

  /** With both fields given: an unknown id answers 404 and writes nothing;
      a successful update stores the request's `value` as the label and its
      `label` as the rationale, answers 200 and keeps the constraints. */
  lemma ScopePutOutcomes(data: map<string, string>, scopeId: Id, scopes: seq<Record<TopicScopeElement>>)
    requires Given(Field(data, "label")) && Given(Field(data, "value")) && ScopeTableValid(scopes)
    ensures var h := ScopePut(data, scopeId, scopes);
      ScopeTableValid(h.state)
      && (!HasId(scopes, scopeId) ==> h.outcome.Ok? && h.outcome.value.status == NOT_FOUND && h.state == scopes)
      && (HasId(scopes, scopeId) && h.outcome.Ok? ==>
            h.outcome.value.status == OK && h.state[0].id == scopeId
            && h.state[0].fields.labelText == data["value"] && h.state[0].fields.rationale == data["label"])
  {
    if HasId(scopes, scopeId) {
      var x := Get(scopes, scopeId).value;
      var spec := UpdateScope(scopes, scopeId, data["value"], data["label"], Field(data, "status"), true);
      if spec.Ok? {
        UpdateScopeEffect(scopes, x, data["value"], data["label"], Field(data, "status"));
      }
    }
  }
}
