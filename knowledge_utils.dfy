/** The in-place update helpers of api/knowledge/utils.py: fetch a keyword or
    scope element by primary key, overwrite its fields, save it, and return
    every row of the same owner. A save that would give the owner two rows
    with the same unique key is refused by the database (IntegrityError). */
module KnowledgeUtils {

  import opened Common
  import opened Constants
  import opened Tables
  import opened KnowledgeModels
  import opened Store
  import opened WorkflowUtils

  // ---------------------------------------------------------------------------
  // update_topic_keyword_by_id

  /** The stored keyword `row` after the update: a new label, and the status
      replaced only when one is given. */
  function UpdatedKeyword(row: Record<TopicKeyword>, labelText: string, status: Option<string>): Record<TopicKeyword>
  {
    row.(fields := row.fields.(labelText := labelText, status := StatusOr(status, row.fields.status)))
  }

  function UpdateKeyword(keywords: seq<Record<TopicKeyword>>, keywordId: Id, labelText: string, status: Option<string>, hasSerializer: bool)
    : (r: Outcome<Written<TopicKeyword>>)
    ensures !hasSerializer ==> r == Raised(SerializerMissing)
    ensures hasSerializer && !HasId(keywords, keywordId) ==> r == Raised(DoesNotExist)
    ensures hasSerializer && HasId(keywords, keywordId) ==>
      var old_ := Get(keywords, keywordId).value;
      (KeywordClash(keywords, old_.objectId, labelText, keywordId) ==> r == Raised(IntegrityError))
      && (!KeywordClash(keywords, old_.objectId, labelText, keywordId) ==> (r.Ok?
        && r.value.rows == Save(keywords, UpdatedKeyword(old_, labelText, status))
        && r.value.listing == Some(Owned(r.value.rows, old_.objectId))))
  {
    if !hasSerializer then Raised(SerializerMissing)
    else match Get(keywords, keywordId)
      case None => Raised(DoesNotExist)
      case Some(row) =>
        if KeywordClash(keywords, row.objectId, labelText, keywordId) then Raised(IntegrityError)
        else
          var rows := Save(keywords, UpdatedKeyword(row, labelText, status));
          Ok(Written(Some(Owned(rows, row.objectId)), rows))
  }

  /** A successful keyword update changes only the addressed row: it keeps its
      id and owner, takes the new label, keeps its status unless one is given
      and keeps every other field. The table keeps its length and its
      constraints, and the listing is the owner's rows with the updated one
      first. */
  lemma UpdateKeywordEffect(keywords: seq<Record<TopicKeyword>>, x: Record<TopicKeyword>, labelText: string, status: Option<string>)
    requires KeywordTableValid(keywords) && x in keywords
    requires UpdateKeyword(keywords, x.id, labelText, status, true).Ok?
    ensures var w := UpdateKeyword(keywords, x.id, labelText, status, true).value;
      var u := w.rows[0];
      u.id == x.id && u.objectId == x.objectId && u.fields.labelText == labelText
      && u.fields.status == StatusOr(status, x.fields.status)
      && u.fields.importanceWeight == x.fields.importanceWeight && u.fields.isCore == x.fields.isCore
      && u.fields.semanticCategory == x.fields.semanticCategory
      && Without(w.rows, x.id) == Without(keywords, x.id)
      && |w.rows| == |keywords|
      && KeywordTableValid(w.rows)
      && w.listing == Some([u] + Owned(Without(keywords, x.id), x.objectId))
  {
    GetUnique(keywords, x);
    var u := UpdatedKeyword(x, labelText, status);
    SaveExisting(keywords, u);
    SaveKeywordValid(keywords, u);
    OwnedAfterSave(keywords, u, x.objectId);
  }

  /** The update is refused exactly when another keyword of the same owner
      already has the new label; renaming a keyword to its own label is
      always accepted. */
  lemma UpdateKeywordRefusal(keywords: seq<Record<TopicKeyword>>, x: Record<TopicKeyword>, status: Option<string>)
    requires KeywordTableValid(keywords) && x in keywords
    ensures UpdateKeyword(keywords, x.id, x.fields.labelText, status, true).Ok?
  {
    GetUnique(keywords, x);
    if KeywordClash(keywords, x.objectId, x.fields.labelText, x.id) {
      var y :| y in keywords && y.id != x.id && y.objectId == x.objectId && y.fields.labelText == x.fields.labelText;
      KeywordKeyIdentifies(keywords, x, y);
    }
  }

  method UpdateTopicKeywordById(db: Database, keywordId: Id, labelText: string, status: Option<string>, hasSerializer: bool)
    returns (r: Outcome<Option<seq<Record<TopicKeyword>>>>)
    requires db.Valid()
    modifies db`keywords
    ensures db.Valid()
    ensures var spec := UpdateKeyword(old(db.keywords), keywordId, labelText, status, hasSerializer);
      r == Returned(spec) && db.keywords == RowsAfter(spec, old(db.keywords))
  {
    if !hasSerializer {
      return Raised(SerializerMissing);
    }
    var found := Get(db.keywords, keywordId);
    if found.None? {
      return Raised(DoesNotExist);
    }
    var instance := found.value;
    instance := instance.(fields := instance.fields.(labelText := labelText));
    if status.Some? {
      instance := instance.(fields := instance.fields.(status := status.value));
    }
    if KeywordClash(db.keywords, instance.objectId, labelText, keywordId) {
      return Raised(IntegrityError);
    }
    SaveKeywordValid(db.keywords, instance);
    db.keywords := Save(db.keywords, instance);
    r := Ok(Some(Owned(db.keywords, instance.objectId)));
  }

  // ---------------------------------------------------------------------------
  // update_topic_scope_element_by_id

  /** The stored scope element `row` after the update: new label and
      rationale, and the status replaced only when one is given. */
  function UpdatedScope(row: Record<TopicScopeElement>, labelText: string, rationale: string, status: Option<string>): Record<TopicScopeElement>
  {
    row.(fields := row.fields.(labelText := labelText, rationale := rationale, status := StatusOr(status, row.fields.status)))
  }

  function UpdateScope(scopes: seq<Record<TopicScopeElement>>, scopeId: Id, labelText: string, rationale: string, status: Option<string>, hasSerializer: bool)
    : (r: Outcome<Written<TopicScopeElement>>)
    ensures !hasSerializer ==> r == Raised(SerializerMissing)
    ensures hasSerializer && !HasId(scopes, scopeId) ==> r == Raised(DoesNotExist)
    ensures hasSerializer && HasId(scopes, scopeId) ==>
      var old_ := Get(scopes, scopeId).value;
      (ScopeClash(scopes, old_.objectId, labelText, rationale, scopeId) ==> r == Raised(IntegrityError))
      && (!ScopeClash(scopes, old_.objectId, labelText, rationale, scopeId) ==> (r.Ok?
        && r.value.rows == Save(scopes, UpdatedScope(old_, labelText, rationale, status))
        && r.value.listing == Some(Owned(r.value.rows, old_.objectId))))
  {
    if !hasSerializer then Raised(SerializerMissing)
    else match Get(scopes, scopeId)
      case None => Raised(DoesNotExist)
      case Some(row) =>
        if ScopeClash(scopes, row.objectId, labelText, rationale, scopeId) then Raised(IntegrityError)
        else
          var rows := Save(scopes, UpdatedScope(row, labelText, rationale, status));
          Ok(Written(Some(Owned(rows, row.objectId)), rows))
  }

  /** A successful scope update changes only the addressed row: same id,
      owner and boundary, the new label and rationale, the status kept unless
      one is given. The table keeps its length and its constraints, and the
      listing is the owner's rows with the updated one first. */
  lemma UpdateScopeEffect(scopes: seq<Record<TopicScopeElement>>, x: Record<TopicScopeElement>, labelText: string, rationale: string, status: Option<string>)
    requires ScopeTableValid(scopes) && x in scopes
    requires UpdateScope(scopes, x.id, labelText, rationale, status, true).Ok?
    ensures var w := UpdateScope(scopes, x.id, labelText, rationale, status, true).value;
      var u := w.rows[0];
      u.id == x.id && u.objectId == x.objectId && u.fields.labelText == labelText
      && u.fields.rationale == rationale && u.fields.boundaryType == x.fields.boundaryType
      && u.fields.status == StatusOr(status, x.fields.status)
      && Without(w.rows, x.id) == Without(scopes, x.id)
      && |w.rows| == |scopes|
      && ScopeTableValid(w.rows)
      && w.listing == Some([u] + Owned(Without(scopes, x.id), x.objectId))
  {
    GetUnique(scopes, x);
    var u := UpdatedScope(x, labelText, rationale, status);
    SaveExisting(scopes, u);
    SaveScopeValid(scopes, u);
    OwnedAfterSave(scopes, u, x.objectId);
  }

  method UpdateTopicScopeElementById(db: Database, scopeId: Id, labelText: string, rationale: string, status: Option<string>, hasSerializer: bool)
    returns (r: Outcome<Option<seq<Record<TopicScopeElement>>>>)
    requires db.Valid()
    modifies db`scopes
    ensures db.Valid()
    ensures var spec := UpdateScope(old(db.scopes), scopeId, labelText, rationale, status, hasSerializer);
      r == Returned(spec) && db.scopes == RowsAfter(spec, old(db.scopes))
  {
    if !hasSerializer {
      return Raised(SerializerMissing);
    }
    var found := Get(db.scopes, scopeId);
    if found.None? {
      return Raised(DoesNotExist);
    }
    var instance := found.value;
    instance := instance.(fields := instance.fields.(labelText := labelText));
    instance := instance.(fields := instance.fields.(rationale := rationale));
    if status.Some? {
      instance := instance.(fields := instance.fields.(status := status.value));
    }
    if ScopeClash(db.scopes, instance.objectId, labelText, rationale, scopeId) {
      return Raised(IntegrityError);
    }
    SaveScopeValid(db.scopes, instance);
    db.scopes := Save(db.scopes, instance);
    r := Ok(Some(Owned(db.scopes, instance.objectId)));
  }
}
