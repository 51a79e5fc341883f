/** The knowledge records a research workflow owns: topic keywords and topic
    scope elements (api/knowledge/models.py). Each is stored as a
    `Tables.Record` whose `objectId` is the owning workflow's session id. */
module KnowledgeModels {

  import opened Common
  import opened Constants
  import opened Tables

  /** Whether a scope element includes or excludes an aspect of the topic. */
  datatype BoundaryType = INCLUSION | EXCLUSION
  {
    function Value(): string
    {
      match this
      case INCLUSION => "INCLUSION"
      case EXCLUSION => "EXCLUSION"
    }
  }

  /** Reads a stored boundary type back: exactly the two enumeration values are accepted. */
  function ParseBoundaryType(s: string): (r: Option<BoundaryType>)
    ensures r.Some? ==> r.value.Value() == s
    ensures r.None? <==> s != "INCLUSION" && s != "EXCLUSION"
  {
    if s == "INCLUSION" then Some(INCLUSION)
    else if s == "EXCLUSION" then Some(EXCLUSION)
    else None
  }

  /** A semantic unit of the research topic (`labelText` is the `label`
      column; `label` is a Dafny keyword). `importanceWeight` is a float
      whose validators ask for [0, 1]; Django runs them only on `full_clean`,
      not on `save`, so the model does not enforce the bound on stored rows. */
  datatype TopicKeyword = TopicKeyword(
    labelText: string,
    importanceWeight: real,
    isCore: bool,
    semanticCategory: Option<string>,
    status: string)

  /** A boundary of the research topic. */
  datatype TopicScopeElement = TopicScopeElement(
    labelText: string,
    boundaryType: string,
    rationale: string,
    status: string)

  /** The validator range of `importance_weight`. */
  predicate WeightInRange(w: real)
  {
    0.0 <= w <= 1.0
  }

  /** `TopicKeyword(label=...)`: a keyword built with every field default. */
  function NewKeyword(labelText: string): (k: TopicKeyword)
    ensures k.labelText == labelText
    ensures k.status == AI_EXTRACTED.Value() && !k.isCore && k.importanceWeight == 0.5
    ensures k.semanticCategory.None? && WeightInRange(k.importanceWeight)
  {
    TopicKeyword(labelText, 0.5, false, None, AI_EXTRACTED.Value())
  }

  /** `TopicScopeElement(label=..., rationale=...)`: a scope element built with
      every field default. */
  function NewScopeElement(labelText: string, rationale: string): (e: TopicScopeElement)
    ensures e.labelText == labelText && e.rationale == rationale
    ensures e.boundaryType == INCLUSION.Value() && e.status == AI_EXTRACTED.Value()
  {
    TopicScopeElement(labelText, INCLUSION.Value(), rationale, AI_EXTRACTED.Value())
  }

  /** The fields of `unique_keyword_per_session` besides `object_id`. */
  function KeywordKey(k: TopicKeyword): string
  {
    k.labelText
  }

  /** The fields of `unique_scope_element_per_session` besides `object_id`. */
  function ScopeKey(e: TopicScopeElement): (string, string)
  {
    (e.labelText, e.rationale)
  }

  /** The keyword table: unique primary keys, at most one keyword per (owner, label). */
  predicate KeywordTableValid(rows: seq<Record<TopicKeyword>>)
  {
    IdsUnique(rows) && KeysUnique(rows, KeywordKey)
  }

  /** The scope table: unique primary keys, at most one element per (owner, label, rationale). */
  predicate ScopeTableValid(rows: seq<Record<TopicScopeElement>>)
  {
    IdsUnique(rows) && KeysUnique(rows, ScopeKey)
  }

  /** Some keyword of this owner already has this label. */
  predicate KeywordExists(rows: seq<Record<TopicKeyword>>, owner: Id, labelText: string)
  {
    exists y | y in rows :: y.objectId == owner && y.fields.labelText == labelText
  }

  /** Some scope element of this owner already has this label and rationale. */
  predicate ScopeExists(rows: seq<Record<TopicScopeElement>>, owner: Id, labelText: string, rationale: string)
  {
    exists y | y in rows :: y.objectId == owner && y.fields.labelText == labelText && y.fields.rationale == rationale
  }

  /** Some keyword other than the row `except` has this owner and label. */
  predicate KeywordClash(rows: seq<Record<TopicKeyword>>, owner: Id, labelText: string, except: Id)
  {
    exists y | y in rows :: y.id != except && y.objectId == owner && y.fields.labelText == labelText
  }

  /** Some scope element other than the row `except` has this owner, label and rationale. */
  predicate ScopeClash(rows: seq<Record<TopicScopeElement>>, owner: Id, labelText: string, rationale: string, except: Id)
  {
    exists y | y in rows :: y.id != except && y.objectId == owner && y.fields.labelText == labelText && y.fields.rationale == rationale
  }

  /** Saving a keyword keeps the keyword table valid exactly when it does not
      clash with another keyword of its owner; the database refuses the clash. */
  lemma SaveKeywordValid(rows: seq<Record<TopicKeyword>>, r: Record<TopicKeyword>)
    requires KeywordTableValid(rows)
    ensures KeywordTableValid(Save(rows, r)) <==> !KeywordClash(rows, r.objectId, r.fields.labelText, r.id)
  {
    if KeywordClash(rows, r.objectId, r.fields.labelText, r.id) {
      var y :| y in rows && y.id != r.id && y.objectId == r.objectId && y.fields.labelText == r.fields.labelText;
      var s := Save(rows, r);
      assert y in s;
      var j :| 0 <= j < |s| && s[j] == y;
      assert s[0] == r && j != 0;
      assert KeywordKey(s[0].fields) == KeywordKey(s[j].fields);
    } else {
      SaveKeepsUnique(rows, r, KeywordKey);
    }
  }

  /** The same for the scope table. */
  lemma SaveScopeValid(rows: seq<Record<TopicScopeElement>>, r: Record<TopicScopeElement>)
    requires ScopeTableValid(rows)
    ensures ScopeTableValid(Save(rows, r)) <==> !ScopeClash(rows, r.objectId, r.fields.labelText, r.fields.rationale, r.id)
  {
    if ScopeClash(rows, r.objectId, r.fields.labelText, r.fields.rationale, r.id) {
      var y :| y in rows && y.id != r.id && y.objectId == r.objectId
        && y.fields.labelText == r.fields.labelText && y.fields.rationale == r.fields.rationale;
      var s := Save(rows, r);
      assert y in s;
      var j :| 0 <= j < |s| && s[j] == y;
      assert s[0] == r && j != 0;
      assert ScopeKey(s[0].fields) == ScopeKey(s[j].fields);
    } else {
      SaveKeepsUnique(rows, r, ScopeKey);
    }
  }

  /** In a valid keyword table, (owner, label) identifies at most one row. */
  lemma KeywordKeyIdentifies(rows: seq<Record<TopicKeyword>>, a: Record<TopicKeyword>, b: Record<TopicKeyword>)
    requires KeywordTableValid(rows) && a in rows && b in rows
    requires a.objectId == b.objectId && a.fields.labelText == b.fields.labelText
    ensures a == b
  {
    var i :| 0 <= i < |rows| && rows[i] == a;
    var j :| 0 <= j < |rows| && rows[j] == b;
    assert KeywordKey(rows[i].fields) == KeywordKey(rows[j].fields);
  }

  /** In a valid scope table, (owner, label, rationale) identifies at most one row. */
  lemma ScopeKeyIdentifies(rows: seq<Record<TopicScopeElement>>, a: Record<TopicScopeElement>, b: Record<TopicScopeElement>)
    requires ScopeTableValid(rows) && a in rows && b in rows
    requires a.objectId == b.objectId && a.fields.labelText == b.fields.labelText && a.fields.rationale == b.fields.rationale
    ensures a == b
  {
    var i :| 0 <= i < |rows| && rows[i] == a;
    var j :| 0 <= j < |rows| && rows[j] == b;
    assert ScopeKey(rows[i].fields) == ScopeKey(rows[j].fields);
  }
}
