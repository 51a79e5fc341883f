/** The keyword worker of api/knowledge/tasks.py: for each label the event
    asks to lock, `update_or_create` the owner's keyword with that label and
    status AI_EXTRACTED. The upsert is keyed on (owner, label), the columns of
    the keyword table's unique constraint, and a created keyword is given its
    owner's content type as well as its id (the model keeps the id alone; the
    source passes neither the type nor `label`, see
    `UpdateTopicKeywordsAsWritten`). */
module KnowledgeTasks {

  import opened Common
  import opened Constants
  import opened Tables
  import opened KnowledgeModels
  import opened Store

  /** The two payload entries the worker task reads: `session_id` (None when absent)
      and `refined_keywords_to_lock` (None when absent, read as []). */
  datatype KeywordsPayload = KeywordsPayload(sessionId: Option<Id>, refinedKeywordsToLock: Option<seq<string>>)

  /** The labels the worker task walks through. */
  function LabelsOf(p: KeywordsPayload): seq<string>
  {
    if p.refinedKeywordsToLock.Some? then p.refinedKeywordsToLock.value else []
  }

  /** The owner's keyword with this label, if there is one. */
  function FindKeyword(rows: seq<Record<TopicKeyword>>, owner: Id, labelText: string): (r: Option<Record<TopicKeyword>>)
    ensures r.Some? ==> r.value in rows && r.value.objectId == owner && r.value.fields.labelText == labelText
    ensures r.None? <==> !KeywordExists(rows, owner, labelText)
  {
    if rows == [] then None
    else if rows[0].objectId == owner && rows[0].fields.labelText == labelText then Some(rows[0])
    else FindKeyword(rows[1..], owner, labelText)
  }

  /** One `update_or_create`: the found row gets status AI_EXTRACTED and is
      saved; otherwise a new keyword with that label (whose status is
      AI_EXTRACTED) is created for the owner, with the owner's content type
      among the create arguments. */
  function UpsertKeyword(rows: seq<Record<TopicKeyword>>, owner: Id, labelText: string): (r: seq<Record<TopicKeyword>>)
    ensures r != [] && r[0].objectId == owner && r[0].fields.labelText == labelText
    ensures r[0].fields.status == AI_EXTRACTED.Value()
  {
    match FindKeyword(rows, owner, labelText)
    case Some(row) => Save(rows, row.(fields := row.fields.(status := AI_EXTRACTED.Value())))
    case None => Save(rows, Record(FreshId(rows), owner, NewKeyword(labelText)))
  }

  /** The loop: the upserts of `labels`, in order; the last label's keyword
      is the most recently saved. */
  function UpsertKeywords(rows: seq<Record<TopicKeyword>>, owner: Id, labels: seq<string>): (r: seq<Record<TopicKeyword>>)
    ensures labels == [] ==> r == rows
    ensures labels != [] ==>
              r != [] && r[0].objectId == owner && r[0].fields.labelText == labels[|labels| - 1]
              && r[0].fields.status == AI_EXTRACTED.Value()
    decreases |labels|
  {
    if labels == [] then rows
    else UpsertKeyword(UpsertKeywords(rows, owner, labels[..|labels| - 1]), owner, labels[|labels| - 1])
  }

  /** The worker task on a keyword table: a listed label with no session would be
      stored with a NULL owner, which the table refuses; the first upsert
      raises and nothing is written. */
  function UpdateTopicKeywords(rows: seq<Record<TopicKeyword>>, p: KeywordsPayload): (r: Outcome<seq<Record<TopicKeyword>>>)
    ensures LabelsOf(p) == [] ==> r == Ok(rows)
    ensures LabelsOf(p) != [] && p.sessionId.None? ==> r == Raised(IntegrityError)
    ensures p.sessionId.Some? ==> r == Ok(UpsertKeywords(rows, p.sessionId.value, LabelsOf(p)))
  {
    if LabelsOf(p) == [] then Ok(rows)
    else if p.sessionId.None? then Raised(IntegrityError)
    else Ok(UpsertKeywords(rows, p.sessionId.value, LabelsOf(p)))
  }

  /** The worker task as written: its `update_or_create` filters on a `text` column,
      which the keyword table does not have, so the query for the first
      listed label raises FieldError before anything is written. */
  function UpdateTopicKeywordsAsWritten(rows: seq<Record<TopicKeyword>>, p: KeywordsPayload): (r: Outcome<seq<Record<TopicKeyword>>>)
    ensures LabelsOf(p) == [] <==> r.Ok?
    ensures r.Ok? ==> r.value == rows
    ensures r.Raised? ==> r.error == FieldError
  {
    if LabelsOf(p) == [] then Ok(rows) else Raised(FieldError)
  }

  // ---------------------------------------------------------------------------
  // One upsert.

  /** The owner has a keyword with this label, with status AI_EXTRACTED. */
  predicate Extracted(rows: seq<Record<TopicKeyword>>, owner: Id, labelText: string)
  {
    exists y | y in rows :: y.objectId == owner && y.fields.labelText == labelText && y.fields.status == AI_EXTRACTED.Value()
  }

  /** An upsert keeps the constraints, leaves the owner with an AI_EXTRACTED
      keyword for the label, and keeps every row with another owner or label
      as it was. An upsert on a label the owner already has adds no row. */
  lemma UpsertKeywordEffect(rows: seq<Record<TopicKeyword>>, owner: Id, labelText: string)
    requires KeywordTableValid(rows)
    ensures KeywordTableValid(UpsertKeyword(rows, owner, labelText))
    ensures Extracted(UpsertKeyword(rows, owner, labelText), owner, labelText)
    ensures forall y | y in rows && (y.objectId != owner || y.fields.labelText != labelText) :: y in UpsertKeyword(rows, owner, labelText)
    ensures forall y | y in UpsertKeyword(rows, owner, labelText) && (y.objectId != owner || y.fields.labelText != labelText) :: y in rows
    ensures KeywordExists(rows, owner, labelText) ==> |UpsertKeyword(rows, owner, labelText)| == |rows|
  {
    var out := UpsertKeyword(rows, owner, labelText);
    match FindKeyword(rows, owner, labelText)
    case Some(row) =>
      var u := row.(fields := row.fields.(status := AI_EXTRACTED.Value()));
      forall y | y in rows && y.id != u.id && y.objectId == u.objectId ensures y.fields.labelText != u.fields.labelText {
        if y.fields.labelText == u.fields.labelText {
          KeywordKeyIdentifies(rows, y, row);
        }
      }
      SaveKeywordValid(rows, u);
      SaveExisting(rows, u);
      assert out[0] == u;
    case None =>
      var n := Record(FreshId(rows), owner, NewKeyword(labelText));
      SaveKeywordValid(rows, n);
      assert out[0] == n;
  }

  /** Upserting a label whose keyword is already AI_EXTRACTED changes which
      rows the table holds not at all. */
  lemma UpsertKeywordSettled(rows: seq<Record<TopicKeyword>>, owner: Id, labelText: string)
    requires KeywordTableValid(rows) && Extracted(rows, owner, labelText)
    ensures forall y :: y in UpsertKeyword(rows, owner, labelText) <==> y in rows
    ensures |UpsertKeyword(rows, owner, labelText)| == |rows|
  {
    var e :| e in rows && e.objectId == owner && e.fields.labelText == labelText && e.fields.status == AI_EXTRACTED.Value();
    var row := FindKeyword(rows, owner, labelText).value;
    KeywordKeyIdentifies(rows, e, row);
    assert row.(fields := row.fields.(status := AI_EXTRACTED.Value())) == row;
    SaveSame(rows, row);
  }

  // ---------------------------------------------------------------------------
  // The loop.

  /** The loop keeps the table's constraints. */
  lemma {:induction false} UpsertKeywordsValid(rows: seq<Record<TopicKeyword>>, owner: Id, labels: seq<string>)
    requires KeywordTableValid(rows)
    ensures KeywordTableValid(UpsertKeywords(rows, owner, labels))
    decreases |labels|
  {
    if labels != [] {
      UpsertKeywordsValid(rows, owner, labels[..|labels| - 1]);
      UpsertKeywordEffect(UpsertKeywords(rows, owner, labels[..|labels| - 1]), owner, labels[|labels| - 1]);
    }
  }

  /** Rows of other owners and of unlisted labels are still there, and no row
      other than the listed labels' rows was added. */
  lemma {:induction false} UpsertKeywordsFrame(rows: seq<Record<TopicKeyword>>, owner: Id, labels: seq<string>)
    requires KeywordTableValid(rows)
    ensures forall y | y in rows && (y.objectId != owner || y.fields.labelText !in labels) :: y in UpsertKeywords(rows, owner, labels)
    ensures forall y | y in UpsertKeywords(rows, owner, labels) && (y.objectId != owner || y.fields.labelText !in labels) :: y in rows
    decreases |labels|
  {
    if labels != [] {
      var init := labels[..|labels| - 1];
      var last := labels[|labels| - 1];
      assert labels == init + [last];
      UpsertKeywordsFrame(rows, owner, init);
      UpsertKeywordsValid(rows, owner, init);
      UpsertKeywordEffect(UpsertKeywords(rows, owner, init), owner, last);
    }
  }

  /** After the loop every listed label has an AI_EXTRACTED keyword of the
      owner (a LOCKED keyword is reset). */
  lemma {:induction false} UpsertKeywordsExtracted(rows: seq<Record<TopicKeyword>>, owner: Id, labels: seq<string>)
    requires KeywordTableValid(rows)
    ensures forall l | l in labels :: Extracted(UpsertKeywords(rows, owner, labels), owner, l)
    decreases |labels|
  {
    if labels != [] {
      var init := labels[..|labels| - 1];
      var last := labels[|labels| - 1];
      assert labels == init + [last];
      var mid := UpsertKeywords(rows, owner, init);
      var out := UpsertKeywords(rows, owner, labels);
      UpsertKeywordsExtracted(rows, owner, init);
      UpsertKeywordsValid(rows, owner, init);
      UpsertKeywordEffect(mid, owner, last);
      forall l | l in labels ensures Extracted(out, owner, l) {
        if l != last {
          assert l in init;
          var y :| y in mid && y.objectId == owner && y.fields.labelText == l && y.fields.status == AI_EXTRACTED.Value();
          assert y in out;
        }
      }
    }
  }

  /** Exactly one row per listed label: the constraint makes the AI_EXTRACTED
      keyword the owner's only keyword with that label. */
  lemma UpsertKeywordsUnique(rows: seq<Record<TopicKeyword>>, owner: Id, labels: seq<string>, l: string, y: Record<TopicKeyword>)
    requires KeywordTableValid(rows) && l in labels
    requires y in UpsertKeywords(rows, owner, labels) && y.objectId == owner && y.fields.labelText == l
    ensures y.fields.status == AI_EXTRACTED.Value()
  {
    var out := UpsertKeywords(rows, owner, labels);
    UpsertKeywordsValid(rows, owner, labels);
    UpsertKeywordsExtracted(rows, owner, labels);
    var e :| e in out && e.objectId == owner && e.fields.labelText == l && e.fields.status == AI_EXTRACTED.Value();
    KeywordKeyIdentifies(out, e, y);
  }

  /** Once every listed label is AI_EXTRACTED, running the loop again changes
      which rows the table holds not at all. */
  lemma {:induction false} UpsertKeywordsSettled(rows: seq<Record<TopicKeyword>>, owner: Id, labels: seq<string>)
    requires KeywordTableValid(rows)
    requires forall l | l in labels :: Extracted(rows, owner, l)
    ensures forall y :: y in UpsertKeywords(rows, owner, labels) <==> y in rows
    ensures |UpsertKeywords(rows, owner, labels)| == |rows|
    decreases |labels|
  {
    if labels != [] {
      var init := labels[..|labels| - 1];
      var last := labels[|labels| - 1];
      assert labels == init + [last];
      UpsertKeywordsSettled(rows, owner, init);
      var mid := UpsertKeywords(rows, owner, init);
      UpsertKeywordsValid(rows, owner, init);
      assert last in labels;
      var e :| e in rows && e.objectId == owner && e.fields.labelText == last && e.fields.status == AI_EXTRACTED.Value();
      assert e in mid;
      UpsertKeywordSettled(mid, owner, last);
    }
  }

  /** Re-running the same payload adds no rows and leaves the same rows. */
  lemma UpdateTopicKeywordsIdempotent(rows: seq<Record<TopicKeyword>>, p: KeywordsPayload)
    requires KeywordTableValid(rows)
    requires UpdateTopicKeywords(rows, p).Ok?
    ensures var once := UpdateTopicKeywords(rows, p).value;
      UpdateTopicKeywords(once, p).Ok?
      && |UpdateTopicKeywords(once, p).value| == |once|
      && forall y :: y in UpdateTopicKeywords(once, p).value <==> y in once
  {
    if p.sessionId.Some? {
      UpsertKeywordsValid(rows, p.sessionId.value, LabelsOf(p));
      UpsertKeywordsExtracted(rows, p.sessionId.value, LabelsOf(p));
      UpsertKeywordsSettled(UpsertKeywords(rows, p.sessionId.value, LabelsOf(p)), p.sessionId.value, LabelsOf(p));
    }
  }

  /** For a payload that names a session and lists labels, the worker task as
      written locks nothing, while the worker task keyed on the table's `label`
      column leaves every listed label with an AI_EXTRACTED keyword of that
      session. */
  lemma UpdateTopicKeywordsDiscrepancy(rows: seq<Record<TopicKeyword>>, p: KeywordsPayload)
    requires KeywordTableValid(rows)
    requires p.sessionId.Some? && LabelsOf(p) != []
    ensures UpdateTopicKeywordsAsWritten(rows, p) == Raised(FieldError)
    ensures UpdateTopicKeywords(rows, p).Ok?
    ensures forall l | l in LabelsOf(p) :: Extracted(UpdateTopicKeywords(rows, p).value, p.sessionId.value, l)
  {
    UpsertKeywordsExtracted(rows, p.sessionId.value, LabelsOf(p));
  }

  // ---------------------------------------------------------------------------
  // The worker task on the database.

  method UpdateTopicKeywordsTask(db: Database, p: KeywordsPayload) returns (r: Outcome<()>)
    requires db.Valid()
    modifies db`keywords
    ensures db.Valid()
    ensures var spec := UpdateTopicKeywords(old(db.keywords), p);
      (r.Ok? <==> spec.Ok?) && (spec.Raised? ==> r.error == spec.error)
      && db.keywords == if spec.Ok? then spec.value else old(db.keywords)
  {
    var labels := LabelsOf(p);
    if labels != [] && p.sessionId.None? {
      return Raised(IntegrityError);
    }
    if labels == [] {
      return Ok(());
    }
    var owner := p.sessionId.value;
    var i := 0;
    while i < |labels|
      invariant 0 <= i <= |labels|
      invariant db.keywords == UpsertKeywords(old(db.keywords), owner, labels[..i])
      invariant db.Valid()
    {
      assert labels[..i + 1][..i] == labels[..i];
      UpsertKeywordEffect(db.keywords, owner, labels[i]);
      var found := FindKeyword(db.keywords, owner, labels[i]);
      if found.Some? {
        var row := found.value;
        row := row.(fields := row.fields.(status := AI_EXTRACTED.Value()));
        db.keywords := Save(db.keywords, row);
      } else {
        db.keywords := Save(db.keywords, Record(FreshId(db.keywords), owner, NewKeyword(labels[i])));
      }
      i := i + 1;
    }
    assert labels[..i] == labels;
    r := Ok(());
  }
}
