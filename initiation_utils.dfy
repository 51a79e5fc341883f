/** The initiation-phase helpers of api/workflows/utils/initiation.py: the
    feasibility rule, get-or-create of the phase record, the owner-checked
    read-and-lock lookup and the refined-topic read. Locking and transactions
    are not modelled: the store is used by one request at a time. */
module InitiationUtils {

  import opened Common
  import opened Constants
  import opened Tables
  import opened KnowledgeModels
  import opened WorkflowModels
  import opened Store
  import opened WorkflowUtils

  // ---------------------------------------------------------------------------
  // determine_feasibility_status

  /** The final feasibility of a topic from the agent's score and niche flag:
      a niche topic or a score below 4 is LOW, otherwise 8 and above is HIGH
      and anything between is MEDIUM. */
  function DetermineFeasibility(score: int, isNiche: bool): (f: FeasibilityStatus)
    ensures f == LOW <==> isNiche || score < 4
    ensures f == HIGH <==> !isNiche && score >= 8
    ensures f == MEDIUM <==> !isNiche && 4 <= score < 8
  {
    if isNiche || score < 4 then LOW
    else if score >= 8 then HIGH
    else MEDIUM
  }

  /** LOW < MEDIUM < HIGH. */
  function Rank(f: FeasibilityStatus): nat
  {
    match f
    case LOW => 0
    case MEDIUM => 1
    case HIGH => 2
  }

  /** A higher score never gives a lower feasibility, and marking a topic
      niche never raises it. */
  lemma FeasibilityMonotone(s1: int, s2: int, n1: bool, n2: bool)
    requires s1 <= s2
    requires n2 ==> n1
    ensures Rank(DetermineFeasibility(s1, n1)) <= Rank(DetermineFeasibility(s2, n2))
  {
  }

  /** The returned string is one of the three stored values, and reading it
      back gives the level. */
  lemma FeasibilityStored(score: int, isNiche: bool)
    ensures ParseFeasibility(DetermineFeasibility(score, isNiche).Value()) == Some(DetermineFeasibility(score, isNiche))
    ensures DetermineFeasibility(score, isNiche).Value() in {"LOW", "MEDIUM", "HIGH"}
  {
  }

  // ---------------------------------------------------------------------------
  // get_or_create_initiation_data

  /** `InitiationPhaseData.objects.get_or_create(workflow=..., defaults=...)`:
      the record of the workflow, created with the defaults when missing.
      Returns the record and the table after the call. */
  function GetOrCreateInitiationData(phase: map<Id, InitiationPhaseData>, session: Id): (r: (InitiationPhaseData, map<Id, InitiationPhaseData>))
    ensures session in r.1 && r.1[session] == r.0
    ensures r.1.Keys == phase.Keys + {session}
    ensures session in phase ==> r == (phase[session], phase)
    ensures session !in phase ==> r.0 == DefaultInitiationData && r.1 == phase[session := DefaultInitiationData]
  {
    if session in phase then (phase[session], phase)
    else (DefaultInitiationData, phase[session := DefaultInitiationData])
  }

  /** Get-or-create twice is get-or-create once: the second call finds the
      record the first one left and creates nothing. */
  lemma GetOrCreateIdempotent(phase: map<Id, InitiationPhaseData>, session: Id)
    ensures var first := GetOrCreateInitiationData(phase, session);
      GetOrCreateInitiationData(first.1, session) == first
  {
  }

  /** Records of other workflows are never touched. */
  lemma GetOrCreateLeavesOthers(phase: map<Id, InitiationPhaseData>, session: Id, other: Id)
    requires other != session
    ensures other in GetOrCreateInitiationData(phase, session).1 <==> other in phase
    ensures other in phase ==> GetOrCreateInitiationData(phase, session).1[other] == phase[other]
  {
  }

  method GetOrCreateInitiationDataIn(db: Database, session: Id) returns (data: InitiationPhaseData)
    requires db.Valid()
    modifies db`phaseData
    ensures db.Valid()
    ensures (data, db.phaseData) == GetOrCreateInitiationData(old(db.phaseData), session)
  {
    if session in db.phaseData {
      data := db.phaseData[session];
    } else {
      data := DefaultInitiationData;
      db.phaseData := db.phaseData[session := data];
    }
  }

  // ---------------------------------------------------------------------------
  // atomic_read_and_lock_initiation_data

  /** The workflow and its phase record, or Http404 (from `get_object_or_404`)
      when no workflow has both this session id and this user. Returns the
      phase table after the call. */
  function ReadAndLock(workflows: map<Id, ResearchWorkflow>, phase: map<Id, InitiationPhaseData>, session: Id, user: Id)
    : (r: (Outcome<(ResearchWorkflow, InitiationPhaseData)>, map<Id, InitiationPhaseData>))
    ensures r.0.Ok? <==> session in workflows && workflows[session].userId == user
    ensures r.0.Raised? ==> r.0.error == Http404 && r.1 == phase
    ensures r.0.Ok? ==> (r.0.value.0 == workflows[session]
      && (r.0.value.1, r.1) == GetOrCreateInitiationData(phase, session))
  {
    if session !in workflows || workflows[session].userId != user then (Raised(Http404), phase)
    else
      var (data, phase') := GetOrCreateInitiationData(phase, session);
      (Ok((workflows[session], data)), phase')
  }

  method AtomicReadAndLock(db: Database, session: Id, user: Id) returns (r: Outcome<(ResearchWorkflow, InitiationPhaseData)>)
    requires db.Valid()
    modifies db`phaseData
    ensures db.Valid()
    ensures (r, db.phaseData) == ReadAndLock(db.workflows, old(db.phaseData), session, user)
    ensures r.Ok? ==> r.value.0.sessionId == session && r.value.0.userId == user
  {
    if session !in db.workflows || db.workflows[session].userId != user {
      return Raised(Http404);
    }
    var workflow := db.workflows[session];
    var created := GetOrCreateInitiationDataIn(db, session);
    // The record is read again under the lock; it is the one just found or created.
    var data := db.phaseData[session];
    r := Ok((workflow, data));
  }

  // ---------------------------------------------------------------------------
  // get_refined_topic_instance

  /** The namespace the refined-topic serializer renders. */
  datatype RefinedTopic = RefinedTopic(
    stabilityScore: real,
    feasibilityStatus: string,
    finalResearchQuestion: string,
    keywords: seq<Record<TopicKeyword>>,
    scopeElements: seq<Record<TopicScopeElement>>,
    resourceSuggestion: string)

  /** The refined topic of a session: its phase record's score, feasibility
      and question, the workflow's keywords and scope elements (each as often
      as stored, in table order), and the advice for the stored feasibility.
      A missing phase record raises DoesNotExist. */
  function GetRefinedTopic(phase: map<Id, InitiationPhaseData>, keywords: seq<Record<TopicKeyword>>, scopes: seq<Record<TopicScopeElement>>,
                           session: Id, hasSerializer: bool): (r: Outcome<RefinedTopic>)
    ensures !hasSerializer ==> r == Raised(SerializerMissing)
    ensures hasSerializer && session !in phase ==> r == Raised(DoesNotExist)
    ensures hasSerializer && session in phase ==> (r.Ok?
      && r.value.stabilityScore == phase[session].stabilityScore
      && r.value.feasibilityStatus == phase[session].feasibilityStatus
      && r.value.finalResearchQuestion == phase[session].finalResearchQuestion
      && r.value.resourceSuggestion == ResourceSuggestion(phase[session].feasibilityStatus)
      && (forall k :: k in r.value.keywords <==> k in keywords && k.objectId == session)
      && (forall e :: e in r.value.scopeElements <==> e in scopes && e.objectId == session))
    ensures hasSerializer && session in phase ==>
              (forall k :: (multiset(r.value.keywords)[k] == if k.objectId == session then multiset(keywords)[k] else 0))
              && Subsequence(r.value.keywords, keywords)
    ensures hasSerializer && session in phase ==>
              (forall e :: (multiset(r.value.scopeElements)[e] == if e.objectId == session then multiset(scopes)[e] else 0))
              && Subsequence(r.value.scopeElements, scopes)
  {
    if !hasSerializer then Raised(SerializerMissing)
    else if session !in phase then Raised(DoesNotExist)
    else
      var data := phase[session];
      OwnedInOrder(keywords, session);
      OwnedInOrder(scopes, session);
      Ok(RefinedTopic(data.stabilityScore, data.feasibilityStatus, data.finalResearchQuestion,
                      Owned(keywords, session), Owned(scopes, session), ResourceSuggestion(data.feasibilityStatus)))
  }

  /** The advice is that of the stored level; a topic whose record was just
      created by get-or-create reads as LOW, with no stability and no question. */
  lemma RefinedTopicAfterCreate(phase: map<Id, InitiationPhaseData>, keywords: seq<Record<TopicKeyword>>, scopes: seq<Record<TopicScopeElement>>, session: Id)
    requires session !in phase
    ensures var r := GetRefinedTopic(GetOrCreateInitiationData(phase, session).1, keywords, scopes, session, true);
      r.Ok? && r.value.resourceSuggestion == LowSuggestion
      && r.value.stabilityScore == 0.0 && r.value.finalResearchQuestion == ""
  {
    assert ParseFeasibility(DefaultInitiationData.feasibilityStatus) == Some(LOW);
  }

  /** A serializer field: the key it renders under, the attribute it reads
      (DRF's `source`, by default the name itself), whether it is required,
      and whether it allows null. */
  datatype SerializerField = SerializerField(name: string, source: string, required: bool, allowNull: bool)

  /** The attributes of the namespace `get_refined_topic_instance` builds. */
  const RefinedTopicAttributes: set<string> := {"stability_score", "feasibility_status", "final_research_question",
                                                "keywords", "scope_elements", "resource_suggestion"}

  /** The keys of a rendered refined topic: the serializer's field names. */
  const RefinedTopicKeys: set<string> := {"stabilityScore", "feasibilityStatus", "finalResearchQuestion",
                                          "keywords", "scope", "resourceSuggestion"}

  /** `RefinedTopicSerializer` as declared: camelCase fields with no
      `source`, all required but the resource suggestion, which allows null. */
  const RefinedTopicFieldsAsWritten: seq<SerializerField> := [
    SerializerField("stabilityScore", "stabilityScore", true, false),
    SerializerField("feasibilityStatus", "feasibilityStatus", true, false),
    SerializerField("finalResearchQuestion", "finalResearchQuestion", true, false),
    SerializerField("keywords", "keywords", true, false),
    SerializerField("scope", "scope", true, false),
    SerializerField("resourceSuggestion", "resourceSuggestion", false, true)]

  /** The same fields, each reading the namespace attribute it stands for. */
  const RefinedTopicFields: seq<SerializerField> := [
    SerializerField("stabilityScore", "stability_score", true, false),
    SerializerField("feasibilityStatus", "feasibility_status", true, false),
    SerializerField("finalResearchQuestion", "final_research_question", true, false),
    SerializerField("keywords", "keywords", true, false),
    SerializerField("scope", "scope_elements", true, false),
    SerializerField("resourceSuggestion", "resource_suggestion", false, true)]

  /** A field whose source is missing fails to render when it neither allows
      null nor is optional. */
  predicate FieldFails(f: SerializerField, attrs: set<string>)
  {
    f.source !in attrs && !f.allowNull && f.required
  }

  /** A field is rendered when its source is there, or as None when it allows
      null; an optional field without its source is skipped. */
  predicate FieldRendered(f: SerializerField, attrs: set<string>)
  {
    f.source in attrs || f.allowNull
  }

  /** `serializer.data` over an instance with the attributes (or, for a
      mapping, the keys) `attrs`. Each field reads its source; when it is
      missing, a field that allows null renders None, an optional one is
      skipped, and any other raises: AttributeError on an object, KeyError on
      a mapping. The result is the keys of the rendered data. */
  function RenderFields(fields: seq<SerializerField>, attrs: set<string>, isMapping: bool): (r: Outcome<seq<string>>)
    ensures r.Raised? <==> exists i | 0 <= i < |fields| :: FieldFails(fields[i], attrs)
    ensures r.Raised? ==> r.error == if isMapping then KeyError else AttributeError
    ensures r.Ok? ==> forall n :: n in r.value <==> exists i | 0 <= i < |fields| :: fields[i].name == n && FieldRendered(fields[i], attrs)
  {
    if fields == [] then Ok([])
    else
      var f := fields[0];
      match RenderFields(fields[1..], attrs, isMapping)
      case Raised(e) =>
        assert exists i | 0 <= i < |fields[1..]| :: FieldFails(fields[1..][i], attrs);
        var i :| 0 <= i < |fields[1..]| && FieldFails(fields[1..][i], attrs);
        assert fields[i + 1] == fields[1..][i];
        Raised(e)
      case Ok(rest) =>
        assert forall i | 1 <= i < |fields| :: fields[i] == fields[1..][i - 1];
        if FieldRendered(f, attrs) then Ok([f.name] + rest)
        else if FieldFails(f, attrs) then Raised(if isMapping then KeyError else AttributeError)
        else Ok(rest)
  }

  /** Every field of `fields` renders over `attrs`, under exactly the keys
      `names`. */
  lemma AllFieldsRender(fields: seq<SerializerField>, attrs: set<string>, isMapping: bool, names: set<string>)
    requires forall i | 0 <= i < |fields| :: fields[i].source in attrs
    requires forall n :: n in names <==> exists i | 0 <= i < |fields| :: fields[i].name == n
    ensures RenderFields(fields, attrs, isMapping).Ok?
    ensures forall n :: n in RenderFields(fields, attrs, isMapping).value <==> n in names
  {
  }

  /** The names of both declarations are exactly the rendered keys. */
  lemma RefinedTopicNames()
    ensures forall n :: n in RefinedTopicKeys <==> exists i | 0 <= i < |RefinedTopicFields| :: RefinedTopicFields[i].name == n
    ensures forall n :: n in RefinedTopicKeys <==> exists i | 0 <= i < |RefinedTopicFieldsAsWritten| :: RefinedTopicFieldsAsWritten[i].name == n
  {
    forall n ensures n in RefinedTopicKeys <==> exists i | 0 <= i < |RefinedTopicFields| :: RefinedTopicFields[i].name == n {
      if n in RefinedTopicKeys {
        if n == "stabilityScore" { assert RefinedTopicFields[0].name == n; }
        else if n == "feasibilityStatus" { assert RefinedTopicFields[1].name == n; }
        else if n == "finalResearchQuestion" { assert RefinedTopicFields[2].name == n; }
        else if n == "keywords" { assert RefinedTopicFields[3].name == n; }
        else if n == "scope" { assert RefinedTopicFields[4].name == n; }
        else { assert RefinedTopicFields[5].name == n; }
      }
    }
    assert forall i | 0 <= i < |RefinedTopicFields| :: RefinedTopicFieldsAsWritten[i].name == RefinedTopicFields[i].name;
  }

  /** The refined topic is rendered twice: by the helper over the namespace,
      and again by the view over the helper's data, whose keys are the field
      names. With the fields as declared, the first pass raises
      AttributeError (their camelCase sources are not attributes of the
      namespace) and the second would succeed; with the fields mapped to the
      namespace's attributes, the first pass renders every field and the
      second raises KeyError. So neither declaration makes both passes
      succeed. */
  lemma RefinedTopicRendering()
    ensures RenderFields(RefinedTopicFieldsAsWritten, RefinedTopicAttributes, false) == Raised(AttributeError)
    ensures RenderFields(RefinedTopicFieldsAsWritten, RefinedTopicKeys, true).Ok?
    ensures RenderFields(RefinedTopicFields, RefinedTopicAttributes, false).Ok?
    ensures forall n :: n in RenderFields(RefinedTopicFields, RefinedTopicAttributes, false).value <==> n in RefinedTopicKeys
    ensures RenderFields(RefinedTopicFields, RefinedTopicKeys, true) == Raised(KeyError)
  {
    AsWrittenFailsOnNamespace();
    MappedFailsOnKeys();
    MappedRendersOnNamespace();
    AsWrittenRendersOnKeys();
  }

  /** The mapped fields render every key over the namespace. */
  lemma MappedRendersOnNamespace()
    ensures RenderFields(RefinedTopicFields, RefinedTopicAttributes, false).Ok?
    ensures forall n :: n in RenderFields(RefinedTopicFields, RefinedTopicAttributes, false).value <==> n in RefinedTopicKeys
  {
    RefinedTopicNames();
    assert forall i | 0 <= i < |RefinedTopicFields| :: RefinedTopicFields[i].source in RefinedTopicAttributes;
    AllFieldsRender(RefinedTopicFields, RefinedTopicAttributes, false, RefinedTopicKeys);
  }

  /** The declared fields render over the helper's data. */
  lemma AsWrittenRendersOnKeys()
    ensures RenderFields(RefinedTopicFieldsAsWritten, RefinedTopicKeys, true).Ok?
  {
    RefinedTopicNames();
    assert forall i | 0 <= i < |RefinedTopicFieldsAsWritten| :: RefinedTopicFieldsAsWritten[i].source in RefinedTopicKeys;
    AllFieldsRender(RefinedTopicFieldsAsWritten, RefinedTopicKeys, true, RefinedTopicKeys);
  }

  /** The declared score field names no attribute of the namespace. */
  lemma AsWrittenFailsOnNamespace()
    ensures RenderFields(RefinedTopicFieldsAsWritten, RefinedTopicAttributes, false) == Raised(AttributeError)
  {
    assert FieldFails(RefinedTopicFieldsAsWritten[0], RefinedTopicAttributes);
  }

  /** The mapped score field names no key of the helper's data. */
  lemma MappedFailsOnKeys()
    ensures RenderFields(RefinedTopicFields, RefinedTopicKeys, true) == Raised(KeyError)
  {
    assert FieldFails(RefinedTopicFields[0], RefinedTopicKeys);
  }


}
