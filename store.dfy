/** The ORM store the workflow helpers read and write: one table per model,
    held in the fields of a single `Database` object. Helpers receive the
    object and change only the tables their `modifies` clauses name. */
module Store {

  import opened Common
  import opened Tables
  import opened KnowledgeModels
  import opened WorkflowModels

  class Database {
    /** Research workflows by primary key (the session id). */
    var workflows: map<Id, ResearchWorkflow>
    /** Initiation-phase data by workflow: a one-to-one primary key, so at
        most one record per workflow. */
    var phaseData: map<Id, InitiationPhaseData>
    var keywords: seq<Record<TopicKeyword>>
    var scopes: seq<Record<TopicScopeElement>>
    var logs: seq<Record<ReflectionLog>>
    var chat: seq<Record<ChatHistoryEntry>>

    /** The database constraints: primary keys, the two unique constraints of
        the knowledge models, and workflows filed under their own key. */
    ghost predicate Valid()
      reads this
    {
      (forall s | s in workflows :: workflows[s].sessionId == s)
      && KeywordTableValid(keywords)
      && ScopeTableValid(scopes)
      && IdsUnique(logs)
      && IdsUnique(chat)
    }

    constructor ()
      ensures Valid()
      ensures workflows == map[] && phaseData == map[]
      ensures keywords == [] && scopes == [] && logs == [] && chat == []
    {
      workflows := map[];
      phaseData := map[];
      keywords := [];
      scopes := [];
      logs := [];
      chat := [];
    }
  }
}
