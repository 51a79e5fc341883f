# Auraflux Nexus research-workflow back end, modelled in Dafny

Auraflux Nexus is a Django/REST framework back end. It guides a user through
Kuhlthau's Information Search Process, one research *workflow* (session) at a
time. This project models its decision rules and store operations:

- the initiation phase: the feasibility rule, the advice texts, the phase
  record's get-or-create and the owner-checked locked read;
- the keyword, scope-element and reflection-log helpers and the views in
  front of them, with the (owner, label) and (owner, label, rationale)
  uniqueness constraints kept as table invariants;
- the chat-input view that publishes the stream-request event;
- the older SEARCH→SCOPE workflow-state machine;
- the worker tasks: the suggestion agent, the handler dispatcher, the keyword
  upsert and the default canvas;
- the event bus and the per-user WebSocket notification group;
- the permission classes and the login and refresh views;
- the initial-admin command and the mock search.

The ORM is modelled as in-memory tables:

- A table with a UUID primary key is a `seq<Record<D>>`, kept most recently
  saved first. That is the `ordering = ['-updated_at']` of the models.
- Saving a row moves it to the front, and creating a row prepends it.
- A table keyed by a one-to-one link is a `map`.
- `Store.Database` holds the tables. Its methods change only the tables their
  `modifies` clause names.

Each view is a function from the request and the tables to a `Handled`
value: the response, or the exception that escapes, together with the
tables afterwards. Events are published as `Messaging.Publication` values.

The following are parameters of the model rather than part of it:

- the language-model client, `json.loads`, `importlib` and the token library;
- whether a serializer class is passed;
- database faults.

Identifiers (UUIDs and auto-increment ids) are natural numbers. Their text
form is decimal, with a parse round-trip proved in `Text`.

## Model

| member | source | states |
|---|---|---|
| Constants.ParseFeasibility | api/core/constants.py:5-12 | reading a stored feasibility value gives HIGH, MEDIUM or LOW exactly for "HIGH", "MEDIUM" and "LOW", and None for any other text |
| Constants.ValuesDistinct | api/core/constants.py:5-65 | the stored values of each enumeration are pairwise distinct, so a stored text names one member |
| InitiationUtils.DetermineFeasibility | api/workflows/utils/initiation.py:73-79 | LOW exactly when niche or the score is below 4; HIGH exactly when not niche and the score is at least 8; MEDIUM exactly when not niche and 4 ≤ score < 8 |
| InitiationUtils.FeasibilityMonotone | api/workflows/utils/initiation.py:73-79 | a higher score, or dropping the niche flag, never lowers the level |
| InitiationUtils.FeasibilityStored | api/workflows/utils/initiation.py:73-79 | the returned value is one of the three stored strings, and parsing it gives the level back |
| WorkflowUtils.ResourceSuggestion | api/workflows/utils/base.py:23-30 | each stored level gets its own advice text; any other value gets the fallback text |
| WorkflowUtils.SuggestionIdentifiesLevel | api/workflows/utils/base.py:23-30 | equal advice means the same stored level, or none |
| InitiationUtils.GetOrCreateInitiationData | api/workflows/utils/initiation.py:81-101 | a found record is returned, with the table unchanged; otherwise exactly the default record is created for that workflow; the keys become the old keys plus the session |
| InitiationUtils.GetOrCreateIdempotent | api/workflows/utils/initiation.py:81-101 | get-or-create twice equals get-or-create once |
| InitiationUtils.GetOrCreateLeavesOthers | api/workflows/utils/initiation.py:81-101 | the records of other workflows are untouched, and none appear or vanish |
| InitiationUtils.GetOrCreateInitiationDataIn | api/workflows/utils/initiation.py:81-101 | the database method returns the found or created record, and its phase table equals the function's result |
| WorkflowModels.DefaultInitiationDataFields | api/workflows/utils/initiation.py:91-100 | the created record has stability 0, empty question and summary, LOW feasibility, last analysed sequence 0, stability count 0, and no transition flag, history or keywords |
| InitiationUtils.ReadAndLock | api/workflows/utils/initiation.py:11-38 | succeeds exactly when a workflow has both the session id and the user id; otherwise raises Http404 and writes nothing; on success returns that workflow and its found or created phase record |
| InitiationUtils.AtomicReadAndLock | api/workflows/utils/initiation.py:11-38 | the database method agrees with `ReadAndLock`; a returned workflow has the requested session and user |
| InitiationUtils.GetRefinedTopic | api/workflows/utils/initiation.py:51-71 | no serializer raises ValueError; a missing phase record raises DoesNotExist; otherwise the topic carries the record's score and feasibility, the advice of that feasibility, and the session's keywords and scope elements, each as often as it is stored and in table order |
| InitiationUtils.RefinedTopicAfterCreate | api/workflows/utils/initiation.py:51-71 | after get-or-create, the refined topic exists, and a freshly created record gives the LOW advice |
| WorkflowModels.EmotionalState | api/workflows/models.py:21-24 | "Uncertainty" exactly for INITIATION, "N/A" otherwise |
| WorkflowModels.LaterStagesHaveNoFeeling | api/workflows/models.py:10-24 | every stage after initiation maps to "N/A" |
| WorkflowModels.DefaultWorkflow | api/workflows/models.py:44-66 | a workflow created with key and owner only is at INITIATION and active |
| WorkflowModels.InsertBySequence | api/core/models.py:61-67 | inserting adds exactly one entry, and the front is the new entry or the old front |
| WorkflowModels.OrderBySequence | api/core/models.py:61-67 | ordering keeps the number of entries |
| WorkflowModels.InsertBySequenceKeeps | api/core/models.py:61-67 | inserting an entry in sequence order keeps the multiset of entries plus the new one |
| WorkflowModels.InsertBySequenceSorted | api/core/models.py:61-67 | inserting into a sequence-sorted history keeps it sorted |
| WorkflowModels.OrderBySequenceSorts | api/core/models.py:61-67 | ordering a history by `sequence_number` is a permutation that is sorted |
| WorkflowModels.ChatHistoryOf | api/core/models.py:50-67 | a session's history has no more entries than the chat table |
| WorkflowModels.ChatHistoryOfSession | api/core/models.py:50-67 | a session's history holds exactly that session's entries, each as often as it is stored |
| WorkflowUtils.CreateWorkflow | api/workflows/utils/base.py:13-21 | creation succeeds exactly for a new session id and stores exactly the given session id, user id and stage; a used key raises IntegrityError |
| WorkflowUtils.GetWorkflow | api/workflows/utils/base.py:160-169 | finds a workflow exactly when both the session id and the user id match, and raises DoesNotExist otherwise |
| WorkflowUtils.CreateThenGet | api/workflows/utils/base.py:160-169 | a created workflow is found by its owner and by no other user |
| WorkflowUtils.CreateWorkflowIn | api/workflows/utils/base.py:13-21 | the database method agrees with `CreateWorkflow` and stores exactly its result |
| WorkflowUtils.StatusOr | api/workflows/utils/base.py:48-49 | a status argument that is not None overrides the default |
| WorkflowUtils.GetBySession | api/workflows/utils/base.py:73-84 | no serializer raises ValueError; an unknown session returns None; otherwise returns the session's rows, each as often as it is stored and in table order (a subsequence of the table) |
| Tables.Owned | api/workflows/utils/base.py:69 | the filter on `object_id` keeps exactly the owner's rows, each as often as it is stored |
| Tables.OwnedInOrder | api/workflows/utils/base.py:69 | the owner's rows are a subsequence of the table, so they keep its order |
| WorkflowUtils.CreateReflectionLog | api/workflows/utils/base.py:32-54 | ValueError before any lookup without a serializer; None and no write for an unknown session; otherwise one new log (DRAFT unless a status is given) in front of the table, and the listing is the session's logs |
| WorkflowUtils.UpdateReflectionLog | api/workflows/utils/base.py:56-71 | ValueError without a serializer; DoesNotExist for an unknown id; otherwise the log is saved with the new title and content, and the listing is its owner's logs |
| WorkflowUtils.UpdateReflectionLogEffect | api/workflows/utils/base.py:60-71 | the update keeps the id and owner, overwrites title and content, keeps the status when none is given, and leaves every other log stored |
| WorkflowUtils.CreateReflectionLogBySession | api/workflows/utils/base.py:32-54 | the database method returns the function's listing and stores its rows |
| WorkflowUtils.UpdateReflectionLogById | api/workflows/utils/base.py:56-71 | the database method returns the function's listing and stores its rows; an error writes nothing |
| WorkflowUtils.CreateTopicKeyword | api/workflows/utils/base.py:124-145 | ValueError without a serializer; None for an unknown session; IntegrityError for a duplicate (owner, label); otherwise a new keyword of the session (USER_DRAFT unless a status is given) in front, and the listing is the session's keywords |
| WorkflowUtils.CreateTopicKeywordValid | api/workflows/utils/base.py:124-145 | creating a keyword keeps the keyword table's constraints, and the listing includes the new keyword and every earlier keyword of the session |
| WorkflowUtils.CreateTopicKeywordBySession | api/workflows/utils/base.py:124-145 | the database method agrees with `CreateTopicKeyword` |
| WorkflowUtils.CreateTopicScopeElementAsWritten | api/workflows/utils/base.py:86-109 | as written, a known session always raises IntegrityError, because the element is saved without an owner |
| WorkflowUtils.ScopeCreateAsWrittenNeverStores | api/workflows/utils/base.py:86-109 | as written, the helper never stores an element and never returns a listing |
| WorkflowUtils.CreateTopicScopeElement | api/workflows/utils/base.py:86-109 | as intended: a new USER_DRAFT element (or the given status) owned by the session; IntegrityError for a duplicate (owner, label, rationale); None for an unknown session |
| WorkflowUtils.CreateTopicScopeElementValid | api/workflows/utils/base.py:86-109 | creating an element keeps the scope table's constraints, and the listing includes the new element and every earlier element of the session |
| WorkflowUtils.CreateTopicScopeElementBySession | api/workflows/utils/base.py:86-109 | the database method agrees with `CreateTopicScopeElement` |
| KnowledgeModels.ParseBoundaryType | api/knowledge/models.py:78-80 | exactly "INCLUSION" and "EXCLUSION" are boundary types |
| KnowledgeModels.NewKeyword | api/knowledge/models.py:28-47 | a new keyword is AI_EXTRACTED, not core, with no category and weight 0.5, which lies in [0, 1] |
| KnowledgeModels.NewScopeElement | api/knowledge/models.py:95-107 | a new scope element is an INCLUSION with status AI_EXTRACTED |
| KnowledgeModels.SaveKeywordValid | api/knowledge/models.py:61-66 | in a valid table, the table after a save is valid if and only if no other keyword of the owner has the saved label |
| KnowledgeModels.SaveScopeValid | api/knowledge/models.py:121-126 | in a valid table, the table after a save is valid if and only if no other element of the owner has the saved label and rationale |
| KnowledgeModels.KeywordKeyIdentifies | api/knowledge/models.py:61-66 | in a valid table, (owner, label) identifies one keyword |
| KnowledgeModels.ScopeKeyIdentifies | api/knowledge/models.py:121-126 | in a valid table, (owner, label, rationale) identifies one element |
| KnowledgeUtils.UpdateKeyword | api/knowledge/utils.py:23-37 | ValueError without a serializer; DoesNotExist for an unknown id; IntegrityError when another keyword of the owner has the new label; otherwise the keyword is saved, and the listing is exactly its owner's keywords |
| KnowledgeUtils.UpdateKeywordEffect | api/knowledge/utils.py:27-37 | only the addressed keyword changes: its id and owner are kept, the label is replaced, and the status is replaced only when given; the listing reflects the update and the table stays valid |
| KnowledgeUtils.UpdateKeywordRefusal | api/knowledge/utils.py:27-33 | re-saving a keyword under its own label always succeeds |
| KnowledgeUtils.UpdateTopicKeywordById | api/knowledge/utils.py:23-37 | the database method agrees with `UpdateKeyword`; an error writes nothing |
| KnowledgeUtils.UpdateScope | api/knowledge/utils.py:6-21 | ValueError without a serializer; DoesNotExist for an unknown id; otherwise label and rationale are replaced (and the status when given), and the listing is exactly the owner's elements |
| KnowledgeUtils.UpdateScopeEffect | api/knowledge/utils.py:10-21 | only the addressed element changes, keeping its id and owner; the listing reflects the update |
| KnowledgeUtils.UpdateTopicScopeElementById | api/knowledge/utils.py:6-21 | the database method agrees with `UpdateScope`; an error writes nothing |
| KnowledgeTasks.FindKeyword | api/knowledge/tasks.py:16-20 | finds a keyword of the owner with the label exactly when one exists |
| KnowledgeTasks.UpsertKeyword | api/knowledge/tasks.py:16-20 | the upserted keyword is saved first, owned by the session, with the label and status AI_EXTRACTED |
| KnowledgeTasks.UpsertKeywords | api/knowledge/tasks.py:15-20 | no labels leave the table as it is; otherwise the last label's keyword is saved first, owned by the session and AI_EXTRACTED |
| KnowledgeTasks.UpdateTopicKeywords | api/knowledge/tasks.py:10-20 | no listed labels change nothing; labels without a session raise IntegrityError; otherwise the table is the upserts in order |
| KnowledgeTasks.UpdateTopicKeywordsAsWritten | api/knowledge/tasks.py:10-20 | as written, the worker task succeeds only when no labels are listed, and otherwise raises FieldError |
| KnowledgeTasks.UpdateTopicKeywordsDiscrepancy | api/knowledge/tasks.py:15-20 | for a session with labels, the worker task as written raises, while the upsert keyed on `label` leaves every label AI_EXTRACTED |
| KnowledgeTasks.UpsertKeywordEffect | api/knowledge/tasks.py:16-20 | one upsert keeps the constraints and leaves the owner with an AI_EXTRACTED keyword of that label; it adds at most one row and keeps the others |
| KnowledgeTasks.UpsertKeywordSettled | api/knowledge/tasks.py:16-20 | upserting a label that is already AI_EXTRACTED keeps the same set and number of rows |
| KnowledgeTasks.UpsertKeywordsValid | api/knowledge/tasks.py:15-20 | the loop keeps the table's constraints |
| KnowledgeTasks.UpsertKeywordsFrame | api/knowledge/tasks.py:15-20 | rows of other owners and of unlisted labels are kept unchanged, and no row is lost |
| KnowledgeTasks.UpsertKeywordsExtracted | api/knowledge/tasks.py:15-20 | every listed label ends with an AI_EXTRACTED keyword of the session; a LOCKED one is reset |
| KnowledgeTasks.UpsertKeywordsUnique | api/knowledge/tasks.py:15-20 | every keyword of the session with a listed label is AI_EXTRACTED, since the constraint leaves one such row |
| KnowledgeTasks.UpsertKeywordsSettled | api/knowledge/tasks.py:15-20 | once every listed label is AI_EXTRACTED, the loop changes nothing in rows or count |
| KnowledgeTasks.UpdateTopicKeywordsIdempotent | api/knowledge/tasks.py:14-20 | re-running the same payload adds no rows and keeps the same rows |
| KnowledgeTasks.UpdateTopicKeywordsTask | api/knowledge/tasks.py:10-20 | the worker's loop stores exactly the function's result, keeps the database valid, and writes nothing on error |
| KnowledgeViews.AnswerUpdate | api/knowledge/views.py:54-62 | a helper's success answers 200 with the owner's listing; DoesNotExist answers 404 and writes nothing; other errors escape |
| KnowledgeViews.KeywordPut | api/knowledge/views.py:45-62 | a missing or empty text answers 400 and writes nothing; otherwise the answer follows `UpdateKeyword`, with an absent status passed as None |
| KnowledgeViews.KeywordPutOutcomes | api/knowledge/views.py:45-62 | an unknown id answers 404 with no write; a stored id answers 200, keeps the stored status when none is sent, and keeps the table valid |
| KnowledgeViews.ScopePut | api/knowledge/views.py:91-115 | `label` is checked before `value` (400 each); the request value goes to the label parameter and the request label to the rationale |
| KnowledgeViews.ScopePutOutcomes | api/knowledge/views.py:91-115 | an unknown id answers 404 with no write; a stored id answers 200 and stores the request value as label and the request label as rationale |
| InitiationViews.SessionText | api/workflows/views/initiation.py:416 | the session text parses back to the id |
| InitiationViews.CatchStateMissing | api/workflows/views/initiation.py:143-147 | DoesNotExist answers 404 with the session message; any other exception escapes |
| InitiationViews.KeywordPost | api/workflows/views/initiation.py:132-154 | a missing text answers 400 with no write; otherwise the answer and tables follow `CreateTopicKeyword` |
| InitiationViews.KeywordPostOutcomes | api/workflows/views/initiation.py:132-154 | an unknown session answers 201 with an empty body and no write; a duplicate escapes as a server error with no write; otherwise 201 with the new keyword (USER_DRAFT or the sent status) and the session's list |
| InitiationViews.ScopePost | api/workflows/views/initiation.py:209-238 | label then value are required (400 each); the answer follows `CreateTopicScopeElement` with swapped arguments |
| InitiationViews.ScopePostSwapsArguments | api/workflows/views/initiation.py:209-238 | a created element stores the request value as its label and the request label as its rationale; the table stays valid |
| InitiationViews.RefinedTopicGetAsWritten | api/workflows/views/initiation.py:63-77 | as written, every request raises ValueError and is a server error |
| InitiationViews.RefinedTopicGet | api/workflows/views/initiation.py:63-77 | as intended, with the serializer passed, its fields reading the record's attributes and the helper's data answered without a second serialization: 200 exactly when the phase record exists, with the refined topic whose advice matches the stored feasibility; 404 otherwise |
| InitiationViews.RefinedTopicGetDiscrepancy | api/workflows/views/initiation.py:63-77 | for every session with a phase record, as written 500 and as intended 200 |
| InitiationUtils.RenderFields | api/workflows/serializers/definition.py:12-17 | rendering raises exactly when a field that is required and does not allow null misses its source, with AttributeError on an object and KeyError on a mapping; otherwise it gives exactly the fields whose source is present or that allow null |
| InitiationUtils.RefinedTopicRendering | api/workflows/serializers/definition.py:12-17 | the fields as declared fail on the helper's namespace with AttributeError but render over the helper's data; mapped to the namespace's attributes they render all six keys there but fail on the helper's data with KeyError; so no declaration passes both the helper's and the view's serialization |
| InitiationViews.LockedKeywords | api/workflows/views/initiation.py:421 | the session's LOCKED keywords and nothing else, each as often as it is stored |
| InitiationViews.LockedKeywordsInOrder | api/workflows/views/initiation.py:421 | the locked keywords are a subsequence of the table, so they keep its order |
| InitiationViews.LockedScopes | api/workflows/views/initiation.py:422 | the session's LOCKED scope elements and nothing else, each as often as it is stored |
| InitiationViews.LockedScopesInOrder | api/workflows/views/initiation.py:422 | the locked scope elements are a subsequence of the table, so they keep its order |
| InitiationViews.RoleOf | api/workflows/views/initiation.py:387 | the sent role, or "ExplorerAgent" when absent |
| InitiationViews.LockFailure | api/workflows/views/initiation.py:400-406 | not-found answers 404; PermissionError answers 403 with its message; any other fault answers 500 "Database access error." |
| InitiationViews.LockFailureAsWritten | api/workflows/views/initiation.py:400-406 | as written: only DoesNotExist answers 404, so Http404 answers 500 with every other fault; PermissionError answers 403 with its message |
| InitiationViews.ChatInput | api/workflows/views/initiation.py:385-440 | the view always answers, publishes at most one event, and publishes exactly when it answers 202 |
| InitiationViews.ChatInputRefusals | api/workflows/views/initiation.py:386-413 | a missing message gives 400 before any lookup, then 404 or 403 with the phase table untouched, then 409 for a stage other than DEFINITION; none of them publishes |
| InitiationViews.ChatPayloadFields | api/workflows/views/initiation.py:415-427 | the payload has exactly the eleven keys, with the session text, user, message, role, question draft, summary, last analysed sequence, LOCKED keywords and scopes, an empty discarded list and the session's history |
| InitiationViews.PayloadMapFields | api/workflows/views/initiation.py:415-427 | the payload map holds exactly the eleven keys, each with its given value |
| InitiationViews.ChatInputAccepted | api/workflows/views/initiation.py:415-440 | a 202 means every check passed and exactly one stream-request event on the stream queue was published, carrying that payload; the chat table is only read |
| InitiationViews.ChatInputAsWritten | api/workflows/views/initiation.py:385-440 | as written, the view never publishes, and a lock fault is answered by the as-written except-chain |
| InitiationViews.ChatInputAsWrittenNeverAccepts | api/workflows/views/initiation.py:394-413 | as written, every request with a message and no lock fault is a server error |
| InitiationViews.ChatInputDiscrepancy | api/workflows/views/initiation.py:394-413 | an unknown session: as written 500, as intended 404; an owned session at DEFINITION: as written 500, as intended 202 with one event |
| BaseViews.ChatHistoryGet | api/workflows/views/base.py:77-79 | the answer is 200 with data |
| BaseViews.ChatHistoryGetExact | api/workflows/views/base.py:77-79 | the history holds exactly the session's entries, each as often as stored, sorted by sequence number |
| BaseViews.ReflectionFieldsMissing | api/workflows/views/base.py:138-148 | a missing title answers 400 before content is checked; then a missing content answers 400; nothing is refused when both are given |
| BaseViews.ReflectionPost | api/workflows/views/base.py:134-168 | a refused request writes nothing; otherwise the answer and tables follow `CreateReflectionLog` with the sent status or None |
| BaseViews.ReflectionPostOutcomes | api/workflows/views/base.py:134-168 | a valid POST always answers 201; an unknown session gets an empty body and no write; a known one one new log in front and the session's logs |
| BaseViews.ReflectionPut | api/workflows/views/base.py:195-224 | the same title-then-content checks; an unknown id answers 404 with no write; otherwise 200 per `UpdateReflectionLog` |
| BaseViews.ReflectionPutOutcomes | api/workflows/views/base.py:195-224 | a valid PUT of a stored log answers 200 with exactly the owner's logs as body; the log keeps its id and owner, carries the new title and content, the sent status when one is sent, and else its old status |
| LegacyWorkflowUtils.LegacyStore.constructor | api/workflows/utils.py:9-25 | the store starts with no states and no sources |
| LegacyWorkflowUtils.GetOrCreateState | api/workflows/utils.py:9-25 | a stored state is returned unchanged; otherwise the default (step SEARCH, empty scope and analysis data) is stored and returned; other users are untouched |
| LegacyWorkflowUtils.GetOrCreateStateDefaults | api/workflows/utils.py:16-24 | the created state has exactly the three default fields, and get-or-create is idempotent |
| LegacyWorkflowUtils.GetOrCreateWorkflowState | api/workflows/utils.py:9-25 | the store method agrees with `GetOrCreateState` |
| LegacyWorkflowUtils.LastValue | api/workflows/utils.py:48-53 | None exactly when no keyword argument names the field; otherwise the last value given for it |
| LegacyWorkflowUtils.ApplyKwargs | api/workflows/utils.py:47-58 | the loop neither adds nor removes a field |
| LegacyWorkflowUtils.ApplyKwargsEffect | api/workflows/utils.py:47-58 | the field set is unchanged; a named existing field takes its last value; unknown names are ignored; unnamed fields keep their values |
| LegacyWorkflowUtils.UpdateWorkflowState | api/workflows/utils.py:27-58 | DoesNotExist, with nothing changed, exactly when the user has no state; otherwise the state with the arguments applied, with the same field set |
| LegacyWorkflowUtils.UpdateWorkflowStateIn | api/workflows/utils.py:27-58 | the store method's loop stores exactly `UpdateWorkflowState`'s result and changes nothing on error |
| LegacyWorkflowViews.DataLock | api/workflows/views.py:22-78 | as intended, with the state serialized under "new_step": the view always answers, with 200, 400, 404 or 500 |
| LegacyWorkflowViews.DataLockOutcomes | api/workflows/views.py:22-78 | as intended, 200 exactly when there is no fault, the step is SEARCH and the user has sources; then the new state is the old one with step SCOPE, and other users are unchanged; the step check comes before the sources check |
| LegacyWorkflowViews.DataLockTwice | api/workflows/views.py:36-40 | a second lock after a successful one answers 400 with the SCOPE step |
| LegacyWorkflowViews.DataLockAsWritten | api/workflows/views.py:75-78 | as written: the state change is the intended one; the response raises TypeError exactly when the intended view answers 200, and otherwise is the intended response |
| LegacyWorkflowViews.DataLockAsWrittenDiscrepancy | api/workflows/views.py:22-78 | as written the view is never served 200; where the intended view is, the lock is served 500 although SCOPE is stored, and a retry answers 400; a user with a knowledge source whose state was just created at SEARCH shows it |
| LegacyWorkflowViews.StateGet | api/workflows/views.py:88-111 | the answer is always 200 with data |
| LegacyWorkflowViews.StateGetMatchesGetOrCreate | api/workflows/views.py:88-111 | the GET answers the stored state, or without one the default that get-or-create would create; nothing is stored |
| AgentTasks.RequestFor | api/agents/tasks.py:49-60 | the request holds one user message with the input and name "User"; it uses the role's name and system prompt, and the configured model name or else "gemini-2.0-flash" |
| AgentTasks.StripFences | api/agents/tasks.py:63 | the result neither begins nor ends with white space; a fenced JSON block whose body has no backticks strips to its trimmed body; text with no backticks is only trimmed |
| AgentTasks.FencesRemoved | api/agents/tasks.py:63 | removing every "```json" and then every "```" from a body with no backticks leaves it unchanged |
| AgentTasks.FenceRemovalCases | api/agents/tasks.py:63 | the raw removal turns a fenced block into its body and leaves text with no backticks as it is |
| AgentTasks.CompletionPayload | api/agents/tasks.py:68-72 | the completion payload has exactly the workflow, user and suggestions entries |
| AgentTasks.LoadConfig | api/agents/tasks.py:42 | a missing role raises DoesNotExist; otherwise gives that role's configuration |
| AgentTasks.HandleSuggestionRequest | api/agents/tasks.py:18-85 | at most one event is published, and only by a run that does not raise |
| AgentTasks.HandleSuggestionRequestOutcomes | api/agents/tasks.py:29-85 | each branch in full: the gate, the missing config, the uninitialised client as RuntimeError, and the publish of the parsed suggestions |
| AgentTasks.ForeignFailureReraised | api/agents/tasks.py:82-85 | an error from generation or parsing is re-raised unchanged and nothing is published |
| AgentTasks.HandleSuggestionRequestEvent | api/agents/tasks.py:74-77 | the bus afterwards holds the old tasks plus exactly those of the worker task's publications |
| Dispatch.HandlerMap | api/workflows/tasks.py:20 | a missing setting reads as the empty map |
| Dispatch.SplitHandlerPath | api/workflows/tasks.py:34 | a non-string raises AttributeError; a string without a dot raises ValueError; otherwise the module and name rejoin with "." to the path, and the name has no dot |
| Dispatch.ImportModule | api/workflows/tasks.py:37 | an empty module path raises ValueError, a relative one raises TypeError, an unknown one ImportError; otherwise the module's names |
| Dispatch.DispatchAgentTask | api/workflows/tasks.py:9-55 | at most one handler call per task |
| Dispatch.DispatchOutcomes | api/workflows/tasks.py:23-55 | an unknown role or an empty path calls nothing; the task raises exactly for a path without a dot (ValueError), with an empty module part (ValueError) or a module part starting with "." (TypeError), and nothing else escapes; otherwise one call with the workflow id and input exactly when the module exists and has the name |
| Dispatch.DispatchEscapes | api/workflows/tasks.py:34-44 | the paths ".h", ".a.b" and "a.h" raise ValueError, TypeError and nothing respectively, and call no handler |
| Dispatch.Worker.constructor | api/workflows/tasks.py:9-10 | a fresh worker has made no calls |
| Dispatch.Worker.Dispatch | api/workflows/tasks.py:9-55 | the worker's calls grow by exactly the dispatcher's calls, and its outcome matches |
| Messaging.TaskFor | api/messaging/tasks.py:22-27 | the worker task is named by the event type and carries the event type and the payload |
| Messaging.ListenerReceivesPublished | api/messaging/tasks.py:22-27 | a listener reading `(event_type, payload)` receives exactly what was published |
| Messaging.TasksFor | api/messaging/tasks.py:7-27 | one task per publication, in order |
| Messaging.EventBus.constructor | api/messaging/tasks.py:7-27 | the bus starts empty |
| Messaging.EventBus.PublishEvent | api/messaging/tasks.py:7-27 | one more task is sent, and the earlier ones are untouched |
| Messaging.EventBus.Deliver | api/messaging/tasks.py:7-27 | delivering publications appends exactly their tasks, in order |
| RealtimeUtils.GroupName | api/realtime/utils.py:7-12 | the group is "user_" followed by the decimal id, which parses back to the id |
| RealtimeUtils.GroupNameInjective | api/realtime/utils.py:7-12 | different users have different groups |
| RealtimeUtils.NotificationMessage | api/realtime/utils.py:23-33 | the group message has type "send_notification" and carries the event type and data |
| RealtimeUtils.ChannelLayer.constructor | api/realtime/utils.py:14-33 | the layer starts with no groups and no messages |
| RealtimeUtils.ChannelLayer.GroupAdd | api/realtime/consumers.py:26-32 | the channel joins the group, and nothing else changes |
| RealtimeUtils.ChannelLayer.GroupDiscard | api/realtime/consumers.py:42-47 | the channel leaves the group, and nothing else changes |
| RealtimeUtils.ChannelLayer.GroupSend | api/realtime/utils.py:23-33 | one message is appended for the group |
| RealtimeUtils.SendWsNotification | api/realtime/utils.py:14-33 | with no layer nothing is sent; otherwise exactly one notification goes to the user's group |
| RealtimeConsumers.Frame | api/realtime/consumers.py:51-67 | the frame carries the event type, the status (default "success") and the payload (default empty) |
| RealtimeConsumers.NotificationReachesClient | api/realtime/utils.py:23-33 | a notification built by the sender becomes a frame with its event type, "success" and its data |
| RealtimeConsumers.NotificationConsumer.constructor | api/realtime/consumers.py:16-36 | a new connection has joined no group, is neither accepted nor closed, and has sent nothing |
| RealtimeConsumers.NotificationConsumer.Connect | api/realtime/consumers.py:16-36 | an unauthenticated user is closed without joining; an authenticated one joins its own group and is accepted |
| RealtimeConsumers.NotificationConsumer.Disconnect | api/realtime/consumers.py:38-47 | the channel leaves its group only if it joined one |
| RealtimeConsumers.NotificationConsumer.SendNotification | api/realtime/consumers.py:51-67 | exactly one frame is sent to the client |
| RealtimeConsumers.NotificationConsumer.Receive | api/realtime/consumers.py:69-70 | an incoming message changes nothing |
| RealtimeConsumers.ConsumerAndSenderAgree | api/realtime/consumers.py:26-32 | the group a consumer joins is the group the sender addresses for that user |
| Canvases.NewNode | api/canvases/models.py:9-42 | a new node has the given label, type and owner, groundedness 5 and solidity PULSING |
| Canvases.FreshKey | api/core/models.py:13-18 | the returned key is not in use |
| Canvases.CanvasStore.constructor | api/canvases/models.py:45-81 | an empty, valid store |
| Canvases.CreateNewCanvasByWorkflowId | api/canvases/utils.py:6-14 | exactly one new canvas "Default Canvas" for the workflow, one new NAVIGATION node labelled with that name and owned by the canvas, and its membership; nothing earlier changes; the store stays valid |
| Canvases.CanvasTaskOutcome | api/canvases/tasks.py:9-19 | a missing or None `workflow_id` raises ValueError("workflow_id can not be None."); otherwise the worker task proceeds with that id |
| Canvases.CanvasTaskReadsOnlyWorkflowId | api/canvases/tasks.py:9-19 | payloads that agree on `workflow_id` have the same outcome |
| Canvases.CreateNewCanvas | api/canvases/tasks.py:9-19 | an error writes nothing; otherwise one new default canvas for the id, one new NAVIGATION node labelled with its name and owned by it, and that node's membership; nothing earlier changes |
| Permissions.IsSelfOrAdminAsWritten | api/users/permissions.py:20-26 | as written, an anonymous request raises AttributeError; an authenticated one is granted for an admin or for the user's own object |
| Permissions.IsSelfOrAdminDiscrepancy | api/users/permissions.py:20-26 | anonymous: as written raises, as intended refuses; the two agree on authenticated users; every admin is granted, and a non-admin exactly for their own object |
| Permissions.PermissionFacts | api/users/permissions.py:12-39 | safe methods need authentication only, other methods the admin role; an anonymous user passes no admin check |
| Permissions.IsAdmin | api/users/permissions.py:12-13 | only an authenticated user can pass |
| Permissions.IsSelfOrAdmin | api/users/permissions.py:20-26 | as intended: an anonymous user is refused, and an admin is always granted |
| Permissions.IsAdminOrReadOnly | api/users/permissions.py:33-39 | an anonymous user is refused for every method, and an admin is granted for every method |
| UserViews.PermissionsFor | api/users/views.py:209-220 | "list" gets IsAdmin; retrieve, update, partial_update and destroy get IsSelfOrAdmin; every other action gets IsAuthenticated (each an if-and-only-if) |
| UserViews.PermittedByAction | api/users/views.py:209-220 | listing needs an admin; one user's object needs that user or an admin; other actions need any authenticated user |
| UserViews.Permitted | api/users/views.py:209-220 | no action is permitted to an anonymous user |
| UserViews.RefreshPost | api/users/views.py:106-150 | every escaping error is an AuthenticationFailed, which this view, having no authentication classes, serves as 403 |
| UserViews.RefreshPostOutcomes | api/users/views.py:114-150 | a missing cookie refuses before refreshing; success answers 200 with the access cookie first, and the refresh cookie exactly when a new one came back; an authentication failure passes through; other failures become "invalid or expired" |
| UserViews.LoginPostOutcomes | api/users/views.py:59-102 | cookies are set only when the credentials identify a user, and then both, with that user's tokens; otherwise 400 "Invalid credentials." with no cookie |
| UserViews.LoginPost | api/users/views.py:26-102 | the view raises exactly when the request is invalid, and then a ValidationError served as 400; an answer is 200 or 400 |
| InitialAdmin.Setting | api/users/management/commands/create_initial_admin.py:26-28 | the configured value, or the default |
| InitialAdmin.NewSuperuser | api/users/management/commands/create_initial_admin.py:32-36 | a created superuser is staff, with the model's default role "user" |
| InitialAdmin.Handle | api/users/management/commands/create_initial_admin.py:14-44 | existing users mean no change; a failure report exactly when the table was empty and a step failed; at most one user is added, after the existing ones |
| InitialAdmin.HandleCreatesAdmin | api/users/management/commands/create_initial_admin.py:20-40 | on an empty table, exactly one superuser is created, with the configured or default credentials and the admin role |
| InitialAdmin.HandleIdempotent | api/users/management/commands/create_initial_admin.py:20-22 | once a run has left a user, a second run changes nothing; two runs add at most one user |
| InitialAdmin.UserStore.constructor | api/users/management/commands/create_initial_admin.py:20 | an empty user table |
| InitialAdmin.HandleCommand | api/users/management/commands/create_initial_admin.py:14-44 | the command on the store gives exactly `Handle`'s users and report |
| Search.SearchPost | api/search/views.py:10-64 | the answer is one of the three fixed result lists |
| Search.SearchPostSelection | api/search/views.py:11-60 | the startup keyword anywhere selects the two startup results, even with the childhood keyword; the childhood keyword alone selects its one result; anything else, a missing query included, selects the two default results |
| Http.ListingBody | api/workflows/utils/base.py:36-39 | a helper's None becomes an empty body and a listing becomes the data |
| Http.ServedStatus | api/users/views.py:31 | an escaping AuthenticationFailed is served 401 by a view that authenticates and 403 by one with no authentication classes; ValidationError 400; Http404 404; anything else 500 |
| Http.Served | api/workflows/views/base.py:77-79 | an answer keeps its status; an escaping exception is served 401, 400, 404 or 500 |

## Left out

- Serializers, JSON rendering and `json.loads` are left out. A serializer is a parameter or an opaque function from rows to JSON values, and the parse is a parameter of the agent task.
- Request-level validation is not modelled. This covers the `WorkflowChatInputRequestSerializer`, the login serializer and the search serializer. The login serializer's verdict is a boolean parameter.
- Model validators and CharField choices are not enforced on save, as in Django. The importance-weight range is stated only for the default.
- WorkflowModels.InitiationPhaseData: the fields `stabilityScore`, `finalResearchQuestion`, `feasibilityStatus`, `conversationSummary` and `lastAnalysisSequenceNumber` come from the helpers that read and write them (api/workflows/utils/initiation.py:61-68, 93-99); the model at api/workflows/models.py:80-158 does not declare them, and its `clarity_score`, `da_activation_threshold`, `last_da_execution_time`, `da_validation_report` and `ea_reasoning_log` are left out. The helpers link the record by `workflow` (lines 36, 55-58, 92), where the model's link is `workflow_state`, and api/workflows/utils/base.py:95-156 uses `keywords` and `scope_elements` relations that `ResearchWorkflowState` does not declare. As written, `get_or_create` would raise FieldError, so `ReadAndLock` and `ChatInput` model the helpers as if these fields and links existed.
- The ORM's `content_type` column is not modelled. Owners are the `object_id` alone. A keyword the upsert creates therefore needs no `content_type` in the model (see the finding on api/knowledge/tasks.py:16-20).
- Timestamps are not modelled: the table order stands for `-updated_at`. Fresh ids are one more than the largest id and stand for `uuid4`.
- Logging, the Celery transport and `task_id` are left out.
- The async wrappers (`sync_to_async`, `async_to_sync`) are left out.
- InitiationViews.ChatInput: `publish_event.delay(..., queue=...)` passes `queue` as a task keyword argument, which `publish_event` does not accept, so as written the call can raise TypeError before anything is sent. The model's publish is the intended `apply_async(..., queue=...)`: it records the queue on the publication.
- InitiationViews.ChatInput: the locked-keyword and locked-scope queries filter on `initiation_data_id`, which neither model has. The model reads them as the session's LOCKED rows.
- InitiationViews.ChatInput: the stage gate is modelled against DEFINITION, since `ISPStep.TOPIC_DEFINITION` does not exist. The as-written behaviour is `ChatInputAsWritten`. "DEFINITION" (api/core/constants.py:42) is not a `KuhlthauStage` value (api/workflows/models.py:10-16), and a workflow starts at INITIATION, so the corrected gate answers 409 to every workflow except one created with the initial stage "DEFINITION", which the unenforced choices allow. `ChatInputDiscrepancy`'s accepted case is such a workflow.
- Several modules import names that do not exist, and each is modelled as if its imports resolved:
  - `ReflectionLog` and `ResearchWorkflow` from `workflows.models` (api/workflows/utils/base.py:6);
  - `ResearchWorkflow` from `workflows.models` (api/workflows/utils/initiation.py:7);
  - `ChatHistoryEntry` and `ReflectionLog` from `workflows.models` (api/workflows/views/base.py:12), and `ChatHistoryEntry`, `TopicKeyword` and `TopicScopeElement` from the same module (api/workflows/views/initiation.py:17-19);
  - `TopicKeywordSerializer` and `TopicScopeElementSerializer` from `workflows.serializers` (api/workflows/views/initiation.py:20-25);
  - `update_topic_keyword_by_id` and `update_topic_scope_element_by_id` from `workflows.utils` (api/workflows/views/initiation.py:26-33);
  - `TopicKeywordsUpdated` and `TopicScopeElementsUpdated` from `messaging.constants` (api/knowledge/tasks.py:3);
  - `DICHOTOMY_SUGGESTION_COMPLETED` from `messaging.constants` (api/agents/tasks.py:10), and `CreateNewCanvas` from the same module (api/canvases/tasks.py:4);
  - `KnowledgeSource`, `WorkflowState`, `DataLockSerializer` and `WorkflowStateSerializer` through the legacy module's relative imports (api/workflows/views.py:8-9).
- The legacy api/workflows/views.py and api/workflows/utils.py are shadowed by the packages api/workflows/views/ and api/workflows/utils/, so nothing can import them as written. They are modelled as the modules they would be on their own.
- Constants.DichotomySuggestionCompleted: api/messaging/constants.py does not define this event, so its value "DICHOTOMY_SUGGESTION_COMPLETED" is the model's own choice.
- InitiationViews.RefinedTopicGet: the view passes the helper's result, already rendered, to `RefinedTopicSerializer` a second time (api/workflows/views/initiation.py:76-77). That second pass decides the answer: over the helper's camelCase keys, fields mapped to the snake_case attributes raise KeyError (`InitiationUtils.RefinedTopicRendering`). The intended view modelled here answers the helper's data as it is; the finding on api/workflows/views/initiation.py:69 says so.
- The keyword and scope PUT views are in both api/knowledge/views.py and api/workflows/views/initiation.py:241-337, and differ only in serializer. They are modelled once, in `KnowledgeViews`.
- KnowledgeTasks.UpdateTopicKeywords: the upsert is keyed on the table's `label` column, as intended. The as-written `text` key is `UpdateTopicKeywordsAsWritten`.
- KnowledgeTasks.UpdateTopicKeywords: the event reaches the worker task as the two payload entries it reads (`KeywordsPayload`). A payload of any other shape is not modelled.
- `update_topic_scope_elements` is not modelled: its body is not part of the files modelled here.
- `patch_initiation_phase_data` is not modelled for the same reason.
- The thin GET views of keywords, scope elements and reflection logs are modelled only through `WorkflowUtils.GetBySession`.
- The streaming, refinement and stability workers are not part of this model. Only their queue and name constants exist.
- InitiationViews.CatchStateMissing: the view's second `except <Model>.DoesNotExist` clause is folded into the first, since the helpers raise neither.
- LegacyWorkflowViews: the legacy `WorkflowState` and `KnowledgeSource` models are not part of the files modelled here. A state is a map of field values whose defaults are those of `get_or_create`, and the sources table is a list of owner ids.
- LegacyWorkflowViews.DataLock: a step that is not text is written as "" in the message, and `str(e)` is modelled only for exceptions that carry a message.
- LegacyWorkflowViews.DataLock: the database faults on reading and on the transition are parameters.
- AgentTasks.HandleSuggestionRequest: it does not tell `AgentRoleConfig.DoesNotExist` from other DoesNotExist errors raised later. Any DoesNotExist is the swallowed branch.
- AgentTasks.HandleSuggestionRequest: the client manager is a boolean, and the language-model call and the JSON parse are parameters.
- Dispatch.DispatchAgentTask: the handler's own effects are not modelled. Its exceptions are swallowed, as in the source.
- RealtimeUtils.SendWsNotification: `json.dumps` and the socket transport are not modelled. A frame is a value.
- RealtimeConsumers.NotificationConsumer.SendNotification: the log of `self.user_id` before connect is left out.
- Canvases.CreateNewCanvasByWorkflowId: the workflow foreign key is not checked, and the spatial fields of `SpatialMixin` are left out.
- UserViews.LoginPostOutcomes: token issue, `authenticate`, cookie attributes and lifetimes are parameters or left out. The success body is the user id rather than the serialized user, and the validation message is a placeholder.
- UserViews.RefreshPost: the refresh is a parameter standing for the token library.
- InitialAdmin.Handle: the text written to stdout is abstracted to a `Report`, and the place of a failure is a parameter.
- Search.SearchPost: lower-casing is ASCII only. Neither keyword contains a letter that case folding would change.

## Findings

| source | as written | input that shows it | evidently intended | confidence | as-written member | corrected member |
|---|---|---|---|---|---|---|
| api/workflows/views/initiation.py:394-406 | the lookup raises Http404 from `get_object_or_404`, but the view catches `ResearchWorkflowState.DoesNotExist`, so `except Exception` answers 500 | a chat message for a session id with no workflow | 404 "Workflow session not found or access denied." | not executed | InitiationViews.ChatInputAsWritten | InitiationViews.ChatInput |
| api/workflows/views/initiation.py:408-413 | `ISPStep.TOPIC_DEFINITION` does not exist, so every request past the lookup raises AttributeError (500) | a chat message for an owned workflow at any stage | compare with `ISPStep.DEFINITION`: 409 or 202 | not executed | InitiationViews.ChatInputAsWrittenNeverAccepts | InitiationViews.ChatInput |
| api/workflows/utils/base.py:94-105 | the new scope element is only `.save()`d and never attached to the workflow, so it has no owner and the insert fails | a scope POST with label and value for a known session | attach it like the keyword helper and return the session's list | not executed | WorkflowUtils.CreateTopicScopeElementAsWritten | WorkflowUtils.CreateTopicScopeElement |
| api/workflows/views/initiation.py:69 | `get_refined_topic_instance` is called without `serializer_class`, so it always raises ValueError (500); passing `RefinedTopicSerializer` alone would not help, since its camelCase fields name no attribute of the snake_case topic (`InitiationUtils.RefinedTopicRendering`) | any GET of the refined topic | pass `RefinedTopicSerializer` with each field reading its snake_case attribute through `source=`, and answer the helper's data without serializing it again at lines 76-77: 200 or 404 | not executed | InitiationViews.RefinedTopicGetAsWritten | InitiationViews.RefinedTopicGet |
| api/users/permissions.py:20-26 | `request.user.role` is read with no authentication check, and the anonymous user has no `role`, so AttributeError (500) | an anonymous retrieve of a user object | refuse the anonymous request | not executed | Permissions.IsSelfOrAdminAsWritten | Permissions.IsSelfOrAdmin |
| api/knowledge/tasks.py:16-20 | `update_or_create` filters on `text`, which `TopicKeyword` lacks, so the first listed label raises FieldError | a payload with a session and one listed keyword | key the upsert on `label`, and give a created keyword the workflow's `content_type` as well as its id | not executed | KnowledgeTasks.UpdateTopicKeywordsAsWritten | KnowledgeTasks.UpdateTopicKeywords |
| api/workflows/views.py:75-78 | the 200 response puts the `WorkflowState` instance under "new_step", which JSON rendering refuses with TypeError, after SCOPE has been saved | a lock for a user at SEARCH with sources | serialize the state's fields | not executed | LegacyWorkflowViews.DataLockAsWritten | LegacyWorkflowViews.DataLock |
