/** The suggestion worker of api/agents/tasks.py: it checks four payload
    fields, loads the agent role's configuration, asks the language model for
    suggestions, strips markdown code fences from the reply, parses it, and
    publishes one completion event. The language model and the JSON parser
    are parameters; the broker is `Messaging.EventBus`. */
module AgentTasks {

  import opened Common
  import opened Text
  import opened Constants
  import opened Messaging

  /** A stored `AgentRoleConfig` row. */
  datatype RoleConfig = RoleConfig(name: string, systemPrompt: string, llmParameters: map<string, Value>)

  /** A chat message handed to the agent. */
  datatype AgentMessage = AgentMessage(role: string, content: Value, name: string)

  /** What the agent is built with and asked: its configuration and the messages. */
  datatype AgentRequest = AgentRequest(name: string, systemMessage: string, model: Value, messages: seq<AgentMessage>)

  /** The foreign parts of a run: whether the client manager is initialised,
      the agent's reply content for a request (or the exception it raises),
      and `json.loads`. */
  datatype Foreign = Foreign(
    clientReady: bool,
    generate: AgentRequest -> Outcome<string>,
    parse: string -> Outcome<Value>)

  /** What one run of the worker task does: whether it returns or raises, and what
      it publishes. */
  datatype TaskRun = TaskRun(outcome: Outcome<()>, published: seq<Publication>)

  const DefaultModel: string := "gemini-2.0-flash"

  /** The four fields the worker task needs, all truthy. */
  predicate FieldsPresent(payload: map<string, Value>)
  {
    Truthy(Lookup(payload, "workflow_state_id")) && Truthy(Lookup(payload, "user_id"))
    && Truthy(Lookup(payload, "input_data")) && Truthy(Lookup(payload, "agent_role_name"))
  }

  /** The agent built from a role configuration and asked about `input`. */
  function RequestFor(config: RoleConfig, input: Value): (q: AgentRequest)
    ensures q.messages == [AgentMessage("user", input, "User")]
    ensures q.name == config.name && q.systemMessage == config.systemPrompt
    ensures "model_name" in config.llmParameters ==> q.model == config.llmParameters["model_name"]
    ensures "model_name" !in config.llmParameters ==> q.model == Str(DefaultModel)
  {
    AgentRequest(config.name, config.systemPrompt, LookupOr(config.llmParameters, "model_name", Str(DefaultModel)),
                 [AgentMessage("user", input, "User")])
  }

  predicate NoBackticks(s: string)
  {
    forall i | 0 <= i < |s| :: s[i] != '`'
  }

  /** The text between the fences, when `content` is a JSON code block
      ("```json", a body with no backticks, "```"). */
  predicate IsFencedBlock(content: string)
  {
    |content| >= 10 && content[..7] == "```json" && content[|content| - 3..] == "```"
    && NoBackticks(content[7..|content| - 3])
  }

  /** The two removals give back the body of a fenced block, and leave a
      text without backticks as it was. */
  lemma FencesRemoved(body: string)
    requires NoBackticks(body)
    ensures ReplaceAll(ReplaceAll("```json" + body + "```", "```json", ""), "```", "") == body
    ensures ReplaceAll(ReplaceAll(body, "```json", ""), "```", "") == body
  {
    var fence := "```";
    var open := "```json";
    ReplaceAllPrefix(body, fence, open, "");
    assert ReplaceAll(fence, open, "") == fence;
    assert (open + body + fence)[..|open|] == open;
    assert (open + body + fence)[|open|..] == body + fence;
    assert ReplaceAll(open + body + fence, open, "") == body + fence;
    ReplaceAllPrefix(body, [], fence, "");
    assert body + [] == body;
    assert ReplaceAll(fence, fence, "") == "";
    ReplaceAllPrefix(body, fence, fence, "");
    assert ReplaceAll(body + fence, fence, "") == body;
    ReplaceAllNoMatch(body, open, "");
    ReplaceAllNoMatch(body, fence, "");
  }

  /** The removals on a fenced block and on a text without backticks. */
  lemma FenceRemovalCases(content: string)
    ensures IsFencedBlock(content) ==>
      ReplaceAll(ReplaceAll(content, "```json", ""), "```", "") == content[7..|content| - 3]
    ensures NoBackticks(content) ==> ReplaceAll(ReplaceAll(content, "```json", ""), "```", "") == content
  {
    if IsFencedBlock(content) {
      var body := content[7..|content| - 3];
      assert content == "```json" + body + "```";
      FencesRemoved(body);
    }
    if NoBackticks(content) {
      FencesRemoved(content);
    }
  }

  /** The reply with every "```json" removed, then every "```", then the
      surrounding whitespace: a JSON code block gives back its body,
      trimmed, and a reply without backticks is only trimmed. */
  function StripFences(content: string): (r: string)
    ensures r != [] ==> !IsSpace(r[0]) && !IsSpace(r[|r| - 1])
    ensures IsFencedBlock(content) ==> r == Trim(content[7..|content| - 3])
    ensures NoBackticks(content) ==> r == Trim(content)
  {
    FenceRemovalCases(content);
    Trim(ReplaceAll(ReplaceAll(content, "```json", ""), "```", ""))
  }

  /** `len(suggestions_data)` is defined for texts, lists and objects; on any
      other JSON value it raises TypeError. */
  predicate HasLen(v: Value)
  {
    v.Str? || v.List? || v.Dict?
  }

  /** The completion event's payload. */
  function CompletionPayload(payload: map<string, Value>, suggestions: Value): (p: map<string, Value>)
    ensures p.Keys == {"workflow_state_id", "user_id", "suggestions"}
    ensures p["workflow_state_id"] == Lookup(payload, "workflow_state_id")
      && p["user_id"] == Lookup(payload, "user_id") && p["suggestions"] == suggestions
  {
    map["workflow_state_id" := Lookup(payload, "workflow_state_id"),
        "user_id" := Lookup(payload, "user_id"),
        "suggestions" := suggestions]
  }

  /** The configuration named by the payload's role: DoesNotExist when no
      row has that name. */
  function LoadConfig(configs: map<string, RoleConfig>, roleName: Value): (r: Outcome<RoleConfig>)
    ensures r.Raised? ==> r.error == DoesNotExist
    ensures r.Ok? <==> roleName.Str? && roleName.s in configs
  {
    if roleName.Str? && roleName.s in configs then Ok(configs[roleName.s]) else Raised(DoesNotExist)
  }

  /** The body of the `try`: the parsed suggestions, or the exception raised. */
  function Compute(payload: map<string, Value>, configs: map<string, RoleConfig>, f: Foreign): Outcome<Value>
  {
    match LoadConfig(configs, Lookup(payload, "agent_role_name"))
    case Raised(e) => Raised(e)
    case Ok(config) =>
      if !f.clientReady then Raised(RuntimeError("ClientManager is not initialized in AgentsConfig."))
      else match f.generate(RequestFor(config, Lookup(payload, "input_data")))
        case Raised(e) => Raised(e)
        case Ok(content) =>
          match f.parse(StripFences(content))
          case Raised(e) => Raised(e)
          case Ok(data) => if HasLen(data) then Ok(data) else Raised(TypeError)
  }

  /** `handle_suggestion_request_event(event_type, payload)`. */
  function HandleSuggestionRequest(payload: map<string, Value>, configs: map<string, RoleConfig>, f: Foreign): (run: TaskRun)
    ensures |run.published| <= 1
    ensures run.published != [] ==> run.outcome.Ok?
  {
    if !FieldsPresent(payload) then TaskRun(Ok(()), [])
    else match Compute(payload, configs, f)
      case Ok(data) => TaskRun(Ok(()), [Publication(DichotomySuggestionCompleted, CompletionPayload(payload, data), None)])
      case Raised(DoesNotExist) => TaskRun(Ok(()), [])
      case Raised(e) => TaskRun(Raised(e), [])
  }

  /** The worker task's branches. A payload missing a field returns quietly. An
      unknown role returns quietly. The run publishes exactly one completion
      event, carrying the ids and the parsed reply to the agent's single user
      message, exactly when the configuration loads, the client is ready, the
      agent answers and the stripped reply parses to a value with a length;
      every other failure is raised again and publishes nothing. */
  lemma HandleSuggestionRequestOutcomes(payload: map<string, Value>, configs: map<string, RoleConfig>, f: Foreign)
    ensures !FieldsPresent(payload) ==> HandleSuggestionRequest(payload, configs, f) == TaskRun(Ok(()), [])
    ensures FieldsPresent(payload) && LoadConfig(configs, Lookup(payload, "agent_role_name")).Raised? ==>
      HandleSuggestionRequest(payload, configs, f) == TaskRun(Ok(()), [])
    ensures (HandleSuggestionRequest(payload, configs, f).published != []) <==>
      (FieldsPresent(payload)
       && LoadConfig(configs, Lookup(payload, "agent_role_name")).Ok?
       && f.clientReady
       && var q := RequestFor(LoadConfig(configs, Lookup(payload, "agent_role_name")).value, Lookup(payload, "input_data"));
          f.generate(q).Ok? && f.parse(StripFences(f.generate(q).value)).Ok?
          && HasLen(f.parse(StripFences(f.generate(q).value)).value))
    ensures HandleSuggestionRequest(payload, configs, f).published != [] ==>
      var config := LoadConfig(configs, Lookup(payload, "agent_role_name")).value;
      var q := RequestFor(config, Lookup(payload, "input_data"));
      HandleSuggestionRequest(payload, configs, f).published ==
        [Publication(DichotomySuggestionCompleted, CompletionPayload(payload, f.parse(StripFences(f.generate(q).value)).value), None)]
    ensures FieldsPresent(payload) && LoadConfig(configs, Lookup(payload, "agent_role_name")).Ok? && !f.clientReady ==>
      HandleSuggestionRequest(payload, configs, f) == TaskRun(Raised(RuntimeError("ClientManager is not initialized in AgentsConfig.")), [])
  {
  }

  /** A failing model call is raised again unchanged and publishes nothing
      (the model does not tell one table's DoesNotExist from another's, so
      that one exception is left aside). */
  lemma ForeignFailureReraised(payload: map<string, Value>, configs: map<string, RoleConfig>, f: Foreign)
    requires FieldsPresent(payload) && LoadConfig(configs, Lookup(payload, "agent_role_name")).Ok? && f.clientReady
    requires f.generate(RequestFor(LoadConfig(configs, Lookup(payload, "agent_role_name")).value, Lookup(payload, "input_data"))).Raised?
    requires f.generate(RequestFor(LoadConfig(configs, Lookup(payload, "agent_role_name")).value, Lookup(payload, "input_data"))).error != DoesNotExist
    ensures HandleSuggestionRequest(payload, configs, f).outcome ==
      Raised(f.generate(RequestFor(LoadConfig(configs, Lookup(payload, "agent_role_name")).value, Lookup(payload, "input_data"))).error)
    ensures HandleSuggestionRequest(payload, configs, f).published == []
  {
  }

  /** The worker task as a worker runs it: its publications go to the broker. */
  method HandleSuggestionRequestEvent(bus: EventBus, payload: map<string, Value>, configs: map<string, RoleConfig>, f: Foreign)
    returns (outcome: Outcome<()>)
    modifies bus
    ensures outcome == HandleSuggestionRequest(payload, configs, f).outcome
    ensures bus.sent == old(bus.sent) + TasksFor(HandleSuggestionRequest(payload, configs, f).published)
  {
    var run := HandleSuggestionRequest(payload, configs, f);
    if run.published != [] {
      var p := run.published[0];
      bus.PublishEvent(p.eventType, p.payload);
      assert TasksFor(run.published) == [TaskFor(p.eventType, p.payload)];
    }
    outcome := run.outcome;
  }
}
