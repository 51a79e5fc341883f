/** The generic dispatcher of api/workflows/tasks.py: it looks up the
    handler path of an agent role in the `AGENT_HANDLER_MAP` setting, splits
    the path at its last dot into a module and a function name, loads that
    function and calls it once. The importable modules are a parameter; the
    handlers' own effects are left out, and each call is recorded. */
module Dispatch {

  import opened Common
  import opened Text

  /** One call `handler_func(workflow_state_id=..., input_data=...)`. */
  datatype HandlerCall = HandlerCall(modulePath: string, funcName: string, workflowStateId: int, inputData: string)

  /** `getattr(settings, 'AGENT_HANDLER_MAP', {})`. */
  function HandlerMap(setting: Option<map<string, Value>>): (m: map<string, Value>)
    ensures setting.None? ==> m == map[]
    ensures setting.Some? ==> m == setting.value
  {
    if setting.Some? then setting.value else map[]
  }

  /** `module_path, func_name = handler_path.rsplit('.', 1)`: the two parts,
      AttributeError for a value that is not a text, and ValueError when the
      text has no dot (there is only one part to unpack). */
  function SplitHandlerPath(path: Value): (r: Outcome<(string, string)>)
    ensures !path.Str? ==> r == Raised(AttributeError)
    ensures path.Str? && (forall i | 0 <= i < |path.s| :: path.s[i] != '.') ==>
      r.Raised? && r.error.ValueError?
    ensures r.Ok? ==>
      (path.Str? && r.value.0 + "." + r.value.1 == path.s
       && forall i | 0 <= i < |r.value.1| :: r.value.1[i] != '.')
  {
    if !path.Str? then Raised(AttributeError)
    else
      RSplitOnceJoin(path.s, '.');
      var parts := RSplitOnce(path.s, '.');
      if |parts| == 2 then Ok((parts[0], parts[1]))
      else Raised(ValueError("not enough values to unpack (expected 2, got 1)"))
  }

  /** `importlib.import_module(module_path)` with no package: an empty name
      raises ValueError and a relative name (a leading dot) TypeError, and
      neither is an ImportError; otherwise the module loads when it is
      importable, and ImportError is raised when it is not. */
  function ImportModule(modules: map<string, set<string>>, modulePath: string): (r: Outcome<set<string>>)
    ensures modulePath == "" ==> r == Raised(ValueError("Empty module name"))
    ensures modulePath != "" && modulePath[0] == '.' ==> r == Raised(TypeError)
    ensures modulePath != "" && modulePath[0] != '.' ==>
      (modulePath in modules ==> r == Ok(modules[modulePath])) && (modulePath !in modules ==> r == Raised(ImportError))
  {
    if modulePath == "" then Raised(ValueError("Empty module name"))
    else if modulePath[0] == '.' then Raised(TypeError)
    else if modulePath in modules then Ok(modules[modulePath])
    else Raised(ImportError)
  }

  /** What one dispatch does: whether it returns or raises, and the handler
      calls it makes. */
  datatype DispatchRun = DispatchRun(outcome: Outcome<()>, calls: seq<HandlerCall>)

  /** `dispatch_agent_task(agent_role_name, workflow_state_id, input_data)`;
      `modules` maps each importable module to the names it defines. Only
      ImportError and AttributeError of the loading are caught; what the
      handler itself raises is logged and dropped, so it does not appear. */
  function DispatchAgentTask(setting: Option<map<string, Value>>, modules: map<string, set<string>>,
                             role: string, workflowStateId: int, inputData: string): (run: DispatchRun)
    ensures |run.calls| <= 1
  {
    var path := Lookup(HandlerMap(setting), role);
    if !Truthy(path) then DispatchRun(Ok(()), [])
    else match SplitHandlerPath(path)
      case Raised(AttributeError) => DispatchRun(Ok(()), [])
      case Raised(e) => DispatchRun(Raised(e), [])
      case Ok((modulePath, funcName)) =>
        match ImportModule(modules, modulePath)
        case Raised(ImportError) => DispatchRun(Ok(()), [])
        case Raised(e) => DispatchRun(Raised(e), [])
        case Ok(names) =>
          if funcName !in names then DispatchRun(Ok(()), [])
          else DispatchRun(Ok(()), [HandlerCall(modulePath, funcName, workflowStateId, inputData)])
  }

  /** The dispatcher's branches: no map or no entry for the role, a path
      that is not a text, a module that does not import and a name it does
      not define all return without a call. A dotless path raises
      ValueError, and so does a path whose module part is empty (".h");
      a module part with a leading dot (".a.b") raises TypeError; these
      escape the worker task. Otherwise the function named by the path is
      called exactly once with the worker task's arguments, and the worker
      task returns normally whatever that call raises. */
  lemma DispatchOutcomes(setting: Option<map<string, Value>>, modules: map<string, set<string>>,
                         role: string, workflowStateId: int, inputData: string)
    ensures var run := DispatchAgentTask(setting, modules, role, workflowStateId, inputData);
      var path := Lookup(HandlerMap(setting), role);
      var split := SplitHandlerPath(path);
      (setting.None? ==> run == DispatchRun(Ok(()), []))
      && (!Truthy(path) ==> run == DispatchRun(Ok(()), []))
      && (run.outcome.Raised? <==>
            path.Str? && path.s != ""
            && ((forall i | 0 <= i < |path.s| :: path.s[i] != '.')
                || (split.Ok? && (split.value.0 == "" || split.value.0[0] == '.'))))
      && (path.Str? && path.s != "" && split.Ok? && split.value.0 == "" ==>
            run == DispatchRun(Raised(ValueError("Empty module name")), []))
      && (path.Str? && split.Ok? && split.value.0 != "" && split.value.0[0] == '.' ==>
            run == DispatchRun(Raised(TypeError), []))
      && (run.outcome.Raised? ==> run.outcome.error.ValueError? || run.outcome.error == TypeError)
      && (run.calls != [] <==>
            path.Str? && path.s != "" && split.Ok?
            && split.value.0 != "" && split.value.0[0] != '.'
            && split.value.0 in modules
            && split.value.1 in modules[split.value.0])
      && (run.calls != [] ==>
            run.outcome.Ok?
            && run.calls == [HandlerCall(split.value.0, split.value.1, workflowStateId, inputData)]
            && run.calls[0].modulePath + "." + run.calls[0].funcName == path.s)
  {
    var path := Lookup(HandlerMap(setting), role);
    if path.Str? {
      RSplitOnceJoin(path.s, '.');
    }
  }

  /** The two paths the loader rejects without an ImportError: ".h" splits
      into an empty module name, ".a.b" into the relative name ".a"; both
      escape, where a missing module returns quietly. */
  lemma DispatchEscapes(modules: map<string, set<string>>, workflowStateId: int, inputData: string)
    ensures DispatchAgentTask(Some(map["r" := Str(".h")]), modules, "r", workflowStateId, inputData)
      == DispatchRun(Raised(ValueError("Empty module name")), [])
    ensures DispatchAgentTask(Some(map["r" := Str(".a.b")]), modules, "r", workflowStateId, inputData)
      == DispatchRun(Raised(TypeError), [])
    ensures DispatchAgentTask(Some(map["r" := Str("a.h")]), map[], "r", workflowStateId, inputData)
      == DispatchRun(Ok(()), [])
  {
    RSplitOnceJoin(".h", '.');
    RSplitOnceJoin(".a.b", '.');
    RSplitOnceJoin("a.h", '.');
  }

  /** The worker that runs the dispatcher, recording the handler calls. */
  class Worker {
    var calls: seq<HandlerCall>

    constructor ()
      ensures calls == []
    {
      calls := [];
    }

    method Dispatch(setting: Option<map<string, Value>>, modules: map<string, set<string>>,
                    role: string, workflowStateId: int, inputData: string) returns (outcome: Outcome<()>)
      modifies this
      ensures outcome == DispatchAgentTask(setting, modules, role, workflowStateId, inputData).outcome
      ensures calls == old(calls) + DispatchAgentTask(setting, modules, role, workflowStateId, inputData).calls
    {
      var handlerMap := HandlerMap(setting);
      var path := Lookup(handlerMap, role);
      if !Truthy(path) {
        return Ok(());
      }
      var split := SplitHandlerPath(path);
      if split.Raised? {
        if split.error == AttributeError {
          return Ok(());
        }
        return Raised(split.error);
      }
      var (modulePath, funcName) := split.value;
      var loaded := ImportModule(modules, modulePath);
      if loaded.Raised? {
        if loaded.error == ImportError {
          return Ok(());
        }
        return Raised(loaded.error);
      }
      if funcName !in loaded.value {
        return Ok(());
      }
      // An exception of the handler is logged and not raised again.
      calls := calls + [HandlerCall(modulePath, funcName, workflowStateId, inputData)];
      outcome := Ok(());
    }
  }
}
