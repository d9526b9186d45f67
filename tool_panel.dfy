/** The tool-call panel: runs a call through the tool executor at most once at a time, reports
    the outcome with a status, and keeps the set of expanded calls. */
module ToolPanel {
  import opened Wrappers
  import opened Json
  import opened ToolLibrary

  /** A call as the panel shows it. */
  datatype PanelCall = PanelCall(id: string, name: string, arguments: Args, result: Option<ToolResult>,
                                 status: string, error: Option<string>, executionTime: Option<Json>)

  /** The call handed to the executor: the library's call with its status and timestamp. */
  datatype LibToolCall = LibToolCall(call: ToolCall, status: string, timestamp: int)

  /** `result.metadata?.executionTime`. */
  function ExecutionTime(r: ToolResult): Option<Json> {
    if r.metadata.Some? && "executionTime" in r.metadata.value then Some(r.metadata.value["executionTime"]) else None
  }

  /** The call passed to `onExecute`: on a result, the result itself, `'completed'` exactly when
      it succeeded and `'error'` otherwise, with its error and execution time; on a rejection,
      `'error'` with the error's message, or `'Unknown error'` for a thrown non-error. */
  function Reported(call: PanelCall, outcome: Outcome): (r: PanelCall)
    ensures r.id == call.id && r.name == call.name && r.arguments == call.arguments
    ensures r.status in {"completed", "error"}
    ensures outcome.Returned? ==> (r.status == "completed" <==> outcome.result.success)
    ensures outcome.Returned? ==>
      r.result == Some(outcome.result) && r.error == outcome.result.error &&
      r.executionTime == ExecutionTime(outcome.result)
    ensures outcome.Threw? ==>
      r.status == "error" && r.result == call.result && r.executionTime == call.executionTime &&
      r.error == Some(if outcome.thrown.ErrorObject? then outcome.thrown.message else "Unknown error")
  {
    match outcome
    case Returned(result) =>
      call.(result := Some(result), status := if result.success then "completed" else "error",
            error := result.error, executionTime := ExecutionTime(result))
    case Threw(thrown) =>
      call.(status := "error", error := Some(ErrorMessage(thrown)))
  }

  /** A reported result always carries the elapsed time the executor measured. */
  lemma ReportedTime(call: PanelCall, tools: map<string, Handler>, libCall: ToolCall, env: Env)
    ensures Reported(call, Returned(Executed(tools, libCall, env))).executionTime == Some(JNum(env.elapsed))
  {
    var r := Executed(tools, libCall, env);
    assert r.metadata.Some? && "executionTime" in r.metadata.value && r.metadata.value["executionTime"] == JNum(env.elapsed);
  }

  /** A call to a tool that is not registered is reported as an error with the not-found message. */
  lemma ReportedMissingTool(call: PanelCall, tools: map<string, Handler>, libCall: ToolCall, env: Env)
    requires libCall.name !in tools
    ensures var r := Reported(call, Returned(Executed(tools, libCall, env)));
      r.status == "error" && r.error == Some("Tool '" + libCall.name + "' not found")
  {
  }

  /** `new Set(expanded)` with `id` deleted when present and added when absent. */
  function Toggled(s: set<string>, id: string): (r: set<string>)
    ensures id in r <==> id !in s
    ensures forall x :: x != id ==> (x in r <==> x in s)
  {
    if id in s then s - {id} else s + {id}
  }

  /** Toggling the same id twice restores the set. */
  lemma ToggleTwice(s: set<string>, id: string)
    ensures Toggled(Toggled(s, id), id) == s
  {
  }

  /** The statuses the panel knows. */
  const Statuses: set<string> := {"pending", "running", "completed", "error"}

  /** `getStatusIcon`: ⏳, 🔄, ✅ and ❌ for the four statuses, ❓ for any other. */
  function StatusIcon(status: string): (r: string)
    ensures status == "pending" ==> r == "\U{23F3}"
    ensures status == "running" ==> r == "\U{1F504}"
    ensures status == "completed" ==> r == "\U{2705}"
    ensures status == "error" ==> r == "\U{274C}"
    ensures r == "\U{2753}" <==> status !in Statuses
  {
    match status
    case "pending" => "\U{23F3}"
    case "running" => "\U{1F504}"
    case "completed" => "\U{2705}"
    case "error" => "\U{274C}"
    case _ => "\U{2753}"
  }

  /** `getStatusColor`: a yellow, blue, green or red class pair for the four statuses, gray for
      any other. */
  function StatusColor(status: string): (r: string)
    ensures status == "pending" ==> r == "text-yellow-600 bg-yellow-50"
    ensures status == "running" ==> r == "text-blue-600 bg-blue-50"
    ensures status == "completed" ==> r == "text-green-600 bg-green-50"
    ensures status == "error" ==> r == "text-red-600 bg-red-50"
    ensures r == "text-gray-600 bg-gray-50" <==> status !in Statuses
  {
    match status
    case "pending" => "text-yellow-600 bg-yellow-50"
    case "running" => "text-blue-600 bg-blue-50"
    case "completed" => "text-green-600 bg-green-50"
    case "error" => "text-red-600 bg-red-50"
    case _ => "text-gray-600 bg-gray-50"
  }

  /** Different statuses the panel knows look different: each has its own icon and colour. */
  lemma StatusesDistinct(a: string, b: string)
    requires a in Statuses && b in Statuses && a != b
    ensures StatusIcon(a) != StatusIcon(b) && StatusColor(a) != StatusColor(b)
  {
  }

  /** The panel's own state: which calls are expanded and which are being executed. */
  class Panel {
    var expandedCalls: set<string>
    var executingCalls: set<string>

    constructor()
      ensures expandedCalls == {} && executingCalls == {}
    {
      expandedCalls := {};
      executingCalls := {};
    }

    /** `toggleExpanded(id)`. */
    method ToggleExpanded(id: string)
      modifies this
      ensures expandedCalls == Toggled(old(expandedCalls), id)
      ensures executingCalls == old(executingCalls)
    {
      var newExpanded := expandedCalls;
      if id in newExpanded {
        newExpanded := newExpanded - {id};
      } else {
        newExpanded := newExpanded + {id};
      }
      expandedCalls := newExpanded;
    }

    /** `executeToolCall`: a call already executing is skipped; otherwise it is marked, handed to
        the executor with status `'running'` at clock reading `now`, the outcome is reported when
        someone listens, and the mark is removed again. */
    method ExecuteToolCall(call: PanelCall, executor: ToolExecutor, env: Env, listening: bool, now: int)
      returns (sent: Option<LibToolCall>, reported: Option<PanelCall>)
      modifies this
      ensures executingCalls == old(executingCalls) && expandedCalls == old(expandedCalls)
      ensures call.id in old(executingCalls) ==> sent == None && reported == None
      ensures call.id !in old(executingCalls) ==>
        sent == Some(LibToolCall(ToolCall(call.id, call.name, call.arguments), "running", now))
      ensures reported.Some? <==> call.id !in old(executingCalls) && listening
      ensures reported.Some? ==>
        reported.value == Reported(call, Returned(Executed(executor.tools, sent.value.call, env)))
    {
      if call.id in executingCalls {
        return None, None;
      }
      var before := executingCalls;
      executingCalls := executingCalls + {call.id};
      var libToolCall := LibToolCall(ToolCall(call.id, call.name, call.arguments), "running", now);
      sent := Some(libToolCall);
      var result := executor.ExecuteTool(libToolCall.call, env);
      if listening {
        reported := Some(Reported(call, Returned(result)));
      } else {
        reported := None;
      }
      executingCalls := executingCalls - {call.id};
      assert executingCalls == before;
    }
  }
}
