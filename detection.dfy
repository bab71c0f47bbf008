/**
 * Tool-call detection and MCP tool execution as seen by the response stream
 * (backend/workflow/02-tool-calls-detection.go and
 * backend/workflow/03-mcp-tools-execution.go). The completions themselves run in
 * the agent library; their `(calls, err)` and `(results, err)` pairs are inputs.
 */
module Detection {

  import opened Wrappers
  import opened Labels

  /** The two detectors: Riker's routing tools and Khan's MCP tools. */
  datatype Detector = RoutingTools | McpTools

  function ErrorPrefix(d: Detector): string
  {
    match d
    case RoutingTools => "Tool call error detected: "
    case McpTools => "MCP Tool call error detected: "
  }

  function NothingDetected(d: Detector): string
  {
    match d
    case RoutingTools => "No tool calls detected"
    case McpTools => "No MCP tool calls detected"
  }

  /**
   * The labels a detection writes for `count` detected calls and the
   * completion's error: one label exactly when there is an error, an `error`
   * label quoting it when calls came back anyway, a `success` label otherwise.
   */
  function DetectionStatuses(d: Detector, count: nat, err: Option<string>): (r: seq<Status>)
    ensures |r| <= 1
    ensures r != [] <==> err.Some?
    ensures r != [] ==> (r[0].tag == "error" <==> count > 0)
    ensures r != [] && count > 0 ==> r[0].text == ErrorPrefix(d) + err.value
    ensures r != [] && count == 0 ==> r[0] == Status("success", NothingDetected(d))
  {
    match err
    case None => []
    case Some(e) =>
      if count > 0 then [Status("error", ErrorPrefix(d) + e)]
      else [Status("success", NothingDetected(d))]
  }

  /** An observer reading the stream after a failed detection that still found calls sees the error text. */
  lemma DetectionErrorVisible(d: Detector, count: nat, e: string)
    requires count > 0
    ensures Unwrap("error", Body(Emitted(DetectionStatuses(d, count, Some(e)))))
            == Some(ErrorPrefix(d) + e)
  {
    var s := Status("error", ErrorPrefix(d) + e);
    BodyEmittedOne(s);
    UnwrapRender(s);
  }

  lemma BodyEmittedOne(s: Status)
    ensures Body(Emitted([s])) == Render(s)
  {
    assert Emitted([s]) == [Write(Render(s)), Flush];
    BodyOfWrite([], Render(s));
  }

  method ReportDetection(response: Response, d: Detector, count: nat, err: Option<string>)
    modifies response
    ensures response.events == old(response.events) + Emitted(DetectionStatuses(d, count, err))
  {
    if err.Some? {
      if count > 0 {
        ResponseLabel(response, "error", ErrorPrefix(d) + err.value);
      } else {
        ResponseLabel(response, "success", NothingDetected(d));
      }
    }
  }

  /** `DetectToolCalls`: Riker's completion result, reported and passed on unchanged. */
  method DetectToolCalls<T>(response: Response, toolCalls: seq<T>, err: Option<string>)
    returns (calls: seq<T>, e: Option<string>)
    modifies response
    ensures calls == toolCalls && e == err
    ensures response.events == old(response.events) + Emitted(DetectionStatuses(RoutingTools, |toolCalls|, err))
  {
    ReportDetection(response, RoutingTools, |toolCalls|, err);
    calls, e := toolCalls, err;
  }

  /** `DetectMCPToolCalls`: Khan's completion result, reported and passed on unchanged. */
  method DetectMCPToolCalls<T>(response: Response, mcpToolCalls: seq<T>, err: Option<string>)
    returns (calls: seq<T>, e: Option<string>)
    modifies response
    ensures calls == mcpToolCalls && e == err
    ensures response.events == old(response.events) + Emitted(DetectionStatuses(McpTools, |mcpToolCalls|, err))
  {
    ReportDetection(response, McpTools, |mcpToolCalls|, err);
    calls, e := mcpToolCalls, err;
  }

  const ExecutingMcp := Status("orange", "Executing MCP tool calls...")

  /**
   * The two labels of an MCP execution: the announcement, then either the
   * failure quoting the error or the success note.
   */
  function McpExecutionStatuses(err: Option<string>): (r: seq<Status>)
    ensures |r| == 2 && r[0] == ExecutingMcp
    ensures r[1].tag == (if err.Some? then "error" else "success")
    ensures err.Some? ==> r[1].text == "MCP Tool execution failed: " + err.value
    ensures err.None? ==> r[1].text == "MCP Tool calls executed successfully"
  {
    [ExecutingMcp,
     match err
     case Some(e) => Status("error", "MCP Tool execution failed: " + e)
     case None => Status("success", "MCP Tool calls executed successfully")]
  }

  /**
   * `ExecuteMCPToolCalls`: announces the execution, lets the library run it
   * (its `(results, err)` pair is given), reports the outcome and passes the
   * pair on unchanged.
   */
  method ExecuteMCPToolCalls(response: Response, mcpResults: seq<string>, err: Option<string>)
    returns (results: seq<string>, e: Option<string>)
    modifies response
    ensures results == mcpResults && e == err
    ensures response.events == old(response.events) + Emitted(McpExecutionStatuses(err))
  {
    ResponseLabel(response, ExecutingMcp.tag, ExecutingMcp.text);
    results, e := mcpResults, err;
    if e.Some? {
      ResponseLabel(response, "error", "MCP Tool execution failed: " + e.value);
    } else {
      ResponseLabel(response, "success", "MCP Tool calls executed successfully");
    }
    EmittedAppend([ExecutingMcp], [McpExecutionStatuses(err)[1]]);
    assert McpExecutionStatuses(err) == [ExecutingMcp] + [McpExecutionStatuses(err)[1]];
  }
}
