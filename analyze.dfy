/**
 * POST /api/ai/analyze: validate the request, send the data preview to the
 * model, run every tool the model asks for, send the tool results back in a
 * second call, and answer with the text of the final reply.
 */
module Analyze {
  import opened JsRuntime
  import opened Json
  import opened Tools

  // ---------------------------------------------------------------------------
  // The request

  const AnalysisTypes: seq<string> := ["statistical", "quality", "visualization", "insights", "custom"]
  const DataFormats: seq<string> := ["json", "csv", "array"]

  /** The fields of a request that passed the schema. */
  datatype AnalyzeRequest = AnalyzeRequest(data: Value, analysisType: string, userQuery: Option<string>)

  /** An optional string field: absent, or a string. */
  function OptionalString(v: Value): Option<Option<string>>
  {
    match v
    case Undefined => Some(None)
    case Str(s) => Some(Some(s))
    case _ => None
  }

  /**
   * analyzeRequestSchema.safeParse(body): an object whose analysisType is one
   * of the five analysis types, whose userQuery is absent or a string and
   * whose dataFormat is absent or one of the three formats; data may be anything.
   */
  function Validate(body: Value): (r: Option<AnalyzeRequest>)
    ensures r.Some? ==> body.Obj? && r.value.analysisType in AnalysisTypes
    ensures r.Some? ==> r.value.data == Lookup(body.members, "data")
  {
    match body
    case Obj(ms) =>
      var kind := Lookup(ms, "analysisType");
      var query := OptionalString(Lookup(ms, "userQuery"));
      var format := OptionalString(Lookup(ms, "dataFormat"));
      if kind.Str? && kind.s in AnalysisTypes && query.Some? && format.Some?
         && (format.value.None? || format.value.value in DataFormats)
      then Some(AnalyzeRequest(Lookup(ms, "data"), kind.s, query.value))
      else None
    case _ => None
  }

  const PreviewLength: nat := 5000

  /** `JSON.stringify(data).substring(0, 5000)`; undefined data has no substring to take. */
  function Preview(host: Host, data: Value): (r: Result<string>)
    ensures r.Throw? <==> data.Undefined?
  {
    match Stringify(host, data)
    case None => Throw("Cannot read properties of undefined (reading 'substring')")
    case Some(text) => Ok(if |text| <= PreviewLength then text else text[..PreviewLength])
  }

  /** The user message: the query when it is a non-empty string, else the default request for the analysis type. */
  function UserMessage(host: Host, req: AnalyzeRequest): Result<string>
  {
    var preview :- Preview(host, req.data);
    var tail := "\n\nData: " + preview + "...";
    if req.userQuery.Some? && req.userQuery.value != "" then Ok(req.userQuery.value + tail)
    else Ok("Please perform " + req.analysisType + " analysis on the provided data." + tail)
  }

  // ---------------------------------------------------------------------------
  // The conversation

  /** A content block of a model reply. */
  datatype Block = TextBlock(text: string) | ToolUse(id: string, name: string, input: Value)

  datatype ToolResult = ToolResult(toolUseId: string, content: string)

  datatype Content = Plain(text: string) | Blocks(blocks: seq<Block>) | Results(results: seq<ToolResult>)

  datatype Message = Message(role: string, content: Content)

  /** What one messages.create call is given (the system prompt is not part of this model). */
  datatype ApiRequest = ApiRequest(model: string, maxTokens: nat, messages: seq<Message>, tools: seq<ToolSpec>)

  /** The model service: a reply's content blocks, or the error the call throws. */
  type Assistant = ApiRequest -> Result<seq<Block>>

  const ModelId: string := "claude-3-5-sonnet-20241022"
  const MaxTokens: nat := 4096

  function FirstRequest(userText: string): ApiRequest
  {
    ApiRequest(ModelId, MaxTokens, [Message("user", Plain(userText))], DataAnalysisTools)
  }

  function SecondRequest(userText: string, reply: seq<Block>, results: seq<ToolResult>): ApiRequest
  {
    ApiRequest(ModelId, MaxTokens,
      [Message("user", Plain(userText)), Message("assistant", Blocks(reply)), Message("user", Results(results))],
      DataAnalysisTools)
  }

  predicate HasToolUse(blocks: seq<Block>)
  {
    exists k :: 0 <= k < |blocks| && blocks[k].ToolUse?
  }

  /** The tool_use blocks of a reply, in order. */
  function ToolUses(blocks: seq<Block>): (r: seq<Block>)
    ensures forall k :: 0 <= k < |r| ==> r[k].ToolUse? && r[k] in blocks
    ensures forall k :: 0 <= k < |blocks| && blocks[k].ToolUse? ==> blocks[k] in r
    ensures r == [] <==> !HasToolUse(blocks)
  {
    if blocks == [] then []
    else
      var init := blocks[..|blocks| - 1];
      var last := blocks[|blocks| - 1];
      assert blocks == init + [last];
      var r := ToolUses(init);
      assert HasToolUse(init) ==> HasToolUse(blocks) by {
        if HasToolUse(init) {
          var k :| 0 <= k < |init| && init[k].ToolUse?;
          assert blocks[k] == init[k];
        }
      }
      assert HasToolUse(blocks) && !last.ToolUse? ==> HasToolUse(init) by {
        if HasToolUse(blocks) && !last.ToolUse? {
          var k :| 0 <= k < |blocks| && blocks[k].ToolUse?;
          assert init[k] == blocks[k];
        }
      }
      if last.ToolUse? then r + [last] else r
  }

  /** `JSON.stringify(toolResult)`, or `JSON.stringify({ error: error.message })` when the tool threw. */
  function ToolContent(host: Host, outcome: Result<ToolOutput>): string
  {
    var v := match outcome
      case Ok(o) => Render(o)
      case Throw(m) => Obj([Member("error", Str(m))]);
    Stringify(host, v).value
  }

  /**
   * What runs a tool: its name, its input and the request's data to the
   * outcome. The conversation is stated for any such runner; the route's is
   * executeTool.
   */
  type ToolRunner = (string, Value, Value) -> Result<ToolOutput>

  /** executeTool as a runner. */
  function Executor(host: Host): ToolRunner
  {
    (name, args, original) => ToolOf(host, name, args, original)
  }

  /** The tool result of one tool_use block. */
  function ResultFor(host: Host, run: ToolRunner, b: Block, data: Value): ToolResult
    requires b.ToolUse?
  {
    ToolResult(b.id, ToolContent(host, run(b.name, b.input, data)))
  }

  /** The tool results of a reply's blocks, in block order. */
  function ToolResultsOf(host: Host, run: ToolRunner, blocks: seq<Block>, data: Value): seq<ToolResult>
  {
    if blocks == [] then []
    else
      var init := blocks[..|blocks| - 1];
      var last := blocks[|blocks| - 1];
      ToolResultsOf(host, run, init, data) + (if last.ToolUse? then [ResultFor(host, run, last, data)] else [])
  }

  /** The loop over message.content, catching what each tool throws. */
  method RunTools(host: Host, blocks: seq<Block>, data: Value) returns (results: seq<ToolResult>)
    ensures results == ToolResultsOf(host, Executor(host), blocks, data)
  {
    results := [];
    for k := 0 to |blocks|
      invariant results == ToolResultsOf(host, Executor(host), blocks[..k], data)
    {
      assert blocks[..k + 1][..k] == blocks[..k];
      var block := blocks[k];
      if block.ToolUse? {
        var outcome := ExecuteTool(host, block.name, block.input, data);
        assert outcome == Executor(host)(block.name, block.input, data);
        var content := ToolContent(host, outcome);
        results := results + [ToolResult(block.id, content)];
      }
    }
    assert blocks[..|blocks|] == blocks;
  }

  /** The texts of a reply's text blocks, in order. */
  function Texts(blocks: seq<Block>): seq<string>
  {
    if blocks == [] then []
    else (if blocks[0].TextBlock? then [blocks[0].text] else []) + Texts(blocks[1..])
  }

  // ---------------------------------------------------------------------------
  // The response

  datatype Response = Response(status: nat, body: Value)

  /** The calls made to the model service, in order, and the response sent. */
  datatype Exchange = Exchange(requests: seq<ApiRequest>, response: Response)

  function ErrorResponse(status: nat, error: string): Response
  {
    Response(status, Obj([Member("error", Str(error))]))
  }

  /** The catch-all answer to an exception. */
  function Failed(message: string): Response
  {
    Response(500, Obj([Member("error", Str("Failed to perform analysis")), Member("details", Str(message))]))
  }

  function ToolResultObject(t: ToolResult): Value
  {
    Obj([Member("tool_use_id", Str(t.toolUseId)), Member("content", Str(t.content))])
  }

  /** The success body; toolResults is undefined, so left out of the JSON, when there are none. */
  function Success(final: seq<Block>, results: seq<ToolResult>): Response
  {
    var listed := if results == [] then Undefined
      else Arr(seq(|results|, k requires 0 <= k < |results| => ToolResultObject(results[k])));
    Response(200, Obj([
      Member("success", Bool(true)),
      Member("analysis", Str(Join(Texts(final), "\n\n"))),
      Member("toolResults", listed),
      Member("model", Str("claude-3-5-sonnet"))]))
  }

  /**
   * POST on the parsed body (or the error parsing threw), the configured API
   * key, and the model service.
   */
  function PostOf(host: Host, run: ToolRunner, body: Result<Value>, apiKey: Option<string>, assistant: Assistant): Exchange
  {
    match body
    case Throw(m) => Exchange([], Failed(m))
    case Ok(b) =>
      match Validate(b)
      case None => Exchange([], ErrorResponse(400, "Invalid request format"))
      case Some(req) =>
        if apiKey.None? || apiKey.value == "" then Exchange([], ErrorResponse(500, "ANTHROPIC_API_KEY not configured"))
        else
          match UserMessage(host, req)
          case Throw(m) => Exchange([], Failed(m))
          case Ok(text) => Converse(host, run, req.data, text, assistant)
  }

  /** The model calls and the tool loop, once the user message is built. */
  function Converse(host: Host, run: ToolRunner, data: Value, text: string, assistant: Assistant): Exchange
  {
    var first := FirstRequest(text);
    match assistant(first)
    case Throw(m) => Exchange([first], Failed(m))
    case Ok(reply) =>
      if !HasToolUse(reply) then Exchange([first], Success(reply, []))
      else
        var results := ToolResultsOf(host, run, reply, data);
        var second := SecondRequest(text, reply, results);
        match assistant(second)
        case Throw(m) => Exchange([first, second], Failed(m))
        case Ok(final) => Exchange([first, second], Success(final, results))
  }

  /** POST as the route runs it. */
  method Post(host: Host, body: Result<Value>, apiKey: Option<string>, assistant: Assistant) returns (ex: Exchange)
    ensures ex == PostOf(host, Executor(host), body, apiKey, assistant)
  {
    if body.Throw? {
      return Exchange([], Failed(body.message));
    }
    var validation := Validate(body.value);
    if validation.None? {
      return Exchange([], ErrorResponse(400, "Invalid request format"));
    }
    var req := validation.value;
    if apiKey.None? || apiKey.value == "" {
      return Exchange([], ErrorResponse(500, "ANTHROPIC_API_KEY not configured"));
    }
    var userText := UserMessage(host, req);
    if userText.Throw? {
      return Exchange([], Failed(userText.message));
    }
    ex := Conversation(host, req.data, userText.value, assistant);
  }

  /** The model calls and the tool loop of POST. */
  method Conversation(host: Host, data: Value, text: string, assistant: Assistant) returns (ex: Exchange)
    ensures ex == Converse(host, Executor(host), data, text, assistant)
  {
    var first := FirstRequest(text);
    var message := assistant(first);
    if message.Throw? {
      return Exchange([first], Failed(message.message));
    }
    var toolResults: seq<ToolResult> := [];
    var finalResponse := message;
    var requests := [first];
    if HasToolUse(message.value) {
      toolResults := RunTools(host, message.value, data);
      var second := SecondRequest(text, message.value, toolResults);
      requests := requests + [second];
      finalResponse := assistant(second);
      if finalResponse.Throw? {
        return Exchange(requests, Failed(finalResponse.message));
      }
    }
    return Exchange(requests, Success(finalResponse.value, toolResults));
  }

  // ---------------------------------------------------------------------------
  // Properties

  /** One tool result per tool_use block, in block order, carrying the block's id. */
  lemma {:induction false} ToolResultsPerUse(host: Host, run: ToolRunner, blocks: seq<Block>, data: Value)
    ensures var results := ToolResultsOf(host, run, blocks, data);
      && |results| == |ToolUses(blocks)|
      && forall k :: 0 <= k < |results| ==>
           results[k] == ResultFor(host, run, ToolUses(blocks)[k], data) && results[k].toolUseId == ToolUses(blocks)[k].id
  {
    if blocks != [] {
      ToolResultsPerUse(host, run, blocks[..|blocks| - 1], data);
    }
  }

  /** A tool that throws leaves an error object, with the thrown message, as its content. */
  lemma ThrownToolContent(host: Host, run: ToolRunner, b: Block, data: Value)
    requires b.ToolUse? && run(b.name, b.input, data).Throw?
    ensures ResultFor(host, run, b, data).content ==
              Stringify(host, Obj([Member("error", Str(run(b.name, b.input, data).message))])).value
  {
  }

  /** The preview is the serialised data when it fits, and its first 5000 characters otherwise. */
  lemma PreviewPrefix(host: Host, data: Value)
    requires !data.Undefined?
    ensures var text := Stringify(host, data).value;
      && |Preview(host, data).value| == (if |text| <= PreviewLength then |text| else PreviewLength)
      && Preview(host, data).value <= text
  {
  }

  /** An empty or absent userQuery selects the default prompt for the analysis type; any other query leads the message. */
  lemma PromptChoice(host: Host, req: AnalyzeRequest)
    requires !req.data.Undefined?
    ensures var tail := "\n\nData: " + Preview(host, req.data).value + "...";
      && (req.userQuery.None? || req.userQuery.value == "" ==>
            UserMessage(host, req) == Ok("Please perform " + req.analysisType + " analysis on the provided data." + tail))
      && (req.userQuery.Some? && req.userQuery.value != "" ==> UserMessage(host, req) == Ok(req.userQuery.value + tail))
  {
  }

  /** The second model call is made exactly when the first reply has a tool_use block. */
  lemma SecondCallExactly(host: Host, run: ToolRunner, body: Result<Value>, apiKey: Option<string>, assistant: Assistant)
    ensures var ex := PostOf(host, run, body, apiKey, assistant);
      |ex.requests| == 2 <==>
        && body.Ok? && Validate(body.value).Some?
        && apiKey.Some? && apiKey.value != ""
        && UserMessage(host, Validate(body.value).value).Ok?
        && assistant(FirstRequest(UserMessage(host, Validate(body.value).value).value)).Ok?
        && HasToolUse(assistant(FirstRequest(UserMessage(host, Validate(body.value).value).value)).value)
  {
  }

  /** A tool_use block gives at least one tool result. */
  lemma ToolResultsNonEmpty(host: Host, run: ToolRunner, blocks: seq<Block>, data: Value)
    requires HasToolUse(blocks)
    ensures ToolResultsOf(host, run, blocks, data) != []
  {
    ToolResultsPerUse(host, run, blocks, data);
  }

  /** In the success body, toolResults is undefined exactly when there are no results. */
  lemma SuccessListsResults(final: seq<Block>, results: seq<ToolResult>)
    ensures var body := Success(final, results).body;
      && (Lookup(body.members, "toolResults").Undefined? <==> results == [])
      && (results != [] ==>
            Lookup(body.members, "toolResults") == Arr(seq(|results|, k requires 0 <= k < |results| => ToolResultObject(results[k]))))
  {
    var ms := Success(final, results).body.members;
    assert "toolResults"[0] == 't' && "success"[0] == 's' && "analysis"[0] == 'a';
    assert Lookup(ms, "toolResults") == Lookup(ms[1..], "toolResults") == Lookup(ms[2..], "toolResults") == ms[2].val;
  }

  /** A successful conversation lists its tool results exactly when the second call was made. */
  lemma ConverseListsResults(host: Host, run: ToolRunner, data: Value, text: string, assistant: Assistant)
    requires Converse(host, run, data, text, assistant).response.status == 200
    ensures var ex := Converse(host, run, data, text, assistant);
      ex.response.body.Obj? &&
      (Lookup(ex.response.body.members, "toolResults").Undefined? <==> |ex.requests| == 1)
  {
    var reply := assistant(FirstRequest(text)).value;
    if HasToolUse(reply) {
      ToolResultsNonEmpty(host, run, reply, data);
      SuccessListsResults(assistant(SecondRequest(text, reply, ToolResultsOf(host, run, reply, data))).value,
                          ToolResultsOf(host, run, reply, data));
    } else {
      SuccessListsResults(reply, []);
    }
  }

  /** A successful answer lists its tool results exactly when the second call was made. */
  lemma ToolResultsOmittedExactly(host: Host, run: ToolRunner, body: Result<Value>, apiKey: Option<string>, assistant: Assistant)
    requires PostOf(host, run, body, apiKey, assistant).response.status == 200
    ensures var ex := PostOf(host, run, body, apiKey, assistant);
      ex.response.body.Obj? &&
      (Lookup(ex.response.body.members, "toolResults").Undefined? <==> |ex.requests| == 1)
  {
    var req := Validate(body.value).value;
    ConverseListsResults(host, run, req.data, UserMessage(host, req).value, assistant);
  }

  /** The model calls answer 200 with success true, or 500 with an error text. */
  lemma ConverseStatus(host: Host, run: ToolRunner, data: Value, text: string, assistant: Assistant)
    ensures var ex := Converse(host, run, data, text, assistant);
      && ex.response.body.Obj?
      && (ex.response.status == 200 || ex.response.status == 500)
      && |ex.requests| >= 1
      && (ex.response.status == 200 ==> Lookup(ex.response.body.members, "success") == Bool(true))
      && (ex.response.status != 200 ==> Lookup(ex.response.body.members, "error").Str?)
  {
    var ex := Converse(host, run, data, text, assistant);
    if ex.response.status == 200 {
      var ms := ex.response.body.members;
      assert ms[0] == Member("success", Bool(true));
    } else {
      var ms := ex.response.body.members;
      assert ms[0].key == "error" && ms[0].val.Str?;
    }
  }

  /**
   * 400 answers exactly a body that fails validation; 200 comes only after a
   * model call, with success true; every other answer carries an error text.
   */
  lemma StatusCodes(host: Host, run: ToolRunner, body: Result<Value>, apiKey: Option<string>, assistant: Assistant)
    ensures var ex := PostOf(host, run, body, apiKey, assistant);
      && ex.response.body.Obj?
      && (ex.response.status == 400 <==> body.Ok? && Validate(body.value).None?)
      && (ex.response.status == 200 ==> |ex.requests| >= 1 && Lookup(ex.response.body.members, "success") == Bool(true))
      && (ex.response.status != 200 ==> Lookup(ex.response.body.members, "error").Str?)
  {
    if body.Ok? && Validate(body.value).Some? && !(apiKey.None? || apiKey.value == "") {
      var req := Validate(body.value).value;
      if UserMessage(host, req).Ok? {
        ConverseStatus(host, run, req.data, UserMessage(host, req).value, assistant);
      }
    }
  }
}
