/** The line-oriented JSON-RPC 2.0 server (src/mcp/server.go): one request per
    input line, at most one response line per request, and for `tools/call` an
    effect on the in-memory workflow phase and the state file.

    The server never consults the transition guard: the tools that move the
    phase set it outright. A write of the state file may fail; the server
    ignores the failure, and the file then keeps its previous contents.

    `StepLine` specifies one line and `Serve` the whole input as a left fold;
    `Server.Start` runs the loop on a state object and is proved to agree with
    `Serve`. JSON decoding is a parameter (`Decoder`): a line either decodes
    to a request or fails. */
module Rpc {

  import opened Wrappers
  import opened Json
  import opened Workflow

  /** The `params` of a `tools/call` decoded into {name, arguments}, or the
      decoding failure (an absent `params` fails; a null one gives ""). */
  datatype CallParams = BadParams | CallParams(name: string, arguments: map<string, JsonValue>)

  /** A decoded request line. `id` is JNull when it is null or absent. */
  datatype Request = Request(methodName: string, id: JsonValue, params: CallParams)

  /** json.Unmarshal of a whole line: a request, or None on any error. */
  type Decoder = string -> Option<Request>

  datatype RpcError = RpcError(code: int, message: string)

  /** One element of a tool result's `content`; `kind` is the JSON field "type". */
  datatype ContentItem = ContentItem(kind: string, text: string)

  /** One input-schema property of a listed tool: its description if any, and
      its enumerated values if any (every property is a string). */
  datatype Property = Property(description: Option<string>, choices: seq<string>)

  /** One listed tool (the input schema is always an object). Its properties
      are a Go map from property name to schema, so they carry no order. */
  datatype ToolSpec = ToolSpec(name: string, description: string, properties: map<string, Property>, required: seq<string>)

  /** What a response carries: one of three results or an error. The
      initialize result also advertises the capability "tools": {}. */
  datatype Payload =
    | InitializeResult(protocolVersion: string, serverName: string, serverVersion: string)
    | ToolsListResult(tools: seq<ToolSpec>)
    | CallToolResult(content: seq<ContentItem>, isError: bool)
    | ErrorPayload(error: RpcError)

  datatype Response = Response(jsonrpc: string, id: JsonValue, payload: Payload)

  /** The error codes the server sends. Invalid params reuses the parse-error
      code; section 5.1 of the JSON-RPC 2.0 specification reserves -32602 for it. */
  const ParseError: int := -32700
  const MethodNotFound: int := -32601
  const InvalidParamsCode: int := -32700

  /** The tool layer, asked at most once per input line (indexed by that line),
      and whether the state-file write on that line succeeds. */
  datatype Env = Env(decode: Decoder, facade: (nat, FacadeCall) -> Outcome, saveOk: nat -> bool)

  /** The in-memory state and the contents of the state file. */
  datatype Snapshot = Snapshot(memory: ProcessState, stored: ProcessState)

  /** One handled line: the new snapshot and the response sent, if any. */
  datatype Step = Step(state: Snapshot, reply: Option<Response>)

  /** The whole run: the final snapshot and every response in order. */
  datatype Trace = Trace(state: Snapshot, responses: seq<Response>)

  /** sendResult */
  function ResultResponse(id: JsonValue, p: Payload): Response
  {
    Response("2.0", id, p)
  }

  /** sendError */
  function ErrorResponse(id: JsonValue, code: int, message: string): Response
  {
    Response("2.0", id, ErrorPayload(RpcError(code, message)))
  }

  /** handleInitialize */
  const Initialize: Payload := InitializeResult("2024-11-05", "quint-mcp", "0.2.0")

  /** The static catalog of handleToolsList, in the order it is sent. */
  const Catalog: seq<ToolSpec> := [
    ToolSpec("quint_status", "Get current FPF phase and context.", map[], []),
    ToolSpec("quint_init", "Initialize FPF project structure.", map[], []),
    ToolSpec("quint_record_context", "Record the Bounded Context (A.1.1).",
      map["vocabulary" := Property(Some("Key terms"), []), "invariants" := Property(Some("System rules"), [])],
      ["vocabulary", "invariants"]),
    ToolSpec("quint_propose", "Propose a new hypothesis (L0).",
      map["title" := Property(Some("Title"), []), "content" := Property(Some("Description"), []),
          "scope" := Property(Some("Scope (G)"), []), "kind" := Property(None, ["system", "episteme"]),
          "rationale" := Property(Some("JSON string of rationale " + "(anomaly, alternatives)"), [])],
      ["title", "content", "scope", "kind", "rationale"]),
    ToolSpec("quint_verify", "Record verification results (L0 -> L1).",
      map["hypothesis_id" := Property(None, []), "checks_json" := Property(Some("JSON of checks"), []),
          "verdict" := Property(None, ["PASS", "FAIL", "REFINE"])],
      ["hypothesis_id", "checks_json", "verdict"]),
    ToolSpec("quint_test", "Record validation results (L1 -> L2).",
      map["hypothesis_id" := Property(None, []), "test_type" := Property(Some("internal or research"), []),
          "result" := Property(Some("Test output/findings"), []), "verdict" := Property(None, ["PASS", "FAIL", "REFINE"])],
      ["hypothesis_id", "test_type", "result", "verdict"]),
    ToolSpec("quint_audit", "Record audit/trust score (R_eff).",
      map["hypothesis_id" := Property(None, []), "risks" := Property(Some("Risk analysis"), [])],
      ["hypothesis_id", "risks"]),
    ToolSpec("quint_decide", "Finalize decision (DRR).",
      map["title" := Property(None, []), "winner_id" := Property(None, []), "context" := Property(None, []),
          "decision" := Property(None, []), "rationale" := Property(None, []), "consequences" := Property(None, []),
          "characteristics" := Property(None, [])],
      ["title", "winner_id", "context", "decision", "rationale", "consequences"])
  ]

  function Names(tools: seq<ToolSpec>): (r: seq<string>)
    ensures |r| == |tools| && forall i :: 0 <= i < |tools| ==> r[i] == tools[i].name
  {
    if tools == [] then [] else [tools[0].name] + Names(tools[1..])
  }

  /** The `arg` helper: the argument when it is a JSON string, else "". */
  function Arg(args: map<string, JsonValue>, k: string): (v: string)
    ensures k in args && args[k].JString? ==> v == args[k].s
    ensures v != "" ==> k in args && args[k] == JString(v)
  {
    if k in args && args[k].JString? then args[k].s else ""
  }

  /** A tool result with a single text item. */
  function TextResult(text: string, isError: bool): Payload
  {
    CallToolResult([ContentItem("text", text)], isError)
  }

  /** The tool layer's answer wrapped as a tool result: its text, or its error flagged. */
  function Reply(o: Outcome): Payload
  {
    match o
    case Done(text) => TextResult(text, false)
    case Failed(e) => TextResult(e, true)
  }

  /** SaveState with its error discarded: the file takes `m` only when the write succeeds. */
  function Save(m: ProcessState, stored: ProcessState, ok: bool): ProcessState
  {
    if ok then m else stored
  }

  /** The assurance level `quint_test` records. */
  function TestAssurance(verdict: string): (level: string)
    ensures level == "L2" <==> verdict == "PASS"
    ensures level == "L2" || level == "L1"
  {
    if verdict == "PASS" then "L2" else "L1"
  }

  /** The evidence call `quint_test` makes. */
  function TestEvidence(args: map<string, JsonValue>): FacadeCall
  {
    ManageEvidence(Induction, "add", Arg(args, "hypothesis_id"), Arg(args, "test_type"), Arg(args, "result"),
                   Arg(args, "verdict"), TestAssurance(Arg(args, "verdict")), "test-runner", "")
  }

  /** A handled tool call: the new snapshot and the tool result. */
  datatype ToolEffect = ToolEffect(state: Snapshot, result: Payload)

  /** The switch of handleToolsCall on line `n`. */
  function CallTool(name: string, args: map<string, JsonValue>, n: nat, s: Snapshot, env: Env): ToolEffect
  {
    var st := s.memory;
    var ok := env.saveOk(n);
    if name == "quint_status" then
      ToolEffect(s, TextResult(st.phase, false))
    else if name == "quint_init" then
      match env.facade(n, InitProject)
      case Failed(e) => ToolEffect(s, TextResult(e, true))
      case Done(_) =>
        var m := st.(phase := Abduction);
        ToolEffect(Snapshot(m, Save(m, s.stored, ok)), TextResult("Initialized. Phase: ABDUCTION", false))
    else if name == "quint_record_context" then
      ToolEffect(s, Reply(env.facade(n, RecordContext(Arg(args, "vocabulary"), Arg(args, "invariants")))))
    else if name == "quint_propose" then
      var m := st.(phase := Abduction);
      var call := ProposeHypothesis(Arg(args, "title"), Arg(args, "content"), Arg(args, "scope"),
                                    Arg(args, "kind"), Arg(args, "rationale"));
      ToolEffect(Snapshot(m, Save(m, s.stored, ok)), Reply(env.facade(n, call)))
    else if name == "quint_verify" then
      var m := st.(phase := Deduction);
      var call := VerifyHypothesis(Arg(args, "hypothesis_id"), Arg(args, "checks_json"), Arg(args, "verdict"));
      ToolEffect(Snapshot(m, Save(m, s.stored, ok)), Reply(env.facade(n, call)))
    else if name == "quint_test" then
      var m := st.(phase := Induction);
      ToolEffect(Snapshot(m, Save(m, s.stored, ok)), Reply(env.facade(n, TestEvidence(args))))
    else if name == "quint_audit" then
      ToolEffect(s, Reply(env.facade(n, AuditEvidence(Arg(args, "hypothesis_id"), Arg(args, "risks")))))
    else if name == "quint_decide" then
      var call := FinalizeDecision(Arg(args, "title"), Arg(args, "winner_id"), Arg(args, "context"),
                                   Arg(args, "decision"), Arg(args, "rationale"), Arg(args, "consequences"),
                                   Arg(args, "characteristics"));
      var o := env.facade(n, call);
      if o.Done? then
        var m := st.(phase := Idle);
        ToolEffect(Snapshot(m, Save(m, s.stored, ok)), Reply(o))
      else
        ToolEffect(Snapshot(st.(phase := Decision), s.stored), Reply(o))
    else
      ToolEffect(s, TextResult("unknown tool: " + name, true))
  }

  /** The method switch of Start for a decoded request on line `n`. */
  function HandleRequest(req: Request, n: nat, s: Snapshot, env: Env): Step
  {
    if req.methodName == "initialize" then
      Step(s, Some(ResultResponse(req.id, Initialize)))
    else if req.methodName == "tools/list" then
      Step(s, Some(ResultResponse(req.id, ToolsListResult(Catalog))))
    else if req.methodName == "tools/call" then
      match req.params
      case BadParams => Step(s, Some(ErrorResponse(req.id, InvalidParamsCode, "Invalid params")))
      case CallParams(name, args) =>
        var e := CallTool(name, args, n, s, env);
        Step(e.state, Some(ResultResponse(req.id, e.result)))
    else if req.methodName == "notifications/initialized" then
      Step(s, None)
    else if req.id.JNull? then
      Step(s, None)
    else
      Step(s, Some(ErrorResponse(req.id, MethodNotFound, "Method not found")))
  }

  /** One iteration of Start for the line at position `n`. */
  function StepLine(line: string, n: nat, s: Snapshot, env: Env): Step
  {
    if |line| == 0 then Step(s, None)
    else
      match env.decode(line)
      case None => Step(s, Some(ErrorResponse(JNull, ParseError, "Parse error")))
      case Some(req) => HandleRequest(req, n, s, env)
  }

  function Sent(r: Option<Response>): seq<Response>
  {
    if r.Some? then [r.value] else []
  }

  /** The whole loop of Start over the scanned lines, as a left fold. */
  function Serve(lines: seq<string>, s: Snapshot, env: Env): Trace
    decreases |lines|
  {
    if |lines| == 0 then Trace(s, [])
    else
      var t := Serve(lines[..|lines| - 1], s, env);
      var step := StepLine(lines[|lines| - 1], |lines| - 1, t.state, env);
      Trace(step.state, t.responses + Sent(step.reply))
  }

  /** The server as a state object: the in-memory state, the state file, and
      the response lines written so far. */
  class Server {
    var memory: ProcessState
    var stored: ProcessState
    var sent: seq<Response>

    /** NewServer, over the state loaded from the file. */
    constructor (loaded: ProcessState)
      ensures memory == loaded && stored == loaded && sent == []
    {
      memory := loaded;
      stored := loaded;
      sent := [];
    }

    /** `_ = SaveState(...)`: the file takes the memory state unless the write fails. */
    method SaveState(ok: bool)
      modifies this`stored
      ensures stored == if ok then memory else old(stored)
    {
      if ok {
        stored := memory;
      }
    }

    /** send */
    method Send(r: Response)
      modifies this`sent
      ensures sent == old(sent) + [r]
    {
      sent := sent + [r];
    }

    /** handleToolsCall after its parameters decoded. */
    method HandleToolsCall(id: JsonValue, name: string, args: map<string, JsonValue>, n: nat, env: Env)
      modifies this
      ensures var e := CallTool(name, args, n, old(Snapshot(memory, stored)), env);
        Snapshot(memory, stored) == e.state && sent == old(sent) + [ResultResponse(id, e.result)]
    {
      var output: string := "";
      var err: Option<string> := None;
      if name == "quint_status" {
        output := memory.phase;
      } else if name == "quint_init" {
        var res := env.facade(n, InitProject);
        if res.Failed? {
          err := Some(res.error);
        } else {
          memory := memory.(phase := Abduction);
          SaveState(env.saveOk(n));
          output := "Initialized. Phase: ABDUCTION";
        }
      } else if name == "quint_record_context" {
        var o := env.facade(n, RecordContext(Arg(args, "vocabulary"), Arg(args, "invariants")));
        output, err := Unpack(o);
      } else if name == "quint_propose" {
        memory := memory.(phase := Abduction);
        SaveState(env.saveOk(n));
        var o := env.facade(n, ProposeHypothesis(Arg(args, "title"), Arg(args, "content"), Arg(args, "scope"),
                                                 Arg(args, "kind"), Arg(args, "rationale")));
        output, err := Unpack(o);
      } else if name == "quint_verify" {
        memory := memory.(phase := Deduction);
        SaveState(env.saveOk(n));
        var o := env.facade(n, VerifyHypothesis(Arg(args, "hypothesis_id"), Arg(args, "checks_json"),
                                                Arg(args, "verdict")));
        output, err := Unpack(o);
      } else if name == "quint_test" {
        memory := memory.(phase := Induction);
        SaveState(env.saveOk(n));
        var level := "L2";
        if Arg(args, "verdict") != "PASS" {
          level := "L1";
        }
        var o := env.facade(n, ManageEvidence(Induction, "add", Arg(args, "hypothesis_id"), Arg(args, "test_type"),
                                              Arg(args, "result"), Arg(args, "verdict"), level, "test-runner", ""));
        output, err := Unpack(o);
      } else if name == "quint_audit" {
        var o := env.facade(n, AuditEvidence(Arg(args, "hypothesis_id"), Arg(args, "risks")));
        output, err := Unpack(o);
      } else if name == "quint_decide" {
        memory := memory.(phase := Decision);
        var o := env.facade(n, FinalizeDecision(Arg(args, "title"), Arg(args, "winner_id"), Arg(args, "context"),
                                                Arg(args, "decision"), Arg(args, "rationale"),
                                                Arg(args, "consequences"), Arg(args, "characteristics")));
        output, err := Unpack(o);
        if err.None? {
          memory := memory.(phase := Idle);
          SaveState(env.saveOk(n));
        }
      } else {
        err := Some("unknown tool: " + name);
      }
      if err.Some? {
        Send(ResultResponse(id, TextResult(err.value, true)));
      } else {
        Send(ResultResponse(id, TextResult(output, false)));
      }
    }

    /** One iteration of the loop of Start, for the line at position `n`. */
    method HandleLine(line: string, n: nat, env: Env)
      modifies this
      ensures var step := StepLine(line, n, old(Snapshot(memory, stored)), env);
        Snapshot(memory, stored) == step.state && sent == old(sent) + Sent(step.reply)
    {
      if |line| == 0 {
        return;
      }
      var decoded := env.decode(line);
      if decoded.None? {
        Send(ErrorResponse(JNull, ParseError, "Parse error"));
        return;
      }
      var req := decoded.value;
      if req.methodName == "initialize" {
        Send(ResultResponse(req.id, Initialize));
      } else if req.methodName == "tools/list" {
        Send(ResultResponse(req.id, ToolsListResult(Catalog)));
      } else if req.methodName == "tools/call" {
        if req.params.BadParams? {
          Send(ErrorResponse(req.id, InvalidParamsCode, "Invalid params"));
        } else {
          HandleToolsCall(req.id, req.params.name, req.params.arguments, n, env);
        }
      } else if req.methodName == "notifications/initialized" {
      } else if !req.id.JNull? {
        Send(ErrorResponse(req.id, MethodNotFound, "Method not found"));
      }
    }

    /** Start: every scanned line in order. */
    method Start(lines: seq<string>, env: Env)
      modifies this
      ensures var t := Serve(lines, old(Snapshot(memory, stored)), env);
        Snapshot(memory, stored) == t.state && sent == old(sent) + t.responses
    {
      ghost var s0 := Snapshot(memory, stored);
      ghost var sent0 := sent;
      for i := 0 to |lines|
        invariant Snapshot(memory, stored) == Serve(lines[..i], s0, env).state
        invariant sent == sent0 + Serve(lines[..i], s0, env).responses
      {
        assert lines[..i + 1][..i] == lines[..i];
        HandleLine(lines[i], i, env);
      }
      assert lines[..|lines|] == lines;
    }
  }

  /** Go's `output, err = ...` pair for one tool-layer answer. */
  method Unpack(o: Outcome) returns (output: string, err: Option<string>)
    ensures o.Done? ==> output == o.text && err.None?
    ensures o.Failed? ==> err == Some(o.error)
  {
    if o.Done? {
      output, err := o.text, None;
    } else {
      output, err := "", Some(o.error);
    }
  }
}
