/** What the RPC server promises, stated over `Rpc.StepLine`, `Rpc.CallTool`
    and `Rpc.Serve`. */
module RpcProperties {

  import opened Wrappers
  import opened Json
  import opened Workflow
  import opened Rpc

  /** An empty line is skipped: no response, no change. */
  lemma EmptyLineIgnored(n: nat, s: Snapshot, env: Env)
    ensures StepLine("", n, s, env) == Step(s, None)
  {
  }

  /** A line that does not decode gets exactly one parse error, with a null id. */
  lemma ParseFailure(line: string, n: nat, s: Snapshot, env: Env)
    requires |line| > 0 && env.decode(line).None?
    ensures StepLine(line, n, s, env) == Step(s, Some(Response("2.0", JNull, ErrorPayload(RpcError(-32700, "Parse error")))))
  {
  }

  /** Any other method changes nothing; it is answered with -32601, echoing the
      id, exactly when it is not `notifications/initialized` and its id is not null. */
  lemma OtherMethods(line: string, n: nat, s: Snapshot, env: Env)
    requires |line| > 0 && env.decode(line).Some?
    requires env.decode(line).value.methodName !in {"initialize", "tools/list", "tools/call"}
    ensures var req := env.decode(line).value;
      var step := StepLine(line, n, s, env);
      && step.state == s
      && (step.reply.Some? <==> req.methodName != "notifications/initialized" && !req.id.JNull?)
      && (step.reply.Some? ==> step.reply.value == Response("2.0", req.id, ErrorPayload(RpcError(-32601, "Method not found"))))
  {
  }

  /** `initialize` echoes the id with protocol version 2024-11-05 and the server's name and version. */
  lemma InitializeEchoesId(line: string, n: nat, s: Snapshot, env: Env)
    requires |line| > 0 && env.decode(line).Some? && env.decode(line).value.methodName == "initialize"
    ensures StepLine(line, n, s, env) ==
      Step(s, Some(Response("2.0", env.decode(line).value.id, InitializeResult("2024-11-05", "quint-mcp", "0.2.0"))))
  {
  }

  /** The catalog lists eight tools, in this order. */
  lemma CatalogNames()
    ensures Names(Catalog) == ["quint_status", "quint_init", "quint_record_context", "quint_propose",
                               "quint_verify", "quint_test", "quint_audit", "quint_decide"]
  {
  }

  /** `tools/list` echoes the id with the catalog. */
  lemma ToolsListIsFixed(line: string, n: nat, s: Snapshot, env: Env)
    requires |line| > 0 && env.decode(line).Some? && env.decode(line).value.methodName == "tools/list"
    ensures StepLine(line, n, s, env) == Step(s, Some(Response("2.0", env.decode(line).value.id, ToolsListResult(Catalog))))
  {
  }

  /** Every name a tool requires is a key of its properties. */
  ghost predicate DeclaresRequired(t: ToolSpec)
  {
    forall r :: r in t.required ==> r in t.properties
  }

  lemma FirstToolsDeclare()
    ensures DeclaresRequired(Catalog[0]) && DeclaresRequired(Catalog[1]) && DeclaresRequired(Catalog[2])
    ensures DeclaresRequired(Catalog[3])
  {
  }

  lemma LastToolsDeclare()
    ensures DeclaresRequired(Catalog[4]) && DeclaresRequired(Catalog[5]) && DeclaresRequired(Catalog[6])
    ensures DeclaresRequired(Catalog[7])
  {
  }

  /** Every listed tool requires only properties its schema declares. */
  lemma RequiredAreDeclared()
    ensures forall i, r :: 0 <= i < |Catalog| && r in Catalog[i].required ==> r in Catalog[i].properties
  {
    FirstToolsDeclare();
    LastToolsDeclare();
    forall i | 0 <= i < |Catalog|
      ensures forall r :: r in Catalog[i].required ==> r in Catalog[i].properties
    {
      assert DeclaresRequired(Catalog[i]);
    }
  }

  /** With a tool layer that succeeds on this line, the first four listed tools answer without the error flag. */
  lemma FirstToolsSucceed(name: string, args: map<string, JsonValue>, n: nat, s: Snapshot, env: Env)
    requires name in {"quint_status", "quint_init", "quint_record_context", "quint_propose"}
    requires forall c :: env.facade(n, c).Done?
    ensures !CallTool(name, args, n, s, env).result.isError
  {
  }

  /** With a tool layer that succeeds on this line, the last four listed tools answer without the error flag. */
  lemma LastToolsSucceed(name: string, args: map<string, JsonValue>, n: nat, s: Snapshot, env: Env)
    requires name in {"quint_verify", "quint_test", "quint_audit", "quint_decide"}
    requires forall c :: env.facade(n, c).Done?
    ensures !CallTool(name, args, n, s, env).result.isError
  {
  }

  /** With a tool layer that always succeeds, a tool call ends in an error exactly
      when the name is not in the catalog: the switch handles every listed tool. */
  lemma ListedIffHandled(name: string, args: map<string, JsonValue>, n: nat, s: Snapshot, env: Env, text: string)
    ensures var always := Env(env.decode, (k: nat, c: FacadeCall) => Done(text), env.saveOk);
      name in Names(Catalog) <==> !CallTool(name, args, n, s, always).result.isError
  {
    var always := Env(env.decode, (k: nat, c: FacadeCall) => Done(text), env.saveOk);
    CatalogNames();
    if name in {"quint_status", "quint_init", "quint_record_context", "quint_propose"} {
      FirstToolsSucceed(name, args, n, s, always);
    } else if name in {"quint_verify", "quint_test", "quint_audit", "quint_decide"} {
      LastToolsSucceed(name, args, n, s, always);
    } else {
      UnknownTool(name, args, n, s, always);
    }
  }

  /** An unlisted tool name is answered with a tool result flagged as an error, not an RPC error. */
  lemma UnknownTool(name: string, args: map<string, JsonValue>, n: nat, s: Snapshot, env: Env)
    requires name !in Names(Catalog)
    ensures CallTool(name, args, n, s, env) == ToolEffect(s, CallToolResult([ContentItem("text", "unknown tool: " + name)], true))
  {
    CatalogNames();
  }

  /** Every tool call, listed or not, yields a tool result with one text item. */
  lemma OneTextItem(name: string, args: map<string, JsonValue>, n: nat, s: Snapshot, env: Env)
    ensures var p := CallTool(name, args, n, s, env).result;
      p.CallToolResult? && |p.content| == 1 && p.content[0].kind == "text"
  {
  }

  /** `quint_record_context` passes the vocabulary and invariants arguments and answers with the tool's text or error. */
  lemma RecordContextReply(args: map<string, JsonValue>, n: nat, s: Snapshot, env: Env)
    ensures var o := env.facade(n, RecordContext(Arg(args, "vocabulary"), Arg(args, "invariants")));
      CallTool("quint_record_context", args, n, s, env).result
        == match o
           case Done(t) => CallToolResult([ContentItem("text", t)], false)
           case Failed(e) => CallToolResult([ContentItem("text", e)], true)
  {
  }

  /** `quint_propose` passes its five arguments and answers with the tool's text or error. */
  lemma ProposeReply(args: map<string, JsonValue>, n: nat, s: Snapshot, env: Env)
    ensures var o := env.facade(n, ProposeHypothesis(Arg(args, "title"), Arg(args, "content"), Arg(args, "scope"),
                                                     Arg(args, "kind"), Arg(args, "rationale")));
      CallTool("quint_propose", args, n, s, env).result
        == match o
           case Done(t) => CallToolResult([ContentItem("text", t)], false)
           case Failed(e) => CallToolResult([ContentItem("text", e)], true)
  {
  }

  /** `quint_verify` passes its three arguments and answers with the tool's text or error. */
  lemma VerifyReply(args: map<string, JsonValue>, n: nat, s: Snapshot, env: Env)
    ensures var o := env.facade(n, VerifyHypothesis(Arg(args, "hypothesis_id"), Arg(args, "checks_json"), Arg(args, "verdict")));
      CallTool("quint_verify", args, n, s, env).result
        == match o
           case Done(t) => CallToolResult([ContentItem("text", t)], false)
           case Failed(e) => CallToolResult([ContentItem("text", e)], true)
  {
  }

  /** `quint_test` passes an INDUCTION evidence record and answers with the tool's text or error. */
  lemma TestReply(args: map<string, JsonValue>, n: nat, s: Snapshot, env: Env)
    ensures var level := if Arg(args, "verdict") == "PASS" then "L2" else "L1";
      var o := env.facade(n, ManageEvidence(Induction, "add", Arg(args, "hypothesis_id"), Arg(args, "test_type"),
                                            Arg(args, "result"), Arg(args, "verdict"), level, "test-runner", ""));
      CallTool("quint_test", args, n, s, env).result
        == match o
           case Done(t) => CallToolResult([ContentItem("text", t)], false)
           case Failed(e) => CallToolResult([ContentItem("text", e)], true)
  {
  }

  /** `quint_audit` passes the hypothesis and the risks and answers with the tool's text or error. */
  lemma AuditReply(args: map<string, JsonValue>, n: nat, s: Snapshot, env: Env)
    ensures var o := env.facade(n, AuditEvidence(Arg(args, "hypothesis_id"), Arg(args, "risks")));
      CallTool("quint_audit", args, n, s, env).result
        == match o
           case Done(t) => CallToolResult([ContentItem("text", t)], false)
           case Failed(e) => CallToolResult([ContentItem("text", e)], true)
  {
  }

  /** `tools/call` always answers, echoing the id: undecodable parameters give the
      RPC error -32700 "Invalid params"; otherwise a tool result with one text
      item, never an RPC error, whatever the tool does. */
  lemma ToolCallsAnswer(line: string, n: nat, s: Snapshot, env: Env)
    requires |line| > 0 && env.decode(line).Some? && env.decode(line).value.methodName == "tools/call"
    ensures var req := env.decode(line).value;
      var step := StepLine(line, n, s, env);
      && step.reply.Some? && step.reply.value.id == req.id && step.reply.value.jsonrpc == "2.0"
      && (req.params.BadParams? ==> step.state == s && step.reply.value.payload == ErrorPayload(RpcError(-32700, "Invalid params")))
      && (req.params.CallParams? ==>
            var p := step.reply.value.payload;
            p.CallToolResult? && |p.content| == 1 && p.content[0].kind == "text")
  {
    var req := env.decode(line).value;
    if req.params.CallParams? {
      OneTextItem(req.params.name, req.params.arguments, n, s, env);
    }
  }

  /** `quint_propose`, `quint_verify` and `quint_test` set ABDUCTION, DEDUCTION and
      INDUCTION whatever the prior phase and whatever the tool layer answers,
      and the file takes that state exactly when the line's write succeeds. */
  lemma ForcedPhase(name: string, args: map<string, JsonValue>, n: nat, s: Snapshot, env: Env)
    requires name in {"quint_propose", "quint_verify", "quint_test"}
    ensures var target := if name == "quint_propose" then Abduction else if name == "quint_verify" then Deduction else Induction;
      var e := CallTool(name, args, n, s, env);
      && e.state.memory == s.memory.(phase := target)
      && e.state.stored == (if env.saveOk(n) then e.state.memory else s.stored)
  {
  }

  /** Proposing from IDLE needs no transition first: the call goes through and the phase becomes ABDUCTION. */
  lemma ProposeFromIdle(args: map<string, JsonValue>, n: nat, s: Snapshot, env: Env)
    requires s.memory.phase == Idle
    requires env.facade(n, ProposeHypothesis(Arg(args, "title"), Arg(args, "content"), Arg(args, "scope"),
                                             Arg(args, "kind"), Arg(args, "rationale"))).Done?
    ensures var e := CallTool("quint_propose", args, n, s, env);
      e.state.memory.phase == Abduction && !e.result.isError
  {
  }

  /** `quint_status`, `quint_record_context`, `quint_audit` and unknown tools leave memory and file alone. */
  lemma PhaseKept(name: string, args: map<string, JsonValue>, n: nat, s: Snapshot, env: Env)
    requires name in {"quint_status", "quint_record_context", "quint_audit"} || name !in Names(Catalog)
    ensures CallTool(name, args, n, s, env).state == s
  {
    CatalogNames();
  }

  /** `quint_status` reports the in-memory phase. */
  lemma StatusReportsPhase(args: map<string, JsonValue>, n: nat, s: Snapshot, env: Env)
    ensures CallTool("quint_status", args, n, s, env).result == CallToolResult([ContentItem("text", s.memory.phase)], false)
  {
  }

  /** `quint_init` moves to ABDUCTION only when the tool layer succeeds. */
  lemma InitPhase(args: map<string, JsonValue>, n: nat, s: Snapshot, env: Env)
    ensures var o := env.facade(n, InitProject);
      var e := CallTool("quint_init", args, n, s, env);
      && (o.Done? ==> e.state.memory == s.memory.(phase := Abduction)
                      && e.state.stored == (if env.saveOk(n) then e.state.memory else s.stored)
                      && e.result == CallToolResult([ContentItem("text", "Initialized. Phase: ABDUCTION")], false))
      && (o.Failed? ==> e.state == s && e.result == CallToolResult([ContentItem("text", o.error)], true))
  {
  }

  /** `quint_decide` ends at IDLE, written, on success; on failure it stays at DECISION in memory only. */
  lemma DecidePhase(args: map<string, JsonValue>, n: nat, s: Snapshot, env: Env)
    ensures var call := FinalizeDecision(Arg(args, "title"), Arg(args, "winner_id"), Arg(args, "context"),
                                         Arg(args, "decision"), Arg(args, "rationale"), Arg(args, "consequences"),
                                         Arg(args, "characteristics"));
      var o := env.facade(n, call);
      var e := CallTool("quint_decide", args, n, s, env);
      && (o.Done? ==> e.state.memory == s.memory.(phase := Idle)
                      && e.state.stored == (if env.saveOk(n) then e.state.memory else s.stored)
                      && e.result == CallToolResult([ContentItem("text", o.text)], false))
      && (o.Failed? ==> e.state == Snapshot(s.memory.(phase := Decision), s.stored)
                        && e.result == CallToolResult([ContentItem("text", o.error)], true))
  {
  }

  /** `quint_test` asks the tool layer for exactly one thing: an INDUCTION evidence
      record by "test-runner", at L2 when the verdict is PASS and L1 otherwise. */
  lemma TestAsksOnlyThis(args: map<string, JsonValue>, n: nat, s: Snapshot, env: Env, g: (nat, FacadeCall) -> Outcome)
    requires var level := if Arg(args, "verdict") == "PASS" then "L2" else "L1";
      var call := ManageEvidence(Induction, "add", Arg(args, "hypothesis_id"), Arg(args, "test_type"),
                                 Arg(args, "result"), Arg(args, "verdict"), level, "test-runner", "");
      g(n, call) == env.facade(n, call)
    ensures CallTool("quint_test", args, n, s, env.(facade := g)) == CallTool("quint_test", args, n, s, env)
  {
  }

  /** Whether a line gets a response, judged from the line and its decoding alone. */
  predicate Answered(line: string, decode: Decoder)
  {
    |line| > 0 &&
    match decode(line)
    case None => true
    case Some(req) =>
      req.methodName in {"initialize", "tools/list", "tools/call"}
      || (req.methodName != "notifications/initialized" && !req.id.JNull?)
  }

  /** The number of answered lines. */
  function CountAnswered(lines: seq<string>, decode: Decoder): (c: nat)
    ensures c <= |lines|
  {
    if |lines| == 0 then 0
    else CountAnswered(lines[..|lines| - 1], decode) + (if Answered(lines[|lines| - 1], decode) then 1 else 0)
  }

  /** A line is answered exactly when `Answered` says so, whatever the state. */
  lemma StepAnswers(line: string, n: nat, s: Snapshot, env: Env)
    ensures StepLine(line, n, s, env).reply.Some? <==> Answered(line, env.decode)
  {
  }

  /** One response per answered line, and so never more responses than lines. */
  lemma {:induction false} ResponseCount(lines: seq<string>, s: Snapshot, env: Env)
    ensures |Serve(lines, s, env).responses| == CountAnswered(lines, env.decode)
    decreases |lines|
  {
    if |lines| > 0 {
      var init := lines[..|lines| - 1];
      ResponseCount(init, s, env);
      StepAnswers(lines[|lines| - 1], |lines| - 1, Serve(init, s, env).state, env);
    }
  }

  /** Every response is a JSON-RPC 2.0 envelope. */
  lemma {:induction false} AllVersion2(lines: seq<string>, s: Snapshot, env: Env)
    ensures forall r :: r in Serve(lines, s, env).responses ==> r.jsonrpc == "2.0"
    decreases |lines|
  {
    if |lines| > 0 {
      AllVersion2(lines[..|lines| - 1], s, env);
    }
  }

  /** One line's response and new memory depend neither on the file nor on whether the write succeeds. */
  lemma StepIgnoresStorage(line: string, n: nat, s1: Snapshot, s2: Snapshot, env: Env, ok: nat -> bool)
    requires s1.memory == s2.memory
    ensures StepLine(line, n, s1, env).reply == StepLine(line, n, s2, env.(saveOk := ok)).reply
    ensures StepLine(line, n, s1, env).state.memory == StepLine(line, n, s2, env.(saveOk := ok)).state.memory
  {
  }

  /** Since save errors are discarded, no write outcome ever changes a response or the in-memory state. */
  lemma {:induction false} SaveOutcomesInvisible(lines: seq<string>, s: Snapshot, env: Env, ok: nat -> bool)
    ensures Serve(lines, s, env.(saveOk := ok)).responses == Serve(lines, s, env).responses
    ensures Serve(lines, s, env.(saveOk := ok)).state.memory == Serve(lines, s, env).state.memory
    decreases |lines|
  {
    if |lines| > 0 {
      var init := lines[..|lines| - 1];
      SaveOutcomesInvisible(init, s, env, ok);
      StepIgnoresStorage(lines[|lines| - 1], |lines| - 1, Serve(init, s, env).state,
                         Serve(init, s, env.(saveOk := ok)).state, env, ok);
    }
  }

  /** One line never changes the role, and a write stores the memory state in one of the four phases the tools write. */
  lemma StepStores(line: string, n: nat, s: Snapshot, env: Env)
    ensures var t := StepLine(line, n, s, env).state;
      && t.memory.activeRole == s.memory.activeRole
      && (t.stored == s.stored || (t.stored == t.memory && t.stored.phase in {Abduction, Deduction, Induction, Idle}))
  {
  }

  /** DECISION is never written to the file: `quint_decide` writes only after moving on to IDLE. */
  lemma {:induction false} DecisionNeverWritten(lines: seq<string>, s: Snapshot, env: Env)
    requires s.stored.phase != Decision
    ensures Serve(lines, s, env).state.stored.phase != Decision
    decreases |lines|
  {
    if |lines| > 0 {
      var init := lines[..|lines| - 1];
      DecisionNeverWritten(init, s, env);
      StepStores(lines[|lines| - 1], |lines| - 1, Serve(init, s, env).state, env);
    }
  }

  /** The server never changes the active role, in memory or in the file. */
  lemma {:induction false} RoleNeverChanges(lines: seq<string>, s: Snapshot, env: Env)
    ensures Serve(lines, s, env).state.memory.activeRole == s.memory.activeRole
    ensures Serve(lines, s, env).state.stored.activeRole in {s.stored.activeRole, s.memory.activeRole}
    decreases |lines|
  {
    if |lines| > 0 {
      var init := lines[..|lines| - 1];
      RoleNeverChanges(init, s, env);
      StepStores(lines[|lines| - 1], |lines| - 1, Serve(init, s, env).state, env);
    }
  }
}
