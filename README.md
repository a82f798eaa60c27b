# quint-code core, modelled in Dafny

This project models the three core parts of quint-code's Go command `quint-mcp`.

- **The one-shot dispatcher** (`main.go`). One `--action` runs per process against the state loaded from `.quint/state.json`. The state is a phase plus the role assignment that last moved it. Each action makes at most one print call (an unknown action prints nothing; the text `context` and `audit` print comes from the tool layer and may span several lines) and exits with 0 or 1. Some actions change the in-memory state and write it back to the state file.
- **The line-oriented JSON-RPC server** (`server.go`). `Start` reads requests one line at a time and routes on the method. `tools/call` runs one of eight tools. Most tools force the phase without consulting the guard, and the server discards write errors.
- **The setup transformations of `init`** (`cmd/init.go`). These cover:
  - stripping `//` comments from a JSONC settings file;
  - replacing the `[mcp_servers.quint-code]` section of Codex's `config.toml`;
  - merging the `quint-code` server into a client's MCP configuration;
  - merging the VS Code settings for Copilot;
  - defaulting the tool-selection flags.

Files and modules:

- `wrappers.dfy` (`Wrappers`): `Option` and `Result`.
- `json.dfy` (`Json`): decoded JSON as Go's `interface{}` holds it.
- `workflow.dfy` (`Workflow`): phases and roles as strings, the process state, evidence stubs, and the calls into the tool layer with their outcomes. It also declares the guard `CanTransition` and the role check `isValidRoleForPhase` as function types. Their bodies are not in the modelled files, so they stay uninterpreted parameters.
- `text.dfy` (`Text`): the Go `strings` functions the setup code uses: `Index`, `TrimRight(s, "\n")`, `TrimSpace` and `Split`/`Join` on `"\n"`.
- `cli.dfy` (`Cli`): `Dispatch` specifies one invocation as a value. Class `Fsm` performs it on state fields. Its `Execute` and per-case methods follow main.go's statements in order and are proved to agree with `Dispatch`.
- `cli_properties.dfy` (`CliProperties`): what the dispatcher promises.
- `server.dfy` (`Rpc`): `StepLine` handles one line and `Serve` folds it over all lines. Class `Server` has `HandleLine`, `HandleToolsCall` and the `Start` loop, each proved against that specification.
- `server_properties.dfy` (`RpcProperties`): what the server promises, per line and over whole input sequences.
- `setup.dfy` (`Setup`): functions specifying the init transformations, and the methods that perform them as the source does. These include the comment-stripping loop, the base-key insertion loop, and the flag defaulting on a class of flags.
- `setup_properties.dfy` (`SetupProperties`): the properties of those transformations.

The environment is passed in as parameters:

- for the CLI, a `World`: the guard, the role check, the tool layer, and a possible write error;
- for the server, an `Env`: a decoder for lines, the tool layer indexed by line number, and whether each line's write succeeds.

Files are values: the text a read returned and the text or map that would be written.

On these points the model follows the code as written:

- The server's `quint_decide` consults no guard. It sets DECISION, then IDLE when the tool layer succeeds (server.go:306-312).
- Undecodable `tools/call` parameters get code -32700, "Invalid params". Section 5.1 of the JSON-RPC 2.0 specification reserves -32700 for parse errors and -32602 for invalid parameters. The model keeps the code the source sends.
- `initialize`, `tools/list` and `tools/call` answer even a request with a null id. Only the default branch checks the id.
- The guard's boolean is read with opposite polarity at different call sites. `transition` applies the move when the guard returns false. `propose`, `loopback` and `decide` deny when it returns false. Both readings are kept as written.
- `removeJSONComments` also cuts a `"//"` that sits inside a JSON string, such as a URL (`UrlValueIsCut`).

## Model

| member | source | states |
|---|---|---|
| Cli.EvidenceFromFlags | src/mcp/main.go:111-121 | a stub exists exactly when `--evidence_uri` is non-empty, and it carries the type, URI, description and holon flags verbatim |
| Cli.ParseAction | src/mcp/main.go:124-289 | a named case is chosen only for its own label; the no-op default is taken exactly when the flag is none of the twelve labels |
| Cli.Fsm.constructor | src/mcp/main.go:87-91 | after loading, memory and file hold the same state and nothing is printed |
| Cli.Fsm.SaveState | src/mcp/main.go:155-158 | the file takes the whole in-memory state when there is no write error and keeps its contents otherwise; the result reports which |
| Cli.Fsm.Say | src/mcp/main.go:126 | one line is appended to the output |
| Cli.Fsm.Execute | src/mcp/main.go:124-289 | the switch, run on the state object: exit code, printed lines, memory and file equal `Dispatch` of the loaded state |
| Cli.Fsm.CheckCase | src/mcp/main.go:128-140 | the `check` statements produce exactly the run `Check` specifies, file and memory untouched |
| Cli.Fsm.TransitionCase | src/mcp/main.go:142-164 | the `transition` statements (assign phase, assign role, save, print) produce exactly the run `Transition` specifies |
| Cli.Fsm.InitCase | src/mcp/main.go:166-176 | the `init` statements (set ABDUCTION, save, then call the tool layer) produce exactly the run `Init` specifies |
| Cli.Fsm.ContextCase | src/mcp/main.go:180-190 | the `context` statements produce exactly the run `Context` specifies |
| Cli.Fsm.ProposeCase | src/mcp/main.go:192-204 | the `propose` statements produce exactly the run `Propose` specifies |
| Cli.Fsm.EvidenceCase | src/mcp/main.go:206-216 | the `evidence` statements produce exactly the run `Evidence` specifies |
| Cli.Fsm.LoopbackCase | src/mcp/main.go:218-238 | the `loopback` statements (guard, tool layer, set DEDUCTION and role, save) produce exactly the run `Loopback` specifies |
| Cli.Fsm.DecideCase | src/mcp/main.go:240-266 | the `decide` statements (guard only in INDUCTION or AUDIT, DECISION, tool layer, IDLE and role, save) produce exactly the run `Decide` specifies |
| Cli.Fsm.DelegateCase | src/mcp/main.go:268-288 | `actualize`, `decay` and `audit` print their fixed line (or the audit tree), or `ERROR:` with exit 1, and change nothing |
| CliProperties.FlagDefaults | src/mcp/main.go:16-52 | with no flags the action is `check`, the holder is the empty role in "default-session"/"default-context", no evidence stub is built, and `propose` creates a "system" hypothesis with empty title, content and scope |
| CliProperties.CheckIsReadOnly | src/mcp/main.go:128-140 | `check` never changes memory or file; it exits 0 exactly when a role is given and may act in the phase, printing `OK:`, and otherwise prints the `Error:` or `VIOLATION:` line with exit 1 |
| CliProperties.TransitionNeedsTargetAndRole | src/mcp/main.go:143-146 | without a target or a role, `transition` prints the `Error:` line, exits 1 and changes nothing |
| CliProperties.TransitionAppliesOnFalse | src/mcp/main.go:148-164 | when the guard returns false, the phase becomes the target and the role the caller's assignment; that state is written and `TRANSITION:` printed with exit 0, or the file is kept with exit 1 on a write error; when the guard returns true it prints `DENIED:`, exits 1 and changes nothing |
| CliProperties.ProposeProceedsOnTrue | src/mcp/main.go:192-204 | `propose` never changes the state; a false guard answer prints `DENIED:` with exit 1; otherwise the tool layer's path is printed with exit 0, or its error with exit 1 |
| CliProperties.OppositePolarity | src/mcp/main.go:151-152 | one guard answer of false for ABDUCTION makes `transition` apply and write the move and makes `propose` refuse |
| CliProperties.InitWritesFirst | src/mcp/main.go:166-176 | `init` sets ABDUCTION and keeps the role; the state is written before the tool layer runs, so a later tool failure exits 1 with ABDUCTION on file; exit 0 exactly when the write and the tool succeed |
| CliProperties.LoopbackAsksWithInsightStub | src/mcp/main.go:219-222 | `loopback` asks the guard only about DEDUCTION with the stub ("insight", "loopback-event", the insight): any guard agreeing on that question gives the same run |
| CliProperties.LoopbackOutcome | src/mcp/main.go:222-238 | with guard, tool and write all succeeding, DEDUCTION and the caller's assignment are written with exit 0; after a denial or a tool failure nothing changes and the exit is 1; when the write fails the error goes to standard error, the exit is 1, the file is kept and memory holds DEDUCTION with the caller's assignment |
| CliProperties.DecideSkipsGuard | src/mcp/main.go:242 | outside INDUCTION and AUDIT the run of `decide` depends on no guard answer |
| CliProperties.DecideAsksWithStub | src/mcp/main.go:242-247 | from INDUCTION or AUDIT, `decide` asks only about DECISION, with the flags' stub, or ("rationale", "decision-process", "Final decision rationale") when `--evidence_uri` is empty |
| CliProperties.DecideOutcome | src/mcp/main.go:240-266 | on success IDLE and the caller's assignment are written with exit 0; a denial changes nothing; a tool failure writes nothing, keeps the role and leaves memory at DECISION when the guard was asked; when the write fails the error goes to standard error, the exit is 1, the file is kept and memory holds IDLE with the caller's assignment |
| CliProperties.ReadOnlyActions | src/mcp/main.go:125-126 | `status`, `context`, `propose`, `evidence`, `actualize`, `decay` and `audit` never change memory or file |
| CliProperties.UnknownActionIsNoOp | src/mcp/main.go:124-289 | an action the switch does not name prints nothing, exits 0 and changes nothing |
| CliProperties.ActionLabels | src/mcp/main.go:124-289 | each named case is reached by its label and by no other flag value |
| CliProperties.InvocationShape | src/mcp/main.go:124-289 | every invocation makes at most one print call and exits 0 or 1; the file keeps its contents or holds the whole memory state; only `init` can leave a write behind and still exit 1 |
| CliProperties.CheckSettled | src/mcp/main.go:128-140 | `check` is well shaped and writes nothing unless it exits 0 |
| CliProperties.TransitionSettled | src/mcp/main.go:142-164 | `transition` is well shaped and writes only when it exits 0 |
| CliProperties.InitShaped | src/mcp/main.go:166-176 | `init` makes one print call, exits 0 or 1, and the file keeps its contents or holds the memory state |
| CliProperties.ContextSettled | src/mcp/main.go:180-190 | `context` is well shaped and writes nothing unless it exits 0 |
| CliProperties.ProposeSettled | src/mcp/main.go:192-204 | `propose` is well shaped and writes nothing unless it exits 0 |
| CliProperties.EvidenceSettled | src/mcp/main.go:206-216 | `evidence` is well shaped and writes nothing unless it exits 0 |
| CliProperties.LoopbackSettled | src/mcp/main.go:218-238 | `loopback` is well shaped and writes only when it exits 0 |
| CliProperties.DecideSettled | src/mcp/main.go:240-266 | `decide` is well shaped and writes only when it exits 0 |
| CliProperties.DenialKeepsState | src/mcp/main.go:162-163 | a run whose line starts with `DENIED: ` changed neither memory nor file, whatever the action |
| CliProperties.TransitionDenial | src/mcp/main.go:161-164 | a `DENIED:` line from `transition` comes with no change of state |
| CliProperties.InitNeverDenies | src/mcp/main.go:166-176 | `init` never prints a `DENIED:` line |
| CliProperties.LoopbackDenial | src/mcp/main.go:223-226 | a `DENIED:` line from `loopback` comes with no change of state |
| CliProperties.DecideDenial | src/mcp/main.go:248-251 | a `DENIED:` line from `decide` comes with no change of state |
| Rpc.Names | src/mcp/server.go:125-232 | the catalog's names, one per tool, in order |
| Rpc.Arg | src/mcp/server.go:244-249 | the argument when it is a JSON string; a non-empty result is always the string argument under that key, so a missing or non-string argument gives "" |
| Rpc.TestAssurance | src/mcp/server.go:295-298 | `quint_test` records L2 exactly when the verdict is PASS, and L1 otherwise |
| Rpc.Server.constructor | src/mcp/server.go:53-55 | the server starts with memory and file equal to the loaded state and nothing sent |
| Rpc.Server.SaveState | src/mcp/server.go:268 | the file takes the memory state when the write succeeds and keeps its contents otherwise |
| Rpc.Server.Send | src/mcp/server.go:89-92 | one response is appended to what was sent |
| Rpc.Server.HandleToolsCall | src/mcp/server.go:251-327 | the switch over tool names, with its phase assignments, discarded saves and result wrapping, leaves memory, file and sent responses exactly as `CallTool` specifies |
| Rpc.Server.HandleLine | src/mcp/server.go:60-85 | one iteration of the loop leaves memory, file and sent responses exactly as `StepLine` specifies |
| Rpc.Server.Start | src/mcp/server.go:57-87 | the loop over all lines ends in the state and the response sequence of `Serve` |
| Rpc.Unpack | src/mcp/server.go:273 | Go's `output, err` pair: the text with no error on success, the error on failure |
| RpcProperties.EmptyLineIgnored | src/mcp/server.go:61-63 | an empty line gives no response and no change |
| RpcProperties.ParseFailure | src/mcp/server.go:65-69 | an undecodable line gives exactly one response: error -32700 "Parse error" with a null id, versioned "2.0" |
| RpcProperties.OtherMethods | src/mcp/server.go:78-84 | any other method changes nothing; it gets -32601 "Method not found" echoing the id exactly when it is not `notifications/initialized` and its id is not null |
| RpcProperties.InitializeEchoesId | src/mcp/server.go:112-123 | `initialize` answers with the request's id, protocol version 2024-11-05 and server "quint-mcp" version "0.2.0", and changes nothing |
| RpcProperties.CatalogNames | src/mcp/server.go:125-232 | the catalog has exactly eight tools: status, init, record_context, propose, verify, test, audit, decide, in that order |
| RpcProperties.ToolsListIsFixed | src/mcp/server.go:125-232 | `tools/list` answers with the request's id and the fixed catalog, and changes nothing |
| RpcProperties.FirstToolsDeclare | src/mcp/server.go:127-161 | each of the first four schemas requires only names that are keys of its properties map |
| RpcProperties.LastToolsDeclare | src/mcp/server.go:162-229 | each of the last four schemas requires only names that are keys of its properties map |
| RpcProperties.RequiredAreDeclared | src/mcp/server.go:125-232 | every listed tool requires only names that are keys of its properties map |
| RpcProperties.RecordContextReply | src/mcp/server.go:272-273 | `quint_record_context` asks the tool layer with the vocabulary and invariants arguments and answers its text, or its error flagged (server.go:318-327) |
| RpcProperties.ProposeReply | src/mcp/server.go:275-281 | `quint_propose` asks with title, content, scope, kind and rationale and answers the tool's text, or its error flagged (server.go:318-327) |
| RpcProperties.VerifyReply | src/mcp/server.go:283-287 | `quint_verify` asks with hypothesis_id, checks_json and verdict and answers the tool's text, or its error flagged (server.go:318-327) |
| RpcProperties.TestReply | src/mcp/server.go:289-300 | `quint_test` adds INDUCTION evidence by "test-runner" at L2 for PASS, L1 otherwise, and answers the tool's text, or its error flagged (server.go:318-327) |
| RpcProperties.AuditReply | src/mcp/server.go:302-304 | `quint_audit` asks with hypothesis_id and risks and answers the tool's text, or its error flagged (server.go:318-327) |
| RpcProperties.FirstToolsSucceed | src/mcp/server.go:258-281 | with a tool layer that succeeds on the line, status, init, record_context and propose answer without the error flag |
| RpcProperties.LastToolsSucceed | src/mcp/server.go:283-312 | with a tool layer that succeeds on the line, verify, test, audit and decide answer without the error flag |
| RpcProperties.ListedIffHandled | src/mcp/server.go:257-316 | with a tool layer that always succeeds, a call ends flagged as an error exactly when the name is not in the catalog: the switch handles every listed tool |
| RpcProperties.UnknownTool | src/mcp/server.go:314-322 | an unlisted name changes nothing and gets a tool result flagged as an error, with text "unknown tool: " and the name |
| RpcProperties.OneTextItem | src/mcp/server.go:318-327 | every tool call, listed or not, yields a tool result with exactly one text item |
| RpcProperties.ToolCallsAnswer | src/mcp/server.go:234-242 | `tools/call` always answers, echoing the id under "2.0"; undecodable parameters give RPC error -32700 "Invalid params" and no change; decoded ones give a one-item text tool result, never an RPC error |
| RpcProperties.ForcedPhase | src/mcp/server.go:275-300 | `quint_propose`, `quint_verify` and `quint_test` set ABDUCTION, DEDUCTION and INDUCTION whatever the prior phase and whatever the tool answers; the file takes the new state exactly when the line's write succeeds |
| RpcProperties.ProposeFromIdle | src/mcp/server.go:275-281 | from IDLE, a successful proposal needs no transition first and ends in ABDUCTION without the error flag |
| RpcProperties.PhaseKept | src/mcp/server.go:258-260 | `quint_status`, `quint_record_context`, `quint_audit` and unlisted tools leave memory and file alone |
| RpcProperties.StatusReportsPhase | src/mcp/server.go:258-260 | `quint_status` answers with the in-memory phase |
| RpcProperties.InitPhase | src/mcp/server.go:262-270 | `quint_init` moves to ABDUCTION and attempts the write only when the tool layer succeeds; on failure nothing changes and the error is flagged |
| RpcProperties.DecidePhase | src/mcp/server.go:306-312 | `quint_decide` ends at IDLE, with the write attempted, on success; on failure memory stays at DECISION and the file is not touched |
| RpcProperties.TestAsksOnlyThis | src/mcp/server.go:289-300 | `quint_test` asks the tool layer only for INDUCTION evidence by "test-runner", at L2 for PASS and L1 otherwise |
| RpcProperties.CountAnswered | src/mcp/server.go:57-87 | never more answered lines than lines |
| RpcProperties.StepAnswers | src/mcp/server.go:57-87 | a line gets a response exactly when it is non-empty and fails to decode, names one of the three answered methods, or is another method with a non-null id that is not `notifications/initialized` |
| RpcProperties.ResponseCount | src/mcp/server.go:57-87 | the loop sends exactly one response per answered line, so never more responses than lines |
| RpcProperties.AllVersion2 | src/mcp/server.go:94-108 | every response of the loop carries "2.0" |
| RpcProperties.StepIgnoresStorage | src/mcp/server.go:268 | one line's response and new memory depend neither on the file nor on the write's outcome |
| RpcProperties.SaveOutcomesInvisible | src/mcp/server.go:268 | over any input, no pattern of write failures changes a response or the in-memory state |
| RpcProperties.StepStores | src/mcp/server.go:257-316 | one line never changes the role; the file either keeps its contents or takes the memory state in ABDUCTION, DEDUCTION, INDUCTION or IDLE |
| RpcProperties.DecisionNeverWritten | src/mcp/server.go:306-312 | a file not at DECISION is never set to DECISION by the server, whatever the input |
| RpcProperties.RoleNeverChanges | src/mcp/server.go:57-87 | the server never changes the active role in memory, and the file only ever holds the loaded role |
| Text.IndexOf | src/mcp/cmd/init.go:309 | `strings.Index`: -1 when the pattern is absent, else its first occurrence |
| Text.TrimRightNewlines | src/mcp/cmd/init.go:317 | `strings.TrimRight(s, "\n")`: the longest prefix not ending in a line break, with only line breaks removed |
| Text.TrimSpace | src/mcp/cmd/init.go:331 | `strings.TrimSpace` is empty exactly when the line is all white space |
| Text.SplitLines | src/mcp/cmd/init.go:324 | `strings.Split(s, "\n")`: at least one piece, none containing a line break, joining back to `s` |
| Text.SplitJoin | src/mcp/cmd/init.go:324-336 | splitting the join of single lines gives the lines back |
| Text.JoinAbsent | src/mcp/cmd/init.go:336 | joining lines free of a single-line pattern creates no occurrence across the breaks |
| Setup.StripComment | src/mcp/cmd/init.go:328-330 | the line up to its first "//", or the whole line when there is none; the result holds no "//" |
| Setup.KeptPrefix | src/mcp/cmd/init.go:326-335 | the loop keeps at most one line per input line |
| Setup.CleanLine | src/mcp/cmd/init.go:327-334 | the loop body cuts the line at "//" and keeps it exactly when something other than white space is left |
| Setup.CleanLines | src/mcp/cmd/init.go:325-335 | the loop's `cleaned` slice is `KeptLines` of the input lines |
| Setup.RemoveJsonComments | src/mcp/cmd/init.go:323-337 | split, clean and join give `CleanJson` |
| Setup.SectionEnd | src/mcp/cmd/init.go:310-313 | the section ends at the first "\n[" after its start, or at the end of the text |
| Setup.RemoveCodexSection | src/mcp/cmd/init.go:309-315 | without the header the text is unchanged; otherwise what precedes the first header and what follows the section are kept, and the section goes |
| Setup.SpliceCodexConfig | src/mcp/cmd/init.go:302-317 | the result ends with the new section, preceded by the remainder with its trailing line breaks trimmed |
| Setup.ExtraTimeout | src/mcp/cmd/init.go:247-249 | the timeout is the `extraFields["timeout"]` integer when there is one, and 0 otherwise |
| Setup.MergeServers | src/mcp/cmd/init.go:234-251 | "quint-code" holds the new entry; every other entry is kept unchanged, and a missing or null map counts as empty |
| Setup.MergeMcpConfig | src/mcp/cmd/init.go:225-251 | an invalid existing file gives the error "existing config at ... is not valid JSON: ..." and nothing else does; otherwise the result is the merged server map with the new entry, carrying the timeout from the extra fields |
| Setup.WithDefaults | src/mcp/cmd/init.go:368-372 | existing keys keep their values and missing base keys are added with theirs |
| Setup.AddMissing | src/mcp/cmd/init.go:368-372 | the insertion loop over the base keys computes `WithDefaults` |
| Setup.LoadSettings | src/mcp/cmd/init.go:347-356 | an undecodable file gives "existing settings.json is not valid JSON: ..." and nothing else fails; a missing file or a null document counts as no settings |
| Setup.MergeCopilotSettings | src/mcp/cmd/init.go:345-388 | fails exactly when the existing file does not decode after comment stripping; otherwise the result is `CopilotSettings` of what was loaded |
| Setup.AddQuintServer | src/mcp/cmd/init.go:375-388 | the `mcp.servers` update computes `WithQuintServer` |
| Setup.BinaryOrDefault | src/mcp/cmd/init.go:88-92 | the resolved binary path, or "quint-code" when it cannot be determined |
| Setup.SetupFlags.constructor | src/mcp/cmd/init.go:44-54 | the flags hold the given values |
| Setup.SetupFlags.ApplyDefaults | src/mcp/cmd/init.go:94-100 | at least one client is selected afterwards; `--all` selects all five; an explicit selection is kept without `--all`; with nothing selected Claude alone is |
| Setup.SetupFlags.RunInit | src/mcp/cmd/init.go:94-164 | the steps runInit takes, after the defaulting and in order, are `Plan` of the flags, and the client flags afterwards hold their defaulted values |
| SetupProperties.KeptLinesShape | src/mcp/cmd/init.go:326-335 | every kept line is a single line without "//" and not blank |
| SetupProperties.KeptPrefixShape | src/mcp/cmd/init.go:326-335 | the same for the lines kept among the first `n` |
| SetupProperties.CutIsTidy | src/mcp/cmd/init.go:328-333 | a single line cut at "//" is a tidy kept line unless it is blank |
| SetupProperties.CleanLinesKept | src/mcp/cmd/init.go:326-335 | lines without "//" that are not blank are all kept, unchanged and in order |
| SetupProperties.CleanPrefixKept | src/mcp/cmd/init.go:326-335 | the same for the first `n` lines |
| SetupProperties.CleanStep | src/mcp/cmd/init.go:333 | keeping one more clean line extends the kept prefix by exactly that line |
| SetupProperties.NoCommentMarker | src/mcp/cmd/init.go:323-337 | the output contains no "//", not even across the joining line breaks |
| SetupProperties.OutputLines | src/mcp/cmd/init.go:323-337 | the output is empty exactly when no line is kept; otherwise its lines are the kept lines in order, and none of them is blank |
| SetupProperties.CleanIdempotent | src/mcp/cmd/init.go:323-337 | stripping comments twice gives the same text as stripping once |
| SetupProperties.UrlValueIsCut | src/mcp/cmd/init.go:328-330 | a "//" inside a JSON string is cut too: the line `"a://b"` becomes `"a:` |
| SetupProperties.SpliceWithoutHeader | src/mcp/cmd/init.go:309-317 | without the header only the trailing line breaks are trimmed and the section is appended |
| SetupProperties.NoBracketLineAbsent | src/mcp/cmd/init.go:311 | a text where no line break is followed by "[" contains no "\n[" |
| SetupProperties.HeaderTailNoBracket | src/mcp/cmd/init.go:303 | the header after its "[" has no line break followed by "[" |
| SetupProperties.BodyPiecesNoBracket | src/mcp/cmd/init.go:304-306 | the fixed pieces of the section body have no line break followed by "[" |
| SetupProperties.ArgsLineNoBracket | src/mcp/cmd/init.go:305 | the `args` line has no line break followed by "[" |
| SetupProperties.SectionTailHasNoBreakBracket | src/mcp/cmd/init.go:302-307 | with single-line paths, the appended section holds no "\n[" after its header's "[" |
| SetupProperties.RemovalLeavesNoHeader | src/mcp/cmd/init.go:309-315 | with at most one header in the file, no header is left after the removal |
| SetupProperties.HeaderIsSingleLine | src/mcp/cmd/init.go:303 | the header is a non-empty single line |
| SetupProperties.SectionStartsWithHeader | src/mcp/cmd/init.go:302-303 | the appended section is a line break followed by the header |
| SetupProperties.SectionEndsText | src/mcp/cmd/init.go:310-313 | found in a newly written file, the section runs to the end of the text |
| SetupProperties.RemoveAppendedSection | src/mcp/cmd/init.go:309-315 | removing the section from a header-free text followed by the section leaves that text and one line break |
| SetupProperties.SpliceIdempotent | src/mcp/cmd/init.go:302-317 | running the Codex setup on its own output writes the same file again, for single-line paths and a file with at most one header |
| SetupProperties.MergeServersIdempotent | src/mcp/cmd/init.go:234-251 | merging into an already merged map changes nothing |
| SetupProperties.GeminiTimeout | src/mcp/cmd/init.go:281-283 | only the Gemini configuration carries a timeout, of 30000 |
| SetupProperties.CopilotKeepsExisting | src/mcp/cmd/init.go:365-388 | the keys are the existing ones, plus the base ones, plus `mcp.servers`; existing values are kept, missing base values added, and only `mcp.servers` is replaced |
| SetupProperties.CopilotFromBase | src/mcp/cmd/init.go:365-366 | without settings (no file or a null document) the base settings are the starting point |
| SetupProperties.CopilotServers | src/mcp/cmd/init.go:376-388 | `mcp.servers` is an object holding this server under "quint-code"; its other entries are kept when it was an object, and it holds only "quint-code" otherwise |
| SetupProperties.CopilotIdempotent | src/mcp/cmd/init.go:365-388 | merging the Copilot settings map into the map it produced yields the same map (a statement about parsed maps; a re-run on the file text goes through comment stripping first) |
| SetupProperties.DefaultingSelects | src/mcp/cmd/init.go:94-100 | after the defaulting some client is selected; `--all` selects all five; an explicit selection without `--all` is kept; with nothing selected Claude alone is |
| SetupProperties.ConfiguredIffSelected | src/mcp/cmd/init.go:102-164 | a client's MCP configuration is written exactly when the client is selected after the defaulting |
| SetupProperties.ConfigureIn | src/mcp/cmd/init.go:102-164 | one client's steps configure exactly that client, and only when it is selected |
| SetupProperties.CodexAlwaysGlobal | src/mcp/cmd/init.go:142-155 | Codex prompts are always installed globally, every other client's commands follow `--local`, and Copilot installs no commands |
| SetupProperties.InstallScoped | src/mcp/cmd/init.go:108-149 | one client's install step has the scope for that client |

## Left out

- CanTransition, isValidRoleForPhase, LoadState and SaveState: their bodies are not in the modelled files. The guard and the role check are parameters. Loading gives the initial state. A write either copies the whole in-memory state to the file or fails and leaves the file as it was.
- The tool layer (InitProject, RecordContext, GetAgentContext, ProposeHypothesis, VerifyHypothesis, ManageEvidence, RefineLoopback, FinalizeDecision, AuditEvidence, VisualizeAudit, RunDecay, Actualize) and installCommands: foreign code. Each call is modelled by its arguments and an outcome, either text or an error. The tool layer is assumed to neither read nor write `FSM.State` or the state file: the model lets it change neither.
- main's start-up: flag parsing, `MkdirAll` for `init`, database opening, the `--mode=server` switch and the load error. Also `os.Exit`: the exit code is a result, and the model stops at the first exit as the process does. The printed text is modelled line by line with the source's literals.
- The stdin scanner and its line-length limit: the server receives the lines as a sequence. JSON decoding of a line is a `Decoder` parameter. An undecodable line is `None`, and undecodable `tools/call` parameters are `BadParams`.
- JSON encoding of responses: the catalog and the results are values. The catalog keeps names, descriptions, property names, descriptions and enums, and the required lists. It does not keep the JSON type strings of the schemas.
- The file system in init.go: reads, writes, `MkdirAll`, `Getwd`, `UserHomeDir` and `os.Executable`, the write of the MCP configuration, `settings.json`, `extensions.json` and `copilot-instructions.md`, createDirectoryStructure and initializeDatabase. runInit's progress messages, and the failures of each client's configuration, which runInit only reports.
- The Copilot base settings: the decoded `vscodeSettingsBase` template is a parameter. A failure to parse it (init.go:359-362) is not modelled, because the template is a constant of the program.
- A settings.json holding `null` decodes to a nil map. The model then starts at the base settings, as the code's `settings == nil` test does.
- MergeMcpConfig: only `mcpServers` of the decoded MCPConfig is modelled. The Go struct drops other top-level keys and unknown per-entry fields on decode, and so does the model, which keeps only the typed MCPServer fields.
- Text.TrimSpace: covers ASCII white space only, not Unicode white space.
- SetupProperties.SpliceIdempotent: proved only for paths without line breaks and for files with at most one `[mcp_servers.quint-code]` header. A path containing "\n[" or a second header makes a re-run keep part of the old text.
- Setup.SetupFlags.RunInit: returns the plan of configure and install steps rather than performing them, since those steps are file writes and foreign calls.
