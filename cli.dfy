/** The one-shot command dispatcher (src/mcp/main.go): one action per process,
    chosen by `--action`, run against the state loaded from `.quint/state.json`.
    Each action makes at most one print call and ends the process with an exit code; some
    actions change the in-memory state and write it back to the file.

    `Dispatch` specifies an invocation as a value; `Fsm.Execute` performs it
    step by step on a state object, in the order the source does, and is
    proved to agree with `Dispatch`. The lemmas state what the dispatcher
    promises about exit codes, output and the state file. */
module Cli {

  import opened Wrappers
  import opened Workflow

  /** The command-line flags the dispatcher reads (names as in main.go). */
  datatype Flags = Flags(
    role: string, target: string, sessionId: string, context: string,
    evidenceType: string, evidenceUri: string, evidenceDesc: string, evidenceHolon: string,
    title: string, content: string, typeName: string, targetId: string, verdict: string, insight: string,
    scope: string, kind: string, evidenceAction: string, assurance: string, carrier: string, validUntil: string,
    drrContext: string, drrDecision: string, drrRationale: string, drrConsequences: string,
    drrCharacteristics: string)

  /** The flag defaults main.go declares; `--action` defaults to "check". */
  const DefaultAction: string := "check"
  const DefaultFlags: Flags := Flags(
    "", "", "default-session", "default-context",
    "", "", "", "",
    "", "", "", "", "", "",
    "", "system", "add", "", "", "",
    "", "", "", "", "")

  /** A printed line, on standard output or standard error. */
  datatype Line = Stdout(text: string) | Stderr(text: string)

  /** What the environment answers: the guard, the role matrix, the tool
      layer (at most one call per invocation) and the state-file write. */
  datatype World = World(guard: Guard, validRole: RoleCheck, facade: FacadeCall -> Outcome, saveError: Option<string>)

  /** One invocation: exit code, printed lines, the in-memory state at exit
      and the contents of the state file at exit. */
  datatype Run = Run(exit: int, lines: seq<Line>, memory: ProcessState, stored: ProcessState)

  /** getRoleAssignment */
  function Assignment(f: Flags): RoleAssignment
  {
    RoleAssignment(f.role, f.sessionId, f.context)
  }

  /** getEvidenceStub: a stub exactly when `--evidence_uri` is given, carrying the four evidence flags. */
  function EvidenceFromFlags(f: Flags): (r: Option<EvidenceStub>)
    ensures r.Some? <==> f.evidenceUri != ""
    ensures r.Some? ==>
      r.value.evidenceType == f.evidenceType && r.value.uri == f.evidenceUri &&
      r.value.description == f.evidenceDesc && r.value.holonId == f.evidenceHolon
  {
    if f.evidenceUri == "" then None
    else Some(EvidenceStub(f.evidenceType, f.evidenceUri, f.evidenceDesc, f.evidenceHolon))
  }

  /** The stub `loopback` always hands to the guard. */
  function LoopbackStub(insight: string): EvidenceStub
  {
    EvidenceStub("insight", "loopback-event", insight, "")
  }

  /** The stub `decide` uses when no evidence flags are given. */
  const DecisionStub: EvidenceStub := EvidenceStub("rationale", "decision-process", "Final decision rationale", "")

  /** Ends with an error line "ERROR: <error>" and exit 1, nothing saved. */
  function Fail(e: string, mem: ProcessState, st: ProcessState): Run
  {
    Run(1, [Stdout("ERROR: " + e)], mem, st)
  }

  /** Writes `next`; on a write error reports it on standard error, exits 1,
      and the file keeps `st`. Otherwise prints `line` and exits 0. */
  function SaveThen(w: World, next: ProcessState, st: ProcessState, errorPrefix: string, line: string): Run
  {
    match w.saveError
    case Some(e) => Run(1, [Stderr(errorPrefix + e)], next, st)
    case None => Run(0, [Stdout(line)], next, next)
  }

  function Check(f: Flags, st: ProcessState, w: World): Run
  {
    if f.role == "" then Run(1, [Stdout("Error: --role required")], st, st)
    else if w.validRole(st.phase, f.role) then Run(0, [Stdout("OK: " + f.role + " active in " + st.phase)], st, st)
    else Run(1, [Stdout("VIOLATION: " + f.role + " cannot act in " + st.phase)], st, st)
  }

  function Transition(f: Flags, st: ProcessState, w: World): Run
  {
    if f.target == "" || f.role == "" then Run(1, [Stdout("Error: --target and --role required")], st, st)
    else
      var reply := w.guard(st, f.target, Assignment(f), EvidenceFromFlags(f));
      if !reply.ok then
        SaveThen(w, ProcessState(f.target, Assignment(f)), st, "Error saving state: ", "TRANSITION: " + reply.msg)
      else Run(1, [Stdout("DENIED: " + reply.msg)], st, st)
  }

  function Init(st: ProcessState, w: World): Run
  {
    var next := st.(phase := Abduction);
    match w.saveError
    case Some(e) => Run(1, [Stderr("Error saving state: " + e)], next, st)
    case None =>
      match w.facade(InitProject)
      case Failed(e) => Run(1, [Stderr("Error initializing project: " + e)], next, next)
      case Done(_) => Run(0, [Stdout("Initialized FPF project in .quint/")], next, next)
  }

  function Context(f: Flags, st: ProcessState, w: World): Run
  {
    if f.role == "" then Run(1, [Stdout("Error: --role required")], st, st)
    else
      match w.facade(GetAgentContext(f.role))
      case Failed(e) => Fail(e, st, st)
      case Done(text) => Run(0, [Stdout(text)], st, st)
  }

  function Propose(f: Flags, st: ProcessState, w: World): Run
  {
    var reply := w.guard(st, Abduction, Assignment(f), None);
    if !reply.ok then Run(1, [Stdout("DENIED: " + reply.msg)], st, st)
    else
      match w.facade(ProposeHypothesis(f.title, f.content, f.scope, f.kind, "{}"))
      case Failed(e) => Fail(e, st, st)
      case Done(path) => Run(0, [Stdout("SUCCESS: Created hypothesis " + path)], st, st)
  }

  function Evidence(f: Flags, st: ProcessState, w: World): Run
  {
    if !w.validRole(st.phase, f.role) then
      Run(1, [Stdout("DENIED: Role " + f.role + " cannot add evidence in " + st.phase + " phase")], st, st)
    else
      match w.facade(ManageEvidence(st.phase, f.evidenceAction, f.targetId, f.typeName, f.content,
                                    f.verdict, f.assurance, f.carrier, f.validUntil))
      case Failed(e) => Fail(e, st, st)
      case Done(path) => Run(0, [Stdout("SUCCESS: Added evidence " + path)], st, st)
  }

  function Loopback(f: Flags, st: ProcessState, w: World): Run
  {
    var reply := w.guard(st, Deduction, Assignment(f), Some(LoopbackStub(f.insight)));
    if !reply.ok then Run(1, [Stdout("DENIED: " + reply.msg)], st, st)
    else
      match w.facade(RefineLoopback(st.phase, f.targetId, f.insight, f.title, f.content, f.scope))
      case Failed(e) => Fail(e, st, st)
      case Done(child) =>
        SaveThen(w, ProcessState(Deduction, Assignment(f)), st, "Error saving state after loopback: ",
                 "LOOPBACK: Reset to DEDUCTION. " + "Created refined hypothesis " + child)
  }

  /** The evidence `decide` hands to the guard: the flags' stub, or the default. */
  function DecisionEvidence(f: Flags): EvidenceStub
  {
    match EvidenceFromFlags(f)
    case Some(e) => e
    case None => DecisionStub
  }

  /** The part of `decide` after the guard: `mem` is the in-memory state by then. */
  function Finalize(f: Flags, mem: ProcessState, st: ProcessState, w: World): Run
  {
    match w.facade(FinalizeDecision(f.title, f.targetId, f.drrContext, f.drrDecision, f.drrRationale,
                                    f.drrConsequences, f.drrCharacteristics))
    case Failed(e) => Fail(e, mem, st)
    case Done(path) =>
      SaveThen(w, ProcessState(Idle, Assignment(f)), st, "Error saving state: ",
               "DECIDED: DRR created at " + path + ". Cycle closed.")
  }

  function Decide(f: Flags, st: ProcessState, w: World): Run
  {
    if st.phase == Induction || st.phase == Audit then
      var reply := w.guard(st, Decision, Assignment(f), Some(DecisionEvidence(f)));
      if !reply.ok then Run(1, [Stdout("DENIED: " + reply.msg)], st, st)
      else Finalize(f, st.(phase := Decision), st, w)
    else Finalize(f, st, st, w)
  }

  /** actualize, decay and audit: a tool-layer call whose text (or a fixed line) is printed. */
  function Delegate(call: FacadeCall, st: ProcessState, w: World, line: Option<string>): Run
  {
    match w.facade(call)
    case Failed(e) => Fail(e, st, st)
    case Done(text) => Run(0, [Stdout(if line.Some? then line.value else text)], st, st)
  }

  /** The cases of `switch *actionFlag`; `OtherAction` is any flag value no case names. */
  datatype Action =
    | StatusAction | CheckAction | TransitionAction | InitAction | ContextAction | ProposeAction
    | EvidenceAction | LoopbackAction | DecideAction | ActualizeAction | DecayAction | AuditAction
    | OtherAction

  /** The case labels of the switch. */
  const ActionNames: set<string> :=
    {"status", "check", "transition", "init", "context", "propose", "evidence",
     "loopback", "decide", "actualize", "decay", "audit"}

  /** The label of a named case (the empty string for `OtherAction`). */
  function ActionName(a: Action): string
  {
    match a
    case StatusAction => "status"
    case CheckAction => "check"
    case TransitionAction => "transition"
    case InitAction => "init"
    case ContextAction => "context"
    case ProposeAction => "propose"
    case EvidenceAction => "evidence"
    case LoopbackAction => "loopback"
    case DecideAction => "decide"
    case ActualizeAction => "actualize"
    case DecayAction => "decay"
    case AuditAction => "audit"
    case OtherAction => ""
  }

  /** The case the switch takes for the flag value `s`. */
  function ParseAction(s: string): (a: Action)
    ensures a != OtherAction ==> ActionName(a) == s
    ensures a == OtherAction <==> s !in ActionNames
  {
    if s == "status" then StatusAction
    else if s == "check" then CheckAction
    else if s == "transition" then TransitionAction
    else if s == "init" then InitAction
    else if s == "context" then ContextAction
    else if s == "propose" then ProposeAction
    else if s == "evidence" then EvidenceAction
    else if s == "loopback" then LoopbackAction
    else if s == "decide" then DecideAction
    else if s == "actualize" then ActualizeAction
    else if s == "decay" then DecayAction
    else if s == "audit" then AuditAction
    else OtherAction
  }

  /** One invocation of the dispatcher with `--action=action` on the loaded state `st`. */
  function Dispatch(action: string, f: Flags, st: ProcessState, w: World): Run
  {
    match ParseAction(action)
    case StatusAction => Run(0, [Stdout(st.phase)], st, st)
    case CheckAction => Check(f, st, w)
    case TransitionAction => Transition(f, st, w)
    case InitAction => Init(st, w)
    case ContextAction => Context(f, st, w)
    case ProposeAction => Propose(f, st, w)
    case EvidenceAction => Evidence(f, st, w)
    case LoopbackAction => Loopback(f, st, w)
    case DecideAction => Decide(f, st, w)
    case ActualizeAction => Delegate(Actualize, st, w, Some("ACTUALIZATION: Complete."))
    case DecayAction => Delegate(RunDecay, st, w, Some("DECAY: Assurance scores updated."))
    case AuditAction => Delegate(VisualizeAudit(f.targetId), st, w, None)
    case OtherAction => Run(0, [], st, st)
  }

  /** The loaded FSM: `state` is `fsm.State` in memory, `stored` the state
      file, `printed` what the process has written so far. Each case of the
      switch is a method proved against its specification function. */
  class Fsm {
    var state: ProcessState
    var stored: ProcessState
    var printed: seq<Line>

    /** LoadState: memory and file agree right after loading. */
    constructor (loaded: ProcessState)
      ensures state == loaded && stored == loaded && printed == []
    {
      state := loaded;
      stored := loaded;
      printed := [];
    }

    /** SaveState: the file receives the whole in-memory state, or keeps its old contents on error. */
    method SaveState(error: Option<string>) returns (ok: bool)
      modifies this`stored
      ensures ok <==> error.None?
      ensures stored == if ok then state else old(stored)
    {
      ok := error.None?;
      if ok {
        stored := state;
      }
    }

    method Say(line: Line)
      modifies this`printed
      ensures printed == old(printed) + [line]
    {
      printed := printed + [line];
    }

    /** The `switch *actionFlag` of main: returns the exit code. */
    method Execute(action: string, f: Flags, w: World) returns (exit: int)
      requires state == stored
      modifies this
      ensures var r := Dispatch(action, f, old(state), w);
        exit == r.exit && printed == old(printed) + r.lines && state == r.memory && stored == r.stored
    {
      match ParseAction(action)
      case StatusAction =>
        Say(Stdout(state.phase));
        exit := 0;
      case CheckAction =>
        exit := CheckCase(f, w);
      case TransitionAction =>
        exit := TransitionCase(f, w);
      case InitAction =>
        exit := InitCase(w);
      case ContextAction =>
        exit := ContextCase(f, w);
      case ProposeAction =>
        exit := ProposeCase(f, w);
      case EvidenceAction =>
        exit := EvidenceCase(f, w);
      case LoopbackAction =>
        exit := LoopbackCase(f, w);
      case DecideAction =>
        exit := DecideCase(f, w);
      case ActualizeAction =>
        exit := DelegateCase(Actualize, w, Some("ACTUALIZATION: Complete."));
      case DecayAction =>
        exit := DelegateCase(RunDecay, w, Some("DECAY: Assurance scores updated."));
      case AuditAction =>
        exit := DelegateCase(VisualizeAudit(f.targetId), w, None);
      case OtherAction =>
        exit := 0;
    }

    method CheckCase(f: Flags, w: World) returns (exit: int)
      requires state == stored
      modifies this`printed
      ensures var r := Check(f, old(state), w);
        exit == r.exit && printed == old(printed) + r.lines && state == r.memory && stored == r.stored
    {
      if f.role == "" {
        Say(Stdout("Error: --role required"));
        return 1;
      }
      if w.validRole(state.phase, f.role) {
        Say(Stdout("OK: " + f.role + " active in " + state.phase));
        exit := 0;
      } else {
        Say(Stdout("VIOLATION: " + f.role + " cannot act in " + state.phase));
        exit := 1;
      }
    }

    method TransitionCase(f: Flags, w: World) returns (exit: int)
      requires state == stored
      modifies this
      ensures var r := Transition(f, old(state), w);
        exit == r.exit && printed == old(printed) + r.lines && state == r.memory && stored == r.stored
    {
      if f.target == "" || f.role == "" {
        Say(Stdout("Error: --target and --role required"));
        return 1;
      }
      var assign := Assignment(f);
      var evidence := EvidenceFromFlags(f);
      var reply := w.guard(state, f.target, assign, evidence);
      if !reply.ok {
        state := state.(phase := f.target);
        state := state.(activeRole := assign);
        var saved := SaveState(w.saveError);
        if !saved {
          Say(Stderr("Error saving state: " + w.saveError.value));
          return 1;
        }
        Say(Stdout("TRANSITION: " + reply.msg));
        exit := 0;
      } else {
        Say(Stdout("DENIED: " + reply.msg));
        exit := 1;
      }
    }

    method InitCase(w: World) returns (exit: int)
      requires state == stored
      modifies this
      ensures var r := Init(old(state), w);
        exit == r.exit && printed == old(printed) + r.lines && state == r.memory && stored == r.stored
    {
      state := state.(phase := Abduction);
      var saved := SaveState(w.saveError);
      if !saved {
        Say(Stderr("Error saving state: " + w.saveError.value));
        return 1;
      }
      var outcome := w.facade(InitProject);
      if outcome.Failed? {
        Say(Stderr("Error initializing project: " + outcome.error));
        return 1;
      }
      Say(Stdout("Initialized FPF project in .quint/"));
      exit := 0;
    }

    method ContextCase(f: Flags, w: World) returns (exit: int)
      requires state == stored
      modifies this`printed
      ensures var r := Context(f, old(state), w);
        exit == r.exit && printed == old(printed) + r.lines && state == r.memory && stored == r.stored
    {
      if f.role == "" {
        Say(Stdout("Error: --role required"));
        return 1;
      }
      var outcome := w.facade(GetAgentContext(f.role));
      if outcome.Failed? {
        Say(Stdout("ERROR: " + outcome.error));
        return 1;
      }
      Say(Stdout(outcome.text));
      exit := 0;
    }

    method ProposeCase(f: Flags, w: World) returns (exit: int)
      requires state == stored
      modifies this`printed
      ensures var r := Propose(f, old(state), w);
        exit == r.exit && printed == old(printed) + r.lines && state == r.memory && stored == r.stored
    {
      var reply := w.guard(state, Abduction, Assignment(f), None);
      if !reply.ok {
        Say(Stdout("DENIED: " + reply.msg));
        return 1;
      }
      var outcome := w.facade(ProposeHypothesis(f.title, f.content, f.scope, f.kind, "{}"));
      if outcome.Failed? {
        Say(Stdout("ERROR: " + outcome.error));
        return 1;
      }
      Say(Stdout("SUCCESS: Created hypothesis " + outcome.text));
      exit := 0;
    }

    method EvidenceCase(f: Flags, w: World) returns (exit: int)
      requires state == stored
      modifies this`printed
      ensures var r := Evidence(f, old(state), w);
        exit == r.exit && printed == old(printed) + r.lines && state == r.memory && stored == r.stored
    {
      if !w.validRole(state.phase, f.role) {
        Say(Stdout("DENIED: Role " + f.role + " cannot add evidence in " + state.phase + " phase"));
        return 1;
      }
      var outcome := w.facade(ManageEvidence(state.phase, f.evidenceAction, f.targetId, f.typeName, f.content,
                                             f.verdict, f.assurance, f.carrier, f.validUntil));
      if outcome.Failed? {
        Say(Stdout("ERROR: " + outcome.error));
        return 1;
      }
      Say(Stdout("SUCCESS: Added evidence " + outcome.text));
      exit := 0;
    }

    method LoopbackCase(f: Flags, w: World) returns (exit: int)
      requires state == stored
      modifies this
      ensures var r := Loopback(f, old(state), w);
        exit == r.exit && printed == old(printed) + r.lines && state == r.memory && stored == r.stored
    {
      var assign := Assignment(f);
      var evidence := LoopbackStub(f.insight);
      var reply := w.guard(state, Deduction, assign, Some(evidence));
      if !reply.ok {
        Say(Stdout("DENIED: " + reply.msg));
        return 1;
      }
      var outcome := w.facade(RefineLoopback(state.phase, f.targetId, f.insight, f.title, f.content, f.scope));
      if outcome.Failed? {
        Say(Stdout("ERROR: " + outcome.error));
        return 1;
      }
      state := state.(phase := Deduction);
      state := state.(activeRole := assign);
      var saved := SaveState(w.saveError);
      if !saved {
        Say(Stderr("Error saving state after loopback: " + w.saveError.value));
        return 1;
      }
      Say(Stdout("LOOPBACK: Reset to DEDUCTION. " + "Created refined hypothesis " + outcome.text));
      exit := 0;
    }

    method DecideCase(f: Flags, w: World) returns (exit: int)
      requires state == stored
      modifies this
      ensures var r := Decide(f, old(state), w);
        exit == r.exit && printed == old(printed) + r.lines && state == r.memory && stored == r.stored
    {
      var assign := Assignment(f);
      if state.phase == Induction || state.phase == Audit {
        var evidence := EvidenceFromFlags(f);
        if evidence.None? {
          evidence := Some(DecisionStub);
        }
        var reply := w.guard(state, Decision, assign, evidence);
        if !reply.ok {
          Say(Stdout("DENIED: " + reply.msg));
          return 1;
        }
        state := state.(phase := Decision);
      }
      var outcome := w.facade(FinalizeDecision(f.title, f.targetId, f.drrContext, f.drrDecision, f.drrRationale,
                                               f.drrConsequences, f.drrCharacteristics));
      if outcome.Failed? {
        Say(Stdout("ERROR: " + outcome.error));
        return 1;
      }
      state := state.(phase := Idle);
      state := state.(activeRole := assign);
      var saved := SaveState(w.saveError);
      if !saved {
        Say(Stderr("Error saving state: " + w.saveError.value));
        return 1;
      }
      Say(Stdout("DECIDED: DRR created at " + outcome.text + ". Cycle closed."));
      exit := 0;
    }

    /** actualize, decay and audit: print the fixed line, or the returned text when there is none. */
    method DelegateCase(call: FacadeCall, w: World, line: Option<string>) returns (exit: int)
      requires state == stored
      modifies this`printed
      ensures var r := Delegate(call, old(state), w, line);
        exit == r.exit && printed == old(printed) + r.lines && state == r.memory && stored == r.stored
    {
      var outcome := w.facade(call);
      if outcome.Failed? {
        Say(Stdout("ERROR: " + outcome.error));
        return 1;
      }
      if line.Some? {
        Say(Stdout(line.value));
      } else {
        Say(Stdout(outcome.text));
      }
      exit := 0;
    }
  }
}
