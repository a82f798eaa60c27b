/** What the one-shot dispatcher promises, stated over `Cli.Dispatch`. */
module CliProperties {

  import opened Wrappers
  import opened Workflow
  import opened Cli

  predicate StartsWith(s: string, prefix: string)
  {
    |prefix| <= |s| && s[..|prefix|] == prefix
  }

  /** The first printed line, or "" when nothing is printed. */
  function FirstText(r: Run): string
  {
    if r.lines == [] then "" else r.lines[0].text
  }

  /** With no flags given: the action is `check`, the holder is the anonymous role in
      "default-session"/"default-context", no evidence stub is built, and `propose`
      creates a "system" hypothesis with empty title, content and scope. */
  lemma FlagDefaults(st: ProcessState, w: World)
    ensures Dispatch(DefaultAction, DefaultFlags, st, w) == Check(DefaultFlags, st, w)
    ensures Assignment(DefaultFlags) == RoleAssignment("", "default-session", "default-context")
    ensures EvidenceFromFlags(DefaultFlags).None?
    ensures w.guard(st, Abduction, Assignment(DefaultFlags), None).ok ==>
      var r := Dispatch("propose", DefaultFlags, st, w);
      match w.facade(ProposeHypothesis("", "", "", "system", "{}"))
      case Failed(e) => r == Run(1, [Stdout("ERROR: " + e)], st, st)
      case Done(path) => r == Run(0, [Stdout("SUCCESS: Created hypothesis " + path)], st, st)
  {
  }

  /** `check` never touches the state; it succeeds exactly when the role may act in the current phase. */
  lemma CheckIsReadOnly(f: Flags, st: ProcessState, w: World)
    ensures var r := Dispatch("check", f, st, w);
      && r.memory == st && r.stored == st
      && (r.exit == 0 <==> f.role != "" && w.validRole(st.phase, f.role))
      && (f.role == "" ==> r.exit == 1 && r.lines == [Stdout("Error: --role required")])
      && (r.exit == 0 ==> r.lines == [Stdout("OK: " + f.role + " active in " + st.phase)])
      && (f.role != "" && r.exit != 0 ==> r.lines == [Stdout("VIOLATION: " + f.role + " cannot act in " + st.phase)])
  {
  }

  /** `transition` without a target or a role is refused before anything else happens. */
  lemma TransitionNeedsTargetAndRole(f: Flags, st: ProcessState, w: World)
    requires f.target == "" || f.role == ""
    ensures var r := Dispatch("transition", f, st, w);
      r.exit == 1 && r.lines == [Stdout("Error: --target and --role required")] && r.memory == st && r.stored == st
  {
  }

  /** `transition` applies the move when the guard's first result is FALSE, and denies when it is true. */
  lemma TransitionAppliesOnFalse(f: Flags, st: ProcessState, w: World)
    requires f.target != "" && f.role != ""
    ensures var reply := w.guard(st, f.target, Assignment(f), EvidenceFromFlags(f));
      var r := Dispatch("transition", f, st, w);
      && (!reply.ok ==> r.memory == ProcessState(f.target, Assignment(f)))
      && (!reply.ok && w.saveError.None? ==>
            r.exit == 0 && r.lines == [Stdout("TRANSITION: " + reply.msg)] && r.stored == r.memory)
      && (!reply.ok && w.saveError.Some? ==> r.exit == 1 && r.stored == st)
      && (reply.ok ==> r.exit == 1 && r.lines == [Stdout("DENIED: " + reply.msg)] && r.memory == st && r.stored == st)
  {
  }

  /** `propose` goes on only when the guard's first result is TRUE, and never touches the state. */
  lemma ProposeProceedsOnTrue(f: Flags, st: ProcessState, w: World)
    ensures var reply := w.guard(st, Abduction, Assignment(f), None);
      var outcome := w.facade(ProposeHypothesis(f.title, f.content, f.scope, f.kind, "{}"));
      var r := Dispatch("propose", f, st, w);
      && r.memory == st && r.stored == st
      && (!reply.ok ==> r.exit == 1 && r.lines == [Stdout("DENIED: " + reply.msg)])
      && (reply.ok && outcome.Done? ==> r.exit == 0 && r.lines == [Stdout("SUCCESS: Created hypothesis " + outcome.text)])
      && (reply.ok && outcome.Failed? ==> r.exit == 1 && r.lines == [Stdout("ERROR: " + outcome.error)])
  {
  }

  /** The two polarities side by side: one guard answer of "false" for the move
      to ABDUCTION makes `transition` apply it and `propose` refuse it. */
  lemma OppositePolarity(f: Flags, st: ProcessState, w: World)
    requires f.target == Abduction && f.role != "" && f.evidenceUri == "" && w.saveError.None?
    requires !w.guard(st, Abduction, Assignment(f), None).ok
    ensures Dispatch("transition", f, st, w).exit == 0
    ensures Dispatch("transition", f, st, w).stored.phase == Abduction
    ensures Dispatch("propose", f, st, w).exit == 1
  {
  }

  /** `init` resets the phase, keeps the role, and writes the state before the tool layer runs:
      a later tool failure still exits 1 with ABDUCTION on disk. */
  lemma InitWritesFirst(f: Flags, st: ProcessState, w: World)
    ensures var r := Dispatch("init", f, st, w);
      && r.memory == ProcessState(Abduction, st.activeRole)
      && (w.saveError.None? ==> r.stored == r.memory)
      && (w.saveError.Some? ==> r.stored == st && r.exit == 1)
      && (r.exit == 0 <==> w.saveError.None? && w.facade(InitProject).Done?)
  {
  }

  /** `loopback` asks the guard about DEDUCTION with the synthetic insight stub and nothing else:
      any guard that agrees on that one question gives the same run. */
  lemma LoopbackAsksWithInsightStub(f: Flags, st: ProcessState, w: World, g: Guard)
    requires var stub := EvidenceStub("insight", "loopback-event", f.insight, "");
      g(st, Deduction, Assignment(f), Some(stub)) == w.guard(st, Deduction, Assignment(f), Some(stub))
    ensures Dispatch("loopback", f, st, w.(guard := g)) == Dispatch("loopback", f, st, w)
  {
  }

  /** `loopback` writes DEDUCTION and the caller's assignment only after the guard and the tool layer agree;
      a failed write is reported on standard error with exit 1, memory moved and the file as it was. */
  lemma LoopbackOutcome(f: Flags, st: ProcessState, w: World)
    ensures var reply := w.guard(st, Deduction, Assignment(f), Some(LoopbackStub(f.insight)));
      var outcome := w.facade(RefineLoopback(st.phase, f.targetId, f.insight, f.title, f.content, f.scope));
      var r := Dispatch("loopback", f, st, w);
      && (reply.ok && outcome.Done? && w.saveError.None? ==>
            r.exit == 0 && r.stored == ProcessState(Deduction, Assignment(f)) && r.memory == r.stored)
      && (!reply.ok ==> r.exit == 1 && r.lines == [Stdout("DENIED: " + reply.msg)] && r.stored == st && r.memory == st)
      && (reply.ok && outcome.Failed? ==> r.exit == 1 && r.stored == st && r.memory == st)
      && (reply.ok && outcome.Done? && w.saveError.Some? ==>
            && r.exit == 1 && r.stored == st && r.memory == ProcessState(Deduction, Assignment(f))
            && r.lines == [Stderr("Error saving state after loopback: " + w.saveError.value)])
  {
  }

  /** Outside INDUCTION and AUDIT, `decide` does not consult the guard at all. */
  lemma DecideSkipsGuard(f: Flags, st: ProcessState, w: World, g: Guard)
    requires st.phase != Induction && st.phase != Audit
    ensures Dispatch("decide", f, st, w.(guard := g)) == Dispatch("decide", f, st, w)
  {
  }

  /** From INDUCTION or AUDIT, `decide` asks the guard about DECISION with the flags' stub,
      or with the default rationale stub when `--evidence_uri` is empty. */
  lemma DecideAsksWithStub(f: Flags, st: ProcessState, w: World, g: Guard)
    requires st.phase == Induction || st.phase == Audit
    requires var stub := if f.evidenceUri == "" then EvidenceStub("rationale", "decision-process", "Final decision rationale", "")
                         else EvidenceStub(f.evidenceType, f.evidenceUri, f.evidenceDesc, f.evidenceHolon);
      g(st, Decision, Assignment(f), Some(stub)) == w.guard(st, Decision, Assignment(f), Some(stub))
    ensures Dispatch("decide", f, st, w.(guard := g)) == Dispatch("decide", f, st, w)
  {
  }

  /** `decide` closes the cycle: IDLE and the caller's assignment are written on success;
      after a denial or a tool failure nothing is written, and the role is kept; a failed write
      is reported on standard error with exit 1, memory at IDLE and the file as it was. */
  lemma DecideOutcome(f: Flags, st: ProcessState, w: World)
    ensures var guarded := st.phase == Induction || st.phase == Audit;
      var allowed := !guarded || w.guard(st, Decision, Assignment(f), Some(DecisionEvidence(f))).ok;
      var outcome := w.facade(FinalizeDecision(f.title, f.targetId, f.drrContext, f.drrDecision, f.drrRationale,
                                               f.drrConsequences, f.drrCharacteristics));
      var r := Dispatch("decide", f, st, w);
      && (allowed && outcome.Done? && w.saveError.None? ==>
            r.exit == 0 && r.stored == ProcessState(Idle, Assignment(f)) && r.memory == r.stored)
      && (!allowed ==> r.exit == 1 && r.stored == st && r.memory == st)
      && (allowed && outcome.Failed? ==>
            r.exit == 1 && r.stored == st && r.memory == st.(phase := if guarded then Decision else st.phase))
      && (allowed && outcome.Done? && w.saveError.Some? ==>
            && r.exit == 1 && r.stored == st && r.memory == ProcessState(Idle, Assignment(f))
            && r.lines == [Stderr("Error saving state: " + w.saveError.value)])
  {
  }

  /** status, context, propose, evidence, actualize, decay and audit never change the phase or the file. */
  lemma ReadOnlyActions(action: string, f: Flags, st: ProcessState, w: World)
    requires action in {"status", "context", "propose", "evidence", "actualize", "decay", "audit"}
    ensures var r := Dispatch(action, f, st, w); r.memory == st && r.stored == st
  {
  }

  /** An action the switch does not name does nothing and exits 0. */
  lemma UnknownActionIsNoOp(action: string, f: Flags, st: ProcessState, w: World)
    requires action !in ActionNames
    ensures Dispatch(action, f, st, w) == Run(0, [], st, st)
  {
  }

  /** The shape every run has: at most one print call (whose text, from the tool layer
      for `context` and `audit`, may itself hold line breaks), exit 0 or 1, and a state file that
      either keeps its contents or holds the whole in-memory state. */
  ghost predicate WellShaped(r: Run, st: ProcessState)
  {
    && |r.lines| <= 1 && (r.exit == 0 || r.exit == 1)
    && (r.stored == st || r.stored == r.memory)
  }

  /** Every named case is reached by its own label, and only by it. */
  lemma ActionLabels(a: Action, s: string)
    requires a != OtherAction
    ensures ParseAction(s) == a <==> s == ActionName(a)
  {
  }

  /** Well shaped, and the file changes only on exit 0. */
  ghost predicate Settled(r: Run, st: ProcessState)
  {
    WellShaped(r, st) && (r.stored != st ==> r.exit == 0)
  }

  /** Every invocation is well shaped, and only `init` can leave a write behind when it exits 1. */
  lemma InvocationShape(action: string, f: Flags, st: ProcessState, w: World)
    ensures WellShaped(Dispatch(action, f, st, w), st)
    ensures var r := Dispatch(action, f, st, w); r.stored != st ==> r.exit == 0 || action == "init"
  {
    match ParseAction(action)
    case CheckAction => CheckSettled(f, st, w);
    case TransitionAction => TransitionSettled(f, st, w);
    case InitAction => InitShaped(st, w);
    case ContextAction => ContextSettled(f, st, w);
    case ProposeAction => ProposeSettled(f, st, w);
    case EvidenceAction => EvidenceSettled(f, st, w);
    case LoopbackAction => LoopbackSettled(f, st, w);
    case DecideAction => DecideSettled(f, st, w);
    case _ =>
  }

  lemma CheckSettled(f: Flags, st: ProcessState, w: World) ensures Settled(Check(f, st, w), st) {}
  lemma TransitionSettled(f: Flags, st: ProcessState, w: World) ensures Settled(Transition(f, st, w), st) {}
  lemma InitShaped(st: ProcessState, w: World) ensures WellShaped(Init(st, w), st) {}
  lemma ContextSettled(f: Flags, st: ProcessState, w: World) ensures Settled(Context(f, st, w), st) {}
  lemma ProposeSettled(f: Flags, st: ProcessState, w: World) ensures Settled(Propose(f, st, w), st) {}
  lemma EvidenceSettled(f: Flags, st: ProcessState, w: World) ensures Settled(Evidence(f, st, w), st) {}
  lemma LoopbackSettled(f: Flags, st: ProcessState, w: World) ensures Settled(Loopback(f, st, w), st) {}
  lemma DecideSettled(f: Flags, st: ProcessState, w: World) ensures Settled(Decide(f, st, w), st) {}

  /** A DENIED line never comes with a change of state. */
  lemma DenialKeepsState(action: string, f: Flags, st: ProcessState, w: World)
    requires StartsWith(FirstText(Dispatch(action, f, st, w)), "DENIED: ")
    ensures Dispatch(action, f, st, w).memory == st && Dispatch(action, f, st, w).stored == st
  {
    match ParseAction(action)
    case TransitionAction => TransitionDenial(f, st, w);
    case InitAction => InitNeverDenies(st, w);
    case LoopbackAction => LoopbackDenial(f, st, w);
    case DecideAction => DecideDenial(f, st, w);
    case _ =>
  }

  lemma TransitionDenial(f: Flags, st: ProcessState, w: World)
    requires StartsWith(FirstText(Transition(f, st, w)), "DENIED: ")
    ensures Transition(f, st, w).memory == st && Transition(f, st, w).stored == st
  {
    var t := FirstText(Transition(f, st, w));
    assert t[0] == 'D';
  }

  lemma InitNeverDenies(st: ProcessState, w: World)
    ensures !StartsWith(FirstText(Init(st, w)), "DENIED: ")
  {
    var t := FirstText(Init(st, w));
    assert |t| > 0 && t[0] != 'D';
  }

  lemma LoopbackDenial(f: Flags, st: ProcessState, w: World)
    requires StartsWith(FirstText(Loopback(f, st, w)), "DENIED: ")
    ensures Loopback(f, st, w).memory == st && Loopback(f, st, w).stored == st
  {
    var t := FirstText(Loopback(f, st, w));
    var prefix := if w.saveError.Some? then "Error saving state after loopback: "
                  else "LOOPBACK: Reset to DEDUCTION. " + "Created refined hypothesis ";
    assert t[0] == 'D' != prefix[0];
  }

  lemma DecideDenial(f: Flags, st: ProcessState, w: World)
    requires StartsWith(FirstText(Decide(f, st, w)), "DENIED: ")
    ensures Decide(f, st, w).memory == st && Decide(f, st, w).stored == st
  {
    var t := FirstText(Decide(f, st, w));
    assert t[..8] == "DENIED: ";
    assert t[2] == 'N';
  }
}
