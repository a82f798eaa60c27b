/** The values both dispatchers share: the workflow phase, the caller's role
    assignment, evidence stubs, the persisted process state, and the shape of
    the calls into the tool layer and of what those calls return.

    In the source `Phase` and `Role` are Go string types, so a phase named on
    the command line is any string until the guard judges it; they are strings
    here too. The six phase constants are declared outside the modelled files;
    their spellings are the enumerators of the workflow (the RPC server's
    "Initialized. Phase: ABDUCTION" message shows one of them). */
module Workflow {

  import opened Wrappers

  type Phase = string
  type Role = string

  const Idle: Phase := "IDLE"
  const Abduction: Phase := "ABDUCTION"
  const Deduction: Phase := "DEDUCTION"
  const Induction: Phase := "INDUCTION"
  const Audit: Phase := "AUDIT"
  const Decision: Phase := "DECISION"

  /** Who asks for a transition; session and context are advisory labels. */
  datatype RoleAssignment = RoleAssignment(role: Role, sessionId: string, context: string)

  /** A reference to an artifact that justifies a transition. */
  datatype EvidenceStub = EvidenceStub(evidenceType: string, uri: string, description: string, holonId: string)

  /** The record kept in the state file: the phase and the last role that moved it. */
  datatype ProcessState = ProcessState(phase: Phase, activeRole: RoleAssignment)

  /** The two results of the guard `CanTransition`, as the source returns them:
      a boolean whose meaning the call sites disagree on, and a message. */
  datatype GuardReply = GuardReply(ok: bool, msg: string)

  /** `CanTransition` is not part of this model: its body lives outside the
      modelled files. It reads the loaded state and judges a target phase for
      a role assignment and optional evidence. */
  type Guard = (ProcessState, Phase, RoleAssignment, Option<EvidenceStub>) -> GuardReply

  /** `isValidRoleForPhase`, likewise outside the modelled files. */
  type RoleCheck = (Phase, Role) -> bool

  /** One call into the tool layer, with the arguments the dispatcher passes. */
  datatype FacadeCall =
    | InitProject
    | RecordContext(vocabulary: string, invariants: string)
    | GetAgentContext(role: string)
    | ProposeHypothesis(title: string, content: string, scope: string, kind: string, rationale: string)
    | VerifyHypothesis(hypothesisId: string, checksJson: string, verdict: string)
    | ManageEvidence(phase: Phase, action: string, targetId: string, evidenceType: string, content: string,
                     verdict: string, assurance: string, carrier: string, validUntil: string)
    | RefineLoopback(phase: Phase, parentId: string, insight: string, title: string, content: string, scope: string)
    | FinalizeDecision(title: string, winnerId: string, context: string, decision: string, rationale: string,
                       consequences: string, characteristics: string)
    | AuditEvidence(hypothesisId: string, risks: string)
    | VisualizeAudit(targetId: string)
    | RunDecay
    | Actualize

  /** What a tool-layer call returns: its text (a path, a summary, a rendered
      tree; ignored for the calls that return only an error) or its error. */
  datatype Outcome = Done(text: string) | Failed(error: string)
}
