/** The inject graph (blade-ai/src/chaos_agent/agent/graph.py): its edge tables, its runs
    against arbitrary node behaviour, and what every run must pass through. */
module InjectGraph {
  import opened Wrappers
  import opened Router

  /** Which optional tool nodes the graph was built with. */
  datatype Tools = Tools(clarification: bool, verifier: bool)

  /** One visit of a run: the node, the state it left behind and the clock when its router ran. */
  datatype Visit = Visit(node: Node, st: AgentState, now: real)

  /** The answer of the router attached to a node; an unconditional edge always answers its target. */
  function Answer(t: Tools, s: Settings, v: Visit): Label {
    match v.node
    case LoadMemory => RouteAfterLoadMemory(v.st)
    case IntentClarification =>
      if t.clarification then ShouldContinueIntentClarification(v.st)
      else RouteAfterIntentClarification(v.st)
    case ClarificationTools => To(IntentClarification)
    case PlanBuilder => if t.clarification then ShouldContinuePlanBuilder(v.st) else EndLabel
    case PlanBuilderTools => To(PlanBuilder)
    case IntentConfirm => RouteAfterIntentConfirm(v.st)
    case RecoverHandler => To(SaveMemory)
    case AgentLoop => ShouldContinueAgentLoop(s, v.st, v.now)
    case Phase1Screener => RouteAfterScreener(v.st)
    case Phase1Tools => RouteAfterPhase1Tools(v.st)
    case PlanChangeConfirm => To(AgentLoop)
    case ExtractPlanningMetadata => RouteAfterExtract(v.st)
    case DirectSetup => To(SafetyCheck)
    case SafetyCheck => RouteAfterSafety(v.st)
    case ConfirmationGate => RouteAfterConfirmation(v.st)
    case BaselineCapture => To(SeSnapshot)
    case SeSnapshot => RouteAfterBaseline(v.st)
    case ExecuteLoop => ShouldContinueExecuteLoop(s, v.st, v.now)
    case ToolScreener => RouteAfterScreener(v.st)
    case Phase2Tools => To(ExecuteLoop)
    case DirectExecute => RouteAfterDirectExecute(v.st)
    case VerifierLoop => ShouldContinueVerifier(s, v.st, v.now)
    case VerifierTools => RouteAfterVerifierTools(v.st)
    case FinalizeVerification => RouteAfterFinalize(v.st)
    case SeDetect => To(SaveMemory)
    case SaveMemory => EndLabel
    case Reject => EndLabel
    case End => EndLabel
  }

  /** The edge tables: where a label leads, None when the table has no such key. */
  function Edge(t: Tools, n: Node, l: Label): Option<Node> {
    match n
    case LoadMemory =>
      if || l == To(AgentLoop) || l == To(DirectSetup) || l == To(IntentClarification)
         || l == To(PlanBuilder) || l == To(SafetyCheck)
      then Some(l.node) else None
    case IntentClarification =>
      if t.clarification then
        if l == Continue then Some(ClarificationTools)
        else if l == EndLabel then Some(End)
        else if l == To(IntentConfirm) || l == To(RecoverHandler) || l == To(SaveMemory) then Some(l.node)
        else None
      else if || l == To(AgentLoop) || l == To(RecoverHandler) || l == To(SaveMemory)
              || l == To(IntentClarification)
      then Some(l.node) else None
    case ClarificationTools => Only(l, To(IntentClarification), IntentClarification)
    case PlanBuilder =>
      if t.clarification && l == Continue then Some(PlanBuilderTools) else Only(l, EndLabel, End)
    case PlanBuilderTools => Only(l, To(PlanBuilder), PlanBuilder)
    case IntentConfirm => if l == To(AgentLoop) then Some(AgentLoop) else Only(l, EndLabel, End)
    case RecoverHandler => Only(l, To(SaveMemory), SaveMemory)
    case AgentLoop =>
      if l == Continue then Some(Phase1Screener)
      else if l == To(ExtractPlanningMetadata) then Some(ExtractPlanningMetadata)
      else Only(l, Rejected, Reject)
    case Phase1Screener =>
      if l == Pass then Some(Phase1Tools) else Only(l, Retry, AgentLoop)
    case Phase1Tools =>
      if l == To(AgentLoop) || l == To(ExtractPlanningMetadata) || l == To(PlanChangeConfirm)
      then Some(l.node) else None
    case PlanChangeConfirm => Only(l, To(AgentLoop), AgentLoop)
    case ExtractPlanningMetadata =>
      if l == To(AgentLoop) || l == To(SafetyCheck) then Some(l.node) else Only(l, Rejected, Reject)
    case DirectSetup => Only(l, To(SafetyCheck), SafetyCheck)
    case SafetyCheck =>
      if l == To(ConfirmationGate) || l == To(BaselineCapture) then Some(l.node) else Only(l, Rejected, Reject)
    case ConfirmationGate =>
      if l == To(BaselineCapture) then Some(BaselineCapture)
      else if l == Rejected then Some(Reject)
      else Only(l, EndLabel, End)
    case BaselineCapture => Only(l, To(SeSnapshot), SeSnapshot)
    case SeSnapshot => if l == To(DirectExecute) || l == To(ExecuteLoop) then Some(l.node) else None
    case ExecuteLoop =>
      if l == Continue then Some(ToolScreener)
      else if l == Verifier then Some(VerifierLoop)
      else if l == EndLabel then Some(SaveMemory)
      else Only(l, Replanning, AgentLoop)
    case ToolScreener =>
      if l == Pass then Some(Phase2Tools)
      else if l == Replanning then Some(AgentLoop)
      else Only(l, Retry, ExecuteLoop)
    case Phase2Tools => Only(l, To(ExecuteLoop), ExecuteLoop)
    case DirectExecute => if l == Verifier then Some(VerifierLoop) else Only(l, EndLabel, SaveMemory)
    case VerifierLoop =>
      if l == Continue then Some(if t.verifier then VerifierTools else FinalizeVerification)
      else if l == Finalize then Some(FinalizeVerification)
      else Only(l, Done, SeDetect)
    case VerifierTools =>
      if l == To(VerifierLoop) then Some(VerifierLoop) else Only(l, Finalize, FinalizeVerification)
    case FinalizeVerification => if l == To(VerifierLoop) || l == To(SeDetect) then Some(l.node) else None
    case SeDetect => Only(l, To(SaveMemory), SaveMemory)
    case SaveMemory => Only(l, EndLabel, End)
    case Reject => Only(l, EndLabel, End)
    case End => None
  }

  function Only(l: Label, key: Label, n: Node): Option<Node> {
    if l == key then Some(n) else None
  }

  function Successor(t: Tools, s: Settings, v: Visit): Option<Node> {
    Edge(t, v.node, Answer(t, s, v))
  }

  /** Where a node's table can lead at all, whatever its router answers. */
  predicate CanStep(n: Node, next: Node) {
    match n
    case LoadMemory =>
      || next.AgentLoop? || next.DirectSetup? || next.IntentClarification? || next.PlanBuilder?
      || next.SafetyCheck?
    case IntentClarification =>
      || next.ClarificationTools? || next.End? || next.IntentConfirm? || next.RecoverHandler?
      || next.SaveMemory? || next.AgentLoop? || next.IntentClarification?
    case ClarificationTools => next.IntentClarification?
    case PlanBuilder => next.PlanBuilderTools? || next.End?
    case PlanBuilderTools => next.PlanBuilder?
    case IntentConfirm => next.AgentLoop? || next.End?
    case RecoverHandler => next.SaveMemory?
    case AgentLoop => next.Phase1Screener? || next.ExtractPlanningMetadata? || next.Reject?
    case Phase1Screener => next.Phase1Tools? || next.AgentLoop?
    case Phase1Tools => next.AgentLoop? || next.ExtractPlanningMetadata? || next.PlanChangeConfirm?
    case PlanChangeConfirm => next.AgentLoop?
    case ExtractPlanningMetadata => next.AgentLoop? || next.SafetyCheck? || next.Reject?
    case DirectSetup => next.SafetyCheck?
    case SafetyCheck => next.ConfirmationGate? || next.BaselineCapture? || next.Reject?
    case ConfirmationGate => next.BaselineCapture? || next.Reject? || next.End?
    case BaselineCapture => next.SeSnapshot?
    case SeSnapshot => next.DirectExecute? || next.ExecuteLoop?
    case ExecuteLoop => next.ToolScreener? || next.VerifierLoop? || next.SaveMemory? || next.AgentLoop?
    case ToolScreener => next.Phase2Tools? || next.AgentLoop? || next.ExecuteLoop?
    case Phase2Tools => next.ExecuteLoop?
    case DirectExecute => next.VerifierLoop? || next.SaveMemory?
    case VerifierLoop => next.VerifierTools? || next.FinalizeVerification? || next.SeDetect?
    case VerifierTools => next.VerifierLoop? || next.FinalizeVerification?
    case FinalizeVerification => next.VerifierLoop? || next.SeDetect?
    case SeDetect => next.SaveMemory?
    case SaveMemory => next.End?
    case Reject => next.End?
    case End => false
  }

  lemma TablesLeadOnlyThere(t: Tools, n: Node, l: Label)
    ensures Edge(t, n, l).Some? ==> CanStep(n, Edge(t, n, l).value)
  {
  }

  lemma SuccessorsAreThere(t: Tools, s: Settings, v: Visit)
    ensures Successor(t, s, v).Some? ==> CanStep(v.node, Successor(t, s, v).value)
  {
    TablesLeadOnlyThere(t, v.node, Answer(t, s, v));
  }

  lemma {:induction false} ScanAnswersAreEdges(messages: seq<Message>, replanContext: bool)
    ensures ScanPlanning(messages, replanContext)
            in {To(AgentLoop), To(ExtractPlanningMetadata), To(PlanChangeConfirm)}
  {
    if messages != [] {
      ScanAnswersAreEdges(messages[..|messages| - 1], replanContext);
    }
  }

  /** Every router answers only labels its edge table knows. The one exception is a planning
      screener that leaves the execution screener's "replan" route behind. */
  lemma RoutersStayInTheirTables(t: Tools, s: Settings, v: Visit)
    ensures Successor(t, s, v).None? <==>
            v.node.End? || (v.node.Phase1Screener? && v.st.screenerRoute.RouteReplan?)
  {
    match v.node
    case Phase1Tools => ScanAnswersAreEdges(v.st.messages, v.st.replanContext);
    case LoadMemory =>
    case IntentClarification =>
    case AgentLoop =>
    case ExecuteLoop =>
    case VerifierLoop =>
    case _ =>
  }

  /** A run: each visit goes where the previous router sent it. Nothing is assumed of the
      states, so the nodes may write anything. */
  ghost predicate IsRun(t: Tools, s: Settings, tr: seq<Visit>) {
    tr != [] && forall i :: 0 <= i < |tr| - 1 ==> StepAt(t, s, tr, i)
  }

  ghost predicate StepAt(t: Tools, s: Settings, tr: seq<Visit>, i: nat)
    requires i < |tr| - 1
  {
    Successor(t, s, tr[i]) == Some(tr[i + 1].node)
  }

  // ---------------------------------------------------------------------------
  // Gating
  // ---------------------------------------------------------------------------

  /** The nodes that touch the target or follow such a node. */
  predicate Gated(n: Node) {
    || n.BaselineCapture? || n.SeSnapshot? || n.ExecuteLoop? || n.ToolScreener? || n.Phase2Tools?
    || n.DirectExecute? || n.VerifierLoop? || n.VerifierTools? || n.FinalizeVerification? || n.SeDetect?
  }

  /** `b` is a baseline visit that a safety check let through: straight away because the request
      was safe and needed no confirmation, or through the confirmation gate. */
  ghost predicate Cleared(tr: seq<Visit>, b: nat) {
    && 0 < b < |tr|
    && tr[b].node == BaselineCapture
    && !tr[b - 1].st.dryRun
    && !tr[b - 1].st.safetyStatus.SafetyRejected?
    && (if tr[b - 1].node == SafetyCheck then
          tr[b - 1].st.safetyStatus.Safe? && !tr[b - 1].st.needsConfirmation
        else
          && b >= 2
          && tr[b - 1].node == ConfirmationGate
          && tr[b - 2].node == SafetyCheck)
  }

  lemma GatedOnlyFromGated(t: Tools, s: Settings, v: Visit, n: Node)
    requires Successor(t, s, v) == Some(n) && Gated(n) && n != BaselineCapture
    ensures Gated(v.node)
  {
    SuccessorsAreThere(t, s, v);
  }

  lemma BaselineEntry(t: Tools, s: Settings, v: Visit)
    requires Successor(t, s, v) == Some(BaselineCapture)
    ensures !v.st.dryRun && !v.st.safetyStatus.SafetyRejected?
    ensures v.node == ConfirmationGate ||
            (v.node == SafetyCheck && v.st.safetyStatus.Safe? && !v.st.needsConfirmation)
  {
  }

  lemma GateEntry(t: Tools, s: Settings, v: Visit)
    requires Successor(t, s, v) == Some(ConfirmationGate)
    ensures v.node == SafetyCheck
  {
    SuccessorsAreThere(t, s, v);
  }

  lemma BaselineOnlyWhenCleared(t: Tools, s: Settings, tr: seq<Visit>, b: nat)
    requires IsRun(t, s, tr) && tr[0].node == LoadMemory
    requires b < |tr| && tr[b].node == BaselineCapture
    ensures Cleared(tr, b)
  {
    assert StepAt(t, s, tr, b - 1);
    BaselineEntry(t, s, tr[b - 1]);
    if tr[b - 1].node == ConfirmationGate {
      assert StepAt(t, s, tr, b - 2);
      GateEntry(t, s, tr[b - 2]);
    }
  }

  /** In every run from the start, with any number of replans, a gated visit has a cleared
      baseline behind it and nothing but gated nodes in between: planning was not re-entered
      since the latest safety check. */
  lemma {:induction false} EveryGatedVisitIsCleared(t: Tools, s: Settings, tr: seq<Visit>, i: nat)
      returns (b: nat)
    requires IsRun(t, s, tr) && tr[0].node == LoadMemory
    requires i < |tr| && Gated(tr[i].node)
    ensures b <= i && Cleared(tr, b)
    ensures forall j :: b <= j <= i ==> Gated(tr[j].node)
  {
    if tr[i].node == BaselineCapture {
      BaselineOnlyWhenCleared(t, s, tr, i);
      b := i;
    } else {
      assert StepAt(t, s, tr, i - 1);
      GatedOnlyFromGated(t, s, tr[i - 1], tr[i].node);
      b := EveryGatedVisitIsCleared(t, s, tr, i - 1);
    }
  }

  /** Each visit that can act on the target has a safety check after the latest planning visit. */
  lemma SafetyCheckSinceLatestPlanning(t: Tools, s: Settings, tr: seq<Visit>, i: nat)
      returns (c: nat)
    requires IsRun(t, s, tr) && tr[0].node == LoadMemory
    requires i < |tr| && tr[i].node in {ExecuteLoop, DirectExecute, Phase2Tools}
    ensures c < i && tr[c].node == SafetyCheck
    ensures forall j :: c <= j <= i ==> tr[j].node != AgentLoop
  {
    var b := EveryGatedVisitIsCleared(t, s, tr, i);
    c := if tr[b - 1].node == SafetyCheck then b - 1 else b - 2;
    forall j | c <= j <= i ensures tr[j].node != AgentLoop {
      if j >= b { assert Gated(tr[j].node); }
    }
  }

  /** While dry_run stays set nothing behind the baseline is ever reached. */
  lemma DryRunTouchesNothing(t: Tools, s: Settings, tr: seq<Visit>)
    requires IsRun(t, s, tr) && tr[0].node == LoadMemory
    requires forall i :: 0 <= i < |tr| ==> tr[i].st.dryRun
    ensures forall i :: 0 <= i < |tr| ==> !Gated(tr[i].node)
  {
    forall i | 0 <= i < |tr| ensures !Gated(tr[i].node) {
      if Gated(tr[i].node) {
        var b := EveryGatedVisitIsCleared(t, s, tr, i);
      }
    }
  }

  // ---------------------------------------------------------------------------
  // Verdicts
  // ---------------------------------------------------------------------------

  predicate Verifying(n: Node) {
    n.VerifierLoop? || n.VerifierTools? || n.FinalizeVerification?
  }

  lemma SeDetectEntry(t: Tools, s: Settings, v: Visit)
    requires Successor(t, s, v) == Some(SeDetect)
    ensures Verifying(v.node)
    ensures v.st.verification || WallClockExceeded(s, v.st, v.now)
  {
  }

  /** Side-effect detection is entered only with a verdict or after the clock ran out. */
  lemma SeDetectNeedsVerdict(t: Tools, s: Settings, tr: seq<Visit>, i: nat)
    requires IsRun(t, s, tr) && 0 < i < |tr| && tr[i].node == SeDetect
    ensures Verifying(tr[i - 1].node)
    ensures tr[i - 1].st.verification || WallClockExceeded(s, tr[i - 1].st, tr[i - 1].now)
  {
    assert StepAt(t, s, tr, i - 1);
    SeDetectEntry(t, s, tr[i - 1]);
  }

  lemma VerifyingExits(t: Tools, s: Settings, v: Visit, n: Node)
    requires Successor(t, s, v) == Some(n)
    ensures Verifying(v.node) ==> Verifying(n) || n == SeDetect
    ensures v.node == SeDetect ==> n == SaveMemory
    ensures v.node == SaveMemory ==> n == End
    ensures v.node != End
  {
    SuccessorsAreThere(t, s, v);
  }

  /** A run that began to verify and ended did so through side-effect detection. */
  lemma {:induction false} VerificationEndsInSeDetect(t: Tools, s: Settings, tr: seq<Visit>, i: nat)
    requires IsRun(t, s, tr) && i < |tr| && Verifying(tr[i].node)
    requires tr[|tr| - 1].node == End
    ensures i < |tr| - 3 && tr[|tr| - 3].node == SeDetect && tr[|tr| - 2].node == SaveMemory
    decreases |tr| - i
  {
    assert StepAt(t, s, tr, i);
    VerifyingExits(t, s, tr[i], tr[i + 1].node);
    if Verifying(tr[i + 1].node) {
      VerificationEndsInSeDetect(t, s, tr, i + 1);
    } else {
      assert StepAt(t, s, tr, i + 1);
      VerifyingExits(t, s, tr[i + 1], tr[i + 2].node);
      assert StepAt(t, s, tr, i + 2);
      VerifyingExits(t, s, tr[i + 2], tr[i + 3].node);
      if i + 4 < |tr| {
        assert StepAt(t, s, tr, i + 3);
        VerifyingExits(t, s, tr[i + 3], tr[i + 4].node);
      }
    }
  }

  /** Verdicts are never lost: when no node clears a verdict, a finished run that verified at all
      either still carries a verdict or was cut by the clock. */
  lemma VerdictsAreNeverLost(t: Tools, s: Settings, tr: seq<Visit>, i: nat)
    requires IsRun(t, s, tr) && i < |tr| && Verifying(tr[i].node)
    requires tr[|tr| - 1].node == End
    requires forall j, k :: 0 <= j <= k < |tr| && tr[j].st.verification ==> tr[k].st.verification
    ensures tr[|tr| - 1].st.verification ||
            (|tr| >= 4 && WallClockExceeded(s, tr[|tr| - 4].st, tr[|tr| - 4].now))
  {
    VerificationEndsInSeDetect(t, s, tr, i);
    SeDetectNeedsVerdict(t, s, tr, |tr| - 3);
  }
}
