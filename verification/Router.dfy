/** The conditional edges of the inject and recover graphs
    (blade-ai/src/chaos_agent/agent/router.py): pure functions from the shared
    state to a routing label. */
module Router {
  import opened ErrorRules
  import opened Text

  datatype Node =
    | LoadMemory | IntentClarification | ClarificationTools | PlanBuilder | PlanBuilderTools
    | IntentConfirm | RecoverHandler
    | AgentLoop | Phase1Screener | Phase1Tools | PlanChangeConfirm | ExtractPlanningMetadata
    | DirectSetup | SafetyCheck | ConfirmationGate | BaselineCapture | SeSnapshot
    | ExecuteLoop | ToolScreener | Phase2Tools | DirectExecute
    | VerifierLoop | VerifierTools | FinalizeVerification | SeDetect
    | SaveMemory | Reject | End

  /** A router's answer. `To` carries the labels that are spelled as a node's own name. */
  datatype Label =
    | Continue | Finalize | Done | Rejected | Replanning | Verifier | EndLabel | Pass | Retry
    | To(node: Node)

  datatype Message =
    | Human
    | Ai(hasToolCalls: bool)
    | Tool(name: string, isError: bool)

  datatype SafetyStatus = Pending | Safe | Warning | ConfirmRequired | SafetyRejected

  datatype Intent = Unset | Inject | Recover | Chat

  datatype ScreenerRoute = RoutePass | RouteReplan | RouteRetry

  datatype Settings = Settings(
    maxAgentLoop: int,
    maxExecuteLoop: int,
    maxVerifierLoop: int,
    maxRecoverVerifierLoop: int,
    maxReplanCount: int,
    replanAutoTrigger: bool,
    replanResetExecuteCount: bool,
    maxInjectSeconds: int)

  /** The fields of AgentState that a router reads; optional texts are "" and optional
      records are booleans saying whether they are present. */
  datatype AgentState = AgentState(
    messages: seq<Message>,
    agentLoopCount: nat,
    executeLoopCount: nat,
    verifierLoopCount: nat,
    replanCount: nat,
    replanRequested: bool,
    replanContext: bool,
    error: string,
    safetyStatus: SafetyStatus,
    needsConfirmation: bool,
    dryRun: bool,
    direct: bool,
    tuiMode: bool,
    planConfirmed: bool,
    specComplete: bool,
    faultSpec: bool,
    confirmedIntent: Intent,
    skillName: string,
    plan: bool,
    planningRejected: bool,
    bladeUid: string,
    injectionMethod: bool,
    screenerRoute: ScreenerRoute,
    verification: bool,
    recoverVerification: bool,
    layer2ContextAdded: bool,
    pipelineStartedAt: real)

  const FINISH_PLANNING := "finish_planning"
  const SAVE_FAULT_PLAN := "save_fault_plan"
  const PROPOSE_PLAN_CHANGE := "propose_plan_change"
  const SUBMIT_VERIFICATION := "submit_verification"
  const SUBMIT_RECOVER_VERIFICATION := "submit_recover_verification"

  predicate WallClockExceeded(s: Settings, st: AgentState, now: real) {
    && s.maxInjectSeconds > 0
    && st.pipelineStartedAt > 0.0
    && now - st.pipelineStartedAt > s.maxInjectSeconds as real
  }

  predicate ShouldReplan(s: Settings, st: AgentState, errorMsg: string) {
    && st.replanCount < s.maxReplanCount
    && (st.replanRequested ||
        (errorMsg != "" && s.replanAutoTrigger && ShouldAutoReplan(errorMsg)))
  }

  predicate LastHasToolCalls(st: AgentState) {
    st.messages != [] && var m := st.messages[|st.messages| - 1]; m.Ai? && m.hasToolCalls
  }

  predicate LastIsPlainAi(st: AgentState) {
    st.messages != [] && var m := st.messages[|st.messages| - 1]; m.Ai? && !m.hasToolCalls
  }

  function ShouldContinueAgentLoop(s: Settings, st: AgentState, now: real): Label {
    if WallClockExceeded(s, st, now) then Rejected
    else if st.agentLoopCount >= s.maxAgentLoop then Rejected
    else if st.safetyStatus.SafetyRejected? then Rejected
    else if st.error != "" then Rejected
    else if LastHasToolCalls(st) then Continue
    else if LastIsPlainAi(st) then
      if st.skillName != "" then To(ExtractPlanningMetadata) else Continue
    else if st.plan && st.skillName != "" then To(ExtractPlanningMetadata)
    else Continue
  }

  function ShouldContinueExecuteLoop(s: Settings, st: AgentState, now: real): Label {
    if WallClockExceeded(s, st, now) then EndLabel
    else if st.executeLoopCount >= s.maxExecuteLoop then
      if ShouldReplan(s, st, "") then Replanning else EndLabel
    else if ShouldReplan(s, st, "") then Replanning
    else if st.error != "" then
      if ShouldReplan(s, st, st.error) then Replanning else EndLabel
    else if LastHasToolCalls(st) then Continue
    else if LastIsPlainAi(st) then
      if st.bladeUid != "" || st.injectionMethod then Verifier else Continue
    else Continue
  }

  function RouteAfterSafety(st: AgentState): Label {
    if st.safetyStatus.SafetyRejected? then Rejected
    else if st.dryRun then To(ConfirmationGate)
    else if st.needsConfirmation then To(ConfirmationGate)
    else if st.safetyStatus.Safe? then To(BaselineCapture)
    else To(ConfirmationGate)
  }

  function RouteAfterConfirmation(st: AgentState): Label {
    if st.safetyStatus.SafetyRejected? then Rejected
    else if st.dryRun then EndLabel
    else To(BaselineCapture)
  }

  function RouteAfterBaseline(st: AgentState): Label {
    if st.direct then To(DirectExecute) else To(ExecuteLoop)
  }

  function ShouldContinueVerifier(s: Settings, st: AgentState, now: real): Label {
    if st.verification then Done
    else if WallClockExceeded(s, st, now) then Done
    else if st.verifierLoopCount >= s.maxVerifierLoop then Finalize
    else if LastHasToolCalls(st) then Continue
    else if LastIsPlainAi(st) then Finalize
    else Continue
  }

  function RouteAfterFinalize(st: AgentState): Label {
    if st.verification then To(SeDetect) else To(VerifierLoop)
  }

  function ShouldContinueRecoverVerifier(s: Settings, st: AgentState, now: real): Label {
    if st.recoverVerification then Done
    else if WallClockExceeded(s, st, now) then Done
    else if st.verifierLoopCount >= s.maxRecoverVerifierLoop then
      if st.layer2ContextAdded then Finalize else Done
    else if LastHasToolCalls(st) then Continue
    else if LastIsPlainAi(st) then
      if st.layer2ContextAdded then Finalize else Continue
    else Continue
  }

  predicate RouteAfterRecoverFinalizeIsDone(st: AgentState) {
    st.recoverVerification
  }

  predicate SpecReadyForExecute(st: AgentState) {
    st.planConfirmed && st.skillName != "" && st.faultSpec && st.specComplete
  }

  function RouteAfterLoadMemory(st: AgentState): Label {
    if st.direct then To(DirectSetup)
    else if st.dryRun && st.tuiMode then To(PlanBuilder)
    else if !st.dryRun && st.tuiMode && SpecReadyForExecute(st) then To(SafetyCheck)
    else if st.tuiMode then To(IntentClarification)
    else To(AgentLoop)
  }

  function RouteAfterIntentClarification(st: AgentState): Label {
    match st.confirmedIntent
    case Inject => To(AgentLoop)
    case Recover => To(RecoverHandler)
    case Chat => To(SaveMemory)
    case Unset => To(IntentClarification)
  }

  function ShouldContinueIntentClarification(st: AgentState): Label {
    match st.confirmedIntent
    case Inject => To(IntentConfirm)
    case Recover => To(RecoverHandler)
    case Chat => To(SaveMemory)
    case Unset => if LastHasToolCalls(st) then Continue else EndLabel
  }

  function ShouldContinuePlanBuilder(st: AgentState): Label {
    if LastHasToolCalls(st) then Continue else EndLabel
  }

  function RouteAfterIntentConfirm(st: AgentState): Label {
    if st.confirmedIntent.Inject? && st.faultSpec then To(AgentLoop) else EndLabel
  }

  function RouteAfterDirectExecute(st: AgentState): Label {
    if st.bladeUid != "" then Verifier
    else if st.error != "" then EndLabel
    else Verifier
  }

  function RouteAfterScreener(st: AgentState): Label {
    match st.screenerRoute
    case RouteReplan => Replanning
    case RouteRetry => Retry
    case RoutePass => Pass
  }

  function RouteAfterExtract(st: AgentState): Label {
    if st.error != "" then Rejected
    else if st.planningRejected then To(AgentLoop)
    else To(SafetyCheck)
  }

  // ---------------------------------------------------------------------------
  // The reverse scans over the messages of the last tool batch.
  // ---------------------------------------------------------------------------

  /** Where the maximal trailing run of tool messages begins. */
  ghost predicate IsTrailingRun(messages: seq<Message>, start: nat) {
    && start <= |messages|
    && (forall i :: start <= i < |messages| ==> messages[i].Tool?)
    && (start > 0 ==> !messages[start - 1].Tool?)
  }

  predicate Succeeded(m: Message, name: string) {
    m.Tool? && !m.isError && m.name == name
  }

  /** A message that decides the planning scan. */
  predicate IsPlanningSignal(m: Message, replanContext: bool) {
    || Succeeded(m, FINISH_PLANNING)
    || Succeeded(m, SAVE_FAULT_PLAN)
    || (replanContext && Succeeded(m, PROPOSE_PLAN_CHANGE))
  }

  function PlanningDecision(m: Message): Label {
    if Succeeded(m, PROPOSE_PLAN_CHANGE) then To(PlanChangeConfirm) else To(ExtractPlanningMetadata)
  }

  /** Did the named tool run without error somewhere in the trailing batch? */
  predicate BatchSubmitted(messages: seq<Message>, name: string) {
    if messages == [] then false
    else
      var m := messages[|messages| - 1];
      m.Tool? && (Succeeded(m, name) || BatchSubmitted(messages[..|messages| - 1], name))
  }

  function ScanPlanning(messages: seq<Message>, replanContext: bool): Label {
    if messages == [] then To(AgentLoop)
    else
      var m := messages[|messages| - 1];
      if !m.Tool? then To(AgentLoop)
      else if IsPlanningSignal(m, replanContext) then PlanningDecision(m)
      else ScanPlanning(messages[..|messages| - 1], replanContext)
  }

  function RouteAfterVerifierTools(st: AgentState): Label {
    if BatchSubmitted(st.messages, SUBMIT_VERIFICATION) then Finalize else To(VerifierLoop)
  }

  function RouteAfterPhase1Tools(st: AgentState): Label {
    ScanPlanning(st.messages, st.replanContext)
  }

  /** The verifier scans' loop: newest message first, leaving at the first non-tool message. */
  method ScanForSubmit(messages: seq<Message>, name: string) returns (found: bool)
    ensures found == BatchSubmitted(messages, name)
  {
    var i := |messages|;
    assert messages[..i] == messages;
    while i > 0
      invariant 0 <= i <= |messages|
      invariant BatchSubmitted(messages, name) == BatchSubmitted(messages[..i], name)
    {
      i := i - 1;
      var m := messages[i];
      assert messages[..i + 1][..i] == messages[..i];
      if !m.Tool? {
        return false;
      }
      if m.isError {
        continue;
      }
      if m.name == name {
        return true;
      }
    }
    return false;
  }

  /** The planning scan's loop. */
  method ScanForPlanningSignal(messages: seq<Message>, replanContext: bool) returns (l: Label)
    ensures l == ScanPlanning(messages, replanContext)
  {
    var i := |messages|;
    assert messages[..i] == messages;
    while i > 0
      invariant 0 <= i <= |messages|
      invariant ScanPlanning(messages, replanContext) == ScanPlanning(messages[..i], replanContext)
    {
      i := i - 1;
      var m := messages[i];
      assert messages[..i + 1][..i] == messages[..i];
      if !m.Tool? {
        return To(AgentLoop);
      }
      if m.isError {
        continue;
      }
      if m.name == FINISH_PLANNING || m.name == SAVE_FAULT_PLAN {
        return To(ExtractPlanningMetadata);
      }
      if m.name == PROPOSE_PLAN_CHANGE && replanContext {
        return To(PlanChangeConfirm);
      }
    }
    return To(AgentLoop);
  }

  /** The verifier scans finalize exactly when the trailing run holds a submit that did not fail. */
  lemma {:induction false} SubmitInTrailingRun(messages: seq<Message>, name: string, start: nat)
    requires IsTrailingRun(messages, start)
    ensures BatchSubmitted(messages, name) <==>
            exists i :: start <= i < |messages| && Succeeded(messages[i], name)
  {
    if start < |messages| {
      var front := messages[..|messages| - 1];
      SubmitInTrailingRun(front, name, start);
      if BatchSubmitted(front, name) {
        var i :| start <= i < |front| && Succeeded(front[i], name);
        assert messages[i] == front[i];
      }
      if i :| start <= i < |messages| && Succeeded(messages[i], name) {
        assert i < |front| ==> front[i] == messages[i];
      }
    }
  }

  /** The planning scan follows the latest signal of the trailing run, and returns to the
      planner when that run holds none. */
  lemma {:induction false} PlanningScanInTrailingRun(
      messages: seq<Message>, replanContext: bool, start: nat, latest: int)
    requires IsTrailingRun(messages, start)
    requires start - 1 <= latest < |messages|
    requires latest >= start ==> IsPlanningSignal(messages[latest], replanContext)
    requires forall i :: latest < i < |messages| ==> !IsPlanningSignal(messages[i], replanContext)
    ensures ScanPlanning(messages, replanContext) ==
            if latest >= start then PlanningDecision(messages[latest]) else To(AgentLoop)
  {
    if start < |messages| && latest < |messages| - 1 {
      var front := messages[..|messages| - 1];
      assert !IsPlanningSignal(messages[|messages| - 1], replanContext);
      PlanningScanInTrailingRun(front, replanContext, start, latest);
    }
  }

  /** Only the trailing run matters: whatever precedes a non-tool message is ignored. */
  lemma {:induction false} ScansIgnoreEarlierMessages(
      before: seq<Message>, before': seq<Message>, barrier: Message, run: seq<Message>,
      name: string, replanContext: bool)
    requires !barrier.Tool?
    requires forall i :: 0 <= i < |run| ==> run[i].Tool?
    ensures BatchSubmitted(before + [barrier] + run, name) ==
            BatchSubmitted(before' + [barrier] + run, name)
    ensures ScanPlanning(before + [barrier] + run, replanContext) ==
            ScanPlanning(before' + [barrier] + run, replanContext)
  {
    if run != [] {
      var front := run[..|run| - 1];
      ScansIgnoreEarlierMessages(before, before', barrier, front, name, replanContext);
      var a, b := before + [barrier] + run, before' + [barrier] + run;
      assert a[..|a| - 1] == before + [barrier] + front;
      assert b[..|b| - 1] == before' + [barrier] + front;
    }
  }

  /** An authentication or quota error, without an explicit replan request, makes the execute
      router stop in every state and at every time. */
  lemma OperatorErrorsEndExecution(s: Settings, st: AgentState, now: real)
    requires NeedsOperator(st.error) && !st.replanRequested
    ensures ShouldContinueExecuteLoop(s, st, now) == EndLabel
  {
    OperatorErrorsNeverReplan(st.error);
    EmptyMessageNeedsNoOperator();
  }

  lemma EmptyMessageNeedsNoOperator()
    ensures !NeedsOperator("")
  {
    forall r, p | r in OPERATOR_RULES && p in r.patterns ensures !Contains(Lower(""), p) {
      NonEmptyPatterns(r, p);
      assert Lower("") == "";
    }
  }
}
