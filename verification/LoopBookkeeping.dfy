/** The loop nodes' own bookkeeping (blade-ai/src/chaos_agent/agent/nodes): how agent_loop,
    execute_loop and verifier_loop count their iterations and request replans. Everything else
    a node writes is left open. Planning resets its counter on every visit once a replan context
    exists, so the planning budget is not enforced after a replan. */
module LoopBookkeeping {
  import opened Wrappers
  import opened Router
  import opened InjectGraph
  import opened WallClock
  import opened Termination

  /** Nothing that planning and replanning account for changes. */
  predicate SamePlanningBooks(pre: AgentState, post: AgentState) {
    && post.agentLoopCount == pre.agentLoopCount
    && post.replanCount == pre.replanCount
    && post.replanRequested == pre.replanRequested
    && post.replanContext == pre.replanContext
    && post.pipelineStartedAt == pre.pipelineStartedAt
  }

  predicate SameBooks(pre: AgentState, post: AgentState) {
    && SamePlanningBooks(pre, post)
    && post.executeLoopCount == pre.executeLoopCount
    && post.verifierLoopCount == pre.verifierLoopCount
  }

  predicate IsReplanEntry(pre: AgentState) {
    pre.replanContext && pre.replanCount > 0
  }

  predicate AgentLoopStep(s: Settings, pre: AgentState, post: AgentState) {
    var count := if IsReplanEntry(pre) then 1 else pre.agentLoopCount + 1;
    && post.executeLoopCount == pre.executeLoopCount
    && post.verifierLoopCount == pre.verifierLoopCount
    && post.replanCount == pre.replanCount
    && post.replanContext == pre.replanContext
    && post.pipelineStartedAt == pre.pipelineStartedAt
    && (post.error == pre.error || post.error != "")
    && if count > s.maxAgentLoop then
         && SameBooks(pre, post)
         && post.error != ""
         && post.safetyStatus == SafetyRejected
       else
         && post.agentLoopCount == count
         && post.replanRequested == (!IsReplanEntry(pre) && pre.replanRequested)
  }

  /** The zombie check: a replan request that can no longer be served ends the loop. */
  predicate IsZombie(s: Settings, pre: AgentState) {
    pre.replanRequested && pre.replanCount >= s.maxReplanCount && pre.bladeUid == ""
  }

  predicate ExecuteLoopStep(s: Settings, pre: AgentState, post: AgentState) {
    var count := pre.executeLoopCount + 1;
    && post.agentLoopCount == pre.agentLoopCount
    && post.verifierLoopCount == pre.verifierLoopCount
    && post.pipelineStartedAt == pre.pipelineStartedAt
    && if count > s.maxExecuteLoop then
         SameBooks(pre, post) && post.error != ""
       else if IsZombie(s, pre) then
         && post.executeLoopCount == count && post.replanCount == pre.replanCount
         && post.replanContext == pre.replanContext && !post.replanRequested && post.error != ""
       else
         || Iterates(pre, post, count)
         || Replans(s, pre, post, count)
         || ReplanRefused(s, pre, post, count)
  }

  /** No replan was asked for in this iteration. */
  predicate Iterates(pre: AgentState, post: AgentState, count: nat) {
    && post.executeLoopCount == count && post.replanCount == pre.replanCount
    && post.replanContext == pre.replanContext && post.replanRequested == pre.replanRequested
  }

  /** A replan was asked for and the replan count was still below its limit. */
  predicate Replans(s: Settings, pre: AgentState, post: AgentState, count: nat) {
    && pre.replanCount < s.maxReplanCount
    && post.executeLoopCount == (if s.replanResetExecuteCount then 0 else count)
    && post.replanCount == pre.replanCount + 1
    && post.replanContext && post.replanRequested && post.error == ""
  }

  /** A replan was asked for but the limit was reached: a terminal failure. */
  predicate ReplanRefused(s: Settings, pre: AgentState, post: AgentState, count: nat) {
    && pre.replanCount >= s.maxReplanCount
    && post.executeLoopCount == count && post.replanCount == pre.replanCount
    && post.replanContext == pre.replanContext && !post.replanRequested && post.error != ""
  }

  predicate VerifierLoopStep(s: Settings, pre: AgentState, post: AgentState) {
    var count := pre.verifierLoopCount + 1;
    && SamePlanningBooks(pre, post)
    && post.executeLoopCount == pre.executeLoopCount
    && if count > s.maxVerifierLoop then
         post.verifierLoopCount == pre.verifierLoopCount && post.verification
       else
         || (post.verifierLoopCount == pre.verifierLoopCount && post.verification)
         || post.verifierLoopCount == count
  }

  predicate DirectExecuteStep(pre: AgentState, post: AgentState) {
    && SamePlanningBooks(pre, post)
    && post.verifierLoopCount == pre.verifierLoopCount
    && (post.executeLoopCount == pre.executeLoopCount || post.executeLoopCount == 1)
  }

  predicate NodeStep(s: Settings, n: Node, pre: AgentState, post: AgentState) {
    match n
    case AgentLoop => AgentLoopStep(s, pre, post)
    case ExecuteLoop => ExecuteLoopStep(s, pre, post)
    case VerifierLoop => VerifierLoopStep(s, pre, post)
    case DirectExecute => DirectExecuteStep(pre, post)
    case Phase1Screener => SameBooks(pre, post) && post.screenerRoute != RouteReplan
    case ToolScreener => SameBooks(pre, post) && post.screenerRoute != RouteReplan
    case _ => SameBooks(pre, post)
  }

  /** What a new turn resets before the graph starts. */
  predicate FreshTurn(st: AgentState) {
    && st.agentLoopCount == st.executeLoopCount == st.verifierLoopCount == st.replanCount == 0
    && !st.replanRequested && !st.replanContext
    && st.pipelineStartedAt == 0.0
  }

  ghost predicate NodeStepAt(s: Settings, tr: seq<Visit>, i: nat)
    requires i < |tr| - 1
  {
    NodeStep(s, tr[i + 1].node, tr[i].st, tr[i + 1].st)
  }

  /** A turn, from load_memory on, with the nodes' own bookkeeping. It may pass through the intent
      dialogue before it enters the pipeline, or never enter it. */
  ghost predicate IsTurn(t: Tools, s: Settings, tr: seq<Visit>) {
    && IsRun(t, s, tr)
    && tr[0].node == LoadMemory && FreshTurn(tr[0].st)
    && forall i :: 0 <= i < |tr| - 1 ==> NodeStepAt(s, tr, i)
  }

  /** From its first pipeline visit on, every turn has at most so many visits. */
  ghost predicate PipelinesBoundedBy(t: Tools, s: Settings, bound: nat) {
    forall tr: seq<Visit>, i: nat :: IsTurn(t, s, tr) && i < |tr| && InPipeline(tr[i].node) ==> |tr| - i <= bound
  }

  ghost predicate EveryPipelineTerminates(t: Tools, s: Settings) {
    exists bound: nat :: PipelinesBoundedBy(t, s, bound)
  }

  // ---------------------------------------------------------------------------
  // Invariant of a turn
  // ---------------------------------------------------------------------------

  predicate Executing(n: Node) {
    n.ExecuteLoop? || n.ToolScreener? || n.Phase2Tools?
  }

  predicate ReplanExhausted(s: Settings, st: AgentState) {
    st.replanCount > 0 && st.replanCount >= s.maxReplanCount
  }

  /** - The clock is never stamped, so the wall-clock budget never cuts a turn.
      - The replan count and context appear together and stay within the limits.
      - A pending request is being routed back to planning, can no longer be served, or the
        turn is over.
      - With the replans used up, planning is behind the turn. */
  predicate TurnInvariant(s: Settings, v: Visit) {
    && v.st.pipelineStartedAt == 0.0
    && (v.st.replanContext <==> v.st.replanCount > 0)
    && (v.st.replanCount > 0 ==> v.st.replanCount <= s.maxReplanCount && s.maxExecuteLoop >= 1)
    && v.st.agentLoopCount <= (if s.maxAgentLoop < 0 then 0 else s.maxAgentLoop)
    && (v.st.replanRequested ==> v.st.replanCount > 0)
    && (v.st.replanRequested && !ReplanExhausted(s, v.st) ==>
          v.node.ExecuteLoop? || Late(v.node) ||
          (v.node.AgentLoop? && v.st.safetyStatus == SafetyRejected))
    && (ReplanExhausted(s, v.st) ==> Executing(v.node) || Late(v.node))
    && (v.node.ToolScreener? ==> v.st.screenerRoute != RouteReplan)
  }

  /** What the routers contribute: execution is left for planning only below the replan limit and
      for another iteration only without a servable request; a rejected plan ends the turn. */
  predicate Routed(s: Settings, u: Visit, n: Node) {
    && (Late(u.node) ==> Late(n))
    && (u.node.AgentLoop? && u.st.safetyStatus == SafetyRejected ==> Late(n))
    && (u.node.ExecuteLoop? && n.AgentLoop? ==> u.st.replanCount < s.maxReplanCount)
    && (u.node.ExecuteLoop? && !Late(n) && !n.AgentLoop? ==>
          n.ToolScreener? && !(u.st.replanRequested && u.st.replanCount < s.maxReplanCount))
    && (u.node.ToolScreener? && u.st.screenerRoute != RouteReplan ==> Executing(n))
    && (u.node.Phase2Tools? ==> n.ExecuteLoop?)
    && (n.ToolScreener? || n.Phase2Tools? ==> Executing(u.node))
  }

  lemma RunsAreRouted(t: Tools, s: Settings, u: Visit, n: Node)
    requires u.st.pipelineStartedAt == 0.0 && Successor(t, s, u) == Some(n)
    ensures Routed(s, u, n)
  {
    match u.node
    case AgentLoop => PlanningIsRouted(t, s, u, n);
    case ExecuteLoop => ExecutionIsRouted(t, s, u, n);
    case ToolScreener => ScreeningIsRouted(t, s, u, n);
    case _ =>
      SuccessorsAreThere(t, s, u);
      OthersAreRouted(s, u, n);
  }

  lemma PlanningIsRouted(t: Tools, s: Settings, u: Visit, n: Node)
    requires u.node.AgentLoop? && Successor(t, s, u) == Some(n)
    ensures Routed(s, u, n)
  {
  }

  lemma ExecutionIsRouted(t: Tools, s: Settings, u: Visit, n: Node)
    requires u.node.ExecuteLoop? && u.st.pipelineStartedAt == 0.0 && Successor(t, s, u) == Some(n)
    ensures Routed(s, u, n)
  {
  }

  lemma ScreeningIsRouted(t: Tools, s: Settings, u: Visit, n: Node)
    requires u.node.ToolScreener? && Successor(t, s, u) == Some(n)
    ensures Routed(s, u, n)
  {
  }

  lemma OthersAreRouted(s: Settings, u: Visit, n: Node)
    requires !u.node.AgentLoop? && !u.node.ExecuteLoop? && !u.node.ToolScreener? && CanStep(u.node, n)
    ensures Routed(s, u, n)
  {
  }

  lemma AgentLoopKeepsInvariant(s: Settings, u: Visit, v: Visit)
    requires v.node.AgentLoop? && AgentLoopStep(s, u.st, v.st)
    requires TurnInvariant(s, u) && Routed(s, u, v.node)
    ensures TurnInvariant(s, v)
  {
    assert !ReplanExhausted(s, u.st);
  }

  lemma ExecuteLoopKeepsInvariant(s: Settings, u: Visit, v: Visit)
    requires v.node.ExecuteLoop? && ExecuteLoopStep(s, u.st, v.st)
    requires TurnInvariant(s, u)
    ensures TurnInvariant(s, v)
  {
  }

  lemma OthersKeepInvariant(s: Settings, u: Visit, v: Visit)
    requires !v.node.AgentLoop? && !v.node.ExecuteLoop? && SamePlanningBooks(u.st, v.st)
    requires v.node.ToolScreener? ==> v.st.screenerRoute != RouteReplan
    requires TurnInvariant(s, u) && Routed(s, u, v.node)
    ensures TurnInvariant(s, v)
  {
  }

  lemma InvariantStep(s: Settings, u: Visit, v: Visit)
    requires TurnInvariant(s, u) && Routed(s, u, v.node) && NodeStep(s, v.node, u.st, v.st)
    ensures TurnInvariant(s, v)
  {
    match v.node
    case AgentLoop => AgentLoopKeepsInvariant(s, u, v);
    case ExecuteLoop => ExecuteLoopKeepsInvariant(s, u, v);
    case _ => OthersKeepInvariant(s, u, v);
  }

  lemma {:induction false} InvariantHolds(t: Tools, s: Settings, tr: seq<Visit>, i: nat)
    requires IsTurn(t, s, tr) && i < |tr|
    ensures TurnInvariant(s, tr[i])
  {
    if i > 0 {
      InvariantHolds(t, s, tr, i - 1);
      RoutedAt(t, s, tr, i);
      assert NodeStepAt(s, tr, i - 1);
      InvariantStep(s, tr[i - 1], tr[i]);
    }
  }

  lemma RoutedAt(t: Tools, s: Settings, tr: seq<Visit>, i: nat)
    requires IsRun(t, s, tr) && 0 < i < |tr| && tr[i - 1].st.pipelineStartedAt == 0.0
    ensures Routed(s, tr[i - 1], tr[i].node)
  {
    assert StepAt(t, s, tr, i - 1);
    RunsAreRouted(t, s, tr[i - 1], tr[i].node);
  }

  /** The wall-clock guard never fires in such a turn, at any setting and any time: nothing
      stamps the start of the pipeline. */
  lemma ClockNeverCutsATurn(t: Tools, s: Settings, tr: seq<Visit>, i: nat, now: real)
    requires IsTurn(t, s, tr) && i < |tr|
    ensures !WallClockExceeded(s, tr[i].st, now)
  {
    InvariantHolds(t, s, tr, i);
  }

  // ---------------------------------------------------------------------------
  // Termination, exactly
  // ---------------------------------------------------------------------------

  /** A planning visit that finds an old replan context and sets its counter back to one. */
  predicate WindsBack(s: Settings, n: Node, pre: AgentState) {
    && n.AgentLoop? && IsReplanEntry(pre) && !pre.replanRequested
    && pre.agentLoopCount >= 1 && s.maxAgentLoop >= 2
  }

  /** The bookkeeping honours every budget except where planning winds its counter back. */
  lemma BudgetsHonouredExceptWindBack(s: Settings, u: Visit, v: Visit)
    requires TurnInvariant(s, u) && NodeStep(s, v.node, u.st, v.st)
    ensures Disciplined(s, v.node, u.st, v.st) <==> !WindsBack(s, v.node, u.st)
  {
  }

  /** The settings under which planning cannot be re-entered with an old replan context. */
  predicate PlanningBudgetHolds(s: Settings) {
    s.maxAgentLoop <= 1 || s.maxReplanCount <= 1 || s.maxExecuteLoop <= 0
  }

  lemma NoWindBack(s: Settings, u: Visit, v: Visit)
    requires PlanningBudgetHolds(s) && TurnInvariant(s, u) && TurnInvariant(s, v)
    requires NodeStep(s, v.node, u.st, v.st)
    ensures !WindsBack(s, v.node, u.st)
  {
  }

  lemma PipelineIsKept(t: Tools, s: Settings, u: Visit, n: Node)
    requires InPipeline(u.node) && Successor(t, s, u) == Some(n)
    ensures InPipeline(n)
  {
    SuccessorsAreThere(t, s, u);
  }

  /** Once in the pipeline, a turn stays in it. */
  lemma {:induction false} PipelineIsNeverLeft(t: Tools, s: Settings, tr: seq<Visit>, i: nat, j: nat)
    requires IsRun(t, s, tr) && i <= j < |tr| && InPipeline(tr[i].node)
    ensures InPipeline(tr[j].node)
  {
    if i < j {
      PipelineIsNeverLeft(t, s, tr, i, j - 1);
      assert StepAt(t, s, tr, j - 1);
      PipelineIsKept(t, s, tr[j - 1], tr[j].node);
    }
  }

  lemma PipelinePartIsARun(t: Tools, s: Settings, tr: seq<Visit>, i: nat)
    requires IsRun(t, s, tr) && i < |tr| && InPipeline(tr[i].node)
    ensures IsPipelineRun(t, s, tr[i..])
  {
    var part := tr[i..];
    forall j | 0 <= j < |part| - 1 ensures StepAt(t, s, part, j) {
      assert StepAt(t, s, tr, i + j);
    }
    forall j | 1 <= j < |part| ensures InPipeline(part[j].node) {
      PipelineIsNeverLeft(t, s, tr, i, i + j);
    }
  }

  lemma StepsAreDisciplined(t: Tools, s: Settings, tr: seq<Visit>, j: nat)
    requires PlanningBudgetHolds(s) && IsTurn(t, s, tr) && j < |tr| - 1
    ensures DisciplinedAt(s, tr, j)
  {
    assert NodeStepAt(s, tr, j);
    InvariantHolds(t, s, tr, j);
    InvariantHolds(t, s, tr, j + 1);
    NoWindBack(s, tr[j], tr[j + 1]);
    BudgetsHonouredExceptWindBack(s, tr[j], tr[j + 1]);
  }

  lemma PipelinesTerminateWhenBudgetHolds(t: Tools, s: Settings)
    requires PlanningBudgetHolds(s)
    ensures PipelinesBoundedBy(t, s, Bound(s))
  {
    forall tr: seq<Visit>, i: nat | IsTurn(t, s, tr) && i < |tr| && InPipeline(tr[i].node)
      ensures |tr| - i <= Bound(s)
    {
      var part := tr[i..];
      PipelinePartIsARun(t, s, tr, i);
      forall j | 0 <= j < |part| - 1 ensures DisciplinedAt(s, part, j) {
        StepsAreDisciplined(t, s, tr, i + j);
        assert DisciplinedAt(s, tr, i + j);
      }
      DisciplinedRunsAreBounded(t, s, part);
    }
  }

  /** A dialogue that never becomes clear. */
  function DialogueVisit(t: Tools, k: nat): Visit {
    var st := TurnState([Ai(true)], 0, 0, 0, false).(tuiMode := true);
    if k == 0 then Visit(LoadMemory, st, 0.0)
    else if k % 2 == 1 || !t.clarification then Visit(IntentClarification, st, 0.0)
    else Visit(ClarificationTools, st, 0.0)
  }

  /** Before the pipeline nothing counts: at any settings the dialogue of a turn can be made as long
      as one likes. */
  lemma DialoguesOfAnyLength(t: Tools, s: Settings, n: nat) returns (tr: seq<Visit>)
    ensures IsTurn(t, s, tr) && |tr| == n + 1
    ensures forall i :: 0 <= i < |tr| ==> !InPipeline(tr[i].node)
  {
    tr := seq(n + 1, k requires 0 <= k < n + 1 => DialogueVisit(t, k));
    forall i | 0 <= i < |tr| - 1 ensures StepAt(t, s, tr, i) && NodeStepAt(s, tr, i) {
      DialogueIsRouted(t, s, i);
    }
  }

  lemma DialogueIsRouted(t: Tools, s: Settings, k: nat)
    ensures Successor(t, s, DialogueVisit(t, k)) == Some(DialogueVisit(t, k + 1).node)
    ensures NodeStep(s, DialogueVisit(t, k + 1).node, DialogueVisit(t, k).st, DialogueVisit(t, k + 1).st)
  {
  }

  function TurnState(messages: seq<Message>, agent: nat, execute: nat, replans: nat, requested: bool): AgentState {
    AgentState(messages, agent, execute, 0, replans, requested, replans > 0, "", Safe,
               false, false, false, false, false, false, false, Unset, "cpu", false, false,
               "", false, RouteRetry, false, false, false, 0.0)
  }

  /** One turn that plans, replans once and then plans forever. */
  function LassoVisit(s: Settings, k: nat): Visit {
    var initial := TurnState([], 0, 0, 0, false);
    var planned := TurnState([Ai(false)], 1, 0, 0, false);
    var executed := if s.replanResetExecuteCount then 0 else 1;
    var failed := TurnState([Ai(false)], 1, executed, 1, true);
    var again := TurnState([Ai(true)], 1, executed, 1, false);
    if k == 0 then Visit(LoadMemory, initial, 0.0)
    else if k == 1 then Visit(AgentLoop, planned, 0.0)
    else if k == 2 then Visit(ExtractPlanningMetadata, planned, 0.0)
    else if k == 3 then Visit(SafetyCheck, planned, 0.0)
    else if k == 4 then Visit(BaselineCapture, planned, 0.0)
    else if k == 5 then Visit(SeSnapshot, planned, 0.0)
    else if k == 6 then Visit(ExecuteLoop, failed, 0.0)
    else if k % 2 == 1 then Visit(AgentLoop, again, 0.0)
    else Visit(Phase1Screener, again, 0.0)
  }

  lemma LassoIsRouted(t: Tools, s: Settings, k: nat)
    requires !PlanningBudgetHolds(s)
    ensures Successor(t, s, LassoVisit(s, k)) == Some(LassoVisit(s, k + 1).node)
  {
    if k < 6 {
      LassoStartIsRouted(t, s, k);
    } else {
      LassoLoopIsRouted(t, s, k);
    }
  }

  lemma LassoStartIsRouted(t: Tools, s: Settings, k: nat)
    requires !PlanningBudgetHolds(s) && k < 6
    ensures Successor(t, s, LassoVisit(s, k)) == Some(LassoVisit(s, k + 1).node)
  {
  }

  lemma LassoLoopIsRouted(t: Tools, s: Settings, k: nat)
    requires !PlanningBudgetHolds(s) && k >= 6
    ensures Successor(t, s, LassoVisit(s, k)) == Some(LassoVisit(s, k + 1).node)
  {
    if k == 6 {
      assert ShouldReplan(s, LassoVisit(s, k).st, "");
    }
  }

  lemma LassoKeepsBooks(s: Settings, k: nat)
    requires !PlanningBudgetHolds(s)
    ensures NodeStep(s, LassoVisit(s, k + 1).node, LassoVisit(s, k).st, LassoVisit(s, k + 1).st)
  {
    if k < 6 {
      LassoStartKeepsBooks(s, k);
    } else {
      LassoLoopKeepsBooks(s, k);
    }
  }

  lemma LassoStartKeepsBooks(s: Settings, k: nat)
    requires !PlanningBudgetHolds(s) && k < 6
    ensures NodeStep(s, LassoVisit(s, k + 1).node, LassoVisit(s, k).st, LassoVisit(s, k + 1).st)
  {
  }

  lemma LassoLoopKeepsBooks(s: Settings, k: nat)
    requires !PlanningBudgetHolds(s) && k >= 6
    ensures NodeStep(s, LassoVisit(s, k + 1).node, LassoVisit(s, k).st, LassoVisit(s, k + 1).st)
  {
  }

  /** Outside those settings the pipeline of a single turn can be made as long as one likes. */
  lemma PipelinesOfAnyLength(t: Tools, s: Settings, n: nat) returns (tr: seq<Visit>)
    requires !PlanningBudgetHolds(s)
    ensures IsTurn(t, s, tr) && |tr| == n + 1
    ensures forall i :: 1 <= i < |tr| ==> InPipeline(tr[i].node)
  {
    tr := seq(n + 1, k requires 0 <= k < n + 1 => LassoVisit(s, k));
    forall i | 0 <= i < |tr| - 1 ensures StepAt(t, s, tr, i) && NodeStepAt(s, tr, i) {
      LassoIsRouted(t, s, i);
      LassoKeepsBooks(s, i);
    }
  }

  /** The pipeline part of every turn is bounded if and only if the settings leave planning no second
      chance: with the default limits (100, 100 and 3) it is not. */
  lemma PipelinesTerminateExactlyWhen(t: Tools, s: Settings)
    ensures EveryPipelineTerminates(t, s) <==> PlanningBudgetHolds(s)
  {
    if PlanningBudgetHolds(s) {
      PipelinesTerminateWhenBudgetHolds(t, s);
    } else {
      forall bound: nat ensures !PipelinesBoundedBy(t, s, bound) {
        var tr := PipelinesOfAnyLength(t, s, bound + 1);
        assert InPipeline(tr[1].node);
      }
    }
  }

  // ---------------------------------------------------------------------------
  // How often a turn replans
  // ---------------------------------------------------------------------------

  predicate IsReplanEdge(u: Visit, v: Visit) {
    u.node.ExecuteLoop? && v.node.AgentLoop?
  }

  function ReplanEdges(tr: seq<Visit>): nat {
    if |tr| < 2 then 0
    else ReplanEdges(tr[..|tr| - 1]) + if IsReplanEdge(tr[|tr| - 2], tr[|tr| - 1]) then 1 else 0
  }

  /** A turn that can only be rejected: it carried an error back into planning. */
  predicate DeadEnd(v: Visit) {
    v.node.Reject? || v.node.End? || (v.node.AgentLoop? && v.st.error != "")
  }

  predicate Servable(s: Settings, v: Visit) {
    v.node.ExecuteLoop? && v.st.replanRequested && v.st.replanCount < s.maxReplanCount
  }

  /** Each replan taken so far was paid for by the replan count, but for one that an error
      triggered by itself and that leaves the turn only rejection. */
  predicate Paid(s: Settings, v: Visit, taken: nat) {
    || (taken <= v.st.replanCount && (Servable(s, v) ==> taken + 1 <= v.st.replanCount))
    || (DeadEnd(v) && taken <= s.maxReplanCount)
  }

  /** What the routers contribute: a dead end is left only for rejection, a replan has a cause and is
      below the limit, and execution is entered only from the baseline or from itself. */
  predicate ReplanRouted(s: Settings, u: Visit, n: Node) {
    && (DeadEnd(u) ==> n.Reject? || n.End?)
    && (u.node.ExecuteLoop? && n.AgentLoop? ==>
          u.st.replanCount < s.maxReplanCount && (u.st.replanRequested || u.st.error != ""))
    && (n.ExecuteLoop? ==> u.node.SeSnapshot? || u.node.ToolScreener? || u.node.Phase2Tools?)
  }

  lemma ReplansAreRouted(t: Tools, s: Settings, u: Visit, n: Node)
    requires u.st.pipelineStartedAt == 0.0 && Successor(t, s, u) == Some(n)
    ensures ReplanRouted(s, u, n)
  {
    SuccessorsAreThere(t, s, u);
    if u.node.AgentLoop? && u.st.error != "" {
      ErrorsEndPlanning(t, s, u);
    } else if u.node.ExecuteLoop? && n.AgentLoop? {
      ReplansHaveCause(t, s, u);
    }
  }

  /** One step of a turn, with the routing behind it. */
  lemma TurnStep(t: Tools, s: Settings, tr: seq<Visit>, i: nat)
    requires IsTurn(t, s, tr) && 0 < i < |tr|
    ensures TurnInvariant(s, tr[i - 1]) && NodeStep(s, tr[i].node, tr[i - 1].st, tr[i].st)
    ensures ReplanRouted(s, tr[i - 1], tr[i].node)
  {
    InvariantHolds(t, s, tr, i - 1);
    assert NodeStepAt(s, tr, i - 1);
    assert StepAt(t, s, tr, i - 1);
    ReplansAreRouted(t, s, tr[i - 1], tr[i].node);
  }

  lemma ErrorsEndPlanning(t: Tools, s: Settings, u: Visit)
    requires u.node.AgentLoop? && u.st.error != ""
    ensures Successor(t, s, u) == Some(Reject)
  {
  }

  lemma ReplansHaveCause(t: Tools, s: Settings, u: Visit)
    requires u.node.ExecuteLoop? && u.st.pipelineStartedAt == 0.0 && Successor(t, s, u) == Some(AgentLoop)
    ensures u.st.replanCount < s.maxReplanCount && (u.st.replanRequested || u.st.error != "")
  {
  }

  lemma PaidStep(s: Settings, u: Visit, v: Visit, taken: nat)
    requires TurnInvariant(s, u) && Paid(s, u, taken)
    requires NodeStep(s, v.node, u.st, v.st) && ReplanRouted(s, u, v.node)
    ensures Paid(s, v, taken + if IsReplanEdge(u, v) then 1 else 0)
  {
  }

  lemma {:induction false} ReplansArePaid(t: Tools, s: Settings, tr: seq<Visit>, i: nat)
    requires IsTurn(t, s, tr) && i < |tr|
    ensures Paid(s, tr[i], ReplanEdges(tr[..i + 1]))
  {
    if i > 0 {
      ReplansArePaid(t, s, tr, i - 1);
      TurnStep(t, s, tr, i);
      PaidStep(s, tr[i - 1], tr[i], ReplanEdges(tr[..i]));
      assert tr[..i + 1][..i] == tr[..i];
    }
  }

  /** Even where planning does not terminate, a turn replans at most max_replan_count times. */
  lemma {:induction false} ReplansAreBounded(t: Tools, s: Settings, tr: seq<Visit>)
    requires IsTurn(t, s, tr)
    ensures ReplanEdges(tr) <= if s.maxReplanCount < 0 then 0 else s.maxReplanCount
  {
    ReplansArePaid(t, s, tr, |tr| - 1);
    InvariantHolds(t, s, tr, |tr| - 1);
    assert tr[..|tr|] == tr;
  }

  /** A requested replan is counted before the router looks, so it is served only while one more
      is left. */
  lemma RequestServedExactlyWhen(s: Settings, pre: AgentState, post: AgentState, now: real)
    requires pre.pipelineStartedAt == 0.0 && ExecuteLoopStep(s, pre, post)
    requires Replans(s, pre, post, pre.executeLoopCount + 1)
    ensures ShouldContinueExecuteLoop(s, post, now) == Replanning <==>
            pre.replanCount + 1 < s.maxReplanCount
  {
    assert post.replanCount == pre.replanCount + 1;
  }

  predicate IsServedRequest(u: Visit, v: Visit) {
    IsReplanEdge(u, v) && u.st.replanRequested
  }

  function ServedRequests(tr: seq<Visit>): nat {
    if |tr| < 2 then 0
    else ServedRequests(tr[..|tr| - 1]) + if IsServedRequest(tr[|tr| - 2], tr[|tr| - 1]) then 1 else 0
  }

  /** Each request served so far was counted, one still to be served as well, and the last one
      counted is not served. */
  predicate Counted(s: Settings, v: Visit, served: nat) {
    && served <= v.st.replanCount
    && (Servable(s, v) ==> served + 1 <= v.st.replanCount)
    && (served > 0 ==> served < s.maxReplanCount)
  }

  lemma CountedStep(s: Settings, u: Visit, v: Visit, served: nat)
    requires TurnInvariant(s, u) && Counted(s, u, served)
    requires NodeStep(s, v.node, u.st, v.st) && ReplanRouted(s, u, v.node)
    ensures Counted(s, v, served + if IsServedRequest(u, v) then 1 else 0)
  {
  }

  lemma {:induction false} ServedAreCounted(t: Tools, s: Settings, tr: seq<Visit>, i: nat)
    requires IsTurn(t, s, tr) && i < |tr|
    ensures Counted(s, tr[i], ServedRequests(tr[..i + 1]))
  {
    if i > 0 {
      ServedAreCounted(t, s, tr, i - 1);
      TurnStep(t, s, tr, i);
      CountedStep(s, tr[i - 1], tr[i], ServedRequests(tr[..i]));
      assert tr[..i + 1][..i] == tr[..i];
    }
  }

  /** Over a whole turn at most max_replan_count - 1 requests are served. */
  lemma {:induction false} ServedRequestsAreBounded(t: Tools, s: Settings, tr: seq<Visit>)
    requires IsTurn(t, s, tr)
    ensures ServedRequests(tr) <= if s.maxReplanCount <= 1 then 0 else s.maxReplanCount - 1
  {
    ServedAreCounted(t, s, tr, |tr| - 1);
    assert tr[..|tr|] == tr;
  }

  /** A turn of replans: cycle c plans once, executes once and asks for a replan. */
  function CycleVisit(s: Settings, k: nat): Visit {
    if k == 0 then Visit(LoadMemory, TurnState([], 0, 0, 0, false), 0.0)
    else InCycle(s, (k - 1) / 6, (k - 1) % 6)
  }

  function InCycle(s: Settings, c: nat, r: nat): Visit {
    var planned := TurnState([Ai(false)], 1, if s.replanResetExecuteCount then 0 else c, c, false);
    var failed := TurnState([Ai(false)], 1, if s.replanResetExecuteCount then 0 else c + 1, c + 1, true);
    if r == 0 then Visit(AgentLoop, planned, 0.0)
    else if r == 1 then Visit(ExtractPlanningMetadata, planned, 0.0)
    else if r == 2 then Visit(SafetyCheck, planned, 0.0)
    else if r == 3 then Visit(BaselineCapture, planned, 0.0)
    else if r == 4 then Visit(SeSnapshot, planned, 0.0)
    else Visit(ExecuteLoop, failed, 0.0)
  }

  /** The budgets leave room for a plan and max_replan_count executions. */
  predicate RoomToReplan(s: Settings) {
    && s.maxAgentLoop >= 2 && s.maxExecuteLoop >= 1 && s.maxReplanCount >= 1
    && (s.replanResetExecuteCount || s.maxReplanCount <= s.maxExecuteLoop)
  }

  lemma CycleGoesOn(t: Tools, s: Settings, c: nat, r: nat)
    requires RoomToReplan(s) && c < s.maxReplanCount && r < 5
    ensures Successor(t, s, InCycle(s, c, r)) == Some(InCycle(s, c, r + 1).node)
    ensures NodeStep(s, InCycle(s, c, r + 1).node, InCycle(s, c, r).st, InCycle(s, c, r + 1).st)
  {
    CycleIsRouted(t, s, c, r);
    CycleKeepsBooks(s, c, r);
  }

  lemma CycleIsRouted(t: Tools, s: Settings, c: nat, r: nat)
    requires RoomToReplan(s) && r < 5
    ensures Successor(t, s, InCycle(s, c, r)) == Some(InCycle(s, c, r + 1).node)
  {
  }

  lemma CycleKeepsBooks(s: Settings, c: nat, r: nat)
    requires RoomToReplan(s) && c < s.maxReplanCount && r < 5
    ensures NodeStep(s, InCycle(s, c, r + 1).node, InCycle(s, c, r).st, InCycle(s, c, r + 1).st)
  {
  }

  lemma CycleRepeats(t: Tools, s: Settings, c: nat)
    requires RoomToReplan(s) && c + 1 < s.maxReplanCount
    ensures Successor(t, s, InCycle(s, c, 5)) == Some(InCycle(s, c + 1, 0).node)
    ensures NodeStep(s, InCycle(s, c + 1, 0).node, InCycle(s, c, 5).st, InCycle(s, c + 1, 0).st)
  {
    assert ShouldReplan(s, InCycle(s, c, 5).st, "");
  }

  lemma CycleBegins(t: Tools, s: Settings)
    requires RoomToReplan(s)
    ensures Successor(t, s, CycleVisit(s, 0)) == Some(CycleVisit(s, 1).node)
    ensures NodeStep(s, CycleVisit(s, 1).node, CycleVisit(s, 0).st, CycleVisit(s, 1).st)
  {
  }

  lemma CycleSteps(t: Tools, s: Settings, k: nat)
    requires RoomToReplan(s) && k < 6 * s.maxReplanCount
    ensures Successor(t, s, CycleVisit(s, k)) == Some(CycleVisit(s, k + 1).node)
    ensures NodeStep(s, CycleVisit(s, k + 1).node, CycleVisit(s, k).st, CycleVisit(s, k + 1).st)
  {
    if k == 0 {
      CycleBegins(t, s);
    } else if (k - 1) % 6 < 5 {
      assert k / 6 == (k - 1) / 6 && k % 6 == (k - 1) % 6 + 1;
      CycleGoesOn(t, s, (k - 1) / 6, (k - 1) % 6);
    } else {
      assert k / 6 == (k - 1) / 6 + 1 && k % 6 == 0;
      CycleRepeats(t, s, (k - 1) / 6);
    }
  }

  lemma CycleEndsAreServed(s: Settings, k: nat)
    ensures IsServedRequest(CycleVisit(s, k), CycleVisit(s, k + 1)) <==> k > 0 && k % 6 == 0
  {
    assert k > 0 ==> ((k - 1) % 6 == 5 <==> k % 6 == 0);
  }

  ghost predicate IsCycling(s: Settings, tr: seq<Visit>) {
    forall k :: 0 <= k < |tr| ==> CyclesAt(s, tr, k)
  }

  ghost predicate CyclesAt(s: Settings, tr: seq<Visit>, k: nat)
    requires k < |tr|
  {
    tr[k] == CycleVisit(s, k)
  }

  lemma CyclesServeAt(s: Settings, tr: seq<Visit>, m: nat)
    requires IsCycling(s, tr) && 0 < m < |tr|
    ensures IsServedRequest(tr[m - 1], tr[m]) <==> m > 1 && (m - 1) % 6 == 0
  {
    CycleEndsAreServed(s, m - 1);
    assert CyclesAt(s, tr, m - 1) && CyclesAt(s, tr, m);
  }

  lemma {:induction false} ServedTake(tr: seq<Visit>, m: nat)
    requires 0 < m < |tr|
    ensures ServedRequests(tr[..m + 1]) ==
            ServedRequests(tr[..m]) + if IsServedRequest(tr[m - 1], tr[m]) then 1 else 0
  {
    assert tr[..m + 1][..m] == tr[..m];
  }

  lemma {:induction false} CyclesServe(s: Settings, tr: seq<Visit>, m: nat)
    requires IsCycling(s, tr) && m < |tr|
    ensures ServedRequests(tr[..m + 1]) == Sixths(m - 1)
  {
    if m > 0 {
      CyclesServe(s, tr, m - 1);
      ServedTake(tr, m);
      CyclesServeAt(s, tr, m);
    }
  }

  /** How many multiples of six there are from one to k. */
  function Sixths(k: int): nat
    decreases if k < 0 then 0 else k
  {
    if k <= 0 then 0 else Sixths(k - 1) + if k % 6 == 0 then 1 else 0
  }

  lemma {:induction false} SixthsInCycles(cycles: nat)
    ensures Sixths(6 * cycles + 5) == cycles
  {
    if cycles > 0 {
      SixthsInCycles(cycles - 1);
      var k := 6 * cycles;
      assert Sixths(k) == Sixths(k - 1) + 1;
      assert Sixths(k + 1) == Sixths(k) && Sixths(k + 2) == Sixths(k + 1) && Sixths(k + 3) == Sixths(k + 2);
      assert Sixths(k + 4) == Sixths(k + 3) && Sixths(k + 5) == Sixths(k + 4);
    } else {
      assert Sixths(2) == 0;
      assert Sixths(5) == Sixths(4) == Sixths(3) == Sixths(2);
    }
  }

  /** The bound is reached: where the budgets leave room, a turn serves max_replan_count - 1 requests,
      and then counts one more that is not served. */
  lemma ServedBoundIsReached(t: Tools, s: Settings) returns (tr: seq<Visit>)
    requires RoomToReplan(s)
    ensures IsTurn(t, s, tr) && ServedRequests(tr) == s.maxReplanCount - 1
    ensures CountedNotServed(t, s, tr[|tr| - 1])
  {
    tr := Cycles(s, s.maxReplanCount);
    CyclesAreATurn(t, s, tr);
    CyclesServeAllButOne(s, tr, s.maxReplanCount);
    assert CyclesAt(s, tr, |tr| - 1);
    LastRequestIsNotServed(t, s, tr[|tr| - 1]);
  }

  function Cycles(s: Settings, cycles: nat): (tr: seq<Visit>)
    ensures |tr| == 6 * cycles + 1 && IsCycling(s, tr)
  {
    seq(6 * cycles + 1, k requires 0 <= k < 6 * cycles + 1 => CycleVisit(s, k))
  }

  predicate CountedNotServed(t: Tools, s: Settings, v: Visit) {
    && v.node == ExecuteLoop && v.st.replanRequested && v.st.replanCount == s.maxReplanCount
    && Successor(t, s, v) != Some(AgentLoop)
  }

  lemma {:induction false} CyclesServeAllButOne(s: Settings, tr: seq<Visit>, cycles: nat)
    requires cycles > 0 && |tr| == 6 * cycles + 1 && IsCycling(s, tr)
    ensures ServedRequests(tr) == cycles - 1
  {
    ServedWhole(tr, 6 * cycles);
    CyclesServe(s, tr, 6 * cycles);
    SixthsInCycles(cycles - 1);
  }

  lemma {:induction false} ServedWhole(tr: seq<Visit>, m: nat)
    requires |tr| == m + 1
    ensures ServedRequests(tr[..m + 1]) == ServedRequests(tr)
  {
    assert tr[..m + 1] == tr;
  }

  lemma CyclesAreATurn(t: Tools, s: Settings, tr: seq<Visit>)
    requires RoomToReplan(s) && 0 < |tr| <= 6 * s.maxReplanCount + 1
    requires IsCycling(s, tr)
    ensures IsTurn(t, s, tr)
  {
    assert CyclesAt(s, tr, 0);
    forall i | 0 <= i < |tr| - 1 ensures StepAt(t, s, tr, i) && NodeStepAt(s, tr, i) {
      assert CyclesAt(s, tr, i) && CyclesAt(s, tr, i + 1);
      CycleSteps(t, s, i);
    }
  }

  lemma LastRequestIsNotServed(t: Tools, s: Settings, last: Visit)
    requires RoomToReplan(s) && last == CycleVisit(s, 6 * s.maxReplanCount)
    ensures CountedNotServed(t, s, last)
  {
    var k := 6 * s.maxReplanCount;
    assert (k - 1) / 6 == s.maxReplanCount - 1 && (k - 1) % 6 == 5;
    if Successor(t, s, last) == Some(AgentLoop) {
      ReplansHaveCause(t, s, last);
    }
  }

  // ---------------------------------------------------------------------------
  // Only planning is unbounded
  // ---------------------------------------------------------------------------

  predicate IsPlanning(n: Node) {
    || n.AgentLoop? || n.Phase1Screener? || n.Phase1Tools? || n.PlanChangeConfirm?
    || n.ExtractPlanningMetadata?
  }

  /** The visits that do something after planning: safety, execution, verification, the way out. */
  predicate IsWork(n: Node) {
    InPipeline(n) && !IsPlanning(n)
  }

  /** The position within a cycle, all of planning taken as one. */
  function WorkPosition(s: Settings, v: Visit): nat {
    if !InPipeline(v.node) then 13
    else if v.node.AgentLoop? && v.st.error != "" then 2
    else if IsPlanning(v.node) then 9
    else Position(s, v)
  }

  /** The measure without the planning budget. */
  function WorkRank(s: Settings, v: Visit): Rank {
    Rank(Left(s.maxReplanCount, v.st.replanCount),
         if v.st.replanRequested then 1 else 0,
         0,
         ExecuteLeft(s, v),
         Left(s.maxVerifierLoop, v.st.verifierLoopCount),
         WorkPosition(s, v))
  }

  predicate NotAbove(x: Rank, y: Rank) {
    x == y || Below(x, y)
  }

  /** Work after work: the budgets of everything but planning are honest. */
  lemma WorkDescends(t: Tools, s: Settings, u: Visit, v: Visit)
    requires IsWork(u.node) && IsWork(v.node) && Successor(t, s, u) == Some(v.node)
    requires TurnInvariant(s, u) && NodeStep(s, v.node, u.st, v.st)
    ensures Below(WorkRank(s, v), WorkRank(s, u))
  {
    BudgetsHonouredExceptWindBack(s, u, v);
    DisciplinedStepsDescend(t, s, u, v);
    AgentCountIsKept(s, u, v);
  }

  lemma AgentCountIsKept(s: Settings, u: Visit, v: Visit)
    requires IsWork(v.node) && NodeStep(s, v.node, u.st, v.st)
    ensures v.st.agentLoopCount == u.st.agentLoopCount
  {
  }

  /** Into work from planning or from the dialogue. */
  lemma WorkBeginsLower(s: Settings, u: Visit, v: Visit)
    requires !IsWork(u.node) && IsWork(v.node) && CanStep(u.node, v.node) && ReplanRouted(s, u, v.node)
    requires NodeStep(s, v.node, u.st, v.st)
    ensures Below(WorkRank(s, v), WorkRank(s, u))
  {
  }

  /** Planning costs nothing, and is entered from work only on the replan edge, which costs a request
      or leaves only rejection. */
  lemma PlanningIsNotAbove(s: Settings, u: Visit, v: Visit)
    requires !IsWork(v.node) && CanStep(u.node, v.node) && ReplanRouted(s, u, v.node) && Routed(s, u, v.node)
    requires TurnInvariant(s, u) && NodeStep(s, v.node, u.st, v.st)
    ensures NotAbove(WorkRank(s, v), WorkRank(s, u))
  {
  }

  lemma WorkRankFits(s: Settings, v: Visit)
    ensures Fits(s.(maxAgentLoop := 0), WorkRank(s, v))
  {
  }

  function Remaining(s: Settings, v: Visit): nat {
    Number(s.(maxAgentLoop := 0), WorkRank(s, v))
  }

  lemma WorkStep(t: Tools, s: Settings, tr: seq<Visit>, i: nat)
    requires IsTurn(t, s, tr) && 0 < i < |tr|
    ensures if IsWork(tr[i].node) then Below(WorkRank(s, tr[i]), WorkRank(s, tr[i - 1]))
            else NotAbove(WorkRank(s, tr[i]), WorkRank(s, tr[i - 1]))
  {
    var u, v := tr[i - 1], tr[i];
    TurnStep(t, s, tr, i);
    RoutedAt(t, s, tr, i);
    assert StepAt(t, s, tr, i - 1);
    SuccessorsAreThere(t, s, u);
    if !IsWork(v.node) {
      PlanningIsNotAbove(s, u, v);
    } else if IsWork(u.node) {
      WorkDescends(t, s, u, v);
    } else {
      WorkBeginsLower(s, u, v);
    }
  }

  lemma WorkCountsDown(t: Tools, s: Settings, tr: seq<Visit>, i: nat)
    requires IsTurn(t, s, tr) && 0 < i < |tr|
    ensures Remaining(s, tr[i]) + (if IsWork(tr[i].node) then 1 else 0) <= Remaining(s, tr[i - 1])
  {
    WorkStep(t, s, tr, i);
    WorkRankFits(s, tr[i - 1]);
    WorkRankFits(s, tr[i]);
    if WorkRank(s, tr[i]) != WorkRank(s, tr[i - 1]) {
      NumberDescends(s.(maxAgentLoop := 0), WorkRank(s, tr[i]), WorkRank(s, tr[i - 1]));
    }
  }

  function WorkVisits(tr: seq<Visit>): nat {
    if tr == [] then 0
    else WorkVisits(tr[..|tr| - 1]) + if IsWork(tr[|tr| - 1].node) then 1 else 0
  }

  lemma {:induction false} WorkIsPaid(t: Tools, s: Settings, tr: seq<Visit>, i: nat)
    requires IsTurn(t, s, tr) && i < |tr|
    ensures WorkVisits(tr[..i + 1]) + Remaining(s, tr[i]) <= Remaining(s, tr[0])
  {
    assert tr[..i + 1][..i] == tr[..i];
    if i > 0 {
      WorkIsPaid(t, s, tr, i - 1);
      WorkCountsDown(t, s, tr, i);
    }
  }

  /** At any settings, every turn has fewer visits outside planning than fourteen for each combination
      of the replan, execution and verifier budgets: where a pipeline is unbounded, only planning is. */
  lemma {:induction false} OnlyPlanningIsUnbounded(t: Tools, s: Settings, tr: seq<Visit>)
    requires IsTurn(t, s, tr)
    ensures WorkVisits(tr) < Bound(s.(maxAgentLoop := 0))
  {
    WorkIsPaid(t, s, tr, |tr| - 1);
    assert tr[..|tr|] == tr;
    WorkRankFits(s, tr[0]);
    NumberBounded(s.(maxAgentLoop := 0), WorkRank(s, tr[0]));
  }
}
