/** The wall-clock budget of the inject pipeline: once it is exceeded the run ends within a
    fixed number of edges, whatever the nodes write. */
module WallClock {
  import opened Wrappers
  import opened Router
  import opened InjectGraph

  /** The nodes at or after planning, that is all but the dialogue with the user. */
  predicate InPipeline(n: Node) {
    !(|| n.LoadMemory? || n.IntentClarification? || n.ClarificationTools? || n.PlanBuilder?
      || n.PlanBuilderTools? || n.IntentConfirm? || n.RecoverHandler?)
  }

  /** The most edges from a node to the end after the clock ran out. */
  function Distance(n: Node): nat {
    match n
    case End => 0
    case SaveMemory => 1
    case Reject => 1
    case AgentLoop => 2
    case ExecuteLoop => 2
    case SeDetect => 2
    case VerifierLoop => 3
    case PlanChangeConfirm => 3
    case Phase2Tools => 3
    case FinalizeVerification => 4
    case DirectExecute => 4
    case ToolScreener => 4
    case VerifierTools => 5
    case SeSnapshot => 5
    case BaselineCapture => 6
    case ConfirmationGate => 7
    case SafetyCheck => 8
    case DirectSetup => 9
    case ExtractPlanningMetadata => 9
    case Phase1Tools => 10
    case Phase1Screener => 11
    case _ => 12
  }

  /** Every cycle is cut: with the clock exceeded each edge leads strictly closer to the end. */
  lemma ExceededStepsTowardsEnd(t: Tools, s: Settings, v: Visit, n: Node)
    requires InPipeline(v.node) && WallClockExceeded(s, v.st, v.now)
    requires Successor(t, s, v) == Some(n)
    ensures InPipeline(n) && Distance(n) < Distance(v.node)
  {
    if v.node.AgentLoop? || v.node.ExecuteLoop? || v.node.VerifierLoop? {
      LoopsStepTowardsEnd(t, s, v, n);
    } else {
      SuccessorsAreThere(t, s, v);
      OthersStepTowardsEnd(v.node, n);
    }
  }

  lemma LoopsStepTowardsEnd(t: Tools, s: Settings, v: Visit, n: Node)
    requires v.node.AgentLoop? || v.node.ExecuteLoop? || v.node.VerifierLoop?
    requires WallClockExceeded(s, v.st, v.now)
    requires Successor(t, s, v) == Some(n)
    ensures InPipeline(n) && Distance(n) < Distance(v.node)
  {
  }

  lemma OthersStepTowardsEnd(n: Node, next: Node)
    requires InPipeline(n) && !n.AgentLoop? && !n.ExecuteLoop? && !n.VerifierLoop?
    requires CanStep(n, next)
    ensures InPipeline(next) && Distance(next) < Distance(n)
  {
  }

  /** The clock does not run backwards and the start stamp is kept. */
  ghost predicate ClockKept(tr: seq<Visit>) {
    && (forall i, j :: 0 <= i <= j < |tr| ==> tr[i].now <= tr[j].now)
    && (forall i, j :: 0 <= i <= j < |tr| ==> tr[i].st.pipelineStartedAt == tr[j].st.pipelineStartedAt)
  }

  /** After the budget is exceeded at visit i, at most eleven more edges are taken. */
  lemma {:induction false} EndsWithinElevenEdges(t: Tools, s: Settings, tr: seq<Visit>, i: nat)
    requires IsRun(t, s, tr) && ClockKept(tr)
    requires i < |tr| && InPipeline(tr[i].node)
    requires WallClockExceeded(s, tr[i].st, tr[i].now)
    ensures |tr| - 1 - i <= Distance(tr[i].node) <= 11
    ensures Successor(t, s, tr[|tr| - 1]).None? ==>
              || tr[|tr| - 1].node == End
              || (tr[|tr| - 1].node == Phase1Screener && tr[|tr| - 1].st.screenerRoute == RouteReplan)
    decreases |tr| - i
  {
    RoutersStayInTheirTables(t, s, tr[|tr| - 1]);
    if i < |tr| - 1 {
      assert StepAt(t, s, tr, i);
      ExceededStepsTowardsEnd(t, s, tr[i], tr[i + 1].node);
      assert tr[i].now <= tr[i + 1].now;
      assert tr[i].st.pipelineStartedAt == tr[i + 1].st.pipelineStartedAt;
      EndsWithinElevenEdges(t, s, tr, i + 1);
    }
  }

  /** Eleven is exact: some exceeded run does take eleven edges. */
  lemma ElevenEdgesHappen(t: Tools) returns (s: Settings, tr: seq<Visit>)
    ensures IsRun(t, s, tr) && ClockKept(tr)
    ensures InPipeline(tr[0].node) && WallClockExceeded(s, tr[0].st, tr[0].now)
    ensures |tr| == 12 && tr[11].node == End
  {
    s := Settings(100, 100, 60, 60, 3, true, true, 600);
    var st := AgentState([Tool(FINISH_PLANNING, false)], 1, 0, 0, 0, false, false, "", Warning,
                         false, false, true, false, false, false, false, Unset, "cpu", false, false,
                         "uid", false, RoutePass, false, false, false, 1.0);
    tr := seq(12, i requires 0 <= i < 12 => Visit(LongestWay(i), st, 1000.0));
    forall i | 0 <= i < 11 ensures StepAt(t, s, tr, i) {
      LongestWayIsTaken(t, s, Visit(LongestWay(i), st, 1000.0), i);
    }
  }

  /** The nodes from the planning screener to the end along the direct path. */
  function LongestWay(i: nat): Node {
    if i == 0 then Phase1Screener
    else if i == 1 then Phase1Tools
    else if i == 2 then ExtractPlanningMetadata
    else if i == 3 then SafetyCheck
    else if i == 4 then ConfirmationGate
    else if i == 5 then BaselineCapture
    else if i == 6 then SeSnapshot
    else if i == 7 then DirectExecute
    else if i == 8 then VerifierLoop
    else if i == 9 then SeDetect
    else if i == 10 then SaveMemory
    else End
  }

  lemma LongestWayIsTaken(t: Tools, s: Settings, v: Visit, i: nat)
    requires i < 11 && v.node == LongestWay(i) && WallClockExceeded(s, v.st, v.now)
    requires v.st.messages == [Tool(FINISH_PLANNING, false)] && v.st.screenerRoute == RoutePass
    requires v.st.direct && !v.st.dryRun && v.st.safetyStatus == Warning && v.st.bladeUid != ""
    requires v.st.error == "" && v.st.skillName != "" && !v.st.planningRejected
    ensures Successor(t, s, v) == Some(LongestWay(i + 1))
  {
  }
}
