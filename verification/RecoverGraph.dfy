/** The recover graph (build_recover_graph in blade-ai/src/chaos_agent/agent/graph.py): a verifier
    loop, its tools and a finalizer. */
module RecoverGraph {
  import opened Wrappers
  import opened Router
  import Termination

  datatype RecoverNode = RecoverVerifierLoop | RecoverVerifierTools | FinalizeRecoverVerification | RecoverEnd

  datatype RecoverVisit = RecoverVisit(node: RecoverNode, st: AgentState, now: real)

  function RecoverSuccessor(verifierTools: bool, s: Settings, v: RecoverVisit): Option<RecoverNode> {
    match v.node
    case RecoverVerifierLoop =>
      (match ShouldContinueRecoverVerifier(s, v.st, v.now)
       case Continue => Some(if verifierTools then RecoverVerifierTools else FinalizeRecoverVerification)
       case Finalize => Some(FinalizeRecoverVerification)
       case Done => Some(RecoverEnd)
       case _ => None)
    case RecoverVerifierTools =>
      if BatchSubmitted(v.st.messages, SUBMIT_RECOVER_VERIFICATION)
      then Some(FinalizeRecoverVerification) else Some(RecoverVerifierLoop)
    case FinalizeRecoverVerification =>
      if RouteAfterRecoverFinalizeIsDone(v.st) then Some(RecoverEnd) else Some(RecoverVerifierLoop)
    case RecoverEnd => None
  }

  ghost predicate RecoverStepAt(verifierTools: bool, s: Settings, tr: seq<RecoverVisit>, i: nat)
    requires i < |tr| - 1
  {
    RecoverSuccessor(verifierTools, s, tr[i]) == Some(tr[i + 1].node)
  }

  ghost predicate IsRecoverRun(verifierTools: bool, s: Settings, tr: seq<RecoverVisit>) {
    && tr != [] && tr[0].node == RecoverVerifierLoop
    && forall i :: 0 <= i < |tr| - 1 ==> RecoverStepAt(verifierTools, s, tr, i)
  }

  /** The graph stops nowhere but at its end. */
  lemma RecoverRunsStopOnlyAtEnd(verifierTools: bool, s: Settings, v: RecoverVisit)
    ensures RecoverSuccessor(verifierTools, s, v).None? <==> v.node == RecoverEnd
  {
  }

  /** The only ways a recover run may end. */
  predicate EndJustified(s: Settings, v: RecoverVisit) {
    || v.st.recoverVerification
    || WallClockExceeded(s, v.st, v.now)
    || (v.st.verifierLoopCount >= s.maxRecoverVerifierLoop && !v.st.layer2ContextAdded)
  }

  /** A recover run ends exactly when it has a verdict, the clock ran out, or the loop budget was
      spent before Layer 2 began; the latter two only where the loop itself decides. */
  lemma RecoverEndsExactlyWhen(verifierTools: bool, s: Settings, v: RecoverVisit)
    ensures RecoverSuccessor(verifierTools, s, v) == Some(RecoverEnd) <==>
            || (v.node == RecoverVerifierLoop && EndJustified(s, v))
            || (v.node == FinalizeRecoverVerification && v.st.recoverVerification)
  {
  }

  /** What every node must account for: a loop visit spends one unit or delivers a verdict, past
      its limit it delivers; nothing gives budget back. */
  predicate RecoverDisciplined(s: Settings, n: RecoverNode, pre: AgentState, post: AgentState) {
    && post.verifierLoopCount >= pre.verifierLoopCount
    && (n.RecoverVerifierLoop? ==>
          || post.recoverVerification
          || (pre.verifierLoopCount < s.maxRecoverVerifierLoop &&
              post.verifierLoopCount > pre.verifierLoopCount))
  }

  ghost predicate RecoverDisciplinedAt(s: Settings, tr: seq<RecoverVisit>, i: nat)
    requires i < |tr| - 1
  {
    RecoverDisciplined(s, tr[i + 1].node, tr[i].st, tr[i + 1].st)
  }

  function Remaining(s: Settings, v: RecoverVisit): nat {
    5 * Termination.Left(s.maxRecoverVerifierLoop, v.st.verifierLoopCount) +
    match v.node
    case RecoverEnd => 0
    case FinalizeRecoverVerification => 2
    case RecoverVerifierTools => 3
    case RecoverVerifierLoop => if v.st.recoverVerification then 1 else 4
  }

  lemma RecoverStepDescends(verifierTools: bool, s: Settings, u: RecoverVisit, v: RecoverVisit)
    requires RecoverSuccessor(verifierTools, s, u) == Some(v.node)
    requires RecoverDisciplined(s, v.node, u.st, v.st)
    ensures Remaining(s, v) < Remaining(s, u)
  {
  }

  lemma {:induction false} RecoverRemaining(
      verifierTools: bool, s: Settings, tr: seq<RecoverVisit>, i: nat)
    requires IsRecoverRun(verifierTools, s, tr) && i < |tr|
    requires forall j :: 0 <= j < |tr| - 1 ==> RecoverDisciplinedAt(s, tr, j)
    ensures |tr| - 1 - i <= Remaining(s, tr[i])
    decreases |tr| - i
  {
    if i < |tr| - 1 {
      RecoverRemaining(verifierTools, s, tr, i + 1);
      assert RecoverStepAt(verifierTools, s, tr, i) && RecoverDisciplinedAt(s, tr, i);
      RecoverStepDescends(verifierTools, s, tr[i], tr[i + 1]);
    }
  }

  /** Every recover run that ended did so for one of the three reasons, whatever its nodes wrote. */
  lemma RecoverEndIsJustified(verifierTools: bool, s: Settings, tr: seq<RecoverVisit>)
    requires IsRecoverRun(verifierTools, s, tr) && tr[|tr| - 1].node == RecoverEnd
    ensures |tr| >= 2 && EndJustified(s, tr[|tr| - 2])
  {
    assert RecoverStepAt(verifierTools, s, tr, |tr| - 2);
  }

  /** Every recover run of disciplined nodes is bounded. */
  lemma RecoverRunsAreBounded(verifierTools: bool, s: Settings, tr: seq<RecoverVisit>)
    requires IsRecoverRun(verifierTools, s, tr)
    requires forall j :: 0 <= j < |tr| - 1 ==> RecoverDisciplinedAt(s, tr, j)
    ensures |tr| <= 5 * Termination.Radix(s.maxRecoverVerifierLoop)
  {
    RecoverRemaining(verifierTools, s, tr, 0);
  }
}
