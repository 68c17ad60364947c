/** Bounded runs of the inject pipeline. The nodes may write anything except that the loop
    nodes keep an honest account of their budgets; every run is then shorter than an explicit
    bound in the configured limits. */
module Termination {
  import opened Wrappers
  import opened Router
  import opened InjectGraph
  import opened WallClock

  /** A counter is raised, or was already past its limit and is not lowered. */
  predicate Spends(limit: int, before: nat, after: nat) {
    after > before || (before >= limit && after >= before)
  }

  /** What termination needs of the update a node makes to the state.
      - Planning and execution each spend one unit of their budget per visit.
      - Execution may instead start over, by raising a replan count that is below its limit.
      - Planning may instead start over, by consuming the request such a replan left behind.
      - A verifier visit spends one unit or delivers a verdict, and past its limit it delivers.
      - No other node gives budget back. */
  predicate Disciplined(s: Settings, n: Node, pre: AgentState, post: AgentState) {
    && post.replanCount >= pre.replanCount
    && post.verifierLoopCount >= pre.verifierLoopCount
    && (n.ExecuteLoop? || (post.replanRequested ==> pre.replanRequested))
    && (n.AgentLoop? || post.agentLoopCount >= pre.agentLoopCount)
    && (n.ExecuteLoop? || n.DirectExecute? || post.executeLoopCount >= pre.executeLoopCount)
    && (n.AgentLoop? ==>
          || (pre.replanRequested && !post.replanRequested)
          || Spends(s.maxAgentLoop, pre.agentLoopCount, post.agentLoopCount))
    && (n.ExecuteLoop? ==>
          || (pre.replanCount < s.maxReplanCount && post.replanCount > pre.replanCount)
          || ((post.replanRequested ==> pre.replanRequested) &&
              Spends(s.maxExecuteLoop, pre.executeLoopCount, post.executeLoopCount)))
    && (n.VerifierLoop? ==>
          || post.verification
          || (pre.verifierLoopCount < s.maxVerifierLoop &&
              post.verifierLoopCount > pre.verifierLoopCount))
  }

  ghost predicate DisciplinedAt(s: Settings, tr: seq<Visit>, i: nat)
    requires i < |tr| - 1
  {
    Disciplined(s, tr[i + 1].node, tr[i].st, tr[i + 1].st)
  }

  /** A run of the pipeline: it starts anywhere in it, or at load_memory on the way into it. */
  ghost predicate IsPipelineRun(t: Tools, s: Settings, tr: seq<Visit>) {
    && IsRun(t, s, tr)
    && (tr[0].node == LoadMemory || InPipeline(tr[0].node))
    && forall i :: 1 <= i < |tr| ==> InPipeline(tr[i].node)
  }

  // ---------------------------------------------------------------------------
  // The lexicographic measure
  // ---------------------------------------------------------------------------

  function Left(limit: int, used: nat): nat {
    if used < limit then limit - used else 0
  }

  /** Behind execution no budget of the execution loop matters any more. */
  predicate Late(n: Node) {
    || n.DirectExecute? || n.VerifierLoop? || n.VerifierTools? || n.FinalizeVerification?
    || n.SeDetect? || n.SaveMemory? || n.Reject? || n.End?
  }

  datatype Rank = Rank(replans: nat, request: nat, agent: nat, execute: nat, verifier: nat, position: nat)

  function ExecuteLeft(s: Settings, v: Visit): nat {
    if Late(v.node) then 0 else Left(s.maxExecuteLoop, v.st.executeLoopCount)
  }

  /** The position within a cycle, high for a loop node that may still go round. */
  function Position(s: Settings, v: Visit): nat {
    match v.node
    case LoadMemory => 13
    case AgentLoop => if Left(s.maxAgentLoop, v.st.agentLoopCount) == 0 then 2 else 12
    case ExecuteLoop => if ExecuteLeft(s, v) == 0 then 3 else 6
    case VerifierLoop => if v.st.verification then 3 else 6
    case Phase2Tools => 4
    case ToolScreener => 5
    case n => Distance(n)
  }

  function RankOf(s: Settings, v: Visit): Rank {
    Rank(Left(s.maxReplanCount, v.st.replanCount),
         if v.st.replanRequested then 1 else 0,
         Left(s.maxAgentLoop, v.st.agentLoopCount),
         ExecuteLeft(s, v),
         Left(s.maxVerifierLoop, v.st.verifierLoopCount),
         Position(s, v))
  }

  predicate Below(x: Rank, y: Rank) {
    x.replans < y.replans || (x.replans == y.replans &&
    (x.request < y.request || (x.request == y.request &&
    (x.agent < y.agent || (x.agent == y.agent &&
    (x.execute < y.execute || (x.execute == y.execute &&
    (x.verifier < y.verifier || (x.verifier == y.verifier &&
     x.position < y.position)))))))))
  }

  /** Where the edges into the loop nodes come from, and that all other edges lower the position. */
  predicate LowersPosition(s: Settings, u: Visit, v: Visit) {
    match v.node
    case AgentLoop => Position(s, u) > 2 && !Late(u.node)
    case ExecuteLoop => Position(s, u) > 3 && !Late(u.node)
    case VerifierLoop => Position(s, u) > 3
    case _ => Position(s, v) < Position(s, u) && (Late(u.node) ==> Late(v.node))
  }

  lemma EdgesLowerPosition(t: Tools, s: Settings, u: Visit, v: Visit)
    requires u.node == LoadMemory || InPipeline(u.node)
    requires Successor(t, s, u) == Some(v.node) && InPipeline(v.node)
    ensures LowersPosition(s, u, v)
  {
    match u.node
    case AgentLoop => PlanningEdgesLowerPosition(t, s, u, v);
    case ExecuteLoop => ExecutionEdgesLowerPosition(t, s, u, v);
    case VerifierLoop => VerifierEdgesLowerPosition(t, s, u, v);
    case _ =>
      SuccessorsAreThere(t, s, u);
      OtherEdgesLowerPosition(s, u, v);
  }

  lemma PlanningEdgesLowerPosition(t: Tools, s: Settings, u: Visit, v: Visit)
    requires u.node.AgentLoop? && Successor(t, s, u) == Some(v.node)
    ensures LowersPosition(s, u, v)
  {
  }

  lemma ExecutionEdgesLowerPosition(t: Tools, s: Settings, u: Visit, v: Visit)
    requires u.node.ExecuteLoop? && Successor(t, s, u) == Some(v.node)
    ensures LowersPosition(s, u, v)
  {
  }

  lemma VerifierEdgesLowerPosition(t: Tools, s: Settings, u: Visit, v: Visit)
    requires u.node.VerifierLoop? && Successor(t, s, u) == Some(v.node)
    ensures LowersPosition(s, u, v)
  {
  }

  lemma OtherEdgesLowerPosition(s: Settings, u: Visit, v: Visit)
    requires u.node == LoadMemory || InPipeline(u.node)
    requires !u.node.AgentLoop? && !u.node.ExecuteLoop? && !u.node.VerifierLoop?
    requires CanStep(u.node, v.node) && InPipeline(v.node)
    ensures LowersPosition(s, u, v)
  {
  }

  lemma LoopVisitsDescend(s: Settings, u: Visit, v: Visit)
    requires Disciplined(s, v.node, u.st, v.st)
    requires (v.node.AgentLoop? || v.node.ExecuteLoop? || v.node.VerifierLoop?) && LowersPosition(s, u, v)
    ensures Below(RankOf(s, v), RankOf(s, u))
  {
  }

  /** Every edge taken by disciplined nodes lowers the measure. */
  lemma DisciplinedStepsDescend(t: Tools, s: Settings, u: Visit, v: Visit)
    requires u.node == LoadMemory || InPipeline(u.node)
    requires InPipeline(v.node)
    requires Successor(t, s, u) == Some(v.node)
    requires Disciplined(s, v.node, u.st, v.st)
    ensures Below(RankOf(s, v), RankOf(s, u))
  {
    EdgesLowerPosition(t, s, u, v);
    if v.node.AgentLoop? || v.node.ExecuteLoop? || v.node.VerifierLoop? {
      LoopVisitsDescend(s, u, v);
    }
  }

  // ---------------------------------------------------------------------------
  // The measure as one number, and the bound
  // ---------------------------------------------------------------------------

  function Digit(high: nat, low: nat, base: nat): nat { high * base + low }

  lemma DigitDescends(high: nat, low: nat, high': nat, low': nat, base: nat)
    requires low < base && low' < base
    requires high' < high || (high' == high && low' < low)
    ensures Digit(high', low', base) < Digit(high, low, base)
  {
    if high' < high {
      assert (high' + 1) * base <= high * base;
    }
  }

  lemma DigitBounded(high: nat, low: nat, highs: nat, base: nat)
    requires high < highs && low < base
    ensures Digit(high, low, base) < highs * base
  {
    assert (high + 1) * base <= highs * base;
  }

  function Radix(limit: int): nat { if limit < 0 then 1 else limit + 1 }

  ghost predicate Fits(s: Settings, r: Rank) {
    && r.replans < Radix(s.maxReplanCount) && r.request < 2
    && r.agent < Radix(s.maxAgentLoop) && r.execute < Radix(s.maxExecuteLoop)
    && r.verifier < Radix(s.maxVerifierLoop) && r.position < 14
  }

  function Planning(s: Settings, r: Rank): nat {
    Digit(Digit(r.replans, r.request, 2), r.agent, Radix(s.maxAgentLoop))
  }

  function Number(s: Settings, r: Rank): nat {
    Digit(Digit(Digit(Planning(s, r), r.execute, Radix(s.maxExecuteLoop)),
                r.verifier, Radix(s.maxVerifierLoop)),
          r.position, 14)
  }

  /** The bound: fourteen positions for every combination of remaining budgets. */
  function Bound(s: Settings): nat {
    Radix(s.maxReplanCount) * 2 * Radix(s.maxAgentLoop) * Radix(s.maxExecuteLoop)
    * Radix(s.maxVerifierLoop) * 14
  }

  lemma NumberDescends(s: Settings, x: Rank, y: Rank)
    requires Fits(s, x) && Fits(s, y) && Below(x, y)
    ensures Number(s, x) < Number(s, y)
  {
    var a, e, v := Radix(s.maxAgentLoop), Radix(s.maxExecuteLoop), Radix(s.maxVerifierLoop);
    var x1, y1 := Digit(x.replans, x.request, 2), Digit(y.replans, y.request, 2);
    var x2, y2 := Digit(x1, x.agent, a), Digit(y1, y.agent, a);
    var x3, y3 := Digit(x2, x.execute, e), Digit(y2, y.execute, e);
    var x4, y4 := Digit(x3, x.verifier, v), Digit(y3, y.verifier, v);
    if x1 < y1 || (x1 == y1 && x.agent < y.agent) { DigitDescends(y1, y.agent, x1, x.agent, a); }
    if x2 < y2 || (x2 == y2 && x.execute < y.execute) { DigitDescends(y2, y.execute, x2, x.execute, e); }
    if x3 < y3 || (x3 == y3 && x.verifier < y.verifier) { DigitDescends(y3, y.verifier, x3, x.verifier, v); }
    DigitDescends(y4, y.position, x4, x.position, 14);
  }

  lemma NumberBounded(s: Settings, r: Rank)
    requires Fits(s, r)
    ensures Number(s, r) < Bound(s)
  {
    var k, a := Radix(s.maxReplanCount), Radix(s.maxAgentLoop);
    var e, v := Radix(s.maxExecuteLoop), Radix(s.maxVerifierLoop);
    DigitBounded(r.replans, r.request, k, 2);
    DigitBounded(Digit(r.replans, r.request, 2), r.agent, k * 2, a);
    DigitBounded(Planning(s, r), r.execute, k * 2 * a, e);
    var x3 := Digit(Planning(s, r), r.execute, e);
    DigitBounded(x3, r.verifier, k * 2 * a * e, v);
    DigitBounded(Digit(x3, r.verifier, v), r.position, k * 2 * a * e * v, 14);
  }

  lemma RankFits(s: Settings, v: Visit)
    ensures Fits(s, RankOf(s, v))
  {
  }

  lemma CountsDownAt(t: Tools, s: Settings, tr: seq<Visit>, i: nat)
    requires IsPipelineRun(t, s, tr)
    requires 0 < i < |tr| && DisciplinedAt(s, tr, i - 1)
    ensures Number(s, RankOf(s, tr[i])) < Number(s, RankOf(s, tr[i - 1]))
  {
    assert Below(RankOf(s, tr[i]), RankOf(s, tr[i - 1])) by {
      assert StepAt(t, s, tr, i - 1);
      DisciplinedStepsDescend(t, s, tr[i - 1], tr[i]);
    }
    RankFits(s, tr[i - 1]);
    RankFits(s, tr[i]);
    NumberDescends(s, RankOf(s, tr[i]), RankOf(s, tr[i - 1]));
  }

  lemma {:induction false} CountdownIsShort(counts: seq<nat>)
    requires counts != []
    requires forall i :: 0 < i < |counts| ==> counts[i] < counts[i - 1]
    ensures |counts| <= counts[0] + 1
    decreases |counts|
  {
    if |counts| > 1 {
      CountdownIsShort(counts[1..]);
    }
  }

  /** Every run of disciplined nodes is bounded, through all nested loops and replans. */
  lemma DisciplinedRunsAreBounded(t: Tools, s: Settings, tr: seq<Visit>)
    requires IsPipelineRun(t, s, tr)
    requires forall j :: 0 <= j < |tr| - 1 ==> DisciplinedAt(s, tr, j)
    ensures |tr| <= Bound(s)
  {
    var counts := seq(|tr|, i requires 0 <= i < |tr| => Number(s, RankOf(s, tr[i])));
    forall i | 0 < i < |tr| ensures counts[i] < counts[i - 1] {
      CountsDownAt(t, s, tr, i);
    }
    CountdownIsShort(counts);
    RankFits(s, tr[0]);
    NumberBounded(s, RankOf(s, tr[0]));
  }
}
