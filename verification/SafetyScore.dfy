/** The numeric safety score (blade-ai/src/chaos_agent/agent/safety_score.py) and the status it
    escalates. Weights are exact reals and rounding is half to even, as Python's round. */
module SafetyScore {
  import opened Router
  import opened Text

  datatype FaultSpec = FaultSpec(
    scope: string, names: seq<string>, hasLabels: bool, namespace: string, durationSeconds: int)

  /** The caller's signals. A missing deep signal is a bonus of zero. */
  datatype Context = Context(
    conflicts: nat, attempt: int, hour: nat, weekday: nat, deepBonus: int, blastRadiusScope: string)

  datatype Weights = Weights(blastRadius: real, topology: real, frequency: real, time: real)

  const DEFAULT_WEIGHTS := Weights(0.40, 0.30, 0.20, 0.10)

  const CLUSTER_WIDE := "cluster-wide"
  const NAMESPACE_WIDE := "namespace-wide"

  function Min(x: int, y: int): int { if x < y then x else y }
  function Max(x: int, y: int): int { if x < y then y else x }

  predicate IsNamespaceWide(spec: FaultSpec) {
    spec.names == [] && !spec.hasLabels
  }

  function ScopeBase(scope: string): int {
    if scope == "container" then 10
    else if scope == "pod" then 30
    else if scope == "deployment" then 50
    else if scope == "service" then 50
    else if scope == "node" then 70
    else if scope == "namespace" then 80
    else if scope == "cluster" then 100
    else 30
  }

  function CountModifier(spec: FaultSpec): int {
    if IsNamespaceWide(spec) then 30
    else if |spec.names| <= 1 then 0
    else if |spec.names| <= 5 then 10
    else if |spec.names| <= 20 then 25
    else 40
  }

  function BlastRadius(spec: FaultSpec, ctx: Context): int {
    if spec.scope == "" then 0
    else
      var value := Min(100, ScopeBase(spec.scope) + CountModifier(spec));
      if ctx.blastRadiusScope == CLUSTER_WIDE && value < 90 then 90
      else if ctx.blastRadiusScope == NAMESPACE_WIDE && value < 60 then 60
      else value
  }

  function Frequency(ctx: Context): int {
    Min(100, Min(60, ctx.conflicts * 20)
             + (if ctx.attempt >= 1 then 30 else 0)
             + (if ctx.attempt >= 3 then 20 else 0))
  }

  function Time(spec: FaultSpec, ctx: Context): int {
    Min(100,
        (if 9 <= ctx.hour < 18 then 50
         else if 6 <= ctx.hour < 9 || 18 <= ctx.hour < 22 then 20
         else 0)
        + (if ctx.weekday < 5 then 20 else 0)
        + (if spec.durationSeconds == 0 then 30
           else if spec.durationSeconds > 600 then 20
           else if spec.durationSeconds > 60 then 10
           else 0))
  }

  const PRODUCTION_PATTERNS := ["prod", "production", "live"]

  const CRITICAL_PATTERNS := ["api", "db", "database", "redis", "kafka", "auth", "gateway", "ingress"]

  predicate IsSeparator(c: char) {
    c == '-' || c == '_' || c == '.' || c == '/'
  }

  function FirstSeparator(s: string): (k: nat)
    ensures k <= |s|
    ensures k < |s| ==> IsSeparator(s[k])
    ensures forall i :: 0 <= i < k ==> !IsSeparator(s[i])
  {
    if s == "" || IsSeparator(s[0]) then 0 else 1 + FirstSeparator(s[1..])
  }

  /** The fields between separators; the non-empty ones are the name's tokens. */
  function Fields(s: string): seq<string>
    decreases |s|
  {
    var k := FirstSeparator(s);
    if k == |s| then [s] else [s[..k]] + Fields(s[k + 1..])
  }

  predicate IsCritical(name: string) {
    exists p | p in CRITICAL_PATTERNS :: p in Fields(Lower(name))
  }

  predicate IsProduction(namespace: string) {
    exists p | p in PRODUCTION_PATTERNS :: Contains(Lower(namespace), p)
  }

  predicate AnyCritical(names: seq<string>) {
    exists n | n in names :: IsCritical(n)
  }

  function TopologyPoints(production: bool, critical: bool, clusterScoped: bool, deepBonus: int): int {
    Min(100,
        (if production then 40 else 0)
        + (if critical then 30 else 0)
        + (if clusterScoped then 30 else 0)
        + (if deepBonus > 0 then deepBonus else 0))
  }

  function Topology(spec: FaultSpec, ctx: Context): int {
    TopologyPoints(IsProduction(spec.namespace), AnyCritical(spec.names),
                   spec.scope == "node" || spec.scope == "cluster", ctx.deepBonus)
  }

  /** The scan for a critical component, stopping at the first hit. */
  method FindCritical(names: seq<string>) returns (found: bool)
    ensures found == AnyCritical(names)
  {
    for i := 0 to |names|
      invariant forall j :: 0 <= j < i ==> !IsCritical(names[j])
    {
      if IsCritical(names[i]) {
        return true;
      }
    }
    return false;
  }

  datatype Dimensions = Dimensions(blastRadius: int, frequency: int, time: int, topology: int)

  function DimensionsOf(spec: FaultSpec, ctx: Context): Dimensions {
    Dimensions(BlastRadius(spec, ctx), Frequency(ctx), Time(spec, ctx), Topology(spec, ctx))
  }

  function Raw(d: Dimensions, w: Weights): real {
    Scaled(d.blastRadius, w.blastRadius) + Scaled(d.frequency, w.frequency)
    + Scaled(d.time, w.time) + Scaled(d.topology, w.topology)
  }

  function Scaled(points: int, weight: real): real {
    points as real * weight
  }

  function RoundHalfEven(x: real): int {
    var f := x.Floor;
    var d := x - f as real;
    if d < 0.5 then f
    else if d > 0.5 then f + 1
    else if f % 2 == 0 then f
    else f + 1
  }

  function Aggregate(d: Dimensions, w: Weights): (r: int)
    ensures 0 <= r <= 100
  {
    Max(0, Min(100, RoundHalfEven(Raw(d, w))))
  }

  function Overall(spec: FaultSpec, ctx: Context, w: Weights): (r: int)
    ensures 0 <= r <= 100
  {
    Aggregate(DimensionsOf(spec, ctx), w)
  }

  function MaybeEscalateStatus(current: SafetyStatus, overall: int, warning: int, confirm: int): SafetyStatus {
    if current == SafetyRejected || current == ConfirmRequired then current
    else if overall >= confirm then ConfirmRequired
    else if current == Safe && overall >= warning then Warning
    else current
  }

  datatype ScoreSettings = ScoreSettings(routingEnabled: bool, warningThreshold: int, confirmThreshold: int)

  /** The status the safety check ends with: escalated by score when score routing is enabled, and
      at least a warning for a cluster-wide execution. */
  function FinalStatus(
      cfg: ScoreSettings, current: SafetyStatus, overall: int, blastRadiusScope: string): SafetyStatus {
    var scored :=
      if cfg.routingEnabled
      then MaybeEscalateStatus(current, overall, cfg.warningThreshold, cfg.confirmThreshold)
      else current;
    if blastRadiusScope == CLUSTER_WIDE && scored == Safe then Warning else scored
  }

  // ---------------------------------------------------------------------------
  // Tokens
  // ---------------------------------------------------------------------------

  /** `p` stands at position i bounded by separators or the ends of the name. */
  predicate WholeSegment(s: string, p: string, i: int) {
    && OccursAt(s, p, i)
    && (i > 0 ==> IsSeparator(s[i - 1]))
    && (i + |p| < |s| ==> IsSeparator(s[i + |p|]))
  }

  predicate HasNoSeparator(p: string) {
    forall i :: 0 <= i < |p| ==> !IsSeparator(p[i])
  }

  lemma {:induction false} FirstSegment(s: string, p: string)
    requires HasNoSeparator(p) && WholeSegment(s, p, 0)
    ensures FirstSeparator(s) == |p| && s[..|p|] == p
  {
    assert forall i :: 0 <= i < |p| ==> s[i] == s[..|p|][i];
  }

  lemma SegmentOfRest(head: string, c: char, rest: string, p: string, j: int)
    requires WholeSegment(rest, p, j)
    requires IsSeparator(c)
    ensures WholeSegment(head + [c] + rest, p, j + |head| + 1)
  {
    var s, i := head + [c] + rest, j + |head| + 1;
    assert s[i..i + |p|] == rest[j..j + |p|];
  }

  lemma HeadHasNoSeparator(head: string, c: char, rest: string)
    requires HasNoSeparator(head)
    ensures forall k :: 0 <= k < |head| ==> !IsSeparator((head + [c] + rest)[k])
  {
    forall k | 0 <= k < |head| ensures !IsSeparator((head + [c] + rest)[k]) {
      assert (head + [c] + rest)[k] == head[k];
    }
  }

  lemma SegmentInRest(head: string, c: char, rest: string, p: string, i: int)
    requires HasNoSeparator(head) && i > 0
    requires WholeSegment(head + [c] + rest, p, i)
    ensures i > |head| && WholeSegment(rest, p, i - |head| - 1)
  {
    HeadHasNoSeparator(head, c, rest);
    SegmentAfter(head, c, rest, p, i - |head| - 1);
  }

  lemma SegmentAfter(head: string, c: char, rest: string, p: string, j: int)
    requires j >= 0 && WholeSegment(head + [c] + rest, p, j + |head| + 1)
    ensures WholeSegment(rest, p, j)
  {
    var s, i := head + [c] + rest, j + |head| + 1;
    assert s[i..i + |p|] == rest[j..j + |p|];
    assert i + |p| < |s| ==> s[i + |p|] == rest[j + |p|];
    assert j > 0 ==> s[i - 1] == rest[j - 1];
  }

  ghost predicate HasSegment(s: string, p: string) {
    exists i :: WholeSegment(s, p, i)
  }

  lemma SegmentsSplit(head: string, c: char, rest: string, p: string)
    requires HasNoSeparator(head) && HasNoSeparator(p) && IsSeparator(c)
    ensures HasSegment(head + [c] + rest, p) <==> p == head || HasSegment(rest, p)
  {
    var s := head + [c] + rest;
    if p == head {
      assert s[0..0 + |p|] == p;
      assert WholeSegment(s, p, 0);
    }
    if j :| WholeSegment(rest, p, j) {
      SegmentOfRest(head, c, rest, p, j);
    }
    if i :| WholeSegment(s, p, i) {
      if i == 0 {
        FirstSegment(s, p);
        assert s[|head|] == c;
        assert forall k :: 0 <= k < |head| ==> s[k] == head[k];
        assert s[..|head|] == head;
      } else {
        SegmentInRest(head, c, rest, p, i);
      }
    }
  }

  /** A name holds a pattern as a token exactly when the pattern is a whole segment of it, so a
      hash that merely contains the pattern does not count. */
  lemma {:induction false} TokensAreWholeSegments(s: string, p: string)
    requires HasNoSeparator(p)
    ensures p in Fields(s) <==> HasSegment(s, p)
    decreases |s|
  {
    var k := FirstSeparator(s);
    if k == |s| {
      if p == s {
        assert s[0..0 + |s|] == s;
        assert WholeSegment(s, p, 0);
      }
      if i :| WholeSegment(s, p, i) { FirstSegment(s, p); }
    } else {
      var head, rest := s[..k], s[k + 1..];
      TokensAreWholeSegments(rest, p);
      SegmentsSplit(head, s[k], rest, p);
      assert head + [s[k]] + rest == s;
    }
  }

  // ---------------------------------------------------------------------------
  // Monotonicity, end to end
  // ---------------------------------------------------------------------------

  function OverrideFloor(scope: string): int {
    if scope == CLUSTER_WIDE then 90 else if scope == NAMESPACE_WIDE then 60 else 0
  }

  /** The second request adds risk to the first: more names, conflicts, attempts, a larger deep
      signal or a wider execution, everything else alike. */
  predicate AddsRisk(spec: FaultSpec, ctx: Context, spec': FaultSpec, ctx': Context, more: seq<string>) {
    && spec' == spec.(names := spec.names + more)
    && ctx.conflicts <= ctx'.conflicts && ctx.attempt <= ctx'.attempt
    && ctx.deepBonus <= ctx'.deepBonus
    && OverrideFloor(ctx.blastRadiusScope) <= OverrideFloor(ctx'.blastRadiusScope)
    && ctx.hour == ctx'.hour && ctx.weekday == ctx'.weekday
  }

  lemma BlastRadiusIsFloored(spec: FaultSpec, ctx: Context)
    requires spec.scope != ""
    ensures BlastRadius(spec, ctx) ==
            Max(Min(100, ScopeBase(spec.scope) + CountModifier(spec)), OverrideFloor(ctx.blastRadiusScope))
  {
  }

  lemma BlastRadiusMonotone(
      spec: FaultSpec, ctx: Context, spec': FaultSpec, ctx': Context, more: seq<string>)
    requires AddsRisk(spec, ctx, spec', ctx', more) && !IsNamespaceWide(spec)
    ensures BlastRadius(spec, ctx) <= BlastRadius(spec', ctx')
  {
    if spec.scope != "" {
      BlastRadiusIsFloored(spec, ctx);
      BlastRadiusIsFloored(spec', ctx');
      assert CountModifier(spec) <= CountModifier(spec');
    }
  }

  lemma CriticalNamesStay(names: seq<string>, more: seq<string>)
    ensures AnyCritical(names) ==> AnyCritical(names + more)
  {
    if AnyCritical(names) {
      var n :| n in names && IsCritical(n);
      assert n in names + more;
    }
  }

  lemma TopologyPointsMonotone(
      production: bool, critical: bool, critical': bool, clusterScoped: bool, bonus: int, bonus': int)
    requires (critical ==> critical') && bonus <= bonus'
    ensures TopologyPoints(production, critical, clusterScoped, bonus) <=
            TopologyPoints(production, critical', clusterScoped, bonus')
  {
  }

  lemma RoundMonotone(x: real, y: real)
    requires x <= y
    ensures RoundHalfEven(x) <= RoundHalfEven(y)
  {
    assert x.Floor <= y.Floor;
    if x.Floor < y.Floor {
      assert RoundHalfEven(x) <= x.Floor + 1 && y.Floor <= RoundHalfEven(y);
    }
  }

  lemma ScaleMonotone(x: int, y: int, w: real)
    requires x <= y && w >= 0.0
    ensures Scaled(x, w) <= Scaled(y, w)
  {
    assert (y - x) as real * w >= 0.0;
  }

  ghost predicate NonNegative(w: Weights) {
    w.blastRadius >= 0.0 && w.topology >= 0.0 && w.frequency >= 0.0 && w.time >= 0.0
  }

  function StatusRank(st: SafetyStatus): nat {
    match st
    case Safe => 0
    case Pending => 1
    case Warning => 1
    case ConfirmRequired => 2
    case SafetyRejected => 3
  }

  lemma AggregateMonotone(d: Dimensions, d': Dimensions, w: Weights)
    requires d.blastRadius <= d'.blastRadius && d.frequency <= d'.frequency
    requires d.time <= d'.time && d.topology <= d'.topology
    requires NonNegative(w)
    ensures Aggregate(d, w) <= Aggregate(d', w)
  {
    ScaleMonotone(d.blastRadius, d'.blastRadius, w.blastRadius);
    ScaleMonotone(d.frequency, d'.frequency, w.frequency);
    ScaleMonotone(d.time, d'.time, w.time);
    ScaleMonotone(d.topology, d'.topology, w.topology);
    assert Raw(d, w) <= Raw(d', w);
    RoundMonotone(Raw(d, w), Raw(d', w));
  }

  lemma StatusMonotone(cfg: ScoreSettings, current: SafetyStatus, overall: int, overall': int,
                       scope: string, scope': string)
    requires overall <= overall' && OverrideFloor(scope) <= OverrideFloor(scope')
    ensures StatusRank(FinalStatus(cfg, current, overall, scope)) <=
            StatusRank(FinalStatus(cfg, current, overall', scope'))
  {
  }

  /** Adding risk to a request that names its targets never lowers its overall score, under any
      non-negative weights, nor the status it ends with, under any thresholds. */
  lemma RiskIsMonotone(
      spec: FaultSpec, ctx: Context, spec': FaultSpec, ctx': Context, more: seq<string>, w: Weights,
      cfg: ScoreSettings, current: SafetyStatus)
    requires AddsRisk(spec, ctx, spec', ctx', more) && !IsNamespaceWide(spec)
    requires NonNegative(w)
    ensures Overall(spec, ctx, w) <= Overall(spec', ctx', w)
    ensures StatusRank(FinalStatus(cfg, current, Overall(spec, ctx, w), ctx.blastRadiusScope)) <=
            StatusRank(FinalStatus(cfg, current, Overall(spec', ctx', w), ctx'.blastRadiusScope))
  {
    BlastRadiusMonotone(spec, ctx, spec', ctx', more);
    CriticalNamesStay(spec.names, more);
    TopologyPointsMonotone(
      IsProduction(spec.namespace), AnyCritical(spec.names), AnyCritical(spec'.names),
      spec.scope == "node" || spec.scope == "cluster", ctx.deepBonus, ctx'.deepBonus);
    AggregateMonotone(DimensionsOf(spec, ctx), DimensionsOf(spec', ctx'), w);
    StatusMonotone(cfg, current, Overall(spec, ctx, w), Overall(spec', ctx', w),
                   ctx.blastRadiusScope, ctx'.blastRadiusScope);
  }

  // ---------------------------------------------------------------------------
  // Naming targets, exactly
  // ---------------------------------------------------------------------------

  function Naming(spec: FaultSpec, more: seq<string>): FaultSpec {
    spec.(names := spec.names + more)
  }

  function NamedModifier(count: nat): int {
    if count <= 1 then 0 else if count <= 5 then 10 else 25
  }

  /** A namespace-wide request narrowed to at most twenty targets, where neither the cap nor the
      declared execution scope hides it. */
  predicate Narrows(spec: FaultSpec, ctx: Context, more: seq<string>) {
    && spec.scope != "" && IsNamespaceWide(spec) && 1 <= |more| <= 20
    && ScopeBase(spec.scope) + NamedModifier(|more|) < 100
    && OverrideFloor(ctx.blastRadiusScope) < Min(100, ScopeBase(spec.scope) + 30)
  }

  /** Naming targets lowers the blast radius exactly when it narrows the request. */
  lemma NamingLowersBlastRadiusExactlyWhen(spec: FaultSpec, ctx: Context, more: seq<string>)
    ensures BlastRadius(Naming(spec, more), ctx) < BlastRadius(spec, ctx) <==> Narrows(spec, ctx, more)
  {
    var named := Naming(spec, more);
    assert IsNamespaceWide(spec) && more == [] ==> named == spec;
    if spec.scope != "" {
      BlastRadiusIsFloored(spec, ctx);
      BlastRadiusIsFloored(named, ctx);
    }
  }

  /** Blast radii differ by nothing or by at least five points. */
  lemma BlastRadiusFallsByFive(spec: FaultSpec, ctx: Context, more: seq<string>)
    ensures BlastRadius(Naming(spec, more), ctx) < BlastRadius(spec, ctx) ==>
              BlastRadius(Naming(spec, more), ctx) + 5 <= BlastRadius(spec, ctx)
  {
    if spec.scope != "" {
      BlastRadiusIsFloored(spec, ctx);
      BlastRadiusIsFloored(Naming(spec, more), ctx);
    }
  }

  lemma ApartRoundsApart(y: real, x: real)
    requires x - y > 1.0
    ensures RoundHalfEven(y) < RoundHalfEven(x)
  {
    assert y.Floor + 1 <= x.Floor;
  }

  predicate InRange(d: Dimensions) {
    && 0 <= d.blastRadius <= 100 && 0 <= d.frequency <= 100
    && 0 <= d.time <= 100 && 0 <= d.topology <= 100
  }

  lemma DimensionsAreInRange(spec: FaultSpec, ctx: Context)
    ensures InRange(DimensionsOf(spec, ctx))
  {
    if spec.scope != "" {
      BlastRadiusIsFloored(spec, ctx);
    }
  }

  /** The clamp never bites on dimensions between 0 and 100. */
  lemma DefaultAggregateIsRounded(d: Dimensions)
    requires InRange(d)
    ensures Aggregate(d, DEFAULT_WEIGHTS) == RoundHalfEven(Raw(d, DEFAULT_WEIGHTS))
  {
    RoundMonotone(0.0, Raw(d, DEFAULT_WEIGHTS));
    RoundMonotone(Raw(d, DEFAULT_WEIGHTS), 100.0);
  }

  /** Naming targets changes the weighted sum by its loss of blast radius and its gain in topology. */
  lemma NamingShiftsRaw(spec: FaultSpec, ctx: Context, more: seq<string>)
    ensures var d, d' := DimensionsOf(spec, ctx), DimensionsOf(Naming(spec, more), ctx);
            && Raw(d, DEFAULT_WEIGHTS) - Raw(d', DEFAULT_WEIGHTS) ==
               (4 * (d.blastRadius - d'.blastRadius) - 3 * (d'.topology - d.topology)) as real / 10.0
            && Overall(spec, ctx, DEFAULT_WEIGHTS) == RoundHalfEven(Raw(d, DEFAULT_WEIGHTS))
            && Overall(Naming(spec, more), ctx, DEFAULT_WEIGHTS) == RoundHalfEven(Raw(d', DEFAULT_WEIGHTS))
  {
    DimensionsAreInRange(spec, ctx);
    DimensionsAreInRange(Naming(spec, more), ctx);
    DefaultAggregateIsRounded(DimensionsOf(spec, ctx));
    DefaultAggregateIsRounded(DimensionsOf(Naming(spec, more), ctx));
  }

  lemma PlainNamesKeepTopology(spec: FaultSpec, ctx: Context, more: seq<string>)
    requires !NamesFirstCritical(spec, more)
    ensures Topology(Naming(spec, more), ctx) == Topology(spec, ctx)
  {
    CriticalNamesStay(spec.names, more);
    assert AnyCritical(spec.names + more) ==> AnyCritical(spec.names) || AnyCritical(more);
  }

  predicate NamesFirstCritical(spec: FaultSpec, more: seq<string>) {
    AnyCritical(more) && !AnyCritical(spec.names)
  }

  /** Without a first critical name the score falls exactly when the request is narrowed. */
  lemma NamingPlainLowersScoreExactlyWhen(spec: FaultSpec, ctx: Context, more: seq<string>)
    requires !NamesFirstCritical(spec, more)
    ensures Overall(Naming(spec, more), ctx, DEFAULT_WEIGHTS) < Overall(spec, ctx, DEFAULT_WEIGHTS) <==>
            Narrows(spec, ctx, more)
  {
    var d, d' := DimensionsOf(spec, ctx), DimensionsOf(Naming(spec, more), ctx);
    NamingLowersBlastRadiusExactlyWhen(spec, ctx, more);
    NamingShiftsRaw(spec, ctx, more);
    PlainNamesKeepTopology(spec, ctx, more);
    if d'.blastRadius < d.blastRadius {
      BlastRadiusFallsByFive(spec, ctx, more);
      ApartRoundsApart(Raw(d', DEFAULT_WEIGHTS), Raw(d, DEFAULT_WEIGHTS));
    } else {
      RoundMonotone(Raw(d, DEFAULT_WEIGHTS), Raw(d', DEFAULT_WEIGHTS));
    }
  }

  /** A single target takes away all thirty points of the namespace-wide request. */
  predicate LosesThirty(spec: FaultSpec, ctx: Context, more: seq<string>) {
    && Narrows(spec, ctx, more) && |more| == 1 && ScopeBase(spec.scope) <= 70
    && OverrideFloor(ctx.blastRadiusScope) <= ScopeBase(spec.scope)
  }

  /** Where the topology cap does not bite, a first critical name outweighs any smaller loss. */
  lemma NamingCriticalLowersScoreExactlyWhen(spec: FaultSpec, ctx: Context, more: seq<string>)
    requires NamesFirstCritical(spec, more) && Topology(spec, ctx) <= 70
    ensures Overall(Naming(spec, more), ctx, DEFAULT_WEIGHTS) < Overall(spec, ctx, DEFAULT_WEIGHTS) <==>
            LosesThirty(spec, ctx, more)
  {
    var d, d' := DimensionsOf(spec, ctx), DimensionsOf(Naming(spec, more), ctx);
    NamingShiftsRaw(spec, ctx, more);
    CriticalIsNamed(spec.names, more);
    NamingLosesThirtyExactlyWhen(spec, ctx, more);
    if d.blastRadius - d'.blastRadius == 30 {
      ApartRoundsApart(Raw(d', DEFAULT_WEIGHTS), Raw(d, DEFAULT_WEIGHTS));
    } else {
      RoundMonotone(Raw(d, DEFAULT_WEIGHTS), Raw(d', DEFAULT_WEIGHTS));
    }
  }

  /** Four times the loss of blast radius less three times the topology still missing to its cap: ten
      times what the weighted sum loses when a first critical name fills the topology up. */
  function Excess(spec: FaultSpec, ctx: Context, more: seq<string>): int {
    4 * (BlastRadius(spec, ctx) - BlastRadius(Naming(spec, more), ctx)) - 3 * (100 - Topology(spec, ctx))
  }

  /** Whether the lowered sum, a whole number here, is odd: only then is a half rounded up to the old
      score. */
  predicate OddTens(points: int) {
    points / 10 % 2 == 1
  }

  lemma TensAndFives(spec: FaultSpec, ctx: Context)
    ensures Frequency(ctx) % 10 == 0 && Time(spec, ctx) % 10 == 0 && BlastRadius(spec, ctx) % 5 == 0
  {
    if spec.scope != "" {
      BlastRadiusIsFloored(spec, ctx);
    }
  }

  lemma ScaledFives(k: int)
    ensures Scaled(5 * k, 0.40) == (2 * k) as real
  {
  }

  lemma ScaledTens(k: int)
    ensures Scaled(10 * k, 0.20) == (2 * k) as real && Scaled(10 * k, 0.10) == k as real
  {
  }

  /** A sum of fives, tens and the full topology is whole, and as odd as the tens of its time. */
  lemma FullTopologySumIsWhole(d: Dimensions) returns (n: int)
    requires d.blastRadius % 5 == 0 && d.frequency % 10 == 0 && d.time % 10 == 0 && d.topology == 100
    ensures Raw(d, DEFAULT_WEIGHTS) == n as real && (n % 2 == 1 <==> OddTens(d.time))
  {
    var b, f, t := d.blastRadius / 5, d.frequency / 10, d.time / 10;
    n := 2 * (b + f + 15) + t;
    WholeParts(b, f, t);
    EvenKeepsParity(b + f + 15, t);
    assert d == Dimensions(5 * b, 10 * f, 10 * t, 100);
  }

  lemma WholeParts(b: int, f: int, t: int)
    ensures Raw(Dimensions(5 * b, 10 * f, 10 * t, 100), DEFAULT_WEIGHTS) == (2 * (b + f + 15) + t) as real
  {
    ScaledFives(b);
    ScaledTens(f);
    ScaledTens(t);
    assert Scaled(100, 0.30) == 30.0;
  }

  lemma EvenKeepsParity(half: int, k: int)
    ensures (2 * half + k) % 2 == k % 2
  {
  }

  lemma FilledSumIsWhole(spec: FaultSpec, ctx: Context, more: seq<string>) returns (n: int)
    requires NamesFirstCritical(spec, more) && Topology(spec, ctx) > 70
    ensures Topology(Naming(spec, more), ctx) == 100
    ensures Raw(DimensionsOf(Naming(spec, more), ctx), DEFAULT_WEIGHTS) == n as real
    ensures n % 2 == 1 <==> OddTens(Time(spec, ctx))
  {
    CriticalIsNamed(spec.names, more);
    TensAndFives(Naming(spec, more), ctx);
    n := FullTopologySumIsWhole(DimensionsOf(Naming(spec, more), ctx));
  }

  lemma RoundsAboveWhole(n: int, tenths: int)
    ensures RoundHalfEven(n as real + tenths as real / 10.0) > n <==> tenths > 5 || (tenths == 5 && n % 2 == 1)
    ensures RoundHalfEven(n as real) == n
  {
    var x := n as real + tenths as real / 10.0;
    if tenths >= 10 {
      RoundMonotone(n as real + 1.0, x);
    } else if tenths < 0 {
      RoundMonotone(x, n as real);
    } else {
      assert x.Floor == n;
    }
  }

  /** Where the cap bites, a first critical name leaves the topology full, and the score falls exactly
      when the excess is above five, or is five and the lowered sum is odd. */
  lemma NamingCriticalAtCapLowersScoreExactlyWhen(spec: FaultSpec, ctx: Context, more: seq<string>)
    requires NamesFirstCritical(spec, more) && Topology(spec, ctx) > 70
    ensures Overall(Naming(spec, more), ctx, DEFAULT_WEIGHTS) < Overall(spec, ctx, DEFAULT_WEIGHTS) <==>
            Excess(spec, ctx, more) > 5 || (Excess(spec, ctx, more) == 5 && OddTens(Time(spec, ctx)))
  {
    var n := FilledSumIsWhole(spec, ctx, more);
    NamingShiftsRaw(spec, ctx, more);
    RoundsApartFromWhole(Raw(DimensionsOf(spec, ctx), DEFAULT_WEIGHTS),
                         Raw(DimensionsOf(Naming(spec, more), ctx), DEFAULT_WEIGHTS), n, Excess(spec, ctx, more));
  }

  lemma RoundsApartFromWhole(x: real, y: real, n: int, tenths: int)
    requires y == n as real && x - y == tenths as real / 10.0
    ensures RoundHalfEven(y) < RoundHalfEven(x) <==> tenths > 5 || (tenths == 5 && n % 2 == 1)
  {
    RoundsAboveWhole(n, tenths);
  }

  /** What a caller can check before naming targets. */
  predicate LowersScore(spec: FaultSpec, ctx: Context, more: seq<string>) {
    if !NamesFirstCritical(spec, more) then Narrows(spec, ctx, more)
    else if Topology(spec, ctx) <= 70 then LosesThirty(spec, ctx, more)
    else Excess(spec, ctx, more) > 5 || (Excess(spec, ctx, more) == 5 && OddTens(Time(spec, ctx)))
  }

  /** For every request and every list of names: naming targets lowers the overall score, under the
      default weights, exactly when that guard holds. */
  lemma NamingLowersScoreExactlyWhen(spec: FaultSpec, ctx: Context, more: seq<string>)
    ensures Overall(Naming(spec, more), ctx, DEFAULT_WEIGHTS) < Overall(spec, ctx, DEFAULT_WEIGHTS) <==>
            LowersScore(spec, ctx, more)
  {
    if !NamesFirstCritical(spec, more) {
      NamingPlainLowersScoreExactlyWhen(spec, ctx, more);
    } else if Topology(spec, ctx) <= 70 {
      NamingCriticalLowersScoreExactlyWhen(spec, ctx, more);
    } else {
      NamingCriticalAtCapLowersScoreExactlyWhen(spec, ctx, more);
    }
  }

  lemma CriticalIsNamed(names: seq<string>, more: seq<string>)
    requires AnyCritical(more)
    ensures AnyCritical(names + more)
  {
    var n :| n in more && IsCritical(n);
    assert n in names + more;
  }

  lemma NamingLosesThirtyExactlyWhen(spec: FaultSpec, ctx: Context, more: seq<string>)
    ensures var lost := BlastRadius(spec, ctx) - BlastRadius(Naming(spec, more), ctx);
            && (lost == 30 <==> LosesThirty(spec, ctx, more))
            && (lost <= 20 || lost == 30)
  {
    if spec.scope != "" {
      BlastRadiusIsFloored(spec, ctx);
      BlastRadiusIsFloored(Naming(spec, more), ctx);
      assert IsNamespaceWide(spec) && more == [] ==> Naming(spec, more) == spec;
    }
  }

  /** Such a request does score lower as a whole. */
  lemma NarrowedRequestScoresLower() returns (spec: FaultSpec, named: FaultSpec, ctx: Context)
    ensures IsNamespaceWide(spec) && named == spec.(names := spec.names + ["cart"])
    ensures Overall(named, ctx, DEFAULT_WEIGHTS) < Overall(spec, ctx, DEFAULT_WEIGHTS)
  {
    spec := FaultSpec("pod", [], false, "shop", 300);
    ctx := Context(0, 0, 12, 1, 0, "");
    named := FaultSpec("pod", ["cart"], false, "shop", 300);
    assert BlastRadius(spec, ctx) == 60 && BlastRadius(named, ctx) == 30;
    assert Time(spec, ctx) == 80 == Time(named, ctx) && Frequency(ctx) == 0;
    NoToken("cart");
    var d, d' := DimensionsOf(spec, ctx), DimensionsOf(named, ctx);
    assert Raw(d, DEFAULT_WEIGHTS) == Raw(d', DEFAULT_WEIGHTS) + 12.0;
    assert 0.0 <= Raw(d', DEFAULT_WEIGHTS) <= 40.0;
  }

  lemma NoToken(name: string)
    requires name == "cart"
    ensures !IsCritical(name)
  {
    assert Lower(name) == "cart";
    assert FirstSeparator("cart") == 4;
    assert Fields("cart") == ["cart"];
  }

  /** Under the default weights the overall score lies between the smallest and the largest
      dimension. */
  lemma OverallLiesBetweenDimensions(d: Dimensions, low: int, high: int)
    requires 0 <= low <= high <= 100
    requires low <= d.blastRadius <= high && low <= d.frequency <= high
    requires low <= d.time <= high && low <= d.topology <= high
    ensures low <= Aggregate(d, DEFAULT_WEIGHTS) <= high
  {
    var raw := Raw(d, DEFAULT_WEIGHTS);
    assert low as real <= raw <= high as real;
    RoundMonotone(low as real, raw);
    RoundMonotone(raw, high as real);
  }

  lemma EscalationIsIdempotent(current: SafetyStatus, overall: int, warning: int, confirm: int)
    ensures var once := MaybeEscalateStatus(current, overall, warning, confirm);
            MaybeEscalateStatus(once, overall, warning, confirm) == once
  {
  }

  /** With score routing on, a score at or above the warning threshold never goes straight to the
      baseline; a cluster-wide execution never does, with routing on or off. */
  lemma HighRiskIsAlwaysConfirmed(cfg: ScoreSettings, st: AgentState, current: SafetyStatus,
                                  overall: int, blastRadiusScope: string)
    requires st.safetyStatus == FinalStatus(cfg, current, overall, blastRadiusScope)
    requires || (cfg.routingEnabled && overall >= cfg.warningThreshold)
             || blastRadiusScope == CLUSTER_WIDE
    ensures RouteAfterSafety(st) != To(BaselineCapture)
  {
  }
}
