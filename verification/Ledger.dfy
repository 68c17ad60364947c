/** The create and destroy commands over the experiment table (cli/cmd/create.go,
    cli/cmd/destroy.go, cli/cmd/command.go), with a log of every executor call.

    Executors, the cluster and the database answer arbitrarily: every answer a command may get is
    part of the request. */
module Ledger {
  import opened Text
  import opened Wrappers
  import opened CommandKeys
  import opened ExperimentTable

  datatype ExecResult = ExecResult(success: bool, error: string, dataNotFound: bool)

  /** `settled` tells whether the process of a hanging action was found, `recorded` whether the
      status update after the call succeeded. */
  datatype Call =
    | CreateCall(uid: string, success: bool, settled: bool, recorded: bool)
    | DestroyCall(uid: string, success: bool)
    | MatcherCall(matcher: Matcher, success: bool)

  datatype World = World(rows: seq<Row>, nextId: nat, log: seq<Call>)

  datatype Reply = Done | Refused(dataNotFound: bool)

  /** Reads the flags of a record from its sub-command, command and flag text. */
  type FlagParser = (string, string, string) -> map<string, string>

  // ---------------------------------------------------------------- create

  /** One uid tried by generateUid: none generated, or one together with the lookup's verdict. */
  datatype Candidate = NoUid | Candidate(uid: string, queryOk: bool)

  datatype Process = NoResult | Missing(reason: string) | Alive

  datatype CreateRequest = CreateRequest(
    path: string, flags: string, uid: string, candidates: seq<Candidate>, insertOk: bool,
    exec: ExecResult, processHang: bool, scope: string, channel: string, process: Process, updateOk: bool)

  function GenerateUid(rows: seq<Row>, candidates: seq<Candidate>): (uid: Option<string>)
    ensures uid.Some? ==> !Recorded(rows, uid.value)
  {
    if candidates == [] || candidates[0].NoUid? || !candidates[0].queryOk then None
    else if Recorded(rows, candidates[0].uid) then GenerateUid(rows, candidates[1..])
    else Some(candidates[0].uid)
  }

  function ChosenUid(rows: seq<Row>, q: CreateRequest): Option<string> {
    if q.uid != "" then Some(q.uid) else GenerateUid(rows, q.candidates)
  }

  predicate HangsLocally(q: CreateRequest) {
    q.processHang && q.scope != "pod" && q.scope != "container" && q.scope != "node" && q.channel != "ssh"
  }

  predicate Settled(q: CreateRequest) {
    HangsLocally(q) ==> q.process.Alive?
  }

  const PROCESS_NOT_FOUND := "chaos_os process not found, please check chaosblade log"

  function StatusAfterCreate(q: CreateRequest): (Status, string) {
    if !q.exec.success then (Error, q.exec.error)
    else if Settled(q) then (Success, q.exec.error)
    else (Error, if q.process.Missing? then PROCESS_NOT_FOUND + ", err: " + q.process.reason else PROCESS_NOT_FOUND)
  }

  /** Whether the create gets as far as its record, and under which uid. */
  function RecordedUid(rows: seq<Row>, q: CreateRequest): (uid: Option<string>)
    ensures uid.Some? ==> !Recorded(rows, uid.value)
  {
    var uid := ChosenUid(rows, q);
    if uid.None? || ParseCommandPath(q.path).None? || !q.insertOk || Recorded(rows, uid.value) then None else uid
  }

  function NewRow(w: World, q: CreateRequest, uid: string): Row
    requires ParseCommandPath(q.path).Some?
  {
    var command := ParseCommandPath(q.path).value;
    Row(w.nextId, uid, command.command, command.subCommand, q.flags, Created, "")
  }

  function Create(w: World, q: CreateRequest): (World, Reply) {
    var uid := RecordedUid(w.rows, q);
    if uid.None? then (w, Refused(false))
    else
      var rows := w.rows + [NewRow(w, q, uid.value)];
      var (status, error) := StatusAfterCreate(q);
      (World(if q.updateOk then Updated(rows, uid.value, status, error) else rows, w.nextId + 1,
             w.log + [CreateCall(uid.value, q.exec.success, Settled(q), q.updateOk)]),
       if q.exec.success then Done else Refused(q.exec.dataNotFound))
  }

  // ---------------------------------------------------------------- destroy by uid

  /** The ChaosBlade resource of a uid in the cluster; a live one names its executor's key. */
  datatype Resource = Unavailable | Gone | Live(key: string)

  datatype DestroyRequest = DestroyRequest(
    uid: string, target: string, kubeconfig: string, queryOk: bool, resource: Resource, exec: ExecResult,
    updateOk: bool, forceRemove: bool, deleteOk: bool, removeOk: bool)

  predicate IsK8s(target: string) {
    Lower(target) == "kubernetes" || Lower(target) == "k8s"
  }

  /** destroyExperiment: execute, then mark the record. */
  function Executed(w: World, q: DestroyRequest): (World, Reply) {
    var log := w.log + [DestroyCall(q.uid, q.exec.success)];
    if !q.exec.success then (World(w.rows, w.nextId, log), Refused(q.exec.dataNotFound))
    else (World(if q.updateOk then Updated(w.rows, q.uid, Destroyed, "") else w.rows, w.nextId, log), Done)
  }

  function WithoutRecord(registered: set<string>, w: World, q: DestroyRequest): (World, Reply) {
    var (after, reply) :=
      if q.uid == "" || q.kubeconfig == "" || q.resource.Unavailable? then (w, Refused(false))
      else if q.resource.Gone? then (w, Done)
      else if q.resource.key !in registered then (w, Refused(false))
      else Executed(w, q);
    (after, if reply == Done && q.forceRemove && !q.removeOk then Refused(false) else reply)
  }

  function DestroyRecorded(registered: set<string>, w: World, q: DestroyRequest, row: Row): (World, Reply) {
    if row.status == Destroyed then (w, Done)
    else if KeyOfRecord(RecordedCommand(row.command, row.subCommand)) !in registered then (w, Refused(false))
    else Executed(w, q)
  }

  function WithRecord(registered: set<string>, w: World, q: DestroyRequest, row: Row): (World, Reply) {
    var (after, reply) := DestroyRecorded(registered, w, q, row);
    (if q.forceRemove && q.deleteOk then World(Deleted(after.rows, q.uid), after.nextId, after.log) else after,
     if reply == Done && q.forceRemove && !(q.deleteOk && (IsK8s(q.target) ==> q.removeOk)) then Refused(false)
     else reply)
  }

  function DestroyByUid(registered: set<string>, w: World, q: DestroyRequest): (World, Reply) {
    var row := if q.queryOk then Find(w.rows, q.uid) else None;
    if row.Some? then WithRecord(registered, w, q, row.value)
    else if IsK8s(q.target) then WithoutRecord(registered, w, q)
    else (w, Refused(q.queryOk))
  }

  // ---------------------------------------------------------------- destroy by matchers

  /** `byUid` holds the answers met when the flags carry a uid. The updates of the uids in
      `updateFails` are refused by the database. */
  datatype MatcherRequest = MatcherRequest(
    target: string, scope: string, action: string, flags: map<string, string>, byUid: DestroyRequest,
    exec: ExecResult, queryOk: bool, updateFails: set<string>)

  function MatcherOf(q: MatcherRequest): Matcher {
    if q.scope != "" && q.scope != "host" then Matcher(q.scope, q.target + " " + q.action, q.flags)
    else Matcher(q.target, q.action, q.flags)
  }

  function MarkMatching(rows: seq<Row>, m: Matcher, parse: FlagParser, fails: set<string>): (after: seq<Row>)
    ensures |after| == |rows|
    ensures forall i :: 0 <= i < |rows| ==>
              after[i] == if Matches(m, parse, rows[i]) && rows[i].uid !in fails
                          then rows[i].(status := Destroyed, error := "") else rows[i]
  {
    seq(|rows|, i requires 0 <= i < |rows| =>
      if Matches(m, parse, rows[i]) && rows[i].uid !in fails
      then rows[i].(status := Destroyed, error := "") else rows[i])
  }

  function MatchersOnly(parse: FlagParser, w: World, q: MatcherRequest): (World, Reply) {
    var m := MatcherOf(q);
    var log := w.log + [MatcherCall(m, q.exec.success)];
    if !q.exec.success then (World(w.rows, w.nextId, log), Refused(q.exec.dataNotFound))
    else (World(if q.queryOk then MarkMatching(w.rows, m, parse, q.updateFails) else w.rows, w.nextId, log), Done)
  }

  function DestroyByMatchers(registered: set<string>, parse: FlagParser, w: World, q: MatcherRequest): (World, Reply) {
    if "uid" in q.flags && q.flags["uid"] != "" then
      var (after, reply) := DestroyByUid(registered, w, q.byUid.(uid := q.flags["uid"]));
      if reply == Refused(true) then MatchersOnly(parse, after, q) else (after, reply)
    else MatchersOnly(parse, w, q)
  }

  // ---------------------------------------------------------------- runs

  datatype Command = CreateCmd(c: CreateRequest) | DestroyCmd(d: DestroyRequest) | MatcherCmd(m: MatcherRequest)

  function Step(registered: set<string>, parse: FlagParser, w: World, cmd: Command): World {
    match cmd
    case CreateCmd(q) => Create(w, q).0
    case DestroyCmd(q) => DestroyByUid(registered, w, q).0
    case MatcherCmd(q) => DestroyByMatchers(registered, parse, w, q).0
  }

  function Run(registered: set<string>, parse: FlagParser, w: World, cmds: seq<Command>): World {
    if cmds == [] then w
    else Step(registered, parse, Run(registered, parse, w, cmds[..|cmds| - 1]), cmds[|cmds| - 1])
  }

  const EMPTY := World([], 0, [])

  // ---------------------------------------------------------------- every status is earned

  predicate IsCreateOf(call: Call, uid: string) {
    call.CreateCall? && call.uid == uid
  }

  ghost predicate IsLatestCreate(log: seq<Call>, uid: string, c: nat) {
    c < |log| && IsCreateOf(log[c], uid) && forall j :: c < j < |log| ==> !IsCreateOf(log[j], uid)
  }

  /** A successful destroy execution for this record. */
  predicate Covers(call: Call, parse: FlagParser, row: Row) {
    match call
    case CreateCall(_, _, _, _) => false
    case DestroyCall(uid, success) => success && uid == row.uid
    case MatcherCall(m, success) => success && Matches(m, parse, row)
  }

  ghost predicate Earned(log: seq<Call>, parse: FlagParser, row: Row, c: nat)
    requires c < |log| && log[c].CreateCall?
  {
    match row.status
    case Created => !log[c].recorded
    case Success => log[c].success && log[c].settled
    case Error => !(log[c].success && log[c].settled)
    case Destroyed => exists i :: c < i < |log| && Covers(log[i], parse, row)
  }

  /** The record's own create call, the latest for its uid, accounts for its status. */
  ghost predicate Justified(log: seq<Call>, parse: FlagParser, row: Row) {
    exists c: nat :: IsLatestCreate(log, row.uid, c) && Earned(log, parse, row, c)
  }

  ghost predicate Sound(parse: FlagParser, w: World) {
    && Valid(w.rows, w.nextId)
    && forall r :: r in w.rows ==> Justified(w.log, parse, r)
  }

  lemma JustifiedStays(log: seq<Call>, call: Call, parse: FlagParser, row: Row)
    requires Justified(log, parse, row) && !IsCreateOf(call, row.uid)
    ensures Justified(log + [call], parse, row)
  {
    var c: nat :| IsLatestCreate(log, row.uid, c) && Earned(log, parse, row, c);
    var longer := log + [call];
    assert longer[c] == log[c];
    assert IsLatestCreate(longer, row.uid, c);
    if row.status == Destroyed {
      var i :| c < i < |log| && Covers(log[i], parse, row);
      assert longer[i] == log[i];
    }
  }

  lemma DestroyedIsEarned(log: seq<Call>, call: Call, parse: FlagParser, row: Row)
    requires Justified(log, parse, row) && Covers(call, parse, row)
    ensures Justified(log + [call], parse, row.(status := Destroyed, error := ""))
  {
    var c: nat :| IsLatestCreate(log, row.uid, c) && Earned(log, parse, row, c);
    var longer := log + [call];
    assert longer[c] == log[c];
    assert IsLatestCreate(longer, row.uid, c);
    assert Covers(longer[|log|], parse, row.(status := Destroyed, error := ""));
  }

  lemma CreateIsSound(parse: FlagParser, w: World, q: CreateRequest)
    requires Sound(parse, w)
    ensures Sound(parse, Create(w, q).0)
  {
    var uid := RecordedUid(w.rows, q);
    if uid.Some? {
      var row := NewRow(w, q, uid.value);
      var call := CreateCall(uid.value, q.exec.success, Settled(q), q.updateOk);
      var after := Create(w, q).0;
      InsertKeepsValid(w.rows, w.nextId, row);
      if q.updateOk {
        UpdateKeepsValid(w.rows + [row], w.nextId + 1, uid.value, StatusAfterCreate(q).0, StatusAfterCreate(q).1);
      }
      assert IsLatestCreate(after.log, uid.value, |w.log|);
      forall i | 0 <= i < |after.rows| ensures Justified(after.log, parse, after.rows[i]) {
        if i < |w.rows| {
          assert after.rows[i] == w.rows[i] && w.rows[i].uid != uid.value;
          JustifiedStays(w.log, call, parse, w.rows[i]);
        } else {
          assert Earned(after.log, parse, after.rows[i], |w.log|);
        }
      }
    }
  }

  lemma ExecutedIsSound(parse: FlagParser, w: World, q: DestroyRequest)
    requires Sound(parse, w)
    ensures Sound(parse, Executed(w, q).0)
  {
    var call := DestroyCall(q.uid, q.exec.success);
    UpdateKeepsValid(w.rows, w.nextId, q.uid, Destroyed, "");
    var after := Executed(w, q).0;
    forall i | 0 <= i < |w.rows| ensures Justified(after.log, parse, after.rows[i]) {
      JustifiedStays(w.log, call, parse, w.rows[i]);
      if w.rows[i].uid == q.uid && q.exec.success {
        DestroyedIsEarned(w.log, call, parse, w.rows[i]);
      }
    }
  }

  lemma {:induction false} DeletedIsSound(parse: FlagParser, w: World, uid: string)
    requires Sound(parse, w)
    ensures Sound(parse, World(Deleted(w.rows, uid), w.nextId, w.log))
  {
    DeleteKeepsValid(w.rows, w.nextId, uid);
  }

  lemma WithRecordIsSound(registered: set<string>, parse: FlagParser, w: World, q: DestroyRequest, row: Row)
    requires Sound(parse, w)
    ensures Sound(parse, WithRecord(registered, w, q, row).0)
  {
    var after := DestroyRecorded(registered, w, q, row).0;
    assert after == w || after == Executed(w, q).0;
    ExecutedIsSound(parse, w, q);
    DeletedIsSound(parse, after, q.uid);
  }

  lemma WithoutRecordIsSound(registered: set<string>, parse: FlagParser, w: World, q: DestroyRequest)
    requires Sound(parse, w)
    ensures Sound(parse, WithoutRecord(registered, w, q).0)
  {
    var after := WithoutRecord(registered, w, q).0;
    assert after == w || after == Executed(w, q).0;
    ExecutedIsSound(parse, w, q);
  }

  lemma ByUidIsSound(registered: set<string>, parse: FlagParser, w: World, q: DestroyRequest)
    requires Sound(parse, w)
    ensures Sound(parse, DestroyByUid(registered, w, q).0)
  {
    var row := if q.queryOk then Find(w.rows, q.uid) else None;
    if row.Some? {
      WithRecordIsSound(registered, parse, w, q, row.value);
    } else if IsK8s(q.target) {
      WithoutRecordIsSound(registered, parse, w, q);
    }
  }

  lemma MatchersOnlyIsSound(parse: FlagParser, w: World, q: MatcherRequest)
    requires Sound(parse, w)
    ensures Sound(parse, MatchersOnly(parse, w, q).0)
  {
    var m := MatcherOf(q);
    var call := MatcherCall(m, q.exec.success);
    var after := MatchersOnly(parse, w, q).0;
    forall i | 0 <= i < |w.rows| ensures Justified(after.log, parse, after.rows[i]) {
      JustifiedStays(w.log, call, parse, w.rows[i]);
      if Matches(m, parse, w.rows[i]) && q.exec.success {
        DestroyedIsEarned(w.log, call, parse, w.rows[i]);
      }
    }
    assert forall r :: r in after.rows ==> Justified(after.log, parse, r);
    MarkKeepsValid(w.rows, w.nextId, m, parse, q.updateFails);
  }

  lemma MarkKeepsValid(
      rows: seq<Row>, nextId: nat, m: Matcher, parse: FlagParser, fails: set<string>)
    requires Valid(rows, nextId)
    ensures Valid(MarkMatching(rows, m, parse, fails), nextId)
  {
  }

  /** Over every run of commands, whatever fails: uids are unique, a record reads Success only if its
      own create call succeeded (and its process was found when the action hangs), Error only if it
      did not, and Destroyed only after a later successful destroy execution covering it. */
  lemma {:induction false} EveryStatusIsEarned(registered: set<string>, parse: FlagParser, w: World, cmds: seq<Command>)
    requires Sound(parse, w)
    ensures Sound(parse, Run(registered, parse, w, cmds))
    ensures Sound(parse, EMPTY)
    decreases |cmds|
  {
    if cmds != [] {
      var before := cmds[..|cmds| - 1];
      EveryStatusIsEarned(registered, parse, w, before);
      var v := Run(registered, parse, w, before);
      match cmds[|cmds| - 1]
      case CreateCmd(q) => CreateIsSound(parse, v, q);
      case DestroyCmd(q) => ByUidIsSound(registered, parse, v, q);
      case MatcherCmd(q) =>
        MatchersOnlyIsSound(parse, v, q);
        if "uid" in q.flags && q.flags["uid"] != "" {
          var byUid := q.byUid.(uid := q.flags["uid"]);
          ByUidIsSound(registered, parse, v, byUid);
          MatchersOnlyIsSound(parse, DestroyByUid(registered, v, byUid).0, q);
        }
    }
  }

  // ---------------------------------------------------------------- Destroyed is final

  /** The same record later: only its status and error may differ, and Destroyed stays. */
  predicate Continues(r: Row, later: Row) {
    && r.id == later.id && r.uid == later.uid && r.command == later.command
    && r.subCommand == later.subCommand && r.flags == later.flags
    && (r.status == Destroyed ==> later.status == Destroyed)
  }

  ghost predicate HasOrigin(rows: seq<Row>, later: Row) {
    exists r :: r in rows && Continues(r, later)
  }

  /** Every old record that is still there continues one that was there. */
  ghost predicate Continued(before: World, after: World) {
    && before.nextId <= after.nextId
    && forall r :: r in after.rows && r.id < before.nextId ==> HasOrigin(before.rows, r)
  }

  lemma SameRowsContinue(before: World, after: World)
    requires before.nextId <= after.nextId
    requires forall r :: r in after.rows ==> r in before.rows
    ensures Continued(before, after)
  {
    forall r | r in after.rows ensures HasOrigin(before.rows, r) {
      assert r in before.rows && Continues(r, r);
    }
  }

  lemma PointwiseContinue(before: World, after: World)
    requires before.nextId <= after.nextId && |before.rows| <= |after.rows|
    requires forall i :: 0 <= i < |before.rows| ==> Continues(before.rows[i], after.rows[i])
    requires forall i :: |before.rows| <= i < |after.rows| ==> after.rows[i].id >= before.nextId
    ensures Continued(before, after)
  {
    forall r | r in after.rows && r.id < before.nextId ensures HasOrigin(before.rows, r) {
      var i :| 0 <= i < |after.rows| && after.rows[i] == r;
      assert before.rows[i] in before.rows;
    }
  }

  lemma ContinuedTwice(a: World, b: World, c: World)
    requires Continued(a, b) && Continued(b, c)
    ensures Continued(a, c)
  {
    forall r | r in c.rows && r.id < a.nextId ensures HasOrigin(a.rows, r) {
      var s :| s in b.rows && Continues(s, r);
      var t :| t in a.rows && Continues(t, s);
      assert Continues(t, r);
    }
  }

  lemma CreateContinues(w: World, q: CreateRequest)
    requires Valid(w.rows, w.nextId)
    ensures Continued(w, Create(w, q).0)
  {
    if RecordedUid(w.rows, q).None? {
      SameRowsContinue(w, w);
    } else {
      PointwiseContinue(w, Create(w, q).0);
    }
  }

  lemma ExecutedContinues(w: World, q: DestroyRequest)
    ensures Continued(w, Executed(w, q).0)
  {
    PointwiseContinue(w, Executed(w, q).0);
  }

  lemma {:induction false} RemovalContinues(w: World, v: World, uid: string)
    requires Continued(w, v)
    ensures Continued(w, World(Deleted(v.rows, uid), v.nextId, v.log))
  {
    var removed := World(Deleted(v.rows, uid), v.nextId, v.log);
    SameRowsContinue(v, removed);
    ContinuedTwice(w, v, removed);
  }

  lemma WithoutRecordContinues(registered: set<string>, w: World, q: DestroyRequest)
    ensures Continued(w, WithoutRecord(registered, w, q).0)
  {
    SameRowsContinue(w, w);
    ExecutedContinues(w, q);
  }

  lemma WithRecordContinues(registered: set<string>, w: World, q: DestroyRequest, row: Row)
    ensures Continued(w, WithRecord(registered, w, q, row).0)
  {
    var after := DestroyRecorded(registered, w, q, row).0;
    assert Continued(w, after) by {
      SameRowsContinue(w, w);
      ExecutedContinues(w, q);
    }
    RemovalContinues(w, after, q.uid);
  }

  lemma ByUidContinues(registered: set<string>, w: World, q: DestroyRequest)
    ensures Continued(w, DestroyByUid(registered, w, q).0)
  {
    var row := if q.queryOk then Find(w.rows, q.uid) else None;
    if row.Some? {
      WithRecordContinues(registered, w, q, row.value);
    } else if IsK8s(q.target) {
      WithoutRecordContinues(registered, w, q);
    } else {
      SameRowsContinue(w, w);
    }
  }

  lemma StepContinues(registered: set<string>, parse: FlagParser, w: World, cmd: Command)
    requires Valid(w.rows, w.nextId)
    ensures Continued(w, Step(registered, parse, w, cmd))
  {
    match cmd
    case CreateCmd(q) => CreateContinues(w, q);
    case DestroyCmd(q) => ByUidContinues(registered, w, q);
    case MatcherCmd(q) =>
      PointwiseContinue(w, MatchersOnly(parse, w, q).0);
      if "uid" in q.flags && q.flags["uid"] != "" {
        var byUid := q.byUid.(uid := q.flags["uid"]);
        ByUidContinues(registered, w, byUid);
        var v := DestroyByUid(registered, w, byUid).0;
        PointwiseContinue(v, MatchersOnly(parse, v, q).0);
        ContinuedTwice(w, v, MatchersOnly(parse, v, q).0);
      }
  }

  lemma {:induction false} RunsContinue(registered: set<string>, parse: FlagParser, w: World, cmds: seq<Command>)
    requires Sound(parse, w)
    ensures Continued(w, Run(registered, parse, w, cmds))
    decreases |cmds|
  {
    if cmds == [] {
      SameRowsContinue(w, w);
    } else {
      var before := cmds[..|cmds| - 1];
      RunsContinue(registered, parse, w, before);
      EveryStatusIsEarned(registered, parse, w, before);
      var v := Run(registered, parse, w, before);
      StepContinues(registered, parse, v, cmds[|cmds| - 1]);
      ContinuedTwice(w, v, Run(registered, parse, w, cmds));
    }
  }

  /** A destroyed record never leaves Destroyed, whatever commands follow; it can only be deleted,
      and its id is never given out again. */
  lemma {:induction false} DestroyedIsFinal(
      registered: set<string>, parse: FlagParser, w: World, cmds: seq<Command>, r: Row, later: Row)
    requires Sound(parse, w)
    requires r in w.rows && r.status == Destroyed
    requires later in Run(registered, parse, w, cmds).rows && later.id == r.id
    ensures later.uid == r.uid && later.status == Destroyed
  {
    RunsContinue(registered, parse, w, cmds);
    ContinuedStaysDestroyed(w, Run(registered, parse, w, cmds), r, later);
  }

  lemma ContinuedStaysDestroyed(before: World, after: World, r: Row, later: Row)
    requires Valid(before.rows, before.nextId) && Continued(before, after)
    requires r in before.rows && r.status == Destroyed
    requires later in after.rows && later.id == r.id
    ensures later.uid == r.uid && later.status == Destroyed
  {
    var j :| 0 <= j < |before.rows| && before.rows[j] == r;
    assert HasOrigin(before.rows, later);
    var origin :| origin in before.rows && Continues(origin, later);
    var i :| 0 <= i < |before.rows| && before.rows[i] == origin;
    assert i == j;
  }

  // ---------------------------------------------------------------- what one command does

  lemma ByUidCallsAtMostOnce(registered: set<string>, w: World, q: DestroyRequest)
    ensures var log := DestroyByUid(registered, w, q).0.log;
            log == w.log || log == w.log + [DestroyCall(q.uid, q.exec.success)]
  {
  }

  /** No command runs a create executor for a uid that is already recorded. */
  lemma CreateNeverRunsForRecordedUid(
      registered: set<string>, parse: FlagParser, w: World, cmd: Command, i: nat)
    requires |w.log| <= i < |Step(registered, parse, w, cmd).log|
    requires Step(registered, parse, w, cmd).log[i].CreateCall?
    ensures !Recorded(w.rows, Step(registered, parse, w, cmd).log[i].uid)
    ensures cmd.CreateCmd? && i == |w.log|
  {
    match cmd
    case CreateCmd(_) =>
    case DestroyCmd(q) => ByUidCallsAtMostOnce(registered, w, q);
    case MatcherCmd(q) =>
      if "uid" in q.flags && q.flags["uid"] != "" {
        ByUidCallsAtMostOnce(registered, w, q.byUid.(uid := q.flags["uid"]));
      }
  }

  /** A create that asks for a recorded uid changes nothing and calls nothing. */
  lemma DuplicateUidIsRefused(w: World, q: CreateRequest)
    requires q.uid != "" && Recorded(w.rows, q.uid)
    ensures Create(w, q) == (w, Refused(false))
  {
  }

  /** A create reports success exactly when its executor did. Report and record disagree exactly
      when that success could not be recorded, because the status update failed, or was recorded as
      Error, because the process of a locally hanging action is not found. */
  lemma ReportAndRecordDisagreeExactlyWhen(w: World, q: CreateRequest)
    requires RecordedUid(w.rows, q).Some?
    ensures var (after, reply) := Create(w, q);
            && |after.rows| == |w.rows| + 1 && after.rows[..|w.rows|] == w.rows
            && after.rows[|w.rows|].uid == RecordedUid(w.rows, q).value
            && (reply == Done <==> q.exec.success)
            && ((reply == Done) != (after.rows[|w.rows|].status == Success) <==>
                q.exec.success && (!q.updateOk || (HangsLocally(q) && !q.process.Alive?)))
  {
    var after := Create(w, q).0;
    assert forall i :: 0 <= i < |w.rows| ==> after.rows[i] == w.rows[i];
  }

  /** A reported success can leave its record at Created, without any hanging action. */
  lemma SuccessCanStayUnrecorded() returns (q: CreateRequest)
    ensures !HangsLocally(q) && Create(EMPTY, q).1 == Done
    ensures |Create(EMPTY, q).0.rows| == 1 && Create(EMPTY, q).0.rows[0].status == Created
  {
    q := SuccessfulCreate(false, NoResult, false);
    ReportAndRecordDisagreeExactlyWhen(EMPTY, q);
  }

  /** A reported success can be recorded as Error. */
  lemma SuccessCanReadError() returns (q: CreateRequest)
    ensures q.updateOk && Create(EMPTY, q).1 == Done
    ensures |Create(EMPTY, q).0.rows| == 1 && Create(EMPTY, q).0.rows[0].status == Error
  {
    q := SuccessfulCreate(true, NoResult, true);
    ReportAndRecordDisagreeExactlyWhen(EMPTY, q);
  }

  lemma SuccessfulCreate(hangs: bool, process: Process, updateOk: bool) returns (q: CreateRequest)
    ensures RecordedUid(EMPTY.rows, q) == Some("a") && q.exec.success
    ensures q.processHang == hangs && q.scope == "host" && q.channel == ""
    ensures q.process == process && q.updateOk == updateOk
  {
    PathIsRecorded("blade", "create", "", "cpu", "load");
    q := CreateRequest(CreatePath("blade", "create", "", "cpu", "load"), "", "a", [], true,
                       ExecResult(true, "", false), hangs, "host", "", process, updateOk);
  }

  predicate ReachesExecutorWithoutRecord(registered: set<string>, q: DestroyRequest) {
    IsK8s(q.target) && q.uid != "" && q.kubeconfig != "" && q.resource.Live? && q.resource.key in registered
  }

  /** Destroying a destroyed record by uid calls an executor again exactly when the lookup of the
      record fails and the request targets Kubernetes and finds a live resource there. */
  lemma DestroyedRunsAgainExactlyWhen(registered: set<string>, w: World, q: DestroyRequest)
    requires Find(w.rows, q.uid).Some? && Find(w.rows, q.uid).value.status == Destroyed
    ensures var (after, reply) := DestroyByUid(registered, w, q);
            && |after.log| >= |w.log|
            && (after.log != w.log <==> !q.queryOk && ReachesExecutorWithoutRecord(registered, q))
            && (reply == Refused(true) ==> after.log != w.log)
  {
  }

  /** So does a destroy by matchers that carries its uid: it never goes on to the matchers alone. */
  lemma DestroyedRunsAgainByMatchersExactlyWhen(
      registered: set<string>, parse: FlagParser, w: World, m: MatcherRequest)
    requires "uid" in m.flags && m.flags["uid"] != ""
    requires var found := Find(w.rows, m.flags["uid"]); found.Some? && found.value.status == Destroyed
    ensures var q := m.byUid.(uid := m.flags["uid"]);
            DestroyByMatchers(registered, parse, w, m).0.log != w.log <==>
            !q.queryOk && ReachesExecutorWithoutRecord(registered, q)
  {
    DestroyedRunsAgainExactlyWhen(registered, w, m.byUid.(uid := m.flags["uid"]));
  }

  /** A destroyed record whose lookup fails is executed again. */
  lemma FailedLookupRunsAgain(w: World, row: Row, exec: ExecResult)
    requires w.rows == [row] && row.status == Destroyed && row.uid != ""
    ensures var q := DestroyRequest(row.uid, "k8s", "config", false, Live("k8s-pod-cpu"), exec,
                                    true, false, true, true);
            DestroyByUid({"k8s-pod-cpu"}, w, q).0.log == w.log + [DestroyCall(row.uid, exec.success)]
  {
    assert Lower("k8s") == "k8s";
  }

  /** Force-remove deletes the record whatever the destroy came to, and no other record. */
  lemma ForceRemoveDeletesTheRecord(registered: set<string>, w: World, q: DestroyRequest)
    requires q.queryOk && Recorded(w.rows, q.uid) && q.forceRemove && q.deleteOk
    ensures var after := DestroyByUid(registered, w, q).0;
            && !Recorded(after.rows, q.uid)
            && forall r: Row :: r.uid != q.uid ==> (r in after.rows <==> r in w.rows)
  {
    var after := DestroyByUid(registered, w, q).0;
    var marked := Updated(w.rows, q.uid, Destroyed, "");
    forall r: Row | r.uid != q.uid ensures r in marked <==> r in w.rows {
      if r in w.rows {
        var i :| 0 <= i < |w.rows| && w.rows[i] == r;
        assert marked[i] == r;
      }
    }
    assert forall i :: 0 <= i < |after.rows| ==> after.rows[i] in after.rows;
  }

  lemma {:induction false} FindNew(rows: seq<Row>, row: Row)
    requires !Recorded(rows, row.uid)
    ensures Find(rows + [row], row.uid) == Some(row)
  {
    if rows != [] {
      assert forall i :: 0 <= i < |rows| - 1 ==> rows[1..][i] == rows[i + 1];
      assert (rows + [row])[1..] == rows[1..] + [row];
      FindNew(rows[1..], row);
    }
  }

  /** From the command line to the record and back: an experiment created through a registered
      command is destroyed by its uid through the same executor, and ends up Destroyed with every
      other record untouched. */
  lemma CreateThenDestroy(registered: set<string>, w: World, q: CreateRequest, d: DestroyRequest,
                          root: string, parent: string, name: string, action: string)
    requires IsWord(root) && IsWord(name) && IsWord(action) && (parent == "" || IsWord(parent))
    requires q.path == CreatePath(root, "create", parent, name, action)
    requires CreateExecutorKey(parent, name, action) in registered
    requires RecordedUid(w.rows, q) == Some(d.uid) && d.queryOk && !d.forceRemove
    ensures var v := Create(w, q).0;
            var (after, reply) := DestroyByUid(registered, v, d);
            && after.log == v.log + [DestroyCall(d.uid, d.exec.success)]
            && (d.exec.success && d.updateOk ==>
                  && reply == Done && |after.rows| == |w.rows| + 1 && after.rows[..|w.rows|] == w.rows
                  && after.rows[|w.rows|].uid == d.uid && after.rows[|w.rows|].status == Destroyed)
  {
    CreatedIsExecuted(registered, w, q, d, root, parent, name, action);
    CreateAppends(w, q);
    var v := Create(w, q).0;
    ExecutedMarksTheLast(w.rows, v, d, v.rows[|w.rows|]);
  }

  lemma CreatedIsExecuted(registered: set<string>, w: World, q: CreateRequest, d: DestroyRequest,
                          root: string, parent: string, name: string, action: string)
    requires IsWord(root) && IsWord(name) && IsWord(action) && (parent == "" || IsWord(parent))
    requires q.path == CreatePath(root, "create", parent, name, action)
    requires CreateExecutorKey(parent, name, action) in registered
    requires RecordedUid(w.rows, q) == Some(d.uid) && d.queryOk && !d.forceRemove
    ensures DestroyByUid(registered, Create(w, q).0, d) == Executed(Create(w, q).0, d)
  {
    RecordFindsItsExecutor(root, "create", parent, name, action);
    CreateAppends(w, q);
    var v := Create(w, q).0;
    FindNew(w.rows, v.rows[|w.rows|]);
    RecordIsExecuted(registered, v, d, v.rows[|w.rows|]);
  }

  lemma ExecutedMarksTheLast(rows: seq<Row>, v: World, d: DestroyRequest, row: Row)
    requires v.rows == rows + [row] && row.uid == d.uid && !Recorded(rows, d.uid)
    ensures var (after, reply) := Executed(v, d);
            && after.log == v.log + [DestroyCall(d.uid, d.exec.success)]
            && (d.exec.success && d.updateOk ==>
                  && reply == Done && |after.rows| == |rows| + 1 && after.rows[..|rows|] == rows
                  && after.rows[|rows|].uid == d.uid && after.rows[|rows|].status == Destroyed)
  {
    var after := Executed(v, d).0;
    assert forall i :: 0 <= i < |rows| ==> after.rows[i] == rows[i];
  }

  lemma RecordIsExecuted(registered: set<string>, v: World, d: DestroyRequest, row: Row)
    requires Find(v.rows, d.uid) == Some(row) && row.status != Destroyed && d.queryOk && !d.forceRemove
    requires KeyOfRecord(RecordedCommand(row.command, row.subCommand)) in registered
    ensures DestroyByUid(registered, v, d) == Executed(v, d)
  {
  }

  /** A destroy by matchers asks for the command and sub-command that the create of the same experiment
      recorded exactly when the experiment is local and has no parent command, or when its scope keeps
      plain names and is its parent. In the Kubernetes scopes it never does. */
  lemma RecordIsMatchedExactlyWhen(root: string, parent: string, q: MatcherRequest)
    requires IsWord(root) && IsWord(q.target) && IsWord(q.action) && ' ' !in q.scope
    requires parent == "" || IsWord(parent)
    ensures var recorded :=
              ParseCommandPath(CreatePath(root, "create", parent, CommandName(q.scope, q.target), q.action));
            && recorded.Some?
            && (recorded.value == RecordedCommand(MatcherOf(q).command, MatcherOf(q).subCommand) <==>
                if q.scope == "" || q.scope == "host" then parent == ""
                else parent == q.scope && KeepsPlainName(q.scope))
  {
    var name := CommandName(q.scope, q.target);
    PathIsRecorded(root, "create", parent, name, q.action);
    var asked := q.target + " " + q.action;
    var recorded := name + " " + q.action;
    assert asked[|q.target|] == ' ' && recorded[|name|] == ' ';
    if asked == recorded {
      assert |name| == |q.target| && name == recorded[..|name|] && q.target == asked[..|q.target|];
    }
  }

  /** A Kubernetes experiment whose record a destroy by matchers does not ask for. */
  lemma KubernetesRecordIsMissed(q: MatcherRequest)
    requires q.scope == "pod" && q.target == "cpu" && q.action == "load"
    ensures ParseCommandPath(CreatePath("blade", "create", "k8s", CommandName("pod", "cpu"), "load")) !=
            Some(RecordedCommand(MatcherOf(q).command, MatcherOf(q).subCommand))
  {
    RecordIsMatchedExactlyWhen("blade", "k8s", q);
  }

  lemma CreateAppends(w: World, q: CreateRequest)
    requires RecordedUid(w.rows, q).Some?
    ensures var v := Create(w, q).0;
            && |v.rows| == |w.rows| + 1 && v.rows == w.rows + [v.rows[|w.rows|]]
            && var row := v.rows[|w.rows|];
            && row.uid == RecordedUid(w.rows, q).value && row.status != Destroyed
            && row.command == ParseCommandPath(q.path).value.command
            && row.subCommand == ParseCommandPath(q.path).value.subCommand
  {
    var v := Create(w, q).0;
    assert forall i :: 0 <= i < |w.rows| ==> v.rows[i] == w.rows[i];
  }

  // ---------------------------------------------------------------- the commands, step by step

  /** The commands as they change the store and call executors, each proved equal to its function. */
  class Cli {
    const store: ExperimentStore
    const registered: set<string>
    ghost var log: seq<Call>

    constructor (store: ExperimentStore, registered: set<string>)
      ensures this.store == store && this.registered == registered && log == []
    {
      this.store, this.registered, this.log := store, registered, [];
    }

    ghost function State(): World
      reads this, store
    {
      World(store.rows, store.nextId, log)
    }

    /** generateUid: try uids until one is not recorded. */
    method NextUid(candidates: seq<Candidate>) returns (uid: Option<string>)
      ensures uid == GenerateUid(store.rows, candidates)
    {
      var i := 0;
      while i < |candidates|
        invariant i <= |candidates|
        invariant GenerateUid(store.rows, candidates) == GenerateUid(store.rows, candidates[i..])
      {
        if candidates[i].NoUid? || !candidates[i].queryOk {
          return None;
        }
        if !Recorded(store.rows, candidates[i].uid) {
          return Some(candidates[i].uid);
        }
        assert candidates[i..][1..] == candidates[i + 1..];
        i := i + 1;
      }
      return None;
    }

    /** recordExpModel: the record is inserted before anything is executed. */
    method RecordExperiment(q: CreateRequest) returns (uid: Option<string>)
      requires store.Consistent()
      modifies store
      ensures store.Consistent()
      ensures uid == RecordedUid(old(store.rows), q)
      ensures store.rows ==
              if uid.Some? then old(store.rows) + [NewRow(old(State()), q, uid.value)] else old(store.rows)
      ensures store.nextId == old(store.nextId) + if uid.Some? then 1 else 0
    {
      uid := if q.uid != "" then Some(q.uid) else None;
      if uid.None? {
        uid := NextUid(q.candidates);
        if uid.None? {
          return None;
        }
      }
      var command := ParseCommandPath(q.path);
      if command.None? {
        return None;
      }
      var inserted := store.Insert(uid.value, command.value.command, command.value.subCommand, q.flags, q.insertOk);
      if !inserted {
        return None;
      }
    }

    method CreateExperiment(q: CreateRequest) returns (reply: Reply)
      requires store.Consistent()
      modifies this`log, store
      ensures store.Consistent()
      ensures (State(), reply) == Create(old(State()), q)
    {
      var uid := RecordExperiment(q);
      if uid.None? {
        return Refused(false);
      }
      log := log + [CreateCall(uid.value, q.exec.success, Settled(q), q.updateOk)];
      RecordOutcome(uid.value, q);
      reply := if q.exec.success then Done else Refused(q.exec.dataNotFound);
      assert State() == Create(old(State()), q).0;
    }

    method RecordOutcome(uid: string, q: CreateRequest)
      requires store.Consistent()
      modifies store`rows
      ensures store.Consistent()
      ensures store.rows ==
              if q.updateOk then Updated(old(store.rows), uid, StatusAfterCreate(q).0, StatusAfterCreate(q).1)
              else old(store.rows)
    {
      if !q.exec.success {
        store.Update(uid, Error, q.exec.error, q.updateOk);
      } else if HangsLocally(q) {
        match q.process {
          case NoResult => store.Update(uid, Error, PROCESS_NOT_FOUND, q.updateOk);
          case Missing(reason) => store.Update(uid, Error, PROCESS_NOT_FOUND + ", err: " + reason, q.updateOk);
          case Alive => store.Update(uid, Success, q.exec.error, q.updateOk);
        }
      } else {
        store.Update(uid, Success, q.exec.error, q.updateOk);
      }
    }

    method ExecuteDestroy(q: DestroyRequest) returns (reply: Reply)
      requires store.Consistent()
      modifies this`log, store`rows
      ensures store.Consistent()
      ensures (State(), reply) == Executed(old(State()), q)
    {
      log := log + [DestroyCall(q.uid, q.exec.success)];
      if !q.exec.success {
        return Refused(q.exec.dataNotFound);
      }
      store.Update(q.uid, Destroyed, "", q.updateOk);
      return Done;
    }

    method DestroyUnrecorded(q: DestroyRequest) returns (reply: Reply)
      requires store.Consistent()
      modifies this`log, store`rows
      ensures store.Consistent()
      ensures (State(), reply) == WithoutRecord(registered, old(State()), q)
    {
      if q.uid == "" || q.kubeconfig == "" {
        return Refused(false);
      }
      match q.resource {
        case Unavailable => return Refused(false);
        case Gone => reply := Done;
        case Live(key) =>
          if key !in registered {
            return Refused(false);
          }
          reply := ExecuteDestroy(q);
      }
      if reply == Done && q.forceRemove && !q.removeOk {
        reply := Refused(false);
      }
    }

    method DestroyRecord(q: DestroyRequest, row: Row) returns (reply: Reply)
      requires store.Consistent()
      modifies this`log, store`rows
      ensures store.Consistent()
      ensures (State(), reply) == WithRecord(registered, old(State()), q, row)
    {
      if row.status == Destroyed {
        reply := Done;
      } else if KeyOfRecord(RecordedCommand(row.command, row.subCommand)) !in registered {
        reply := Refused(false);
      } else {
        reply := ExecuteDestroy(q);
      }
      if q.forceRemove {
        store.Delete(q.uid, q.deleteOk);
        if reply == Done && (!q.deleteOk || (IsK8s(q.target) && !q.removeOk)) {
          reply := Refused(false);
        }
      }
    }

    method Destroy(q: DestroyRequest) returns (reply: Reply)
      requires store.Consistent()
      modifies this`log, store`rows
      ensures store.Consistent()
      ensures (State(), reply) == DestroyByUid(registered, old(State()), q)
    {
      var row := if q.queryOk then Find(store.rows, q.uid) else None;
      if row.Some? {
        reply := DestroyRecord(q, row.value);
      } else if IsK8s(q.target) {
        reply := DestroyUnrecorded(q);
      } else {
        reply := Refused(q.queryOk);
      }
    }

    /** The update loop over the records found: it changes exactly the matching rows. */
    method MarkRecords(m: Matcher, parse: FlagParser, queryOk: bool, fails: set<string>)
      requires store.Consistent()
      modifies store`rows
      ensures store.Consistent()
      ensures store.rows == if queryOk then MarkMatching(old(store.rows), m, parse, fails) else old(store.rows)
    {
      var found := store.QueryByCommand(m, parse, queryOk);
      if found.None? {
        return;
      }
      var records := found.value;
      ghost var start := store.rows;
      for i := 0 to |records|
        invariant store.Consistent() && |store.rows| == |start|
        invariant forall k :: 0 <= k < |start| ==>
                    store.rows[k] == if start[k] in records[..i] && start[k].uid !in fails
                                     then start[k].(status := Destroyed, error := "") else start[k]
      {
        assert records[i] in start;
        assert forall k :: 0 <= k < |start| ==> (start[k].uid == records[i].uid <==> start[k] == records[i]);
        assert records[..i + 1] == records[..i] + [records[i]];
        store.Update(records[i].uid, Destroyed, "", records[i].uid !in fails);
      }
      assert records[..|records|] == records;
      assert store.rows == MarkMatching(start, m, parse, fails);
    }

    method DestroyMatching(parse: FlagParser, q: MatcherRequest) returns (reply: Reply)
      requires store.Consistent()
      modifies this`log, store`rows
      ensures store.Consistent()
      ensures (State(), reply) == DestroyByMatchers(registered, parse, old(State()), q)
    {
      if "uid" in q.flags && q.flags["uid"] != "" {
        reply := Destroy(q.byUid.(uid := q.flags["uid"]));
        if reply != Refused(true) {
          return;
        }
      }
      log := log + [MatcherCall(MatcherOf(q), q.exec.success)];
      if !q.exec.success {
        return Refused(q.exec.dataNotFound);
      }
      MarkRecords(MatcherOf(q), parse, q.queryOk, q.updateFails);
      reply := Done;
    }
  }
}
