/** JVM preparations: attaching an agent from the command line (cli/cmd/prepare_jvm.go,
    cli/cmd/prepare.go) or from an experiment (exec/jvm/executor.go), and revoking it
    (cli/cmd/revoke.go), over the preparation table (data/preparation.go).

    Processes, attach calls and the database answer arbitrarily: the answers are part of each
    request. */
module Preparations {
  import opened Text
  import opened Wrappers

  datatype Status = Created | Running | Error | Revoked

  datatype Row = Row(id: nat, uid: string, programType: string, process: string, pid: string, port: string,
                     status: Status, error: string)

  datatype Table = Table(rows: seq<Row>, nextId: nat)

  /** A process id as the operating system lists it. */
  type Pid = s: string | s != "" witness "1"

  const JVM := "jvm"

  // ---------------------------------------------------------------- the flags

  /** CheckFlagValues: `exists` is none when the check itself failed, `pids` when the listing did. */
  function CheckedPid(name: string, pid: string, exists_: Option<bool>, pids: Option<seq<Pid>>): Option<string> {
    if name == "" then
      if pid != "" && exists_ == Some(true) then Some(pid) else None
    else if pids.None? || pids.value == [] then None
    else if |pids.value| == 1 then
      if pid == "" || pid == pids.value[0] then Some(pids.value[0]) else None
    else if pid != "" && exists i :: 0 <= i < |pids.value| && pids.value[i] == pid then Some(pid)
    else None
  }

  /** Flags are accepted with a process id exactly when that id is unambiguous: the one asked for, and
      listed under the name if there is a name, or the only one listed when none was asked for. */
  lemma AcceptedPids(
      name: string, pid: string, exists_: Option<bool>, pids: Option<seq<Pid>>, v: string)
    ensures CheckedPid(name, pid, exists_, pids) == Some(v) <==>
            && v != "" && (pid != "" ==> v == pid)
            && (name == "" ==> pid != "" && exists_ == Some(true))
            && (name != "" ==> && pids.Some? && (pid == "" ==> |pids.value| == 1)
                               && exists i :: 0 <= i < |pids.value| && pids.value[i] == v)
  {
    if name != "" && pids.Some? && |pids.value| == 1 {
      assert pids.value[0] == pids.value[0];
    }
  }

  method CheckFlagValues(name: string, pid: string, exists_: Option<bool>, pids: Option<seq<Pid>>)
    returns (r: Option<string>)
    ensures r == CheckedPid(name, pid, exists_, pids)
  {
    if name == "" {
      if pid == "" || exists_.None? || !exists_.value {
        return None;
      }
      return Some(pid);
    }
    if pids.None? || pids.value == [] {
      return None;
    }
    if |pids.value| == 1 {
      if pid == "" {
        return Some(pids.value[0]);
      }
      return if pid != pids.value[0] then None else Some(pid);
    }
    if pid == "" {
      return None;
    }
    var contains := false;
    for i := 0 to |pids.value|
      invariant !contains && forall j :: 0 <= j < i ==> pids.value[j] != pid
    {
      if pids.value[i] == pid {
        contains := true;
        break;
      }
    }
    return if contains then Some(pid) else None;
  }

  // ---------------------------------------------------------------- the table

  ghost predicate Valid(t: Table) {
    && (forall i, j :: 0 <= i < j < |t.rows| ==> t.rows[i].id < t.rows[j].id && t.rows[i].uid != t.rows[j].uid)
    && (forall i :: 0 <= i < |t.rows| ==> t.rows[i].id < t.nextId)
  }

  predicate Recorded(rows: seq<Row>, uid: string) {
    exists i :: 0 <= i < |rows| && rows[i].uid == uid
  }

  /** QueryRunningPreByTypeAndProcess: only the non-empty arguments filter. */
  predicate Selected(r: Row, programType: string, name: string, pid: string) {
    && r.programType == programType && r.status == Running
    && (pid != "" ==> r.pid == pid) && (name != "" ==> r.process == name)
  }

  /** The place of the first selected row, or the number of rows. */
  function FirstRunning(rows: seq<Row>, programType: string, name: string, pid: string): (at: nat)
    ensures at <= |rows|
    ensures at < |rows| ==> Selected(rows[at], programType, name, pid)
    ensures forall i :: 0 <= i < at ==> !Selected(rows[i], programType, name, pid)
  {
    if rows == [] || Selected(rows[0], programType, name, pid) then 0
    else 1 + FirstRunning(rows[1..], programType, name, pid)
  }

  function FirstWithUid(rows: seq<Row>, uid: string): (at: nat)
    ensures at <= |rows|
    ensures at < |rows| ==> rows[at].uid == uid
    ensures forall i :: 0 <= i < at ==> rows[i].uid != uid
  {
    if rows == [] || rows[0].uid == uid then 0 else 1 + FirstWithUid(rows[1..], uid)
  }

  // ---------------------------------------------------------------- prepare

  datatype Attach = Attach(success: bool, error: string, userKnown: bool)

  /** `retryPort` is the port found in the sandbox token, `retry` the answer there. `port` is the
      port flag, empty when unset; `uid` the generated uid, none when generation failed. */
  datatype PrepareRequest = PrepareRequest(
    fromCli: bool, name: string, pid: string, exists_: Option<bool>, pids: Option<seq<Pid>>, queryOk: bool,
    port: string, sandboxPort: Option<string>, uid: Option<string>, insertOk: bool,
    attach: Attach, retryPort: Option<string>, retry: Attach, portOk: bool, pidOk: bool, statusOk: bool)

  predicate Retries(q: PrepareRequest) {
    !q.attach.success && q.attach.userKnown && Contains(q.attach.error, "connection refused") && q.retryPort.Some?
  }

  function FinalAttach(q: PrepareRequest): Attach {
    if Retries(q) then q.retry else q.attach
  }

  /** What preparing leaves of the row it works on. */
  function Touched(r: Row, pid: string, q: PrepareRequest): Row {
    var ported := if Retries(q) && q.retry.success && q.portOk then r.(port := q.retryPort.value) else r;
    var moved := if r.pid != pid && q.pidOk then ported.(pid := pid) else ported;
    if !q.statusOk then moved
    else if FinalAttach(q).success then moved.(status := Running, error := "")
    else moved.(status := Error, error := FinalAttach(q).error)
  }

  function Attached(t: Table, uid: string, pid: string, q: PrepareRequest): (after: Table)
    ensures |after.rows| == |t.rows| && after.nextId == t.nextId
    ensures forall i :: 0 <= i < |t.rows| ==>
              after.rows[i] == if t.rows[i].uid == uid then Touched(t.rows[i], pid, q) else t.rows[i]
  {
    Table(seq(|t.rows|, i requires 0 <= i < |t.rows| =>
            if t.rows[i].uid == uid then Touched(t.rows[i], pid, q) else t.rows[i]),
          t.nextId)
  }

  /** Whether a running record is found and used. An experiment also ignores one without a uid, and
      takes a failed lookup for none. */
  predicate Reuses(t: Table, q: PrepareRequest, pid: string) {
    var at := FirstRunning(t.rows, JVM, q.name, pid);
    q.queryOk && at < |t.rows| && (q.fromCli || t.rows[at].uid != "")
  }

  function NewPort(q: PrepareRequest): Option<string> {
    if q.fromCli && q.port != "" then Some(q.port) else q.sandboxPort
  }

  predicate Inserts(t: Table, q: PrepareRequest) {
    NewPort(q).Some? && q.uid.Some? && q.insertOk && !Recorded(t.rows, q.uid.value)
  }

  function Inserted(t: Table, q: PrepareRequest, pid: string): Table
    requires Inserts(t, q)
  {
    Table(t.rows + [Row(t.nextId, q.uid.value, JVM, q.name, pid, NewPort(q).value, Created, "")], t.nextId + 1)
  }

  function Prepare(t: Table, q: PrepareRequest): Table {
    var pid := CheckedPid(q.name, q.pid, q.exists_, q.pids);
    if pid.None? || (q.fromCli && !q.queryOk) then t
    else if Reuses(t, q, pid.value) then
      var r := t.rows[FirstRunning(t.rows, JVM, q.name, pid.value)];
      if q.fromCli && q.port != "" && q.port != r.port then t else Attached(t, r.uid, pid.value, q)
    else if Inserts(t, q) then Attached(Inserted(t, q, pid.value), q.uid.value, pid.value, q)
    else t
  }

  // ---------------------------------------------------------------- revoke

  datatype RevokeRequest = RevokeRequest(uid: string, queryOk: bool, success: bool, error: string, updateOk: bool)

  function WithStatus(t: Table, uid: string, status: Status, error: string): (after: Table)
    ensures |after.rows| == |t.rows| && after.nextId == t.nextId
    ensures forall i :: 0 <= i < |t.rows| ==>
              after.rows[i] == if t.rows[i].uid == uid then t.rows[i].(status := status, error := error) else t.rows[i]
  {
    Table(seq(|t.rows|, i requires 0 <= i < |t.rows| =>
            if t.rows[i].uid == uid then t.rows[i].(status := status, error := error) else t.rows[i]),
          t.nextId)
  }

  function WithPort(rows: seq<Row>, uid: string, port: string): (after: seq<Row>)
    ensures |after| == |rows|
    ensures forall i :: 0 <= i < |rows| ==>
              after[i] == if rows[i].uid == uid then rows[i].(port := port) else rows[i]
  {
    seq(|rows|, i requires 0 <= i < |rows| => if rows[i].uid == uid then rows[i].(port := port) else rows[i])
  }

  function WithPid(rows: seq<Row>, uid: string, pid: string): (after: seq<Row>)
    ensures |after| == |rows|
    ensures forall i :: 0 <= i < |rows| ==>
              after[i] == if rows[i].uid == uid then rows[i].(pid := pid) else rows[i]
  {
    seq(|rows|, i requires 0 <= i < |rows| => if rows[i].uid == uid then rows[i].(pid := pid) else rows[i])
  }

  /** The three updates of an attach one after the other. */
  function Ported(rows: seq<Row>, uid: string, q: PrepareRequest): seq<Row> {
    if Retries(q) && q.retry.success && q.portOk then WithPort(rows, uid, q.retryPort.value) else rows
  }

  function Moved(rows: seq<Row>, uid: string, recordedPid: string, pid: string, q: PrepareRequest): seq<Row> {
    if recordedPid != pid && q.pidOk then WithPid(rows, uid, pid) else rows
  }

  function Concluded(t: Table, uid: string, q: PrepareRequest): seq<Row> {
    if !q.statusOk then t.rows
    else if FinalAttach(q).success then WithStatus(t, uid, Running, "").rows
    else WithStatus(t, uid, Error, FinalAttach(q).error).rows
  }

  lemma UpdatesAttach(t: Table, uid: string, recordedPid: string, pid: string, q: PrepareRequest)
    requires forall i :: 0 <= i < |t.rows| && t.rows[i].uid == uid ==> t.rows[i].pid == recordedPid
    ensures Concluded(Table(Moved(Ported(t.rows, uid, q), uid, recordedPid, pid, q), t.nextId), uid, q) ==
            Attached(t, uid, pid, q).rows
  {
    var ported := Ported(t.rows, uid, q);
    var moved := Moved(ported, uid, recordedPid, pid, q);
    var concluded := Concluded(Table(moved, t.nextId), uid, q);
    forall i | 0 <= i < |t.rows| ensures concluded[i] == Attached(t, uid, pid, q).rows[i] {
      assert ported[i].uid == moved[i].uid == t.rows[i].uid;
    }
  }

  predicate CanRevoke(programType: string) {
    programType == JVM || programType == "cplus" || programType == "k8s"
  }

  function Revoke(t: Table, q: RevokeRequest): Table {
    var at := FirstWithUid(t.rows, q.uid);
    if !q.queryOk || at == |t.rows| || t.rows[at].status == Revoked || !CanRevoke(t.rows[at].programType) then t
    else if !q.updateOk then t
    else if q.success || Contains(q.error, "connection refused") then WithStatus(t, q.uid, Revoked, "")
    else WithStatus(t, q.uid, t.rows[at].status, "revoke failed. " + q.error)
  }

  // ---------------------------------------------------------------- runs

  datatype Command = PrepareCmd(p: PrepareRequest) | RevokeCmd(r: RevokeRequest)

  function Step(t: Table, cmd: Command): Table {
    match cmd
    case PrepareCmd(q) => Prepare(t, q)
    case RevokeCmd(q) => Revoke(t, q)
  }

  function Run(t: Table, cmds: seq<Command>): Table {
    if cmds == [] then t else Step(Run(t, cmds[..|cmds| - 1]), cmds[|cmds| - 1])
  }

  lemma SameRowsAreValid(t: Table, after: Table)
    requires Valid(t) && |after.rows| == |t.rows| && after.nextId == t.nextId
    requires forall i :: 0 <= i < |t.rows| ==> after.rows[i].id == t.rows[i].id && after.rows[i].uid == t.rows[i].uid
    ensures Valid(after)
  {
    forall i, j | 0 <= i < j < |t.rows|
      ensures after.rows[i].id < after.rows[j].id && after.rows[i].uid != after.rows[j].uid
    {
      assert t.rows[i].id < t.rows[j].id && t.rows[i].uid != t.rows[j].uid;
    }
  }

  lemma InsertedIsValid(t: Table, q: PrepareRequest, pid: string)
    requires Valid(t) && Inserts(t, q)
    ensures Valid(Inserted(t, q, pid))
  {
  }

  lemma PrepareIsValid(t: Table, q: PrepareRequest)
    requires Valid(t)
    ensures Valid(Prepare(t, q))
  {
    var pid := CheckedPid(q.name, q.pid, q.exists_, q.pids);
    if pid.Some? && !(q.fromCli && !q.queryOk) {
      if Reuses(t, q, pid.value) {
        AttachedIsValid(t, t.rows[FirstRunning(t.rows, JVM, q.name, pid.value)].uid, pid.value, q);
      } else if Inserts(t, q) {
        InsertedIsValid(t, q, pid.value);
        AttachedIsValid(Inserted(t, q, pid.value), q.uid.value, pid.value, q);
      }
    }
  }

  lemma AttachedIsValid(t: Table, uid: string, pid: string, q: PrepareRequest)
    requires Valid(t)
    ensures Valid(Attached(t, uid, pid, q))
  {
    SameRowsAreValid(t, Attached(t, uid, pid, q));
  }

  lemma StepIsValid(t: Table, cmd: Command)
    requires Valid(t)
    ensures Valid(Step(t, cmd))
  {
    match cmd
    case PrepareCmd(q) => PrepareIsValid(t, q);
    case RevokeCmd(q) => SameRowsAreValid(t, Revoke(t, q));
  }

  // ---------------------------------------------------------------- one running row per process

  predicate SameKey(a: Row, b: Row) {
    a.programType == b.programType && a.process == b.process && a.pid == b.pid
  }

  predicate Clash(a: Row, b: Row) {
    a.status == Running && b.status == Running && SameKey(a, b)
  }

  /** At most one Running row per type, process and process id. */
  ghost predicate OneRunning(rows: seq<Row>) {
    forall i, j :: 0 <= i < j < |rows| ==> !Clash(rows[i], rows[j])
  }

  predicate IsRunningFor(r: Row, name: string, pid: string) {
    r.status == Running && r.programType == JVM && r.process == name && r.pid == pid
  }

  predicate AlreadyRunning(rows: seq<Row>, name: string, pid: string) {
    exists i :: 0 <= i < |rows| && IsRunningFor(rows[i], name, pid)
  }

  /** The guard under which a prepare duplicates: it inserts a row, and brings it to Running, for a
      process that has one running already. */
  predicate Duplicates(t: Table, q: PrepareRequest) {
    var pid := CheckedPid(q.name, q.pid, q.exists_, q.pids);
    && pid.Some? && !(q.fromCli && !q.queryOk) && !Reuses(t, q, pid.value) && Inserts(t, q)
    && FinalAttach(q).success && q.statusOk && AlreadyRunning(t.rows, q.name, pid.value)
  }

  /** A request from the command line never duplicates; an experiment's only after a failed lookup or
      over a row without uid. */
  lemma OnlyExperimentsDuplicate(t: Table, q: PrepareRequest)
    requires Duplicates(t, q)
    ensures !q.fromCli
    ensures q.queryOk ==> exists i :: 0 <= i < |t.rows| && t.rows[i].uid == "" && t.rows[i].status == Running
  {
    var pid := CheckedPid(q.name, q.pid, q.exists_, q.pids).value;
    AcceptedPids(q.name, q.pid, q.exists_, q.pids, pid);
    var i :| 0 <= i < |t.rows| && IsRunningFor(t.rows[i], q.name, pid);
    assert Selected(t.rows[i], JVM, q.name, pid);
  }

  /** The row found already has the process id asked for: its pid is never rewritten. */
  lemma FoundRowKeepsItsPid(t: Table, q: PrepareRequest)
    requires CheckedPid(q.name, q.pid, q.exists_, q.pids).Some?
    ensures var pid := CheckedPid(q.name, q.pid, q.exists_, q.pids).value;
            var at := FirstRunning(t.rows, JVM, q.name, pid);
            at < |t.rows| ==> t.rows[at].pid == pid && Touched(t.rows[at], pid, q).pid == pid
  {
    var pid := CheckedPid(q.name, q.pid, q.exists_, q.pids).value;
    AcceptedPids(q.name, q.pid, q.exists_, q.pids, pid);
  }

  lemma ReusingKeepsOneRunning(t: Table, q: PrepareRequest, pid: string, at: nat)
    requires Valid(t) && OneRunning(t.rows)
    requires at < |t.rows| && t.rows[at].status == Running && t.rows[at].pid == pid
    ensures OneRunning(Attached(t, t.rows[at].uid, pid, q).rows)
  {
    var after := Attached(t, t.rows[at].uid, pid, q).rows;
    forall i, j | 0 <= i < j < |after| ensures !Clash(after[i], after[j]) {
      assert !Clash(t.rows[i], t.rows[j]);
      assert t.rows[i].uid != t.rows[j].uid;
    }
  }

  lemma InsertingKeepsOneRunningExactlyWhen(t: Table, q: PrepareRequest, pid: string)
    requires Valid(t) && OneRunning(t.rows) && Inserts(t, q)
    ensures OneRunning(Attached(Inserted(t, q, pid), q.uid.value, pid, q).rows) <==>
            !(FinalAttach(q).success && q.statusOk && AlreadyRunning(t.rows, q.name, pid))
  {
    var after := Attached(Inserted(t, q, pid), q.uid.value, pid, q).rows;
    var n := |t.rows|;
    assert forall i :: 0 <= i < n ==> after[i] == t.rows[i];
    if i :| 0 <= i < n && IsRunningFor(t.rows[i], q.name, pid) {
      assert FinalAttach(q).success && q.statusOk ==> Clash(after[i], after[n]);
    }
    if !(FinalAttach(q).success && q.statusOk && AlreadyRunning(t.rows, q.name, pid)) {
      forall i, j | 0 <= i < j < |after| ensures !Clash(after[i], after[j]) {
        if j == n {
          assert !IsRunningFor(t.rows[i], q.name, pid) || after[n].status != Running;
        }
      }
    }
  }

  /** One step keeps uniqueness exactly when it is not a duplicating prepare. */
  lemma UniquenessKeptExactlyWhen(t: Table, cmd: Command)
    requires Valid(t) && OneRunning(t.rows)
    ensures OneRunning(Step(t, cmd).rows) <==> !(cmd.PrepareCmd? && Duplicates(t, cmd.p))
  {
    match cmd
    case RevokeCmd(q) => RevokeKeepsOneRunning(t, q);
    case PrepareCmd(q) =>
      var pid := CheckedPid(q.name, q.pid, q.exists_, q.pids);
      if pid.Some? && !(q.fromCli && !q.queryOk) {
        if Reuses(t, q, pid.value) {
          FoundRowKeepsItsPid(t, q);
          ReusingKeepsOneRunning(t, q, pid.value, FirstRunning(t.rows, JVM, q.name, pid.value));
        } else if Inserts(t, q) {
          InsertingKeepsOneRunningExactlyWhen(t, q, pid.value);
        }
      }
  }

  lemma RevokeKeepsOneRunning(t: Table, q: RevokeRequest)
    requires Valid(t) && OneRunning(t.rows)
    ensures OneRunning(Revoke(t, q).rows)
  {
    var after := Revoke(t, q).rows;
    RevokeStartsNothing(t, q);
    forall i, j | 0 <= i < j < |after| ensures !Clash(after[i], after[j]) {
      assert !Clash(t.rows[i], t.rows[j]);
    }
  }

  lemma RevokeStartsNothing(t: Table, q: RevokeRequest)
    requires Valid(t)
    ensures var after := Revoke(t, q).rows;
            && |after| == |t.rows|
            && forall i :: 0 <= i < |after| ==>
                 SameKey(t.rows[i], after[i]) && (after[i].status == Running ==> t.rows[i].status == Running)
  {
    var at := FirstWithUid(t.rows, q.uid);
    assert forall i :: 0 <= i < |t.rows| && t.rows[i].uid == q.uid ==> i == at;
  }

  ghost predicate NeverDuplicates(t: Table, cmds: seq<Command>) {
    cmds != [] ==>
      var before, last := cmds[..|cmds| - 1], cmds[|cmds| - 1];
      NeverDuplicates(t, before) && !(last.PrepareCmd? && Duplicates(Run(t, before), last.p))
  }

  ghost predicate AlwaysOneRunning(t: Table, cmds: seq<Command>) {
    OneRunning(Run(t, cmds).rows) && (cmds != [] ==> AlwaysOneRunning(t, cmds[..|cmds| - 1]))
  }

  lemma {:induction false} RunIsValid(t: Table, cmds: seq<Command>)
    requires Valid(t)
    ensures Valid(Run(t, cmds))
    decreases |cmds|
  {
    if cmds != [] {
      RunIsValid(t, cmds[..|cmds| - 1]);
      StepIsValid(Run(t, cmds[..|cmds| - 1]), cmds[|cmds| - 1]);
    }
  }

  /** Over every run: there is at most one Running row per key after each command exactly when no
      prepare of the run duplicates. */
  lemma {:induction false} OneRunningExactlyWhen(t: Table, cmds: seq<Command>)
    requires Valid(t) && OneRunning(t.rows)
    ensures AlwaysOneRunning(t, cmds) <==> NeverDuplicates(t, cmds)
    decreases |cmds|
  {
    if cmds != [] {
      var before := cmds[..|cmds| - 1];
      OneRunningExactlyWhen(t, before);
      RunIsValid(t, before);
      if AlwaysOneRunning(t, before) {
        UniquenessKeptExactlyWhen(Run(t, before), cmds[|cmds| - 1]);
      }
    }
  }

  /** Prepares from the command line and revokes, in any order and whatever fails, keep at most one
      Running row per key. */
  lemma {:induction false} CommandLineKeepsOneRunning(t: Table, cmds: seq<Command>)
    requires Valid(t) && OneRunning(t.rows)
    requires forall i :: 0 <= i < |cmds| && cmds[i].PrepareCmd? ==> cmds[i].p.fromCli
    ensures AlwaysOneRunning(t, cmds)
    decreases |cmds|
  {
    OneRunningExactlyWhen(t, cmds);
    if cmds != [] {
      var n := |cmds| - 1;
      CommandLineKeepsOneRunning(t, cmds[..n]);
      OneRunningExactlyWhen(t, cmds[..n]);
      if cmds[n].PrepareCmd? && Duplicates(Run(t, cmds[..n]), cmds[n].p) {
        OnlyExperimentsDuplicate(Run(t, cmds[..n]), cmds[n].p);
      }
    }
  }

  /** An experiment whose lookup fails gives a prepared process a second Running row. */
  lemma FailedLookupDuplicates()
    ensures exists t, q: PrepareRequest :: Valid(t) && OneRunning(t.rows) && !OneRunning(Prepare(t, q).rows)
  {
    var row := Row(0, "a", JVM, "tomcat", "7", "8080", Running, "");
    var t := Table([row], 1);
    var attach := Attach(true, "", true);
    var q := PrepareRequest(false, "tomcat", "7", Some(true), Some(["7"]), false, "", Some("8081"), Some("b"), true,
                            attach, None, attach, true, true, true);
    assert IsRunningFor(t.rows[0], "tomcat", "7");
    assert CheckedPid(q.name, q.pid, q.exists_, q.pids) == Some("7");
    UniquenessKeptExactlyWhen(t, PrepareCmd(q));
    assert !OneRunning(Step(t, PrepareCmd(q)).rows);
  }

  // ---------------------------------------------------------------- rows that are over

  /** The same row later: one that is not Running never runs again, a Revoked one never changes. */
  predicate Continues(r: Row, later: Row) {
    && r.id == later.id && r.uid == later.uid
    && (r.status != Running ==> later.status == r.status || later.status == Revoked)
    && (r.status == Revoked ==> later == r)
  }

  ghost predicate AllContinue(t: Table, later: Table) {
    |t.rows| <= |later.rows| && forall i :: 0 <= i < |t.rows| ==> Continues(t.rows[i], later.rows[i])
  }

  lemma PrepareContinues(t: Table, q: PrepareRequest)
    requires Valid(t)
    ensures AllContinue(t, Prepare(t, q))
  {
    var pid := CheckedPid(q.name, q.pid, q.exists_, q.pids);
    if pid.Some? && Reuses(t, q, pid.value) {
      var at := FirstRunning(t.rows, JVM, q.name, pid.value);
      assert forall i :: 0 <= i < |t.rows| && t.rows[i].uid == t.rows[at].uid ==> i == at;
    }
  }

  lemma RevokeContinues(t: Table, q: RevokeRequest)
    requires Valid(t)
    ensures AllContinue(t, Revoke(t, q))
  {
    var at := FirstWithUid(t.rows, q.uid);
    assert forall i :: 0 <= i < |t.rows| && t.rows[i].uid == q.uid ==> i == at;
  }

  /** Over every run: a row that is not Running is never Running again, and a Revoked row stays in
      the table exactly as it is. */
  lemma {:induction false} RevokedNeverChanges(t: Table, cmds: seq<Command>)
    requires Valid(t)
    ensures Valid(Run(t, cmds)) && AllContinue(t, Run(t, cmds))
    decreases |cmds|
  {
    if cmds != [] {
      var before := cmds[..|cmds| - 1];
      RevokedNeverChanges(t, before);
      var v := Run(t, before);
      var cmd := cmds[|cmds| - 1];
      StepIsValid(v, cmd);
      match cmd
      case PrepareCmd(q) => PrepareContinues(v, q);
      case RevokeCmd(q) => RevokeContinues(v, q);
      assert forall i :: 0 <= i < |t.rows| ==> Continues(t.rows[i], v.rows[i]);
    }
  }

  // ---------------------------------------------------------------- the commands, step by step

  /** The commands as they change the table, each proved equal to its function. */
  class PreparationStore {
    var rows: seq<Row>
    var nextId: nat

    ghost function State(): Table
      reads this
    {
      Table(rows, nextId)
    }

    constructor ()
      ensures State() == Table([], 0)
    {
      rows, nextId := [], 0;
    }

    method QueryRunning(programType: string, name: string, pid: string) returns (at: nat)
      ensures at == FirstRunning(rows, programType, name, pid)
    {
      at := 0;
      while at < |rows| && !Selected(rows[at], programType, name, pid)
        invariant at <= |rows|
        invariant FirstRunning(rows, programType, name, pid) == at + FirstRunning(rows[at..], programType, name, pid)
      {
        assert rows[at..][1..] == rows[at + 1..];
        at := at + 1;
      }
    }

    method UpdateStatus(uid: string, status: Status, error: string, ok: bool)
      modifies this`rows
      ensures rows == if ok then WithStatus(old(State()), uid, status, error).rows else old(rows)
    {
      if ok {
        rows := WithStatus(Table(rows, nextId), uid, status, error).rows;
      }
    }

    /** Attach, with a retry on the sandbox token's port, then record the outcome. */
    method AttachAgent(uid: string, recordedPid: string, pid: string, q: PrepareRequest)
      requires forall i :: 0 <= i < |rows| && rows[i].uid == uid ==> rows[i].pid == recordedPid
      modifies this`rows
      ensures State() == Attached(old(State()), uid, pid, q)
    {
      var response := q.attach;
      if !response.success && response.userKnown && Contains(response.error, "connection refused") {
        if q.retryPort.Some? {
          response := q.retry;
          if response.success && q.portOk {
            rows := WithPort(rows, uid, q.retryPort.value);
          }
        }
      }
      if recordedPid != pid && q.pidOk {
        rows := WithPid(rows, uid, pid);
      }
      if response.success {
        UpdateStatus(uid, Running, "", q.statusOk);
      } else {
        UpdateStatus(uid, Error, response.error, q.statusOk);
      }
      UpdatesAttach(old(State()), uid, recordedPid, pid, q);
    }

    /** prepareJvm with ManualPreparation when called from the command line, the executor's Prepare
        when called from an experiment. */
    method PrepareJvm(q: PrepareRequest)
      requires Valid(State())
      modifies this
      ensures Valid(State()) && State() == Prepare(old(State()), q)
    {
      PrepareIsValid(old(State()), q);
      var pid := CheckFlagValues(q.name, q.pid, q.exists_, q.pids);
      if pid.None? || (q.fromCli && !q.queryOk) {
        return;
      }
      var at := QueryRunning(JVM, q.name, pid.value);
      if q.queryOk && at < |rows| && (q.fromCli || rows[at].uid != "") {
        PrepareAgain(at, pid.value, q);
      } else {
        PrepareAnew(pid.value, q);
      }
    }

    /** The attach on the record found, unless another port was asked for. */
    method PrepareAgain(at: nat, pid: string, q: PrepareRequest)
      requires Valid(State()) && at < |rows|
      modifies this`rows
      ensures State() == if q.fromCli && q.port != "" && q.port != old(rows)[at].port then old(State())
                         else Attached(old(State()), old(rows)[at].uid, pid, q)
    {
      if q.fromCli && q.port != "" && q.port != rows[at].port {
        return;
      }
      assert forall i :: 0 <= i < |rows| && rows[i].uid == rows[at].uid ==> i == at;
      AttachAgent(rows[at].uid, rows[at].pid, pid, q);
    }

    /** A new record, then the attach. */
    method PrepareAnew(pid: string, q: PrepareRequest)
      modifies this
      ensures State() == if Inserts(old(State()), q) then Attached(Inserted(old(State()), q, pid), q.uid.value, pid, q)
                         else old(State())
    {
      var port := if q.fromCli && q.port != "" then Some(q.port) else q.sandboxPort;
      if port.None? || q.uid.None? || !q.insertOk || Recorded(rows, q.uid.value) {
        return;
      }
      rows := rows + [Row(nextId, q.uid.value, JVM, q.name, pid, port.value, Created, "")];
      nextId := nextId + 1;
      AttachAgent(q.uid.value, pid, pid, q);
    }

    method RevokeByUid(q: RevokeRequest)
      modifies this`rows
      ensures State() == Revoke(old(State()), q)
    {
      var at := FirstWithUid(rows, q.uid);
      if !q.queryOk || at == |rows| || rows[at].status == Revoked || !CanRevoke(rows[at].programType) {
        return;
      }
      if q.success || Contains(q.error, "connection refused") {
        UpdateStatus(q.uid, Revoked, "", q.updateOk);
      } else {
        UpdateStatus(q.uid, rows[at].status, "revoke failed. " + q.error, q.updateOk);
      }
    }
  }
}
