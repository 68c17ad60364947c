/** The Kubernetes executor (exec/kubernetes/executor.go): create or delete a ChaosBlade resource,
    then poll it until it settles or the waiting time is over.

    The cluster may change arbitrarily between two polls, so each poll reads an arbitrary observation.
    The observations that fall before the deadline are an arbitrary finite sequence. */
module KubernetesPolling {
  import opened Text
  import opened Wrappers

  datatype Phase = Running | Destroyed | OtherPhase(name: string)

  datatype ResourceStatus = ResourceStatus(state: string, code: int, error: ErrorText, success: bool)

  datatype ExperimentStatus =
    ExperimentStatus(state: string, error: ErrorText, success: bool, resources: seq<ResourceStatus>)

  /** What one query of the cluster yields. */
  datatype Observation =
    | NoClient(reason: string)
    | ApiError(reason: string)
    | Found(phase: Phase, experiments: seq<ExperimentStatus>)

  datatype Operation = Create | Destroy

  datatype ErrorText =
    | NoError
    | Unexpected(wanted: string, seen: Phase)
    | CallFailed(call: string, reason: string)
    | FromCluster(text: string)

  predicate IsEmpty(error: ErrorText) {
    error == NoError || error == FromCluster("")
  }

  datatype StatusResult = StatusResult(success: bool, error: ErrorText, statuses: seq<ResourceStatus>)

  datatype Code = K8sExecFailed | UnexpectedStatus | ParameterInvalid | ReportedByResource(code: int)

  datatype Response =
    | Succeeded(result: StatusResult)
    | Failed(code: Code, detail: Option<StatusResult>)

  function CreateStatusResult(success: bool, error: ErrorText, experiments: seq<ExperimentStatus>): StatusResult {
    if experiments == [] then StatusResult(success, error, [])
    else
      var first := experiments[0];
      if first.resources == [] then
        StatusResult(success, error, [ResourceStatus(first.state, 0, first.error, first.success)])
      else if !IsEmpty(first.resources[0].error) then
        StatusResult(success, first.resources[0].error, first.resources)
      else
        StatusResult(success, error, first.resources)
  }

  function ConfirmFailed(error: ErrorText): StatusResult {
    StatusResult(false, error, [ResourceStatus("Error", 0, error, false)])
  }

  function ConfirmDestroyed(): StatusResult {
    StatusResult(true, NoError, [ResourceStatus("Destroyed", 0, NoError, true)])
  }

  predicate Completed(op: Operation, result: StatusResult) {
    if op == Destroy then result.success else result.statuses != []
  }

  /** A response and whether polling may stop. */
  datatype Answer = Answer(response: Response, completed: bool)

  function Broken(call: string, reason: string): Answer {
    Answer(Failed(K8sExecFailed, Some(ConfirmFailed(CallFailed(call, reason)))), true)
  }

  function QueryStatus(op: Operation, seen: Observation): Answer {
    match seen
    case NoClient(reason) => Broken("getClient", reason)
    case ApiError(reason) =>
      if Contains(reason, "not found") && op == Destroy then Answer(Succeeded(ConfirmDestroyed()), true)
      else Broken("getClient", reason)
    case Found(phase, experiments) =>
      if (phase == Running && op == Create) || (phase == Destroyed && op == Destroy) then
        var result := CreateStatusResult(true, NoError, experiments);
        Answer(Succeeded(result), Completed(op, result))
      else if phase == Running then
        var result := CreateStatusResult(false, Unexpected("destroyed", phase), experiments);
        Answer(Failed(UnexpectedStatus, Some(result)), Completed(op, result))
      else if phase == Destroyed then
        var result := CreateStatusResult(false, Unexpected("running", phase), experiments);
        Answer(Failed(UnexpectedStatus, Some(result)), Completed(op, result))
      else
        var result := CreateStatusResult(false, Unexpected(if op == Create then "create" else "destroy", phase),
                                         experiments);
        var code :=
          if result.statuses != [] && result.statuses[0].code > 0 then ReportedByResource(result.statuses[0].code)
          else UnexpectedStatus;
        Answer(Failed(code, Some(result)), Completed(op, result))
  }

  /** What the cluster must show for the operation to have taken effect. */
  predicate Effective(op: Operation, seen: Observation) {
    match seen
    case NoClient(_) => false
    case ApiError(reason) => op == Destroy && Contains(reason, "not found")
    case Found(phase, _) => phase == if op == Create then Running else Destroyed
  }

  predicate IsApiFailure(op: Operation, seen: Observation) {
    seen.NoClient? || (seen.ApiError? && !Effective(op, seen))
  }

  /** A query reports success exactly for an effective observation, and its result says the same.
      A destroy query settles on an effective observation or an API failure, a create query on
      any reported experiment or an API failure. */
  lemma QueryMeans(op: Operation, seen: Observation)
    ensures
      var answer := QueryStatus(op, seen);
      && (answer.response.Succeeded? <==> Effective(op, seen))
      && (answer.response.Succeeded? ==> answer.response.result.success)
      && (answer.response.Failed? ==> answer.response.detail.Some? && !answer.response.detail.value.success)
      && (answer.completed <==>
            || IsApiFailure(op, seen)
            || (op == Destroy && Effective(op, seen))
            || (op == Create && seen.Found? && seen.experiments != []))
  {
  }

  /** The first call of the request: what the API said to the create or the delete. */
  datatype FirstCall = Refused(reason: string) | Accepted(phase: Phase, experiments: seq<ExperimentStatus>)

  datatype Request =
    | CreateRequest
    | DestroyRequest(uidKnown: bool)

  function OperationOf(request: Request): Operation {
    if request.CreateRequest? then Create else Destroy
  }

  /** destroy and create: the answer before any polling. */
  function FirstAnswer(op: Operation, call: FirstCall, first: Observation): Answer {
    match call
    case Refused(reason) => Broken(if op == Create then "create" else "delete", reason)
    case Accepted(phase, experiments) =>
      if op == Create && phase == Running then
        Answer(Succeeded(CreateStatusResult(true, NoError, experiments)), true)
      else QueryStatus(op, first)
  }

  /** What the executor has seen when it gives its first answer; none when the call was refused. */
  function FirstSeen(op: Operation, call: FirstCall, first: Observation): Option<Observation> {
    match call
    case Refused(_) => None
    case Accepted(phase, experiments) =>
      Some(if op == Create && phase == Running then Found(phase, experiments) else first)
  }

  lemma FirstAnswerMeans(op: Operation, call: FirstCall, first: Observation)
    ensures FirstAnswer(op, call, first).response.Succeeded? <==>
            FirstSeen(op, call, first).Some? && Effective(op, FirstSeen(op, call, first).value)
  {
    QueryMeans(op, first);
  }

  predicate Settles(op: Operation, seen: Observation) {
    QueryStatus(op, seen).completed
  }

  /** The executor's last observation, when it polled the first `polls` of the ticks. */
  function LastSeen(op: Operation, call: FirstCall, first: Observation, ticks: seq<Observation>, polls: nat)
    : Option<Observation>
    requires polls <= |ticks|
  {
    if polls > 0 then Some(ticks[polls - 1]) else FirstSeen(op, call, first)
  }

  /** Exec. `waits` tells whether the waiting time exceeds one second. The initial answer's
      completed flag is ignored: polling goes on whatever the first call said.

      Success means exactly that the last observation was effective. Polling stops only at the
      first settling observation or at the deadline. */
  method Exec(client: Option<string>, request: Request, call: FirstCall, first: Observation, waits: bool,
              ticks: seq<Observation>)
    returns (response: Response, polls: nat)
    ensures polls <= |ticks|
    ensures var op := OperationOf(request);
            response.Succeeded? <==>
            && client.None? && (request.DestroyRequest? ==> request.uidKnown)
            && LastSeen(op, call, first, ticks, polls).Some?
            && Effective(op, LastSeen(op, call, first, ticks, polls).value)
    ensures client.None? && (request.DestroyRequest? ==> request.uidKnown) ==>
              response == Polled(OperationOf(request), FirstAnswer(OperationOf(request), call, first),
                                 if waits then ticks else []).response
    ensures client.Some? || request == DestroyRequest(false) || !waits ==> polls == 0
    ensures forall i :: 0 <= i < polls - 1 ==> !Settles(OperationOf(request), ticks[i])
    ensures client.None? && (request.DestroyRequest? ==> request.uidKnown) && waits && polls < |ticks| ==>
              polls > 0 && Settles(OperationOf(request), ticks[polls - 1])
  {
    polls := 0;
    if client.Some? {
      return Failed(K8sExecFailed, None), 0;
    }
    if request == DestroyRequest(false) {
      return Failed(ParameterInvalid, None), 0;
    }
    var op := OperationOf(request);
    var answer := FirstAnswer(op, call, first);
    FirstAnswerMeans(op, call, first);
    if waits {
      answer, polls := Poll(op, answer, ticks);
      if polls > 0 {
        QueryMeans(op, ticks[polls - 1]);
      }
    }
    return answer.response, polls;
  }

  /** The ticker loop. */
  method Poll(op: Operation, start: Answer, ticks: seq<Observation>) returns (answer: Answer, polls: nat)
    ensures polls <= |ticks| && answer == Polled(op, start, ticks)
    ensures answer == LatestAnswer(op, start, ticks, polls)
    ensures polls > 0 ==> NoneSettles(op, ticks, polls - 1)
    ensures polls < |ticks| ==> polls > 0 && Settles(op, ticks[polls - 1])
  {
    answer, polls := start, 0;
    while polls < |ticks|
      invariant polls <= |ticks| && NoneSettles(op, ticks, polls)
      invariant answer == LatestAnswer(op, start, ticks, polls)
    {
      answer := QueryStatus(op, ticks[polls]);
      polls := polls + 1;
      if answer.completed {
        PolledStopsAt(op, start, ticks, polls - 1);
        return;
      }
    }
    PolledToTheEnd(op, start, ticks);
  }

  predicate NoneSettles(op: Operation, ticks: seq<Observation>, polls: nat)
    requires polls <= |ticks|
  {
    forall i :: 0 <= i < polls ==> !Settles(op, ticks[i])
  }

  function LatestAnswer(op: Operation, start: Answer, ticks: seq<Observation>, polls: nat): Answer
    requires polls <= |ticks|
  {
    if polls == 0 then start else QueryStatus(op, ticks[polls - 1])
  }

  /** The answer in force after a sequence of ticks: the first settling one, else the last. */
  function Polled(op: Operation, answer: Answer, ticks: seq<Observation>): Answer
    decreases |ticks|
  {
    if ticks == [] then answer
    else if Settles(op, ticks[0]) then QueryStatus(op, ticks[0])
    else Polled(op, QueryStatus(op, ticks[0]), ticks[1..])
  }

  lemma {:induction false} PolledStopsAt(op: Operation, answer: Answer, ticks: seq<Observation>, i: nat)
    requires i < |ticks| && Settles(op, ticks[i]) && NoneSettles(op, ticks, i)
    ensures Polled(op, answer, ticks) == QueryStatus(op, ticks[i])
    decreases i
  {
    if i > 0 {
      assert !Settles(op, ticks[0]) && NoneSettles(op, ticks[1..], i - 1);
      PolledStopsAt(op, QueryStatus(op, ticks[0]), ticks[1..], i - 1);
    }
  }

  lemma {:induction false} PolledToTheEnd(op: Operation, answer: Answer, ticks: seq<Observation>)
    requires NoneSettles(op, ticks, |ticks|)
    ensures Polled(op, answer, ticks) == LatestAnswer(op, answer, ticks, |ticks|)
    decreases |ticks|
  {
    if ticks != [] {
      assert !Settles(op, ticks[0]) && NoneSettles(op, ticks[1..], |ticks| - 1);
      PolledToTheEnd(op, QueryStatus(op, ticks[0]), ticks[1..]);
    }
  }

  /** Whether some tick satisfies the operation before any tick ends the polling otherwise. */
  ghost predicate ReachedAt(op: Operation, ticks: seq<Observation>, i: nat) {
    && i < |ticks| && Effective(op, ticks[i])
    && forall j :: 0 <= j < i ==> !Settles(op, ticks[j])
  }

  ghost predicate SeenGoneAt(ticks: seq<Observation>, i: nat) {
    && i < |ticks| && Effective(Destroy, ticks[i])
    && forall j :: 0 <= j < i ==> !IsApiFailure(Destroy, ticks[j])
  }

  /** Once anything is polled, a destroy succeeds exactly when the resource is seen gone before any
      API failure: what the delete call itself answered is irrelevant. */
  lemma {:induction false} DestroySucceedsExactlyWhen(answer: Answer, ticks: seq<Observation>)
    requires ticks != []
    ensures Polled(Destroy, answer, ticks).response.Succeeded? <==>
            exists i: nat :: SeenGoneAt(ticks, i)
    decreases |ticks|
  {
    QueryMeans(Destroy, ticks[0]);
    var rest := ticks[1..];
    if Effective(Destroy, ticks[0]) {
      assert SeenGoneAt(ticks, 0);
    } else if Settles(Destroy, ticks[0]) || rest == [] {
      assert forall i: nat :: SeenGoneAt(ticks, i) ==> i > 0 && !IsApiFailure(Destroy, ticks[0]);
    } else {
      DestroySucceedsExactlyWhen(QueryStatus(Destroy, ticks[0]), rest);
      if i: nat :| SeenGoneAt(ticks, i) {
        assert forall j :: 0 <= j < i ==> rest[j] == ticks[j + 1];
        assert SeenGoneAt(rest, i - 1);
      }
      if i: nat :| SeenGoneAt(rest, i) {
        assert forall j :: 0 < j <= i + 1 ==> ticks[j] == rest[j - 1];
        assert SeenGoneAt(ticks, i + 1);
      }
    }
  }

  /** A create is decided by one observation: the first tick that reports an experiment or fails, else
      the last one. It succeeds exactly when that one shows Running. */
  lemma {:induction false} CreateSucceedsExactlyWhen(answer: Answer, ticks: seq<Observation>)
    requires ticks != []
    ensures Polled(Create, answer, ticks).response.Succeeded? <==>
            exists i: nat :: && ReachedAt(Create, ticks, i)
                             && (ticks[i].experiments != [] || i == |ticks| - 1)
  {
    var op := Create;
    if i: nat :| i < |ticks| && Settles(op, ticks[i]) && forall j :: 0 <= j < i ==> !Settles(op, ticks[j]) {
      PolledStopsAt(op, answer, ticks, i);
      QueryMeans(op, ticks[i]);
      if Effective(op, ticks[i]) {
        assert ReachedAt(op, ticks, i);
      } else if k: nat :| ReachedAt(op, ticks, k) && (ticks[k].experiments != [] || k == |ticks| - 1) {
        QueryMeans(op, ticks[k]);
        assert false;
      }
    } else {
      NothingSettles(op, ticks, |ticks|);
      PolledToTheEnd(op, answer, ticks);
      QueryMeans(op, ticks[|ticks| - 1]);
      if Effective(op, ticks[|ticks| - 1]) {
        assert ReachedAt(op, ticks, |ticks| - 1);
      }
      forall k: nat | ReachedAt(op, ticks, k) ensures ticks[k].experiments == [] {
        QueryMeans(op, ticks[k]);
      }
    }
  }

  lemma {:induction false} NothingSettles(op: Operation, ticks: seq<Observation>, n: nat)
    requires n <= |ticks|
    requires !exists i: nat :: i < |ticks| && Settles(op, ticks[i]) && forall j :: 0 <= j < i ==> !Settles(op, ticks[j])
    ensures forall j :: 0 <= j < n ==> !Settles(op, ticks[j])
  {
    if n > 0 {
      NothingSettles(op, ticks, n - 1);
    }
  }

  /** A create gives up on an experiment that is merely slow: one reported before it runs is a
      failure, although every later tick would show it running. */
  lemma {:induction false} SlowCreatesAreFailed(
      name: string, experiment: ExperimentStatus, answer: Answer, later: seq<Observation>)
    ensures var ticks := [Found(OtherPhase(name), [experiment])] + later;
            Polled(Create, answer, ticks).response.Failed?
  {
    var ticks := [Found(OtherPhase(name), [experiment])] + later;
    QueryMeans(Create, ticks[0]);
    PolledStopsAt(Create, answer, ticks, 0);
  }
}
