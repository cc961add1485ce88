/** Retrying Rsync for one PVC at a time: pkg/controller/directvolumemigration/rsync.go.

    Each reconcile looks up the PVC's attempt-labelled client pods, takes the most recently
    created one as the current attempt, and either waits, completes the operation, or creates
    the pod of the next attempt before deleting the failed one. */
module RsyncRetry {
  import opened Wrappers
  import opened Strconv

  const DEFAULT_RSYNC_BACK_OFF_LIMIT := 20

  /** `Unset` is the empty phase, which `updateOperationStatus` maps to no flag at all. */
  datatype PodPhase = Pending | Running | Succeeded | Failed | Unknown | Unset

  /** A client pod of the PVC. `created` is its creation timestamp, which is unique per PVC. */
  datatype Pod = Pod(created: nat, attemptLabel: Option<string>, phase: PodPhase) {
    /** The attempt number, when the label is present and is an integer. */
    function Attempt(): Option<int> {
      if attemptLabel.Some? then Atoi(attemptLabel.value) else None
    }
  }

  datatype RsyncOperation = RsyncOperation(currentAttempt: int, failed: bool, succeeded: bool) {
    predicate IsComplete() { failed || succeeded }
  }

  /** What one reconcile reports about one operation (`migrationOperationStatus`). */
  datatype OperationStatus = OperationStatus(
    operation: RsyncOperation, failed: bool, succeeded: bool, pending: bool, running: bool, errors: nat)
  {
    predicate Quiet() { !pending && !running && errors == 0 }
  }

  /** Outcome of creating the client pod. `Skipped`: neither transfer list has the PVC, or the block
      server is not running yet. `BuildFails`: the transfer object could not be built, after which the
      source leaves the PVC out of the status list. `CreateFails(true)`: the write reached the cluster
      although the call returned an error. */
  datatype Transfer = Skipped(error: bool) | BuildFails | CreateFails(applied: bool) | Creates {
    predicate Applied() { Creates? || (CreateFails? && applied) }
  }

  /** What becomes of one client pod that a cancellation deletes. `Lingers`: it is terminating already, or
      goes later. `Refused` and `ProgressRefused`: deleting the pod, or after it the progress resource,
      returns an error, which ends the cancellation; `removed` tells whether the pod is gone. */
  datatype Deletion = Removed | Lingers | Refused(removed: bool) | ProgressRefused(removed: bool)

  /** At cutover, a PVC whose VM is running has its block transfer cancelled (`cancelOfflineMigration`).
      `CheckFails`: looking for running VMs, or for the pods, fails. Pods without an answer linger. */
  datatype Cancellation = NotCancelled | CheckFails | Cancels(answers: map<nat, Deletion>)

  /** The choices of the environment during one reconcile of one PVC. `lookupFails`: listing the pods or
      building the two transfer lists fails. */
  datatype PassEnv = PassEnv(lookupFails: bool, transfer: Transfer, deleteFails: bool, cancellation: Cancellation)

  /** All that the protocol keeps about a PVC. `clock` counts the client pods ever created for it,
      and stamps the next one. */
  datatype Volume = Volume(op: RsyncOperation, pods: seq<Pod>, clock: nat)

  const FRESH := Volume(RsyncOperation(0, false, false), [], 0)

  datatype PassResult = PassResult(volume: Volume, report: Option<OperationStatus>)

  function GetRsyncPodBackOffLimit(specLimit: int, overriddenLimit: int): (limit: int)
    ensures limit != 0
    ensures overriddenLimit != 0 ==> limit == overriddenLimit
    ensures overriddenLimit == 0 && specLimit != 0 ==> limit == specLimit
    ensures overriddenLimit == 0 && specLimit == 0 ==> limit == 20
  {
    if specLimit == 0 && overriddenLimit == 0 then DEFAULT_RSYNC_BACK_OFF_LIMIT
    else if overriddenLimit != 0 then overriddenLimit
    else specLimit
  }

  /** Attempts a PVC is granted: the first pod is created whatever the limit. */
  function AttemptCap(limit: int): nat { if limit < 1 then 1 else limit }

  function Latest(pods: seq<Pod>): (latest: Option<Pod>)
    ensures latest.Some? ==> latest.value.Attempt().Some?
  {
    if pods == [] then None
    else
      var previous, pod := Latest(pods[..|pods| - 1]), pods[|pods| - 1];
      if pod.Attempt().None? then previous
      else if previous.None? || pod.created > previous.value.created then Some(pod)
      else previous
  }

  function NewStatus(op: RsyncOperation): OperationStatus {
    OperationStatus(op, false, false, false, false, 0)
  }

  function Observe(op: RsyncOperation, phase: PodPhase): OperationStatus {
    OperationStatus(op, phase.Failed?, phase.Succeeded?, phase.Pending? || phase.Unknown?, phase.Running?, 0)
  }

  function WithPod(v: Volume, attempt: int): Volume {
    v.(pods := v.pods + [Pod(v.clock, Some(FormatInt(attempt)), Pending)], clock := v.clock + 1)
  }

  function WithoutPod(pods: seq<Pod>, created: nat): seq<Pod> {
    if pods == [] then []
    else if pods[0].created == created then WithoutPod(pods[1..], created)
    else [pods[0]] + WithoutPod(pods[1..], created)
  }

  function AnswerFor(answers: map<nat, Deletion>, pod: Pod): Deletion {
    if pod.created in answers then answers[pod.created] else Lingers
  }

  /** `cancelOfflineMigration` deletes running and succeeded client pods, in the order they are listed;
      the result tells which stay, and how many errors are returned. */
  function AfterDeletions(pods: seq<Pod>, answers: map<nat, Deletion>): (seq<Pod>, nat) {
    if pods == [] then ([], 0)
    else
      var (rest, errors) := AfterDeletions(pods[1..], answers);
      if !pods[0].phase.Running? && !pods[0].phase.Succeeded? then ([pods[0]] + rest, errors)
      else match AnswerFor(answers, pods[0])
        case Removed => (rest, errors)
        case Lingers => ([pods[0]] + rest, errors)
        case Refused(removed) => (if removed then pods[1..] else pods, 1)
        case ProgressRefused(removed) => (if removed then pods[1..] else pods, 1)
  }

  function AfterCancellation(pods: seq<Pod>, c: Cancellation): (seq<Pod>, nat) {
    match c
    case NotCancelled => (pods, 0)
    case CheckFails => (pods, 1)
    case Cancels(answers) => AfterDeletions(pods, answers)
  }

  /** The pod creation of an attempt: the new state, and what is reported if the pass ends there. */
  function Attempted(v: Volume, attempt: int, status: OperationStatus, transfer: Transfer): PassResult {
    var after := if transfer.Applied() then WithPod(v, attempt) else v;
    match transfer
    case BuildFails => PassResult(after, None)
    case CreateFails(_) => PassResult(after, Some(status.(errors := status.errors + 1)))
    case _ => PassResult(after, Some(status))
  }

  /** One reconcile of one PVC. */
  function Pass(v: Volume, limit: int, env: PassEnv): PassResult {
    if v.op.IsComplete() then
      PassResult(v, Some(NewStatus(v.op).(failed := v.op.failed, succeeded := v.op.succeeded)))
    else if env.lookupFails then
      PassResult(v, Some(NewStatus(v.op).(errors := 1)))
    else match Latest(v.pods)
      case None =>
        var op := v.op.(currentAttempt := 0);
        var error := env.transfer.Skipped? && env.transfer.error;
        Attempted(v.(op := op), 1, NewStatus(op).(errors := if error then 1 else 0), env.transfer)
      case Some(pod) =>
        var op := v.op.(currentAttempt := pod.Attempt().value);
        var status := Observe(op, pod.phase);
        if pod.phase.Failed? && op.currentAttempt < limit then
          var r := Attempted(v.(op := op), op.currentAttempt + 1,
                             status.(failed := false, pending := true), env.transfer);
          if env.transfer.BuildFails? || env.transfer.CreateFails? then r
          else if env.deleteFails then r.(report := Some(r.report.value.(errors := r.report.value.errors + 1)))
          else r.(volume := r.volume.(pods := WithoutPod(r.volume.pods, pod.created)))
        else
          var done := op.(failed := status.failed, succeeded := status.succeeded);
          var (pods, errors) := AfterCancellation(v.pods, env.cancellation);
          PassResult(v.(op := done, pods := pods), Some(status.(operation := done, errors := errors)))
  }

  function Lookup(volumes: map<string, Volume>, pvc: string): Volume {
    if pvc in volumes then volumes[pvc] else FRESH
  }

  /** A reconcile over a list of PVCs: the store afterwards and the status list. */
  function Sweep(volumes: map<string, Volume>, pvcs: seq<string>, limit: int, envs: seq<PassEnv>)
    : (map<string, Volume>, seq<OperationStatus>)
    requires |envs| == |pvcs|
  {
    if pvcs == [] then (volumes, [])
    else
      var last := |pvcs| - 1;
      var (before, reports) := Sweep(volumes, pvcs[..last], limit, envs[..last]);
      var r := Pass(Lookup(before, pvcs[last]), limit, envs[last]);
      (before[pvcs[last] := r.volume], reports + if r.report.Some? then [r.report.value] else [])
  }

  class TransferClients {
    const backOffLimit: int
    var volumes: map<string, Volume>

    constructor (specLimit: int, overriddenLimit: int)
      ensures volumes == map[] && backOffLimit == GetRsyncPodBackOffLimit(specLimit, overriddenLimit)
    {
      backOffLimit := GetRsyncPodBackOffLimit(specLimit, overriddenLimit);
      volumes := map[];
    }

    method GetLatestPodForOperation(pods: seq<Pod>) returns (mostRecentPod: Option<Pod>)
      ensures mostRecentPod == Latest(pods)
    {
      mostRecentPod := None;
      for i := 0 to |pods|
        invariant mostRecentPod == Latest(pods[..i])
      {
        var pod := pods[i];
        assert pods[..i + 1][..i] == pods[..i];
        if pod.Attempt().None? {
          continue;
        }
        if mostRecentPod.None? {
          mostRecentPod := Some(pod);
        } else if pod.created > mostRecentPod.value.created {
          mostRecentPod := Some(pod);
        }
      }
      assert pods[..|pods|] == pods;
    }

    /** The pod creation of an attempt; `stop` when the reconcile of this PVC ends there. */
    method AttemptTransfer(v: Volume, attempt: int, status: OperationStatus, transfer: Transfer)
      returns (next: Volume, report: Option<OperationStatus>, stop: bool)
      ensures PassResult(next, report) == Attempted(v, attempt, status, transfer)
      ensures stop <==> transfer.BuildFails? || transfer.CreateFails?
    {
      next, report, stop := v, Some(status), false;
      if transfer.Applied() {
        next := WithPod(v, attempt);
      }
      match transfer {
        case BuildFails => report, stop := None, true;
        case CreateFails(_) => report, stop := Some(status.(errors := status.errors + 1)), true;
        case _ =>
      }
    }

    /** `cancelOfflineMigration`: the client pods left, and whether no error was returned. */
    method CancelOfflineMigration(pods: seq<Pod>, answers: map<nat, Deletion>) returns (left: seq<Pod>, ok: bool)
      ensures (left, if ok then 0 else 1) == AfterDeletions(pods, answers)
    {
      hide AfterDeletions;
      left, ok := [], true;
      assert pods[0..] == pods;
      assert [] + AfterDeletions(pods, answers).0 == AfterDeletions(pods, answers).0;
      for i := 0 to |pods|
        invariant ok
        invariant AfterDeletions(pods, answers) ==
                    (left + AfterDeletions(pods[i..], answers).0, AfterDeletions(pods[i..], answers).1)
      {
        var pod := pods[i];
        ghost var before, rest := left, AfterDeletions(pods[i + 1..], answers).0;
        DeletionStep(pods, answers, i);
        if pod.phase == Running || pod.phase == Succeeded {
          var answer := AnswerFor(answers, pod);
          if answer.Refused? || answer.ProgressRefused? {
            left := left + if answer.removed then pods[i + 1..] else pods[i..];
            return left, false;
          }
          if answer.Lingers? {
            left := left + [pod];
          }
        } else {
          left := left + [pod];
        }
        assert (before + [pod]) + rest == before + ([pod] + rest);
      }
      NoDeletions(answers);
      assert pods[|pods|..] == [] && left + [] == left;
    }

    /** The loop body of `createRsyncTransferClients`. */
    method ReconcileVolume(pvc: string, env: PassEnv) returns (report: Option<OperationStatus>)
      modifies this
      ensures var r := Pass(Lookup(old(volumes), pvc), backOffLimit, env);
              report == r.report && volumes == old(volumes)[pvc := r.volume]
    {
      // GetRsyncOperationStatusForPVC records an operation for a PVC seen for the first time
      var v, stop := Lookup(volumes, pvc), false;
      var status := NewStatus(v.op);
      if v.op.IsComplete() {
        report := Some(status.(failed := v.op.failed, succeeded := v.op.succeeded));
      } else if env.lookupFails {
        report := Some(status.(errors := 1));
      } else {
        var pod := GetLatestPodForOperation(v.pods);
        if pod.Some? {
          v := v.(op := v.op.(currentAttempt := pod.value.Attempt().value));
          status := Observe(v.op, pod.value.phase);
          if status.failed && v.op.currentAttempt < backOffLimit {
            // attempts remain: the operation is pending, not failed
            status := status.(failed := false, pending := true);
            v, report, stop := AttemptTransfer(v, v.op.currentAttempt + 1, status, env.transfer);
            if !stop {
              if env.deleteFails {
                report := Some(status.(errors := status.errors + 1));
              } else {
                v := v.(pods := WithoutPod(v.pods, pod.value.created));
              }
            }
          } else {
            match env.cancellation {
              case NotCancelled =>
              case CheckFails => status := status.(errors := status.errors + 1);
              case Cancels(answers) =>
                var pods, ok := CancelOfflineMigration(v.pods, answers);
                v := v.(pods := pods);
                if !ok {
                  status := status.(errors := status.errors + 1);
                }
            }
            v := v.(op := v.op.(failed := status.failed, succeeded := status.succeeded));
            report := Some(status.(operation := v.op));
          }
        } else {
          v := v.(op := v.op.(currentAttempt := 0));
          status := NewStatus(v.op);
          if env.transfer.Skipped? && env.transfer.error {
            status := status.(errors := 1);
          }
          v, report, stop := AttemptTransfer(v, v.op.currentAttempt + 1, status, env.transfer);
        }
      }
      volumes := volumes[pvc := v];
    }

    method CreateRsyncTransferClients(pvcs: seq<string>, envs: seq<PassEnv>) returns (ops: seq<OperationStatus>)
      requires |envs| == |pvcs|
      modifies this
      ensures (volumes, ops) == Sweep(old(volumes), pvcs, backOffLimit, envs)
    {
      hide Pass;
      ops := [];
      for i := 0 to |pvcs|
        invariant (volumes, ops) == Sweep(old(volumes), pvcs[..i], backOffLimit, envs[..i])
      {
        assert pvcs[..i + 1][..i] == pvcs[..i] && envs[..i + 1][..i] == envs[..i];
        ghost var before, reports := volumes, ops;
        var report := ReconcileVolume(pvcs[i], envs[i]);
        if report.Some? {
          ops := ops + [report.value];
        }
        ghost var r := Pass(Lookup(before, pvcs[i]), backOffLimit, envs[i]);
        assert volumes == before[pvcs[i] := r.volume];
        assert ops == reports + if r.report.Some? then [r.report.value] else [];
      }
      assert pvcs[..|pvcs|] == pvcs && envs[..|envs|] == envs;
    }
  }

  lemma NoDeletions(answers: map<nat, Deletion>)
    ensures AfterDeletions([], answers) == ([], 0)
  {
  }

  lemma DeletionStep(pods: seq<Pod>, answers: map<nat, Deletion>, i: nat)
    requires i < |pods|
    ensures var pod, rest, answer := pods[i], AfterDeletions(pods[i + 1..], answers), AnswerFor(answers, pods[i]);
            AfterDeletions(pods[i..], answers) ==
              if (pod.phase.Running? || pod.phase.Succeeded?) && (answer.Refused? || answer.ProgressRefused?)
              then (if answer.removed then pods[i + 1..] else pods[i..], 1)
              else if (pod.phase.Running? || pod.phase.Succeeded?) && answer.Removed? then rest
              else ([pod] + rest.0, rest.1)
  {
    assert pods[i..][1..] == pods[i + 1..];
  }

  /** `migrationOperationStatusList.AllCompleted`. */
  method AllCompleted(ops: seq<OperationStatus>) returns (completed: bool)
    ensures completed <==> forall s :: s in ops ==> s.Quiet()
  {
    for i := 0 to |ops|
      invariant forall s :: s in ops[..i] ==> s.Quiet()
    {
      if !ops[i].Quiet() {
        return false;
      }
    }
    return true;
  }

  /** `migrationOperationStatusList.Failed`. */
  method FailedOperations(ops: seq<OperationStatus>) returns (count: nat)
    ensures count > 0 <==> exists s :: s in ops && s.failed
  {
    count := 0;
    for i := 0 to |ops|
      invariant count > 0 <==> exists s :: s in ops[..i] && s.failed
    {
      assert ops[..i + 1] == ops[..i] + [ops[i]];
      if ops[i].failed {
        count := count + 1;
      }
    }
    assert ops[..|ops|] == ops;
  }

  /** `processRsyncOperationStatus`: whether the phase is over, and whether the migration has failed. */
  method ProcessRsyncOperationStatus(ops: seq<OperationStatus>) returns (isComplete: bool, anyFailed: bool)
    ensures isComplete <==> forall s :: s in ops ==> s.Quiet()
    ensures anyFailed <==> isComplete && exists s :: s in ops && s.failed
  {
    anyFailed := false;
    isComplete := AllCompleted(ops);
    if isComplete {
      var failed := FailedOperations(ops);
      if failed > 0 {
        anyFailed := true;
      }
    }
  }

  // ---------------------------------------------------------------- runs

  /** What may happen to a PVC: a reconcile, or any change made by others to its pods. */
  datatype Event = Reconcile(env: PassEnv) | Environment(pods: seq<Pod>)

  ghost predicate Unique(pods: seq<Pod>) {
    forall i, j :: 0 <= i < j < |pods| ==> pods[i].created != pods[j].created
  }

  ghost predicate Known(before: seq<Pod>, pod: Pod) {
    exists q :: q in before && q.created == pod.created && q.attemptLabel == pod.attemptLabel
  }

  /** Others may change phases, delete pods and reorder the listing, but not make or relabel pods. */
  ghost predicate OutsideChange(before: seq<Pod>, after: seq<Pod>) {
    Unique(after) && forall p :: p in after ==> Known(before, p)
  }

  function Next(v: Volume, e: Event, limit: int): Volume {
    match e
    case Reconcile(env) => Pass(v, limit, env).volume
    case Environment(pods) => v.(pods := pods)
  }

  ghost predicate Allowed(v: Volume, e: Event) {
    e.Environment? ==> OutsideChange(v.pods, e.pods)
  }

  function Run(v: Volume, events: seq<Event>, limit: int): Volume
    decreases events
  {
    if events == [] then v else Run(Next(v, events[0], limit), events[1..], limit)
  }

  ghost predicate AllowedRun(v: Volume, events: seq<Event>, limit: int)
    decreases events
  {
    events == [] || (Allowed(v, events[0]) && AllowedRun(Next(v, events[0], limit), events[1..], limit))
  }

  /** The attempt number of the current pod, 0 when there is none. */
  function Top(pods: seq<Pod>): int {
    var latest := Latest(pods);
    if latest.None? then 0 else latest.value.Attempt().value
  }

  /** How often, while the operation is open, the current pod disappears without a newer one in place. */
  function Losses(v: Volume, events: seq<Event>, limit: int): nat
    decreases events
  {
    if events == [] || v.op.IsComplete() then 0
    else
      var next := Next(v, events[0], limit);
      (if Top(next.pods) < Top(v.pods) && !next.op.IsComplete() then 1 else 0) + Losses(next, events[1..], limit)
  }

  ghost predicate PodsInOrder(pods: seq<Pod>, clock: nat, limit: int) {
    && Unique(pods)
    && (forall p :: p in pods ==>
         p.created < clock && p.Attempt().Some? && 1 <= p.Attempt().value <= AttemptCap(limit))
    && (forall p, q :: p in pods && q in pods && p.created < q.created ==> p.Attempt().value < q.Attempt().value)
  }

  /** Later pods carry strictly larger attempts, none above the cap; an operation is failed only at
      the back-off limit and never both failed and succeeded. */
  ghost predicate Inv(v: Volume, limit: int) {
    && PodsInOrder(v.pods, v.clock, limit)
    && !(v.op.failed && v.op.succeeded)
    && (v.op.failed ==> v.op.currentAttempt >= limit)
  }

  /** The pod chosen as current is the newest of the labelled ones, and there is one iff any is labelled. */
  lemma {:induction false} LatestIsNewest(pods: seq<Pod>)
    ensures Latest(pods).None? ==> forall p :: p in pods ==> p.Attempt().None?
    ensures Latest(pods).Some? ==>
              Latest(pods).value in pods &&
              forall p :: p in pods && p.Attempt().Some? ==> p.created <= Latest(pods).value.created
  {
    if pods != [] {
      LatestIsNewest(pods[..|pods| - 1]);
      assert pods == pods[..|pods| - 1] + [pods[|pods| - 1]];
    }
  }

  lemma {:induction false} WithoutPodKeepsOthers(pods: seq<Pod>, created: nat)
    ensures forall p :: p in WithoutPod(pods, created) <==> p in pods && p.created != created
    ensures Unique(pods) ==> Unique(WithoutPod(pods, created))
  {
    if pods != [] {
      WithoutPodKeepsOthers(pods[1..], created);
      assert forall p :: p in pods <==> p == pods[0] || p in pods[1..];
      if Unique(pods) {
        forall i, j | 0 <= i < j < |WithoutPod(pods, created)|
          ensures WithoutPod(pods, created)[i].created != WithoutPod(pods, created)[j].created
        {
          if pods[0].created != created && i == 0 {
            var q := WithoutPod(pods, created)[j];
            assert q == WithoutPod(pods[1..], created)[j - 1];
            var k :| 0 <= k < |pods[1..]| && pods[1..][k] == q;
            assert pods[k + 1] == q;
          }
        }
      }
    }
  }

  /** The current attempt is the largest one present. */
  lemma TopIsLargest(pods: seq<Pod>, clock: nat, limit: int)
    requires PodsInOrder(pods, clock, limit)
    ensures 0 <= Top(pods) <= AttemptCap(limit)
    ensures Top(pods) == 0 <==> pods == []
    ensures forall p :: p in pods ==> p.Attempt().value <= Top(pods)
    ensures Latest(pods).Some? ==>
              forall p :: p in pods && p.Attempt().value == Top(pods) ==> p == Latest(pods).value
  {
    LatestIsNewest(pods);
    if pods != [] {
      assert pods[0] in pods;
      var latest := Latest(pods).value;
      forall p | p in pods
        ensures p.Attempt().value <= Top(pods)
        ensures p.Attempt().value == Top(pods) ==> p == latest
      {
        var i :| 0 <= i < |pods| && pods[i] == p;
        var j :| 0 <= j < |pods| && pods[j] == latest;
      }
    }
  }

  lemma NewestPodIsLatest(pods: seq<Pod>, pod: Pod)
    requires pod.Attempt().Some? && forall p :: p in pods ==> p.created < pod.created
    ensures Latest(pods + [pod]) == Some(pod)
  {
    hide Atoi;
    LatestIsNewest(pods);
    assert (pods + [pod])[..|pods|] == pods;
  }

  lemma AppendKeepsOrder(pods: seq<Pod>, pod: Pod, limit: int)
    requires PodsInOrder(pods, pod.created, limit)
    requires pod.Attempt().Some? && 1 <= pod.Attempt().value <= AttemptCap(limit)
    requires forall p :: p in pods ==> p.Attempt().value < pod.Attempt().value
    ensures PodsInOrder(pods + [pod], pod.created + 1, limit)
  {
    hide Atoi, AttemptCap;
    assert forall p :: p in pods + [pod] <==> p in pods || p == pod;
    assert Unique(pods + [pod]) by {
      assert forall i :: 0 <= i < |pods| ==> pods[i] in pods;
    }
  }

  lemma CreationKeepsOrder(v: Volume, limit: int)
    requires PodsInOrder(v.pods, v.clock, limit)
    requires Top(v.pods) < AttemptCap(limit) <= MAX_INT64
    ensures var after := WithPod(v, Top(v.pods) + 1);
            PodsInOrder(after.pods, after.clock, limit) && Top(after.pods) == Top(v.pods) + 1
  {
    hide Atoi, FormatInt, Latest;
    TopIsLargest(v.pods, v.clock, limit);
    AtoiFormatInt(Top(v.pods) + 1);
    var pod := Pod(v.clock, Some(FormatInt(Top(v.pods) + 1)), Pending);
    AppendKeepsOrder(v.pods, pod, limit);
    NewestPodIsLatest(v.pods, pod);
  }

  lemma OutsideChangeKeepsOrder(before: seq<Pod>, after: seq<Pod>, clock: nat, limit: int)
    requires PodsInOrder(before, clock, limit) && OutsideChange(before, after)
    ensures PodsInOrder(after, clock, limit) && Top(after) <= Top(before)
  {
    forall p | p in after
      ensures exists q :: q in before && q.created == p.created && q.Attempt() == p.Attempt()
    {
      assert Known(before, p);
    }
    TopIsLargest(before, clock, limit);
    TopIsLargest(after, clock, limit);
    LatestIsNewest(after);
  }

  /** Deleting the failed pod keeps the order, and the current attempt when a newer pod is there. */
  lemma DeletionKeepsOrder(pods: seq<Pod>, clock: nat, limit: int, created: nat)
    requires PodsInOrder(pods, clock, limit)
    ensures PodsInOrder(WithoutPod(pods, created), clock, limit)
    ensures Top(WithoutPod(pods, created)) <= Top(pods)
    ensures Latest(pods).Some? && Latest(pods).value.created != created ==>
              Top(WithoutPod(pods, created)) == Top(pods)
    ensures Latest(pods).Some? && Latest(pods).value.created == created ==>
              Top(WithoutPod(pods, created)) < Top(pods)
  {
    var rest := WithoutPod(pods, created);
    WithoutPodKeepsOthers(pods, created);
    TopIsLargest(pods, clock, limit);
    TopIsLargest(rest, clock, limit);
    LatestIsNewest(pods);
    LatestIsNewest(rest);
  }

  predicate RetryBranch(v: Volume, limit: int, env: PassEnv) {
    && !v.op.IsComplete() && !env.lookupFails
    && Latest(v.pods).Some? && Latest(v.pods).value.phase.Failed? && Top(v.pods) < limit
  }

  predicate StartBranch(v: Volume, env: PassEnv) {
    !v.op.IsComplete() && !env.lookupFails && Latest(v.pods).None?
  }

  /** The branch that waits for the current pod, or ends with it. */
  predicate WaitBranch(v: Volume, limit: int, env: PassEnv) {
    && !v.op.IsComplete() && !env.lookupFails
    && Latest(v.pods).Some? && !(Latest(v.pods).value.phase.Failed? && Top(v.pods) < limit)
  }

  lemma {:induction false} DeletionsKeepOthers(pods: seq<Pod>, answers: map<nat, Deletion>)
    requires Unique(pods)
    ensures Unique(AfterDeletions(pods, answers).0)
    ensures forall p :: p in AfterDeletions(pods, answers).0 ==> p in pods
  {
    if pods != [] {
      DeletionsKeepOthers(pods[1..], answers);
      assert forall i :: 0 <= i < |pods[1..]| ==> pods[1..][i] == pods[i + 1];
      var rest := AfterDeletions(pods[1..], answers).0;
      forall p | p in rest ensures p.created != pods[0].created {
        assert p in pods[1..];
      }
    }
  }

  /** A cancellation removes only running and succeeded pods; and when it meets no error, exactly those of
      them whose deletion takes effect. */
  lemma {:induction false} DeletionsRemoveExactly(pods: seq<Pod>, answers: map<nat, Deletion>, p: Pod)
    requires Unique(pods) && p in pods
    ensures p !in AfterDeletions(pods, answers).0 ==> p.phase.Running? || p.phase.Succeeded?
    ensures AfterDeletions(pods, answers).1 == 0 ==>
              (p !in AfterDeletions(pods, answers).0 <==>
                 (p.phase.Running? || p.phase.Succeeded?) && AnswerFor(answers, p).Removed?)
  {
    var rest := AfterDeletions(pods[1..], answers).0;
    assert pods == [pods[0]] + pods[1..];
    assert forall i :: 0 <= i < |pods[1..]| ==> pods[1..][i] == pods[i + 1];
    DeletionsKeepOthers(pods[1..], answers);
    if p in pods[1..] {
      DeletionsRemoveExactly(pods[1..], answers, p);
    } else {
      assert p == pods[0] && p !in rest;
    }
  }

  lemma WaitKeepsInv(v: Volume, limit: int, env: PassEnv)
    requires Inv(v, limit) && WaitBranch(v, limit, env)
    ensures var next := Pass(v, limit, env).volume;
            && Inv(next, limit) && next.clock == v.clock && Top(next.pods) <= Top(v.pods)
            && (Top(next.pods) < Top(v.pods) <==> CancelsCurrent(v, limit, env))
  {
    hide Atoi;
    var next := Pass(v, limit, env).volume;
    assert next.pods == AfterCancellation(v.pods, env.cancellation).0;
    CancellationKeepsOrder(v.pods, v.clock, limit, env.cancellation);
    assert Latest(v.pods).value.Attempt().value == Top(v.pods);
    hide PodsInOrder, Latest, AfterCancellation;
  }

  /** The current pod is removed by a cancellation. */
  predicate CancelsCurrent(v: Volume, limit: int, env: PassEnv) {
    WaitBranch(v, limit, env) && Latest(v.pods).value !in AfterCancellation(v.pods, env.cancellation).0
  }

  lemma CancellationKeepsOrder(pods: seq<Pod>, clock: nat, limit: int, c: Cancellation)
    requires PodsInOrder(pods, clock, limit) && Latest(pods).Some?
    ensures var left := AfterCancellation(pods, c).0;
            && PodsInOrder(left, clock, limit) && Top(left) <= Top(pods)
            && (Top(left) < Top(pods) <==> Latest(pods).value !in left)
            && (Latest(pods).value !in left ==>
                  c.Cancels? && (Latest(pods).value.phase.Running? || Latest(pods).value.phase.Succeeded?))
  {
    var left := AfterCancellation(pods, c).0;
    LatestIsNewest(pods);
    if c.Cancels? {
      DeletionsKeepOthers(pods, c.answers);
      DeletionsRemoveExactly(pods, c.answers, Latest(pods).value);
    }
    forall p | p in left ensures Known(pods, p) {
    }
    OutsideChangeKeepsOrder(pods, left, clock, limit);
    TopIsLargest(pods, clock, limit);
    TopIsLargest(left, clock, limit);
    LatestIsNewest(left);
    hide Atoi, Latest, AfterCancellation;
  }

  /** What a retry leaves behind. */
  lemma RetryShape(v: Volume, limit: int, env: PassEnv)
    requires RetryBranch(v, limit, env)
    ensures var next := Pass(v, limit, env).volume;
            var base := if env.transfer.Applied() then WithPod(v, Top(v.pods) + 1) else v;
            var stays := env.transfer.BuildFails? || env.transfer.CreateFails? || env.deleteFails;
            && next.clock == base.clock
            && next.pods == if stays then base.pods else WithoutPod(base.pods, Latest(v.pods).value.created)
  {
    hide Latest, WithoutPod, Atoi, FormatInt;
    assert Top(v.pods) == Latest(v.pods).value.Attempt().value;
  }

  lemma RetryKeepsInv(v: Volume, limit: int, env: PassEnv)
    requires Inv(v, limit) && limit <= MAX_INT64 && RetryBranch(v, limit, env)
    ensures var next := Pass(v, limit, env).volume;
            && PodsInOrder(next.pods, next.clock, limit)
            && (env.transfer.Applied() ==> next.clock == v.clock + 1 && Top(next.pods) == Top(v.pods) + 1)
            && (!env.transfer.Applied() ==> next.clock == v.clock && Top(next.pods) <= Top(v.pods))
            && (!env.transfer.Applied() ==>
                  (Top(next.pods) < Top(v.pods) <==> env.transfer.Skipped? && !env.deleteFails))
  {
    assert PodsInOrder(v.pods, v.clock, limit);
    RetryShape(v, limit, env);
    assert Latest(v.pods).Some? && Top(v.pods) < limit;
    hide Pass, Inv, PodsInOrder, Top, Latest, WithoutPod, AttemptCap, RetryBranch;
    RetryGrows(v, limit);
  }

  /** The four pod lists a retry can leave behind: with or without the new pod, with or without the old. */
  lemma RetryGrows(v: Volume, limit: int)
    requires PodsInOrder(v.pods, v.clock, limit) && limit <= MAX_INT64
    requires Latest(v.pods).Some? && Top(v.pods) < limit
    ensures var failed := Latest(v.pods).value.created;
            var grown := WithPod(v, Top(v.pods) + 1);
            && PodsInOrder(grown.pods, grown.clock, limit) && Top(grown.pods) == Top(v.pods) + 1
            && PodsInOrder(WithoutPod(grown.pods, failed), grown.clock, limit)
            && Top(WithoutPod(grown.pods, failed)) == Top(v.pods) + 1
            && PodsInOrder(WithoutPod(v.pods, failed), v.clock, limit)
            && Top(WithoutPod(v.pods, failed)) < Top(v.pods)
    ensures Latest(v.pods).value.Attempt().value == Top(v.pods)
  {
    var failed := Latest(v.pods).value.created;
    var grown := WithPod(v, Top(v.pods) + 1);
    LatestIsNewest(v.pods);
    CreationKeepsOrder(v, limit);
    hide PodsInOrder, WithoutPod;
    DeletionKeepsOrder(v.pods, v.clock, limit, failed);
    DeletionKeepsOrder(grown.pods, grown.clock, limit, failed);
    assert grown.pods[..|grown.pods| - 1] == v.pods;
  }

  lemma StartKeepsInv(v: Volume, limit: int, env: PassEnv)
    requires Inv(v, limit) && limit <= MAX_INT64 && StartBranch(v, env)
    ensures var next := Pass(v, limit, env).volume;
            && PodsInOrder(next.pods, next.clock, limit)
            && next.clock == v.clock + (if env.transfer.Applied() then 1 else 0)
            && Top(next.pods) == Top(v.pods) + (if env.transfer.Applied() then 1 else 0)
  {
    hide PodsInOrder;
    CreationKeepsOrder(v, limit);
  }

  /** One reconcile keeps the invariant; it creates a pod only as the next attempt after the current
      one; and it gives up the current attempt exactly when it retries without a transfer to start, or
      cancels the transfer of a VM that is running. */
  lemma PassKeepsInv(v: Volume, limit: int, env: PassEnv)
    requires Inv(v, limit) && limit <= MAX_INT64
    ensures var next := Pass(v, limit, env).volume;
            && Inv(next, limit)
            && (next.clock == v.clock || (next.clock == v.clock + 1 && Top(next.pods) == Top(v.pods) + 1))
            && (next.clock == v.clock + 1 <==>
                  (StartBranch(v, env) || RetryBranch(v, limit, env)) && env.transfer.Applied())
            && (Top(next.pods) < Top(v.pods) <==>
                  || (RetryBranch(v, limit, env) && env.transfer.Skipped? && !env.deleteFails)
                  || CancelsCurrent(v, limit, env))
            && (next.clock == v.clock ==> Top(next.pods) <= Top(v.pods))
  {
    hide PodsInOrder, WithoutPod, Latest, AfterCancellation;
    if StartBranch(v, env) {
      StartKeepsInv(v, limit, env);
    } else if RetryBranch(v, limit, env) {
      RetryKeepsInv(v, limit, env);
    } else if WaitBranch(v, limit, env) {
      WaitKeepsInv(v, limit, env);
    }
  }

  /** A cancellation that ends the current attempt, of a running pod: the operation stays open. */
  predicate CancelsRunning(v: Volume, limit: int, env: PassEnv) {
    && WaitBranch(v, limit, env) && env.cancellation.Cancels?
    && Latest(v.pods).value.phase.Running?
  }

  /** A current pod that a cancellation removes has succeeded, which ends the operation, or was running. */
  lemma CancelledOrOver(v: Volume, limit: int, env: PassEnv)
    requires Inv(v, limit) && CancelsCurrent(v, limit, env)
    ensures CancelsRunning(v, limit, env) || Pass(v, limit, env).volume.op.IsComplete()
  {
    CancellationKeepsOrder(v.pods, v.clock, limit, env.cancellation);
    hide PodsInOrder, Latest, AfterCancellation;
  }

  /** A pod that is created is the newest, pending, and labelled with the next attempt. */
  lemma CreatedPodIsNext(v: Volume, limit: int, env: PassEnv)
    requires Inv(v, limit) && limit <= MAX_INT64 && Pass(v, limit, env).volume.clock > v.clock
    ensures var pod := Pod(v.clock, Some(FormatInt(Top(v.pods) + 1)), Pending);
            pod in Pass(v, limit, env).volume.pods && pod.Attempt() == Some(Top(v.pods) + 1)
  {
    TopIsLargest(v.pods, v.clock, limit);
    AtoiFormatInt(Top(v.pods) + 1);
    LatestIsNewest(v.pods);
    var grown := WithPod(v, Top(v.pods) + 1).pods;
    assert grown[|v.pods|] in grown;
    if RetryBranch(v, limit, env) {
      RetryShape(v, limit, env);
      CreatedIsKept(grown, |v.pods|, Latest(v.pods).value.created);
    }
    hide WithoutPod, Latest, Atoi, FormatInt, AfterCancellation;
  }

  lemma {:induction false} CreatedIsKept(pods: seq<Pod>, i: nat, created: nat)
    requires i < |pods| && pods[i].created != created
    ensures pods[i] in WithoutPod(pods, created)
  {
    if i > 0 { CreatedIsKept(pods[1..], i - 1, created); }
  }

  lemma {:induction false} LeftWithoutPod(pods: seq<Pod>, created: nat, p: Pod)
    ensures p in WithoutPod(pods, created) <==> p in pods && p.created != created
  {
    if pods != [] { LeftWithoutPod(pods[1..], created, p); }
  }

  lemma SamePod(v: Volume, limit: int, p: Pod, q: Pod)
    requires Inv(v, limit) && p in v.pods && q in v.pods
    ensures p == q <==> p.created == q.created
  {
  }

  /** Of the pods there were, a retry deletes the failed one and no other, and not before its successor's
      creation has returned without an error. */
  lemma RetryReplaces(v: Volume, limit: int, env: PassEnv, p: Pod)
    requires Inv(v, limit) && limit <= MAX_INT64 && RetryBranch(v, limit, env) && p in v.pods
    ensures p in Pass(v, limit, env).volume.pods <==>
              || p != Latest(v.pods).value
              || env.deleteFails || env.transfer.BuildFails? || env.transfer.CreateFails?
  {
    var pod := Latest(v.pods).value;
    LatestIsNewest(v.pods);
    SamePod(v, limit, p, pod);
    RetryShape(v, limit, env);
    hide Latest, Pass, PodsInOrder, WithoutPod, RetryBranch;
    LeftWithoutPod(v.pods, pod.created, p);
    LeftWithoutPod(WithPod(v, Top(v.pods) + 1).pods, pod.created, p);
  }

  lemma NextKeepsInv(v: Volume, e: Event, limit: int)
    requires Inv(v, limit) && Allowed(v, e) && limit <= MAX_INT64
    ensures var next := Next(v, e, limit);
            && Inv(next, limit)
            && next.clock - Top(next.pods)
                 <= v.clock - Top(v.pods) + if Top(next.pods) < Top(v.pods) then AttemptCap(limit) else 0
  {
    TopIsLargest(v.pods, v.clock, limit);
    match e {
      case Reconcile(env) =>
        PassKeepsInv(v, limit, env);
        TopIsLargest(Next(v, e, limit).pods, Next(v, e, limit).clock, limit);
      case Environment(pods) =>
        OutsideChangeKeepsOrder(v.pods, pods, v.clock, limit);
        TopIsLargest(pods, v.clock, limit);
    }
  }

  /** Main result: in every run of reconciles interleaved with arbitrary outside changes, attempts
      grow with creation time and never pass the cap, and the pods created number at most the cap
      for each time the current pod was lost without replacement, plus once. */
  lemma {:induction false} RunsAreSafe(v: Volume, events: seq<Event>, limit: int)
    requires Inv(v, limit) && AllowedRun(v, events, limit) && limit <= MAX_INT64
    ensures Inv(Run(v, events, limit), limit)
    ensures Run(v, events, limit).clock
              <= v.clock - Top(v.pods) + AttemptCap(limit) + AttemptCap(limit) * Losses(v, events, limit)
    decreases events
  {
    hide Pass, Top, Next, Allowed, AttemptCap, PodsInOrder;
    TopIsLargest(v.pods, v.clock, limit);
    if events != [] {
      var next := Next(v, events[0], limit);
      NextKeepsInv(v, events[0], limit);
      hide Inv;
      RunsAreSafe(next, events[1..], limit);
      if v.op.IsComplete() {
        CompletionIsFinal(v, events, limit);
      } else if next.op.IsComplete() {
        CompletionIsFinal(next, events[1..], limit);
        CompletingCreatesNothing(v, events[0], limit);
        assert Losses(v, events, limit) == Losses(next, events[1..], limit) == 0;
      } else {
        var first := if Top(next.pods) < Top(v.pods) then 1 else 0;
        LossesAddUp(AttemptCap(limit), first, Losses(next, events[1..], limit));
      }
    }
  }

  lemma LossesAddUp(cap: nat, first: nat, rest: nat)
    requires first <= 1
    ensures cap * (first + rest) == cap * rest + if first == 1 then cap else 0
  {
  }

  lemma CompletingCreatesNothing(v: Volume, e: Event, limit: int)
    requires !v.op.IsComplete() && Next(v, e, limit).op.IsComplete()
    ensures Next(v, e, limit).clock == v.clock
  {
    hide AfterCancellation, WithoutPod, Latest, Atoi, FormatInt;
  }

  lemma PodsEverCreated(events: seq<Event>, limit: int)
    requires AllowedRun(FRESH, events, limit) && limit <= MAX_INT64
    ensures Run(FRESH, events, limit).clock <= AttemptCap(limit) + AttemptCap(limit) * Losses(FRESH, events, limit)
  {
    RunsAreSafe(FRESH, events, limit);
    assert Top(FRESH.pods) == 0;
  }

  /** No step of the open operation loses the current attempt: no retry with a working delete is without a
      transfer to start, no cancellation removes the current pod while it runs, and no outside change
      lowers the current attempt. */
  ghost predicate NeverLost(v: Volume, events: seq<Event>, limit: int)
    decreases events
  {
    events == [] || v.op.IsComplete() ||
    (match events[0] {
       case Reconcile(env) =>
         && !(RetryBranch(v, limit, env) && env.transfer.Skipped? && !env.deleteFails)
         && !(CancelsCurrent(v, limit, env) && Latest(v.pods).value.phase.Running?)
       case Environment(pods) => Top(pods) >= Top(v.pods)
     } && NeverLost(Next(v, events[0], limit), events[1..], limit))
  }

  /** What a loss of an open operation comes from, in one step. */
  lemma LossComesFrom(v: Volume, e: Event, limit: int)
    requires Inv(v, limit) && Allowed(v, e) && limit <= MAX_INT64 && !v.op.IsComplete()
    ensures var next := Next(v, e, limit);
            Top(next.pods) < Top(v.pods) && !next.op.IsComplete() <==>
              match e
              case Reconcile(env) =>
                || (RetryBranch(v, limit, env) && env.transfer.Skipped? && !env.deleteFails)
                || (CancelsCurrent(v, limit, env) && Latest(v.pods).value.phase.Running?)
              case Environment(pods) => Top(pods) < Top(v.pods)
  {
    hide PodsInOrder, WithoutPod, Latest, AfterCancellation, Atoi, FormatInt;
    if e.Reconcile? {
      PassKeepsInv(v, limit, e.env);
      if CancelsCurrent(v, limit, e.env) {
        CancelledOrOver(v, limit, e.env);
        hide Inv, Top;
      }
      hide CancelsCurrent;
    }
  }

  /** Nothing is lost in a run exactly when no step of it loses the current attempt. */
  lemma {:induction false} LostExactly(v: Volume, events: seq<Event>, limit: int)
    requires Inv(v, limit) && AllowedRun(v, events, limit) && limit <= MAX_INT64
    ensures Losses(v, events, limit) == 0 <==> NeverLost(v, events, limit)
    decreases events
  {
    if events != [] && !v.op.IsComplete() {
      LossComesFrom(v, events[0], limit);
      NextKeepsInv(v, events[0], limit);
      hide Next, Inv, Top, Allowed, RetryBranch, CancelsCurrent, Latest;
      LostExactly(Next(v, events[0], limit), events[1..], limit);
    }
  }

  /** While the operation is open others leave the current pod alone, no retry runs without a transfer to
      start, and no transfer of a running pod is cancelled. */
  ghost predicate CurrentKept(v: Volume, events: seq<Event>, limit: int)
    decreases events
  {
    events == [] || v.op.IsComplete() ||
    (match events[0] {
       case Reconcile(env) =>
         !(RetryBranch(v, limit, env) && env.transfer.Skipped?) && !CancelsRunning(v, limit, env)
       case Environment(pods) => Latest(v.pods).Some? ==> Known(pods, Latest(v.pods).value)
     } && CurrentKept(Next(v, events[0], limit), events[1..], limit))
  }

  lemma {:induction false} KeptIsNotLost(v: Volume, events: seq<Event>, limit: int)
    requires Inv(v, limit) && AllowedRun(v, events, limit) && limit <= MAX_INT64
    requires CurrentKept(v, events, limit)
    ensures NeverLost(v, events, limit)
    decreases events
  {
    if events != [] && !v.op.IsComplete() {
      NextKeepsInv(v, events[0], limit);
      match events[0] {
        case Reconcile(env) =>
          if CancelsCurrent(v, limit, env) { CancelledOrOver(v, limit, env); }
        case Environment(pods) => KeptOutside(v.pods, pods, v.clock, limit);
      }
      hide Pass, Inv, Top, Allowed, RetryBranch, CancelsRunning, CancelsCurrent;
      KeptIsNotLost(Next(v, events[0], limit), events[1..], limit);
    }
  }

  lemma KeptOutside(before: seq<Pod>, after: seq<Pod>, clock: nat, limit: int)
    requires PodsInOrder(before, clock, limit) && OutsideChange(before, after)
    requires Latest(before).Some? ==> Known(after, Latest(before).value)
    ensures Top(after) >= Top(before)
  {
    OutsideChangeKeepsOrder(before, after, clock, limit);
    TopIsLargest(before, clock, limit);
    TopIsLargest(after, clock, limit);
  }

  /** However often creates and deletes fail, at most max(1, limit) client pods are created for a PVC
      whose current pod nobody else deletes, whose retries always have a transfer to start, and whose
      running transfer is never cancelled. */
  lemma AtMostCapPods(events: seq<Event>, limit: int)
    requires AllowedRun(FRESH, events, limit) && limit <= MAX_INT64
    requires CurrentKept(FRESH, events, limit)
    ensures Run(FRESH, events, limit).clock <= AttemptCap(limit)
  {
    KeptIsNotLost(FRESH, events, limit);
    LostExactly(FRESH, events, limit);
    PodsEverCreated(events, limit);
  }

  const SKIPPING := PassEnv(false, Skipped(false), false, NotCancelled)
  const CREATING := PassEnv(false, Creates, false, NotCancelled)

  ghost predicate AllKnown(pods: seq<Pod>, before: seq<Pod>) {
    forall p :: p in before ==> Known(pods, p)
  }

  /** Nobody else deletes a pod during the run. */
  ghost predicate OthersKeepAll(v: Volume, events: seq<Event>, limit: int)
    decreases events
  {
    events == [] ||
    ((events[0].Environment? ==> AllKnown(events[0].pods, v.pods))
     && OthersKeepAll(Next(v, events[0], limit), events[1..], limit))
  }

  /** A first pod gets a phase that another pod list shows. */
  lemma FirstPodIn(v: Volume, phase: PodPhase, limit: int) returns (change: Event)
    requires !v.op.IsComplete() && v.pods == []
    ensures var created := Next(v, Reconcile(CREATING), limit);
            var pod := Pod(v.clock, Some(FormatInt(1)), phase);
            && change == Environment([pod]) && pod.Attempt() == Some(1)
            && Allowed(created, change) && AllKnown(change.pods, created.pods)
            && Next(created, change, limit) == Volume(v.op.(currentAttempt := 0), [pod], v.clock + 1)
  {
    AtoiFormatInt(1);
    hide Atoi, FormatInt;
    var first := Pod(v.clock, Some(FormatInt(1)), Pending);
    assert Latest(v.pods) == None;
    assert Next(v, Reconcile(CREATING), limit).pods == [first];
    var pod := first.(phase := phase);
    change := Environment([pod]);
    assert Known([first], pod) by { assert first in [first]; }
    assert Known([pod], first) by { assert pod in [pod]; }
  }

  lemma LatestOfOne(pod: Pod)
    requires pod.Attempt().Some?
    ensures Latest([pod]) == Some(pod)
  {
    assert [pod][..0] == [];
  }

  /** With limit 2, a first pod is created, fails, and is deleted with no successor. */
  lemma SkippedRetryStartsOver(v: Volume) returns (failing: Event)
    requires !v.op.IsComplete() && v.pods == []
    ensures var created := Next(v, Reconcile(CREATING), 2);
            var failed := Next(created, failing, 2);
            var gone := Next(failed, Reconcile(SKIPPING), 2);
            && failing.Environment? && Allowed(created, failing) && AllKnown(failing.pods, created.pods)
            && !gone.op.IsComplete() && gone.pods == [] && gone.clock == v.clock + 1
  {
    failing := FirstPodIn(v, Failed, 2);
    hide Atoi, FormatInt;
    var failed := Next(Next(v, Reconcile(CREATING), 2), failing, 2);
    LatestOfOne(failed.pods[0]);
    assert failed.pods[1..] == [];
    assert RetryBranch(failed, 2, SKIPPING);
    assert WithoutPod(failed.pods, v.clock) == [];
  }

  /** The transfer condition is needed: a PVC that keeps moving to a running VM after its pod failed
      gets any number of pods, although its back-off limit is 2 and nobody else deletes any. */
  lemma {:induction false} NoCapWithoutTransfer(v: Volume, n: nat) returns (events: seq<Event>)
    requires !v.op.IsComplete() && v.pods == []
    ensures AllowedRun(v, events, 2) && OthersKeepAll(v, events, 2) && Run(v, events, 2).clock == v.clock + n
    decreases n
  {
    if n == 0 {
      return [];
    }
    var failing := SkippedRetryStartsOver(v);
    hide Pass, AllKnown;
    var created := Next(v, Reconcile(CREATING), 2);
    var gone := Next(Next(created, failing, 2), Reconcile(SKIPPING), 2);
    var rest := NoCapWithoutTransfer(gone, n - 1);
    events := [Reconcile(CREATING), failing, Reconcile(SKIPPING)] + rest;
    ThreeMore(v, Reconcile(CREATING), failing, Reconcile(SKIPPING), rest, 2);
  }

  /** A run that begins with two reconciles around one outside change that deletes nothing. */
  lemma ThreeMore(v: Volume, first: Event, second: Event, third: Event, rest: seq<Event>, limit: int)
    requires first.Reconcile? && second.Environment? && third.Reconcile?
    requires var one := Next(v, first, limit);
             var three := Next(Next(one, second, limit), third, limit);
             && Allowed(one, second) && AllKnown(second.pods, one.pods)
             && AllowedRun(three, rest, limit) && OthersKeepAll(three, rest, limit)
    ensures var events := [first, second, third] + rest;
            var three := Next(Next(Next(v, first, limit), second, limit), third, limit);
            && AllowedRun(v, events, limit) && OthersKeepAll(v, events, limit)
            && Run(v, events, limit) == Run(three, rest, limit)
  {
    hide Pass, AllKnown;
    var one := Next(v, first, limit);
    var two := Next(one, second, limit);
    var last := [third] + rest;
    var later := [second] + last;
    var events := [first, second, third] + rest;
    assert events == [first] + later;
    assert last[1..] == rest && later[1..] == last && events[1..] == later;
    assert AllowedRun(two, last, limit) && OthersKeepAll(two, last, limit);
    assert AllowedRun(one, later, limit) && OthersKeepAll(one, later, limit);
    assert Run(two, last, limit) == Run(Next(two, third, limit), rest, limit);
    assert Run(one, later, limit) == Run(two, last, limit);
  }

  /** A first pod is created, runs, and is cancelled because its VM was started; nothing is left. */
  lemma CancelledStartsOver(v: Volume, limit: int) returns (running: Event, cancelling: Event)
    requires !v.op.IsComplete() && v.pods == []
    ensures cancelling.Reconcile? && Untroubled(cancelling)
    ensures var created := Next(v, Reconcile(CREATING), limit);
            var run := Next(created, running, limit);
            var gone := Next(run, cancelling, limit);
            && running.Environment? && Allowed(created, running) && AllKnown(running.pods, created.pods)
            && !gone.op.IsComplete() && gone.pods == [] && gone.clock == v.clock + 1
  {
    running := FirstPodIn(v, Running, limit);
    hide Atoi, FormatInt;
    var run := Next(Next(v, Reconcile(CREATING), limit), running, limit);
    LatestOfOne(run.pods[0]);
    assert run.pods[1..] == [];
    var answers := map[v.clock := Removed];
    cancelling := Reconcile(PassEnv(false, Creates, false, Cancels(answers)));
    assert AfterDeletions(run.pods, answers) == ([], 0);
  }

  /** The event is no reconcile, or one with a transfer to start in which no call fails. */
  predicate Untroubled(e: Event) {
    e.Reconcile? ==>
      && !e.env.lookupFails && e.env.transfer.Creates? && !e.env.deleteFails
      && match e.env.cancellation {
           case NotCancelled => true
           case CheckFails => false
           case Cancels(answers) =>
             forall created :: created in answers ==> answers[created].Removed? || answers[created].Lingers?
         }
  }

  predicate AllUntroubled(events: seq<Event>) {
    forall i :: 0 <= i < |events| ==> Untroubled(events[i])
  }

  /** The cancellation condition is needed too, under any limit: a VM that is started and stopped again
      and again gets any number of pods, although every transfer can be started, no call fails and nobody
      else deletes any. */
  lemma {:induction false} NoCapUnderCancellation(v: Volume, limit: int, n: nat) returns (events: seq<Event>)
    requires !v.op.IsComplete() && v.pods == []
    ensures AllowedRun(v, events, limit) && OthersKeepAll(v, events, limit) && AllUntroubled(events)
    ensures Run(v, events, limit).clock == v.clock + n
    decreases n
  {
    if n == 0 {
      return [];
    }
    var running, cancelling := CancelledStartsOver(v, limit);
    assert Untroubled(Reconcile(CREATING)) && Untroubled(running);
    hide Pass, AllKnown, Untroubled;
    var created := Next(v, Reconcile(CREATING), limit);
    var gone := Next(Next(created, running, limit), cancelling, limit);
    var rest := NoCapUnderCancellation(gone, limit, n - 1);
    events := [Reconcile(CREATING), running, cancelling] + rest;
    ThreeMore(v, Reconcile(CREATING), running, cancelling, rest, limit);
  }

  /** Once failed or succeeded, no later reconcile creates or deletes a pod or changes the operation. */
  lemma {:induction false} CompletionIsFinal(v: Volume, events: seq<Event>, limit: int)
    requires v.op.IsComplete()
    ensures Run(v, events, limit).op == v.op && Run(v, events, limit).clock == v.clock
    ensures forall env :: Pass(v, limit, env).volume == v
    decreases events
  {
    if events != [] {
      CompletionIsFinal(Next(v, events[0], limit), events[1..], limit);
    }
  }

  /** A reconcile completes the operation exactly when its lookups work and the current pod has
      succeeded, or has failed as the last allowed attempt; the flag set is the pod's outcome. */
  lemma CompletesExactlyAtLastAttempt(v: Volume, limit: int, env: PassEnv)
    requires !v.op.IsComplete()
    ensures var next := Pass(v, limit, env).volume.op;
            && (next.IsComplete() <==>
                  && !env.lookupFails && Latest(v.pods).Some?
                  && (Latest(v.pods).value.phase.Succeeded? ||
                      (Latest(v.pods).value.phase.Failed? && Top(v.pods) >= limit)))
            && (next.succeeded ==> Latest(v.pods).value.phase.Succeeded?)
            && (next.failed ==> Latest(v.pods).value.phase.Failed? && next.currentAttempt == Top(v.pods) >= limit)
  {
  }

  /** A PVC reported quiet, which is what lets the phase end, is either complete or one whose first
      pod was only just considered, or whose current pod has no phase yet. */
  lemma QuietReportExactly(v: Volume, limit: int, env: PassEnv)
    requires Pass(v, limit, env).report.Some?
    ensures var r := Pass(v, limit, env);
            r.report.value.Quiet() <==>
              || v.op.IsComplete()
              || (!env.lookupFails &&
                  match Latest(v.pods) {
                    case None => env.transfer.Creates? || (env.transfer.Skipped? && !env.transfer.error)
                    case Some(pod) =>
                      AfterCancellation(v.pods, env.cancellation).1 == 0 && (pod.phase.Unset? || r.volume.op.IsComplete())
                  })
  {
  }

  // ---------------------------------------------------------------- what is reported

  /** The outcome in a report is the one that is stored, in every reconcile; and an operation that is over
      has a report. */
  lemma ReportTellsTheOutcome(v: Volume, limit: int, env: PassEnv)
    ensures var r := Pass(v, limit, env);
            && (r.report.Some? ==>
                  && r.report.value.failed == r.volume.op.failed
                  && r.report.value.succeeded == r.volume.op.succeeded
                  && r.report.value.operation == r.volume.op)
            && (r.volume.op.IsComplete() ==> r.report.Some?)
  {
    hide AfterCancellation, WithoutPod, Latest, Atoi, FormatInt;
  }

  /** What the report of an open operation says of its pods: waiting shows the current pod's phase, a retry
      is pending, a start neither; there is none exactly when a transfer could not be built. */
  lemma ReportShowsThePod(v: Volume, limit: int, env: PassEnv)
    requires !v.op.IsComplete() && !env.lookupFails
    ensures var report := Pass(v, limit, env).report;
            && (report.None? <==> (StartBranch(v, env) || RetryBranch(v, limit, env)) && env.transfer.BuildFails?)
            && (WaitBranch(v, limit, env) ==>
                  var phase := Latest(v.pods).value.phase;
                  && (report.value.running <==> phase.Running?)
                  && (report.value.pending <==> phase.Pending? || phase.Unknown?))
            && (RetryBranch(v, limit, env) && report.Some? ==> report.value.pending && !report.value.running)
            && (StartBranch(v, env) && report.Some? ==> !report.value.pending && !report.value.running)
  {
    hide AfterCancellation, WithoutPod, Latest, Atoi, FormatInt;
  }

  /** A report carries errors exactly when a call of the reconcile failed. */
  lemma ReportCountsErrors(v: Volume, limit: int, env: PassEnv)
    requires Pass(v, limit, env).report.Some?
    ensures var report := Pass(v, limit, env).report.value;
            report.errors > 0 <==>
              && !v.op.IsComplete()
              && (|| env.lookupFails
                  || (StartBranch(v, env) && (env.transfer.CreateFails? || env.transfer == Skipped(true)))
                  || (RetryBranch(v, limit, env) && (env.transfer.CreateFails? || env.deleteFails))
                  || (WaitBranch(v, limit, env) && AfterCancellation(v.pods, env.cancellation).1 > 0))
  {
    hide AfterCancellation, WithoutPod, Latest, Atoi, FormatInt;
  }

  /** The stored attempt is that of the current pod, and 0 before the first. */
  lemma AttemptIsRecorded(v: Volume, limit: int, env: PassEnv)
    requires !v.op.IsComplete()
    ensures Pass(v, limit, env).volume.op.currentAttempt == if env.lookupFails then v.op.currentAttempt else Top(v.pods)
  {
    hide AfterCancellation, WithoutPod, Latest, Atoi, FormatInt;
  }

  /** Distinct PVCs do not disturb each other: every one makes exactly its own step. */
  lemma {:induction false} SweepIsPerVolume(
    volumes: map<string, Volume>, pvcs: seq<string>, limit: int, envs: seq<PassEnv>)
    requires |envs| == |pvcs|
    requires forall i, j :: 0 <= i < j < |pvcs| ==> pvcs[i] != pvcs[j]
    ensures var after := Sweep(volumes, pvcs, limit, envs).0;
            && (forall i :: 0 <= i < |pvcs| ==>
                  pvcs[i] in after && after[pvcs[i]] == Pass(Lookup(volumes, pvcs[i]), limit, envs[i]).volume)
            && (forall pvc :: pvc !in pvcs ==> Lookup(after, pvc) == Lookup(volumes, pvc))
  {
    hide Pass;
    if pvcs != [] {
      var last := |pvcs| - 1;
      SweepIsPerVolume(volumes, pvcs[..last], limit, envs[..last]);
      assert pvcs[last] !in pvcs[..last];
    }
  }

  lemma {:induction false} SweepReportsEach(
    volumes: map<string, Volume>, pvcs: seq<string>, limit: int, envs: seq<PassEnv>)
    requires |envs| == |pvcs|
    requires forall i, j :: 0 <= i < j < |pvcs| ==> pvcs[i] != pvcs[j]
    ensures forall i :: 0 <= i < |pvcs| ==>
              var report := Pass(Lookup(volumes, pvcs[i]), limit, envs[i]).report;
              report.Some? ==> report.value in Sweep(volumes, pvcs, limit, envs).1
  {
    hide Pass;
    if pvcs != [] {
      var last := |pvcs| - 1;
      SweepReportsEach(volumes, pvcs[..last], limit, envs[..last]);
      var (before, reports) := Sweep(volumes, pvcs[..last], limit, envs[..last]);
      var r := Pass(Lookup(volumes, pvcs[last]), limit, envs[last]);
      assert Lookup(before, pvcs[last]) == Lookup(volumes, pvcs[last]) by {
        SweepIsPerVolume(volumes, pvcs[..last], limit, envs[..last]);
        assert pvcs[last] !in pvcs[..last];
      }
      assert Sweep(volumes, pvcs, limit, envs).1 == reports + if r.report.Some? then [r.report.value] else [];
      hide Sweep, Lookup;
      forall i | 0 <= i < |pvcs|
        ensures var report := Pass(Lookup(volumes, pvcs[i]), limit, envs[i]).report;
                report.Some? ==> report.value in Sweep(volumes, pvcs, limit, envs).1
      {
        if i < last {
          assert pvcs[..last][i] == pvcs[i] && envs[..last][i] == envs[i];
        }
      }
    }
  }

  /** Every status in the list is the report of one of the PVCs. */
  lemma {:induction false} SweepReportsOnly(
    volumes: map<string, Volume>, pvcs: seq<string>, limit: int, envs: seq<PassEnv>, s: OperationStatus)
    requires |envs| == |pvcs|
    requires forall i, j :: 0 <= i < j < |pvcs| ==> pvcs[i] != pvcs[j]
    requires s in Sweep(volumes, pvcs, limit, envs).1
    ensures exists i :: 0 <= i < |pvcs| && Pass(Lookup(volumes, pvcs[i]), limit, envs[i]).report == Some(s)
  {
    hide Pass;
    var last := |pvcs| - 1;
    var before := Sweep(volumes, pvcs[..last], limit, envs[..last]).0;
    SweepIsPerVolume(volumes, pvcs[..last], limit, envs[..last]);
    assert pvcs[last] !in pvcs[..last];
    assert Lookup(before, pvcs[last]) == Lookup(volumes, pvcs[last]);
    var report := Pass(Lookup(volumes, pvcs[last]), limit, envs[last]).report;
    if report == Some(s) {
    } else {
      SweepReportsOnly(volumes, pvcs[..last], limit, envs[..last], s);
      var i :| 0 <= i < last && Pass(Lookup(volumes, pvcs[..last][i]), limit, envs[..last][i]).report == Some(s);
      assert pvcs[..last][i] == pvcs[i] && envs[..last][i] == envs[i];
    }
  }

  /** The operation of a claim after a sweep. */
  function OpAfter(volumes: map<string, Volume>, pvcs: seq<string>, limit: int, envs: seq<PassEnv>, pvc: string): RsyncOperation
    requires |envs| == |pvcs|
  {
    Lookup(Sweep(volumes, pvcs, limit, envs).0, pvc).op
  }

  /** The list shows a failure exactly when some operation is stored as failed, and likewise a success. */
  lemma SweepTellsTheOutcome(volumes: map<string, Volume>, pvcs: seq<string>, limit: int, envs: seq<PassEnv>)
    requires |envs| == |pvcs|
    requires forall i, j :: 0 <= i < j < |pvcs| ==> pvcs[i] != pvcs[j]
    ensures (exists s :: s in Sweep(volumes, pvcs, limit, envs).1 && s.failed) <==>
              exists i :: 0 <= i < |pvcs| && OpAfter(volumes, pvcs, limit, envs, pvcs[i]).failed
    ensures (exists s :: s in Sweep(volumes, pvcs, limit, envs).1 && s.succeeded) <==>
              exists i :: 0 <= i < |pvcs| && OpAfter(volumes, pvcs, limit, envs, pvcs[i]).succeeded
  {
    SweepIsPerVolume(volumes, pvcs, limit, envs);
    SweepReportsEach(volumes, pvcs, limit, envs);
    hide Pass, Sweep;
    var ops := Sweep(volumes, pvcs, limit, envs).1;
    forall s | s in ops
      ensures exists i :: 0 <= i < |pvcs| && s.failed == OpAfter(volumes, pvcs, limit, envs, pvcs[i]).failed
                          && s.succeeded == OpAfter(volumes, pvcs, limit, envs, pvcs[i]).succeeded
    {
      SweepReportsOnly(volumes, pvcs, limit, envs, s);
      var i :| 0 <= i < |pvcs| && Pass(Lookup(volumes, pvcs[i]), limit, envs[i]).report == Some(s);
      ReportTellsTheOutcome(Lookup(volumes, pvcs[i]), limit, envs[i]);
    }
    forall i | 0 <= i < |pvcs| && OpAfter(volumes, pvcs, limit, envs, pvcs[i]).IsComplete()
      ensures exists s :: s in ops && s.failed == OpAfter(volumes, pvcs, limit, envs, pvcs[i]).failed
                          && s.succeeded == OpAfter(volumes, pvcs, limit, envs, pvcs[i]).succeeded
    {
      ReportTellsTheOutcome(Lookup(volumes, pvcs[i]), limit, envs[i]);
      assert Pass(Lookup(volumes, pvcs[i]), limit, envs[i]).report.value in ops;
    }
  }

  /** The current pod of the PVC exists and has a phase, or the operation is over already. */
  predicate Underway(v: Volume) {
    v.op.IsComplete() || (Latest(v.pods).Some? && !Latest(v.pods).value.phase.Unset?)
  }

  /** What `AllCompleted` does promise: once every PVC is underway and its transfer can be built, a
      wholly quiet status list means that every operation has failed or succeeded. */
  lemma AllCompletedMeansTerminal(
    volumes: map<string, Volume>, pvcs: seq<string>, limit: int, envs: seq<PassEnv>)
    requires |envs| == |pvcs|
    requires forall i, j :: 0 <= i < j < |pvcs| ==> pvcs[i] != pvcs[j]
    requires forall i :: 0 <= i < |pvcs| ==> Underway(Lookup(volumes, pvcs[i])) && !envs[i].transfer.BuildFails?
    requires forall s :: s in Sweep(volumes, pvcs, limit, envs).1 ==> s.Quiet()
    ensures forall i :: 0 <= i < |pvcs| ==>
              Lookup(Sweep(volumes, pvcs, limit, envs).0, pvcs[i]).op.IsComplete()
  {
    SweepIsPerVolume(volumes, pvcs, limit, envs);
    SweepReportsEach(volumes, pvcs, limit, envs);
    hide Pass, Sweep;
    forall i | 0 <= i < |pvcs|
      ensures Lookup(Sweep(volumes, pvcs, limit, envs).0, pvcs[i]).op.IsComplete()
    {
      QuietReportExactly(Lookup(volumes, pvcs[i]), limit, envs[i]);
    }
  }

  /** Without that condition it promises nothing: a PVC whose first pod was created in this very
      reconcile, or whose retry could not build its transfer, leaves the list quiet. */
  lemma QuietBeforeTerminal(limit: int)
    ensures var (after, ops) := Sweep(map[], ["pvc"], limit, [CREATING]);
            (forall s :: s in ops ==> s.Quiet()) && !Lookup(after, "pvc").op.IsComplete()
    ensures forall v, env :: RetryBranch(v, limit, env) && env.transfer.BuildFails? ==>
              Sweep(map["pvc" := v], ["pvc"], limit, [env]).1 == []
  {
    assert ["pvc"][..0] == [] && [CREATING][..0] == [];
    assert Sweep(map[], [], limit, []) == (map[], []);
    forall v, env | RetryBranch(v, limit, env) && env.transfer.BuildFails?
      ensures Sweep(map["pvc" := v], ["pvc"], limit, [env]).1 == []
    {
      assert [env][..0] == [];
    }
  }
}
