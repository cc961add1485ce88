/** Cumulative progress of the Rsync attempts of one PVC:
    pkg/controller/directvolumemigrationprogress/directvolumemigrationprogress_controller.go.

    Every pass reads the PVC's pods: dead ones enter the history once, the most recent one becomes the
    current pod, and the total adds up the history without the current pod plus the current percentage. */
module PodProgress {
  import opened Wrappers
  import opened Strconv

  datatype PodPhase = Pending | Running | Succeeded | Failed | Unknown | Unset

  datatype RsyncPodStatus = RsyncPodStatus(
    podName: string, phase: PodPhase, exitCode: Option<int>, elapsed: Option<nat>, logMessage: string,
    percent: string, rate: string, created: int)
  {
    predicate IsTerminal() { phase.Failed? || phase.Succeeded? }
  }

  /** What a pass sees of one pod: its container status, and whether labelling it as done fails. */
  datatype Observation = Observation(status: RsyncPodStatus, labelFails: bool)

  /** `MergeProgressStats`: p1 <- p2, for statuses of the same pod only. */
  function Merged(p1: RsyncPodStatus, p2: RsyncPodStatus): RsyncPodStatus {
    if p1.podName != p2.podName then p1
    else p1.(exitCode := if p1.exitCode.None? then p2.exitCode else p1.exitCode,
             percent := MaxProgressString(p1.percent, p2.percent),
             rate := if p2.rate == "" then p1.rate else p2.rate)
  }

  predicate InHistory(history: seq<RsyncPodStatus>, name: string) {
    exists i :: 0 <= i < |history| && history[i].podName == name
  }

  datatype Scan = Scan(history: seq<RsyncPodStatus>, mostRecent: Option<RsyncPodStatus>)

  /** One pod of a pass; `current` is the top-level status before the pass. */
  function Observe(scan: Scan, current: RsyncPodStatus, o: Observation): Scan {
    if InHistory(scan.history, o.status.podName) then scan
    else if o.status.IsTerminal() && o.labelFails then scan
    else
      var status := if o.status.IsTerminal() then Merged(o.status, current) else o.status;
      Scan(if o.status.IsTerminal() then scan.history + [status] else scan.history,
           if scan.mostRecent.None? || !(scan.mostRecent.value.created > status.created)
           then Some(status) else scan.mostRecent)
  }

  function ScanPods(history: seq<RsyncPodStatus>, current: RsyncPodStatus, pods: seq<Observation>): Scan {
    if pods == [] then Scan(history, None)
    else Observe(ScanPods(history, current, pods[..|pods| - 1]), current, pods[|pods| - 1])
  }

  function Current(current: RsyncPodStatus, mostRecent: Option<RsyncPodStatus>): RsyncPodStatus {
    if mostRecent.None? then current
    else
      var m := mostRecent.value;
      Merged(current.(podName := m.podName, phase := m.phase, logMessage := m.logMessage, elapsed := m.elapsed), m)
  }

  function SumOthers(history: seq<RsyncPodStatus>, name: string): nat {
    if history == [] then 0
    else
      var last := history[|history| - 1];
      SumOthers(history[..|history| - 1], name)
        + if last.podName != name then ProgressStringToValue(last.percent) else 0
  }

  function Total(history: seq<RsyncPodStatus>, current: RsyncPodStatus): nat {
    var sum := SumOthers(history, current.podName) + ProgressStringToValue(current.percent);
    if sum > 100 then 100 else sum
  }

  /** The status of a progress resource. */
  datatype Status = Status(current: RsyncPodStatus, history: seq<RsyncPodStatus>, total: string)

  const FRESH := Status(RsyncPodStatus("", Unset, None, None, "", "", "", 0), [], "")

  function Pass(s: Status, pods: seq<Observation>): Status {
    var scan := ScanPods(s.history, s.current, pods);
    var current := Current(s.current, scan.mostRecent);
    Status(current, scan.history, ProgressValueToString(Total(scan.history, current)))
  }

  class Progress {
    var current: RsyncPodStatus
    var history: seq<RsyncPodStatus>
    var total: string

    ghost function Stored(): Status
      reads this
    {
      Status(current, history, total)
    }

    constructor ()
      ensures Stored() == FRESH
    {
      current, history, total := FRESH.current, [], "";
    }

    method RsyncPodExistsInHistory(name: string) returns (found: bool)
      ensures found == InHistory(history, name)
    {
      for i := 0 to |history|
        invariant forall k :: 0 <= k < i ==> history[k].podName != name
      {
        if history[i].podName == name {
          return true;
        }
      }
      return false;
    }

    /** `RsyncPodProgressTask.Run` on the pod-selector path. */
    method Run(pods: seq<Observation>)
      modifies this
      ensures Stored() == Pass(old(Stored()), pods)
    {
      var mostRecent: Option<RsyncPodStatus> := None;
      for i := 0 to |pods|
        invariant current == old(current) && total == old(total)
        invariant Scan(history, mostRecent) == ScanPods(old(history), current, pods[..i])
      {
        assert pods[..i + 1][..i] == pods[..i];
        var status := pods[i].status;
        var seen := RsyncPodExistsInHistory(status.podName);
        if seen {
          continue;
        }
        if status.IsTerminal() {
          if pods[i].labelFails {
            continue;
          }
          status := Merged(status, current);
          history := history + [status];
        }
        if mostRecent.None? || !(mostRecent.value.created > status.created) {
          mostRecent := Some(status);
        }
      }
      assert pods[..|pods|] == pods;
      if mostRecent.Some? {
        var m := mostRecent.value;
        current := current.(podName := m.podName, phase := m.phase, logMessage := m.logMessage, elapsed := m.elapsed);
        current := Merged(current, m);
      }
      UpdateCumulativeProgressPercentage();
    }

    method UpdateCumulativeProgressPercentage()
      modifies this`total
      ensures total == ProgressValueToString(Total(history, current))
    {
      var sum: nat := 0;
      for i := 0 to |history|
        invariant sum == SumOthers(history[..i], current.podName)
      {
        assert history[..i + 1][..i] == history[..i];
        if history[i].podName != current.podName {
          sum := sum + ProgressStringToValue(history[i].percent);
        }
      }
      assert history[..|history|] == history;
      sum := sum + ProgressStringToValue(current.percent);
      total := ProgressValueToString(if sum < 100 then sum else 100);
    }
  }

  // ---------------------------------------------------------------- runs

  ghost predicate Distinct(history: seq<RsyncPodStatus>) {
    forall i, j :: 0 <= i < j < |history| ==> history[i].podName != history[j].podName
  }

  /** The stored total is the total of what is stored, and no pod is twice in the history. */
  ghost predicate Inv(s: Status) {
    && Distinct(s.history)
    && ProgressStringToValue(s.total) <= Total(s.history, s.current)
  }

  /** A pass only appends to the history, pods that were not there, and picks its most recent pod among
      those that were not there before. */
  lemma {:induction false} ScanAppends(history: seq<RsyncPodStatus>, current: RsyncPodStatus, pods: seq<Observation>)
    requires Distinct(history)
    ensures var scan := ScanPods(history, current, pods);
            && history <= scan.history && Distinct(scan.history)
            && (scan.mostRecent.Some? ==> !InHistory(history, scan.mostRecent.value.podName))
            && (scan.mostRecent.None? ==> scan.history == history)
  {
    if pods != [] {
      ScanAppends(history, current, pods[..|pods| - 1]);
      var before := ScanPods(history, current, pods[..|pods| - 1]);
      var name := pods[|pods| - 1].status.podName;
      if InHistory(history, name) {
        var i :| 0 <= i < |history| && history[i].podName == name;
        assert before.history[i].podName == name;
      }
    }
  }

  lemma {:induction false} SumOfPrefix(history: seq<RsyncPodStatus>, longer: seq<RsyncPodStatus>, name: string)
    requires history <= longer
    ensures SumOthers(history, name) <= SumOthers(longer, name)
    decreases |longer|
  {
    if history == longer {
    } else {
      SumOfPrefix(history, longer[..|longer| - 1], name);
    }
  }

  /** A pod outside the history leaves nothing out of the sum. */
  lemma {:induction false} SumWithoutAbsent(history: seq<RsyncPodStatus>, absent: string, name: string)
    requires !InHistory(history, absent)
    ensures SumOthers(history, name) <= SumOthers(history, absent)
  {
    if history != [] {
      assert history[|history| - 1].podName != absent;
      var rest := history[..|history| - 1];
      assert forall i :: 0 <= i < |rest| ==> rest[i] == history[i];
      SumWithoutAbsent(rest, absent, name);
    }
  }

  /** Main step: the history only grows at its end, by new pods, and the reported total never falls. */
  lemma PassAdvances(s: Status, pods: seq<Observation>)
    requires Inv(s)
    ensures var next := Pass(s, pods);
            && Inv(next) && s.history <= next.history
            && ProgressStringToValue(s.total) <= ProgressStringToValue(next.total) <= 100
            && ProgressStringToValue(next.total) == Total(next.history, next.current)
  {
    var next := Pass(s, pods);
    var scan := ScanPods(s.history, s.current, pods);
    ScanAppends(s.history, s.current, pods);
    ProgressRoundTrip(Total(next.history, next.current));
    SumOfPrefix(s.history, next.history, next.current.podName);
    if scan.mostRecent.Some? {
      MaxProgressValue(s.current.percent, scan.mostRecent.value.percent);
      SumWithoutAbsent(s.history, next.current.podName, s.current.podName);
    }
    hide ProgressStringToValue, MaxProgressString, ScanPods;
  }

  function Run(s: Status, passes: seq<seq<Observation>>): Status
    decreases passes
  {
    if passes == [] then s else Run(Pass(s, passes[0]), passes[1..])
  }

  /** Over any number of passes, whatever pods each one sees: the reported total stays within 0 to 100
      percent and never decreases, no pod enters the history twice, and old entries never change. */
  lemma {:induction false} ProgressIsMonotone(s: Status, passes: seq<seq<Observation>>)
    requires Inv(s)
    ensures var last := Run(s, passes);
            && Inv(last) && s.history <= last.history
            && ProgressStringToValue(s.total) <= ProgressStringToValue(last.total)
            && (passes != [] ==> ProgressStringToValue(last.total) <= 100)
    decreases passes
  {
    if passes != [] {
      PassAdvances(s, passes[0]);
      hide Pass, Inv, ProgressStringToValue;
      ProgressIsMonotone(Pass(s, passes[0]), passes[1..]);
    }
  }

  /** The same from a new resource: more passes never report less. */
  lemma ReportsNeverFall(passes: seq<seq<Observation>>, more: seq<seq<Observation>>)
    ensures var early, late := Run(FRESH, passes), Run(Run(FRESH, passes), more);
            && early.history <= late.history && Distinct(late.history)
            && ProgressStringToValue(early.total) <= ProgressStringToValue(late.total) <= 100
  {
    assert Inv(FRESH);
    assert ProgressStringToValue(FRESH.total) == 0;
    ProgressIsMonotone(FRESH, passes);
    ProgressIsMonotone(Run(FRESH, passes), more);
  }

  // ---------------------------------------------------------------- what the total counts

  /** What one entry of the history adds to the total of a current pod. */
  function Contribution(entry: RsyncPodStatus, name: string): nat {
    if entry.podName == name then 0 else ProgressStringToValue(entry.percent)
  }

  /** An entry adds its percentage wherever it stands, and one of the current pod adds nothing. */
  lemma {:induction false} SumCountsEntry(history: seq<RsyncPodStatus>, i: nat, entry: RsyncPodStatus, name: string)
    requires i <= |history|
    ensures SumOthers(history[..i] + [entry] + history[i..], name) == SumOthers(history, name) + Contribution(entry, name)
    decreases |history|
  {
    hide ProgressStringToValue;
    var n, more := |history|, history[..i] + [entry] + history[i..];
    if i == n {
      assert more == history + [entry] && more[..n] == history;
    } else {
      var rest := history[..n - 1];
      assert more[..n] == rest[..i] + [entry] + rest[i..];
      SumCountsEntry(rest, i, entry, name);
    }
  }

  function Without(history: seq<RsyncPodStatus>, i: nat): seq<RsyncPodStatus>
    requires i < |history|
  {
    history[..i] + history[i + 1..]
  }

  lemma SumWithout(history: seq<RsyncPodStatus>, i: nat, name: string)
    requires i < |history|
    ensures SumOthers(history, name) == Contribution(history[i], name) + SumOthers(Without(history, i), name)
  {
    hide SumOthers, Contribution;
    var rest := Without(history, i);
    assert rest[..i] == history[..i] && rest[i..] == history[i + 1..];
    assert rest[..i] + [history[i]] + rest[i..] == history;
    SumCountsEntry(rest, i, history[i], name);
  }

  lemma WithoutIsLess(history: seq<RsyncPodStatus>, i: nat)
    requires i < |history|
    ensures multiset(Without(history, i)) == multiset(history) - multiset{history[i]}
  {
    assert history == history[..i] + [history[i]] + history[i + 1..];
  }

  /** The order of the history does not matter. */
  lemma {:induction false} SumIgnoresOrder(a: seq<RsyncPodStatus>, b: seq<RsyncPodStatus>, name: string)
    requires multiset(a) == multiset(b)
    ensures SumOthers(a, name) == SumOthers(b, name)
    decreases |a|
  {
    if a == [] {
      assert |multiset(b)| == 0;
    } else {
      hide SumOthers, Contribution;
      assert a[0] in multiset(b);
      var i :| 0 <= i < |b| && b[i] == a[0];
      WithoutIsLess(a, 0);
      WithoutIsLess(b, i);
      SumIgnoresOrder(Without(a, 0), Without(b, i), name);
      SumWithout(a, 0, name);
      SumWithout(b, i, name);
    }
  }

  function AtMost100(sum: nat): nat { if sum <= 100 then sum else 100 }

  /** The sum that a status stands for. */
  function Uncapped(s: Status): nat {
    ProgressStringToValue(s.current.percent) + SumOthers(s.history, s.current.podName)
  }

  lemma {:induction false} LastReport(s: Status, passes: seq<seq<Observation>>)
    requires Inv(s) && passes != []
    ensures ProgressStringToValue(Run(s, passes).total) == AtMost100(Uncapped(Run(s, passes)))
    decreases passes
  {
    var next := Pass(s, passes[0]);
    PassAdvances(s, passes[0]);
    assert Total(next.history, next.current) == AtMost100(Uncapped(next));
    hide Pass, Inv, Uncapped, ProgressStringToValue, Total, AtMost100;
    if |passes| == 1 {
      assert Run(next, passes[1..]) == next;
    } else {
      LastReport(next, passes[1..]);
    }
  }

  lemma SumOfNone(name: string)
    ensures SumOthers([], name) == 0
  {
  }

  /** Main result: what a run reports last. Without past pods it is the current percentage; each past pod
      other than the current one adds its percentage to the sum of the others; and the sum is cut at 100. */
  lemma TotalCountsEveryPod(s: Status, passes: seq<seq<Observation>>, i: nat)
    requires Inv(s) && passes != []
    ensures var last := Run(s, passes);
            var reported, current := ProgressStringToValue(last.total), ProgressStringToValue(last.current.percent);
            && reported == AtMost100(current + SumOthers(last.history, last.current.podName))
            && (last.history == [] ==> reported == AtMost100(current))
            && (i < |last.history| ==>
                  SumOthers(last.history, last.current.podName)
                  == Contribution(last.history[i], last.current.podName)
                     + SumOthers(Without(last.history, i), last.current.podName))
  {
    hide Run, ProgressStringToValue, Inv, Contribution, SumOthers, Without;
    var last := Run(s, passes);
    LastReport(s, passes);
    SumOfNone(last.current.podName);
    if i < |last.history| {
      SumWithout(last.history, i, last.current.podName);
    }
  }

  /** The total is never less than the current percentage and those of two past pods, up to 100. */
  lemma PastPodsCount(s: Status, passes: seq<seq<Observation>>, i: nat, j: nat)
    requires Inv(s) && passes != []
    requires i < j < |Run(s, passes).history|
    requires Run(s, passes).current.podName !in {Run(s, passes).history[i].podName, Run(s, passes).history[j].podName}
    ensures var last := Run(s, passes);
            ProgressStringToValue(last.total)
            >= AtMost100(ProgressStringToValue(last.current.percent)
                         + ProgressStringToValue(last.history[i].percent)
                         + ProgressStringToValue(last.history[j].percent))
  {
    hide Run, ProgressStringToValue, Inv, SumOthers, Contribution;
    var last := Run(s, passes);
    LastReport(s, passes);
    TwoEntriesCount(last.history, i, j, last.current.podName);
  }

  lemma TwoEntriesCount(history: seq<RsyncPodStatus>, i: nat, j: nat, name: string)
    requires i < j < |history| && name !in {history[i].podName, history[j].podName}
    ensures SumOthers(history, name) >= ProgressStringToValue(history[i].percent) + ProgressStringToValue(history[j].percent)
  {
    hide ProgressStringToValue, SumOthers;
    SumWithout(history, j, name);
    assert Without(history, j)[i] == history[i];
    SumWithout(Without(history, j), i, name);
  }

  // ---------------------------------------------------------------- what a pass records

  /** Merging keeps the larger percentage, the exit code it has, and the newer rate, of the same pod only. */
  lemma MergedKeeps(p1: RsyncPodStatus, p2: RsyncPodStatus)
    ensures var merged := Merged(p1, p2);
            && merged.podName == p1.podName && merged.phase == p1.phase && merged.created == p1.created
            && merged.logMessage == p1.logMessage && merged.elapsed == p1.elapsed
            && (p1.podName != p2.podName ==> merged == p1)
            && (p1.podName == p2.podName ==>
                  && ProgressStringToValue(merged.percent)
                     == Larger(ProgressStringToValue(p1.percent), ProgressStringToValue(p2.percent))
                  && (p1.exitCode.Some? ==> merged.exitCode == p1.exitCode)
                  && (p1.exitCode.None? ==> merged.exitCode == p2.exitCode)
                  && (p2.rate != "" ==> merged.rate == p2.rate) && (p2.rate == "" ==> merged.rate == p1.rate))
  {
    MaxProgressValue(p1.percent, p2.percent);
    hide ProgressStringToValue, MaxProgressString;
  }

  function Larger(a: nat, b: nat): nat { if a < b then b else a }

  /** A pod that a pass takes up: not known as dead, and labelled if it is dead now. */
  predicate TakenUp(history: seq<RsyncPodStatus>, o: Observation) {
    !InHistory(history, o.status.podName) && !(o.status.IsTerminal() && o.labelFails)
  }

  ghost predicate DistinctPods(pods: seq<Observation>) {
    forall i, j :: 0 <= i < j < |pods| ==> pods[i].status.podName != pods[j].status.podName
  }

  /** Pod i is the newest of those taken up, the last one of equal age. */
  ghost predicate Newest(history: seq<RsyncPodStatus>, pods: seq<Observation>, i: nat)
    requires i < |pods|
  {
    && TakenUp(history, pods[i])
    && (forall j :: 0 <= j < |pods| && TakenUp(history, pods[j]) ==>
          && pods[j].status.created <= pods[i].status.created
          && (j > i ==> pods[j].status.created < pods[i].status.created))
  }

  function Taken(current: RsyncPodStatus, o: Observation): RsyncPodStatus {
    if o.status.IsTerminal() then Merged(o.status, current) else o.status
  }

  lemma ObservationEnters(scan: Scan, current: RsyncPodStatus, o: Observation, name: string)
    ensures InHistory(Observe(scan, current, o).history, name) <==>
              InHistory(scan.history, name) || (o.status.podName == name && o.status.IsTerminal() && !o.labelFails)
  {
    var after := Observe(scan, current, o).history;
    hide MaxProgressString;
    assert forall i :: 0 <= i < |scan.history| ==> after[i] == scan.history[i];
    if after != scan.history {
      assert after[|after| - 1].podName == o.status.podName;
    }
    if InHistory(scan.history, name) {
      var i :| 0 <= i < |scan.history| && scan.history[i].podName == name;
      assert after[i].podName == name;
    }
  }

  lemma {:induction false} ScanEnters(history: seq<RsyncPodStatus>, current: RsyncPodStatus, pods: seq<Observation>,
                                      name: string)
    ensures InHistory(ScanPods(history, current, pods).history, name) <==>
              || InHistory(history, name)
              || exists i :: 0 <= i < |pods| && pods[i].status.podName == name && pods[i].status.IsTerminal()
                             && !pods[i].labelFails
  {
    if pods != [] {
      var n := |pods| - 1;
      ScanEnters(history, current, pods[..n], name);
      hide InHistory, Merged;
      ObservationEnters(ScanPods(history, current, pods[..n]), current, pods[n], name);
      assert forall i :: 0 <= i < n ==> pods[..n][i] == pods[i];
    }
  }

  /** The entry is that of the dead pod o, with no less than was shown of it before it died. */
  predicate Records(entry: RsyncPodStatus, o: Observation, current: RsyncPodStatus) {
    && o.status.IsTerminal() && !o.labelFails
    && entry.podName == o.status.podName && entry.phase == o.status.phase && entry.elapsed == o.status.elapsed
    && ProgressStringToValue(entry.percent)
       == Larger(ProgressStringToValue(o.status.percent),
                 if current.podName == o.status.podName then ProgressStringToValue(current.percent) else 0)
    && (entry.exitCode.None? ==> o.status.exitCode.None?)
    && (o.status.exitCode.Some? ==> entry.exitCode == o.status.exitCode)
  }

  /** Every new entry of the history records a dead pod of the pass. */
  lemma {:induction false} EntriesRecordPods(history: seq<RsyncPodStatus>, current: RsyncPodStatus, pods: seq<Observation>)
    ensures var after := ScanPods(history, current, pods).history;
            && history <= after
            && forall k :: |history| <= k < |after| ==> exists i :: 0 <= i < |pods| && Records(after[k], pods[i], current)
  {
    hide Records;
    if pods != [] {
      var n := |pods| - 1;
      EntriesRecordPods(history, current, pods[..n]);
      assert forall i :: 0 <= i < n ==> pods[..n][i] == pods[i];
      if pods[n].status.IsTerminal() && !pods[n].labelFails {
        DeadPodIsRecorded(pods[n], current);
      }
      hide Merged, InHistory;
    }
  }

  lemma DeadPodIsRecorded(o: Observation, current: RsyncPodStatus)
    requires o.status.IsTerminal() && !o.labelFails
    ensures Records(Merged(o.status, current), o, current)
  {
    MergedKeeps(o.status, current);
    hide ProgressStringToValue, MaxProgressString;
  }

  ghost predicate ShowsNewest(history: seq<RsyncPodStatus>, current: RsyncPodStatus, pods: seq<Observation>,
                              shown: Option<RsyncPodStatus>) {
    if shown.None? then forall i :: 0 <= i < |pods| ==> !TakenUp(history, pods[i])
    else exists i :: 0 <= i < |pods| && Newest(history, pods, i) && shown.value == Taken(current, pods[i])
  }

  /** The most recent pod of a pass over distinct pods is the newest of those taken up. */
  lemma {:induction false} ScanFinds(history: seq<RsyncPodStatus>, current: RsyncPodStatus, pods: seq<Observation>)
    requires DistinctPods(pods)
    ensures ShowsNewest(history, current, pods, ScanPods(history, current, pods).mostRecent)
  {
    if pods != [] {
      var n := |pods| - 1;
      var before := ScanPods(history, current, pods[..n]);
      ScanFinds(history, current, pods[..n]);
      ScanEnters(history, current, pods[..n], pods[n].status.podName);
      assert InHistory(before.history, pods[n].status.podName) <==> InHistory(history, pods[n].status.podName);
      NewestStep(history, current, pods, before);
    }
  }

  lemma NewestStep(history: seq<RsyncPodStatus>, current: RsyncPodStatus, pods: seq<Observation>, before: Scan)
    requires pods != [] && ShowsNewest(history, current, pods[..|pods| - 1], before.mostRecent)
    requires var name := pods[|pods| - 1].status.podName; InHistory(before.history, name) <==> InHistory(history, name)
    ensures ShowsNewest(history, current, pods, Observe(before, current, pods[|pods| - 1]).mostRecent)
  {
    hide InHistory, MaxProgressString;
    var n := |pods| - 1;
    assert forall i :: 0 <= i < n ==> pods[..n][i] == pods[i];
    var shown := Observe(before, current, pods[n]).mostRecent;
    if before.mostRecent.None? {
      assert shown.Some? ==> Newest(history, pods, n);
    } else {
      var i :| 0 <= i < n && Newest(history, pods[..n], i) && before.mostRecent.value == Taken(current, pods[..n][i]);
      if shown == before.mostRecent && !(TakenUp(history, pods[n]) && shown == Some(Taken(current, pods[n]))) {
        assert Newest(history, pods, i);
      } else {
        assert Newest(history, pods, n);
      }
    }
  }

  /** What a pass over distinct pods shows of the newest pod i that it takes up. The percentage is not reset
      for another pod: it is the larger of the pod's own and the one shown before. */
  lemma NewestIsShown(s: Status, pods: seq<Observation>, i: nat)
    requires DistinctPods(pods) && i < |pods| && Newest(s.history, pods, i)
    ensures var now, pod := Pass(s, pods).current, pods[i].status;
            && now.podName == pod.podName && now.phase == pod.phase
            && now.logMessage == pod.logMessage && now.elapsed == pod.elapsed
            && ProgressStringToValue(now.percent)
               == Larger(ProgressStringToValue(s.current.percent), ProgressStringToValue(pod.percent))
  {
    ScanFinds(s.history, s.current, pods);
    var shown := ScanPods(s.history, s.current, pods).mostRecent;
    assert shown == Some(Taken(s.current, pods[i]));
    hide ScanPods, ProgressStringToValue, MaxProgressString, InHistory;
    MergedKeeps(pods[i].status, s.current);
    var named := s.current.(podName := shown.value.podName, phase := shown.value.phase,
                            logMessage := shown.value.logMessage, elapsed := shown.value.elapsed);
    MergedKeeps(named, shown.value);
  }

  /** So the total is the sum of what the pods report exactly when the pod shown before did not report more
      than the newest one, or the sum is at least 100 all the same. */
  lemma TotalIsTheSumExactly(s: Status, pods: seq<Observation>, i: nat)
    requires Inv(s) && DistinctPods(pods) && i < |pods| && Newest(s.history, pods, i)
    ensures var next, own := Pass(s, pods), ProgressStringToValue(pods[i].status.percent);
            var sum := own + SumOthers(next.history, pods[i].status.podName);
            ProgressStringToValue(next.total) == AtMost100(sum)
            <==> ProgressStringToValue(s.current.percent) <= own || sum >= 100
  {
    NewestIsShown(s, pods, i);
    PassAdvances(s, pods);
    hide Pass, Inv, ProgressStringToValue, DistinctPods, Newest, SumOthers;
  }

  /** It fails at every retry: a pod fails at n percent, another one starts, and n percent count twice. */
  lemma RetryCountsTwice(n: nat, failed: RsyncPodStatus, started: RsyncPodStatus)
    requires n <= 50 && failed.phase.Failed? && started.phase.Pending? && failed.podName != started.podName
    requires ProgressStringToValue(failed.percent) == n && ProgressStringToValue(started.percent) == 0
    requires "" !in {failed.podName, started.podName}
    ensures var last := Run(FRESH, [[Observation(failed, false)], [Observation(started, false)]]);
            last.current.podName == started.podName && ProgressStringToValue(last.total) == 2 * n
  {
    var first, second := [Observation(failed, false)], [Observation(started, false)];
    var one := Pass(FRESH, first);
    FirstPass(failed);
    RunOfTwo(first, second);
    hide Run, Pass, ProgressStringToValue, Inv;
    SecondPass(one, failed, started);
    PassAdvances(one, second);
    NewestIsShown(one, second, 0);
  }

  lemma RunOfTwo(first: seq<Observation>, second: seq<Observation>)
    ensures Run(FRESH, [first, second]) == Pass(Pass(FRESH, first), second)
  {
    hide Pass;
    assert [first, second][1..] == [second] && [second][1..] == [];
    assert Run(Pass(Pass(FRESH, first), second), []) == Pass(Pass(FRESH, first), second);
  }

  lemma EmptyReadsZero()
    ensures ProgressStringToValue("") == 0
  {
  }

  lemma ScanOfOne(history: seq<RsyncPodStatus>, current: RsyncPodStatus, o: Observation)
    ensures ScanPods(history, current, [o]) == Observe(Scan(history, None), current, o)
  {
    assert [o][..0] == [];
  }

  lemma FirstPass(failed: RsyncPodStatus)
    requires failed.IsTerminal() && failed.podName != ""
    ensures var one := Pass(FRESH, [Observation(failed, false)]);
            && one.history == [failed] && Inv(one)
            && ProgressStringToValue(one.current.percent) == ProgressStringToValue(failed.percent)
  {
    ScanOfOne(FRESH.history, FRESH.current, Observation(failed, false));
    EmptyReadsZero();
    assert Inv(FRESH);
    PassAdvances(FRESH, [Observation(failed, false)]);
    NewestIsShown(FRESH, [Observation(failed, false)], 0);
    hide ProgressStringToValue, MaxProgressString, ScanPods, Inv;
  }

  lemma SecondPass(one: Status, failed: RsyncPodStatus, started: RsyncPodStatus)
    requires one.history == [failed] && !started.IsTerminal() && failed.podName != started.podName
    ensures var two := Pass(one, [Observation(started, false)]);
            two.history == [failed]
            && SumOthers(two.history, started.podName) == ProgressStringToValue(failed.percent)
  {
    ScanOfOne(one.history, one.current, Observation(started, false));
    hide ProgressStringToValue, MaxProgressString, ScanPods;
    assert [failed][..0] == [];
  }
}
