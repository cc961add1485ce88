/** From measured disk usage to the size of the destination claim:
    pkg/controller/miganalytic/volume_adjustment.go proposes a capacity for every measured volume,
    pkg/controller/migplan/migplan_controller.go copies the proposals into the plan, and
    pkg/controller/directvolumemigration/pvcs.go sizes the destination claim.

    Quantities are integer counts of milli-units. */
module VolumeSizing {
  import opened Quantities
  import opened Wrappers

  const DEFAULT_PV_USAGE_THRESHOLD := 3

  datatype Comment = NoOp | UsageExceeded | CapacityMismatch

  /** A volume as listed on a node. */
  datatype Detail = Detail(name: string, namespace: string, requested: int, provisioned: int)

  datatype DfOutput = DfOutput(node: string, name: string, namespace: string,
                               usagePercentage: int, usage: int, totalSize: int, isError: bool)

  datatype DuOutput = DuOutput(name: string, namespace: string, usage: int, isError: bool)

  type NodeMap = map<string, seq<Detail>>

  /** `MigAnalyticPersistentVolumeClaim`; quantities never written are 0. */
  datatype ClaimStatus = ClaimStatus(name: string, requested: int, actual: int, proposed: int,
                                     comment: Comment, sparse: bool)

  datatype NamespaceStatus = NamespaceStatus(namespace: string, volumes: seq<ClaimStatus>)

  // ---------------------------------------------------------------- one proposal

  /** `getVolumeUsagePercentageThreshold`; the settings may be nil. */
  function Threshold(setting: Option<int>): (t: int)
    ensures 0 < t < 100
    ensures setting.Some? && 0 < setting.value < 100 ==> t == setting.value
    ensures setting.None? || setting.value <= 0 || setting.value >= 100 ==> t == 3
  {
    if setting.Some? && 0 < setting.value < 100 then setting.value else DEFAULT_PV_USAGE_THRESHOLD
  }

  function Largest(requested: int, actual: int, provisioned: int): int {
    Max(Max(requested, actual), provisioned)
  }

  /** Usage plus threshold, in percent. */
  function Percent(usage: int, setting: Option<int>): int {
    usage + Threshold(setting)
  }

  /** `calculateProposedVolumeSize`, before the clamp in `Run`. */
  function ProposedSize(usage: int, actual: int, requested: int, provisioned: int, setting: Option<int>): int {
    if Percent(usage, setting) > 100
    then GoDiv(Value(actual) * Percent(usage, setting), 100) * 1000
    else Largest(requested, actual, provisioned)
  }

  function Reason(usage: int, actual: int, requested: int, provisioned: int, setting: Option<int>): Comment {
    if Percent(usage, setting) > 100 then UsageExceeded
    else if actual > requested || provisioned > requested then CapacityMismatch
    else NoOp
  }

  method CalculateProposedVolumeSize(usage: int, actual: int, requested: int, provisioned: int, setting: Option<int>)
    returns (size: int, reason: Comment)
    ensures size == ProposedSize(usage, actual, requested, provisioned, setting)
    ensures reason == Reason(usage, actual, requested, provisioned, setting)
  {
    size, reason := requested, NoOp;
    if actual > size {
      size, reason := actual, CapacityMismatch;
    }
    if provisioned > size {
      size, reason := provisioned, CapacityMismatch;
    }
    if usage + Threshold(setting) > 100 {
      reason := UsageExceeded;
      size := GoDiv(Value(actual) * (usage + Threshold(setting)), 100) * 1000;
    }
  }

  /** The data with its safety margin, in whole units rounded down, as milli-units. */
  function Needed(actual: int, usage: int, setting: Option<int>): int {
    actual * Percent(usage, setting) / 100_000 * 1000
  }

  lemma QuotientsCompare(x: int, y: int)
    requires 0 <= x <= 1000 * y
    ensures x / 100_000 <= y / 100
  {
  }

  lemma TimesMonotone(a: int, b: int, p: int)
    requires a <= b && p >= 0
    ensures a * p <= b * p
  {
  }

  /** Over the threshold: rounding the capacity up first loses nothing. */
  lemma MarginOfRoundedUp(actual: nat, p: nat)
    ensures actual * p / 100_000 <= Value(actual) * p / 100
    ensures Value(actual) * p >= 0
  {
    ValueRoundsUp(actual);
    var units := Value(actual);
    TimesMonotone(actual, units * 1000, p);
    TimesMonotone(0, actual, p);
    TimesMonotone(0, units, p);
    Reassociate(units, p);
    QuotientsCompare(actual * p, units * p);
  }

  lemma Reassociate(units: int, p: int)
    ensures units * 1000 * p == 1000 * (units * p)
  {
  }

  /** At most a hundred percent: the volume's own capacity is enough. */
  lemma MarginFits(actual: nat, p: int)
    requires p <= 100
    ensures actual * p / 100_000 * 1000 <= actual
  {
    TimesMonotone(0, 100 - p, actual);
    assert actual * p <= actual * 100;
  }

  /** On every branch the unclamped size has room for the data and its margin. */
  lemma ProposedSizeHoldsTheData(usage: int, actual: nat, requested: int, provisioned: int, setting: Option<int>)
    ensures ProposedSize(usage, actual, requested, provisioned, setting) >= Needed(actual, usage, setting)
  {
    var p := Percent(usage, setting);
    if p > 100 {
      MarginOfRoundedUp(actual, p);
    } else {
      MarginFits(actual, p);
    }
    hide Value, Percent;
  }

  /** The status entry that `Run` appends for one measured volume. */
  function Entry(df: DfOutput, detail: Detail, du: Option<DuOutput>, setting: Option<int>): ClaimStatus {
    var blank := ClaimStatus(detail.name, detail.requested, 0, 0, NoOp, false);
    if df.isError then blank
    else blank.(
         actual := df.totalSize,
         proposed := Max(ProposedSize(df.usagePercentage, df.totalSize, detail.requested, detail.provisioned, setting),
                         detail.provisioned),
         comment := Reason(df.usagePercentage, df.totalSize, detail.requested, detail.provisioned, setting),
         sparse := du.Some? && !du.value.isError && du.value.usage > df.usage)
  }

  /** A proposal is at least the provisioned capacity and the data with its margin. It can be below the
      requested capacity, but only when the usage is over the threshold. */
  lemma EntryBounds(df: DfOutput, detail: Detail, du: Option<DuOutput>, setting: Option<int>)
    requires !df.isError && df.totalSize >= 0
    ensures var e := Entry(df, detail, du, setting);
            && e.proposed >= detail.provisioned
            && e.proposed >= Needed(df.totalSize, df.usagePercentage, setting)
            && (e.comment != UsageExceeded ==> e.proposed == Largest(detail.requested, df.totalSize, detail.provisioned))
            && (e.comment == NoOp <==> e.comment != UsageExceeded && e.proposed == detail.requested)
  {
    ProposedSizeHoldsTheData(df.usagePercentage, df.totalSize, detail.requested, detail.provisioned, setting);
  }

  lemma WholeUnitsBelow(x: nat, r: nat)
    ensures x / 100 * 1000 < r <==> x < 100 * Value(r)
  {
  }

  /** The proposal falls below the requested capacity exactly when the usage is over the threshold, less was
      provisioned than requested, and the measured capacity is too small by the percentage: in whole units,
      its product with usage plus threshold stays under a hundred times the request. */
  lemma RequestIsLost(df: DfOutput, detail: Detail, du: Option<DuOutput>, setting: Option<int>)
    requires !df.isError && df.totalSize >= 0 && detail.requested >= 0
    ensures Entry(df, detail, du, setting).proposed < detail.requested <==>
              && Percent(df.usagePercentage, setting) > 100
              && detail.provisioned < detail.requested
              && Value(df.totalSize) * Percent(df.usagePercentage, setting) < 100 * Value(detail.requested)
  {
    var p, units := Percent(df.usagePercentage, setting), Value(df.totalSize);
    if p > 100 {
      TimesMonotone(0, units, p);
      WholeUnitsBelow(units * p, detail.requested);
    }
    hide Value, Percent;
  }

  /** A claim for 100 units on a volume of 10 that is full: the proposal is 10, not 100. */
  lemma ProposalBelowRequest()
    ensures Entry(DfOutput("n", "c", "ns", 98, 9, 10_000, false), Detail("c", "ns", 100_000, 10_000), None, None).proposed
            < 100_000
  {
  }

  // ---------------------------------------------------------------- the analytic's run

  function FirstDetail(details: seq<Detail>, name: string, namespace: string): Option<Detail> {
    if details == [] then None
    else if details[0].name == name && details[0].namespace == namespace then Some(details[0])
    else FirstDetail(details[1..], name, namespace)
  }

  function DetailFor(df: DfOutput, nodes: NodeMap): Option<Detail> {
    if df.node in nodes then FirstDetail(nodes[df.node], df.name, df.namespace) else None
  }

  function DuFor(df: DfOutput, dus: seq<DuOutput>): Option<DuOutput> {
    if dus == [] then None
    else if dus[0].namespace == df.namespace && dus[0].name == df.name then Some(dus[0])
    else DuFor(df, dus[1..])
  }

  /** The index of the namespace in the status, or its length. */
  function IndexOf(status: seq<NamespaceStatus>, namespace: string): (i: nat)
    ensures i <= |status|
    ensures i < |status| ==> status[i].namespace == namespace
    ensures forall j :: 0 <= j < i ==> status[j].namespace != namespace
  {
    if status == [] || status[0].namespace == namespace then 0 else 1 + IndexOf(status[1..], namespace)
  }

  function Appended(status: seq<NamespaceStatus>, i: nat, e: ClaimStatus): seq<NamespaceStatus> {
    if i < |status| then status[i := status[i].(volumes := status[i].volumes + [e])] else status
  }

  function AfterDf(status: seq<NamespaceStatus>, df: DfOutput, dus: seq<DuOutput>, nodes: NodeMap,
                   setting: Option<int>): seq<NamespaceStatus> {
    var detail := DetailFor(df, nodes);
    if detail.None? then status
    else Appended(status, IndexOf(status, detail.value.namespace), Entry(df, detail.value, DuFor(df, dus), setting))
  }

  function AfterRun(status: seq<NamespaceStatus>, dfs: seq<DfOutput>, dus: seq<DuOutput>, nodes: NodeMap,
                    setting: Option<int>): (after: seq<NamespaceStatus>)
    ensures |after| == |status| && forall i :: 0 <= i < |status| ==> after[i].namespace == status[i].namespace
  {
    if dfs == [] then status
    else AfterDf(AfterRun(status, dfs[..|dfs| - 1], dus, nodes, setting), dfs[|dfs| - 1], dus, nodes, setting)
  }

  /** The controller dereferences nil on this output: the analytic does not list the namespace of the
      volume, or the size was read but there is no second measurement. */
  predicate Crashes(status: seq<NamespaceStatus>, df: DfOutput, dus: seq<DuOutput>, nodes: NodeMap) {
    DetailFor(df, nodes).Some? &&
    (IndexOf(status, DetailFor(df, nodes).value.namespace) == |status| || (!df.isError && DuFor(df, dus).None?))
  }

  /** No output makes the controller crash. */
  predicate Measured(status: seq<NamespaceStatus>, dfs: seq<DfOutput>, dus: seq<DuOutput>, nodes: NodeMap) {
    forall i :: 0 <= i < |dfs| ==> !Crashes(status, dfs[i], dus, nodes)
  }

  function DuName(du: DuOutput): string {
    du.namespace + "/" + du.name
  }

  /** The volumes the warnings name: those whose size could not be read, and those without a second measurement. */
  function Errored(dfs: seq<DfOutput>, nodes: NodeMap): seq<string> {
    if dfs == [] then []
    else
      var before, last := Errored(dfs[..|dfs| - 1], nodes), dfs[|dfs| - 1];
      if DetailFor(last, nodes).Some? && last.isError then before + [last.name] else before
  }

  function ErroredDu(dfs: seq<DfOutput>, dus: seq<DuOutput>, nodes: NodeMap): seq<string> {
    if dfs == [] then []
    else
      var before, last := ErroredDu(dfs[..|dfs| - 1], dus, nodes), dfs[|dfs| - 1];
      var du := DuFor(last, dus);
      if DetailFor(last, nodes).Some? && !last.isError && du.Some? && du.value.isError
      then before + [DuName(du.value)] else before
  }

  lemma SameIndex(a: seq<NamespaceStatus>, b: seq<NamespaceStatus>, namespace: string)
    requires |a| == |b| && forall i :: 0 <= i < |a| ==> a[i].namespace == b[i].namespace
    ensures IndexOf(a, namespace) == IndexOf(b, namespace)
  {
  }

  class PersistentVolumeAdjuster {
    var status: seq<NamespaceStatus>
    var erroredPVs: seq<string>
    var erroredDuPVs: seq<string>
    const threshold: Option<int>

    constructor (status: seq<NamespaceStatus>, threshold: Option<int>)
      ensures this.status == status && this.threshold == threshold && erroredPVs == [] && erroredDuPVs == []
    {
      this.status, this.threshold, erroredPVs, erroredDuPVs := status, threshold, [], [];
    }

    method FindOriginal(df: DfOutput, nodes: NodeMap) returns (found: Option<Detail>)
      ensures found == DetailFor(df, nodes)
    {
      if df.node in nodes {
        var details := nodes[df.node];
        for i := 0 to |details|
          invariant DetailFor(df, nodes) == FirstDetail(details[i..], df.name, df.namespace)
        {
          if details[i].name == df.name && details[i].namespace == df.namespace {
            return Some(details[i]);
          }
        }
      }
      return None;
    }

    method FindDu(df: DfOutput, dus: seq<DuOutput>) returns (found: Option<DuOutput>)
      ensures found == DuFor(df, dus)
    {
      for i := 0 to |dus|
        invariant DuFor(df, dus) == DuFor(df, dus[i..])
      {
        if dus[i].namespace == df.namespace && dus[i].name == df.name {
          return Some(dus[i]);
        }
      }
      return None;
    }

    method FindNamespace(namespace: string) returns (i: nat)
      ensures i == IndexOf(status, namespace)
    {
      i := 0;
      while i < |status| && status[i].namespace != namespace
        invariant i <= |status| && IndexOf(status, namespace) == i + IndexOf(status[i..], namespace)
      {
        i := i + 1;
      }
    }

    /** `Run`, with the outputs of the two commands given. It crashes at the first output it cannot handle. */
    method Run(dfs: seq<DfOutput>, dus: seq<DuOutput>, nodes: NodeMap) returns (crashed: bool)
      modifies this
      ensures crashed <==> !Measured(old(status), dfs, dus, nodes)
      ensures !crashed ==> status == AfterRun(old(status), dfs, dus, nodes, threshold)
      ensures !crashed ==> erroredPVs == Errored(dfs, nodes) && erroredDuPVs == ErroredDu(dfs, dus, nodes)
      ensures crashed ==> exists k :: 0 <= k < |dfs| && Crashes(old(status), dfs[k], dus, nodes)
                                      && status == AfterRun(old(status), dfs[..k], dus, nodes, threshold)
    {
      hide Entry, DetailFor, DuFor;
      erroredPVs, erroredDuPVs := [], [];
      for i := 0 to |dfs|
        invariant Measured(old(status), dfs[..i], dus, nodes)
        invariant status == AfterRun(old(status), dfs[..i], dus, nodes, threshold)
        invariant erroredPVs == Errored(dfs[..i], nodes) && erroredDuPVs == ErroredDu(dfs[..i], dus, nodes)
      {
        assert dfs[..i + 1][..i] == dfs[..i];
        var original := FindOriginal(dfs[i], nodes);
        var du := FindDu(dfs[i], dus);
        if original.Some? {
          SameIndex(old(status), status, original.value.namespace);
          var at := FindNamespace(original.value.namespace);
          if at == |status| || (!dfs[i].isError && du.None?) {
            assert Crashes(old(status), dfs[i], dus, nodes);
            return true;
          }
          var e := BuildEntry(dfs[i], original.value, du);
          status := status[at := status[at].(volumes := status[at].volumes + [e])];
        }
        assert !Crashes(old(status), dfs[i], dus, nodes);
        assert dfs[..i + 1] == dfs[..i] + [dfs[i]];
      }
      assert dfs[..|dfs|] == dfs;
      return false;
    }

    method BuildEntry(df: DfOutput, original: Detail, du: Option<DuOutput>) returns (e: ClaimStatus)
      requires df.isError || du.Some?
      modifies this`erroredPVs, this`erroredDuPVs
      ensures e == Entry(df, original, du, threshold)
      ensures erroredPVs == if df.isError then old(erroredPVs) + [df.name] else old(erroredPVs)
      ensures erroredDuPVs ==
                if !df.isError && du.value.isError then old(erroredDuPVs) + [DuName(du.value)] else old(erroredDuPVs)
    {
      e := ClaimStatus(original.name, original.requested, 0, 0, NoOp, false);
      if df.isError {
        erroredPVs := erroredPVs + [df.name];
      } else {
        e := e.(actual := df.totalSize);
        var proposed, reason := CalculateProposedVolumeSize(df.usagePercentage, df.totalSize,
                                                            original.requested, original.provisioned, threshold);
        if original.provisioned > proposed {
          e := e.(proposed := original.provisioned);
        } else {
          e := e.(proposed := proposed);
        }
        e := e.(comment := reason);
        if !du.value.isError {
          if du.value.usage > df.usage {
            e := e.(sparse := true);
          }
        } else {
          erroredDuPVs := erroredDuPVs + [DuName(du.value)];
        }
      }
    }
  }

  // ---------------------------------------------------------------- the plan

  datatype PlanVolume = PlanVolume(sourceName: string, namespace: string, capacity: int, proposed: int, confirmed: bool)

  function Named(claims: seq<ClaimStatus>, name: string): seq<ClaimStatus> {
    if claims == [] then []
    else
      var before, last := Named(claims[..|claims| - 1], name), claims[|claims| - 1];
      if last.name == name then before + [last] else before
  }

  /** The entries that `processProposedPVCapacities` reads for one volume, in order. */
  function Matching(status: seq<NamespaceStatus>, name: string, namespace: string): seq<ClaimStatus> {
    if status == [] then []
    else
      var before, last := Matching(status[..|status| - 1], name, namespace), status[|status| - 1];
      if last.namespace == namespace then before + Named(last.volumes, name) else before
  }

  function Taken(v: PlanVolume, entries: seq<ClaimStatus>): PlanVolume {
    if entries == [] then v
    else
      var before, last := Taken(v, entries[..|entries| - 1]), entries[|entries| - 1];
      before.(proposed := last.proposed, confirmed := before.confirmed && before.proposed <= last.proposed)
  }

  function Processed(v: PlanVolume, status: seq<NamespaceStatus>): PlanVolume {
    Taken(v, Matching(status, v.sourceName, v.namespace))
  }

  /** The name of a volume, once for each of its entries that asks for a resize. */
  function Resizes(entries: seq<ClaimStatus>, name: string): seq<string> {
    if entries == [] then []
    else
      var before, last := Resizes(entries[..|entries| - 1], name), entries[|entries| - 1];
      if last.comment != NoOp then before + [name] else before
  }

  lemma ResizesSnoc(entries: seq<ClaimStatus>, e: ClaimStatus, name: string)
    ensures Resizes(entries + [e], name) ==
              if e.comment != NoOp then Resizes(entries, name) + [name] else Resizes(entries, name)
  {
    assert (entries + [e])[..|entries|] == entries;
  }

  /** The names of the volumes to resize. */
  function Required(volumes: seq<PlanVolume>, status: seq<NamespaceStatus>): seq<string> {
    if volumes == [] then []
    else
      var last := volumes[|volumes| - 1];
      Required(volumes[..|volumes| - 1], status)
      + Resizes(Matching(status, last.sourceName, last.namespace), last.sourceName)
  }

  /** Names of volumes for which no information was found. */
  function Missing(volumes: seq<PlanVolume>, status: seq<NamespaceStatus>): seq<string> {
    if volumes == [] then []
    else
      var before, last := Missing(volumes[..|volumes| - 1], status), volumes[|volumes| - 1];
      if Matching(status, last.sourceName, last.namespace) == [] then before + [last.sourceName] else before
  }

  lemma TakenSnoc(v: PlanVolume, entries: seq<ClaimStatus>, e: ClaimStatus)
    ensures var before := Taken(v, entries);
            Taken(v, entries + [e]) ==
              before.(proposed := e.proposed, confirmed := before.confirmed && before.proposed <= e.proposed)
  {
    assert (entries + [e])[..|entries|] == entries;
  }

  lemma {:induction false} TakenKeeps(v: PlanVolume, entries: seq<ClaimStatus>)
    ensures var t := Taken(v, entries);
            && t.sourceName == v.sourceName && t.namespace == v.namespace && t.capacity == v.capacity
            && t.proposed == if entries == [] then v.proposed else entries[|entries| - 1].proposed
  {
    if entries != [] { TakenKeeps(v, entries[..|entries| - 1]); }
  }

  lemma NamedSnoc(claims: seq<ClaimStatus>, e: ClaimStatus, name: string)
    ensures Named(claims + [e], name) == if e.name == name then Named(claims, name) + [e] else Named(claims, name)
  {
    assert (claims + [e])[..|claims|] == claims;
  }

  /** Entry i proposes no less than what the plan held before it. */
  predicate NotBelow(v: PlanVolume, entries: seq<ClaimStatus>, i: nat)
    requires i < |entries|
  {
    (if i == 0 then v.proposed else entries[i - 1].proposed) <= entries[i].proposed
  }

  /** A confirmed capacity stays confirmed exactly when no proposal is smaller than the one before it. */
  lemma {:induction false} ConfirmedExactly(v: PlanVolume, entries: seq<ClaimStatus>)
    ensures Taken(v, entries).confirmed <==>
              v.confirmed && forall i :: 0 <= i < |entries| ==> NotBelow(v, entries, i)
  {
    if entries != [] {
      var n := |entries| - 1;
      ConfirmedExactly(v, entries[..n]);
      TakenKeeps(v, entries[..n]);
      assert NotBelow(v, entries, n) <==> Taken(v, entries[..n]).proposed <= entries[n].proposed;
      assert forall i :: 0 <= i < n ==> NotBelow(v, entries[..n], i) == NotBelow(v, entries, i);
      hide NotBelow;
    }
  }

  lemma NamedNothing(name: string)
    ensures Named([], name) == []
  {
  }

  lemma TakenNothing(v: PlanVolume)
    ensures Taken(v, []) == v
  {
  }

  class MigPlan {
    var volumes: seq<PlanVolume>

    constructor (volumes: seq<PlanVolume>)
      ensures this.volumes == volumes
    {
      this.volumes := volumes;
    }

    /** `processProposedPVCapacities`; the results are the volumes to resize, and those without information. */
    method ProcessProposedPVCapacities(status: seq<NamespaceStatus>) returns (required: seq<string>, missing: seq<string>)
      modifies this
      ensures |volumes| == |old(volumes)|
      ensures forall i :: 0 <= i < |volumes| ==> volumes[i] == Processed(old(volumes)[i], status)
      ensures required == Required(old(volumes), status) && missing == Missing(old(volumes), status)
    {
      hide Processed, Matching, Resizes;
      required, missing := [], [];
      for i := 0 to |volumes|
        invariant |volumes| == |old(volumes)|
        invariant forall j :: 0 <= j < i ==> volumes[j] == Processed(old(volumes)[j], status)
        invariant forall j :: i <= j < |volumes| ==> volumes[j] == old(volumes)[j]
        invariant required == Required(old(volumes)[..i], status) && missing == Missing(old(volumes)[..i], status)
      {
        assert old(volumes)[..i + 1][..i] == old(volumes)[..i];
        var found, names := ProcessVolume(i, status);
        required := required + names;
        if !found {
          missing := missing + [volumes[i].sourceName];
        }
      }
      assert old(volumes)[..|volumes|] == old(volumes);
    }

    method ProcessVolume(i: nat, status: seq<NamespaceStatus>) returns (found: bool, names: seq<string>)
      requires i < |volumes|
      modifies this
      ensures volumes == old(volumes)[i := Processed(old(volumes)[i], status)]
      ensures volumes[i].sourceName == old(volumes)[i].sourceName && volumes[i].namespace == old(volumes)[i].namespace
      ensures found <==> Matching(status, volumes[i].sourceName, volumes[i].namespace) != []
      ensures names == Resizes(Matching(status, volumes[i].sourceName, volumes[i].namespace), volumes[i].sourceName)
    {
      hide Taken, Named;
      found, names := false, [];
      ghost var v := volumes[i];
      ghost var read: seq<ClaimStatus> := [];
      TakenNothing(v);
      for n := 0 to |status|
        invariant read == Matching(status[..n], v.sourceName, v.namespace)
        invariant volumes == old(volumes)[i := Taken(v, read)]
        invariant found <==> read != []
        invariant names == Resizes(read, v.sourceName)
      {
        assert status[..n + 1][..n] == status[..n];
        TakenKeeps(v, read);
        if volumes[i].namespace == status[n].namespace {
          var some: bool;
          some, names := ProcessNamespace(i, status[n].volumes, names, v, read);
          read := read + Named(status[n].volumes, v.sourceName);
          found := found || some;
        }
      }
      assert status[..|status|] == status;
      TakenKeeps(v, read);
    }

    method ProcessNamespace(i: nat, claims: seq<ClaimStatus>, before: seq<string>,
                            ghost v: PlanVolume, ghost read: seq<ClaimStatus>)
      returns (found: bool, names: seq<string>)
      requires i < |volumes| && volumes[i] == Taken(v, read) && v.sourceName == volumes[i].sourceName
      requires before == Resizes(read, v.sourceName)
      modifies this
      ensures volumes == old(volumes)[i := Taken(v, read + Named(claims, v.sourceName))]
      ensures found <==> Named(claims, v.sourceName) != []
      ensures names == Resizes(read + Named(claims, v.sourceName), v.sourceName)
    {
      hide Taken, Named, Resizes;
      found, names := false, before;
      NamedNothing(v.sourceName);
      assert read + Named(claims[..0], v.sourceName) == read;
      for k := 0 to |claims|
        invariant volumes == old(volumes)[i := Taken(v, read + Named(claims[..k], v.sourceName))]
        invariant volumes[i].sourceName == v.sourceName
        invariant found <==> Named(claims[..k], v.sourceName) != []
        invariant names == Resizes(read + Named(claims[..k], v.sourceName), v.sourceName)
      {
        ghost var seen := read + Named(claims[..k], v.sourceName);
        assert claims[..k + 1] == claims[..k] + [claims[k]];
        NamedSnoc(claims[..k], claims[k], v.sourceName);
        if volumes[i].sourceName == claims[k].name {
          TakenSnoc(v, seen, claims[k]);
          ResizesSnoc(seen, claims[k], v.sourceName);
          assert seen + [claims[k]] == read + Named(claims[..k + 1], v.sourceName);
          if volumes[i].proposed > claims[k].proposed {
            volumes := volumes[i := volumes[i].(confirmed := false)];
          }
          if claims[k].comment != NoOp {
            names := names + [volumes[i].sourceName];
          }
          volumes := volumes[i := volumes[i].(proposed := claims[k].proposed)];
          found := true;
        }
      }
      assert claims[..|claims|] == claims;
    }
  }

  // ---------------------------------------------------------------- the destination claim

  function FirstVolume(volumes: seq<PlanVolume>, name: string, namespace: string): Option<PlanVolume> {
    if volumes == [] then None
    else if volumes[0].sourceName == name && volumes[0].namespace == namespace then Some(volumes[0])
    else FirstVolume(volumes[1..], name, namespace)
  }

  /** `findMatchingPV` */
  method FindMatchingPV(volumes: seq<PlanVolume>, name: string, namespace: string) returns (found: Option<PlanVolume>)
    ensures found == FirstVolume(volumes, name, namespace)
  {
    for i := 0 to |volumes|
      invariant FirstVolume(volumes, name, namespace) == FirstVolume(volumes[i..], name, namespace)
    {
      if volumes[i].sourceName == name && volumes[i].namespace == namespace {
        return Some(volumes[i]);
      }
    }
    return None;
  }

  /** The storage request of the destination claim. */
  function RequestFor(v: Option<PlanVolume>, requested: int, resizing: bool): int {
    if v.Some? && resizing then Largest(requested, v.value.capacity, v.value.proposed) else requested
  }

  /** The sizing in `createDestinationPVCDefinition`. */
  method DestinationRequest(volumes: seq<PlanVolume>, name: string, namespace: string, requested: int, resizing: bool)
    returns (request: int)
    ensures request == RequestFor(FirstVolume(volumes, name, namespace), requested, resizing)
  {
    request := requested;
    var pv := FindMatchingPV(volumes, name, namespace);
    if pv.Some? && resizing {
      var maxCapacity := requested;
      if pv.value.capacity > maxCapacity {
        maxCapacity := pv.value.capacity;
      }
      if pv.value.proposed > maxCapacity {
        maxCapacity := pv.value.proposed;
      }
      request := maxCapacity;
    }
  }

  // ---------------------------------------------------------------- end to end

  predicate UniqueNamespaces(status: seq<NamespaceStatus>) {
    forall i, j :: 0 <= i < j < |status| ==> status[i].namespace != status[j].namespace
  }

  lemma {:induction false} NoneMatching(status: seq<NamespaceStatus>, name: string, namespace: string)
    requires forall i :: 0 <= i < |status| ==> status[i].namespace != namespace
    ensures Matching(status, name, namespace) == []
  {
    if status != [] { NoneMatching(status[..|status| - 1], name, namespace); }
  }

  lemma LastMatching(status: seq<NamespaceStatus>, name: string, namespace: string)
    requires status != []
    ensures var before, last := Matching(status[..|status| - 1], name, namespace), status[|status| - 1];
            Matching(status, name, namespace) ==
              if last.namespace == namespace then before + Named(last.volumes, name) else before
  {
    hide Named;
  }

  /** One appended entry is the last one the plan reads for its claim, and no other claim's. */
  lemma {:induction false} AppendedMatching(status: seq<NamespaceStatus>, i: nat, e: ClaimStatus,
                                            name: string, namespace: string)
    requires UniqueNamespaces(status) && i < |status|
    ensures Matching(Appended(status, i, e), name, namespace) ==
              if status[i].namespace == namespace && e.name == name
              then Matching(status, name, namespace) + [e] else Matching(status, name, namespace)
  {
    hide Named;
    var after, n := Appended(status, i, e), |status| - 1;
    assert forall j :: 0 <= j < n ==> status[..n][j] == status[j];
    if i == n {
      assert after[..n] == status[..n];
      LastMatching(status, name, namespace);
      LastMatching(after, name, namespace);
      hide Matching;
      NamedSnoc(status[n].volumes, e, name);
      var before := Matching(status[..n], name, namespace);
      assert before + (Named(status[n].volumes, name) + [e]) == before + Named(status[n].volumes, name) + [e];
    } else {
      assert after[..n] == Appended(status[..n], i, e);
      AppendedMatching(status[..n], i, e, name, namespace);
      if status[i].namespace == namespace {
        assert status[n].namespace != namespace;
      }
    }
  }

  /** The measurement is of this claim. */
  predicate Concerns(df: DfOutput, nodes: NodeMap, name: string, namespace: string) {
    DetailFor(df, nodes).Some? && DetailFor(df, nodes).value.name == name && DetailFor(df, nodes).value.namespace == namespace
  }

  /** The entries a run appends for a claim are those of its measurements, in order. */
  lemma {:induction false} RunAppendsPerClaim(
    status: seq<NamespaceStatus>, dfs: seq<DfOutput>, dus: seq<DuOutput>, nodes: NodeMap, setting: Option<int>,
    last: nat, name: string, namespace: string)
    requires UniqueNamespaces(status) && Measured(status, dfs, dus, nodes)
    requires last < |dfs| && Concerns(dfs[last], nodes, name, namespace)
    requires forall i :: last < i < |dfs| ==> !Concerns(dfs[i], nodes, name, namespace)
    ensures var read := Matching(AfterRun(status, dfs, dus, nodes, setting), name, namespace);
            && read != []
            && read[|read| - 1] == Entry(dfs[last], DetailFor(dfs[last], nodes).value, DuFor(dfs[last], dus), setting)
  {
    hide AfterRun, Entry, DetailFor, DuFor, Matching, Measured, UniqueNamespaces;
    var rest, df := dfs[..|dfs| - 1], dfs[|dfs| - 1];
    assert forall i :: 0 <= i < |rest| ==> rest[i] == dfs[i];
    RunStep(status, dfs, dus, nodes, setting, name, namespace);
    MeasuredPrefix(status, dfs, dus, nodes);
    if last < |rest| {
      RunAppendsPerClaim(status, rest, dus, nodes, setting, last, name, namespace);
    }
  }

  lemma MeasuredPrefix(status: seq<NamespaceStatus>, dfs: seq<DfOutput>, dus: seq<DuOutput>, nodes: NodeMap)
    requires Measured(status, dfs, dus, nodes) && dfs != []
    ensures Measured(status, dfs[..|dfs| - 1], dus, nodes)
  {
    hide DetailFor, DuFor, IndexOf;
  }

  /** What the last output of a run adds to the entries read for a claim. */
  lemma RunStep(status: seq<NamespaceStatus>, dfs: seq<DfOutput>, dus: seq<DuOutput>, nodes: NodeMap,
                setting: Option<int>, name: string, namespace: string)
    requires UniqueNamespaces(status) && Measured(status, dfs, dus, nodes) && dfs != []
    ensures var df := dfs[|dfs| - 1];
            var before := Matching(AfterRun(status, dfs[..|dfs| - 1], dus, nodes, setting), name, namespace);
            Matching(AfterRun(status, dfs, dus, nodes, setting), name, namespace) ==
              if Concerns(df, nodes, name, namespace)
              then before + [Entry(df, DetailFor(df, nodes).value, DuFor(df, dus), setting)]
              else before
  {
    hide Entry, Matching, DetailFor, DuFor;
    var df := dfs[|dfs| - 1];
    var before, detail := AfterRun(status, dfs[..|dfs| - 1], dus, nodes, setting), DetailFor(df, nodes);
    if detail.Some? {
      var e := Entry(df, detail.value, DuFor(df, dus), setting);
      SameIndex(status, before, detail.value.namespace);
      EntryName(df, detail.value, DuFor(df, dus), setting);
      AppendedMatching(before, IndexOf(before, detail.value.namespace), e, name, namespace);
    }
  }

  lemma EntryName(df: DfOutput, detail: Detail, du: Option<DuOutput>, setting: Option<int>)
    ensures Entry(df, detail, du, setting).name == detail.name
  {
  }

  lemma {:induction false} FirstVolumeProcessed(before: seq<PlanVolume>, after: seq<PlanVolume>,
                                                status: seq<NamespaceStatus>, name: string, namespace: string)
    requires |after| == |before| && forall i :: 0 <= i < |before| ==> after[i] == Processed(before[i], status)
    ensures FirstVolume(before, name, namespace).Some? <==> FirstVolume(after, name, namespace).Some?
    ensures FirstVolume(before, name, namespace).Some? ==>
              && FirstVolume(after, name, namespace).value == Processed(FirstVolume(before, name, namespace).value, status)
              && FirstVolume(before, name, namespace).value.sourceName == name
              && FirstVolume(before, name, namespace).value.namespace == namespace
  {
    if before != [] {
      TakenKeeps(before[0], Matching(status, before[0].sourceName, before[0].namespace));
      hide Processed;
      FirstVolumeProcessed(before[1..], after[1..], status, name, namespace);
    }
  }

  /** Main result: with resizing on, a claim of the plan whose last measurement succeeded gets a
      destination of at least its source request, the plan's capacity, the provisioned capacity and the
      data with its margin, and of exactly one of the first two or the proposal. */
  lemma DestinationHoldsTheData(
    status: seq<NamespaceStatus>, dfs: seq<DfOutput>, dus: seq<DuOutput>, nodes: NodeMap, setting: Option<int>,
    plan: seq<PlanVolume>, processed: seq<PlanVolume>, name: string, namespace: string, requested: int, last: nat)
    requires UniqueNamespaces(status) && Measured(status, dfs, dus, nodes)
    requires |processed| == |plan|
    requires forall i :: 0 <= i < |plan| ==> processed[i] == Processed(plan[i], AfterRun(status, dfs, dus, nodes, setting))
    requires FirstVolume(plan, name, namespace).Some?
    requires last < |dfs| && Concerns(dfs[last], nodes, name, namespace) && !dfs[last].isError
    requires dfs[last].totalSize >= 0
    requires forall i :: last < i < |dfs| ==> !Concerns(dfs[i], nodes, name, namespace)
    ensures var request := RequestFor(FirstVolume(processed, name, namespace), requested, true);
            var detail, capacity := DetailFor(dfs[last], nodes).value, FirstVolume(plan, name, namespace).value.capacity;
            && request >= requested && request >= capacity && request >= detail.provisioned
            && request >= Needed(dfs[last].totalSize, dfs[last].usagePercentage, setting)
            && request in {requested, capacity, Entry(dfs[last], detail, DuFor(dfs[last], dus), setting).proposed}
  {
    var after := AfterRun(status, dfs, dus, nodes, setting);
    RunAppendsPerClaim(status, dfs, dus, nodes, setting, last, name, namespace);
    FirstVolumeProcessed(plan, processed, after, name, namespace);
    TakenKeeps(FirstVolume(plan, name, namespace).value, Matching(after, name, namespace));
    EntryBounds(dfs[last], DetailFor(dfs[last], nodes).value, DuFor(dfs[last], dus), setting);
    hide FirstVolume, AfterRun, Matching, Taken, Entry, Needed, DetailFor, DuFor;
  }

  // ---------------------------------------------------------------- which entries and volumes are meant

  /** What an entry tells of a measurement: nothing but the request when the size could not be read. Over the
      threshold means that usage and the threshold, the configured one or 3, exceed a hundred percent. */
  lemma EntryTells(df: DfOutput, detail: Detail, du: Option<DuOutput>, setting: Option<int>)
    ensures var e := Entry(df, detail, du, setting);
            && e.name == detail.name && e.requested == detail.requested
            && (df.isError ==> e.actual == 0 && e.proposed == 0 && e.comment == NoOp && !e.sparse)
            && (!df.isError ==>
                  && e.actual == df.totalSize
                  && (e.sparse <==> du.Some? && !du.value.isError && df.usage < du.value.usage)
                  && (setting.Some? && 0 < setting.value < 100 ==>
                        (e.comment == UsageExceeded <==> df.usagePercentage + setting.value > 100))
                  && (setting.None? || setting.value <= 0 || setting.value >= 100 ==>
                        (e.comment == UsageExceeded <==> df.usagePercentage + 3 > 100))
                  && (e.comment == CapacityMismatch <==>
                        e.comment != UsageExceeded && (detail.requested < df.totalSize || detail.requested < detail.provisioned)))
  {
    hide ProposedSize;
  }

  lemma {:induction false} FirstDetailIs(details: seq<Detail>, name: string, namespace: string, i: nat)
    requires i <= |details|
    requires forall j :: 0 <= j < i ==> details[j].name != name || details[j].namespace != namespace
    requires i < |details| ==> details[i].name == name && details[i].namespace == namespace
    ensures FirstDetail(details, name, namespace) == if i < |details| then Some(details[i]) else None
  {
    if i > 0 { FirstDetailIs(details[1..], name, namespace, i - 1); }
  }

  lemma {:induction false} DuForIs(df: DfOutput, dus: seq<DuOutput>, i: nat)
    requires i <= |dus|
    requires forall j :: 0 <= j < i ==> dus[j].namespace != df.namespace || dus[j].name != df.name
    requires i < |dus| ==> dus[i].namespace == df.namespace && dus[i].name == df.name
    ensures DuFor(df, dus) == if i < |dus| then Some(dus[i]) else None
  {
    if i > 0 { DuForIs(df, dus[1..], i - 1); }
  }

  lemma {:induction false} DuForNone(df: DfOutput, dus: seq<DuOutput>)
    ensures DuFor(df, dus).None? <==> forall du :: du in dus ==> du.namespace != df.namespace || du.name != df.name
  {
    if dus != [] { DuForNone(df, dus[1..]); }
  }

  /** The outputs that make the controller dereference nil: those of a listed volume in a namespace that the
      analytic does not cover, or whose size was read without any second measurement of its claim. */
  lemma CrashesExactly(status: seq<NamespaceStatus>, df: DfOutput, dus: seq<DuOutput>, nodes: NodeMap)
    ensures Crashes(status, df, dus, nodes) <==>
              && DetailFor(df, nodes).Some?
              && (|| (forall n :: n in status ==> n.namespace != df.namespace)
                  || (!df.isError && forall du :: du in dus ==> du.namespace != df.namespace || du.name != df.name))
  {
    DuForNone(df, dus);
    if df.node in nodes { DetailMatches(nodes[df.node], df.name, df.namespace); }
    hide DuFor, FirstDetail;
    if DetailFor(df, nodes).Some? {
      var i := IndexOf(status, df.namespace);
      if i < |status| { assert status[i] in status; }
    }
  }

  lemma {:induction false} DetailMatches(details: seq<Detail>, name: string, namespace: string)
    ensures var found := FirstDetail(details, name, namespace);
            found.Some? ==> found.value.name == name && found.value.namespace == namespace
  {
    if details != [] { DetailMatches(details[1..], name, namespace); }
  }

  lemma {:induction false} FirstVolumeIs(volumes: seq<PlanVolume>, name: string, namespace: string, i: nat)
    requires i <= |volumes|
    requires forall j :: 0 <= j < i ==> volumes[j].sourceName != name || volumes[j].namespace != namespace
    requires i < |volumes| ==> volumes[i].sourceName == name && volumes[i].namespace == namespace
    ensures FirstVolume(volumes, name, namespace) == if i < |volumes| then Some(volumes[i]) else None
  {
    if i > 0 { FirstVolumeIs(volumes[1..], name, namespace, i - 1); }
  }

  lemma {:induction false} NamedAre(claims: seq<ClaimStatus>, name: string)
    ensures forall e :: e in Named(claims, name) <==> e in claims && e.name == name
  {
    if claims != [] {
      NamedAre(claims[..|claims| - 1], name);
      assert claims == claims[..|claims| - 1] + [claims[|claims| - 1]];
    }
  }

  /** The entries read for a claim are those of its name in a status of its namespace. */
  lemma {:induction false} MatchingAre(status: seq<NamespaceStatus>, name: string, namespace: string)
    ensures forall e :: e in Matching(status, name, namespace) <==>
              exists i :: 0 <= i < |status| && status[i].namespace == namespace && e in status[i].volumes && e.name == name
  {
    hide Named;
    if status != [] {
      var n := |status| - 1;
      MatchingAre(status[..n], name, namespace);
      NamedAre(status[n].volumes, name);
      LastMatching(status, name, namespace);
      assert forall i :: 0 <= i < n ==> status[..n][i] == status[i];
      hide Matching;
    }
  }

  /** Some entry of the volume asks for a resize. */
  ghost predicate AsksForResize(v: PlanVolume, status: seq<NamespaceStatus>) {
    exists e :: e in Matching(status, v.sourceName, v.namespace) && e.comment != NoOp
  }

  lemma {:induction false} ResizesAre(entries: seq<ClaimStatus>, name: string)
    ensures forall x :: x in Resizes(entries, name) <==> x == name && exists e :: e in entries && e.comment != NoOp
  {
    if entries != [] {
      var n := |entries| - 1;
      ResizesAre(entries[..n], name);
      assert entries == entries[..n] + [entries[n]];
      ResizesSnoc(entries[..n], entries[n], name);
      hide Resizes;
      assert forall e :: e in entries <==> e in entries[..n] || e == entries[n];
    }
  }

  /** The plan is told to resize exactly the volumes with an entry that has a reason for it, and that
      information is missing exactly of those without an entry. */
  lemma {:induction false} PlanIsTold(volumes: seq<PlanVolume>, status: seq<NamespaceStatus>)
    ensures forall x :: x in Required(volumes, status) <==>
              exists i :: 0 <= i < |volumes| && volumes[i].sourceName == x && AsksForResize(volumes[i], status)
    ensures forall x :: x in Missing(volumes, status) <==>
              exists i :: 0 <= i < |volumes| && volumes[i].sourceName == x
                          && Matching(status, volumes[i].sourceName, volumes[i].namespace) == []
  {
    hide Matching, Resizes;
    if volumes != [] {
      var n := |volumes| - 1;
      PlanIsTold(volumes[..n], status);
      ResizesAre(Matching(status, volumes[n].sourceName, volumes[n].namespace), volumes[n].sourceName);
      assert forall i :: 0 <= i < n ==> volumes[..n][i] == volumes[i];
    }
  }

  /** The warnings name exactly the listed volumes whose first measurement could not be read. */
  lemma {:induction false} WarningsName(dfs: seq<DfOutput>, nodes: NodeMap)
    ensures forall x :: x in Errored(dfs, nodes) <==>
              exists i :: 0 <= i < |dfs| && dfs[i].name == x && dfs[i].isError && DetailFor(dfs[i], nodes).Some?
  {
    hide DetailFor;
    if dfs != [] {
      var n := |dfs| - 1;
      WarningsName(dfs[..n], nodes);
      assert forall i :: 0 <= i < n ==> dfs[..n][i] == dfs[i];
    }
  }

  lemma {:induction false} SecondWarningsName(dfs: seq<DfOutput>, dus: seq<DuOutput>, nodes: NodeMap)
    ensures forall x :: x in ErroredDu(dfs, dus, nodes) <==>
              exists i :: 0 <= i < |dfs| && !dfs[i].isError && DetailFor(dfs[i], nodes).Some?
                          && DuFor(dfs[i], dus).Some? && DuFor(dfs[i], dus).value.isError
                          && x == DuFor(dfs[i], dus).value.namespace + "/" + DuFor(dfs[i], dus).value.name
  {
    hide DetailFor, DuFor;
    if dfs != [] {
      var n := |dfs| - 1;
      SecondWarningsName(dfs[..n], dus, nodes);
      assert forall i :: 0 <= i < n ==> dfs[..n][i] == dfs[i];
    }
  }

  /** The destination request is the source's unless the plan has the volume and resizing is on, and then the
      largest of the three. */
  lemma RequestIsLargest(v: Option<PlanVolume>, requested: int, resizing: bool)
    ensures var request := RequestFor(v, requested, resizing);
            && (v.None? || !resizing ==> request == requested)
            && (v.Some? && resizing ==>
                  && request >= requested && request >= v.value.capacity && request >= v.value.proposed
                  && request in {requested, v.value.capacity, v.value.proposed})
  {
  }
}
