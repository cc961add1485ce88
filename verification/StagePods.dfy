/** Stage pods, which hold the PVCs of application pods in place while they are copied:
    pkg/controller/migmigration/stage.go.

    A stage pod is needed for the copy-eligible PVC volumes of a pod unless a stage pod of the same
    namespace already mounts them all. */
module StagePods {
  import opened Wrappers

  /** The source of a pod volume; sources are compared as a whole, read-only flag included. */
  datatype VolumeSource = Claim(claimName: string, readOnly: bool) | Other(description: string)

  datatype Volume = Volume(name: string, source: VolumeSource)

  /** A pod or pod template. `staged`: it carries the stage pod labels of this migration. */
  datatype Pod = Pod(namespace: string, name: string, staged: bool, volumes: seq<Volume>)

  datatype StagePod = StagePod(namespace: string, generateName: string, volumes: seq<Volume>)

  datatype Action = Copy | Move | Skip
  datatype CopyMethod = Filesystem | Block | Snapshot
  datatype PV = PV(action: Action, copyMethod: CopyMethod)

  datatype ClaimKey = ClaimKey(namespace: string, name: string)
  datatype PVC = PVC(key: ClaimKey, bound: bool)

  type PVCMapping = map<ClaimKey, PV>

  predicate ClaimEligible(pvcs: PVCMapping, key: ClaimKey) {
    key in pvcs && pvcs[key].action.Copy? && (pvcs[key].copyMethod.Filesystem? || pvcs[key].copyMethod.Block?)
  }

  predicate Eligible(pvcs: PVCMapping, namespace: string, volume: Volume) {
    volume.source.Claim? && ClaimEligible(pvcs, ClaimKey(namespace, volume.source.claimName))
  }

  function EligibleVolumes(pvcs: PVCMapping, namespace: string, volumes: seq<Volume>): seq<Volume> {
    if volumes == [] then []
    else
      var last := volumes[|volumes| - 1];
      EligibleVolumes(pvcs, namespace, volumes[..|volumes| - 1])
        + if Eligible(pvcs, namespace, last) then [last] else []
  }

  lemma {:induction false} EligibleVolumesExactly(pvcs: PVCMapping, namespace: string, volumes: seq<Volume>)
    ensures forall v :: v in EligibleVolumes(pvcs, namespace, volumes) <==> v in volumes && Eligible(pvcs, namespace, v)
  {
    hide Eligible;
    if volumes != [] {
      var rest, last := volumes[..|volumes| - 1], volumes[|volumes| - 1];
      EligibleVolumesExactly(pvcs, namespace, rest);
      assert volumes == rest + [last];
    }
  }

  function StagePodOf(pvcs: PVCMapping, pod: Pod): StagePod {
    StagePod(pod.namespace, "stage-" + pod.name + "-", EligibleVolumes(pvcs, pod.namespace, pod.volumes))
  }

  predicate MountsSource(pod: StagePod, source: VolumeSource) {
    exists i :: 0 <= i < |pod.volumes| && pod.volumes[i].source == source
  }

  /** `volumesContained` */
  predicate Contained(p: StagePod, q: StagePod) {
    p.namespace == q.namespace && forall i :: 0 <= i < |p.volumes| ==> MountsSource(q, p.volumes[i].source)
  }

  /** `StagePodList.contains` */
  predicate Covered(list: seq<StagePod>, pod: StagePod) {
    exists i :: 0 <= i < |list| && Contained(pod, list[i])
  }

  function Merge(list: seq<StagePod>, pod: StagePod): seq<StagePod> {
    if Covered(list, pod) then list else list + [pod]
  }

  /** `BuildStagePods` */
  function Build(pvcs: PVCMapping, pods: seq<Pod>): seq<StagePod> {
    if pods == [] then []
    else
      var before, pod := Build(pvcs, pods[..|pods| - 1]), pods[|pods| - 1];
      var stagePod := StagePodOf(pvcs, pod);
      if stagePod.volumes == [] then before else Merge(before, stagePod)
  }

  function Staged(pods: seq<Pod>): (staged: seq<Pod>)
    ensures forall p :: p in staged <==> p in pods && p.staged
  {
    if pods == [] then []
    else
      var last := pods[|pods| - 1];
      Staged(pods[..|pods| - 1]) + if last.staged then [last] else []
  }

  /** What the API server answers to the creation of a stage pod. */
  datatype Answer = Created | AlreadyExists | Refused

  method VolumesContained(p: StagePod, q: StagePod) returns (contained: bool)
    ensures contained == Contained(p, q)
  {
    if p.namespace != q.namespace {
      return false;
    }
    for i := 0 to |p.volumes|
      invariant forall k :: 0 <= k < i ==> MountsSource(q, p.volumes[k].source)
    {
      var found := false;
      for j := 0 to |q.volumes|
        invariant !found && forall k :: 0 <= k < j ==> q.volumes[k].source != p.volumes[i].source
      {
        if p.volumes[i].source == q.volumes[j].source {
          found := true;
          break;
        }
      }
      if !found {
        assert !MountsSource(q, p.volumes[i].source);
        return false;
      }
    }
    return true;
  }

  method Contains(list: seq<StagePod>, pod: StagePod) returns (covered: bool)
    ensures covered == Covered(list, pod)
  {
    for i := 0 to |list|
      invariant forall k :: 0 <= k < i ==> !Contained(pod, list[k])
    {
      var contained := VolumesContained(pod, list[i]);
      if contained {
        return true;
      }
    }
    return false;
  }

  method BuildStagePods(pvcs: PVCMapping, pods: seq<Pod>) returns (stagePods: seq<StagePod>)
    ensures stagePods == Build(pvcs, pods)
  {
    stagePods := [];
    for n := 0 to |pods|
      invariant stagePods == Build(pvcs, pods[..n])
    {
      var pod, volumes := pods[n], [];
      for i := 0 to |pod.volumes|
        invariant volumes == EligibleVolumes(pvcs, pod.namespace, pod.volumes[..i])
      {
        assert pod.volumes[..i + 1][..i] == pod.volumes[..i];
        if Eligible(pvcs, pod.namespace, pod.volumes[i]) {
          volumes := volumes + [pod.volumes[i]];
        }
      }
      assert pod.volumes[..|pod.volumes|] == pod.volumes;
      assert pods[..n + 1][..n] == pods[..n];
      if volumes == [] {
        continue;
      }
      var stagePod := StagePod(pod.namespace, "stage-" + pod.name + "-", volumes);
      var covered := Contains(stagePods, stagePod);
      if !covered {
        stagePods := stagePods + [stagePod];
      }
    }
    assert pods[..|pods|] == pods;
  }

  /** Stage pods left to create, given those that exist. */
  function Missing(existing: seq<StagePod>, stagePods: seq<StagePod>): (missing: seq<StagePod>)
    ensures forall p :: p in missing <==> p in stagePods && !Covered(existing, p)
  {
    if stagePods == [] then []
    else
      var last := stagePods[|stagePods| - 1];
      Missing(existing, stagePods[..|stagePods| - 1]) + if Covered(existing, last) then [] else [last]
  }

  /** The pod that the API server stores for a stage pod. */
  function Stored(p: StagePod): Pod { Pod(p.namespace, p.generateName, true, p.volumes) }

  /** The pods that a whole creation pass adds to the cluster. */
  function Creations(existing: seq<StagePod>, stagePods: seq<StagePod>, answers: seq<Answer>): seq<Pod>
    requires |answers| == |stagePods|
  {
    if stagePods == [] then []
    else
      var last := |stagePods| - 1;
      Creations(existing, stagePods[..last], answers[..last])
        + if !Covered(existing, stagePods[last]) && answers[last].Created? then [Stored(stagePods[last])] else []
  }

  lemma CreationStep(existing: seq<StagePod>, stagePods: seq<StagePod>, answers: seq<Answer>, i: nat)
    requires i < |stagePods| == |answers|
    ensures Creations(existing, stagePods[..i + 1], answers[..i + 1])
            == Creations(existing, stagePods[..i], answers[..i])
               + if !Covered(existing, stagePods[i]) && answers[i].Created? then [Stored(stagePods[i])] else []
    ensures |Missing(existing, stagePods[..i + 1])|
            == |Missing(existing, stagePods[..i])| + if Covered(existing, stagePods[i]) then 0 else 1
  {
    hide Covered;
    assert stagePods[..i + 1][..i] == stagePods[..i] && answers[..i + 1][..i] == answers[..i];
  }

  lemma NoCreations(existing: seq<StagePod>)
    ensures Creations(existing, [], []) == [] && Missing(existing, []) == []
  {
  }

  class Cluster {
    var pods: seq<Pod>

    constructor (pods: seq<Pod>)
      ensures this.pods == pods
    {
      this.pods := pods;
    }

    /** `createStagePods`; `listed` is the API server's listing of the labelled pods, in any order,
        and `answers` what it answers to each creation. */
    method CreateStagePods(pvcs: PVCMapping, listed: seq<Pod>, stagePods: seq<StagePod>, answers: seq<Answer>)
      returns (count: nat, err: bool)
      requires |answers| == |stagePods|
      modifies this
      ensures !err ==> pods == old(pods) + Creations(Build(pvcs, listed), stagePods, answers)
      ensures !err ==> count == |Build(pvcs, listed)| + |Missing(Build(pvcs, listed), stagePods)|
      ensures err ==> count == 0
      ensures err ==> exists i :: 0 <= i < |stagePods| && answers[i].Refused?
                                  && pods == old(pods) + Creations(Build(pvcs, listed), stagePods[..i], answers[..i])
    {
      var existing := BuildStagePods(pvcs, listed);
      hide Build, Covered, Creations, Missing;
      count, err := 0, false;
      NoCreations(existing);
      assert stagePods[..0] == [] && answers[..0] == [];
      for i := 0 to |stagePods|
        invariant pods == old(pods) + Creations(existing, stagePods[..i], answers[..i])
        invariant count == |Missing(existing, stagePods[..i])|
      {
        CreationStep(existing, stagePods, answers, i);
        var covered := Contains(existing, stagePods[i]);
        if covered {
          continue;
        }
        match answers[i] {
          case Created => pods := pods + [Stored(stagePods[i])];
          case AlreadyExists =>
          case Refused => return 0, true;
        }
        count := count + 1;
      }
      assert stagePods[..|stagePods|] == stagePods && answers[..|stagePods|] == answers;
      count := count + |existing|;
    }

    /** `ensureStagePodsFromOrphanedPVCs`: bound eligible claims that no listed stage pod mounts get
        stage pods of their own. */
    method EnsureFromOrphanedPVCs(
      pvcs: PVCMapping, namespaces: seq<string>, claims: seq<PVC>, listed: seq<Pod>, answers: seq<Answer>)
      returns (err: bool)
      requires |answers| == |Orphans(pvcs, Build(pvcs, listed), ClaimsIn(namespaces, claims))|
      modifies this
      ensures var orphans := Orphans(pvcs, Build(pvcs, listed), ClaimsIn(namespaces, claims));
              if err
              then exists i :: 0 <= i < |orphans| && answers[i].Refused?
                               && pods == old(pods) + Creations(Build(pvcs, listed), orphans[..i], answers[..i])
              else pods == old(pods) + Creations(Build(pvcs, listed), orphans, answers)
    {
      var existing := BuildStagePods(pvcs, listed);
      var stagePods := BuildOrphans(pvcs, existing, ClaimsIn(namespaces, claims));
      var count;
      count, err := CreateStagePods(pvcs, listed, stagePods, answers);
    }
  }

  method BuildOrphans(pvcs: PVCMapping, existing: seq<StagePod>, claims: seq<PVC>) returns (stagePods: seq<StagePod>)
    ensures stagePods == Orphans(pvcs, existing, claims)
  {
    stagePods := [];
    for i := 0 to |claims|
      invariant stagePods == Orphans(pvcs, existing, claims[..i])
    {
      assert claims[..i + 1][..i] == claims[..i];
      var pvc := claims[i];
      if !pvc.bound || !ClaimEligible(pvcs, pvc.key) {
        continue;
      }
      var mounted := PvcMounted(existing, pvc.key);
      if mounted {
        continue;
      }
      var stagePod := BuildStagePod(pvc.key);
      var covered := Contains(stagePods, stagePod);
      if !covered {
        stagePods := stagePods + [stagePod];
      }
    }
    assert claims[..|claims|] == claims;
  }

  /** The claims that are listed namespace by namespace. */
  function ClaimsIn(namespaces: seq<string>, claims: seq<PVC>): (all: seq<PVC>)
    ensures forall c :: c in all <==> c in claims && c.key.namespace in namespaces
  {
    if namespaces == [] then [] else InNamespace(namespaces[0], claims) + ClaimsIn(namespaces[1..], claims)
  }

  function InNamespace(namespace: string, claims: seq<PVC>): (all: seq<PVC>)
    ensures forall c :: c in all <==> c in claims && c.key.namespace == namespace
  {
    if claims == [] then []
    else (if claims[0].key.namespace == namespace then [claims[0]] else []) + InNamespace(namespace, claims[1..])
  }

  function BuildStagePod(key: ClaimKey): StagePod {
    StagePod(key.namespace, "stage-" + key.name + "-", [Volume("stage", Claim(key.name, false))])
  }

  predicate Mounted(namespace: string, volumes: seq<Volume>, key: ClaimKey) {
    && namespace == key.namespace
    && exists i :: 0 <= i < |volumes| && volumes[i].source.Claim? && volumes[i].source.claimName == key.name
  }

  predicate MountedByAny(list: seq<StagePod>, key: ClaimKey) {
    exists i :: 0 <= i < |list| && Mounted(list[i].namespace, list[i].volumes, key)
  }

  /** Some labelled pod of the cluster mounts the claim. */
  predicate MountedInCluster(pods: seq<Pod>, key: ClaimKey) {
    exists i :: 0 <= i < |pods| && pods[i].staged && Mounted(pods[i].namespace, pods[i].volumes, key)
  }

  /** The API server's listing of the labelled pods, in any order. */
  ghost predicate ListingOf(listed: seq<Pod>, pods: seq<Pod>) {
    multiset(listed) == multiset(Staged(pods))
  }

  /** The `pvcMounted` closure. */
  method PvcMounted(list: seq<StagePod>, key: ClaimKey) returns (mounted: bool)
    ensures mounted == MountedByAny(list, key)
  {
    for i := 0 to |list|
      invariant forall k :: 0 <= k < i ==> !Mounted(list[k].namespace, list[k].volumes, key)
    {
      if list[i].namespace != key.namespace {
        continue;
      }
      for j := 0 to |list[i].volumes|
        invariant forall k :: 0 <= k < j ==>
                    !(list[i].volumes[k].source.Claim? && list[i].volumes[k].source.claimName == key.name)
      {
        var source := list[i].volumes[j].source;
        if source.Claim? && source.claimName == key.name {
          assert Mounted(list[i].namespace, list[i].volumes, key);
          return true;
        }
      }
    }
    return false;
  }

  /** The stage pods of the orphan phase. */
  function Orphans(pvcs: PVCMapping, existing: seq<StagePod>, claims: seq<PVC>): seq<StagePod> {
    if claims == [] then []
    else
      var before, pvc := Orphans(pvcs, existing, claims[..|claims| - 1]), claims[|claims| - 1];
      if !pvc.bound || !ClaimEligible(pvcs, pvc.key) || MountedByAny(existing, pvc.key) then before
      else Merge(before, BuildStagePod(pvc.key))
  }

  predicate PodFor(stagePod: StagePod, pod: Pod) {
    pod.namespace == stagePod.namespace && pod.volumes == stagePod.volumes
  }

  predicate HasPod(pods: seq<Pod>, stagePod: StagePod) {
    exists i :: 0 <= i < |pods| && pods[i].staged && PodFor(stagePod, pods[i])
  }

  /** Every stage pod is covered by those that existed or is in the cluster, unless its creation was
      answered with AlreadyExists, which the source takes for success. */
  ghost predicate Ensured(
    existing: seq<StagePod>, pods: seq<Pod>, stagePods: seq<StagePod>, answers: seq<Answer>)
    requires |answers| == |stagePods|
  {
    forall i :: 0 <= i < |stagePods| && !answers[i].AlreadyExists? ==>
      Covered(existing, stagePods[i]) || HasPod(pods, stagePods[i])
  }

  lemma {:induction false} CreationsEnsure(
    existing: seq<StagePod>, before: seq<Pod>, stagePods: seq<StagePod>, answers: seq<Answer>)
    requires |answers| == |stagePods| && Refused !in answers
    ensures Ensured(existing, before + Creations(existing, stagePods, answers), stagePods, answers)
  {
    if stagePods != [] {
      var last := |stagePods| - 1;
      CreationsEnsure(existing, before, stagePods[..last], answers[..last]);
      assert answers[last] in answers;
      var some, all := before + Creations(existing, stagePods[..last], answers[..last]),
                       before + Creations(existing, stagePods, answers);
      forall i | 0 <= i < |stagePods| && !answers[i].AlreadyExists? && !Covered(existing, stagePods[i])
        ensures HasPod(all, stagePods[i])
      {
        if i < last {
          assert stagePods[..last][i] == stagePods[i] && answers[..last][i] == answers[i];
          var k :| 0 <= k < |some| && some[k].staged && PodFor(stagePods[i], some[k]);
          assert all[k] == some[k];
        } else {
          assert all[|all| - 1] == Stored(stagePods[last]);
        }
      }
    }
  }

  // ---------------------------------------------------------------- coverage

  /** Containment is a preorder. */
  lemma ContainedIsReflexive(p: StagePod)
    ensures Contained(p, p)
  {
    forall i | 0 <= i < |p.volumes| ensures MountsSource(p, p.volumes[i].source) {
    }
  }

  lemma ContainedIsTransitive(p: StagePod, q: StagePod, r: StagePod)
    requires Contained(p, q) && Contained(q, r)
    ensures Contained(p, r)
  {
    forall i | 0 <= i < |p.volumes|
      ensures MountsSource(r, p.volumes[i].source)
    {
      var j :| 0 <= j < |q.volumes| && q.volumes[j].source == p.volumes[i].source;
      assert MountsSource(r, q.volumes[j].source);
    }
  }

  lemma CoveredIsDownClosed(list: seq<StagePod>, p: StagePod, q: StagePod)
    requires Contained(p, q) && Covered(list, q)
    ensures Covered(list, p)
  {
    var i :| 0 <= i < |list| && Contained(q, list[i]);
    ContainedIsTransitive(p, q, list[i]);
  }

  lemma MergeKeepsCovered(list: seq<StagePod>, added: StagePod, p: StagePod)
    requires Covered(list, p) || p == added
    ensures Covered(Merge(list, added), p)
  {
    if Covered(list, p) {
      var i :| 0 <= i < |list| && Contained(p, list[i]);
      assert Merge(list, added)[i] == list[i];
    } else {
      ContainedIsReflexive(added);
      assert Merge(list, added)[|list|] == added;
    }
  }

  /** Deduplication loses nothing: every pod with eligible volumes is covered by the result. */
  lemma {:induction false} BuildCovers(pvcs: PVCMapping, pods: seq<Pod>)
    ensures forall p :: p in pods && StagePodOf(pvcs, p).volumes != [] ==>
              Covered(Build(pvcs, pods), StagePodOf(pvcs, p))
  {
    if pods != [] {
      var rest, last := pods[..|pods| - 1], pods[|pods| - 1];
      BuildCovers(pvcs, rest);
      forall p | p in pods && StagePodOf(pvcs, p).volumes != []
        ensures Covered(Build(pvcs, pods), StagePodOf(pvcs, p))
      {
        assert p in rest || p == last;
        if StagePodOf(pvcs, last).volumes != [] {
          MergeKeepsCovered(Build(pvcs, rest), StagePodOf(pvcs, last), StagePodOf(pvcs, p));
        }
      }
    }
  }

  /** Every stage pod is made from one of the pods, mounts something, and is not contained in an earlier one. */
  lemma {:induction false} BuildIsIrredundant(pvcs: PVCMapping, pods: seq<Pod>)
    ensures forall e :: e in Build(pvcs, pods) ==>
              e.volumes != [] && exists p :: p in pods && e == StagePodOf(pvcs, p)
    ensures forall i, j :: 0 <= i < j < |Build(pvcs, pods)| ==>
              !Contained(Build(pvcs, pods)[j], Build(pvcs, pods)[i])
  {
    if pods != [] {
      var rest, last := pods[..|pods| - 1], pods[|pods| - 1];
      BuildIsIrredundant(pvcs, rest);
      assert forall p :: p in rest ==> p in pods;
      assert last in pods;
      hide Contained;
      forall e | e in Build(pvcs, pods)
        ensures e.volumes != [] && exists p :: p in pods && e == StagePodOf(pvcs, p)
      {
        if e in Build(pvcs, rest) {
          var p :| p in rest && e == StagePodOf(pvcs, p);
        } else {
          assert e == StagePodOf(pvcs, last);
        }
      }
    }
  }

  /** Main result for application pods: every claim of every input pod that is to be copied, and not by a
      snapshot, is mounted by a stage pod of the same namespace. */
  lemma EligibleVolumesAreMounted(pvcs: PVCMapping, pods: seq<Pod>, pod: Pod, volume: Volume)
    requires pod in pods && volume in pod.volumes && volume.source.Claim?
    requires ClaimKey(pod.namespace, volume.source.claimName) in pvcs
    requires var pv := pvcs[ClaimKey(pod.namespace, volume.source.claimName)]; pv.action == Copy && pv.copyMethod != Snapshot
    ensures exists e :: e in Build(pvcs, pods) && e.namespace == pod.namespace && MountsSource(e, volume.source)
  {
    var stagePod := StagePodOf(pvcs, pod);
    EligibleVolumesExactly(pvcs, pod.namespace, pod.volumes);
    assert volume in stagePod.volumes;
    BuildCovers(pvcs, pods);
    var i :| 0 <= i < |Build(pvcs, pods)| && Contained(stagePod, Build(pvcs, pods)[i]);
    var k :| 0 <= k < |stagePod.volumes| && stagePod.volumes[k] == volume;
    assert MountsSource(Build(pvcs, pods)[i], stagePod.volumes[k].source);
  }

  /** A stage pod that mounts eligible claims only, and at least one: what the orphan phase makes. */
  ghost predicate Wanted(pvcs: PVCMapping, p: StagePod) {
    p.volumes != [] && forall v :: v in p.volumes ==> Eligible(pvcs, p.namespace, v)
  }

  lemma {:induction false} AllEligibleAreKept(pvcs: PVCMapping, namespace: string, volumes: seq<Volume>)
    requires forall v :: v in volumes ==> Eligible(pvcs, namespace, v)
    ensures EligibleVolumes(pvcs, namespace, volumes) == volumes
  {
    hide Eligible;
    if volumes != [] {
      var rest, last := volumes[..|volumes| - 1], volumes[|volumes| - 1];
      AllEligibleAreKept(pvcs, namespace, rest);
      assert volumes == rest + [last];
    }
  }

  lemma SameMembers(relisted: seq<Pod>, after: seq<Pod>)
    requires ListingOf(relisted, after)
    ensures forall q :: q in relisted <==> q in after && q.staged
  {
    assert forall q :: q in relisted <==> q in multiset(relisted);
    assert forall q :: q in Staged(after) <==> q in multiset(Staged(after));
  }

  lemma CreatedIsCovered(pvcs: PVCMapping, relisted: seq<Pod>, pod: Pod, p: StagePod)
    requires pod in relisted && Wanted(pvcs, p) && PodFor(p, pod)
    ensures Covered(Build(pvcs, relisted), p)
  {
    AllEligibleAreKept(pvcs, p.namespace, p.volumes);
    var e := StagePodOf(pvcs, pod);
    assert e.volumes == p.volumes;
    BuildCovers(pvcs, relisted);
    ContainedIsReflexive(p);
    assert Contained(p, e);
    CoveredIsDownClosed(Build(pvcs, relisted), p, e);
  }

  /** What is covered once stays covered in any later listing, and so does what was created. */
  lemma CoveredInLaterListing(pvcs: PVCMapping, listed: seq<Pod>, after: seq<Pod>, relisted: seq<Pod>, p: StagePod)
    requires forall q :: q in listed ==> q in after && q.staged
    requires ListingOf(relisted, after)
    requires Wanted(pvcs, p) && (Covered(Build(pvcs, listed), p) || HasPod(after, p))
    ensures Covered(Build(pvcs, relisted), p)
  {
    SameMembers(relisted, after);
    hide Wanted;
    if HasPod(after, p) {
      var i :| 0 <= i < |after| && after[i].staged && PodFor(p, after[i]);
      hide Build, Covered;
      CreatedIsCovered(pvcs, relisted, after[i], p);
    } else {
      var i :| 0 <= i < |Build(pvcs, listed)| && Contained(p, Build(pvcs, listed)[i]);
      var e := Build(pvcs, listed)[i];
      hide Build, Covered, Contained;
      BuildIsIrredundant(pvcs, listed);
      var q :| q in listed && e == StagePodOf(pvcs, q);
      BuildCovers(pvcs, relisted);
      CoveredIsDownClosed(Build(pvcs, relisted), p, e);
    }
  }

  /** Main result for repetition: a second creation on the cluster that a first one left behind
      wants nothing but the pods whose first creation was answered with AlreadyExists. */
  lemma RepetitionCreatesNothing(
    pvcs: PVCMapping, before: seq<Pod>, listed: seq<Pod>, relisted: seq<Pod>,
    stagePods: seq<StagePod>, answers: seq<Answer>)
    requires |answers| == |stagePods| && Refused !in answers
    requires ListingOf(listed, before)
    requires ListingOf(relisted, before + Creations(Build(pvcs, listed), stagePods, answers))
    requires forall p :: p in stagePods ==> Wanted(pvcs, p)
    ensures forall p :: p in Missing(Build(pvcs, relisted), stagePods) ==>
              exists i :: 0 <= i < |stagePods| && stagePods[i] == p && answers[i].AlreadyExists?
    ensures AlreadyExists !in answers ==> |Missing(Build(pvcs, relisted), stagePods)| == 0
  {
    var after := before + Creations(Build(pvcs, listed), stagePods, answers);
    CreationsEnsure(Build(pvcs, listed), before, stagePods, answers);
    ListedStays(before, listed, after);
    var missing := Missing(Build(pvcs, relisted), stagePods);
    hide Build, Creations, Wanted, Staged, Covered;
    forall p | p in missing
      ensures exists i :: 0 <= i < |stagePods| && stagePods[i] == p && answers[i].AlreadyExists?
    {
      var i :| 0 <= i < |stagePods| && stagePods[i] == p;
      if !answers[i].AlreadyExists? {
        CoveredInLaterListing(pvcs, listed, after, relisted, p);
      }
    }
    assert missing != [] ==> missing[0] in missing;
  }

  lemma ListedStays(before: seq<Pod>, listed: seq<Pod>, after: seq<Pod>)
    requires ListingOf(listed, before) && before <= after
    ensures forall q :: q in listed ==> q in after && q.staged
  {
    SameMembers(listed, before);
  }

  lemma {:induction false} OrphanIsMade(pvcs: PVCMapping, existing: seq<StagePod>, claims: seq<PVC>, c: PVC)
    requires c in claims && c.bound && ClaimEligible(pvcs, c.key) && !MountedByAny(existing, c.key)
    ensures Covered(Orphans(pvcs, existing, claims), BuildStagePod(c.key))
  {
    hide MountedByAny, ClaimEligible, Covered;
    var rest, last := claims[..|claims| - 1], claims[|claims| - 1];
    if c != last {
      OrphanIsMade(pvcs, existing, rest, c);
    }
    MergeKeepsCovered(Orphans(pvcs, existing, rest), BuildStagePod(last.key), BuildStagePod(c.key));
  }

  lemma {:induction false} OrphansAreWanted(pvcs: PVCMapping, existing: seq<StagePod>, claims: seq<PVC>)
    ensures forall p :: p in Orphans(pvcs, existing, claims) ==> Wanted(pvcs, p)
  {
    if claims != [] {
      var last := claims[|claims| - 1];
      OrphansAreWanted(pvcs, existing, claims[..|claims| - 1]);
      assert ClaimEligible(pvcs, last.key) ==> Wanted(pvcs, BuildStagePod(last.key));
      hide Wanted, MountedByAny, Covered;
    }
  }

  /** A claim mounted by a stage pod of a listing is mounted by a labelled pod of the cluster. */
  lemma MountedByStaged(pvcs: PVCMapping, listed: seq<Pod>, key: ClaimKey)
    requires MountedByAny(Build(pvcs, listed), key)
    ensures exists i :: 0 <= i < |listed| && Mounted(listed[i].namespace, listed[i].volumes, key)
  {
    BuildIsIrredundant(pvcs, listed);
    var k :| 0 <= k < |Build(pvcs, listed)| && Mounted(Build(pvcs, listed)[k].namespace, Build(pvcs, listed)[k].volumes, key);
    var e := Build(pvcs, listed)[k];
    hide Build;
    var p :| p in listed && e == StagePodOf(pvcs, p);
    EligibleVolumesExactly(pvcs, p.namespace, p.volumes);
    var i :| 0 <= i < |e.volumes| && e.volumes[i].source.Claim? && e.volumes[i].source.claimName == key.name;
    assert e.volumes[i] in p.volumes;
    var j :| 0 <= j < |p.volumes| && p.volumes[j] == e.volumes[i];
  }

  lemma ListedMounts(pvcs: PVCMapping, listed: seq<Pod>, after: seq<Pod>, key: ClaimKey)
    requires MountedByAny(Build(pvcs, listed), key) && forall q :: q in listed ==> q in after && q.staged
    ensures MountedInCluster(after, key)
  {
    MountedByStaged(pvcs, listed, key);
    hide Mounted;
    var i :| 0 <= i < |listed| && Mounted(listed[i].namespace, listed[i].volumes, key);
    var k :| 0 <= k < |after| && after[k] == listed[i];
  }

  lemma CoverMounts(key: ClaimKey, p: StagePod)
    requires Contained(BuildStagePod(key), p)
    ensures Mounted(p.namespace, p.volumes, key)
  {
    assert MountsSource(p, BuildStagePod(key).volumes[0].source);
  }

  /** A claim whose own stage pod is covered by an ensured list is mounted in the cluster or was before. */
  lemma EnsuredIsMounted(
    existing: seq<StagePod>, after: seq<Pod>, orphans: seq<StagePod>, answers: seq<Answer>, key: ClaimKey)
    requires |answers| == |orphans| && AlreadyExists !in answers
    requires Ensured(existing, after, orphans, answers) && Covered(orphans, BuildStagePod(key))
    ensures MountedByAny(existing, key) || MountedInCluster(after, key)
  {
    var i :| 0 <= i < |orphans| && Contained(BuildStagePod(key), orphans[i]);
    CoverMounts(key, orphans[i]);
    assert answers[i] in answers;
    hide Mounted, Contained;
    if Covered(existing, orphans[i]) {
      var k :| 0 <= k < |existing| && Contained(orphans[i], existing[k]);
      ContainedIsTransitive(BuildStagePod(key), orphans[i], existing[k]);
      CoverMounts(key, existing[k]);
    } else {
      var k :| 0 <= k < |after| && after[k].staged && PodFor(orphans[i], after[k]);
    }
  }

  lemma OrphanIsMounted(
    pvcs: PVCMapping, claims: seq<PVC>, listed: seq<Pod>, after: seq<Pod>, answers: seq<Answer>, claim: PVC)
    requires forall q :: q in listed ==> q in after && q.staged
    requires claim in claims && claim.bound && ClaimEligible(pvcs, claim.key)
    requires var orphans := Orphans(pvcs, Build(pvcs, listed), claims);
             |answers| == |orphans| && AlreadyExists !in answers
             && Ensured(Build(pvcs, listed), after, orphans, answers)
    ensures MountedInCluster(after, claim.key)
  {
    hide Build, Orphans, ClaimEligible, Mounted, Contained, Covered, MountedByAny, MountedInCluster, Ensured;
    var existing := Build(pvcs, listed);
    if !MountedByAny(existing, claim.key) {
      OrphanIsMade(pvcs, existing, claims, claim);
      EnsuredIsMounted(existing, after, Orphans(pvcs, existing, claims), answers, claim.key);
    }
    if MountedByAny(existing, claim.key) {
      ListedMounts(pvcs, listed, after, claim.key);
    }
  }

  /** Main result for orphans: after the orphan phase every bound eligible claim of the namespaces is
      mounted by a labelled pod of its namespace in the cluster. */
  lemma OrphansAreMounted(
    pvcs: PVCMapping, namespaces: seq<string>, claims: seq<PVC>, before: seq<Pod>, listed: seq<Pod>,
    answers: seq<Answer>, claim: PVC)
    requires ListingOf(listed, before)
    requires var orphans := Orphans(pvcs, Build(pvcs, listed), ClaimsIn(namespaces, claims));
             |answers| == |orphans| && Refused !in answers && AlreadyExists !in answers
    requires claim in claims && claim.key.namespace in namespaces && claim.bound && claim.key in pvcs
    requires pvcs[claim.key].action == Copy && pvcs[claim.key].copyMethod != Snapshot
    ensures var orphans := Orphans(pvcs, Build(pvcs, listed), ClaimsIn(namespaces, claims));
            var after := before + Creations(Build(pvcs, listed), orphans, answers);
            exists pod :: pod in after && pod.staged && pod.namespace == claim.key.namespace
                          && exists v :: v in pod.volumes && v.source.Claim? && v.source.claimName == claim.key.name
  {
    hide *;
    CopiedIsEligible(pvcs, claim.key);
    var existing, all := Build(pvcs, listed), ClaimsIn(namespaces, claims);
    var orphans := Orphans(pvcs, existing, all);
    var after := before + Creations(existing, orphans, answers);
    ListedStays(before, listed, after);
    CreationsEnsure(existing, before, orphans, answers);
    OrphanIsMounted(pvcs, all, listed, after, answers, claim);
    MountedByPod(after, claim.key);
  }

  lemma CopiedIsEligible(pvcs: PVCMapping, key: ClaimKey)
    requires key in pvcs && pvcs[key].action == Copy && pvcs[key].copyMethod != Snapshot
    ensures ClaimEligible(pvcs, key)
  {
  }

  lemma MountedByPod(pods: seq<Pod>, key: ClaimKey)
    requires MountedInCluster(pods, key)
    ensures exists pod :: pod in pods && pod.staged && pod.namespace == key.namespace
                          && exists v :: v in pod.volumes && v.source.Claim? && v.source.claimName == key.name
  {
    var i :| 0 <= i < |pods| && pods[i].staged && Mounted(pods[i].namespace, pods[i].volumes, key);
    var k :| 0 <= k < |pods[i].volumes| && pods[i].volumes[k].source.Claim?
             && pods[i].volumes[k].source.claimName == key.name;
    assert pods[i].volumes[k] in pods[i].volumes && pods[i] in pods;
  }

  // ---------------------------------------------------------------- nothing more than needed

  /** A stage pod mounts volumes of its own application pod only, in its namespace and under its name, and
      only claims that are to be copied, not by a snapshot. */
  lemma StagePodsMountOnlyCopied(pvcs: PVCMapping, pods: seq<Pod>, e: StagePod)
    requires e in Build(pvcs, pods)
    ensures e.volumes != []
    ensures exists pod :: pod in pods && e.namespace == pod.namespace && e.generateName == "stage-" + pod.name + "-"
                          && forall v :: v in e.volumes ==> v in pod.volumes && OnlyCopied(pvcs, pod.namespace, v)
  {
    BuildIsIrredundant(pvcs, pods);
    hide Build, EligibleVolumes;
    var pod :| pod in pods && e == StagePodOf(pvcs, pod);
    EligibleVolumesExactly(pvcs, pod.namespace, pod.volumes);
  }

  predicate OnlyCopied(pvcs: PVCMapping, namespace: string, v: Volume) {
    && v.source.Claim?
    && ClaimKey(namespace, v.source.claimName) in pvcs
    && var pv := pvcs[ClaimKey(namespace, v.source.claimName)]; pv.action == Copy && pv.copyMethod != Snapshot
  }

  /** Of two stage pods of a namespace the later one mounts something that the earlier one does not. */
  lemma LaterPodsMountMore(pvcs: PVCMapping, pods: seq<Pod>, i: nat, j: nat)
    requires i < j < |Build(pvcs, pods)| && Build(pvcs, pods)[i].namespace == Build(pvcs, pods)[j].namespace
    ensures exists v :: v in Build(pvcs, pods)[j].volumes &&
              forall w :: w in Build(pvcs, pods)[i].volumes ==> w.source != v.source
  {
    BuildIsIrredundant(pvcs, pods);
    var earlier, later := Build(pvcs, pods)[i], Build(pvcs, pods)[j];
    hide Build;
    var k :| 0 <= k < |later.volumes| && !MountsSource(earlier, later.volumes[k].source);
    assert later.volumes[k] in later.volumes;
    assert forall w :: w in earlier.volumes ==> exists m :: 0 <= m < |earlier.volumes| && earlier.volumes[m] == w;
  }

  /** A creation pass adds labelled pods for stage pods that none of the existing ones contains, and nothing
      when each is contained. */
  lemma {:induction false} CreationsAreNeeded(existing: seq<StagePod>, stagePods: seq<StagePod>, answers: seq<Answer>)
    requires |answers| == |stagePods|
    ensures forall q :: q in Creations(existing, stagePods, answers) ==>
              exists i :: 0 <= i < |stagePods| && answers[i].Created? && !Covered(existing, stagePods[i]) && q.staged
                          && q.namespace == stagePods[i].namespace && q.volumes == stagePods[i].volumes
    ensures |Creations(existing, stagePods, answers)| <= |Missing(existing, stagePods)|
  {
    hide Covered;
    if stagePods != [] {
      var n := |stagePods| - 1;
      CreationsAreNeeded(existing, stagePods[..n], answers[..n]);
      assert forall i :: 0 <= i < n ==> stagePods[..n][i] == stagePods[i] && answers[..n][i] == answers[i];
    }
  }

  /** The orphan phase makes pods only for bound claims that are to be copied and that no stage pod of the
      namespace mounts, one claim each. */
  lemma {:induction false} OrphansAreUnmounted(pvcs: PVCMapping, existing: seq<StagePod>, claims: seq<PVC>)
    ensures forall p :: p in Orphans(pvcs, existing, claims) ==> exists c :: c in claims && OrphanOf(pvcs, existing, c, p)
  {
    hide OrphanOf;
    if claims != [] {
      var n := |claims| - 1;
      OrphansAreUnmounted(pvcs, existing, claims[..n]);
      assert claims == claims[..n] + [claims[n]];
      if claims[n].bound && ClaimEligible(pvcs, claims[n].key) && !MountedByAny(existing, claims[n].key) {
        UnmountedIsOrphan(pvcs, existing, claims[n]);
      }
      hide ClaimEligible, MountedByAny, Covered;
    }
  }

  ghost predicate OrphanOf(pvcs: PVCMapping, existing: seq<StagePod>, c: PVC, p: StagePod) {
    && c.bound && p.namespace == c.key.namespace && p.generateName == "stage-" + c.key.name + "-"
    && |p.volumes| == 1 && p.volumes[0].source == Claim(c.key.name, false)
    && OnlyCopied(pvcs, c.key.namespace, p.volumes[0])
    && (forall e :: e in existing && e.namespace == c.key.namespace ==>
          forall v :: v in e.volumes ==> !v.source.Claim? || v.source.claimName != c.key.name)
  }

  lemma UnmountedIsOrphan(pvcs: PVCMapping, existing: seq<StagePod>, c: PVC)
    requires c.bound && ClaimEligible(pvcs, c.key) && !MountedByAny(existing, c.key)
    ensures OrphanOf(pvcs, existing, c, BuildStagePod(c.key))
  {
    assert ClaimKey(c.key.namespace, c.key.name) == c.key;
    forall e, v | e in existing && e.namespace == c.key.namespace && v in e.volumes
      ensures !v.source.Claim? || v.source.claimName != c.key.name
    {
      var i :| 0 <= i < |existing| && existing[i] == e;
      assert !Mounted(existing[i].namespace, existing[i].volumes, c.key);
      var k :| 0 <= k < |e.volumes| && e.volumes[k] == v;
    }
  }
}
