/** Quiescing and unquiescing workloads: pkg/controller/migmigration/quiesce.go.

    Quiescing parks the original replica count, paused flag or node selector in annotations and
    scales the workload down; unquiescing puts it back. Every write may fail and cut a pass short,
    and passes are repeated until one gets through. */
module Quiesce {
  import opened Wrappers
  import opened Strconv

  type int32 = x: int | -0x8000_0000 <= x < 0x8000_0000

  /** Go's conversion to int32, which wraps around. */
  function ToInt32(n: int): int32 {
    var low := n % 0x1_0000_0000;
    if low < 0x8000_0000 then low else low - 0x1_0000_0000
  }

  /** The three annotations of quiescing ("migration.openshift.io/preQuiesceReplicas",
      ".../preQuiescePaused" and ".../preQuiesceNodeSelector"), and any other. */
  datatype AnnotationKey = Replicas | Paused | NodeSelector | OtherKey(name: string)

  /** "migration.openshift.io/quiesceDaemonSet", and any other node selector key. */
  datatype SelectorKey = QuiesceNodeSelector | OtherSelector(name: string)

  type Selector = map<SelectorKey, string>

  /** An annotation value: text, or a node selector as `json.Marshal` writes it. */
  datatype Value = Text(text: string) | Json(selector: Selector)

  datatype Kind = KDeployment | KDeploymentConfig | KReplicaSet | KStatefulSet | KDaemonSet

  /** The fields that quiescing looks at, by kind. `nodeSelector` may be nil. */
  datatype Spec =
    | Deployment(replicas: int32, paused: bool)
    | DeploymentConfig(replicas: int32, paused: bool)
    | ReplicaSet(replicas: int32, owned: bool)
    | StatefulSet(replicas: int32, claims: seq<string>)
    | DaemonSet(nodeSelector: Option<Selector>)
  {
    function Kind(): Kind {
      match this
      case Deployment(_, _) => KDeployment
      case DeploymentConfig(_, _) => KDeploymentConfig
      case ReplicaSet(_, _) => KReplicaSet
      case StatefulSet(_, _) => KStatefulSet
      case DaemonSet(_) => KDaemonSet
    }
  }

  /** `volumes` are the PVC names mounted by the pod template; for a StatefulSet, `claims` are the PVC
      names of replica 0 made from its volume claim templates. */
  datatype Workload = Workload(
    namespace: string, volumes: seq<string>, annotations: map<AnnotationKey, Value>, spec: Spec)

  /** What a pass is asked to cover. */
  datatype Selection = Selection(
    namespaces: seq<string>, selectedPVCs: map<string, set<string>>, multiplePlans: bool)

  predicate Mounts(sel: Selection, namespace: string, names: seq<string>) {
    namespace in sel.selectedPVCs && exists i :: 0 <= i < |names| && names[i] in sel.selectedPVCs[namespace]
  }

  predicate Covers(sel: Selection, namespace: string, names: seq<string>) {
    && namespace in sel.namespaces
    && (!sel.multiplePlans || Mounts(sel, namespace, names))
  }

  predicate QuiesceSelects(sel: Selection, w: Workload) {
    && Covers(sel, w.namespace, if w.spec.StatefulSet? then w.spec.claims else w.volumes)
    && !(w.spec.ReplicaSet? && w.spec.owned)
  }

  /** A StatefulSet is selected here by the volumes of its pod template, not by its claim templates. */
  predicate UnquiesceSelects(sel: Selection, w: Workload) {
    && Covers(sel, w.namespace, w.volumes)
    && !(w.spec.ReplicaSet? && w.spec.owned)
  }

  function Parked(w: Workload): Workload
    requires !w.spec.DaemonSet?
  {
    var parked := w.annotations[Replicas := Text(FormatInt(w.spec.replicas))];
    match w.spec
    case Deployment(_, paused) =>
      w.(annotations := parked[Paused := Text(FormatBool(paused))], spec := Deployment(0, false))
    case DeploymentConfig(_, paused) =>
      w.(annotations := parked[Paused := Text(FormatBool(paused))], spec := DeploymentConfig(0, false))
    case ReplicaSet(_, owned) => w.(annotations := parked, spec := ReplicaSet(0, owned))
    case StatefulSet(_, claims) => w.(annotations := parked, spec := StatefulSet(0, claims))
  }

  /** One workload after a pass has reached it. */
  function Quiesced(sel: Selection, w: Workload): Workload {
    if !QuiesceSelects(sel, w) then w
    else if w.spec.DaemonSet? then
      var selector := w.spec.nodeSelector.GetOr(map[]);
      if QuiesceNodeSelector in selector then w
      else w.(annotations := w.annotations[NodeSelector := Json(selector)],
              spec := DaemonSet(Some(selector[QuiesceNodeSelector := "true"])))
    else if w.spec.replicas == 0 then w
    else Parked(w)
  }

  /** Replicas come back only while the workload is still scaled to 0. */
  function Scaled(current: int32, parked: int): int32 {
    if current == 0 then ToInt32(parked) else current
  }

  function TextAt(w: Workload, key: AnnotationKey): Option<string> {
    if key in w.annotations && w.annotations[key].Text? then Some(w.annotations[key].text) else None
  }

  /** The first write of unquiescing a workload, or None when an annotation cannot be parsed. */
  function Unquiesced(sel: Selection, w: Workload): Option<Workload> {
    if !UnquiesceSelects(sel, w) then Some(w)
    else if w.spec.DaemonSet? then
      if NodeSelector !in w.annotations then Some(w)
      else if !w.annotations[NodeSelector].Json? then None
      else if w.spec.nodeSelector.None? || QuiesceNodeSelector !in w.spec.nodeSelector.value then Some(w)
      else Some(w.(annotations := w.annotations - {NodeSelector},
                   spec := DaemonSet(Some(w.annotations[NodeSelector].selector))))
    else if Replicas !in w.annotations then Some(w)
    else
      var number := if TextAt(w, Replicas).Some? then Atoi(TextAt(w, Replicas).value) else None;
      if number.None? then None
      else
        var replicas := Scaled(w.spec.replicas, number.value);
        var rest := w.annotations - {Replicas};
        match w.spec
        case Deployment(_, paused) =>
          if Paused !in w.annotations then Some(w.(annotations := rest, spec := Deployment(replicas, paused)))
          else
            var flag := if TextAt(w, Paused).Some? then ParseBool(TextAt(w, Paused).value) else None;
            if flag.None? then None
            else Some(w.(annotations := rest - {Paused}, spec := Deployment(replicas, flag.value)))
        case DeploymentConfig(_, paused) =>
          Some(w.(annotations := rest, spec := DeploymentConfig(replicas, paused)))
        case ReplicaSet(_, owned) => Some(w.(annotations := rest, spec := ReplicaSet(replicas, owned)))
        case StatefulSet(_, claims) => Some(w.(annotations := rest, spec := StatefulSet(replicas, claims)))
  }

  /** The second write, made for DeploymentConfigs only and only right after the first. */
  function Resumed(w: Workload): Option<Workload>
    requires w.spec.DeploymentConfig?
  {
    if Paused !in w.annotations then Some(w)
    else
      var flag := if TextAt(w, Paused).Some? then ParseBool(TextAt(w, Paused).value) else None;
      if flag.None? then None
      else Some(w.(annotations := w.annotations - {Paused}, spec := w.spec.(paused := flag.value)))
  }

  /** A workload that unquiescing gets all the way through. */
  function Restored(sel: Selection, w: Workload): Option<Workload> {
    var first := Unquiesced(sel, w);
    if first.None? || !w.spec.DeploymentConfig? || !UnquiesceSelects(sel, w) || Replicas !in w.annotations
    then first
    else Resumed(first.value)
  }

  /** What a pass may have made of a workload by the time it stops. */
  predicate Reached(up: bool, sel: Selection, w: Workload, now: Workload) {
    now == w || (if up then Unquiesced(sel, w) == Some(now) || Restored(sel, w) == Some(now)
                 else now == Quiesced(sel, w))
  }

  /** What a pass makes of a workload that it gets through. */
  predicate Done(up: bool, sel: Selection, w: Workload, now: Workload) {
    if up then Restored(sel, w) == Some(now) else now == Quiesced(sel, w)
  }

  predicate Unparsable(up: bool, sel: Selection, w: Workload) { up && Restored(sel, w).None? }

  ghost predicate PartialPass(up: bool, sel: Selection, before: seq<Workload>, after: seq<Workload>) {
    |after| == |before| && forall i :: 0 <= i < |before| ==> Reached(up, sel, before[i], after[i])
  }

  ghost predicate FullPass(up: bool, sel: Selection, before: seq<Workload>, after: seq<Workload>) {
    |after| == |before| && forall i :: 0 <= i < |before| ==> Done(up, sel, before[i], after[i])
  }

  class Cluster {
    var workloads: seq<Workload>

    constructor (workloads: seq<Workload>)
      ensures this.workloads == workloads
    {
      this.workloads := workloads;
    }

    /** `shouldQuiesce` over a list of PVC names, with the namespace test before it. */
    static method ShouldAct(sel: Selection, namespace: string, names: seq<string>) returns (should: bool)
      requires namespace in sel.namespaces
      ensures should == Covers(sel, namespace, names)
    {
      if namespace !in sel.selectedPVCs && sel.multiplePlans {
        return false;
      }
      should := !sel.multiplePlans;
      for i := 0 to |names|
        invariant should == !sel.multiplePlans
        invariant namespace in sel.selectedPVCs ==> forall k :: 0 <= k < i ==> names[k] !in sel.selectedPVCs[namespace]
      {
        if namespace in sel.selectedPVCs && names[i] in sel.selectedPVCs[namespace] {
          return true;
        }
      }
    }

    /** The loop body of quiescing: the writes it makes. */
    static method QuiesceOne(sel: Selection, w: Workload) returns (updates: seq<Workload>)
      requires w.namespace in sel.namespaces
      ensures updates == [] || updates == [Quiesced(sel, w)]
      ensures updates == [] ==> Quiesced(sel, w) == w
    {
      var should := ShouldAct(sel, w.namespace, if w.spec.StatefulSet? then w.spec.claims else w.volumes);
      if !should || (w.spec.ReplicaSet? && w.spec.owned) {
        return [];
      }
      if w.spec.DaemonSet? {
        var selector := w.spec.nodeSelector.GetOr(map[]);
        if QuiesceNodeSelector in selector {
          return [];
        }
        var annotations := w.annotations[NodeSelector := Json(selector)];
        selector := selector[QuiesceNodeSelector := "true"];
        return [w.(annotations := annotations, spec := DaemonSet(Some(selector)))];
      }
      if w.spec.replicas == 0 {
        return [];
      }
      var annotations := w.annotations[Replicas := Text(FormatInt(w.spec.replicas))];
      match w.spec {
        case Deployment(_, paused) =>
          annotations := annotations[Paused := Text(FormatBool(paused))];
          return [w.(annotations := annotations, spec := Deployment(0, false))];
        case DeploymentConfig(_, paused) =>
          annotations := annotations[Paused := Text(FormatBool(paused))];
          return [w.(annotations := annotations, spec := DeploymentConfig(0, false))];
        case ReplicaSet(_, owned) =>
          return [w.(annotations := annotations, spec := ReplicaSet(0, owned))];
        case StatefulSet(_, claims) =>
          return [w.(annotations := annotations, spec := StatefulSet(0, claims))];
      }
    }

    /** The loop body of unquiescing: the writes it makes, and whether it then meets an annotation
        that it cannot parse. */
    static method UnquiesceOne(sel: Selection, w: Workload) returns (updates: seq<Workload>, bad: bool)
      requires w.namespace in sel.namespaces
      ensures |updates| <= 2
      ensures updates == [] && !bad ==> Restored(sel, w) == Some(w)
      ensures |updates| == 1 && !bad ==> Restored(sel, w) == Some(updates[0])
      ensures |updates| > 0 ==> Unquiesced(sel, w) == Some(updates[0])
      ensures |updates| == 2 ==> !bad && Restored(sel, w) == Some(updates[1])
      ensures bad ==> Restored(sel, w).None?
    {
      updates, bad := [], false;
      var should := ShouldAct(sel, w.namespace, w.volumes);
      if !should || (w.spec.ReplicaSet? && w.spec.owned) {
        return;
      }
      if w.spec.DaemonSet? {
        if NodeSelector !in w.annotations {
          return;
        }
        if !w.annotations[NodeSelector].Json? {
          return [], true;
        }
        if w.spec.nodeSelector.None? || QuiesceNodeSelector !in w.spec.nodeSelector.value {
          return;
        }
        return [w.(annotations := w.annotations - {NodeSelector},
                   spec := DaemonSet(Some(w.annotations[NodeSelector].selector)))], false;
      }
      if Replicas !in w.annotations {
        return;
      }
      var number := if TextAt(w, Replicas).Some? then Atoi(TextAt(w, Replicas).value) else None;
      if number.None? {
        return [], true;
      }
      var replicas := Scaled(w.spec.replicas, number.value);
      var annotations := w.annotations - {Replicas};
      match w.spec {
        case Deployment(_, paused) =>
          var restored := paused;
          if Paused in annotations {
            var flag := if TextAt(w, Paused).Some? then ParseBool(TextAt(w, Paused).value) else None;
            if flag.None? {
              return [], true;
            }
            restored := flag.value;
            annotations := annotations - {Paused};
          }
          return [w.(annotations := annotations, spec := Deployment(replicas, restored))], false;
        case DeploymentConfig(_, paused) =>
          var first := w.(annotations := annotations, spec := DeploymentConfig(replicas, paused));
          // paused is set by a second write, on the object read back
          var second := Resumed(first);
          if second.None? {
            return [first], true;
          }
          return [first, second.value], false;
        case ReplicaSet(_, owned) =>
          return [w.(annotations := annotations, spec := ReplicaSet(replicas, owned))], false;
        case StatefulSet(_, claims) =>
          return [w.(annotations := annotations, spec := StatefulSet(replicas, claims))], false;
      }
    }

    /** One object of a pass: `writes` updates may succeed before one fails, and an unparsable
        annotation is an error as well. `w0` is the object as the pass first found it. */
    method PassOverOne(up: bool, sel: Selection, i: nat, writes: nat, ghost w0: Workload)
      returns (err: bool, left: nat)
      requires i < |workloads| && workloads[i].namespace in sel.namespaces
      requires workloads[i] == w0 || Done(up, sel, w0, workloads[i])
      modifies this
      ensures exists w :: workloads == old(workloads)[i := w] && Reached(up, sel, w0, w) && (!err ==> Done(up, sel, w0, w))
      ensures err ==> left == 0 || Unparsable(up, sel, w0)
    {
      err, left := false, writes;
      var w := workloads[i];
      ReachedFacts(up, sel, w0, w);
      var updates, bad := [], false;
      if up {
        updates, bad := UnquiesceOne(sel, w);
      } else {
        updates := QuiesceOne(sel, w);
      }
      hide Quiesced, Unquiesced, Restored;
      assert workloads == workloads[i := w];
      for u := 0 to |updates|
        invariant workloads == old(workloads)[i := if u == 0 then w else updates[u - 1]]
      {
        if left == 0 {
          err := true;
          assert Reached(up, sel, w0, if u == 0 then w else updates[u - 1]);
          return;
        }
        left := left - 1;
        workloads := workloads[i := updates[u]];
      }
      err := bad;
      var last := if updates == [] then w else updates[|updates| - 1];
      assert workloads == old(workloads)[i := last];
      assert Reached(up, sel, w0, last) && (!err ==> Done(up, sel, w0, last));
    }

    /** The objects of one namespace; `was` is the cluster as the pass first found it, `covered` the
        namespaces it has dealt with. */
    method PassOverNamespace(
      up: bool, sel: Selection, kind: Kind, namespace: string, writes: nat,
      ghost was: seq<Workload>, ghost covered: seq<string>)
      returns (err: bool, left: nat)
      requires namespace in sel.namespaces
      requires Progress(up, sel, kind, was, workloads) && Covered(up, sel, kind, was, workloads, covered, |was|)
      modifies this
      ensures PartialPass(up, sel, was, workloads) && OthersStay(kind, was, workloads)
      ensures !err ==> Progress(up, sel, kind, was, workloads)
      ensures !err ==> Covered(up, sel, kind, was, workloads, covered + [namespace], |was|)
      ensures err ==> left == 0 || exists w :: w in was && Unparsable(up, sel, w)
    {
      hide Done, Reached, Unparsable;
      err, left := false, writes;
      for i := 0 to |workloads|
        invariant Progress(up, sel, kind, was, workloads) && |workloads| == |old(workloads)|
        invariant Covered(up, sel, kind, was, workloads, covered, |was|)
        invariant Covered(up, sel, kind, was, workloads, [namespace], i)
      {
        var w := workloads[i];
        ReachedFacts(up, sel, was[i], w);
        if w.namespace == namespace && w.spec.Kind() == kind {
          ghost var before := workloads;
          err, left := PassOverOne(up, sel, i, left, was[i]);
          if err {
            PartialStep(up, sel, kind, was, before, workloads, i);
            return;
          }
          ProgressStep(up, sel, kind, was, before, workloads, i, covered, [namespace]);
        }
      }
      ProgressIsPartial(up, sel, kind, was, workloads);
    }

    /** The loop shared by every kind's quiesce and unquiesce (`up`) function. */
    method PassOverKind(up: bool, sel: Selection, kind: Kind, writes: nat) returns (err: bool, left: nat)
      modifies this
      ensures PartialPass(up, sel, old(workloads), workloads) && OthersStay(kind, old(workloads), workloads)
      ensures !err ==> forall i :: 0 <= i < |workloads| && old(workloads)[i].spec.Kind() == kind ==>
                Done(up, sel, old(workloads)[i], workloads[i])
      ensures err ==> left == 0 || exists w :: w in old(workloads) && Unparsable(up, sel, w)
    {
      hide Quiesced, Restored, Unquiesced, Unparsable;
      var was := workloads;
      err, left := false, writes;
      for n := 0 to |sel.namespaces|
        invariant Progress(up, sel, kind, was, workloads)
        invariant Covered(up, sel, kind, was, workloads, sel.namespaces[..n], |was|)
      {
        assert sel.namespaces[..n + 1] == sel.namespaces[..n] + [sel.namespaces[n]];
        err, left := PassOverNamespace(up, sel, kind, sel.namespaces[n], left, was, sel.namespaces[..n]);
        if err {
          return;
        }
      }
      forall i | 0 <= i < |was| && was[i].spec.Kind() == kind
        ensures Done(up, sel, was[i], workloads[i])
      {
        if was[i].namespace !in sel.namespaces {
          UncoveredIsDone(up, sel, was[i], workloads[i]);
        }
      }
      ProgressIsPartial(up, sel, kind, was, workloads);
    }

    /** `quiesceApplications` and `unQuiesceApplications` (`up`): the kinds in their order, up to the first
        error. */
    method PassOverApplications(up: bool, sel: Selection, writes: nat) returns (err: bool, left: nat)
      modifies this
      ensures PartialPass(up, sel, old(workloads), workloads)
      ensures !err ==> FullPass(up, sel, old(workloads), workloads)
      ensures err ==> exists kind: Kind :: CutAt(up, sel, kind, old(workloads), workloads)
      ensures err ==> left == 0 || exists w :: w in old(workloads) && Unparsable(up, sel, w)
    {
      hide Done, Reached, Unparsable;
      ghost var was := workloads;
      err, left := PassOverNextKind(up, sel, KDeploymentConfig, writes, was, {});
      if err { return; }
      err, left := PassOverNextKind(up, sel, KDeployment, left, was, {KDeploymentConfig});
      if err { return; }
      err, left := PassOverNextKind(up, sel, KStatefulSet, left, was, {KDeploymentConfig, KDeployment});
      if err { return; }
      err, left := PassOverNextKind(up, sel, KReplicaSet, left, was, {KDeploymentConfig, KDeployment, KStatefulSet});
      if err { return; }
      err, left := PassOverNextKind(up, sel, KDaemonSet, left, was,
                                    {KDeploymentConfig, KDeployment, KStatefulSet, KReplicaSet});
      if err { return; }
      AllKindsDone(up, sel, was, workloads);
    }

    /** The next kind of a pass that has dealt with `kinds`. */
    method PassOverNextKind(
      up: bool, sel: Selection, kind: Kind, writes: nat, ghost was: seq<Workload>, ghost kinds: set<Kind>)
      returns (err: bool, left: nat)
      requires KindsDone(up, sel, kinds, was, workloads) && kind !in kinds
      modifies this
      ensures PartialPass(up, sel, was, workloads)
      ensures !err ==> KindsDone(up, sel, kinds + {kind}, was, workloads)
      ensures err && kinds == EarlierKinds(kind) ==> CutAt(up, sel, kind, was, workloads)
      ensures err ==> left == 0 || exists w :: w in was && Unparsable(up, sel, w)
    {
      hide Done, Reached, Unparsable;
      ghost var before := workloads;
      err, left := PassOverKind(up, sel, kind, writes);
      KindIsCut(up, sel, kinds, kind, was, before, workloads);
      UnparsableFromTheStart(up, sel, kinds, was, before);
      if !err {
        KindIsDone(up, sel, kinds, kind, was, before, workloads);
      }
    }
  }

  /** The kinds that a pass deals with before the given one. */
  function EarlierKinds(kind: Kind): set<Kind> {
    match kind
    case KDeploymentConfig => {}
    case KDeployment => {KDeploymentConfig}
    case KStatefulSet => {KDeploymentConfig, KDeployment}
    case KReplicaSet => {KDeploymentConfig, KDeployment, KStatefulSet}
    case KDaemonSet => {KDeploymentConfig, KDeployment, KStatefulSet, KReplicaSet}
  }

  /** A pass that was cut short in the kind: earlier kinds are done, later ones untouched. */
  ghost predicate CutAt(up: bool, sel: Selection, kind: Kind, was: seq<Workload>, now: seq<Workload>) {
    && |now| == |was|
    && forall i :: 0 <= i < |was| && was[i].spec.Kind() != kind ==>
         if was[i].spec.Kind() in EarlierKinds(kind) then Done(up, sel, was[i], now[i]) else now[i] == was[i]
  }

  /** Every workload of the kinds is done, and no other has been touched. */
  ghost predicate KindsDone(up: bool, sel: Selection, kinds: set<Kind>, was: seq<Workload>, now: seq<Workload>) {
    && |now| == |was|
    && forall i :: 0 <= i < |was| ==>
         if was[i].spec.Kind() in kinds then Done(up, sel, was[i], now[i]) else now[i] == was[i]
  }

  /** What a pass has dealt with can be parsed, so an unparsable workload is as it was. */
  lemma UnparsableFromTheStart(up: bool, sel: Selection, kinds: set<Kind>, was: seq<Workload>, now: seq<Workload>)
    requires KindsDone(up, sel, kinds, was, now)
    ensures forall w :: w in now && Unparsable(up, sel, w) ==> w in was
  {
    forall w | w in now && Unparsable(up, sel, w) ensures w in was {
      var i :| 0 <= i < |now| && now[i] == w;
      ReachedFacts(up, sel, was[i], now[i]);
      assert now[i] == was[i];
    }
  }

  lemma KindIsCut(up: bool, sel: Selection, kinds: set<Kind>, kind: Kind,
                  was: seq<Workload>, before: seq<Workload>, now: seq<Workload>)
    requires KindsDone(up, sel, kinds, was, before) && kind !in kinds
    requires PartialPass(up, sel, before, now) && OthersStay(kind, before, now)
    ensures PartialPass(up, sel, was, now)
    ensures kinds == EarlierKinds(kind) ==> CutAt(up, sel, kind, was, now)
  {
    forall i | 0 <= i < |was| ensures Reached(up, sel, was[i], now[i]) {
      DoneIsReached(up, sel, was[i], before[i]);
    }
    hide Done, Reached;
  }

  lemma DoneIsReached(up: bool, sel: Selection, w: Workload, now: Workload)
    requires now == w || Done(up, sel, w, now)
    ensures Reached(up, sel, w, now) && now.spec.Kind() == w.spec.Kind()
  {
    ReachedFacts(up, sel, w, now);
  }

  lemma KindIsDone(up: bool, sel: Selection, kinds: set<Kind>, kind: Kind,
                   was: seq<Workload>, before: seq<Workload>, now: seq<Workload>)
    requires KindsDone(up, sel, kinds, was, before) && kind !in kinds
    requires |now| == |before| && OthersStay(kind, before, now)
    requires forall i :: 0 <= i < |now| && before[i].spec.Kind() == kind ==> Done(up, sel, before[i], now[i])
    ensures KindsDone(up, sel, kinds + {kind}, was, now)
  {
    forall i | 0 <= i < |was| ensures before[i].spec.Kind() == was[i].spec.Kind() {
      DoneIsReached(up, sel, was[i], before[i]);
    }
    hide Done, Reached;
  }

  lemma AllKindsDone(up: bool, sel: Selection, was: seq<Workload>, now: seq<Workload>)
    requires KindsDone(up, sel, {KDeploymentConfig, KDeployment, KStatefulSet, KReplicaSet} + {KDaemonSet}, was, now)
    ensures FullPass(up, sel, was, now)
  {
    hide Done;
  }

  ghost predicate OthersStay(kind: Kind, was: seq<Workload>, now: seq<Workload>)
    requires |now| == |was|
  {
    forall i :: 0 <= i < |was| && was[i].spec.Kind() != kind ==> now[i] == was[i]
  }

  /** Every workload of the kind in one of the namespaces, among the first `upTo`, is done. */
  ghost predicate Covered(
    up: bool, sel: Selection, kind: Kind, was: seq<Workload>, now: seq<Workload>, namespaces: seq<string>, upTo: nat)
    requires upTo <= |now| == |was|
  {
    forall i :: 0 <= i < upTo && was[i].spec.Kind() == kind && was[i].namespace in namespaces ==>
      Done(up, sel, was[i], now[i])
  }

  /** Between two objects of a pass every workload is either as it was or done. */
  ghost predicate Progress(up: bool, sel: Selection, kind: Kind, was: seq<Workload>, now: seq<Workload>) {
    && |now| == |was|
    && (forall i :: 0 <= i < |was| ==> now[i] == was[i] || Done(up, sel, was[i], now[i]))
    && OthersStay(kind, was, now)
  }

  lemma ReachedFacts(up: bool, sel: Selection, w: Workload, now: Workload)
    requires now == w || Done(up, sel, w, now)
    ensures now.namespace == w.namespace && now.volumes == w.volumes && now.spec.Kind() == w.spec.Kind()
    ensures now != w ==> if up then Unquiesced(sel, now) == Restored(sel, now) == Some(now)
                         else Quiesced(sel, now) == now
  {
  }

  lemma ProgressStep(
    up: bool, sel: Selection, kind: Kind, was: seq<Workload>, before: seq<Workload>, now: seq<Workload>,
    i: nat, covered: seq<string>, current: seq<string>)
    requires Progress(up, sel, kind, was, before) && i < |was| && was[i].spec.Kind() == kind
    requires Covered(up, sel, kind, was, before, covered, |was|) && Covered(up, sel, kind, was, before, current, i)
    requires exists w :: now == before[i := w] && Done(up, sel, was[i], w)
    ensures Progress(up, sel, kind, was, now)
    ensures Covered(up, sel, kind, was, now, covered, |was|) && Covered(up, sel, kind, was, now, current, i + 1)
  {
    hide Done;
  }

  lemma PartialStep(
    up: bool, sel: Selection, kind: Kind, was: seq<Workload>, before: seq<Workload>, now: seq<Workload>, i: nat)
    requires Progress(up, sel, kind, was, before) && i < |was| && was[i].spec.Kind() == kind
    requires exists w :: now == before[i := w] && Reached(up, sel, was[i], w)
    ensures PartialPass(up, sel, was, now) && OthersStay(kind, was, now)
  {
    hide Quiesced, Unquiesced, Restored;
  }

  lemma ProgressIsPartial(up: bool, sel: Selection, kind: Kind, was: seq<Workload>, now: seq<Workload>)
    requires Progress(up, sel, kind, was, now)
    ensures PartialPass(up, sel, was, now)
  {
    hide Quiesced, Unquiesced, Restored;
  }

  lemma UncoveredIsDone(up: bool, sel: Selection, w: Workload, now: Workload)
    requires w.namespace !in sel.namespaces && (now == w || Done(up, sel, w, now))
    ensures Done(up, sel, w, now)
  {
  }

  /** Repeating a quiesce changes nothing more, so the parked values are never overwritten by zeros. */
  lemma QuiesceIsIdempotent(sel: Selection, w: Workload)
    ensures Quiesced(sel, Quiesced(sel, w)) == Quiesced(sel, w)
  {
  }

  // ---------------------------------------------------------------- repeated passes

  predicate NothingParked(w: Workload) {
    Replicas !in w.annotations && Paused !in w.annotations && NodeSelector !in w.annotations
  }

  /** Equal up to a nil node selector having become an empty one. */
  predicate Same(a: Workload, b: Workload) {
    && a.(spec := b.spec) == b
    && (a.spec == b.spec ||
        (a.spec.DaemonSet? && b.spec.DaemonSet? &&
         a.spec.nodeSelector.GetOr(map[]) == b.spec.nodeSelector.GetOr(map[])))
  }

  lemma ToInt32RoundTrip(n: int32)
    ensures ToInt32(n) == n
  {
  }

  lemma ParkedRoundTrip(w: Workload)
    requires !w.spec.DaemonSet?
    ensures TextAt(Parked(w), Replicas).Some? && Atoi(TextAt(Parked(w), Replicas).value) == Some(w.spec.replicas)
    ensures Scaled(0, w.spec.replicas) == w.spec.replicas
  {
    AtoiFormatInt(w.spec.replicas);
    ToInt32RoundTrip(w.spec.replicas);
    hide Atoi, FormatInt;
  }

  /** Quiescing has something to do on the workload. */
  predicate Touches(sel: Selection, w: Workload) {
    && QuiesceSelects(sel, w)
    && if w.spec.DaemonSet? then QuiesceNodeSelector !in w.spec.nodeSelector.GetOr(map[]) else w.spec.replicas != 0
  }

  /** The workload is quiesced under one selection, and not found again under the other. */
  predicate Stranded(selDown: Selection, selUp: Selection, w: Workload) {
    Touches(selDown, w) && !UnquiesceSelects(selUp, w)
  }

  /** Under one and the same selection only a StatefulSet can be: unquiescing looks at other volumes of it. */
  lemma StrandedUnderOneSelection(sel: Selection, w: Workload)
    ensures Stranded(sel, sel, w) <==>
              && w.spec.StatefulSet? && w.spec.replicas != 0
              && Covers(sel, w.namespace, w.spec.claims) && !Covers(sel, w.namespace, w.volumes)
  {
    hide Covers;
  }

  /** Unquiescing, under whatever selection, what was quiesced under another gives the workload back,
      replicas, paused flag, node selector and annotations, exactly when it is not stranded between them;
      and then a repetition is harmless. */
  lemma UnquiesceUndoesQuiesce(selDown: Selection, selUp: Selection, w: Workload)
    requires NothingParked(w)
    ensures Restored(selUp, Quiesced(selDown, w)).Some?
    ensures var back := Restored(selUp, Quiesced(selDown, w)).value;
            && (Same(w, back) <==> !Stranded(selDown, selUp, w))
            && (Same(w, back) ==> NothingParked(back) && Restored(selUp, back) == Unquiesced(selUp, back) == Some(back))
            && (Stranded(selDown, selUp, w) ==> back == Quiesced(selDown, w))
  {
    hide Covers, Atoi, FormatInt, ToInt32;
    if !Touches(selDown, w) {
      assert Quiesced(selDown, w) == w;
    } else if w.spec.DaemonSet? {
      assert Quiesced(selDown, w).annotations - {NodeSelector} == w.annotations;
    } else {
      ScaledUpAgain(selUp, w);
    }
  }

  lemma ScaledUpAgain(sel: Selection, w: Workload)
    requires NothingParked(w) && !w.spec.DaemonSet? && w.spec.replicas != 0
    ensures Restored(sel, Parked(w)) == Some(if UnquiesceSelects(sel, w) then w else Parked(w))
    ensures !w.spec.DeploymentConfig? ==> Unquiesced(sel, Parked(w)) == Restored(sel, Parked(w))
    ensures UnquiesceSelects(sel, w) <==> UnquiesceSelects(sel, Parked(w))
  {
    ParkedRoundTrip(w);
    hide Covers, Atoi, FormatInt, ToInt32;
    assert Parked(w).annotations - {Replicas} - {Paused} == w.annotations;
    assert !w.spec.Deployment? && !w.spec.DeploymentConfig? ==> Parked(w).annotations - {Replicas} == w.annotations;
  }

  ghost predicate Passes(up: bool, sel: Selection, states: seq<seq<Workload>>) {
    && |states| > 1
    && (forall k :: 0 <= k < |states| - 1 ==> PartialPass(up, sel, states[k], states[k + 1]))
    && FullPass(up, sel, states[|states| - 2], states[|states| - 1])
  }

  lemma {:induction false} DuringQuiesce(sel: Selection, states: seq<seq<Workload>>, k: nat)
    requires k < |states|
    requires forall j :: 0 <= j < |states| - 1 ==> PartialPass(false, sel, states[j], states[j + 1])
    ensures |states[k]| == |states[0]|
    ensures forall i :: 0 <= i < |states[0]| ==> states[k][i] in {states[0][i], Quiesced(sel, states[0][i])}
  {
    if k > 0 {
      DuringQuiesce(sel, states, k - 1);
      assert PartialPass(false, sel, states[k - 1], states[k - 1 + 1]);
      forall i | 0 <= i < |states[0]|
        ensures states[k][i] in {states[0][i], Quiesced(sel, states[0][i])}
      {
        QuiesceIsIdempotent(sel, states[0][i]);
        hide Quiesced;
      }
    }
  }

  /** Between its parked and its restored form, a workload never shows anything else. */
  ghost predicate Settles(sel: Selection, w: Workload, back: Workload) {
    && Restored(sel, w) == Unquiesced(sel, w) == Some(back)
    && Restored(sel, back) == Unquiesced(sel, back) == Some(back)
  }

  lemma {:induction false} DuringUnquiesce(sel: Selection, states: seq<seq<Workload>>, k: nat)
    requires k < |states|
    requires forall j :: 0 <= j < |states| - 1 ==> PartialPass(true, sel, states[j], states[j + 1])
    ensures |states[k]| == |states[0]|
    ensures forall i, back :: 0 <= i < |states[0]| && Settles(sel, states[0][i], back) ==>
              states[k][i] in {states[0][i], back}
  {
    hide Restored, Unquiesced;
    if k > 0 {
      DuringUnquiesce(sel, states, k - 1);
      assert PartialPass(true, sel, states[k - 1], states[k - 1 + 1]);
    }
  }

  predicate NeverSelected(selDown: Selection, selUp: Selection, w: Workload) {
    !QuiesceSelects(selDown, w) && !UnquiesceSelects(selUp, w)
  }

  /** A DeploymentConfig that has something to be quiesced and is found again. */
  predicate TwoWrites(selDown: Selection, selUp: Selection, w: Workload) {
    w.spec.DeploymentConfig? && Touches(selDown, w) && UnquiesceSelects(selUp, w)
  }

  /** A DeploymentConfig whose unquiesce is cut between its two writes keeps its replicas but is left
      unpaused with the parked flag in its annotations, and no later pass changes that. */
  lemma DeploymentConfigCutBetweenWrites(selDown: Selection, selUp: Selection, w: Workload)
    requires NothingParked(w) && TwoWrites(selDown, selUp, w)
    ensures Unquiesced(selUp, Quiesced(selDown, w)).Some?
    ensures var half := Unquiesced(selUp, Quiesced(selDown, w)).value;
            && half.spec == DeploymentConfig(w.spec.replicas, false) && Paused in half.annotations
            && !Same(w, half)
            && (forall now :: Reached(true, selUp, half, now) ==> now == half)
  {
    ParkedRoundTrip(w);
    hide Atoi, FormatInt, ToInt32, Covers;
  }

  /** A DeploymentConfig that was quiesced and has got the first of its two unquiescing writes only. */
  predicate CutBetween(selDown: Selection, selUp: Selection, w: Workload, now: Workload) {
    TwoWrites(selDown, selUp, w) && Unquiesced(selUp, Quiesced(selDown, w)) == Some(now)
  }

  /** A quiesced DeploymentConfig that a pass reaches stays, is cut between its writes, or is restored; in
      the last two forms no pass changes it any more. */
  lemma DeploymentConfigStep(selDown: Selection, selUp: Selection, w: Workload, now: Workload, next: Workload)
    requires NothingParked(w) && TwoWrites(selDown, selUp, w)
    requires now in {Quiesced(selDown, w), w} || CutBetween(selDown, selUp, w, now)
    requires Reached(true, selUp, now, next)
    ensures CutBetween(selDown, selUp, w, now) ==> next == now
    ensures next in {Quiesced(selDown, w), w} || CutBetween(selDown, selUp, w, next)
    ensures Done(true, selUp, now, next) ==> next == w || CutBetween(selDown, selUp, w, next)
  {
    ScaledUpAgain(selUp, w);
    assert Quiesced(selDown, w) == Parked(w);
    DeploymentConfigCutBetweenWrites(selDown, selUp, w);
    assert Restored(selUp, w) == Unquiesced(selUp, w) == Some(w);
    hide Quiesced, Atoi, FormatInt, QuiesceSelects, UnquiesceSelects, Parked;
    if CutBetween(selDown, selUp, w, now) {
      assert now == Unquiesced(selUp, Quiesced(selDown, w)).value;
    }
  }

  lemma {:induction false} DuringDeploymentConfig(
    selDown: Selection, selUp: Selection, w: Workload, states: seq<seq<Workload>>, i: nat, k: nat)
    requires NothingParked(w) && TwoWrites(selDown, selUp, w)
    requires k < |states| && i < |states[0]| && states[0][i] == Quiesced(selDown, w)
    requires forall j :: 0 <= j < |states| - 1 ==> PartialPass(true, selUp, states[j], states[j + 1])
    ensures |states[k]| == |states[0]|
    ensures states[k][i] in {Quiesced(selDown, w), w} || CutBetween(selDown, selUp, w, states[k][i])
    ensures forall j :: 0 <= j <= k ==> |states[j]| == |states[0]|
    ensures forall j :: 0 <= j <= k && CutBetween(selDown, selUp, w, states[j][i]) ==> states[k][i] == states[j][i]
  {
    hide CutBetween, TwoWrites, Quiesced, Reached, QuiesceSelects;
    if k > 0 {
      DuringDeploymentConfig(selDown, selUp, w, states, i, k - 1);
      assert PartialPass(true, selUp, states[k - 1], states[k - 1 + 1]);
      DeploymentConfigStep(selDown, selUp, w, states[k - 1][i], states[k][i]);
    }
  }

  /** A DeploymentConfig that was quiesced and is found again is restored exactly when no pass was cut
      between its writes. */
  lemma DeploymentConfigRestored(
    selDown: Selection, selUp: Selection, w: Workload, up: seq<seq<Workload>>, i: nat)
    requires NothingParked(w) && TwoWrites(selDown, selUp, w)
    requires Passes(true, selUp, up) && i < |up[0]| && up[0][i] == Quiesced(selDown, w)
    ensures |up[|up| - 1]| == |up[0]| && forall k :: 0 <= k < |up| ==> |up[k]| == |up[0]|
    ensures Same(w, up[|up| - 1][i]) <==> forall k :: 0 <= k < |up| ==> !CutBetween(selDown, selUp, w, up[k][i])
    ensures Same(w, up[|up| - 1][i]) ==> up[|up| - 1][i] == w
  {
    hide Quiesced, QuiesceSelects, Reached, Done, CutBetween, TwoWrites, Same;
    var n := |up| - 1;
    DuringDeploymentConfig(selDown, selUp, w, up, i, n - 1);
    DuringDeploymentConfig(selDown, selUp, w, up, i, n);
    assert Done(true, selUp, up[n - 1][i], up[n][i]);
    DeploymentConfigStep(selDown, selUp, w, up[n - 1][i], up[n][i]);
    CutIsNotSame(selDown, selUp, w, up[n][i]);
  }

  lemma CutIsNotSame(selDown: Selection, selUp: Selection, w: Workload, now: Workload)
    requires NothingParked(w) && TwoWrites(selDown, selUp, w)
    ensures CutBetween(selDown, selUp, w, now) ==> !Same(w, now)
    ensures Same(w, w)
  {
    DeploymentConfigCutBetweenWrites(selDown, selUp, w);
    hide Quiesced, Unquiesced, QuiesceSelects, UnquiesceSelects, Touches;
  }

  /** Main result: after any number of quiesce passes cut short at any object, the last one complete,
      and any number of unquiesce passes under any other selection, cut short, the last one complete, a
      workload that began without parked values is what it was exactly when it is not stranded between the
      two selections, and not a DeploymentConfig of which a pass was cut between its two writes; and a
      workload that neither direction selects never changes at all. */
  lemma RepeatedPassesRestore(selDown: Selection, selUp: Selection, down: seq<seq<Workload>>, up: seq<seq<Workload>>)
    requires Passes(false, selDown, down) && Passes(true, selUp, up) && up[0] == down[|down| - 1]
    ensures forall k :: 0 <= k < |up| ==> |up[k]| == |down[0]|
    ensures forall i :: 0 <= i < |down[0]| && NothingParked(down[0][i]) ==>
              (Same(down[0][i], up[|up| - 1][i]) <==>
                 && !Stranded(selDown, selUp, down[0][i])
                 && forall k :: 0 <= k < |up| ==> !CutBetween(selDown, selUp, down[0][i], up[k][i]))
    ensures forall i :: 0 <= i < |down[0]| && NothingParked(down[0][i]) && Same(down[0][i], up[|up| - 1][i]) ==>
              NothingParked(up[|up| - 1][i])
    ensures forall i, k ::
              0 <= i < |down[0]| && 0 <= k < |down| && !QuiesceSelects(selDown, down[0][i]) ==>
                |down[k]| == |down[0]| && down[k][i] == down[0][i]
    ensures forall i, k ::
              0 <= i < |down[0]| && 0 <= k < |up| && NeverSelected(selDown, selUp, down[0][i]) ==>
                up[k][i] == down[0][i]
  {
    var m, n := |down| - 1, |up| - 1;
    DuringQuiesce(selDown, down, m - 1);
    forall k | 0 <= k < |up| ensures |up[k]| == |down[0]| { DuringUnquiesce(selUp, up, k); }
    forall i | 0 <= i < |down[0]| ensures up[0][i] == Quiesced(selDown, down[0][i]) {
      QuiesceIsIdempotent(selDown, down[0][i]);
      assert Done(false, selDown, down[m - 1][i], down[m][i]);
    }
    forall i | 0 <= i < |down[0]| && NothingParked(down[0][i])
      ensures Same(down[0][i], up[n][i]) <==>
                && !Stranded(selDown, selUp, down[0][i])
                && forall k :: 0 <= k < |up| ==> !CutBetween(selDown, selUp, down[0][i], up[k][i])
      ensures Same(down[0][i], up[n][i]) ==> NothingParked(up[n][i])
    {
      OneRestored(selDown, selUp, down[0][i], up, i);
    }
    forall i, k | 0 <= i < |down[0]| && 0 <= k < |down| && !QuiesceSelects(selDown, down[0][i])
      ensures |down[k]| == |down[0]| && down[k][i] == down[0][i]
    {
      DuringQuiesce(selDown, down, k);
    }
    forall i, k | 0 <= i < |down[0]| && 0 <= k < |up| && NeverSelected(selDown, selUp, down[0][i])
      ensures up[k][i] == down[0][i]
    {
      DuringUnquiesce(selUp, up, k);
      assert Settles(selUp, down[0][i], down[0][i]);
    }
  }

  /** The same for one workload, from its quiesced form. */
  lemma OneRestored(selDown: Selection, selUp: Selection, w: Workload, up: seq<seq<Workload>>, i: nat)
    requires Passes(true, selUp, up) && i < |up[0]| && up[0][i] == Quiesced(selDown, w) && NothingParked(w)
    requires forall k :: 0 <= k < |up| ==> |up[k]| == |up[0]|
    ensures var last := up[|up| - 1][i];
            && (Same(w, last) <==>
                  !Stranded(selDown, selUp, w) && forall k :: 0 <= k < |up| ==> !CutBetween(selDown, selUp, w, up[k][i]))
            && (Same(w, last) ==> NothingParked(last))
  {
    var n := |up| - 1;
    hide Quiesced, Restored, Unquiesced, Same, QuiesceSelects, UnquiesceSelects, Touches;
    if TwoWrites(selDown, selUp, w) {
      DeploymentConfigRestored(selDown, selUp, w, up, i);
    } else {
      UnquiesceUndoesQuiesce(selDown, selUp, w);
      QuiescedSettles(selDown, selUp, w);
      hide Stranded;
      var back := Restored(selUp, Quiesced(selDown, w)).value;
      DuringUnquiesce(selUp, up, n - 1);
      assert Done(true, selUp, up[n - 1][i], up[n][i]);
      assert up[n][i] == back;
    }
  }

  /** Any other workload has one form only to come back to. */
  lemma QuiescedSettles(selDown: Selection, selUp: Selection, w: Workload)
    requires NothingParked(w) && !TwoWrites(selDown, selUp, w)
    ensures Restored(selUp, Quiesced(selDown, w)).Some?
    ensures Settles(selUp, Quiesced(selDown, w), Restored(selUp, Quiesced(selDown, w)).value)
  {
    hide Covers, Atoi, FormatInt, ToInt32;
    if !Touches(selDown, w) {
      assert Quiesced(selDown, w) == w;
    } else if w.spec.DaemonSet? {
      assert Quiesced(selDown, w).annotations - {NodeSelector} == w.annotations;
    } else {
      assert Quiesced(selDown, w) == Parked(w);
      ScaledUpAgain(selUp, w);
    }
  }

  // ---------------------------------------------------------------- what each direction writes

  /** The workload scaled to 0 and not paused, with its count and flag parked. */
  predicate ScaledToZero(w: Workload, down: Workload)
    requires !w.spec.DaemonSet?
  {
    && down.spec.Kind() == w.spec.Kind() && down.spec.replicas == 0 && !PausedOf(down)
    && (w.spec.StatefulSet? ==> down.spec.claims == w.spec.claims)
    && (w.spec.ReplicaSet? ==> down.spec.owned == w.spec.owned)
    && ParkedNumber(down) == Some(w.spec.replicas as int)
    && (HasFlag(w) ==> ParkedFlag(down) == Some(PausedOf(w)))
    && down.annotations - ParkedKeys(w) == w.annotations - ParkedKeys(w)
  }

  /** The DaemonSet with a selector that no node has on top of its own, which is parked. */
  predicate Unschedulable(w: Workload, down: Workload)
    requires w.spec.DaemonSet?
  {
    && down.spec.DaemonSet? && down.spec.nodeSelector.Some?
    && QuiesceNodeSelector in down.spec.nodeSelector.value
    && down.spec.nodeSelector.value[QuiesceNodeSelector] == "true"
    && down.spec.nodeSelector.value - {QuiesceNodeSelector} == w.spec.nodeSelector.GetOr(map[])
    && NodeSelector in down.annotations
    && down.annotations[NodeSelector] == Json(w.spec.nodeSelector.GetOr(map[]))
    && down.annotations - {NodeSelector} == w.annotations - {NodeSelector}
  }

  lemma ParkedIsScaledToZero(w: Workload)
    requires !w.spec.DaemonSet?
    ensures ScaledToZero(w, Parked(w))
  {
    ParkedRoundTrip(w);
    hide Atoi, FormatInt, ToInt32;
  }

  /** Quiescing takes down what it touches: no replicas and not paused, or, for a DaemonSet, a node selector
      that no node has. What it parks is the old value, and nothing else changes. */
  lemma QuiescedIsDown(sel: Selection, w: Workload)
    ensures !Touches(sel, w) ==> Quiesced(sel, w) == w
    ensures Touches(sel, w) ==>
              var down := Quiesced(sel, w);
              && down.namespace == w.namespace && down.volumes == w.volumes
              && if w.spec.DaemonSet? then Unschedulable(w, down) else ScaledToZero(w, down)
  {
    hide QuiesceSelects, Covers, ScaledToZero;
    if !w.spec.DaemonSet? { ParkedIsScaledToZero(w); }
  }

  /** Only Deployments and DeploymentConfigs can be paused. */
  predicate HasFlag(w: Workload) { w.spec.Deployment? || w.spec.DeploymentConfig? }

  predicate PausedOf(w: Workload) {
    match w.spec
    case Deployment(_, paused) => paused
    case DeploymentConfig(_, paused) => paused
    case _ => false
  }

  function ParkedKeys(w: Workload): set<AnnotationKey> {
    if HasFlag(w) then {Replicas, Paused} else {Replicas}
  }

  function ParkedNumber(w: Workload): Option<int> {
    if TextAt(w, Replicas).Some? then Atoi(TextAt(w, Replicas).value) else None
  }

  function ParkedFlag(w: Workload): Option<bool> {
    if TextAt(w, Paused).Some? then ParseBool(TextAt(w, Paused).value) else None
  }

  /** The conversion to int32 keeps the value modulo 2^32, and so every value in range. */
  lemma ToInt32Keeps(n: int)
    ensures (ToInt32(n) - n) % 0x1_0000_0000 == 0
    ensures -0x8000_0000 <= n < 0x8000_0000 ==> ToInt32(n) == n
  {
  }

  /** Which parked values stop a pass: those that cannot be parsed, of a workload that is selected and was
      parked. The paused flag is only read beside a parked count. */
  lemma UnparsableExactly(sel: Selection, w: Workload)
    ensures Unparsable(true, sel, w) <==>
              && UnquiesceSelects(sel, w)
              && if w.spec.DaemonSet? then NodeSelector in w.annotations && !w.annotations[NodeSelector].Json?
                 else
                   && Replicas in w.annotations
                   && (ParkedNumber(w).None? || (HasFlag(w) && Paused in w.annotations && ParkedFlag(w).None?))
  {
    hide Covers, Atoi, ParseBool, ToInt32;
    if !w.spec.DaemonSet? && Replicas in w.annotations {
      assert Paused in w.annotations - {Replicas} <==> Paused in w.annotations;
    }
  }

  /** Unquiescing a selected workload with a parked count, whoever changed it in the meantime: a count
      other than 0 stays, at 0 the parked one comes back, the parked flag comes back in either case, and
      the annotations are gone in either case. */
  lemma UnquiesceRestores(sel: Selection, w: Workload)
    requires UnquiesceSelects(sel, w) && !w.spec.DaemonSet? && Replicas in w.annotations
    requires Restored(sel, w).Some?
    ensures ParkedNumber(w).Some?
    ensures var back, n := Restored(sel, w).value, ParkedNumber(w).value;
            && back.spec.Kind() == w.spec.Kind() && back.namespace == w.namespace && back.volumes == w.volumes
            && (w.spec.StatefulSet? ==> back.spec.claims == w.spec.claims)
            && (w.spec.ReplicaSet? ==> back.spec.owned == w.spec.owned)
            && (w.spec.replicas != 0 ==> back.spec.replicas == w.spec.replicas)
            && (w.spec.replicas == 0 && -0x8000_0000 <= n < 0x8000_0000 ==> back.spec.replicas == n)
            && (w.spec.replicas == 0 ==> (back.spec.replicas - n) % 0x1_0000_0000 == 0)
            && (HasFlag(w) && Paused in w.annotations ==> ParkedFlag(w) == Some(PausedOf(back)))
            && (HasFlag(w) && Paused !in w.annotations ==> PausedOf(back) == PausedOf(w))
            && back.annotations == w.annotations - ParkedKeys(w)
  {
    ToInt32Keeps(ParkedNumber(w).GetOr(0));
    hide Covers, Atoi, ParseBool, ToInt32;
    assert w.annotations - {Replicas} - {Paused} == w.annotations - {Replicas, Paused};
    if HasFlag(w) && Paused !in w.annotations {
      assert w.annotations - {Replicas} == w.annotations - {Replicas, Paused};
    }
  }

  /** A DaemonSet gets its parked node selector back while the one it has is still the quiescing one. */
  lemma UnquiesceRestoresSelector(sel: Selection, w: Workload)
    requires UnquiesceSelects(sel, w) && w.spec.DaemonSet? && NodeSelector in w.annotations
    requires Restored(sel, w).Some?
    ensures w.annotations[NodeSelector].Json?
    ensures var back := Restored(sel, w).value;
            && back.(spec := w.spec, annotations := w.annotations) == w
            && (if QuiesceNodeSelector in w.spec.nodeSelector.GetOr(map[])
                then back.spec == DaemonSet(Some(w.annotations[NodeSelector].selector))
                     && back.annotations == w.annotations - {NodeSelector}
                else back == w)
  {
    hide Covers;
  }

  /** What the passes of an unquiesce may have made of the replica count: it is as it was, or it was 0 and
      is the parked one. */
  predicate CountKept(w: Workload, now: Workload) {
    && now.spec.Kind() == w.spec.Kind()
    && (!w.spec.DaemonSet? ==>
          || (now.spec.replicas == w.spec.replicas
              && (Replicas in now.annotations ==>
                    Replicas in w.annotations && now.annotations[Replicas] == w.annotations[Replicas]))
          || (w.spec.replicas == 0 && ParkedNumber(w).Some? && now.spec.replicas == ToInt32(ParkedNumber(w).value)
              && Replicas !in now.annotations))
  }

  lemma StepKeepsCount(sel: Selection, w: Workload, now: Workload)
    requires Reached(true, sel, w, now)
    ensures CountKept(w, now)
  {
    hide Covers, Atoi, ParseBool, ToInt32;
  }

  lemma CountKeptIsTransitive(a: Workload, b: Workload, c: Workload)
    requires CountKept(a, b) && CountKept(b, c)
    ensures CountKept(a, c)
  {
    hide Atoi, ToInt32;
  }

  /** Over any passes, cut short or not: a workload that somebody has scaled up keeps its count in every
      state, whatever is parked in its annotations, and one at 0 shows nothing but 0 and the parked count. */
  lemma {:induction false} CountsDuringUnquiesce(sel: Selection, states: seq<seq<Workload>>, k: nat)
    requires k < |states|
    requires forall j :: 0 <= j < |states| - 1 ==> PartialPass(true, sel, states[j], states[j + 1])
    ensures |states[k]| == |states[0]|
    ensures forall i :: 0 <= i < |states[0]| ==> CountKept(states[0][i], states[k][i])
    ensures forall i :: 0 <= i < |states[0]| && !states[0][i].spec.DaemonSet? ==>
              && !states[k][i].spec.DaemonSet?
              && (states[0][i].spec.replicas != 0 ==> states[k][i].spec.replicas == states[0][i].spec.replicas)
  {
    hide Reached, CountKept, Restored, Unquiesced;
    if k > 0 {
      CountsDuringUnquiesce(sel, states, k - 1);
      assert PartialPass(true, sel, states[k - 1], states[k - 1 + 1]);
      forall i | 0 <= i < |states[0]| ensures CountKept(states[0][i], states[k][i]) {
        StepKeepsCount(sel, states[k - 1][i], states[k][i]);
        CountKeptIsTransitive(states[0][i], states[k - 1][i], states[k][i]);
      }
    } else {
      forall i | 0 <= i < |states[0]| ensures CountKept(states[0][i], states[k][i]) {
        CountIsKept(states[0][i], states[0][i]);
      }
    }
    forall i | 0 <= i < |states[0]| && !states[0][i].spec.DaemonSet?
      ensures !states[k][i].spec.DaemonSet?
      ensures states[0][i].spec.replicas != 0 ==> states[k][i].spec.replicas == states[0][i].spec.replicas
    {
      CountIsKept(states[0][i], states[k][i]);
    }
  }

  lemma CountIsKept(w: Workload, now: Workload)
    ensures CountKept(w, w)
    ensures CountKept(w, now) && !w.spec.DaemonSet? ==>
              !now.spec.DaemonSet? && (w.spec.replicas != 0 ==> now.spec.replicas == w.spec.replicas)
  {
  }
}
