/** Storage live migration of a virtual machine: renaming its volumes to their targets, and back.
    pkg/controller/directvolumemigration/vm.go. */
module VmUpdate {
  import opened Wrappers

  /** A volume names a claim or a DataVolume; other kinds of volume name neither. */
  datatype Volume = Volume(claim: Option<string>, dataVolume: Option<string>)

  /** The storage class named in a DataVolume template, if any. */
  type StorageClassName = Option<string>

  datatype Template = Template(name: string, storage: Option<StorageClassName>, pvc: Option<StorageClassName>)

  datatype Strategy = Unset | Replacement | Migration

  /** `spec.template` may be nil. */
  datatype Vm = Vm(name: string, volumes: Option<seq<Volume>>, templates: seq<Template>, strategy: Strategy)

  datatype Lookup = Found | NoMatch | LookupFailed

  /** Answers of the API server during one pass: creating the adopting DataVolume for volume j of source i,
      the storage class of a claim (None on failure), and the final update. */
  datatype Answers = Answers(lookup: Lookup, adopts: (nat, nat) -> bool, storageClass: string -> Option<string>,
                             updates: bool)

  /** `Crash`: the controller dereferences the nil template of a machine. */
  datatype Error = VolumesDoNotMatch | ClientError | Crash

  // ---------------------------------------------------------------- names

  /** All pairs at once: the last pair whose source is the name. */
  function Subst(x: string, sources: seq<string>, targets: seq<string>, n: nat): string
    requires n <= |sources| == |targets|
  {
    if n == 0 then x else if sources[n - 1] == x then targets[n - 1] else Subst(x, sources, targets, n - 1)
  }

  /** One pair after the other. */
  function Chain(x: string, sources: seq<string>, targets: seq<string>, n: nat): string
    requires n <= |sources| == |targets|
  {
    if n == 0 then x
    else
      var y := Chain(x, sources, targets, n - 1);
      if y == sources[n - 1] then targets[n - 1] else y
  }

  predicate Distinct(s: seq<string>) {
    forall i, j :: 0 <= i < j < |s| ==> s[i] != s[j]
  }

  /** No target is a source that comes later. */
  predicate NoLaterSource(sources: seq<string>, targets: seq<string>)
    requires |sources| == |targets|
  {
    forall i, k :: 0 <= i < k < |sources| ==> targets[i] != sources[k]
  }

  lemma {:induction false} SubstAt(sources: seq<string>, targets: seq<string>, n: nat, i: nat)
    requires i < n <= |sources| == |targets| && Distinct(sources)
    ensures Subst(sources[i], sources, targets, n) == targets[i]
  {
    if i < n - 1 { SubstAt(sources, targets, n - 1, i); }
  }

  lemma {:induction false} SubstElsewhere(x: string, sources: seq<string>, targets: seq<string>, n: nat)
    requires n <= |sources| == |targets| && x !in sources[..n]
    ensures Subst(x, sources, targets, n) == x
  {
    if n > 0 {
      assert sources[n - 1] in sources[..n];
      assert sources[..n - 1] == sources[..n][..n - 1];
      SubstElsewhere(x, sources, targets, n - 1);
    }
  }

  lemma {:induction false} ChainUntouched(x: string, sources: seq<string>, targets: seq<string>, m: nat, n: nat)
    requires m <= n <= |sources| == |targets|
    requires forall k :: m <= k < n ==> sources[k] != Chain(x, sources, targets, m)
    ensures Chain(x, sources, targets, n) == Chain(x, sources, targets, m)
  {
    if m < n { ChainUntouched(x, sources, targets, m, n - 1); }
  }

  /** Once a name has been replaced, the chain ends on the target of its last replacement. */
  lemma {:induction false} ChainEndsOnTarget(x: string, sources: seq<string>, targets: seq<string>, m: nat, n: nat)
    requires m < n <= |sources| == |targets|
    requires Chain(x, sources, targets, m + 1) == targets[m]
    ensures exists k :: m <= k < n && Chain(x, sources, targets, n) == targets[k]
                        && (k == m ==> targets[m] !in sources[m + 1..n])
  {
    if m == n - 1 {
      assert Chain(x, sources, targets, n) == targets[m];
    } else {
      ChainEndsOnTarget(x, sources, targets, m, n - 1);
      var k :| m <= k < n - 1 && Chain(x, sources, targets, n - 1) == targets[k]
               && (k == m ==> targets[m] !in sources[m + 1..n - 1]);
      assert sources[m + 1..n] == sources[m + 1..n - 1] + [sources[n - 1]];
      if sources[n - 1] == targets[k] {
        assert Chain(x, sources, targets, n) == targets[n - 1];
      } else {
        assert Chain(x, sources, targets, n) == targets[k];
      }
    }
  }

  lemma ChainFollowsSubst(x: string, sources: seq<string>, targets: seq<string>)
    requires |sources| == |targets| && Distinct(sources) && NoLaterSource(sources, targets)
    ensures Chain(x, sources, targets, |sources|) == Subst(x, sources, targets, |sources|)
  {
    var n := |sources|;
    if x in sources {
      var i :| 0 <= i < n && sources[i] == x;
      ChainUntouched(x, sources, targets, 0, i);
      assert Chain(x, sources, targets, i + 1) == targets[i];
      ChainUntouched(x, sources, targets, i + 1, n);
      SubstAt(sources, targets, n, i);
    } else {
      assert sources[..n] == sources;
      ChainUntouched(x, sources, targets, 0, n);
      SubstElsewhere(x, sources, targets, n);
    }
  }

  /** For distinct sources and distinct targets, renaming one after the other equals renaming all at once,
      for every name, exactly when no target is a later source. */
  lemma ChainIsSubst(sources: seq<string>, targets: seq<string>)
    requires |sources| == |targets| && Distinct(sources) && Distinct(targets)
    ensures (forall x :: Chain(x, sources, targets, |sources|) == Subst(x, sources, targets, |sources|))
            <==> NoLaterSource(sources, targets)
  {
    var n := |sources|;
    if NoLaterSource(sources, targets) {
      forall x ensures Chain(x, sources, targets, n) == Subst(x, sources, targets, n) {
        ChainFollowsSubst(x, sources, targets);
      }
    } else {
      var i, k :| 0 <= i < k < n && targets[i] == sources[k];
      var x := sources[i];
      ChainUntouched(x, sources, targets, 0, i);
      assert Chain(x, sources, targets, i + 1) == targets[i];
      ChainEndsOnTarget(x, sources, targets, i, n);
      assert sources[k] == sources[i + 1..n][k - i - 1];
      SubstAt(sources, targets, n, i);
    }
  }

  /** There and back restores a name exactly when it is not a target alone. */
  lemma ThereAndBack(x: string, sources: seq<string>, targets: seq<string>)
    requires |sources| == |targets| && Distinct(sources) && Distinct(targets)
    ensures Subst(Subst(x, sources, targets, |sources|), targets, sources, |sources|) == x
            <==> (x in targets ==> x in sources)
  {
    var n := |sources|;
    assert sources[..n] == sources && targets[..n] == targets;
    if x in sources {
      var i :| 0 <= i < n && sources[i] == x;
      SubstAt(sources, targets, n, i);
      SubstAt(targets, sources, n, i);
    } else {
      SubstElsewhere(x, sources, targets, n);
      if x in targets {
        var i :| 0 <= i < n && targets[i] == x;
        SubstAt(targets, sources, n, i);
      } else {
        SubstElsewhere(x, targets, sources, n);
      }
    }
  }

  // ---------------------------------------------------------------- the update

  function RenamedOption(x: Option<string>, sources: seq<string>, targets: seq<string>, n: nat): Option<string>
    requires n <= |sources| == |targets|
  {
    if x.None? then None else Some(Subst(x.value, sources, targets, n))
  }

  function RenamedVolume(v: Volume, sources: seq<string>, targets: seq<string>, n: nat): Volume
    requires n <= |sources| == |targets|
  {
    Volume(RenamedOption(v.claim, sources, targets, n), RenamedOption(v.dataVolume, sources, targets, n))
  }

  function Renamed(volumes: seq<Volume>, sources: seq<string>, targets: seq<string>, n: nat): (r: seq<Volume>)
    requires n <= |sources| == |targets|
    ensures |r| == |volumes| && forall j :: 0 <= j < |r| ==> r[j] == RenamedVolume(volumes[j], sources, targets, n)
  {
    seq(|volumes|, j requires 0 <= j < |volumes| => RenamedVolume(volumes[j], sources, targets, n))
  }

  predicate Uses(volumes: seq<Volume>, name: string) {
    exists j :: 0 <= j < |volumes| && (volumes[j].claim == Some(name) || volumes[j].dataVolume == Some(name))
  }

  /** The claim whose storage class a template takes: the target, if a volume was renamed to it. */
  function ClaimOf(volumes: seq<Volume>, source: string, target: string): string {
    if Uses(volumes, source) then target else ""
  }

  /** A template renamed, with the storage class of its new claim. */
  function Rehomed(t: Template, name: string, class_: string): Template {
    if t.storage.Some? then Template(name, Some(Some(class_)), t.pvc)
    else if t.pvc.Some? then Template(name, None, Some(Some(class_)))
    else Template(name, None, None)
  }

  function TemplateAfter(t: Template, volumes: seq<Volume>, sources: seq<string>, targets: seq<string>,
                         answers: Answers, n: nat): Template
    requires n <= |sources| == |targets|
  {
    if n == 0 then t
    else
      var before := TemplateAfter(t, volumes, sources, targets, answers, n - 1);
      if before.name != sources[n - 1] then before
      else Rehomed(before, targets[n - 1],
                   answers.storageClass(ClaimOf(volumes, sources[n - 1], targets[n - 1])).GetOr(""))
  }

  function TemplatesAfter(templates: seq<Template>, volumes: seq<Volume>, sources: seq<string>, targets: seq<string>,
                          answers: Answers, n: nat): (r: seq<Template>)
    requires n <= |sources| == |targets|
    ensures |r| == |templates|
    ensures forall j :: 0 <= j < |r| ==>
              r[j] == TemplateAfter(templates[j], volumes, sources, targets, answers, n)
  {
    seq(|templates|, j requires 0 <= j < |templates| =>
      TemplateAfter(templates[j], volumes, sources, targets, answers, n))
  }

  predicate Adopted(volumes: seq<Volume>, source: string, answers: Answers, i: nat) {
    forall j: nat :: j < |volumes| && volumes[j].dataVolume == Some(source) ==> answers.adopts(i, j)
  }

  predicate HasTemplate(templates: seq<Template>, name: string) {
    exists j :: 0 <= j < |templates| && templates[j].name == name
  }

  /** Every call made for pair i succeeds. */
  predicate PairSucceeds(volumes: seq<Volume>, templates: seq<Template>, sources: seq<string>, targets: seq<string>,
                         answers: Answers, i: nat)
    requires i < |sources| == |targets|
  {
    && Adopted(volumes, sources[i], answers, i)
    && (HasTemplate(TemplatesAfter(templates, volumes, sources, targets, answers, i), sources[i]) ==>
          answers.storageClass(ClaimOf(volumes, sources[i], targets[i])).Some?)
  }

  predicate PairsSucceed(vm: Vm, sources: seq<string>, targets: seq<string>, answers: Answers)
    requires |sources| == |targets|
  {
    forall i: nat :: i < |sources| ==>
      PairSucceeds(vm.volumes.GetOr([]), vm.templates, sources, targets, answers, i)
  }

  /** The machine that `updateVM` writes. */
  function Migrated(vm: Vm, sources: seq<string>, targets: seq<string>, answers: Answers): Vm
    requires |sources| == |targets|
  {
    var volumes := vm.volumes.GetOr([]);
    Vm(vm.name,
       if vm.volumes.None? then None else Some(Renamed(volumes, sources, targets, |sources|)),
       TemplatesAfter(vm.templates, volumes, sources, targets, answers, |sources|),
       Migration)
  }

  /** `updateVM`: the stored machine afterwards, and the error. */
  function Update(vm: Vm, sources: seq<string>, targets: seq<string>, answers: Answers): (Vm, Option<Error>)
    requires |sources| == |targets|
  {
    if vm.name == "" then (vm, None)
    else if vm.volumes.None? && sources != [] then (vm, Some(Crash))
    else if !PairsSucceed(vm, sources, targets, answers) then (vm, Some(ClientError))
    else
      var migrated := Migrated(vm, sources, targets, answers);
      if migrated == vm then (vm, None)
      else if answers.updates then (migrated, None)
      else (vm, Some(ClientError))
  }

  /** The name `compareVolumes` looks at. */
  function Seen(v: Volume): Option<string> {
    if v.claim.Some? then v.claim else v.dataVolume
  }

  function CountSeen(volumes: seq<Volume>, names: seq<string>): nat {
    if volumes == [] then 0
    else
      var last := Seen(volumes[|volumes| - 1]);
      CountSeen(volumes[..|volumes| - 1], names) + if last.Some? && last.value in names then 1 else 0
  }

  /** `compareVolumes` */
  predicate Compare(vm: Vm, names: seq<string>) {
    vm.volumes.Some? ==> CountSeen(vm.volumes.value, names) == |names|
  }

  /** `storageLiveMigrateVM` */
  function LiveMigrated(vm: Vm, sources: seq<string>, targets: seq<string>, answers: Answers): (Vm, Option<Error>)
    requires |sources| == |targets|
  {
    match answers.lookup
    case NoMatch => (vm, None)
    case LookupFailed => (vm, Some(ClientError))
    case Found =>
      if !Compare(vm, sources) then (vm, if Compare(vm, targets) then None else Some(VolumesDoNotMatch))
      else Update(vm, sources, targets, answers)
  }

  /** `cancelLiveMigration` */
  function Cancelled(vm: Vm, sources: seq<string>, targets: seq<string>, answers: Answers): (Vm, Option<Error>)
    requires |sources| == |targets|
  {
    match answers.lookup
    case NoMatch => (vm, None)
    case LookupFailed => (vm, Some(ClientError))
    case Found => Update(vm, targets, sources, answers)
  }

  /** The API server's copy of one virtual machine. */
  class Machine {
    var vm: Vm

    constructor (vm: Vm)
      ensures this.vm == vm
    {
      this.vm := vm;
    }

    method CompareVolumes(names: seq<string>) returns (same: bool)
      ensures same == Compare(vm, names)
    {
      if vm.volumes.None? {
        return true;
      }
      var found, volumes := 0, vm.volumes.value;
      for j := 0 to |volumes|
        invariant found == CountSeen(volumes[..j], names)
      {
        assert volumes[..j + 1][..j] == volumes[..j];
        if volumes[j].claim.Some? {
          if volumes[j].claim.value in names {
            found := found + 1;
          }
        } else if volumes[j].dataVolume.Some? {
          if volumes[j].dataVolume.value in names {
            found := found + 1;
          }
        }
      }
      assert volumes[..|volumes|] == volumes;
      same := found == |names|;
    }

    /** The first inner loop of `updateVM`: pair i on the copied volumes. `known` is the map from source
        names to claims. */
    method RenameVolumes(copy: seq<Volume>, known: map<string, string>, sources: seq<string>, targets: seq<string>,
                         answers: Answers, i: nat)
      returns (renamed: seq<Volume>, known': map<string, string>, ok: bool)
      requires vm.volumes.Some? && i < |sources| == |targets|
      requires copy == Renamed(vm.volumes.value, sources, targets, i)
      requires forall x :: x in known ==> Uses(vm.volumes.value, x)
      ensures ok <==> Adopted(vm.volumes.value, sources[i], answers, i)
      ensures ok ==> renamed == Renamed(vm.volumes.value, sources, targets, i + 1)
      ensures forall x :: x in known' ==> Uses(vm.volumes.value, x)
      ensures ok && Uses(vm.volumes.value, sources[i]) ==> sources[i] in known' && known'[sources[i]] == targets[i]
    {
      renamed, known', ok := copy, known, true;
      var volumes := vm.volumes.value;
      for j := 0 to |volumes|
        invariant |renamed| == |volumes|
        invariant forall k :: 0 <= k < j ==> renamed[k] == RenamedVolume(volumes[k], sources, targets, i + 1)
        invariant forall k :: j <= k < |volumes| ==> renamed[k] == RenamedVolume(volumes[k], sources, targets, i)
        invariant Adopted(volumes[..j], sources[i], answers, i)
        invariant forall x :: x in known' ==> Uses(volumes, x)
        invariant Uses(volumes[..j], sources[i]) ==> sources[i] in known' && known'[sources[i]] == targets[i]
      {
        var volume := volumes[j];
        assert volumes[..j + 1] == volumes[..j] + [volume];
        if volume.claim == Some(sources[i]) {
          renamed := renamed[j := renamed[j].(claim := Some(targets[i]))];
          known' := known'[sources[i] := targets[i]];
        }
        if volume.dataVolume == Some(sources[i]) {
          if !answers.adopts(i, j) {
            return renamed, known', false;
          }
          renamed := renamed[j := renamed[j].(dataVolume := Some(targets[i]))];
          known' := known'[sources[i] := targets[i]];
        }
      }
      assert volumes[..|volumes|] == volumes;
    }

    /** The second inner loop: pair i on the copied templates. */
    method RenameTemplates(copy: seq<Template>, known: map<string, string>, sources: seq<string>, targets: seq<string>,
                           answers: Answers, i: nat)
      returns (renamed: seq<Template>, ok: bool)
      requires vm.volumes.Some? && i < |sources| == |targets|
      requires copy == TemplatesAfter(vm.templates, vm.volumes.value, sources, targets, answers, i)
      requires (if sources[i] in known then known[sources[i]] else "") == ClaimOf(vm.volumes.value, sources[i], targets[i])
      ensures ok <==> (HasTemplate(copy, sources[i]) ==>
                         answers.storageClass(ClaimOf(vm.volumes.value, sources[i], targets[i])).Some?)
      ensures ok ==> renamed == TemplatesAfter(vm.templates, vm.volumes.value, sources, targets, answers, i + 1)
    {
      renamed, ok := copy, true;
      var class_ := answers.storageClass(ClaimOf(vm.volumes.value, sources[i], targets[i]));
      for j := 0 to |copy|
        invariant |renamed| == |copy|
        invariant forall k :: 0 <= k < j ==>
                    renamed[k] == TemplateAfter(vm.templates[k], vm.volumes.value, sources, targets, answers, i + 1)
        invariant forall k :: j <= k < |copy| ==> renamed[k] == copy[k]
        invariant class_.None? ==> forall k :: 0 <= k < j ==> copy[k].name != sources[i]
      {
        if renamed[j].name == sources[i] {
          renamed := renamed[j := renamed[j].(name := targets[i])];
          var pvcName := if sources[i] in known then known[sources[i]] else "";
          var sc := answers.storageClass(pvcName);
          if sc.None? {
            return renamed, false;
          }
          if renamed[j].storage.Some? {
            renamed := renamed[j := renamed[j].(storage := Some(Some(sc.value)))];
          } else if renamed[j].pvc.Some? {
            renamed := renamed[j := renamed[j].(pvc := Some(Some(sc.value)))];
          }
        }
      }
    }

    /** `updateVM`. Every source has its target. */
    method UpdateVM(sources: seq<string>, targets: seq<string>, answers: Answers) returns (error: Option<Error>)
      requires |sources| == |targets|
      modifies this
      ensures (vm, error) == Update(old(vm), sources, targets, answers)
    {
      hide Renamed, TemplatesAfter, PairSucceeds, Uses;
      if vm.name == "" {
        return None;
      }
      NothingRenamed(vm, sources, targets, answers);
      var volumes, templates := vm.volumes.GetOr([]), vm.templates;
      var known: map<string, string> := map[];
      for i := 0 to |sources|
        invariant vm == old(vm) && (i > 0 ==> vm.volumes.Some?)
        invariant volumes == Renamed(vm.volumes.GetOr([]), sources, targets, i)
        invariant templates == TemplatesAfter(vm.templates, vm.volumes.GetOr([]), sources, targets, answers, i)
        invariant forall x :: x in known ==> Uses(vm.volumes.GetOr([]), x)
        invariant forall k: nat :: k < i ==>
                    PairSucceeds(vm.volumes.GetOr([]), vm.templates, sources, targets, answers, k)
      {
        if vm.volumes.None? {
          return Some(Crash);
        }
        var ok: bool, okTemplates: bool;
        ghost var before := templates;
        volumes, known, ok := RenameVolumes(volumes, known, sources, targets, answers, i);
        if !ok {
          PairFails(vm, sources, targets, answers, i);
          return Some(ClientError);
        }
        templates, okTemplates := RenameTemplates(templates, known, sources, targets, answers, i);
        if !okTemplates {
          PairFails(vm, sources, targets, answers, i);
          return Some(ClientError);
        }
        PairPasses(vm, sources, targets, answers, i);
      }
      var vmCopy := Vm(vm.name, if vm.volumes.None? then None else Some(volumes), templates, Migration);
      if vmCopy != vm {
        if !answers.updates {
          return Some(ClientError);
        }
        vm := vmCopy;
      }
      return None;
    }

    /** `storageLiveMigrateVM` */
    method StorageLiveMigrateVM(sources: seq<string>, targets: seq<string>, answers: Answers)
      returns (error: Option<Error>)
      requires |sources| == |targets|
      modifies this
      ensures (vm, error) == LiveMigrated(old(vm), sources, targets, answers)
    {
      hide Compare, Update;
      match answers.lookup {
        case NoMatch => return None;
        case LookupFailed => return Some(ClientError);
        case Found =>
      }
      var same := CompareVolumes(sources);
      if !same {
        var already := CompareVolumes(targets);
        if already {
          return None;
        } else {
          return Some(VolumesDoNotMatch);
        }
      }
      error := UpdateVM(sources, targets, answers);
    }

    /** `cancelLiveMigration` */
    method CancelLiveMigration(sources: seq<string>, targets: seq<string>, answers: Answers)
      returns (error: Option<Error>)
      requires |sources| == |targets|
      modifies this
      ensures (vm, error) == Cancelled(old(vm), sources, targets, answers)
    {
      match answers.lookup {
        case NoMatch => return None;
        case LookupFailed => return Some(ClientError);
        case Found =>
      }
      error := UpdateVM(targets, sources, answers);
    }
  }

  lemma NothingRenamed(vm: Vm, sources: seq<string>, targets: seq<string>, answers: Answers)
    requires |sources| == |targets|
    ensures Renamed(vm.volumes.GetOr([]), sources, targets, 0) == vm.volumes.GetOr([])
    ensures TemplatesAfter(vm.templates, vm.volumes.GetOr([]), sources, targets, answers, 0) == vm.templates
  {
  }

  lemma PairFails(vm: Vm, sources: seq<string>, targets: seq<string>, answers: Answers, i: nat)
    requires i < |sources| == |targets| && vm.volumes.Some?
    requires var volumes := vm.volumes.value;
             || !Adopted(volumes, sources[i], answers, i)
             || (HasTemplate(TemplatesAfter(vm.templates, volumes, sources, targets, answers, i), sources[i])
                 && answers.storageClass(ClaimOf(volumes, sources[i], targets[i])).None?)
    ensures !PairsSucceed(vm, sources, targets, answers)
  {
    assert !PairSucceeds(vm.volumes.GetOr([]), vm.templates, sources, targets, answers, i);
  }

  lemma PairPasses(vm: Vm, sources: seq<string>, targets: seq<string>, answers: Answers, i: nat)
    requires i < |sources| == |targets| && vm.volumes.Some?
    requires var volumes := vm.volumes.value;
             && Adopted(volumes, sources[i], answers, i)
             && (HasTemplate(TemplatesAfter(vm.templates, volumes, sources, targets, answers, i), sources[i]) ==>
                   answers.storageClass(ClaimOf(volumes, sources[i], targets[i])).Some?)
    ensures PairSucceeds(vm.volumes.GetOr([]), vm.templates, sources, targets, answers, i)
  {
  }

  // ---------------------------------------------------------------- what an update is for

  lemma {:induction false} TemplateName(t: Template, volumes: seq<Volume>, sources: seq<string>, targets: seq<string>,
                                        answers: Answers, n: nat)
    requires n <= |sources| == |targets|
    ensures TemplateAfter(t, volumes, sources, targets, answers, n).name == Chain(t.name, sources, targets, n)
  {
    if n > 0 { TemplateName(t, volumes, sources, targets, answers, n - 1); }
  }

  lemma {:induction false} TemplateUntouched(t: Template, volumes: seq<Volume>, sources: seq<string>,
                                             targets: seq<string>, answers: Answers, m: nat, n: nat)
    requires m <= n <= |sources| == |targets|
    requires forall k :: m <= k < n ==> sources[k] != TemplateAfter(t, volumes, sources, targets, answers, m).name
    ensures TemplateAfter(t, volumes, sources, targets, answers, n) == TemplateAfter(t, volumes, sources, targets, answers, m)
  {
    if m < n { TemplateUntouched(t, volumes, sources, targets, answers, m, n - 1); }
  }

  /** The template of a source ends with the target's name and the storage class of the target claim, or of
      the claim named "" when no volume used the source. */
  lemma TemplateFollowsItsClaim(t: Template, volumes: seq<Volume>, sources: seq<string>, targets: seq<string>,
                                answers: Answers, i: nat)
    requires |sources| == |targets| && Distinct(sources) && NoLaterSource(sources, targets)
    requires i < |sources| && t.name == sources[i]
    requires answers.storageClass(if Uses(volumes, sources[i]) then targets[i] else "").Some?
    ensures var after := TemplateAfter(t, volumes, sources, targets, answers, |sources|);
            var class_ := answers.storageClass(if Uses(volumes, sources[i]) then targets[i] else "");
            && after.name == targets[i]
            && (t.storage.Some? ==> after.storage == Some(class_) && after.pvc == t.pvc)
            && (t.storage.None? && t.pvc.Some? ==> after.pvc == Some(class_))
            && after.storage.Some? == t.storage.Some? && after.pvc.Some? == t.pvc.Some?
  {
    TemplateUntouched(t, volumes, sources, targets, answers, 0, i);
    assert TemplateAfter(t, volumes, sources, targets, answers, i + 1).name == targets[i];
    TemplateUntouched(t, volumes, sources, targets, answers, i + 1, |sources|);
  }

  /** No name in use is a target without being a source. */
  predicate TargetsUnused(vm: Vm, sources: seq<string>, targets: seq<string>) {
    forall x :: x in targets && x !in sources ==> !Uses(vm.volumes.GetOr([]), x)
  }

  predicate TemplateTargetsUnused(vm: Vm, sources: seq<string>, targets: seq<string>) {
    forall x :: x in targets && x !in sources ==> !HasTemplate(vm.templates, x)
  }

  predicate SameTemplateNames(a: Vm, b: Vm) {
    |a.templates| == |b.templates| && forall j :: 0 <= j < |a.templates| ==> a.templates[j].name == b.templates[j].name
  }

  /** Main result: cancelling an update brings every volume back exactly when no volume outside the
      sources already used a target name. Sources and targets may overlap. */
  lemma CancelRestoresVolumes(vm: Vm, sources: seq<string>, targets: seq<string>, there: Answers, back: Answers)
    requires |sources| == |targets| && Distinct(sources) && Distinct(targets)
    ensures Migrated(Migrated(vm, sources, targets, there), targets, sources, back).volumes == vm.volumes
            <==> TargetsUnused(vm, sources, targets)
  {
    var volumes, n := vm.volumes.GetOr([]), |sources|;
    var once := Renamed(volumes, sources, targets, n);
    var twice := Renamed(once, targets, sources, n);
    forall j | 0 <= j < |volumes|
      ensures twice[j] == volumes[j] <==> VolumeUnambiguous(volumes[j], sources, targets)
    {
      VolumeThereAndBack(volumes[j], sources, targets);
    }
    if TargetsUnused(vm, sources, targets) {
      forall j | 0 <= j < |volumes| ensures VolumeUnambiguous(volumes[j], sources, targets) {
        assert volumes[j].claim.Some? ==> Uses(volumes, volumes[j].claim.value);
        assert volumes[j].dataVolume.Some? ==> Uses(volumes, volumes[j].dataVolume.value);
      }
      assert twice == volumes;
    } else {
      var x :| x in targets && x !in sources && Uses(volumes, x);
      var j :| 0 <= j < |volumes| && (volumes[j].claim == Some(x) || volumes[j].dataVolume == Some(x));
      assert !VolumeUnambiguous(volumes[j], sources, targets);
      assert twice[j] != volumes[j];
    }
  }

  predicate VolumeUnambiguous(v: Volume, sources: seq<string>, targets: seq<string>) {
    && (v.claim.Some? && v.claim.value in targets ==> v.claim.value in sources)
    && (v.dataVolume.Some? && v.dataVolume.value in targets ==> v.dataVolume.value in sources)
  }

  lemma VolumeThereAndBack(v: Volume, sources: seq<string>, targets: seq<string>)
    requires |sources| == |targets| && Distinct(sources) && Distinct(targets)
    ensures RenamedVolume(RenamedVolume(v, sources, targets, |sources|), targets, sources, |sources|) == v
            <==> VolumeUnambiguous(v, sources, targets)
  {
    hide Subst;
    if v.claim.Some? { ThereAndBack(v.claim.value, sources, targets); }
    if v.dataVolume.Some? { ThereAndBack(v.dataVolume.value, sources, targets); }
  }

  predicate Disjoint(sources: seq<string>, targets: seq<string>) {
    forall x :: x in sources ==> x !in targets
  }

  /** The same for the names of the DataVolume templates, which are renamed one pair after the other: for
      lists without common names they come back under the same condition. */
  lemma CancelRestoresTemplateNames(vm: Vm, sources: seq<string>, targets: seq<string>, there: Answers, back: Answers)
    requires |sources| == |targets| && Distinct(sources) && Distinct(targets) && Disjoint(sources, targets)
    ensures SameTemplateNames(Migrated(Migrated(vm, sources, targets, there), targets, sources, back), vm)
            <==> TemplateTargetsUnused(vm, sources, targets)
  {
    var twice := Migrated(Migrated(vm, sources, targets, there), targets, sources, back).templates;
    forall j | 0 <= j < |vm.templates|
      ensures twice[j].name == vm.templates[j].name <==>
                (vm.templates[j].name in targets ==> vm.templates[j].name in sources)
    {
      TemplateThereAndBack(vm, sources, targets, there, back, j);
    }
    hide Migrated;
    if !TemplateTargetsUnused(vm, sources, targets) {
      var x :| x in targets && x !in sources && HasTemplate(vm.templates, x);
      var j :| 0 <= j < |vm.templates| && vm.templates[j].name == x;
      assert twice[j].name != vm.templates[j].name;
    } else {
      forall j | 0 <= j < |vm.templates| ensures twice[j].name == vm.templates[j].name {
        assert HasTemplate(vm.templates, vm.templates[j].name);
      }
    }
  }

  lemma DisjointHasNoLaterSource(sources: seq<string>, targets: seq<string>)
    requires |sources| == |targets| && Disjoint(sources, targets)
    ensures NoLaterSource(sources, targets) && NoLaterSource(targets, sources)
  {
    assert forall i, k :: 0 <= i < |sources| && 0 <= k < |sources| ==> sources[i] in sources && targets[k] in targets;
  }

  lemma TemplateThereAndBack(vm: Vm, sources: seq<string>, targets: seq<string>, there: Answers, back: Answers, j: nat)
    requires |sources| == |targets| && Distinct(sources) && Distinct(targets) && Disjoint(sources, targets)
    requires j < |vm.templates|
    ensures var name := vm.templates[j].name;
            Migrated(Migrated(vm, sources, targets, there), targets, sources, back).templates[j].name == name
            <==> (name in targets ==> name in sources)
  {
    hide Chain, Subst, TemplateAfter, Renamed;
    var once := Migrated(vm, sources, targets, there);
    var name := vm.templates[j].name;
    TemplateName(vm.templates[j], vm.volumes.GetOr([]), sources, targets, there, |sources|);
    TemplateName(once.templates[j], once.volumes.GetOr([]), targets, sources, back, |sources|);
    DisjointHasNoLaterSource(sources, targets);
    ChainFollowsSubst(name, sources, targets);
    ChainFollowsSubst(once.templates[j].name, targets, sources);
    ThereAndBack(name, sources, targets);
  }

  // ---------------------------------------------------------------- repeating a migration

  lemma {:induction false} CountAfter(volumes: seq<Volume>, sources: seq<string>, targets: seq<string>)
    requires |sources| == |targets| && Distinct(sources) && Disjoint(sources, targets)
    ensures var after := Renamed(volumes, sources, targets, |sources|);
            && CountSeen(after, sources) == 0
            && CountSeen(after, targets) == CountSeen(volumes, sources) + CountSeen(volumes, targets)
  {
    var after := Renamed(volumes, sources, targets, |sources|);
    if volumes != [] {
      var n := |volumes| - 1;
      CountAfter(volumes[..n], sources, targets);
      assert after[..n] == Renamed(volumes[..n], sources, targets, |sources|);
      var last := Seen(volumes[n]);
      if last.Some? {
        assert sources[..|sources|] == sources;
        if last.value in sources {
          var i :| 0 <= i < |sources| && sources[i] == last.value;
          SubstAt(sources, targets, |sources|, i);
        } else {
          SubstElsewhere(last.value, sources, targets, |sources|);
        }
      }
    }
  }

  /** Some volume that `compareVolumes` looks at has one of the names. */
  predicate SeesAny(volumes: seq<Volume>, names: seq<string>) {
    exists j :: 0 <= j < |volumes| && Seen(volumes[j]).Some? && Seen(volumes[j]).value in names
  }

  lemma {:induction false} CountIsZero(volumes: seq<Volume>, names: seq<string>)
    ensures CountSeen(volumes, names) == 0 <==> !SeesAny(volumes, names)
  {
    if volumes != [] {
      var n := |volumes| - 1;
      CountIsZero(volumes[..n], names);
      assert forall j :: 0 <= j < n ==> volumes[..n][j] == volumes[j];
      if SeesAny(volumes[..n], names) {
        var j :| 0 <= j < n && Seen(volumes[..n][j]).Some? && Seen(volumes[..n][j]).value in names;
        assert Seen(volumes[j]).Some? && Seen(volumes[j]).value in names;
      }
    }
  }

  /** Main result: once a pass has found the machine and met no client error, no later pass changes it,
      whatever the API server answers then. */
  lemma SecondPassChangesNothing(vm: Vm, sources: seq<string>, targets: seq<string>, first: Answers, second: Answers)
    requires |sources| == |targets| && Distinct(sources) && Disjoint(sources, targets)
    requires first.lookup.Found? && LiveMigrated(vm, sources, targets, first).1 != Some(ClientError)
    ensures var after := LiveMigrated(vm, sources, targets, first).0;
            LiveMigrated(after, sources, targets, second).0 == after
  {
    var after := LiveMigrated(vm, sources, targets, first).0;
    if vm.volumes.Some? && sources != [] && Compare(vm, sources) && vm.name != "" {
      CountAfter(vm.volumes.value, sources, targets);
      hide Migrated;
      MigratedVolumes(vm, sources, targets, first);
      assert after == Migrated(vm, sources, targets, first);
    } else if sources == [] {
      NothingRenamed(vm, sources, targets, first);
      NothingRenamed(after, sources, targets, second);
    }
  }

  lemma MigratedVolumes(vm: Vm, sources: seq<string>, targets: seq<string>, answers: Answers)
    requires |sources| == |targets| && vm.volumes.Some?
    ensures Migrated(vm, sources, targets, answers).volumes == Some(Renamed(vm.volumes.value, sources, targets, |sources|))
  {
  }

  /** After a successful rename the later pass reports that volumes do not match exactly when a volume
      already had a target name before. */
  lemma SecondPassReports(vm: Vm, sources: seq<string>, targets: seq<string>, first: Answers, second: Answers)
    requires |sources| == |targets| && Distinct(sources) && Disjoint(sources, targets)
    requires vm.name != "" && vm.volumes.Some? && sources != [] && Compare(vm, sources)
    requires first.lookup.Found? && second.lookup.Found? && LiveMigrated(vm, sources, targets, first).1.None?
    ensures var after := LiveMigrated(vm, sources, targets, first).0;
            LiveMigrated(after, sources, targets, second).1 ==
              if SeesAny(vm.volumes.value, targets) then Some(VolumesDoNotMatch) else None
  {
    CountAfter(vm.volumes.value, sources, targets);
    CountIsZero(vm.volumes.value, targets);
    MigratedVolumes(vm, sources, targets, first);
    hide Migrated, SeesAny;
    var after := LiveMigrated(vm, sources, targets, first).0;
    assert after == Migrated(vm, sources, targets, first);
  }

  // ---------------------------------------------------------------- what an update stores

  /** The stored strategy is Migration after every update without an error and after every change; an error
      leaves the machine as it was; nothing is added to it or taken from it, and its name stays. */
  ghost predicate StoresMigration(vm: Vm, after: Vm, error: Option<Error>, updated: bool) {
    && (updated && vm.name != "" && error.None? ==> after.strategy == Migration)
    && (after != vm ==> after.strategy == Migration && updated && error.None?)
    && after.name == vm.name
    && after.volumes.Some? == vm.volumes.Some?
    && |after.volumes.GetOr([])| == |vm.volumes.GetOr([])|
    && |after.templates| == |vm.templates|
  }

  lemma UpdateStoresMigration(vm: Vm, sources: seq<string>, targets: seq<string>, answers: Answers)
    requires |sources| == |targets|
    ensures var (after, error) := Update(vm, sources, targets, answers);
            StoresMigration(vm, after, error, true)
  {
    hide PairsSucceed, RenamedVolume, TemplateAfter;
  }

  /** Main result: of a live migration that finds the machine with its sources, and of every cancellation. */
  lemma LiveMigrationStoresMigration(vm: Vm, sources: seq<string>, targets: seq<string>, answers: Answers)
    requires |sources| == |targets|
    ensures var (after, error) := LiveMigrated(vm, sources, targets, answers);
            StoresMigration(vm, after, error, answers.lookup.Found? && Compare(vm, sources))
    ensures var (after, error) := Cancelled(vm, sources, targets, answers);
            StoresMigration(vm, after, error, answers.lookup.Found?)
  {
    UpdateStoresMigration(vm, sources, targets, answers);
    UpdateStoresMigration(vm, targets, sources, answers);
    hide Update, Compare;
  }

  function NameAfter(name: Option<string>, sources: seq<string>, targets: seq<string>, i: nat): Option<string>
    requires i < |sources| == |targets|
  {
    if name == Some(sources[i]) then Some(targets[i]) else name
  }

  lemma OptionFollows(x: Option<string>, sources: seq<string>, targets: seq<string>)
    requires |sources| == |targets| && Distinct(sources)
    ensures var after := RenamedOption(x, sources, targets, |sources|);
            && (forall i :: 0 <= i < |sources| && x == Some(sources[i]) ==> after == Some(targets[i]))
            && (x.None? || x.value !in sources ==> after == x)
  {
    assert sources[..|sources|] == sources;
    if x.Some? {
      if x.value in sources {
        var i :| 0 <= i < |sources| && sources[i] == x.value;
        SubstAt(sources, targets, |sources|, i);
      } else {
        SubstElsewhere(x.value, sources, targets, |sources|);
      }
    }
  }

  /** After an update without an error every claim and every DataVolume named by a source is named by its
      target, and no other name has changed; a target that is a later source is not renamed again. */
  lemma VolumesFollow(vm: Vm, sources: seq<string>, targets: seq<string>, answers: Answers, j: nat)
    requires |sources| == |targets| && Distinct(sources) && vm.name != ""
    requires vm.volumes.Some? && j < |vm.volumes.value|
    requires Update(vm, sources, targets, answers).1.None?
    ensures var after := Update(vm, sources, targets, answers).0;
            && after.volumes.Some? && j < |after.volumes.value|
            && var was, now := vm.volumes.value[j], after.volumes.value[j];
            && (forall i :: 0 <= i < |sources| ==>
                  && (was.claim == Some(sources[i]) ==> now.claim == Some(targets[i]))
                  && (was.dataVolume == Some(sources[i]) ==> now.dataVolume == Some(targets[i])))
            && (was.claim.None? || was.claim.value !in sources ==> now.claim == was.claim)
            && (was.dataVolume.None? || was.dataVolume.value !in sources ==> now.dataVolume == was.dataVolume)
  {
    OptionFollows(vm.volumes.value[j].claim, sources, targets);
    OptionFollows(vm.volumes.value[j].dataVolume, sources, targets);
    hide PairsSucceed, TemplateAfter, RenamedOption;
  }

  /** What an update's error tells: the crash is that of a machine without a template, a failed adoption
      stops it, and without a failing call there is no client error. */
  lemma UpdateErrors(vm: Vm, sources: seq<string>, targets: seq<string>, answers: Answers)
    requires |sources| == |targets|
    ensures var (after, error) := Update(vm, sources, targets, answers);
            && (error.Some? ==> after == vm)
            && error != Some(VolumesDoNotMatch)
            && (error == Some(Crash) <==> vm.name != "" && vm.volumes.None? && sources != [])
            && (vm.name != "" && vm.volumes.Some?
                && (exists i: nat, j: nat :: i < |sources| && j < |vm.volumes.value|
                                             && vm.volumes.value[j].dataVolume == Some(sources[i]) && !answers.adopts(i, j)) ==>
                  error == Some(ClientError))
            && (error == Some(ClientError) ==>
                  || !answers.updates
                  || (exists x :: answers.storageClass(x).None?)
                  || (exists i: nat, j: nat :: !answers.adopts(i, j)))
  {
    hide Migrated, TemplatesAfter, HasTemplate;
    var (after, error) := Update(vm, sources, targets, answers);
    if vm.name != "" && vm.volumes.Some? {
      if i: nat, j: nat :| i < |sources| && j < |vm.volumes.value|
                           && vm.volumes.value[j].dataVolume == Some(sources[i]) && !answers.adopts(i, j) {
        assert !Adopted(vm.volumes.value, sources[i], answers, i);
        assert !PairSucceeds(vm.volumes.GetOr([]), vm.templates, sources, targets, answers, i);
      }
    }
  }

  /** The error of a live migration: a machine that cannot be read, whose volumes match neither list, or whose
      update fails. It is left alone when it cannot be read or its sources do not match. */
  lemma LiveMigrationErrors(vm: Vm, sources: seq<string>, targets: seq<string>, answers: Answers)
    requires |sources| == |targets|
    ensures var (after, error) := LiveMigrated(vm, sources, targets, answers);
            && (answers.lookup.LookupFailed? ==> error == Some(ClientError))
            && (answers.lookup.NoMatch? ==> error.None?)
            && (!answers.lookup.Found? || !Compare(vm, sources) ==> after == vm)
            && (error == Some(VolumesDoNotMatch) <==>
                  answers.lookup.Found? && !Compare(vm, sources) && !Compare(vm, targets))
            && (answers.lookup.Found? && !Compare(vm, sources) && Compare(vm, targets) ==> error.None?)
            && (answers.lookup.Found? && Compare(vm, sources) ==> error == Update(vm, sources, targets, answers).1)
  {
    UpdateErrors(vm, sources, targets, answers);
    hide Update, Compare;
  }

  /** Main result: cancelling a live migration that succeeded, without an error, gives every volume the claims
      it had, exactly when no volume outside the sources used a target. */
  lemma CancellingUndoes(vm: Vm, sources: seq<string>, targets: seq<string>, there: Answers, back: Answers)
    requires |sources| == |targets| && Distinct(sources) && Distinct(targets)
    requires vm.name != "" && there.lookup.Found? && back.lookup.Found? && Compare(vm, sources)
    requires LiveMigrated(vm, sources, targets, there).1.None?
    requires Cancelled(LiveMigrated(vm, sources, targets, there).0, sources, targets, back).1.None?
    ensures Cancelled(LiveMigrated(vm, sources, targets, there).0, sources, targets, back).0.volumes == vm.volumes
            <==> TargetsUnused(vm, sources, targets)
  {
    var migrated := Migrated(vm, sources, targets, there);
    UpdateWithoutError(vm, sources, targets, there);
    UpdateWithoutError(migrated, targets, sources, back);
    hide Update, Compare, Migrated;
    assert LiveMigrated(vm, sources, targets, there).0 == migrated;
    assert migrated.name != "";
    CancelRestoresVolumes(vm, sources, targets, there, back);
  }

  lemma UpdateWithoutError(vm: Vm, sources: seq<string>, targets: seq<string>, answers: Answers)
    requires |sources| == |targets| && vm.name != ""
    ensures Update(vm, sources, targets, answers).1.None? ==>
              Update(vm, sources, targets, answers).0 == Migrated(vm, sources, targets, answers)
    ensures Migrated(vm, sources, targets, answers).name == vm.name
  {
  }

  // ---------------------------------------------------------------- comparing volumes

  predicate SeesName(volumes: seq<Volume>, name: string) {
    exists j :: 0 <= j < |volumes| && Seen(volumes[j]) == Some(name)
  }

  predicate SeenOnce(volumes: seq<Volume>) {
    forall i, j :: 0 <= i < j < |volumes| && Seen(volumes[i]).Some? ==> Seen(volumes[i]) != Seen(volumes[j])
  }

  /** The listed names that are seen. */
  function SeenOf(volumes: seq<Volume>, names: seq<string>): set<string> {
    set x | x in names && SeesName(volumes, x)
  }

  function NamesOf(names: seq<string>): set<string> { set x | x in names }

  lemma {:induction false} NamesAreAsMany(names: seq<string>)
    requires Distinct(names)
    ensures |NamesOf(names)| == |names|
  {
    if names != [] {
      var n := |names| - 1;
      NamesAreAsMany(names[..n]);
      assert names[n] !in names[..n];
      assert NamesOf(names) == NamesOf(names[..n]) + {names[n]};
    }
  }

  lemma {:induction false} CountIsOfNames(volumes: seq<Volume>, names: seq<string>)
    requires SeenOnce(volumes)
    ensures CountSeen(volumes, names) == |SeenOf(volumes, names)|
  {
    if volumes == [] {
      assert SeenOf(volumes, names) == {};
    } else {
      var n := |volumes| - 1;
      var rest, last := volumes[..n], Seen(volumes[n]);
      CountIsOfNames(rest, names);
      SeenGrows(volumes);
      if last.Some? && last.value in names {
        assert SeenOf(volumes, names) == SeenOf(rest, names) + {last.value};
      } else {
        assert SeenOf(volumes, names) == SeenOf(rest, names);
      }
    }
  }

  lemma SeenGrows(volumes: seq<Volume>)
    requires volumes != [] && SeenOnce(volumes)
    ensures var n := |volumes| - 1;
            && (forall x :: SeesName(volumes, x) <==> SeesName(volumes[..n], x) || Seen(volumes[n]) == Some(x))
            && (Seen(volumes[n]).Some? ==> !SeesName(volumes[..n], Seen(volumes[n]).value))
            && SeenOnce(volumes[..n])
  {
    hide Seen;
    var n := |volumes| - 1;
    assert forall j :: 0 <= j < n ==> volumes[..n][j] == volumes[j];
    forall x ensures SeesName(volumes, x) <==> SeesName(volumes[..n], x) || Seen(volumes[n]) == Some(x) {
      if SeesName(volumes[..n], x) {
        var j :| 0 <= j < n && Seen(volumes[..n][j]) == Some(x);
        assert Seen(volumes[j]) == Some(x);
      }
    }
  }

  /** For distinct names, and a machine none of whose volumes repeats another, the counts agree exactly when
      every name is in use. */
  lemma ComparesNames(vm: Vm, names: seq<string>)
    requires vm.volumes.Some? && Distinct(names) && SeenOnce(vm.volumes.value)
    ensures Compare(vm, names) <==> forall x :: x in names ==> SeesName(vm.volumes.value, x)
  {
    CountIsOfNames(vm.volumes.value, names);
    NamesAreAsMany(names);
    hide SeesName, SeenOnce, Distinct, CountSeen;
    var seen, all := SeenOf(vm.volumes.value, names), NamesOf(names);
    assert seen <= all;
    if |seen| == |all| {
      SubsetOfSameSize(seen, all);
      assert forall x :: x in names ==> x in all;
    }
    if forall x :: x in names ==> SeesName(vm.volumes.value, x) {
      assert seen == all;
    }
  }

  lemma SubsetOfSameSize(a: set<string>, b: set<string>)
    requires a <= b && |a| == |b|
    ensures a == b
  {
    assert |b - a| == |b| - |a|;
  }

  /** With a volume repeated the counts mislead in both directions. */
  lemma CompareMiscounts(a: string, b: string)
    requires a != b
    ensures var twice := [Volume(Some(a), None), Volume(Some(a), None)];
            && (forall vm: Vm :: vm.volumes == Some(twice) ==> Compare(vm, [a, b]) && !Compare(vm, [a]))
            && !SeesName(twice, b) && SeesName(twice, a)
  {
    var v := Volume(Some(a), None);
    assert Seen([v, v][0]) == Some(a);
    assert [v, v][..1] == [v] && [v][..0] == [];
    assert CountSeen([v], [a, b]) == 1 && CountSeen([v], [a]) == 1;
    assert CountSeen([v, v], [a, b]) == 2 && CountSeen([v, v], [a]) == 2;
  }
}
