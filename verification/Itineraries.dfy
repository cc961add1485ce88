/** The itinerary engine shared in shape by the direct volume, image and image-stream migration
    controllers (task.go and migrate.go of each), and the parent's reading of the volume migration
    (pkg/controller/migmigration/dvm.go).

    A reconcile builds a task from the resource's status, picks an itinerary, runs one phase, and
    writes the phase back. The three controllers differ in what an error does to the phase. */
module Itineraries {
  import opened Wrappers

  datatype Phase =
    | Created | Started | Prepare | CleanStaleRsyncResources | WaitForStaleRsyncResourcesTerminated
    | VerifyVMs | CreateDestinationNamespaces | DestinationNamespacesCreated | CreateDestinationPVCs
    | DeleteStaleVirtualMachineInstanceMigrations | CreateRsyncRoute | EnsureRsyncRouteAdmitted
    | CreateRsyncConfig | CreateStunnelConfig | CreatePVProgressCRs | CreateRsyncTransferPods
    | WaitForRsyncTransferPodsRunning | RunRsyncOperations | DeleteRsyncResources
    | WaitForRsyncResourcesTerminated | CleanupStaleVirtHandlerPods
    | ListImageStreams | CreateDirectImageStreamMigrations | WaitingForDirectImageStreamMigrationsToComplete
    | MigrateImageStream
    | MigrationFailed | Completed

  datatype Itinerary = Itinerary(name: string, steps: seq<Phase>)

  function VolumeMigration(): Itinerary {
    Itinerary("VolumeMigration", [
      Created, Started, Prepare, CleanStaleRsyncResources, WaitForStaleRsyncResourcesTerminated, VerifyVMs,
      CreateDestinationNamespaces, DestinationNamespacesCreated, CreateDestinationPVCs,
      DeleteStaleVirtualMachineInstanceMigrations, CreateRsyncRoute, EnsureRsyncRouteAdmitted,
      CreateRsyncConfig, CreateStunnelConfig, CreatePVProgressCRs, CreateRsyncTransferPods,
      WaitForRsyncTransferPodsRunning, RunRsyncOperations, DeleteRsyncResources,
      WaitForRsyncResourcesTerminated, CleanupStaleVirtHandlerPods, Completed])
  }

  function VolumeRollback(): Itinerary {
    Itinerary("VolumeMigrationRollback", [
      Created, Started, Prepare, CleanStaleRsyncResources, DeleteStaleVirtualMachineInstanceMigrations,
      WaitForStaleRsyncResourcesTerminated, RunRsyncOperations, CleanupStaleVirtHandlerPods, Completed])
  }

  function ImageMigration(): Itinerary {
    Itinerary("PVC", [
      Created, Started, Prepare, CreateDestinationNamespaces, ListImageStreams,
      CreateDirectImageStreamMigrations, WaitingForDirectImageStreamMigrationsToComplete, Completed])
  }

  function ImageStreamMigration(): Itinerary {
    Itinerary("PVC", [Created, Started, Prepare, MigrateImageStream, Completed])
  }

  /** What differs between the controllers: the two itineraries, whether `init` connects to the
      clusters, and whether an error moves the resource to MigrationFailed at once. The last two hold
      of the volume migration controller only. */
  datatype EngineSpec = EngineSpec(volume: bool, normal: Itinerary, failing: Itinerary)

  type Engine = e: EngineSpec | e.normal.steps != [] && e.failing.steps != []
    witness EngineSpec(true, FailedItinerary(""), FailedItinerary(""))

  function FailedItinerary(name: string): Itinerary { Itinerary(name, [MigrationFailed, Completed]) }

  function VolumeEngine(rollback: bool): Engine {
    EngineSpec(true, if rollback then VolumeRollback() else VolumeMigration(), FailedItinerary("VolumeMigrationFailed"))
  }

  function ImageEngine(): Engine { EngineSpec(false, ImageMigration(), FailedItinerary("Failed")) }

  function ImageStreamEngine(): Engine { EngineSpec(false, ImageStreamMigration(), FailedItinerary("Failed")) }

  datatype Category = Critical | Warn | Advisory

  /** The part of a resource's status that the engine reads and writes. `failed` is the durable
      `Failed` condition with its category; `succeeded` the durable `Succeeded` condition. */
  datatype Status = Status(
    phase: Phase, itinerary: string, errors: seq<string>, failed: Option<Category>, succeeded: bool)
  {
    /** `Task.failed` */
    predicate HasFailed() { errors != [] || failed.Some? }
  }

  const FRESH := Status(Created, "", [], None, false)

  datatype ErrorKind = Conflict | Fatal | Plain

  /** What the phase's work returns. */
  datatype Action = Done | Waiting | Errs(message: string, kind: ErrorKind) | Fails(reasons: seq<string>)

  /** The environment's choices in one reconcile: whether it stops before `migrate` or its result is
      lost, whether `init` cannot reach a cluster, and what the phase's work returns. */
  datatype Outcome = Outcome(lost: bool, initError: Option<string>, action: Action)

  // ---------------------------------------------------------------- specification

  function IndexOf(steps: seq<Phase>, phase: Phase): (i: int)
    ensures -1 <= i < |steps|
    ensures i >= 0 ==> steps[i] == phase && phase !in steps[..i]
    ensures i == -1 ==> phase !in steps
  {
    if steps == [] then -1
    else if steps[0] == phase then 0
    else
      var i := IndexOf(steps[1..], phase);
      assert i >= 0 ==> steps[..i + 1] == [steps[0]] + steps[1..][..i];
      if i < 0 then -1 else i + 1
  }

  /** The phase that `next` moves to. */
  function After(steps: seq<Phase>, phase: Phase): Phase {
    var i := IndexOf(steps, phase);
    if i < 0 || i + 1 >= |steps| then Completed else steps[i + 1]
  }

  /** `AddErrors`: append the messages that were not there before. */
  function MergedErrors(errors: seq<string>, added: seq<string>): (all: seq<string>)
    ensures errors <= all
    ensures all != [] <==> errors != [] || added != []
  {
    errors + NotIn(added, errors)
  }

  function NotIn(added: seq<string>, errors: seq<string>): (unseen: seq<string>)
    ensures errors == [] ==> unseen == added
  {
    if added == [] then []
    else (if added[0] in errors then [] else [added[0]]) + NotIn(added[1..], errors)
  }

  function Failure(s: Status, category: Category, reasons: seq<string>): Status {
    s.(errors := MergedErrors(s.errors, reasons), failed := Some(category))
  }

  function Select(e: Engine, s: Status): Itinerary {
    if s.HasFailed() then e.failing else e.normal
  }

  /** The phase the next task starts from: the first step whenever the itinerary changes. */
  function StartPhase(e: Engine, s: Status): Phase {
    if Select(e, s).name != s.itinerary then Select(e, s).steps[0] else s.phase
  }

  /** Phases whose case in `Run` only advances. */
  predicate Immediate(phase: Phase) {
    phase.Created? || phase.Started? || phase.Prepare? || phase.MigrationFailed?
  }

  datatype Ran = Ran(owner: Status, phase: Phase, error: Option<Action>)

  /** `Run` after `init`. */
  function RunPhase(s: Status, steps: seq<Phase>, phase: Phase, action: Action): Ran {
    if Immediate(phase) then Ran(s, After(steps, phase), None)
    else if phase.Completed? then Ran(s, phase, None)
    else if phase.MigrateImageStream? && action.Errs? then
      Ran(Failure(s, Advisory, [action.message]), After(steps, MigrationFailed), None)
    else match action
      case Done => Ran(s, After(steps, phase), None)
      case Waiting => Ran(s, phase, None)
      case Errs(_, _) => Ran(s, phase, Some(action))
      case Fails(reasons) =>
        var category := if phase.RunRsyncOperations? then Critical else Advisory;
        Ran(Failure(s, category, reasons), MigrationFailed, None)
  }

  /** A reconcile is over before `migrate` when the phase is Completed or a critical condition blocks it. */
  predicate Resting(s: Status) { s.phase.Completed? || s.failed == Some(Critical) }

  /** One reconcile. */
  function Migrate(e: Engine, s: Status, o: Outcome): Status {
    if Resting(s) || o.lost then s
    else
      var itinerary, phase := Select(e, s), StartPhase(e, s);
      var ran := if e.volume && o.initError.Some?
                 then Ran(s, phase, Some(Errs(o.initError.value, Plain)))
                 else RunPhase(s, itinerary.steps, phase, o.action);
      if ran.error.Some? && ran.error.value.Errs? then
        var error := ran.error.value;
        if error.kind.Conflict? then s
        else if e.volume then
          var category := if error.kind.Fatal? then Critical else Warn;
          Failure(ran.owner, category, [error.message]).(phase := MigrationFailed, itinerary := itinerary.name)
        else Failure(ran.owner, Advisory, [error.message])
      else
        var written := ran.owner.(phase := ran.phase, itinerary := itinerary.name);
        written.(succeeded := written.succeeded || (ran.phase.Completed? && written.failed.None?))
  }

  // ---------------------------------------------------------------- the engine

  class Owner {
    var phase: Phase
    var itinerary: string
    var errors: seq<string>
    var failed: Option<Category>
    var succeeded: bool

    ghost function Stored(): Status
      reads this
    {
      Status(phase, itinerary, errors, failed, succeeded)
    }

    predicate HasFailed()
      reads this
      ensures HasFailed() == Stored().HasFailed()
    {
      errors != [] || failed.Some?
    }

    constructor ()
      ensures Stored() == FRESH
    {
      phase, itinerary, errors, failed, succeeded := Created, "", [], None, false;
    }

    method AddErrors(added: seq<string>)
      modifies this`errors
      ensures errors == MergedErrors(old(errors), added)
    {
      var known := errors;
      for i := 0 to |added|
        invariant errors + NotIn(added[i..], known) == MergedErrors(known, added)
      {
        if added[i] !in known {
          errors := errors + [added[i]];
        }
        assert added[i..][1..] == added[i + 1..];
      }
    }
  }

  class Task {
    const engine: Engine
    const owner: Owner
    var phase: Phase
    var itinerary: Itinerary
    var errors: seq<string>

    constructor (engine: Engine, owner: Owner)
      ensures this.engine == engine && this.owner == owner
      ensures phase == owner.phase && errors == []
    {
      this.engine, this.owner, this.phase := engine, owner, owner.phase;
      itinerary, errors := Itinerary("", []), [];
    }

    method Init()
      requires phase == owner.phase
      modifies this`itinerary, this`phase
      ensures itinerary == Select(engine, owner.Stored())
      ensures phase == StartPhase(engine, owner.Stored())
    {
      if owner.HasFailed() {
        itinerary := engine.failing;
      } else {
        itinerary := engine.normal;
      }
      if itinerary.name != owner.itinerary {
        phase := itinerary.steps[0];
      }
    }

    method Next()
      modifies this`phase
      ensures phase == After(itinerary.steps, old(phase))
    {
      var steps, current := itinerary.steps, -1;
      for i := 0 to |steps|
        invariant phase !in steps[..i] && current == -1
      {
        if steps[i] != phase {
          continue;
        }
        current := i;
        break;
      }
      if current == -1 {
        phase := Completed;
      } else if current + 1 < |steps| {
        assert IndexOf(steps, phase) == current;
        phase := steps[current + 1];
      } else {
        assert IndexOf(steps, phase) == current;
        phase := Completed;
      }
    }

    method Fail(nextPhase: Phase, category: Category, reasons: seq<string>)
      requires errors == []
      modifies this`phase, this`errors, owner
      ensures owner.Stored() == Failure(old(owner.Stored()), category, reasons)
      ensures phase == if category.Critical? then MigrationFailed else nextPhase
    {
      errors := errors + reasons;
      assert errors == reasons;
      owner.AddErrors(errors);
      owner.failed := Some(category);
      phase := if category.Critical? then MigrationFailed else nextPhase;
    }

    /** Runs the current phase; the result is the error that the phase's work returned, if any. */
    method Run(action: Action) returns (error: Option<Action>)
      requires errors == []
      modifies this`phase, this`errors, owner
      ensures var ran := RunPhase(old(owner.Stored()), itinerary.steps, old(phase), action);
              owner.Stored() == ran.owner && phase == ran.phase && error == ran.error
      ensures error.Some? ==> errors == [] && owner.Stored() == old(owner.Stored())
    {
      hide After, MergedErrors;
      error := None;
      if phase == Created || phase == Started || phase == Prepare || phase == MigrationFailed {
        Next();
      } else if phase == Completed {
      } else if phase == MigrateImageStream && action.Errs? {
        Fail(MigrationFailed, Advisory, [action.message]);
        Next();
      } else {
        match action {
          case Done => Next();
          case Waiting =>
          case Errs(_, _) => error := Some(action);
          case Fails(reasons) =>
            Fail(MigrationFailed, if phase == RunRsyncOperations then Critical else Advisory, reasons);
        }
      }
    }
  }

  /** `Reconcile` up to the point where the status is stored. */
  method Reconcile(engine: Engine, owner: Owner, o: Outcome)
    modifies owner
    ensures owner.Stored() == Migrate(engine, old(owner.Stored()), o)
  {
    hide RunPhase, MergedErrors, After;
    if owner.phase == Completed || owner.failed == Some(Critical) || o.lost {
      return;
    }
    var task := new Task(engine, owner);
    task.Init();
    var error: Option<Action> := None;
    if engine.volume && o.initError.Some? {
      error := Some(Errs(o.initError.value, Plain));
    } else {
      error := task.Run(o.action);
    }
    if error.Some? && error.value.Errs? {
      if error.value.kind.Conflict? {
        return;
      }
      if !engine.volume {
        task.Fail(MigrationFailed, Advisory, [error.value.message]);
        return;  // the phase is not written back
      }
      task.Fail(MigrationFailed, if error.value.kind.Fatal? then Critical else Warn, [error.value.message]);
    }
    owner.phase := task.phase;
    owner.itinerary := task.itinerary.name;
    if task.phase == Completed && owner.failed.None? {
      owner.succeeded := true;
    }
  }

  predicate ReadsAsSucceeded(dvm: Status) {
    dvm.phase.Completed? && dvm.itinerary in {"VolumeMigration", "VolumeMigrationRollback"} && dvm.succeeded
  }

  predicate ReadsAsFailed(dvm: Status) {
    !ReadsAsSucceeded(dvm) && (dvm.phase.MigrationFailed? || dvm.phase.Completed?) && dvm.failed.Some?
  }

  /** `hasDirectVolumeMigrationCompleted`; `critical` tells of any critical condition on the child,
      `summary` is the one-line count of its pods and live migrations, and `lines` the progress of each. */
  method HasDirectVolumeMigrationCompleted(dvm: Status, critical: bool, summary: string, lines: seq<string>)
    returns (completed: bool, failureReasons: seq<string>, progress: seq<string>)
    ensures completed <==> ReadsAsSucceeded(dvm) || ReadsAsFailed(dvm)
    ensures failureReasons == if !ReadsAsFailed(dvm) then []
                              else if critical then dvm.errors
                              else ["direct volume migration failed. " + summary]
    ensures multiset(progress) == multiset(lines) + if completed then multiset{} else multiset{summary}
  {
    completed, failureReasons, progress := false, [], [];
    if dvm.phase == Completed && (dvm.itinerary == "VolumeMigration" || dvm.itinerary == "VolumeMigrationRollback")
       && dvm.succeeded
    {
      completed := true;
    } else if (dvm.phase == MigrationFailed || dvm.phase == Completed) && dvm.failed.Some? {
      if critical {
        failureReasons := failureReasons + dvm.errors;
      } else {
        failureReasons := failureReasons + ["direct volume migration failed. " + summary];
      }
      completed := true;
    } else {
      progress := progress + [summary];
    }
    progress := progress + lines;
  }

  // ---------------------------------------------------------------- runs

  /** Where the resource stands: the phase its next task starts from. */
  function Standing(e: Engine, s: Status): Phase {
    if s.phase.Completed? then Completed else StartPhase(e, s)
  }

  function Run(e: Engine, s: Status, outcomes: seq<Outcome>): Status
    decreases outcomes
  {
    if outcomes == [] then s else Run(e, Migrate(e, s, outcomes[0]), outcomes[1..])
  }

  /** The phases that a run leaves, in order; polling a phase again does not repeat it. */
  function Trail(e: Engine, s: Status, outcomes: seq<Outcome>): seq<Phase>
    decreases outcomes
  {
    if outcomes == [] then []
    else
      var next := Migrate(e, s, outcomes[0]);
      (if Standing(e, next) != Standing(e, s) then [Standing(e, s)] else []) + Trail(e, next, outcomes[1..])
  }

  ghost predicate Inv(e: Engine, s: Status) {
    && (s.errors != [] ==> s.failed.Some?)
    && (s.succeeded <==> s.phase.Completed? && s.failed.None?)
    && (s.failed.None? ==>
          && Standing(e, s) in e.normal.steps
          && (s.itinerary == e.normal.name || (s.itinerary == "" && s.phase.Created?)))
    && (s.failed.Some? ==>
          && Standing(e, s) in e.failing.steps
          && (e.volume ==> s.phase.MigrationFailed? || s.phase.Completed?)
          && (s.failed == Some(Critical) ==> e.volume && s.phase.MigrationFailed?))
  }

  /** Steps still ahead in the itinerary that is in force. */
  function StepsLeft(e: Engine, s: Status): nat {
    var steps := Select(e, s).steps;
    var i := IndexOf(steps, Standing(e, s));
    if i < 0 then 0 else |steps| - 1 - i
  }

  ghost predicate Distinct(steps: seq<Phase>) {
    forall i, j :: 0 <= i < j < |steps| ==> steps[i] != steps[j]
  }

  /** All that the claims below need to know about an engine's itineraries. */
  ghost predicate Simple(e: Engine) {
    && |e.normal.steps| > 1 && Distinct(e.normal.steps) && MigrationFailed !in e.normal.steps
    && e.normal.steps[0].Created? && e.normal.steps[|e.normal.steps| - 1].Completed?
    && e.failing.steps == [MigrationFailed, Completed]
    && e.failing.name != e.normal.name && e.failing.name != "" && e.normal.name != ""
    && (if e.volume then MigrateImageStream else RunRsyncOperations) !in e.normal.steps
  }

  /** Place of a phase in the volume itinerary. */
  function Place(phase: Phase): int {
    match phase
    case Created => 0 case Started => 1 case Prepare => 2 case CleanStaleRsyncResources => 3
    case WaitForStaleRsyncResourcesTerminated => 4 case VerifyVMs => 5
    case CreateDestinationNamespaces => 6 case DestinationNamespacesCreated => 7
    case CreateDestinationPVCs => 8 case DeleteStaleVirtualMachineInstanceMigrations => 9
    case CreateRsyncRoute => 10 case EnsureRsyncRouteAdmitted => 11 case CreateRsyncConfig => 12
    case CreateStunnelConfig => 13 case CreatePVProgressCRs => 14 case CreateRsyncTransferPods => 15
    case WaitForRsyncTransferPodsRunning => 16 case RunRsyncOperations => 17 case DeleteRsyncResources => 18
    case WaitForRsyncResourcesTerminated => 19 case CleanupStaleVirtHandlerPods => 20 case Completed => 21
    case _ => -1
  }

  lemma EarlyPlaces(i: nat)
    requires i < 11
    ensures Place(VolumeMigration().steps[i]) == i
  {
  }

  lemma LatePlaces(i: nat)
    requires 11 <= i < 22
    ensures Place(VolumeMigration().steps[i]) == i
  {
  }

  lemma VolumeMigrationIsDistinct()
    ensures Distinct(VolumeMigration().steps)
  {
    var steps := VolumeMigration().steps;
    assert |steps| == 22;
    hide VolumeMigration;
    forall i | 0 <= i < |steps|
      ensures Place(steps[i]) == i
    {
      if i < 11 { EarlyPlaces(i); } else { LatePlaces(i); }
    }
  }

  lemma VolumeMigrationEnds()
    ensures var steps := VolumeMigration().steps;
            |steps| == 22 && steps[0].Created? && steps[21].Completed?
            && MigrationFailed !in steps && MigrateImageStream !in steps
  {
  }

  lemma VolumeRollbackIsDistinct()
    ensures Distinct(VolumeRollback().steps)
  {
  }

  lemma VolumeRollbackEnds()
    ensures var steps := VolumeRollback().steps;
            |steps| == 9 && steps[0].Created? && steps[8].Completed?
            && MigrationFailed !in steps && MigrateImageStream !in steps
  {
  }

  /** The volume itineraries repeat no phase, start at Created and end at Completed. */
  lemma VolumeEngineIsSimple(rollback: bool)
    ensures Simple(VolumeEngine(rollback))
  {
    assert VolumeMigration().name == "VolumeMigration" && VolumeRollback().name == "VolumeMigrationRollback";
    hide VolumeMigration, VolumeRollback, Distinct;
    VolumeMigrationIsDistinct();
    VolumeMigrationEnds();
    VolumeRollbackIsDistinct();
    VolumeRollbackEnds();
  }

  lemma ImageIsDistinct()
    ensures Distinct(ImageMigration().steps)
  {
  }

  lemma ImageStreamIsDistinct()
    ensures Distinct(ImageStreamMigration().steps)
  {
  }

  lemma ImageEnginesAreSimple()
    ensures Simple(ImageEngine()) && Simple(ImageStreamEngine())
  {
    ImageIsDistinct();
    ImageStreamIsDistinct();
    hide Distinct;
  }

  lemma AfterIsNext(steps: seq<Phase>, i: nat)
    requires Distinct(steps) && i < |steps|
    ensures IndexOf(steps, steps[i]) == i
    ensures i + 1 < |steps| ==> After(steps, steps[i]) == steps[i + 1]
  {
    var k := IndexOf(steps, steps[i]);
    assert steps[k] == steps[i];
  }

  datatype Change = Stays | Advances | FailsNow

  function ChangeOf(e: Engine, s: Status, next: Status): Change {
    if s.failed.None? && next.failed.Some? then FailsNow
    else if Standing(e, next) == Standing(e, s) then Stays
    else Advances
  }

  /** Position in the itinerary in force, which is where `Standing` is. */
  lemma StandingIndex(e: Engine, s: Status)
    requires Simple(e) && Inv(e, s)
    ensures var steps := Select(e, s).steps;
            var i := IndexOf(steps, Standing(e, s));
            && 0 <= i < |steps|
            && (s.phase.Completed? <==> i == |steps| - 1)
            && (!s.phase.Completed? ==> Standing(e, s) == StartPhase(e, s) && !Standing(e, s).Completed?
                                        && i + 1 < |steps| && After(steps, Standing(e, s)) == steps[i + 1])
            && StepsLeft(e, s) == |steps| - 1 - i
  {
    var steps := Select(e, s).steps;
    var i :| 0 <= i < |steps| && steps[i] == Standing(e, s);
    AfterIsNext(steps, i);
    AfterIsNext(steps, |steps| - 1);
  }

  lemma MoveKeepsInv(e: Engine, s: Status, phase: Phase)
    requires Simple(e) && Inv(e, s) && !s.phase.Completed? && phase in Select(e, s).steps
    ensures var next := s.(phase := phase, itinerary := Select(e, s).name,
                           succeeded := phase.Completed? && s.failed.None?);
            (s.failed == Some(Critical) ==> phase.MigrationFailed?) ==> Inv(e, next) && Standing(e, next) == phase
  {
    hide Distinct, IndexOf;
  }

  lemma FailureKeepsInv(e: Engine, s: Status, category: Category, reasons: seq<string>, phase: Phase, itinerary: string)
    requires Simple(e) && Inv(e, s) && !s.phase.Completed?
    requires phase.MigrationFailed? || (!e.volume && phase.Completed?)
             || (!e.volume && phase == s.phase && itinerary == s.itinerary)
    requires category.Critical? ==> e.volume
    requires itinerary in {s.itinerary, Select(e, s).name}
    ensures Inv(e, Failure(s, category, reasons).(phase := phase, itinerary := itinerary))
  {
    hide Distinct, IndexOf, MergedErrors;
  }

  ghost predicate FailureShape(
    e: Engine, s: Status, next: Status, category: Category, reasons: seq<string>, phase: Phase, itinerary: string)
  {
    && next == Failure(s, category, reasons).(phase := phase, itinerary := itinerary)
    && (phase.MigrationFailed? || (!e.volume && phase.Completed?)
        || (!e.volume && phase == s.phase && itinerary == s.itinerary))
    && (category.Critical? ==> e.volume)
    && itinerary in {s.itinerary, Select(e, s).name}
  }

  predicate MoveShape(e: Engine, s: Status, next: Status, phase: Phase) {
    next == s.(phase := phase, itinerary := Select(e, s).name, succeeded := phase.Completed? && s.failed.None?)
  }

  /** A reconcile does nothing, writes the same or the next phase, or records a failure. */
  lemma MigrateShape(e: Engine, s: Status, o: Outcome)
    returns (category: Category, reasons: seq<string>, where: Phase, itinerary: string)
    requires !Resting(s) && !o.lost && !s.succeeded
    requires !e.volume ==> StartPhase(e, s) != RunRsyncOperations
    requires !StartPhase(e, s).Completed?
    requires !e.volume ==> StartPhase(e, s).MigrateImageStream? ==> After(Select(e, s).steps, MigrationFailed).Completed?
    requires e.volume ==> !StartPhase(e, s).MigrateImageStream?
    ensures var next, phase := Migrate(e, s, o), StartPhase(e, s);
            || next == s
            || MoveShape(e, s, next, phase)
            || MoveShape(e, s, next, After(Select(e, s).steps, phase))
            || FailureShape(e, s, next, category, reasons, where, itinerary)
  {
    hide MergedErrors, After, StartPhase;
    var phase := StartPhase(e, s);
    category, reasons, where, itinerary := Advisory, [], MigrationFailed, Select(e, s).name;
    if e.volume && o.initError.Some? {
      category, reasons := Warn, [o.initError.value];
    } else if Immediate(phase) {
    } else if phase.MigrateImageStream? && o.action.Errs? {
      reasons, where := [o.action.message], Completed;
    } else {
      match o.action {
        case Errs(message, kind) =>
          reasons := [message];
          if e.volume {
            category := if kind.Fatal? then Critical else Warn;
          } else {
            where, itinerary := s.phase, s.itinerary;
          }
        case Fails(rs) =>
          reasons, category := rs, if phase.RunRsyncOperations? then Critical else Advisory;
        case _ =>
      }
    }
  }

  /** One reconcile keeps the invariant, and either stays, or moves one step along the itinerary in
      force, or records a failure. */
  lemma MigrateKeepsInv(e: Engine, s: Status, o: Outcome)
    requires Simple(e) && Inv(e, s)
    ensures var next := Migrate(e, s, o);
            && Inv(e, next)
            && (s.failed.Some? ==> next.failed.Some?)
            && (ChangeOf(e, s, next).Advances? ==>
                  !s.phase.Completed? && Standing(e, next) == After(Select(e, s).steps, Standing(e, s)))
            && (s.phase.Completed? ==> next == s)
  {
    if Resting(s) || o.lost {
      return;
    }
    var steps, phase, next := Select(e, s).steps, StartPhase(e, s), Migrate(e, s, o);
    var name := Select(e, s).name;
    StandingIndex(e, s);
    assert s.failed.None? && !e.volume ==> phase != RunRsyncOperations;
    assert !s.succeeded && After(steps, phase) in steps && phase in steps;
    assert s.failed.Some? ==> phase.MigrationFailed?;
    MoveKeepsInv(e, s, phase);
    MoveKeepsInv(e, s, After(steps, phase));
    if s.failed.None? && phase.MigrateImageStream? {
      assert After(steps, MigrationFailed).Completed?;
    }
    var category, reasons, where, itinerary := MigrateShape(e, s, o);
    hide Simple, Inv, Migrate, RunPhase, After;
    if FailureShape(e, s, next, category, reasons, where, itinerary) {
      FailureKeepsInv(e, s, category, reasons, where, itinerary);
    }
  }

  /** Safety of every run: failure is permanent, Failed and Succeeded exclude each other, and a
      volume migration that has failed stands at MigrationFailed or Completed. */
  lemma {:induction false} RunKeepsInv(e: Engine, s: Status, outcomes: seq<Outcome>)
    requires Simple(e) && Inv(e, s)
    ensures Inv(e, Run(e, s, outcomes))
    ensures s.failed.Some? ==> Run(e, s, outcomes).failed.Some?
    ensures Resting(s) ==> Run(e, s, outcomes) == s
    decreases outcomes
  {
    if outcomes != [] {
      MigrateKeepsInv(e, s, outcomes[0]);
      hide Migrate, Inv;
      RunKeepsInv(e, Migrate(e, s, outcomes[0]), outcomes[1..]);
    }
  }

  lemma FreshIsGood(e: Engine)
    requires Simple(e)
    ensures Inv(e, FRESH) && StepsLeft(e, FRESH) == |e.normal.steps| - 1 && Standing(e, FRESH).Created?
  {
    AfterIsNext(e.normal.steps, 0);
  }

  /** The pair (not failed, steps left) never rises lexicographically, and falls at every change. */
  lemma RankFalls(e: Engine, s: Status, o: Outcome)
    requires Simple(e) && Inv(e, s)
    ensures var next := Migrate(e, s, o);
            match ChangeOf(e, s, next) {
              case Stays => next.failed.Some? == s.failed.Some? && StepsLeft(e, next) == StepsLeft(e, s)
              case Advances => next.failed.Some? == s.failed.Some? && StepsLeft(e, next) == StepsLeft(e, s) - 1
              case FailsNow => s.failed.None? && next.failed.Some? && StepsLeft(e, next) <= 1
            }
  {
    var next := Migrate(e, s, o);
    MigrateKeepsInv(e, s, o);
    StandingIndex(e, s);
    StandingIndex(e, next);
    hide Migrate;
    var steps := Select(e, s).steps;
    if ChangeOf(e, s, next).Advances? {
      AfterIsNext(steps, IndexOf(steps, Standing(e, s)) + 1);
    }
  }

  /** How many reconciles of a run advance or fail. */
  function Changes(e: Engine, s: Status, outcomes: seq<Outcome>): nat
    decreases outcomes
  {
    if outcomes == [] then 0
    else
      var next := Migrate(e, s, outcomes[0]);
      (if ChangeOf(e, s, next).Stays? then 0 else 1) + Changes(e, next, outcomes[1..])
  }

  function Bound(e: Engine, s: Status): nat {
    StepsLeft(e, s) + if s.failed.None? then 2 else 0
  }

  /** An advancing run is bounded: however long it is, it changes at most as often as there are steps
      left, plus the failure and the two steps that follow it. */
  lemma {:induction false} ChangesAreBounded(e: Engine, s: Status, outcomes: seq<Outcome>)
    requires Simple(e) && Inv(e, s)
    ensures Changes(e, s, outcomes) + Bound(e, Run(e, s, outcomes)) <= Bound(e, s)
    decreases outcomes
  {
    if outcomes != [] {
      RankFalls(e, s, outcomes[0]);
      MigrateKeepsInv(e, s, outcomes[0]);
      StandingIndex(e, s);
      hide Migrate, StepsLeft, Inv;
      ChangesAreBounded(e, Migrate(e, s, outcomes[0]), outcomes[1..]);
    }
  }

  /** What a trail tells about the state a run has reached. */
  ghost predicate Traced(e: Engine, s: Status, trail: seq<Phase>) {
    var normal := e.normal.steps;
    if s.failed.None? then
      var i := IndexOf(normal, Standing(e, s));
      i >= 0 && trail == normal[..i]
    else exists k :: 0 <= k < |normal| &&
           (trail == normal[..k] || (Standing(e, s).Completed? && trail == normal[..k] + [MigrationFailed]))
  }

  lemma {:induction false} TrailIsTraced(e: Engine, s: Status, before: seq<Phase>, outcomes: seq<Outcome>)
    requires Simple(e) && Inv(e, s) && Traced(e, s, before)
    ensures Traced(e, Run(e, s, outcomes), before + Trail(e, s, outcomes))
    decreases outcomes
  {
    hide Traced, Inv, Standing, Migrate;
    if outcomes == [] {
      assert before + [] == before;
    } else {
      var next := Migrate(e, s, outcomes[0]);
      var left := if Standing(e, next) != Standing(e, s) then [Standing(e, s)] else [];
      MigrateKeepsInv(e, s, outcomes[0]);
      if s.failed.None? {
        GoodStepIsTraced(e, s, before, outcomes[0]);
      } else {
        FailedStepIsTraced(e, s, before, outcomes[0]);
      }
      TrailIsTraced(e, next, before + left, outcomes[1..]);
      assert before + left + Trail(e, next, outcomes[1..]) == before + Trail(e, s, outcomes);
    }
  }

  lemma GoodStepIsTraced(e: Engine, s: Status, before: seq<Phase>, o: Outcome)
    requires Simple(e) && Inv(e, s) && Traced(e, s, before) && s.failed.None?
    ensures var next := Migrate(e, s, o);
            Traced(e, next, before + if Standing(e, next) != Standing(e, s) then [Standing(e, s)] else [])
  {
    var next, normal := Migrate(e, s, o), e.normal.steps;
    MigrateKeepsInv(e, s, o);
    StandingIndex(e, s);
    StandingIndex(e, next);
    assert Select(e, s).steps == normal && Distinct(normal);
    hide Migrate, Inv, Distinct, IndexOf, Standing, Simple;
    var i := IndexOf(normal, Standing(e, s));
    assert before + [] == before == normal[..i];
    assert before + [Standing(e, s)] == normal[..i + 1];
    if ChangeOf(e, s, next).Advances? {
      AfterIsNext(normal, i + 1);
    }
  }

  lemma FailedStepIsTraced(e: Engine, s: Status, before: seq<Phase>, o: Outcome)
    requires Simple(e) && Inv(e, s) && Traced(e, s, before) && s.failed.Some?
    ensures var next := Migrate(e, s, o);
            Traced(e, next, before + if Standing(e, next) != Standing(e, s) then [Standing(e, s)] else [])
  {
    var next := Migrate(e, s, o);
    MigrateKeepsInv(e, s, o);
    FailedStandsAtEnd(e, s);
    FailedStandsAtEnd(e, next);
    hide Migrate, Inv, Simple, Standing;
    assert before + [] == before;
  }

  lemma FailedStandsAtEnd(e: Engine, s: Status)
    requires Simple(e) && Inv(e, s) && s.failed.Some?
    ensures Standing(e, s).MigrationFailed? || Standing(e, s).Completed?
  {
  }

  /** Main result: a migration is marked Succeeded exactly when it is Completed without a recorded
      failure, and then the phases it left, in order, are exactly the chosen itinerary up to Completed. */
  lemma SuccessIsTheWholeItinerary(e: Engine, outcomes: seq<Outcome>)
    requires Simple(e)
    ensures var s, normal := Run(e, FRESH, outcomes), e.normal.steps;
            && (s.succeeded <==> s.phase.Completed? && !s.HasFailed())
            && (s.succeeded ==> Trail(e, FRESH, outcomes) == normal[..|normal| - 1] && s.itinerary == e.normal.name)
  {
    FreshIsGood(e);
    AfterIsNext(e.normal.steps, 0);
    RunKeepsInv(e, FRESH, outcomes);
    TrailIsTraced(e, FRESH, [], outcomes);
    assert [] + Trail(e, FRESH, outcomes) == Trail(e, FRESH, outcomes);
    StandingIndex(e, Run(e, FRESH, outcomes));
  }

  lemma TracedIsDistinct(normal: seq<Phase>, k: nat)
    requires Distinct(normal) && MigrationFailed !in normal && k <= |normal|
    ensures Distinct(normal[..k]) && Distinct(normal[..k] + [MigrationFailed])
  {
  }

  /** No phase is left twice, so none is entered again. */
  lemma NoPhaseTwice(e: Engine, outcomes: seq<Outcome>)
    requires Simple(e)
    ensures Distinct(Trail(e, FRESH, outcomes))
  {
    FreshIsGood(e);
    AfterIsNext(e.normal.steps, 0);
    TrailIsTraced(e, FRESH, [], outcomes);
    var trail, normal := Trail(e, FRESH, outcomes), e.normal.steps;
    assert [] + trail == trail;
    assert exists k :: 0 <= k <= |normal| && (trail == normal[..k] || trail == normal[..k] + [MigrationFailed]);
    hide Trail, Standing, Distinct;
    forall k | 0 <= k <= |normal|
      ensures Distinct(normal[..k]) && Distinct(normal[..k] + [MigrationFailed])
    {
      TracedIsDistinct(normal, k);
    }
  }

  /** A critical failure of a volume migration is where it rests: it never reaches Completed, which is
      why the parent accepts MigrationFailed as an end. */
  lemma CriticalFailureRests(e: Engine, outcomes: seq<Outcome>, more: seq<Outcome>)
    requires Simple(e) && Run(e, FRESH, outcomes).failed == Some(Critical)
    ensures e.volume && Run(e, FRESH, outcomes).phase.MigrationFailed?
    ensures Run(e, Run(e, FRESH, outcomes), more) == Run(e, FRESH, outcomes)
  {
    FreshIsGood(e);
    RunKeepsInv(e, FRESH, outcomes);
    RunKeepsInv(e, Run(e, FRESH, outcomes), more);
  }

  /** The parent reads the child as completed exactly when the child has failed or is Completed, and as
      failed exactly when the child has failed. */
  lemma ParentReadsTheEnd(rollback: bool, outcomes: seq<Outcome>)
    ensures var dvm := Run(VolumeEngine(rollback), FRESH, outcomes);
            && (ReadsAsSucceeded(dvm) || ReadsAsFailed(dvm) <==> dvm.HasFailed() || dvm.phase.Completed?)
            && (ReadsAsFailed(dvm) <==> dvm.HasFailed())
            && (ReadsAsSucceeded(dvm) <==> dvm.succeeded)
            && !(dvm.failed.Some? && dvm.succeeded)
            && (dvm.failed.Some? ==> dvm.phase.MigrationFailed? || dvm.phase.Completed?)
  {
    var e := VolumeEngine(rollback);
    VolumeEngineIsSimple(rollback);
    assert e.volume && e.normal.name in {"VolumeMigration", "VolumeMigrationRollback"};
    hide VolumeMigration, VolumeRollback, Simple;
    FreshIsGood(e);
    RunKeepsInv(e, FRESH, outcomes);
  }

  // ---------------------------------------------------------------- what advances a phase

  /** A phase whose result decides: it has work of its own. */
  predicate HasWork(phase: Phase) {
    !Immediate(phase) && !phase.Completed?
  }

  /** The reconcile reaches the phase's work. */
  predicate Reaches(e: Engine, s: Status, o: Outcome) {
    !Resting(s) && !o.lost && !(e.volume && o.initError.Some?)
  }

  /** As long as no failure is recorded, a phase with work advances exactly when the work is done. Waiting
      and a conflict change neither the standing nor the errors; anything else is recorded as a failure. */
  lemma WorkDecides(e: Engine, s: Status, o: Outcome)
    requires Simple(e) && Inv(e, s) && s.failed.None? && Reaches(e, s, o) && HasWork(Standing(e, s))
    ensures var next := Migrate(e, s, o);
            && (ChangeOf(e, s, next).Advances? <==> o.action.Done?)
            && (o.action.Done? ==> Standing(e, next) == After(e.normal.steps, Standing(e, s)) && next.errors == s.errors)
            && (o.action.Waiting? ==> Standing(e, next) == Standing(e, s) && next.errors == s.errors && next.failed.None?)
            && (o.action.Errs? && o.action.kind.Conflict? && !Standing(e, s).MigrateImageStream? ==> next == s)
            && (next.failed.Some? <==>
                  || o.action.Fails?
                  || (o.action.Errs? && (!o.action.kind.Conflict? || Standing(e, s).MigrateImageStream?)))
  {
    StandingIndex(e, s);
    MigrateKeepsInv(e, s, o);
    var i := IndexOf(e.normal.steps, Standing(e, s));
    assert e.normal.steps[i] != e.normal.steps[i + 1];
    hide IndexOf, After, MergedErrors, Distinct;
  }

  /** The phases without work advance in every reconcile that gets to them. */
  lemma ImmediateAdvances(e: Engine, s: Status, o: Outcome)
    requires Simple(e) && Inv(e, s) && s.failed.None? && Reaches(e, s, o) && Immediate(Standing(e, s))
    ensures var next := Migrate(e, s, o);
            && Standing(e, next) == After(e.normal.steps, Standing(e, s)) && ChangeOf(e, s, next).Advances?
            && next.errors == s.errors && next.failed.None?
  {
    StandingIndex(e, s);
    MigrateKeepsInv(e, s, o);
    var i := IndexOf(e.normal.steps, Standing(e, s));
    assert e.normal.steps[i] != e.normal.steps[i + 1];
    hide IndexOf, After, MergedErrors, Distinct;
  }

  /** How grave a recorded failure is, and what it adds to the errors. A volume migration is blocked by a
      failure of its Rsync operations or a fatal error, and warned of any other error. */
  lemma FailureIsGraded(e: Engine, s: Status, o: Outcome)
    requires Simple(e) && Inv(e, s) && s.failed.None? && !Resting(s) && !o.lost && HasWork(Standing(e, s))
    requires Migrate(e, s, o).failed.Some?
    ensures var next := Migrate(e, s, o);
            var initFails := e.volume && o.initError.Some?;
            && (next.failed == Some(Critical) <==>
                  && e.volume && !initFails
                  && ((o.action.Fails? && Standing(e, s).RunRsyncOperations?) || (o.action.Errs? && o.action.kind.Fatal?)))
            && (next.failed == Some(Warn) <==> e.volume && (initFails || (o.action.Errs? && !o.action.kind.Fatal?)))
            && (forall x :: x in next.errors <==>
                  || x in s.errors
                  || (if initFails then x == o.initError.value
                      else if o.action.Fails? then x in o.action.reasons
                      else o.action.Errs? && x == o.action.message))
  {
    ErrorsAreUnion(s.errors, if o.initError.Some? then [o.initError.value] else []);
    ErrorsAreUnion(s.errors, if o.action.Fails? then o.action.reasons else []);
    ErrorsAreUnion(s.errors, if o.action.Errs? then [o.action.message] else []);
    hide IndexOf, After, MergedErrors, Distinct;
  }

  lemma {:induction false} UnseenAre(added: seq<string>, errors: seq<string>)
    ensures forall x :: x in NotIn(added, errors) <==> x in added && x !in errors
  {
    if added != [] { UnseenAre(added[1..], errors); }
  }

  lemma ErrorsAreUnion(errors: seq<string>, added: seq<string>)
    ensures forall x :: x in MergedErrors(errors, added) <==> x in errors || x in added
  {
    UnseenAre(added, errors);
  }

  /** A failure that does not block goes on to Completed in the next reconcile that gets to it. */
  lemma FailedGoesOn(e: Engine, s: Status, o: Outcome)
    requires Simple(e) && Inv(e, s) && s.failed.Some? && s.failed != Some(Critical) && Reaches(e, s, o)
    ensures Migrate(e, s, o).phase.Completed? && !Migrate(e, s, o).succeeded
  {
    FailedStandsAtEnd(e, s);
    assert IndexOf(e.failing.steps, MigrationFailed) == 0;
    hide Distinct, MergedErrors;
  }

  /** Some reconcile of the run found the phase's work done. */
  predicate DoneAt(e: Engine, s: Status, outcomes: seq<Outcome>, phase: Phase)
    decreases outcomes
  {
    outcomes != [] &&
    (|| (Standing(e, s) == phase && Reaches(e, s, outcomes[0]) && outcomes[0].action.Done?)
     || DoneAt(e, Migrate(e, s, outcomes[0]), outcomes[1..], phase))
  }

  /** A run without a failure leaves a phase with work only after that work was done. */
  lemma {:induction false} LeftMeansDone(e: Engine, s: Status, outcomes: seq<Outcome>, phase: Phase)
    requires Simple(e) && Inv(e, s) && HasWork(phase) && Run(e, s, outcomes).failed.None?
    ensures phase in Trail(e, s, outcomes) ==> DoneAt(e, s, outcomes, phase)
    decreases outcomes
  {
    if outcomes != [] {
      var next := Migrate(e, s, outcomes[0]);
      MigrateKeepsInv(e, s, outcomes[0]);
      RunKeepsInv(e, next, outcomes[1..]);
      if Standing(e, next) != Standing(e, s) && Standing(e, s) == phase {
        LeavingNeedsWork(e, s, outcomes[0]);
      }
      hide Migrate, Inv, Standing, Reaches, Simple;
      LeftMeansDone(e, next, outcomes[1..], phase);
    }
  }

  lemma LeavingNeedsWork(e: Engine, s: Status, o: Outcome)
    requires Simple(e) && Inv(e, s) && HasWork(Standing(e, s)) && Migrate(e, s, o).failed.None?
    requires Standing(e, Migrate(e, s, o)) != Standing(e, s)
    ensures Reaches(e, s, o) && o.action.Done?
  {
    MigrateKeepsInv(e, s, o);
    hide Distinct, IndexOf, After, MergedErrors;
    assert Reaches(e, s, o);
    WorkDecides(e, s, o);
  }

  /** Every reconcile of the run gets to its phase and finds the work done. */
  predicate AllDone(outcomes: seq<Outcome>) {
    forall i :: 0 <= i < |outcomes| ==> !outcomes[i].lost && outcomes[i].initError.None? && outcomes[i].action.Done?
  }

  /** Such a run takes one step of the itinerary in every reconcile. */
  lemma {:induction false} DoneTakesOneStep(e: Engine, s: Status, outcomes: seq<Outcome>)
    requires Simple(e) && Inv(e, s) && s.failed.None? && AllDone(outcomes) && |outcomes| <= StepsLeft(e, s)
    ensures Run(e, s, outcomes).failed.None? && StepsLeft(e, Run(e, s, outcomes)) == StepsLeft(e, s) - |outcomes|
    decreases outcomes
  {
    if outcomes != [] {
      var next := Migrate(e, s, outcomes[0]);
      StandingIndex(e, s);
      assert !Resting(s);
      if HasWork(Standing(e, s)) { WorkDecides(e, s, outcomes[0]); } else { ImmediateAdvances(e, s, outcomes[0]); }
      MigrateKeepsInv(e, s, outcomes[0]);
      RankFalls(e, s, outcomes[0]);
      hide Migrate, Inv, Standing, StepsLeft, Simple;
      DoneTakesOneStep(e, next, outcomes[1..]);
    }
  }

  /** From a new resource it succeeds after exactly as many reconciles as the itinerary has steps to leave. */
  lemma AllDoneSucceeds(e: Engine, outcomes: seq<Outcome>)
    requires Simple(e) && AllDone(outcomes) && |outcomes| < |e.normal.steps|
    ensures Run(e, FRESH, outcomes).succeeded <==> |outcomes| == |e.normal.steps| - 1
  {
    FreshIsGood(e);
    AfterIsNext(e.normal.steps, 0);
    DoneTakesOneStep(e, FRESH, outcomes);
    RunKeepsInv(e, FRESH, outcomes);
    StandingIndex(e, Run(e, FRESH, outcomes));
    hide Run, Distinct;
  }

  predicate InOrder(steps: seq<Phase>, early: Phase, late: Phase) {
    early in steps && late in steps && IndexOf(steps, early) < IndexOf(steps, late)
  }

  lemma StepsInOrder(steps: seq<Phase>, i: nat, j: nat)
    requires Distinct(steps) && i < j < |steps|
    ensures InOrder(steps, steps[i], steps[j])
  {
    AfterIsNext(steps, i);
    AfterIsNext(steps, j);
  }

  /** The order that the work of the itineraries depends on: namespaces before what is created in them,
      children before the wait for them, stale pods gone before new ones run. */
  lemma ImagesInOrder()
    ensures var steps := ImageMigration().steps;
            && InOrder(steps, CreateDestinationNamespaces, ListImageStreams)
            && InOrder(steps, ListImageStreams, CreateDirectImageStreamMigrations)
            && InOrder(steps, CreateDirectImageStreamMigrations, WaitingForDirectImageStreamMigrationsToComplete)
  {
    var steps := ImageMigration().steps;
    ImageIsDistinct();
    assert |steps| == 8 && steps[3] == CreateDestinationNamespaces && steps[4] == ListImageStreams
           && steps[5] == CreateDirectImageStreamMigrations && steps[6] == WaitingForDirectImageStreamMigrationsToComplete;
    hide ImageMigration, InOrder, Distinct;
    StepsInOrder(steps, 3, 4);
    StepsInOrder(steps, 4, 5);
    StepsInOrder(steps, 5, 6);
  }

  lemma RollbackInOrder()
    ensures var steps := VolumeRollback().steps;
            && InOrder(steps, CleanStaleRsyncResources, WaitForStaleRsyncResourcesTerminated)
            && InOrder(steps, DeleteStaleVirtualMachineInstanceMigrations, RunRsyncOperations)
            && InOrder(steps, WaitForStaleRsyncResourcesTerminated, RunRsyncOperations)
            && InOrder(steps, RunRsyncOperations, CleanupStaleVirtHandlerPods)
  {
    var steps := VolumeRollback().steps;
    VolumeRollbackIsDistinct();
    assert |steps| == 9 && steps[3] == CleanStaleRsyncResources && steps[4] == DeleteStaleVirtualMachineInstanceMigrations
           && steps[5] == WaitForStaleRsyncResourcesTerminated && steps[6] == RunRsyncOperations
           && steps[7] == CleanupStaleVirtHandlerPods;
    hide VolumeRollback, InOrder, Distinct;
    StepsInOrder(steps, 3, 5);
    StepsInOrder(steps, 4, 6);
    StepsInOrder(steps, 5, 6);
    StepsInOrder(steps, 6, 7);
  }

  lemma PlaceIsInjective(a: Phase, b: Phase)
    requires Place(a) == Place(b) >= 0
    ensures Place(a) < 22 && a == b
  {
  }

  lemma StepAtPlace(phase: Phase)
    requires Place(phase) >= 0
    ensures Place(phase) < |VolumeMigration().steps| && VolumeMigration().steps[Place(phase)] == phase
  {
    hide VolumeMigration, Place;
    VolumeMigrationEnds();
    var i := Place(phase);
    PlaceIsInjective(phase, phase);
    if i < 11 { EarlyPlaces(i); } else { LatePlaces(i); }
    PlaceIsInjective(phase, VolumeMigration().steps[i]);
  }

  lemma VolumesInOrder(early: Phase, late: Phase)
    requires 0 <= Place(early) < Place(late)
    ensures InOrder(VolumeMigration().steps, early, late)
  {
    hide VolumeMigration, InOrder, Distinct, Place;
    VolumeMigrationIsDistinct();
    StepAtPlace(early);
    StepAtPlace(late);
    StepsInOrder(VolumeMigration().steps, Place(early), Place(late));
  }
}
