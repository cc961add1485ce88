/** Marking the resources of a stage backup, a bounded number of updates at a time:
    pkg/controller/migmigration/annotation.go.

    What each object holds is reduced to the mark this migration leaves on it: its label, and the
    annotations written in the same update. Lists from the API server name every object once. */
module Annotations {
  import opened Wrappers

  const ANNOTATIONS_PER_RECONCILE: nat := 50

  datatype Id =
    | NamespaceId(name: string)
    | PodId(namespace: string, name: string)
    | PvId(name: string)
    | PvcId(namespace: string, name: string)
    | AccountId(namespace: string, name: string)
    | StreamId(namespace: string, name: string)

  datatype Action = Copy | Move | Skip

  /** A persistent volume of the stage, with its claim and the user's selection. */
  datatype StagePv = StagePv(name: string, claimNamespace: string, claimName: string, action: Action,
                             storageClass: string, copyMethod: string, accessMode: string)

  /** A stage pod with its Restic volumes. */
  datatype Pod = Pod(namespace: string, name: string, account: string, volumes: seq<string>, verify: seq<string>)

  /** What is written together with the mark. */
  datatype Note =
    | LabelOnly
    | ResticNote(volumes: seq<string>, verify: seq<string>)
    | PvNote(action: Action, storageClass: string, copyMethod: Option<string>)
    | ClaimNote(action: Action, claimClass: Option<string>, claimMethod: Option<string>, accessMode: Option<string>)

  type Marks = map<Id, Note>

  /** Service account names by namespace. */
  type Accounts = map<string, set<string>>

  /** What the pass reads: source namespaces, stage pods, stage volumes, service accounts and image streams
      by namespace, and whether images are migrated indirectly. */
  datatype Scope = Scope(namespaces: seq<string>, pods: seq<Pod>, pvs: seq<StagePv>,
                         accounts: map<string, seq<string>>, streams: map<string, seq<string>>, indirect: bool)

  /** Which calls of one pass succeed, by position. */
  datatype Answers = Answers(
    nsGet: nat -> bool, nsUpdate: nat -> bool, podList: bool, podVolumes: nat -> bool, podUpdate: nat -> bool,
    pvGet: nat -> bool, pvUpdate: nat -> bool, pvcGet: nat -> bool, pvcUpdate: nat -> bool,
    accountList: nat -> bool, accountUpdate: (nat, nat) -> bool, streamList: nat -> bool, streamUpdate: (nat, nat) -> bool)

  /** `Enough`: the limit is passed and the pass ends; `Failed`: a call failed. */
  datatype Progress = Going | Enough | Failed

  datatype Pass = Pass(marks: Marks, updated: nat, progress: Progress, accounts: Accounts)

  type Step = (Pass, nat) -> Pass

  /** The first n steps, as far as they go. */
  function Fold(p: Pass, step: Step, n: nat): Pass {
    if n == 0 then p
    else
      var before := Fold(p, step, n - 1);
      if before.progress.Going? then step(before, n - 1) else before
  }

  /** An update that counts. */
  function Counted(p: Pass, id: Id, note: Note): Pass {
    Pass(p.marks[id := note], p.updated + 1,
         if p.updated + 1 > ANNOTATIONS_PER_RECONCILE then Enough else Going, p.accounts)
  }

  function Failing(p: Pass): Pass {
    p.(progress := Failed)
  }

  function Labelled(p: Pass, id: Id, note: Note, ok: bool): Pass {
    if id in p.marks then p else if ok then Counted(p, id, note) else Failing(p)
  }

  function ListIn(m: map<string, seq<string>>, namespace: string): seq<string> {
    if namespace in m then m[namespace] else []
  }

  // ---------------------------------------------------------------- the steps

  function NamespaceStep(p: Pass, i: nat, s: Scope, a: Answers): Pass {
    if i >= |s.namespaces| then p
    else if !a.nsGet(i) then Failing(p)
    else Labelled(p, NamespaceId(s.namespaces[i]), LabelOnly, a.nsUpdate(i))
  }

  function NoteOfPod(pod: Pod): Note {
    ResticNote(pod.volumes, pod.verify)
  }

  function WithAccount(accounts: Accounts, pod: Pod): Accounts {
    accounts[pod.namespace := (if pod.namespace in accounts then accounts[pod.namespace] else {}) + {pod.account}]
  }

  function PodStep(p: Pass, i: nat, s: Scope, a: Answers): Pass {
    if i >= |s.pods| then p
    else
      var pod := s.pods[i];
      var id := PodId(pod.namespace, pod.name);
      if !a.podVolumes(i) then Failing(p)
      else if id in p.marks then p
      else if !a.podUpdate(i) then Failing(p)
      else Counted(p, id, NoteOfPod(pod)).(accounts := WithAccount(p.accounts, pod))
  }

  function NoteOfPv(pv: StagePv): Note {
    PvNote(pv.action, pv.storageClass, if pv.action == Copy then Some(pv.copyMethod) else None)
  }

  function NoteOfClaim(pv: StagePv): Note {
    if pv.action == Copy
    then ClaimNote(pv.action, Some(pv.storageClass), Some(pv.copyMethod),
                 if pv.accessMode != "" then Some(pv.accessMode) else None)
    else ClaimNote(pv.action, None, None, None)
  }

  function ClaimIdOf(pv: StagePv): Id {
    PvcId(pv.claimNamespace, pv.claimName)
  }

  /** A volume and its claim; when the claim already has its label, the volume's update is not counted. */
  function PvStep(p: Pass, i: nat, s: Scope, a: Answers): Pass {
    if i >= |s.pvs| then p
    else
      var pv := s.pvs[i];
      if !a.pvGet(i) then Failing(p)
      else if PvId(pv.name) in p.marks then p
      else if !a.pvUpdate(i) then Failing(p)
      else
        var q := p.(marks := p.marks[PvId(pv.name) := NoteOfPv(pv)]);
        if !a.pvcGet(i) then Failing(q) else Labelled(q, ClaimIdOf(pv), NoteOfClaim(pv), a.pvcUpdate(i))
  }

  function AccountStep(p: Pass, j: nat, n: nat, s: Scope, a: Answers): Pass {
    if n >= |s.namespaces| then p
    else
      var namespace := s.namespaces[n];
      var list := ListIn(s.accounts, namespace);
      if j >= |list| || namespace !in p.accounts || list[j] !in p.accounts[namespace] then p
      else Labelled(p, AccountId(namespace, list[j]), LabelOnly, a.accountUpdate(n, j))
  }

  function AccountSteps(n: nat, s: Scope, a: Answers): Step {
    (p: Pass, j: nat) => AccountStep(p, j, n, s, a)
  }

  function AccountsStep(p: Pass, n: nat, s: Scope, a: Answers): Pass {
    if n >= |s.namespaces| || s.namespaces[n] !in p.accounts then p
    else if !a.accountList(n) then Failing(p)
    else Fold(p, AccountSteps(n, s, a), |ListIn(s.accounts, s.namespaces[n])|)
  }

  function StreamStep(p: Pass, j: nat, n: nat, s: Scope, a: Answers): Pass {
    if n >= |s.namespaces| then p
    else
      var namespace := s.namespaces[n];
      var list := ListIn(s.streams, namespace);
      if j >= |list| then p else Labelled(p, StreamId(namespace, list[j]), LabelOnly, a.streamUpdate(n, j))
  }

  function StreamSteps(n: nat, s: Scope, a: Answers): Step {
    (p: Pass, j: nat) => StreamStep(p, j, n, s, a)
  }

  function StreamsStep(p: Pass, n: nat, s: Scope, a: Answers): Pass {
    if n >= |s.namespaces| then p
    else if !a.streamList(n) then Failing(p)
    else Fold(p, StreamSteps(n, s, a), |ListIn(s.streams, s.namespaces[n])|)
  }

  function NamespaceSteps(s: Scope, a: Answers): Step { (p: Pass, i: nat) => NamespaceStep(p, i, s, a) }

  function PodSteps(s: Scope, a: Answers): Step { (p: Pass, i: nat) => PodStep(p, i, s, a) }

  function PvSteps(s: Scope, a: Answers): Step { (p: Pass, i: nat) => PvStep(p, i, s, a) }

  function AccountsSteps(s: Scope, a: Answers): Step { (p: Pass, n: nat) => AccountsStep(p, n, s, a) }

  function StreamsSteps(s: Scope, a: Answers): Step { (p: Pass, n: nat) => StreamsStep(p, n, s, a) }

  function AfterNamespaces(p: Pass, s: Scope, a: Answers): Pass {
    Fold(p, NamespaceSteps(s, a), |s.namespaces|)
  }

  function AfterPods(p: Pass, s: Scope, a: Answers): Pass {
    if !p.progress.Going? then p
    else if !a.podList then Failing(p)
    else Fold(p, PodSteps(s, a), |s.pods|)
  }

  function AfterPvs(p: Pass, s: Scope, a: Answers): Pass {
    if p.progress.Going? then Fold(p, PvSteps(s, a), |s.pvs|) else p
  }

  function AfterAccounts(p: Pass, s: Scope, a: Answers): Pass {
    if p.progress.Going? then Fold(p, AccountsSteps(s, a), |s.namespaces|) else p
  }

  function AfterStreams(p: Pass, s: Scope, a: Answers): Pass {
    if p.progress.Going? && s.indirect then Fold(p, StreamsSteps(s, a), |s.namespaces|) else p
  }

  function Start(marks: Marks): Pass {
    Pass(marks, 0, Going, map[])
  }

  /** `annotateStageResources`: it returns true when still going at the end. */
  function AfterPass(marks: Marks, s: Scope, a: Answers): Pass {
    AfterStreams(AfterAccounts(AfterPvs(AfterPods(AfterNamespaces(Start(marks), s, a), s, a), s, a), s, a), s, a)
  }

  lemma {:induction false} FoldStops(p: Pass, step: Step, m: nat, n: nat)
    requires m <= n && !Fold(p, step, m).progress.Going?
    ensures Fold(p, step, n) == Fold(p, step, m)
  {
    if m < n { FoldStops(p, step, m, n - 1); }
  }

  function ProgressOf(updated: nat, failed: bool): Progress {
    if failed then Failed else if updated > ANNOTATIONS_PER_RECONCILE then Enough else Going
  }

  /** The migration task, with the marks on the source cluster. */
  class Task {
    var marks: Marks

    constructor (marks: Marks)
      ensures this.marks == marks
    {
      this.marks := marks;
    }

    ghost function Now(updated: nat, failed: bool, accounts: Accounts): Pass
      reads this
    {
      Pass(marks, updated, ProgressOf(updated, failed), accounts)
    }

    /** One labelled object: skipped when it has the label, counted when the update succeeds. */
    method Label(id: Id, note: Note, ok: bool, itemsUpdated: nat, ghost accounts: Accounts)
      returns (updated: nat, failed: bool)
      requires itemsUpdated <= ANNOTATIONS_PER_RECONCILE
      modifies this
      ensures Now(updated, failed, accounts) == Labelled(old(Now(itemsUpdated, false, accounts)), id, note, ok)
      ensures failed ==> updated <= ANNOTATIONS_PER_RECONCILE
    {
      updated, failed := itemsUpdated, false;
      if id in marks {
        return;
      }
      if !ok {
        failed := true;
        return;
      }
      marks := marks[id := note];
      updated := updated + 1;
    }

    method LabelNamespaces(s: Scope, a: Answers, itemsUpdated: nat, ghost accounts: Accounts)
      returns (updated: nat, failed: bool)
      requires itemsUpdated <= ANNOTATIONS_PER_RECONCILE
      modifies this
      ensures Now(updated, failed, accounts) == AfterNamespaces(old(Now(itemsUpdated, false, accounts)), s, a)
    {
      hide Labelled;
      updated, failed := itemsUpdated, false;
      ghost var p, step := Now(itemsUpdated, false, accounts), NamespaceSteps(s, a);
      for i := 0 to |s.namespaces|
        invariant updated <= ANNOTATIONS_PER_RECONCILE && !failed
        invariant Now(updated, false, accounts) == Fold(p, step, i)
      {
        if !a.nsGet(i) {
          failed := true;
        } else {
          updated, failed := Label(NamespaceId(s.namespaces[i]), LabelOnly, a.nsUpdate(i), updated, accounts);
        }
        if failed || updated > ANNOTATIONS_PER_RECONCILE {
          FoldStops(p, step, i + 1, |s.namespaces|);
          return;
        }
      }
    }

    /** One stage pod; the service accounts of annotated pods are collected. */
    method AnnotatePod(s: Scope, a: Answers, i: nat, itemsUpdated: nat, accounts: Accounts)
      returns (updated: nat, serviceAccounts: Accounts, failed: bool)
      requires itemsUpdated <= ANNOTATIONS_PER_RECONCILE && i < |s.pods|
      modifies this
      ensures Now(updated, failed, serviceAccounts) == PodStep(old(Now(itemsUpdated, false, accounts)), i, s, a)
    {
      updated, serviceAccounts, failed := itemsUpdated, accounts, false;
      var pod := s.pods[i];
      var id := PodId(pod.namespace, pod.name);
      if !a.podVolumes(i) {
        failed := true;
        return;
      }
      if id in marks {
        return;
      }
      if !a.podUpdate(i) {
        failed := true;
        return;
      }
      marks := marks[id := ResticNote(pod.volumes, pod.verify)];
      updated := updated + 1;
      if pod.namespace !in accounts {
        assert {} + {pod.account} == {pod.account};
        serviceAccounts := accounts[pod.namespace := {pod.account}];
      } else {
        serviceAccounts := accounts[pod.namespace := accounts[pod.namespace] + {pod.account}];
      }
    }

    method AnnotatePods(s: Scope, a: Answers, itemsUpdated: nat)
      returns (updated: nat, serviceAccounts: Accounts, failed: bool)
      requires itemsUpdated <= ANNOTATIONS_PER_RECONCILE
      modifies this
      ensures Now(updated, failed, serviceAccounts) == AfterPods(old(Now(itemsUpdated, false, map[])), s, a)
    {
      hide PodStep;
      updated, serviceAccounts, failed := itemsUpdated, map[], false;
      if !a.podList {
        failed := true;
        return;
      }
      ghost var p, step := Now(itemsUpdated, false, map[]), PodSteps(s, a);
      for i := 0 to |s.pods|
        invariant updated <= ANNOTATIONS_PER_RECONCILE && !failed
        invariant Now(updated, false, serviceAccounts) == Fold(p, step, i)
      {
        updated, serviceAccounts, failed := AnnotatePod(s, a, i, updated, serviceAccounts);
        if failed || updated > ANNOTATIONS_PER_RECONCILE {
          FoldStops(p, step, i + 1, |s.pods|);
          return;
        }
      }
    }

    /** One volume and its claim. */
    method AnnotatePV(s: Scope, a: Answers, i: nat, itemsUpdated: nat, ghost accounts: Accounts)
      returns (updated: nat, failed: bool)
      requires itemsUpdated <= ANNOTATIONS_PER_RECONCILE && i < |s.pvs|
      modifies this
      ensures Now(updated, failed, accounts) == PvStep(old(Now(itemsUpdated, false, accounts)), i, s, a)
    {
      updated, failed := itemsUpdated, false;
      var pv := s.pvs[i];
      if !a.pvGet(i) {
        failed := true;
        return;
      }
      if PvId(pv.name) in marks {
        return;
      }
      if !a.pvUpdate(i) {
        failed := true;
        return;
      }
      var pvNote := PvNote(pv.action, pv.storageClass, None);
      if pv.action == Copy {
        pvNote := pvNote.(copyMethod := Some(pv.copyMethod));
      }
      marks := marks[PvId(pv.name) := pvNote];
      if !a.pvcGet(i) {
        failed := true;
        return;
      }
      var note := ClaimNote(pv.action, None, None, None);
      if pv.action == Copy {
        note := note.(claimClass := Some(pv.storageClass), claimMethod := Some(pv.copyMethod));
        if pv.accessMode != "" {
          note := note.(accessMode := Some(pv.accessMode));
        }
      }
      updated, failed := Label(PvcId(pv.claimNamespace, pv.claimName), note, a.pvcUpdate(i), updated, accounts);
    }

    method AnnotatePVs(s: Scope, a: Answers, itemsUpdated: nat, ghost accounts: Accounts)
      returns (updated: nat, failed: bool)
      requires itemsUpdated <= ANNOTATIONS_PER_RECONCILE
      modifies this
      ensures Now(updated, failed, accounts) == AfterPvs(old(Now(itemsUpdated, false, accounts)), s, a)
    {
      hide PvStep;
      updated, failed := itemsUpdated, false;
      ghost var p, step := Now(itemsUpdated, false, accounts), PvSteps(s, a);
      for i := 0 to |s.pvs|
        invariant updated <= ANNOTATIONS_PER_RECONCILE && !failed
        invariant Now(updated, false, accounts) == Fold(p, step, i)
      {
        updated, failed := AnnotatePV(s, a, i, updated, accounts);
        if failed || updated > ANNOTATIONS_PER_RECONCILE {
          FoldStops(p, step, i + 1, |s.pvs|);
          return;
        }
      }
    }

    /** The accounts of one namespace. */
    method LabelAccountsIn(n: nat, s: Scope, a: Answers, serviceAccounts: Accounts, itemsUpdated: nat)
      returns (updated: nat, failed: bool)
      requires itemsUpdated <= ANNOTATIONS_PER_RECONCILE && n < |s.namespaces| && s.namespaces[n] in serviceAccounts
      modifies this
      ensures Now(updated, failed, serviceAccounts) ==
                Fold(old(Now(itemsUpdated, false, serviceAccounts)), AccountSteps(n, s, a),
                     |ListIn(s.accounts, s.namespaces[n])|)
    {
      hide Labelled;
      updated, failed := itemsUpdated, false;
      ghost var p, step := Now(itemsUpdated, false, serviceAccounts), AccountSteps(n, s, a);
      var names, list := serviceAccounts[s.namespaces[n]], ListIn(s.accounts, s.namespaces[n]);
      for j := 0 to |list|
        invariant updated <= ANNOTATIONS_PER_RECONCILE && !failed
        invariant Now(updated, false, serviceAccounts) == Fold(p, step, j)
      {
        if list[j] !in names {
          continue;
        }
        updated, failed := Label(AccountId(s.namespaces[n], list[j]), LabelOnly, a.accountUpdate(n, j), updated,
                                 serviceAccounts);
        if failed || updated > ANNOTATIONS_PER_RECONCILE {
          FoldStops(p, step, j + 1, |list|);
          return;
        }
      }
    }

    method LabelServiceAccounts(s: Scope, a: Answers, serviceAccounts: Accounts, itemsUpdated: nat)
      returns (updated: nat, failed: bool)
      requires itemsUpdated <= ANNOTATIONS_PER_RECONCILE
      modifies this
      ensures Now(updated, failed, serviceAccounts) == AfterAccounts(old(Now(itemsUpdated, false, serviceAccounts)), s, a)
    {
      hide AccountSteps;
      updated, failed := itemsUpdated, false;
      ghost var p, step := Now(itemsUpdated, false, serviceAccounts), AccountsSteps(s, a);
      for n := 0 to |s.namespaces|
        invariant updated <= ANNOTATIONS_PER_RECONCILE && !failed
        invariant Now(updated, false, serviceAccounts) == Fold(p, step, n)
      {
        if s.namespaces[n] !in serviceAccounts {
          continue;
        }
        if !a.accountList(n) {
          failed := true;
          FoldStops(p, step, n + 1, |s.namespaces|);
          return;
        }
        updated, failed := LabelAccountsIn(n, s, a, serviceAccounts, updated);
        if failed || updated > ANNOTATIONS_PER_RECONCILE {
          FoldStops(p, step, n + 1, |s.namespaces|);
          return;
        }
      }
    }

    /** The image streams of one namespace. */
    method LabelStreamsIn(n: nat, s: Scope, a: Answers, itemsUpdated: nat, ghost accounts: Accounts)
      returns (updated: nat, failed: bool)
      requires itemsUpdated <= ANNOTATIONS_PER_RECONCILE && n < |s.namespaces|
      modifies this
      ensures Now(updated, failed, accounts) ==
                Fold(old(Now(itemsUpdated, false, accounts)), StreamSteps(n, s, a), |ListIn(s.streams, s.namespaces[n])|)
    {
      hide Labelled;
      updated, failed := itemsUpdated, false;
      ghost var p, step := Now(itemsUpdated, false, accounts), StreamSteps(n, s, a);
      var list := ListIn(s.streams, s.namespaces[n]);
      for j := 0 to |list|
        invariant updated <= ANNOTATIONS_PER_RECONCILE && !failed
        invariant Now(updated, false, accounts) == Fold(p, step, j)
      {
        updated, failed := Label(StreamId(s.namespaces[n], list[j]), LabelOnly, a.streamUpdate(n, j), updated, accounts);
        if failed || updated > ANNOTATIONS_PER_RECONCILE {
          FoldStops(p, step, j + 1, |list|);
          return;
        }
      }
    }

    method LabelImageStreams(s: Scope, a: Answers, itemsUpdated: nat, ghost accounts: Accounts)
      returns (updated: nat, failed: bool)
      requires itemsUpdated <= ANNOTATIONS_PER_RECONCILE
      modifies this
      ensures Now(updated, failed, accounts) ==
                Fold(old(Now(itemsUpdated, false, accounts)), StreamsSteps(s, a), |s.namespaces|)
    {
      hide StreamSteps;
      updated, failed := itemsUpdated, false;
      ghost var p, step := Now(itemsUpdated, false, accounts), StreamsSteps(s, a);
      for n := 0 to |s.namespaces|
        invariant updated <= ANNOTATIONS_PER_RECONCILE && !failed
        invariant Now(updated, false, accounts) == Fold(p, step, n)
      {
        if !a.streamList(n) {
          failed := true;
          FoldStops(p, step, n + 1, |s.namespaces|);
          return;
        }
        updated, failed := LabelStreamsIn(n, s, a, updated, accounts);
        if failed || updated > ANNOTATIONS_PER_RECONCILE {
          FoldStops(p, step, n + 1, |s.namespaces|);
          return;
        }
      }
    }

    /** `annotateStageResources` */
    method AnnotateStageResources(s: Scope, a: Answers) returns (finished: bool, failed: bool)
      modifies this
      ensures marks == AfterPass(old(marks), s, a).marks
      ensures finished <==> AfterPass(old(marks), s, a).progress.Going?
      ensures failed <==> AfterPass(old(marks), s, a).progress.Failed?
    {
      hide Fold, NamespaceSteps, StreamsSteps;
      var itemsUpdated: nat;
      var serviceAccounts: Accounts;
      finished := false;
      itemsUpdated, failed := LabelNamespaces(s, a, 0, map[]);
      if failed || itemsUpdated > ANNOTATIONS_PER_RECONCILE {
        return;
      }
      itemsUpdated, serviceAccounts, failed := AnnotatePods(s, a, itemsUpdated);
      if failed || itemsUpdated > ANNOTATIONS_PER_RECONCILE {
        return;
      }
      itemsUpdated, failed := AnnotatePVs(s, a, itemsUpdated, serviceAccounts);
      if failed || itemsUpdated > ANNOTATIONS_PER_RECONCILE {
        return;
      }
      itemsUpdated, failed := LabelServiceAccounts(s, a, serviceAccounts, itemsUpdated);
      if failed || itemsUpdated > ANNOTATIONS_PER_RECONCILE {
        return;
      }
      if s.indirect {
        itemsUpdated, failed := LabelImageStreams(s, a, itemsUpdated, serviceAccounts);
        if failed || itemsUpdated > ANNOTATIONS_PER_RECONCILE {
          return;
        }
      }
      finished := true;
    }
  }

  // ---------------------------------------------------------------- what a pass may do

  predicate UniqueScope(s: Scope) {
    && (forall i, j :: 0 <= i < j < |s.pods| ==>
          s.pods[i].namespace != s.pods[j].namespace || s.pods[i].name != s.pods[j].name)
    && (forall i, j :: 0 <= i < j < |s.pvs| ==> s.pvs[i].name != s.pvs[j].name)
    && (forall i, j :: 0 <= i < j < |s.pvs| ==> ClaimIdOf(s.pvs[i]) != ClaimIdOf(s.pvs[j]))
  }

  function IdOfPod(pod: Pod): Id {
    PodId(pod.namespace, pod.name)
  }

  /** Everything a pass may mark. */
  function Universe(s: Scope): set<Id> {
    (set n | n in s.namespaces :: NamespaceId(n))
    + (set pod | pod in s.pods :: IdOfPod(pod))
    + (set pv | pv in s.pvs :: PvId(pv.name))
    + (set pv | pv in s.pvs :: ClaimIdOf(pv))
    + (set n, x | n in s.accounts && x in s.accounts[n] :: AccountId(n, x))
    + (set n, x | n in s.streams && x in s.streams[n] :: StreamId(n, x))
  }

  /** The note says what the plan selects for the object. */
  predicate RightNote(id: Id, note: Note, s: Scope) {
    && (forall i :: 0 <= i < |s.pods| && id == IdOfPod(s.pods[i]) ==> note == NoteOfPod(s.pods[i]))
    && (forall i :: 0 <= i < |s.pvs| && id == PvId(s.pvs[i].name) ==> note == NoteOfPv(s.pvs[i]))
    && (forall i :: 0 <= i < |s.pvs| && id == ClaimIdOf(s.pvs[i]) ==> note == NoteOfClaim(s.pvs[i]))
  }

  predicate Faithful(marks: Marks, s: Scope) {
    forall id :: id in marks ==> RightNote(id, marks[id], s)
  }

  predicate WithinLimit(p: Pass) {
    if p.progress.Enough? then p.updated == ANNOTATIONS_PER_RECONCILE + 1 else p.updated <= ANNOTATIONS_PER_RECONCILE
  }

  /** The marks whose writing counts: all but those of persistent volumes. */
  function CountedIn(marks: Marks): set<Id> {
    set id | id in marks && !id.PvId?
  }

  /** Marks are only added, within the scope and as selected, and one of those that count for each counted
      update. */
  predicate Advances(p: Pass, q: Pass, s: Scope) {
    && WithinLimit(q)
    && (forall id :: id in p.marks ==> id in q.marks && q.marks[id] == p.marks[id])
    && (forall id :: id in q.marks ==> id in p.marks || id in Universe(s))
    && 0 <= q.updated - p.updated <= |q.marks.Keys| - |p.marks.Keys|
    && q.updated - p.updated == |CountedIn(q.marks)| - |CountedIn(p.marks)|
    && (Faithful(p.marks, s) ==> Faithful(q.marks, s))
  }

  ghost predicate GoodStep(step: Step, s: Scope) {
    forall p: Pass, i: nat :: p.progress.Going? && WithinLimit(p) ==> Advances(p, step(p, i), s)
  }

  lemma AdvancesTransitive(p: Pass, q: Pass, r: Pass, s: Scope)
    requires Advances(p, q, s) && Advances(q, r, s)
    ensures Advances(p, r, s)
  {
    hide Universe, Faithful, WithinLimit, CountedIn;
  }

  lemma {:induction false} FoldAdvances(p: Pass, step: Step, n: nat, s: Scope)
    requires GoodStep(step, s) && WithinLimit(p)
    ensures Advances(p, Fold(p, step, n), s)
  {
    hide Advances, WithinLimit;
    if n == 0 {
      StaysPut(p, s);
    } else {
      FoldAdvances(p, step, n - 1, s);
      var before := Fold(p, step, n - 1);
      AdvancesWithinLimit(p, before, s);
      if before.progress.Going? {
        AdvancesTransitive(p, before, step(before, n - 1), s);
      }
    }
  }

  lemma StaysPut(p: Pass, s: Scope)
    requires WithinLimit(p)
    ensures Advances(p, p, s)
  {
  }

  lemma AdvancesWithinLimit(p: Pass, q: Pass, s: Scope)
    requires Advances(p, q, s)
    ensures WithinLimit(q)
  {
  }

  lemma FailingAdvances(p: Pass, s: Scope)
    requires p.progress.Going? && WithinLimit(p)
    ensures Advances(p, Failing(p), s)
  {
  }

  lemma MarkAdvances(p: Pass, q: Pass, id: Id, note: Note, s: Scope)
    requires id !in p.marks && id in Universe(s) && RightNote(id, note, s)
    requires q.marks == p.marks[id := note] && WithinLimit(q)
    requires q.updated == p.updated + if id.PvId? then 0 else 1
    ensures Advances(p, q, s)
  {
    KeysGrow(p.marks, id, note);
    MarkStaysFaithful(p.marks, id, note, s);
    hide Universe, RightNote, WithinLimit, Faithful, CountedIn;
  }

  lemma CountedGrow(marks: Marks, id: Id, note: Note)
    requires id !in marks
    ensures |CountedIn(marks[id := note])| == |CountedIn(marks)| + if id.PvId? then 0 else 1
  {
    var before, after := CountedIn(marks), CountedIn(marks[id := note]);
    assert forall x :: x in after <==> x in before || (x == id && !id.PvId?);
    hide CountedIn;
    if id.PvId? {
      assert after == before;
    } else {
      assert after == before + {id};
    }
  }

  lemma KeysGrow(marks: Marks, id: Id, note: Note)
    requires id !in marks
    ensures |marks[id := note].Keys| == |marks.Keys| + 1
    ensures |CountedIn(marks[id := note])| == |CountedIn(marks)| + if id.PvId? then 0 else 1
  {
    hide CountedIn;
    assert marks[id := note].Keys == marks.Keys + {id};
    CountedGrow(marks, id, note);
  }

  lemma MarkStaysFaithful(marks: Marks, id: Id, note: Note, s: Scope)
    requires RightNote(id, note, s)
    ensures Faithful(marks, s) ==> Faithful(marks[id := note], s)
  {
    hide RightNote;
  }

  lemma LabelledAdvances(p: Pass, id: Id, note: Note, ok: bool, s: Scope)
    requires p.progress.Going? && WithinLimit(p) && id in Universe(s) && RightNote(id, note, s) && !id.PvId?
    ensures Advances(p, Labelled(p, id, note, ok), s)
  {
    hide Universe, RightNote, Advances;
    if id in p.marks {
      StaysPut(p, s);
    } else if ok {
      MarkAdvances(p, Counted(p, id, note), id, note, s);
    } else {
      FailingAdvances(p, s);
    }
  }

  lemma NamespaceAdvances(p: Pass, i: nat, s: Scope, a: Answers)
    requires p.progress.Going? && WithinLimit(p)
    ensures Advances(p, NamespaceStep(p, i, s, a), s)
  {
    hide Advances, Labelled;
    if i >= |s.namespaces| {
      StaysPut(p, s);
    } else if !a.nsGet(i) {
      FailingAdvances(p, s);
    } else {
      LabelledAdvances(p, NamespaceId(s.namespaces[i]), LabelOnly, a.nsUpdate(i), s);
    }
  }

  lemma RightForPod(s: Scope, i: nat)
    requires UniqueScope(s) && i < |s.pods|
    ensures RightNote(IdOfPod(s.pods[i]), NoteOfPod(s.pods[i]), s) && IdOfPod(s.pods[i]) in Universe(s)
  {
  }

  lemma RightForPv(s: Scope, i: nat)
    requires UniqueScope(s) && i < |s.pvs|
    ensures RightNote(PvId(s.pvs[i].name), NoteOfPv(s.pvs[i]), s) && PvId(s.pvs[i].name) in Universe(s)
    ensures RightNote(ClaimIdOf(s.pvs[i]), NoteOfClaim(s.pvs[i]), s) && ClaimIdOf(s.pvs[i]) in Universe(s)
  {
    assert s.pvs[i] in s.pvs;
  }

  lemma PodAdvances(p: Pass, i: nat, s: Scope, a: Answers)
    requires UniqueScope(s) && p.progress.Going? && WithinLimit(p)
    ensures Advances(p, PodStep(p, i, s, a), s)
  {
    hide Advances, Universe, RightNote, NoteOfPod, UniqueScope;
    if i >= |s.pods| || (a.podVolumes(i) && IdOfPod(s.pods[i]) in p.marks) {
      StaysPut(p, s);
    } else if !a.podVolumes(i) || !a.podUpdate(i) {
      FailingAdvances(p, s);
    } else {
      RightForPod(s, i);
      MarkAdvances(p, PodStep(p, i, s, a), IdOfPod(s.pods[i]), NoteOfPod(s.pods[i]), s);
    }
  }

  lemma PvAdvances(p: Pass, i: nat, s: Scope, a: Answers)
    requires UniqueScope(s) && p.progress.Going? && WithinLimit(p)
    ensures Advances(p, PvStep(p, i, s, a), s)
  {
    hide Advances, Universe, RightNote, NoteOfPv, NoteOfClaim, Labelled, UniqueScope;
    if i >= |s.pvs| || (a.pvGet(i) && PvId(s.pvs[i].name) in p.marks) {
      StaysPut(p, s);
    } else if !a.pvGet(i) || !a.pvUpdate(i) {
      FailingAdvances(p, s);
    } else {
      var pv := s.pvs[i];
      var q := p.(marks := p.marks[PvId(pv.name) := NoteOfPv(pv)]);
      RightForPv(s, i);
      MarkAdvances(p, q, PvId(pv.name), NoteOfPv(pv), s);
      if a.pvcGet(i) {
        LabelledAdvances(q, ClaimIdOf(pv), NoteOfClaim(pv), a.pvcUpdate(i), s);
      } else {
        FailingAdvances(q, s);
      }
      AdvancesTransitive(p, q, PvStep(p, i, s, a), s);
    }
  }

  lemma AccountAdvances(p: Pass, j: nat, n: nat, s: Scope, a: Answers)
    requires p.progress.Going? && WithinLimit(p)
    ensures Advances(p, AccountStep(p, j, n, s, a), s)
  {
    hide Advances, Labelled, WithinLimit;
    if n < |s.namespaces| && j < |ListIn(s.accounts, s.namespaces[n])| {
      LabelledAdvances(p, AccountId(s.namespaces[n], ListIn(s.accounts, s.namespaces[n])[j]), LabelOnly,
                       a.accountUpdate(n, j), s);
    }
    StaysPut(p, s);
  }

  lemma StreamAdvances(p: Pass, j: nat, n: nat, s: Scope, a: Answers)
    requires p.progress.Going? && WithinLimit(p)
    ensures Advances(p, StreamStep(p, j, n, s, a), s)
  {
    hide Advances, Labelled, WithinLimit;
    if n < |s.namespaces| && j < |ListIn(s.streams, s.namespaces[n])| {
      LabelledAdvances(p, StreamId(s.namespaces[n], ListIn(s.streams, s.namespaces[n])[j]), LabelOnly,
                       a.streamUpdate(n, j), s);
    }
    StaysPut(p, s);
  }

  lemma InnerStepsAreGood(n: nat, s: Scope, a: Answers)
    ensures GoodStep(AccountSteps(n, s, a), s) && GoodStep(StreamSteps(n, s, a), s)
  {
    hide Advances, AccountStep, StreamStep, WithinLimit;
    forall p: Pass, j: nat | p.progress.Going? && WithinLimit(p)
      ensures Advances(p, AccountSteps(n, s, a)(p, j), s) && Advances(p, StreamSteps(n, s, a)(p, j), s)
    {
      AccountAdvances(p, j, n, s, a);
      StreamAdvances(p, j, n, s, a);
    }
  }

  lemma OuterStepsAdvance(p: Pass, n: nat, s: Scope, a: Answers)
    requires p.progress.Going? && WithinLimit(p)
    ensures Advances(p, AccountsStep(p, n, s, a), s) && Advances(p, StreamsStep(p, n, s, a), s)
  {
    hide Advances, GoodStep, AccountSteps, StreamSteps, Fold;
    InnerStepsAreGood(n, s, a);
    StaysPut(p, s);
    FailingAdvances(p, s);
    if n < |s.namespaces| {
      FoldAdvances(p, AccountSteps(n, s, a), |ListIn(s.accounts, s.namespaces[n])|, s);
      FoldAdvances(p, StreamSteps(n, s, a), |ListIn(s.streams, s.namespaces[n])|, s);
    }
  }

  lemma StepsAreGood(s: Scope, a: Answers)
    requires UniqueScope(s)
    ensures GoodStep(NamespaceSteps(s, a), s) && GoodStep(PodSteps(s, a), s) && GoodStep(PvSteps(s, a), s)
    ensures GoodStep(AccountsSteps(s, a), s) && GoodStep(StreamsSteps(s, a), s)
  {
    hide Advances, NamespaceStep, PodStep, PvStep, AccountsStep, StreamsStep, WithinLimit, UniqueScope;
    forall p: Pass, i: nat | p.progress.Going? && WithinLimit(p)
      ensures Advances(p, NamespaceSteps(s, a)(p, i), s) && Advances(p, PodSteps(s, a)(p, i), s)
      ensures Advances(p, PvSteps(s, a)(p, i), s)
      ensures Advances(p, AccountsSteps(s, a)(p, i), s) && Advances(p, StreamsSteps(s, a)(p, i), s)
    {
      NamespaceAdvances(p, i, s, a);
      PodAdvances(p, i, s, a);
      PvAdvances(p, i, s, a);
      OuterStepsAdvance(p, i, s, a);
    }
  }

  lemma EarlyStagesAdvance(p0: Pass, s: Scope, a: Answers)
    requires UniqueScope(s) && WithinLimit(p0)
    ensures var p1 := AfterNamespaces(p0, s, a);
            var p2 := AfterPods(p1, s, a);
            Advances(p0, p1, s) && Advances(p1, p2, s) && WithinLimit(p2)
  {
    hide Advances, GoodStep, Fold, NamespaceSteps, PodSteps, WithinLimit, UniqueScope;
    StepsAreGood(s, a);
    var p1 := AfterNamespaces(p0, s, a);
    FoldAdvances(p0, NamespaceSteps(s, a), |s.namespaces|, s);
    AdvancesWithinLimit(p0, p1, s);
    var p2 := AfterPods(p1, s, a);
    StaysPut(p1, s);
    if p1.progress.Going? { FailingAdvances(p1, s); }
    FoldAdvances(p1, PodSteps(s, a), |s.pods|, s);
    AdvancesWithinLimit(p1, p2, s);
  }

  lemma LateStagesAdvance(p2: Pass, s: Scope, a: Answers)
    requires UniqueScope(s) && WithinLimit(p2)
    ensures var p3 := AfterPvs(p2, s, a);
            var p4 := AfterAccounts(p3, s, a);
            Advances(p2, p3, s) && Advances(p3, p4, s) && Advances(p4, AfterStreams(p4, s, a), s)
  {
    hide Advances, GoodStep, Fold, PvSteps, AccountsSteps, StreamsSteps, WithinLimit, UniqueScope;
    StepsAreGood(s, a);
    var p3 := AfterPvs(p2, s, a);
    StaysPut(p2, s);
    FoldAdvances(p2, PvSteps(s, a), |s.pvs|, s);
    AdvancesWithinLimit(p2, p3, s);
    var p4 := AfterAccounts(p3, s, a);
    StaysPut(p3, s);
    FoldAdvances(p3, AccountsSteps(s, a), |s.namespaces|, s);
    AdvancesWithinLimit(p3, p4, s);
    StaysPut(p4, s);
    FoldAdvances(p4, StreamsSteps(s, a), |s.namespaces|, s);
  }

  /** The five stages of a pass, one after the other. */
  lemma StagesAdvance(marks: Marks, s: Scope, a: Answers)
    requires UniqueScope(s)
    ensures var p0 := Start(marks);
            var p1 := AfterNamespaces(p0, s, a);
            var p2 := AfterPods(p1, s, a);
            var p3 := AfterPvs(p2, s, a);
            var p4 := AfterAccounts(p3, s, a);
            var p5 := AfterStreams(p4, s, a);
            && Advances(p0, p1, s) && Advances(p1, p2, s) && Advances(p2, p3, s) && Advances(p3, p4, s)
            && Advances(p4, p5, s) && p5 == AfterPass(marks, s, a)
  {
    hide Advances, AfterNamespaces, AfterPods, AfterPvs, AfterAccounts, AfterStreams, UniqueScope;
    EarlyStagesAdvance(Start(marks), s, a);
    LateStagesAdvance(AfterPods(AfterNamespaces(Start(marks), s, a), s, a), s, a);
  }

  /** One pass, whatever calls fail: marks are never removed or changed, the counted updates are exactly the
      objects newly marked that are not persistent volumes, and a pass that stops early without an error
      made exactly 51. */
  lemma PassAdvances(marks: Marks, s: Scope, a: Answers)
    requires UniqueScope(s)
    ensures Advances(Start(marks), AfterPass(marks, s, a), s)
    ensures AfterPass(marks, s, a).progress.Enough? ==>
              && AfterPass(marks, s, a).updated == 51
              && |AfterPass(marks, s, a).marks.Keys| >= |marks.Keys| + 51
              && |CountedIn(AfterPass(marks, s, a).marks)| == |CountedIn(marks)| + 51
    ensures !AfterPass(marks, s, a).progress.Enough? ==>
              |CountedIn(AfterPass(marks, s, a).marks)| <= |CountedIn(marks)| + 50
  {
    var p0 := Start(marks);
    var p1 := AfterNamespaces(p0, s, a);
    var p2 := AfterPods(p1, s, a);
    var p3 := AfterPvs(p2, s, a);
    var p4 := AfterAccounts(p3, s, a);
    var p5 := AfterStreams(p4, s, a);
    StagesAdvance(marks, s, a);
    hide AfterNamespaces, AfterPods, AfterPvs, AfterAccounts, AfterStreams, Universe, Faithful, CountedIn;
    AdvancesTransitive(p0, p1, p2, s);
    AdvancesTransitive(p0, p2, p3, s);
    AdvancesTransitive(p0, p3, p4, s);
    AdvancesTransitive(p0, p4, p5, s);
  }

  // ---------------------------------------------------------------- repeated passes

  function AfterPasses(marks: Marks, s: Scope, passes: seq<Answers>): Marks {
    if passes == [] then marks
    else AfterPass(AfterPasses(marks, s, passes[..|passes| - 1]), s, passes[|passes| - 1]).marks
  }

  /** How many of the passes returned false without an error. */
  function EarlyEnds(marks: Marks, s: Scope, passes: seq<Answers>): nat {
    if passes == [] then 0
    else
      var before := passes[..|passes| - 1];
      EarlyEnds(marks, s, before)
      + if AfterPass(AfterPasses(marks, s, before), s, passes[|passes| - 1]).progress.Enough? then 1 else 0
  }

  lemma {:induction false} PassesAdvance(marks: Marks, s: Scope, passes: seq<Answers>)
    requires UniqueScope(s)
    ensures var after := AfterPasses(marks, s, passes);
            && (forall id :: id in marks ==> id in after && after[id] == marks[id])
            && after.Keys - marks.Keys <= Universe(s)
            && (Faithful(marks, s) ==> Faithful(after, s))
            && 51 * EarlyEnds(marks, s, passes) <= |after.Keys| - |marks.Keys|
  {
    if passes != [] {
      var before := passes[..|passes| - 1];
      PassesAdvance(marks, s, before);
      PassAdvances(AfterPasses(marks, s, before), s, passes[|passes| - 1]);
      hide AfterPass, Universe, Faithful, UniqueScope;
    }
  }

  lemma GrowthFits(before: set<Id>, after: set<Id>, all: set<Id>)
    requires before <= after && after - before <= all
    ensures |after| - |before| <= |all - before|
  {
    var grown, room := after - before, all - before;
    assert after == before + grown;
    assert room == grown + (room - grown);
  }

  /** Main result: however many passes are made and whatever fails in them, the passes that end early
      without an error are at most a 51st of the objects still to be marked; so repeating them ends. */
  lemma EarlyEndsAreBounded(marks: Marks, s: Scope, passes: seq<Answers>)
    requires UniqueScope(s)
    ensures 51 * EarlyEnds(marks, s, passes) <= |Universe(s) - marks.Keys|
  {
    hide AfterPasses, EarlyEnds, Universe, UniqueScope, Faithful;
    PassesAdvance(marks, s, passes);
    GrowthFits(marks.Keys, AfterPasses(marks, s, passes).Keys, Universe(s));
  }

  /** Of enough passes without an error, one returns true. */
  lemma SomePassFinishes(marks: Marks, s: Scope, passes: seq<Answers>)
    requires UniqueScope(s) && 51 * |passes| > |Universe(s) - marks.Keys|
    requires forall k :: 0 <= k < |passes| ==> !PassAt(marks, s, passes, k).progress.Failed?
    ensures exists k :: 0 <= k < |passes| && PassAt(marks, s, passes, k).progress.Going?
  {
    hide Universe, UniqueScope, PassAt;
    EarlyEndsAreBounded(marks, s, passes);
    if forall k :: 0 <= k < |passes| ==> !PassAt(marks, s, passes, k).progress.Going? {
      AllEndEarly(marks, s, passes);
    }
  }

  function PassAt(marks: Marks, s: Scope, passes: seq<Answers>, k: nat): Pass
    requires k < |passes|
  {
    AfterPass(AfterPasses(marks, s, passes[..k]), s, passes[k])
  }

  lemma {:induction false} AllEndEarly(marks: Marks, s: Scope, passes: seq<Answers>)
    requires forall k :: 0 <= k < |passes| ==> PassAt(marks, s, passes, k).progress.Enough?
    ensures EarlyEnds(marks, s, passes) == |passes|
  {
    hide AfterPass, AfterPasses;
    if passes != [] {
      var n := |passes| - 1;
      forall k | 0 <= k < n ensures PassAt(marks, s, passes[..n], k) == PassAt(marks, s, passes, k) {
        assert passes[..n][..k] == passes[..k];
      }
      AllEndEarly(marks, s, passes[..n]);
      assert PassAt(marks, s, passes, n).progress.Enough?;
    }
  }

  // ---------------------------------------------------------------- a pass that returns true

  lemma {:induction false} FoldGoing(p: Pass, step: Step, n: nat, i: nat)
    requires i < n && Fold(p, step, n).progress.Going?
    ensures Fold(p, step, i).progress.Going? && Fold(p, step, i + 1) == step(Fold(p, step, i), i)
    ensures Fold(p, step, i + 1).progress.Going?
  {
    if i < n - 1 { FoldGoing(p, step, n - 1, i); }
  }

  predicate Kept(p: Pass, q: Pass) {
    forall id :: id in p.marks ==> id in q.marks
  }

  lemma AdvancesKeeps(p: Pass, q: Pass, s: Scope)
    requires Advances(p, q, s)
    ensures Kept(p, q)
  {
    hide Universe, Faithful, WithinLimit;
  }

  lemma {:induction false} FoldKeepsMarks(p: Pass, step: Step, i: nat, n: nat, s: Scope)
    requires GoodStep(step, s) && WithinLimit(p) && i <= n
    ensures Kept(Fold(p, step, i), Fold(p, step, n))
  {
    hide Advances, WithinLimit;
    if i < n {
      var before := Fold(p, step, n - 1);
      FoldKeepsMarks(p, step, i, n - 1, s);
      FoldAdvances(p, step, n - 1, s);
      AdvancesWithinLimit(p, before, s);
      if before.progress.Going? {
        AdvancesKeeps(before, step(before, n - 1), s);
      }
    }
  }

  /** Step i of a fold that is still going at the end marked its object. */
  lemma FoldMarks(p: Pass, step: Step, n: nat, i: nat, id: Id, s: Scope)
    requires GoodStep(step, s) && WithinLimit(p) && i < n && Fold(p, step, n).progress.Going?
    requires var q := step(Fold(p, step, i), i); q.progress.Going? ==> id in q.marks
    ensures id in Fold(p, step, n).marks
  {
    hide GoodStep, WithinLimit;
    FoldGoing(p, step, n, i);
    FoldKeepsMarks(p, step, i + 1, n, s);
  }

  predicate NamespacesIn(marks: Marks, s: Scope) {
    forall i :: 0 <= i < |s.namespaces| ==> NamespaceId(s.namespaces[i]) in marks
  }

  predicate PodsIn(marks: Marks, s: Scope) {
    forall i :: 0 <= i < |s.pods| ==> IdOfPod(s.pods[i]) in marks
  }

  predicate PvsIn(marks: Marks, s: Scope) {
    forall i :: 0 <= i < |s.pvs| ==> PvId(s.pvs[i].name) in marks
  }

  predicate StreamsIn(marks: Marks, s: Scope) {
    forall n, j :: 0 <= n < |s.namespaces| && 0 <= j < |ListIn(s.streams, s.namespaces[n])| ==>
      StreamId(s.namespaces[n], ListIn(s.streams, s.namespaces[n])[j]) in marks
  }

  lemma StepsMark(p: Pass, s: Scope, a: Answers, i: nat)
    ensures i < |s.namespaces| && NamespaceStep(p, i, s, a).progress.Going? ==>
              NamespaceId(s.namespaces[i]) in NamespaceStep(p, i, s, a).marks
    ensures i < |s.pods| && PodStep(p, i, s, a).progress.Going? ==> IdOfPod(s.pods[i]) in PodStep(p, i, s, a).marks
    ensures i < |s.pvs| && PvStep(p, i, s, a).progress.Going? ==> PvId(s.pvs[i].name) in PvStep(p, i, s, a).marks
  {
    hide NoteOfPv, NoteOfClaim, NoteOfPod;
  }

  lemma NamespacesMarked(p: Pass, s: Scope, a: Answers)
    requires UniqueScope(s) && WithinLimit(p) && AfterNamespaces(p, s, a).progress.Going?
    ensures NamespacesIn(AfterNamespaces(p, s, a).marks, s)
  {
    hide GoodStep, Fold, UniqueScope, NamespaceStep, WithinLimit;
    StepsAreGood(s, a);
    forall i | 0 <= i < |s.namespaces| ensures NamespaceId(s.namespaces[i]) in AfterNamespaces(p, s, a).marks {
      StepsMark(Fold(p, NamespaceSteps(s, a), i), s, a, i);
      FoldMarks(p, NamespaceSteps(s, a), |s.namespaces|, i, NamespaceId(s.namespaces[i]), s);
    }
  }

  lemma PodsMarked(p: Pass, s: Scope, a: Answers)
    requires UniqueScope(s) && WithinLimit(p) && AfterPods(p, s, a).progress.Going?
    ensures PodsIn(AfterPods(p, s, a).marks, s)
  {
    hide GoodStep, Fold, UniqueScope, PodStep, WithinLimit;
    StepsAreGood(s, a);
    forall i | 0 <= i < |s.pods| ensures IdOfPod(s.pods[i]) in AfterPods(p, s, a).marks {
      StepsMark(Fold(p, PodSteps(s, a), i), s, a, i);
      FoldMarks(p, PodSteps(s, a), |s.pods|, i, IdOfPod(s.pods[i]), s);
    }
  }

  lemma PvsMarked(p: Pass, s: Scope, a: Answers)
    requires UniqueScope(s) && WithinLimit(p) && AfterPvs(p, s, a).progress.Going?
    ensures PvsIn(AfterPvs(p, s, a).marks, s)
  {
    hide GoodStep, Fold, UniqueScope, PvStep, WithinLimit;
    StepsAreGood(s, a);
    forall i | 0 <= i < |s.pvs| ensures PvId(s.pvs[i].name) in AfterPvs(p, s, a).marks {
      StepsMark(Fold(p, PvSteps(s, a), i), s, a, i);
      FoldMarks(p, PvSteps(s, a), |s.pvs|, i, PvId(s.pvs[i].name), s);
    }
  }

  lemma StreamsMarked(p: Pass, s: Scope, a: Answers, n: nat, j: nat)
    requires UniqueScope(s) && WithinLimit(p) && p.progress.Going? && s.indirect && AfterStreams(p, s, a).progress.Going?
    requires n < |s.namespaces| && j < |ListIn(s.streams, s.namespaces[n])|
    ensures StreamId(s.namespaces[n], ListIn(s.streams, s.namespaces[n])[j]) in AfterStreams(p, s, a).marks
  {
    hide GoodStep, Fold, UniqueScope, WithinLimit, Advances;
    var step, inner := StreamsSteps(s, a), StreamSteps(n, s, a);
    var id, list := StreamId(s.namespaces[n], ListIn(s.streams, s.namespaces[n])[j]), ListIn(s.streams, s.namespaces[n]);
    var before := Fold(p, step, n);
    StepsAreGood(s, a);
    InnerStepsAreGood(n, s, a);
    FoldAdvances(p, step, n, s);
    AdvancesWithinLimit(p, before, s);
    if step(before, n).progress.Going? {
      FoldGoing(p, step, |s.namespaces|, n);
      FoldMarks(before, inner, |list|, j, id, s);
    }
    FoldMarks(p, step, |s.namespaces|, n, id, s);
  }

  lemma StagesKeep(marks: Marks, s: Scope, a: Answers)
    requires UniqueScope(s)
    ensures var p0 := Start(marks);
            var p1 := AfterNamespaces(p0, s, a);
            var p2 := AfterPods(p1, s, a);
            var p3 := AfterPvs(p2, s, a);
            var p4 := AfterAccounts(p3, s, a);
            var p5 := AfterPass(marks, s, a);
            && WithinLimit(p0) && WithinLimit(p1) && WithinLimit(p2) && WithinLimit(p3) && WithinLimit(p4)
            && Kept(p1, p5) && Kept(p2, p5) && Kept(p3, p5) && Kept(p4, p5)
  {
    StagesAdvance(marks, s, a);
    var p0 := Start(marks);
    var p1 := AfterNamespaces(p0, s, a);
    var p2 := AfterPods(p1, s, a);
    var p3 := AfterPvs(p2, s, a);
    var p4 := AfterAccounts(p3, s, a);
    var p5 := AfterStreams(p4, s, a);
    assert WithinLimit(p0);
    hide AfterNamespaces, AfterPods, AfterPvs, AfterAccounts, AfterStreams, Advances, WithinLimit;
    AdvancesWithinLimit(p0, p1, s);
    AdvancesWithinLimit(p1, p2, s);
    AdvancesWithinLimit(p2, p3, s);
    AdvancesWithinLimit(p3, p4, s);
    AdvancesKeeps(p1, p2, s);
    AdvancesKeeps(p2, p3, s);
    AdvancesKeeps(p3, p4, s);
    AdvancesKeeps(p4, p5, s);
  }

  /** Main result: when a pass returns true, every source namespace, stage pod and stage volume is marked,
      and every image stream when images are migrated indirectly. */
  lemma TrueMeansMarked(marks: Marks, s: Scope, a: Answers)
    requires UniqueScope(s) && AfterPass(marks, s, a).progress.Going?
    ensures var after := AfterPass(marks, s, a).marks;
            NamespacesIn(after, s) && PodsIn(after, s) && PvsIn(after, s) && (s.indirect ==> StreamsIn(after, s))
  {
    var p0 := Start(marks);
    var p1 := AfterNamespaces(p0, s, a);
    var p2 := AfterPods(p1, s, a);
    var p3 := AfterPvs(p2, s, a);
    var p4 := AfterAccounts(p3, s, a);
    StagesGoing(marks, s, a);
    StagesKeep(marks, s, a);
    NamespacesMarked(p0, s, a);
    PodsMarked(p1, s, a);
    PvsMarked(p2, s, a);
    if s.indirect {
      forall n, j | 0 <= n < |s.namespaces| && 0 <= j < |ListIn(s.streams, s.namespaces[n])|
        ensures StreamId(s.namespaces[n], ListIn(s.streams, s.namespaces[n])[j]) in AfterStreams(p4, s, a).marks
      {
        StreamsMarked(p4, s, a, n, j);
      }
    }
    hide AfterNamespaces, AfterPods, AfterPvs, AfterAccounts, AfterStreams, UniqueScope, WithinLimit, ListIn;
  }

  /** Starting from marks that are as selected (from none, say), whatever marks any number of passes have
      left, a stage pod, volume or claim that is marked carries what the user selected: a volume its action
      and storage class, and the copy method when it is copied; a claim its action, and the storage class,
      the copy method and the access mode, where one is selected, when it is copied. */
  lemma MarkedAsSelected(marks: Marks, s: Scope, passes: seq<Answers>)
    requires UniqueScope(s) && Faithful(marks, s)
    ensures var after := AfterPasses(marks, s, passes);
            && (forall i :: 0 <= i < |s.pods| && IdOfPod(s.pods[i]) in after ==>
                  && after[IdOfPod(s.pods[i])].ResticNote?
                  && after[IdOfPod(s.pods[i])].volumes == s.pods[i].volumes
                  && after[IdOfPod(s.pods[i])].verify == s.pods[i].verify)
            && (forall i :: 0 <= i < |s.pvs| && PvId(s.pvs[i].name) in after ==>
                  VolumeMarkedAs(after[PvId(s.pvs[i].name)], s.pvs[i]))
            && (forall i :: 0 <= i < |s.pvs| && ClaimIdOf(s.pvs[i]) in after ==>
                  ClaimMarkedAs(after[ClaimIdOf(s.pvs[i])], s.pvs[i]))
  {
    hide AfterPasses, UniqueScope, Universe, EarlyEnds;
    PassesAdvance(marks, s, passes);
  }

  predicate VolumeMarkedAs(note: Note, pv: StagePv) {
    && note.PvNote? && note.action == pv.action && note.storageClass == pv.storageClass
    && (pv.action == Copy ==> note.copyMethod == Some(pv.copyMethod))
    && (pv.action != Copy ==> note.copyMethod.None?)
  }

  predicate ClaimMarkedAs(note: Note, pv: StagePv) {
    && note.ClaimNote? && note.action == pv.action
    && (pv.action == Copy ==> note.claimClass == Some(pv.storageClass) && note.claimMethod == Some(pv.copyMethod))
    && (pv.action == Copy && pv.accessMode != "" ==> note.accessMode == Some(pv.accessMode))
    && (pv.accessMode == "" ==> note.accessMode.None?)
    && (pv.action != Copy ==> note.claimClass.None? && note.claimMethod.None? && note.accessMode.None?)
  }

  lemma StagesGoing(marks: Marks, s: Scope, a: Answers)
    requires AfterPass(marks, s, a).progress.Going?
    ensures var p1 := AfterNamespaces(Start(marks), s, a);
            var p2 := AfterPods(p1, s, a);
            var p3 := AfterPvs(p2, s, a);
            var p4 := AfterAccounts(p3, s, a);
            && p1.progress.Going? && p2.progress.Going? && p3.progress.Going? && p4.progress.Going?
  {
    hide Fold, NamespaceSteps, PodSteps, PvSteps, AccountsSteps, StreamsSteps;
  }

  // ---------------------------------------------------------------- what fails a pass

  /** Every call of the pass succeeds. */
  ghost predicate NoCallFails(a: Answers) {
    && a.podList
    && (forall i :: a.nsGet(i) && a.nsUpdate(i) && a.podVolumes(i) && a.podUpdate(i))
    && (forall i :: a.pvGet(i) && a.pvUpdate(i) && a.pvcGet(i) && a.pvcUpdate(i))
    && (forall n :: a.accountList(n) && a.streamList(n))
    && (forall n, j :: a.accountUpdate(n, j) && a.streamUpdate(n, j))
  }

  ghost predicate NeverFails(step: Step) {
    forall p: Pass, i: nat :: p.progress.Going? ==> !step(p, i).progress.Failed?
  }

  lemma {:induction false} FoldNeverFails(p: Pass, step: Step, n: nat)
    requires NeverFails(step) && !p.progress.Failed?
    ensures !Fold(p, step, n).progress.Failed?
  {
    if n > 0 { FoldNeverFails(p, step, n - 1); }
  }

  lemma StepsNeverFail(n: nat, s: Scope, a: Answers)
    requires NoCallFails(a)
    ensures NeverFails(NamespaceSteps(s, a)) && NeverFails(PodSteps(s, a)) && NeverFails(PvSteps(s, a))
    ensures NeverFails(AccountSteps(n, s, a)) && NeverFails(StreamSteps(n, s, a))
  {
  }

  lemma OuterStepsNeverFail(s: Scope, a: Answers)
    requires NoCallFails(a)
    ensures NeverFails(AccountsSteps(s, a)) && NeverFails(StreamsSteps(s, a))
  {
    hide Fold, AccountSteps, StreamSteps, NeverFails;
    forall p: Pass, n: nat | p.progress.Going?
      ensures !AccountsStep(p, n, s, a).progress.Failed? && !StreamsStep(p, n, s, a).progress.Failed?
    {
      StepsNeverFail(n, s, a);
      if n < |s.namespaces| {
        FoldNeverFails(p, AccountSteps(n, s, a), |ListIn(s.accounts, s.namespaces[n])|);
        FoldNeverFails(p, StreamSteps(n, s, a), |ListIn(s.streams, s.namespaces[n])|);
      }
    }
    OuterNeverFail(s, a);
  }

  lemma OuterNeverFail(s: Scope, a: Answers)
    requires forall p: Pass, n: nat :: p.progress.Going? ==>
               !AccountsStep(p, n, s, a).progress.Failed? && !StreamsStep(p, n, s, a).progress.Failed?
    ensures NeverFails(AccountsSteps(s, a)) && NeverFails(StreamsSteps(s, a))
  {
    hide AccountsStep, StreamsStep;
  }

  /** A pass fails only when a call has failed. */
  lemma FailuresComeFromCalls(marks: Marks, s: Scope, a: Answers)
    requires NoCallFails(a)
    ensures !AfterPass(marks, s, a).progress.Failed?
  {
    StepsNeverFail(0, s, a);
    OuterStepsNeverFail(s, a);
    hide Fold, NeverFails, NoCallFails, NamespaceSteps, PodSteps, PvSteps, AccountsSteps, StreamsSteps;
    var p0 := Start(marks);
    var p1 := AfterNamespaces(p0, s, a);
    FoldNeverFails(p0, NamespaceSteps(s, a), |s.namespaces|);
    var p2 := AfterPods(p1, s, a);
    FoldNeverFails(p1, PodSteps(s, a), |s.pods|);
    var p3 := AfterPvs(p2, s, a);
    FoldNeverFails(p2, PvSteps(s, a), |s.pvs|);
    var p4 := AfterAccounts(p3, s, a);
    FoldNeverFails(p3, AccountsSteps(s, a), |s.namespaces|);
    FoldNeverFails(p4, StreamsSteps(s, a), |s.namespaces|);
  }

  // ---------------------------------------------------------------- what later passes do not make up for

  /** A stage pod of the namespace and account was still to be annotated. */
  predicate FreshPod(marks: Marks, s: Scope, namespace: string, account: string) {
    exists i :: 0 <= i < |s.pods| && s.pods[i].namespace == namespace && s.pods[i].account == account
                && IdOfPod(s.pods[i]) !in marks
  }

  /** An existing account, in a source namespace, of such a pod. */
  predicate DueAccount(marks: Marks, s: Scope, namespace: string, account: string) {
    FreshPod(marks, s, namespace, account) && namespace in s.namespaces && account in ListIn(s.accounts, namespace)
  }

  /** Since the pass began, accounts were labelled and collected only for pods then unmarked, and claims
      marked only with volumes then unmarked. */
  ghost predicate OnlyFresh(p: Pass, start: Marks, s: Scope) {
    && (forall id :: id in start ==> id in p.marks)
    && (forall n, x :: AccountId(n, x) in p.marks ==> AccountId(n, x) in start || DueAccount(start, s, n, x))
    && (forall n, x :: n in p.accounts && x in p.accounts[n] ==> FreshPod(start, s, n, x))
    && (forall i :: 0 <= i < |s.pvs| && ClaimIdOf(s.pvs[i]) in p.marks ==>
          ClaimIdOf(s.pvs[i]) in start || PvId(s.pvs[i].name) !in start)
  }

  ghost predicate StaysFresh(step: Step, start: Marks, s: Scope) {
    forall p: Pass, i: nat :: OnlyFresh(p, start, s) ==> OnlyFresh(step(p, i), start, s)
  }

  lemma {:induction false} FoldStaysFresh(p: Pass, step: Step, n: nat, start: Marks, s: Scope)
    requires StaysFresh(step, start, s) && OnlyFresh(p, start, s)
    ensures OnlyFresh(Fold(p, step, n), start, s)
  {
    hide OnlyFresh;
    if n > 0 { FoldStaysFresh(p, step, n - 1, start, s); }
  }

  lemma SimpleStepsStayFresh(p: Pass, i: nat, n: nat, start: Marks, s: Scope, a: Answers)
    requires OnlyFresh(p, start, s)
    ensures OnlyFresh(NamespaceStep(p, i, s, a), start, s)
    ensures OnlyFresh(AccountStep(p, i, n, s, a), start, s)
    ensures OnlyFresh(StreamStep(p, i, n, s, a), start, s)
  {
    hide FreshPod;
  }

  lemma PodStaysFresh(p: Pass, i: nat, start: Marks, s: Scope, a: Answers)
    requires OnlyFresh(p, start, s)
    ensures OnlyFresh(PodStep(p, i, s, a), start, s)
  {
    hide FreshPod;
    if i < |s.pods| && IdOfPod(s.pods[i]) !in p.marks {
      FreshPodAt(start, s, i);
    }
  }

  lemma FreshPodAt(start: Marks, s: Scope, i: nat)
    requires i < |s.pods| && IdOfPod(s.pods[i]) !in start
    ensures FreshPod(start, s, s.pods[i].namespace, s.pods[i].account)
  {
  }

  lemma PvStaysFresh(p: Pass, i: nat, start: Marks, s: Scope, a: Answers)
    requires UniqueScope(s) && OnlyFresh(p, start, s)
    ensures OnlyFresh(PvStep(p, i, s, a), start, s)
  {
    hide FreshPod, NoteOfPv, NoteOfClaim;
    if i < |s.pvs| {
      assert forall j :: 0 <= j < |s.pvs| && j != i ==> ClaimIdOf(s.pvs[j]) != ClaimIdOf(s.pvs[i]);
    }
  }

  lemma NestedStepsStayFresh(p: Pass, n: nat, start: Marks, s: Scope, a: Answers)
    requires OnlyFresh(p, start, s)
    ensures OnlyFresh(AccountsStep(p, n, s, a), start, s) && OnlyFresh(StreamsStep(p, n, s, a), start, s)
  {
    hide Fold, AccountStep, StreamStep;
    forall q: Pass, j: nat | OnlyFresh(q, start, s)
      ensures OnlyFresh(AccountSteps(n, s, a)(q, j), start, s) && OnlyFresh(StreamSteps(n, s, a)(q, j), start, s)
    {
      SimpleStepsStayFresh(q, j, n, start, s, a);
    }
    if n < |s.namespaces| {
      FoldStaysFresh(p, AccountSteps(n, s, a), |ListIn(s.accounts, s.namespaces[n])|, start, s);
      FoldStaysFresh(p, StreamSteps(n, s, a), |ListIn(s.streams, s.namespaces[n])|, start, s);
    }
    FailingStaysFresh(p, start, s);
    hide OnlyFresh;
  }

  lemma FailingStaysFresh(p: Pass, start: Marks, s: Scope)
    requires OnlyFresh(p, start, s)
    ensures OnlyFresh(Failing(p), start, s)
  {
  }

  lemma StepsStayFresh(start: Marks, s: Scope, a: Answers)
    requires UniqueScope(s)
    ensures StaysFresh(NamespaceSteps(s, a), start, s) && StaysFresh(PodSteps(s, a), start, s)
    ensures StaysFresh(PvSteps(s, a), start, s)
    ensures StaysFresh(AccountsSteps(s, a), start, s) && StaysFresh(StreamsSteps(s, a), start, s)
  {
    hide OnlyFresh, UniqueScope, NamespaceStep, PodStep, PvStep, AccountsStep, StreamsStep;
    forall p: Pass, i: nat | OnlyFresh(p, start, s)
      ensures OnlyFresh(NamespaceSteps(s, a)(p, i), start, s) && OnlyFresh(PodSteps(s, a)(p, i), start, s)
      ensures OnlyFresh(PvSteps(s, a)(p, i), start, s)
      ensures OnlyFresh(AccountsSteps(s, a)(p, i), start, s) && OnlyFresh(StreamsSteps(s, a)(p, i), start, s)
    {
      SimpleStepsStayFresh(p, i, 0, start, s, a);
      PodStaysFresh(p, i, start, s, a);
      PvStaysFresh(p, i, start, s, a);
      NestedStepsStayFresh(p, i, start, s, a);
    }
  }

  lemma PassStaysFresh(marks: Marks, s: Scope, a: Answers)
    requires UniqueScope(s)
    ensures OnlyFresh(AfterPass(marks, s, a), marks, s)
  {
    assert OnlyFresh(Start(marks), marks, s);
    hide OnlyFresh, StaysFresh, UniqueScope, Fold, NamespaceSteps, PodSteps, PvSteps, AccountsSteps, StreamsSteps;
    StepsStayFresh(marks, s, a);
    var p0 := Start(marks);
    FoldStaysFresh(p0, NamespaceSteps(s, a), |s.namespaces|, marks, s);
    var p1 := AfterNamespaces(p0, s, a);
    FoldStaysFresh(p1, PodSteps(s, a), |s.pods|, marks, s);
    FailingStaysFresh(p1, marks, s);
    var p2 := AfterPods(p1, s, a);
    FoldStaysFresh(p2, PvSteps(s, a), |s.pvs|, marks, s);
    var p3 := AfterPvs(p2, s, a);
    FoldStaysFresh(p3, AccountsSteps(s, a), |s.namespaces|, marks, s);
    var p4 := AfterAccounts(p3, s, a);
    FoldStaysFresh(p4, StreamsSteps(s, a), |s.namespaces|, marks, s);
  }

  /** Once every pod of an account is annotated, no later pass labels the account, whatever happens. */
  lemma {:induction false} MissedAccountStaysMissed(marks: Marks, s: Scope, passes: seq<Answers>,
                                                    namespace: string, account: string)
    requires UniqueScope(s) && AccountId(namespace, account) !in marks && !FreshPod(marks, s, namespace, account)
    ensures var after := AfterPasses(marks, s, passes);
            AccountId(namespace, account) !in after && !FreshPod(after, s, namespace, account)
  {
    hide AfterPass, UniqueScope;
    if passes != [] {
      MissedAccountStaysMissed(marks, s, passes[..|passes| - 1], namespace, account);
      PassStaysFresh(AfterPasses(marks, s, passes[..|passes| - 1]), s, passes[|passes| - 1]);
    }
  }

  /** Once a volume is marked and its claim is not (the claim could not be read or written), no later pass
      marks the claim. */
  lemma {:induction false} MissedClaimStaysMissed(marks: Marks, s: Scope, passes: seq<Answers>, i: nat)
    requires UniqueScope(s) && i < |s.pvs| && PvId(s.pvs[i].name) in marks && ClaimIdOf(s.pvs[i]) !in marks
    ensures var after := AfterPasses(marks, s, passes);
            PvId(s.pvs[i].name) in after && ClaimIdOf(s.pvs[i]) !in after
  {
    hide AfterPass, UniqueScope, FreshPod;
    if passes != [] {
      MissedClaimStaysMissed(marks, s, passes[..|passes| - 1], i);
      PassStaysFresh(AfterPasses(marks, s, passes[..|passes| - 1]), s, passes[|passes| - 1]);
    }
  }

  // ---------------------------------------------------------------- accounts and claims of a finished pass

  /** What one stage may mark. */
  lemma {:induction false} NamespacesTouch(p: Pass, s: Scope, a: Answers, n: nat)
    ensures forall id :: id in Fold(p, NamespaceSteps(s, a), n).marks ==> id in p.marks || id.NamespaceId?
  {
    if n > 0 { NamespacesTouch(p, s, a, n - 1); }
  }

  predicate PodBefore(s: Scope, n: nat, id: Id) {
    exists k :: 0 <= k < n && k < |s.pods| && id == IdOfPod(s.pods[k])
  }

  lemma {:induction false} PodsTouch(p: Pass, s: Scope, a: Answers, n: nat)
    ensures forall id :: id in Fold(p, PodSteps(s, a), n).marks ==> id in p.marks || PodBefore(s, n, id)
  {
    hide NoteOfPod, WithAccount;
    if n > 0 {
      PodsTouch(p, s, a, n - 1);
      assert forall id :: PodBefore(s, n - 1, id) ==> PodBefore(s, n, id);
      assert n - 1 < |s.pods| ==> PodBefore(s, n, IdOfPod(s.pods[n - 1]));
      hide PodBefore;
    }
  }

  predicate PvBefore(s: Scope, n: nat, id: Id) {
    exists k :: 0 <= k < n && k < |s.pvs| && (id == PvId(s.pvs[k].name) || id == ClaimIdOf(s.pvs[k]))
  }

  lemma {:induction false} PvsTouch(p: Pass, s: Scope, a: Answers, n: nat)
    ensures forall id :: id in Fold(p, PvSteps(s, a), n).marks ==> id in p.marks || PvBefore(s, n, id)
  {
    hide NoteOfPv, NoteOfClaim;
    if n > 0 {
      PvsTouch(p, s, a, n - 1);
      assert forall id :: PvBefore(s, n - 1, id) ==> PvBefore(s, n, id);
      assert n - 1 < |s.pvs| ==> PvBefore(s, n, PvId(s.pvs[n - 1].name)) && PvBefore(s, n, ClaimIdOf(s.pvs[n - 1]));
      hide PvBefore;
    }
  }

  predicate Collected(p: Pass, namespace: string, account: string) {
    namespace in p.accounts && account in p.accounts[namespace]
  }

  ghost predicate KeepsCollected(step: Step) {
    forall p: Pass, i: nat, n, x :: Collected(p, n, x) ==> Collected(step(p, i), n, x)
  }

  lemma {:induction false} FoldKeepsCollected(p: Pass, step: Step, i: nat, n: nat, namespace: string, account: string)
    requires KeepsCollected(step) && i <= n && Collected(Fold(p, step, i), namespace, account)
    ensures Collected(Fold(p, step, n), namespace, account)
  {
    if i < n { FoldKeepsCollected(p, step, i, n - 1, namespace, account); }
  }

  lemma StepsKeepCollected(n: nat, s: Scope, a: Answers)
    ensures KeepsCollected(PodSteps(s, a)) && KeepsCollected(PvSteps(s, a))
    ensures KeepsCollected(AccountSteps(n, s, a))
  {
    hide NoteOfPod, NoteOfPv, NoteOfClaim;
  }

  lemma AccountsStepsKeepCollected(s: Scope, a: Answers)
    ensures KeepsCollected(AccountsSteps(s, a))
  {
    forall p: Pass, n: nat, namespace, account | Collected(p, namespace, account)
      ensures Collected(AccountsSteps(s, a)(p, n), namespace, account)
    {
      StepsKeepCollected(n, s, a);
      if n < |s.namespaces| {
        FoldKeepsCollected(p, AccountSteps(n, s, a), 0, |ListIn(s.accounts, s.namespaces[n])|, namespace, account);
      }
    }
  }

  /** A pod still to be annotated when the stage begins has its account collected by its end. */
  lemma FreshPodCollected(p: Pass, s: Scope, a: Answers, i: nat)
    requires UniqueScope(s) && AfterPods(p, s, a).progress.Going? && i < |s.pods| && IdOfPod(s.pods[i]) !in p.marks
    ensures Collected(AfterPods(p, s, a), s.pods[i].namespace, s.pods[i].account)
  {
    hide Fold, PodStep, UniqueScope, PodBefore, KeepsCollected;
    var step := PodSteps(s, a);
    PodsTouch(p, s, a, i);
    PodOnlyOnce(s, i);
    FoldGoing(p, step, |s.pods|, i);
    PodStepCollects(Fold(p, step, i), i, s, a);
    StepsKeepCollected(0, s, a);
    FoldKeepsCollected(p, step, i + 1, |s.pods|, s.pods[i].namespace, s.pods[i].account);
  }

  lemma PodOnlyOnce(s: Scope, i: nat)
    requires UniqueScope(s) && i < |s.pods|
    ensures !PodBefore(s, i, IdOfPod(s.pods[i]))
  {
  }

  lemma PodStepCollects(p: Pass, i: nat, s: Scope, a: Answers)
    requires i < |s.pods| && IdOfPod(s.pods[i]) !in p.marks && PodStep(p, i, s, a).progress.Going?
    ensures Collected(PodStep(p, i, s, a), s.pods[i].namespace, s.pods[i].account)
  {
    hide NoteOfPod;
  }

  /** A volume still to be marked when the stage begins has its claim marked by its end. */
  lemma FreshVolumeClaimed(p: Pass, s: Scope, a: Answers, i: nat)
    requires UniqueScope(s) && WithinLimit(p) && AfterPvs(p, s, a).progress.Going? && p.progress.Going?
    requires i < |s.pvs| && PvId(s.pvs[i].name) !in p.marks
    ensures ClaimIdOf(s.pvs[i]) in AfterPvs(p, s, a).marks
  {
    PvsTouch(p, s, a, i);
    assert !PvBefore(s, i, PvId(s.pvs[i].name));
    StepsAreGood(s, a);
    hide GoodStep, Fold, UniqueScope, NoteOfPv, NoteOfClaim, PvBefore, WithinLimit;
    FoldMarks(p, PvSteps(s, a), |s.pvs|, i, ClaimIdOf(s.pvs[i]), s);
  }

  /** An existing account that has been collected is labelled by the end of its stage. */
  lemma CollectedIsLabelled(p: Pass, s: Scope, a: Answers, n: nat, j: nat)
    requires UniqueScope(s) && WithinLimit(p) && p.progress.Going? && AfterAccounts(p, s, a).progress.Going?
    requires n < |s.namespaces| && j < |ListIn(s.accounts, s.namespaces[n])|
    requires Collected(p, s.namespaces[n], ListIn(s.accounts, s.namespaces[n])[j])
    ensures AccountId(s.namespaces[n], ListIn(s.accounts, s.namespaces[n])[j]) in AfterAccounts(p, s, a).marks
  {
    var step, inner := AccountsSteps(s, a), AccountSteps(n, s, a);
    var list := ListIn(s.accounts, s.namespaces[n]);
    var before := Fold(p, step, n);
    AccountsStepsKeepCollected(s, a);
    FoldKeepsCollected(p, step, 0, n, s.namespaces[n], list[j]);
    StepsKeepCollected(n, s, a);
    FoldKeepsCollected(before, inner, 0, j, s.namespaces[n], list[j]);
    hide GoodStep, Fold, UniqueScope, WithinLimit, Advances, KeepsCollected;
    StepsAreGood(s, a);
    InnerStepsAreGood(n, s, a);
    FoldAdvances(p, step, n, s);
    AdvancesWithinLimit(p, before, s);
    if step(before, n).progress.Going? {
      FoldGoing(p, step, |s.namespaces|, n);
      FoldMarks(before, inner, |list|, j, AccountId(s.namespaces[n], list[j]), s);
    }
    FoldMarks(p, step, |s.namespaces|, n, AccountId(s.namespaces[n], list[j]), s);
  }

  lemma UnmarkedBeforePvs(marks: Marks, s: Scope, a: Answers, i: nat)
    requires i < |s.pvs| && PvId(s.pvs[i].name) !in marks
    ensures PvId(s.pvs[i].name) !in AfterPods(AfterNamespaces(Start(marks), s, a), s, a).marks
  {
    NamespacesTouch(Start(marks), s, a, |s.namespaces|);
    PodsTouch(AfterNamespaces(Start(marks), s, a), s, a, |s.pods|);
    hide Fold;
  }

  /** When a pass returns true, a claim is marked exactly when it was before or its volume was not. */
  lemma ClaimsMarkedExactly(marks: Marks, s: Scope, a: Answers, i: nat)
    requires UniqueScope(s) && AfterPass(marks, s, a).progress.Going? && i < |s.pvs|
    ensures ClaimIdOf(s.pvs[i]) in AfterPass(marks, s, a).marks <==>
              ClaimIdOf(s.pvs[i]) in marks || PvId(s.pvs[i].name) !in marks
  {
    PassStaysFresh(marks, s, a);
    StagesGoing(marks, s, a);
    StagesKeep(marks, s, a);
    var p2 := AfterPods(AfterNamespaces(Start(marks), s, a), s, a);
    if PvId(s.pvs[i].name) !in marks {
      UnmarkedBeforePvs(marks, s, a, i);
      FreshVolumeClaimed(p2, s, a, i);
    }
    hide AfterPass, AfterNamespaces, AfterPods, AfterPvs, AfterAccounts, FreshPod, DueAccount, UniqueScope, WithinLimit;
  }

  /** When a pass returns true, a service account is labelled exactly when it was before, or it exists in a
      source namespace and is that of a stage pod which was still to be annotated. */
  lemma AccountsLabelledExactly(marks: Marks, s: Scope, a: Answers, namespace: string, account: string)
    requires UniqueScope(s) && AfterPass(marks, s, a).progress.Going?
    ensures AccountId(namespace, account) in AfterPass(marks, s, a).marks <==>
              || AccountId(namespace, account) in marks
              || (FreshPod(marks, s, namespace, account) && namespace in s.namespaces
                  && account in ListIn(s.accounts, namespace))
  {
    PassStaysFresh(marks, s, a);
    if DueAccount(marks, s, namespace, account) {
      DueIsLabelled(marks, s, a, namespace, account);
    }
    hide AfterPass, FreshPod, UniqueScope;
  }

  lemma DueIsLabelled(marks: Marks, s: Scope, a: Answers, namespace: string, account: string)
    requires UniqueScope(s) && AfterPass(marks, s, a).progress.Going? && DueAccount(marks, s, namespace, account)
    ensures AccountId(namespace, account) in AfterPass(marks, s, a).marks
  {
    var i :| 0 <= i < |s.pods| && s.pods[i].namespace == namespace && s.pods[i].account == account
             && IdOfPod(s.pods[i]) !in marks;
    var n :| 0 <= n < |s.namespaces| && s.namespaces[n] == namespace;
    var j :| 0 <= j < |ListIn(s.accounts, namespace)| && ListIn(s.accounts, namespace)[j] == account;
    StagesGoing(marks, s, a);
    StagesKeep(marks, s, a);
    NamespacesTouch(Start(marks), s, a, |s.namespaces|);
    var p1 := AfterNamespaces(Start(marks), s, a);
    FreshPodCollected(p1, s, a, i);
    var p2 := AfterPods(p1, s, a);
    StepsKeepCollected(0, s, a);
    FoldKeepsCollected(p2, PvSteps(s, a), 0, |s.pvs|, namespace, account);
    hide Fold, UniqueScope, WithinLimit, KeepsCollected;
    CollectedIsLabelled(AfterPvs(p2, s, a), s, a, n, j);
  }

  const NO_FAILURES := Answers(_ => true, _ => true, true, _ => true, _ => true, _ => true, _ => true, _ => true,
                              _ => true, _ => true, (_, _) => true, _ => true, (_, _) => true)

  lemma {:induction false} NamespacesSkipped(marks: Marks, s: Scope, n: nat)
    requires NamespacesIn(marks, s) && n <= |s.namespaces|
    ensures Fold(Start(marks), NamespaceSteps(s, NO_FAILURES), n) == Start(marks)
  {
    if n > 0 { NamespacesSkipped(marks, s, n - 1); }
  }

  lemma PodsDiffer(s: Scope, k: nat)
    requires UniqueScope(s) && k < |s.pods|
    ensures forall i :: 0 <= i < |s.pods| && i != k ==> IdOfPod(s.pods[i]) != IdOfPod(s.pods[k])
  {
  }

  lemma {:induction false} PodsCounted(marks: Marks, s: Scope, n: nat)
    requires UniqueScope(s) && n <= 51 <= |s.pods|
    requires forall i :: 0 <= i < |s.pods| ==> IdOfPod(s.pods[i]) !in marks
    ensures var p := Fold(Start(marks), PodSteps(s, NO_FAILURES), n);
            && p.updated == n && (if n == 51 then p.progress.Enough? else p.progress.Going?)
            && (forall i :: n <= i < |s.pods| ==> IdOfPod(s.pods[i]) !in p.marks)
            && (forall i :: 0 <= i < n ==> IdOfPod(s.pods[i]) in p.marks)
            && (forall m, x :: AccountId(m, x) in p.marks <==> AccountId(m, x) in marks)
  {
    hide NoteOfPod, WithAccount, UniqueScope;
    if n > 0 {
      PodsCounted(marks, s, n - 1);
      PodsDiffer(s, n - 1);
    }
  }

  /** With exactly 51 stage pods to annotate, the first pass stops after them without having labelled an
      account, and no later pass labels one: the accounts of these pods are never labelled. */
  lemma FiftyOnePodsLoseTheirAccounts(marks: Marks, s: Scope, passes: seq<Answers>, namespace: string, account: string)
    requires UniqueScope(s) && NamespacesIn(marks, s) && |s.pods| == 51
    requires forall i :: 0 <= i < |s.pods| ==> IdOfPod(s.pods[i]) !in marks
    requires AccountId(namespace, account) !in marks
    ensures var first := AfterPass(marks, s, NO_FAILURES);
            && first.progress.Enough? && PodsIn(first.marks, s)
            && AccountId(namespace, account) !in AfterPasses(first.marks, s, passes)
  {
    NamespacesSkipped(marks, s, |s.namespaces|);
    PodsCounted(marks, s, 51);
    var first := Fold(Start(marks), PodSteps(s, NO_FAILURES), 51);
    hide Fold, NamespaceSteps, PodSteps, UniqueScope, AfterPasses;
    assert AfterPass(marks, s, NO_FAILURES) == first;
    assert !FreshPod(first.marks, s, namespace, account);
    MissedAccountStaysMissed(first.marks, s, passes, namespace, account);
  }
}
