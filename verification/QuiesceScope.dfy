/** What a quiesce pass covers: whether other plans share the namespaces, and the claims the plan copies.
    pkg/controller/migmigration/quiesce.go, with pkg/apis/migration/v1alpha1/migplan_types.go for the names. */
module QuiesceScope {
  import opened Quiesce
  import opened Strconv
  import opened Wrappers

  datatype PvAction = Copy | Move | Skip

  /** A volume of the plan; `pvcName` is "source" or "source:target". */
  datatype PlanPv = PlanPv(action: PvAction, pvcNamespace: string, pvcName: string)

  const COLON := ':'

  /** `strings.Split(s, ":")[0]` */
  function BeforeColon(s: string): (r: string)
    ensures COLON !in r
    ensures r == s <==> COLON !in s
  {
    if s == [] || s[0] == COLON then [] else [s[0]] + BeforeColon(s[1..])
  }

  /** What follows the first colon, if there is one. */
  function AfterColon(s: string): string
    requires COLON in s
  {
    if s[0] == COLON then s[1..] else AfterColon(s[1..])
  }

  /** `GetSourceName` and `GetTargetName`: the first and second part, or the whole name for both. */
  function SourceName(s: string): string { BeforeColon(s) }

  function TargetName(s: string): string {
    if COLON in s then BeforeColon(AfterColon(s)) else s
  }

  lemma {:induction false} SplitAtColon(a: string, rest: string)
    requires COLON !in a
    ensures BeforeColon(a + [COLON] + rest) == a && AfterColon(a + [COLON] + rest) == rest
  {
    if a == "" {
      assert a + [COLON] + rest == [COLON] + rest;
    } else {
      assert (a + [COLON] + rest)[1..] == a[1..] + [COLON] + rest;
      SplitAtColon(a[1..], rest);
    }
  }

  /** A mapped name gives back both its parts, whatever follows a second colon; a name without a mapping is
      itself in both. */
  lemma NamesOfMapping(source: string, target: string, more: string)
    requires COLON !in source && COLON !in target && (more == "" || more[0] == COLON)
    ensures SourceName(source + [COLON] + target + more) == source
    ensures TargetName(source + [COLON] + target + more) == target
    ensures SourceName(source) == TargetName(source) == source
  {
    var s := source + [COLON] + target + more;
    assert s == source + [COLON] + (target + more);
    SplitAtColon(source, target + more);
    assert s[|source|] == COLON;
    if more == "" {
      assert target + more == target;
    } else {
      assert target + more == target + [COLON] + more[1..];
      SplitAtColon(target, more[1..]);
    }
  }

  function Count(entries: seq<string>, ns: string): nat {
    if entries == [] then 0
    else Count(entries[..|entries| - 1], ns) + if entries[|entries| - 1] == ns then 1 else 0
  }

  function Entries(plans: seq<seq<string>>): seq<string> {
    if plans == [] then [] else Entries(plans[..|plans| - 1]) + plans[|plans| - 1]
  }

  lemma CountSnoc(entries: seq<string>, e: string, ns: string)
    ensures Count(entries + [e], ns) == Count(entries, ns) + if e == ns then 1 else 0
  {
    assert (entries + [e])[..|entries|] == entries;
  }

  /** The count is the number of plans, and of times in one plan, that list the namespace. */
  lemma {:induction false} CountIsMultiplicity(entries: seq<string>, ns: string)
    ensures Count(entries, ns) == multiset(entries)[ns]
  {
    if entries != [] {
      var n := |entries| - 1;
      CountIsMultiplicity(entries[..n], ns);
      assert entries == entries[..n] + [entries[n]];
    }
  }

  /** `checkMultiplePlans`, given the namespace lists of all plans: some namespace is listed twice. */
  method CheckMultiplePlans(plans: seq<seq<string>>, namespaces: seq<string>) returns (multiple: bool)
    ensures multiple <==> exists i :: 0 <= i < |namespaces| && Count(Entries(plans), namespaces[i]) > 1
  {
    var counts: map<string, nat> := map[];
    ghost var seen: seq<string> := [];
    for i := 0 to |plans|
      invariant seen == Entries(plans[..i])
      invariant forall ns :: (if ns in counts then counts[ns] else 0) == Count(seen, ns)
    {
      ghost var before := seen;
      for j := 0 to |plans[i]|
        invariant seen == before + plans[i][..j]
        invariant forall ns :: (if ns in counts then counts[ns] else 0) == Count(seen, ns)
      {
        var ns := plans[i][j];
        forall other ensures Count(seen + [ns], other) == Count(seen, other) + if ns == other then 1 else 0 {
          CountSnoc(seen, ns, other);
        }
        if ns !in counts {
          counts := counts[ns := 1];
        } else {
          counts := counts[ns := counts[ns] + 1];
        }
        assert plans[i][..j + 1] == plans[i][..j] + [ns];
        seen := seen + [ns];
      }
      assert plans[i][..|plans[i]|] == plans[i];
      assert plans[..i + 1][..i] == plans[..i];
    }
    assert plans[..|plans|] == plans;
    multiple := false;
    for i := 0 to |namespaces|
      invariant multiple <==> exists k :: 0 <= k < i && Count(seen, namespaces[k]) > 1
    {
      if namespaces[i] in counts && counts[namespaces[i]] > 1 {
        multiple := true;
      }
    }
  }

  /** Entries that migrate a namespace, mapped ("ns:target") or not. */
  function CountSource(entries: seq<string>, ns: string): nat {
    if entries == [] then 0
    else CountSource(entries[..|entries| - 1], ns) + if BeforeColon(entries[|entries| - 1]) == ns then 1 else 0
  }

  function CountMapped(entries: seq<string>, ns: string): nat {
    if entries == [] then 0
    else
      var last := entries[|entries| - 1];
      CountMapped(entries[..|entries| - 1], ns) + if COLON in last && BeforeColon(last) == ns then 1 else 0
  }

  /** Entries with a mapping are not counted: the count is that of the plans that migrate the namespace
      exactly when none of them maps it. */
  lemma {:induction false} MappedEntriesAreMissed(entries: seq<string>, ns: string)
    requires COLON !in ns
    ensures Count(entries, ns) + CountMapped(entries, ns) == CountSource(entries, ns)
    ensures Count(entries, ns) == CountSource(entries, ns) <==>
              forall i :: 0 <= i < |entries| && COLON in entries[i] ==> BeforeColon(entries[i]) != ns
  {
    if entries != [] {
      var rest, last := entries[..|entries| - 1], entries[|entries| - 1];
      MappedEntriesAreMissed(rest, ns);
      assert forall i :: 0 <= i < |entries| ==> entries[i] == if i < |rest| then rest[i] else last;
      if forall i :: 0 <= i < |entries| && COLON in entries[i] ==> BeforeColon(entries[i]) != ns {
        assert forall i :: 0 <= i < |rest| ==> rest[i] == entries[i];
      }
    }
  }

  /** The plan copies a claim of this name. */
  predicate Copies(pvs: seq<PlanPv>, rollback: bool, namespace: string, name: string) {
    exists i :: 0 <= i < |pvs| && pvs[i].action == Copy && pvs[i].pvcNamespace == namespace
                && name == NameOf(pvs[i], rollback)
  }

  function NameOf(pv: PlanPv, rollback: bool): string {
    if rollback then TargetName(pv.pvcName) else SourceName(pv.pvcName)
  }

  lemma CopiesSnoc(pvs: seq<PlanPv>, i: nat, rollback: bool, namespace: string, name: string)
    requires i < |pvs|
    ensures Copies(pvs[..i + 1], rollback, namespace, name) <==>
              || Copies(pvs[..i], rollback, namespace, name)
              || (pvs[i].action == Copy && pvs[i].pvcNamespace == namespace && name == NameOf(pvs[i], rollback))
  {
    hide NameOf;
    assert pvs[..i + 1] == pvs[..i] + [pvs[i]];
    if Copies(pvs[..i], rollback, namespace, name) {
      var k :| 0 <= k < i && pvs[..i][k].action == Copy && pvs[..i][k].pvcNamespace == namespace
               && name == NameOf(pvs[..i][k], rollback);
      assert pvs[..i + 1][k] == pvs[..i][k];
    }
    assert pvs[..i + 1][i] == pvs[i];
  }

  predicate Selected(selected: map<string, set<string>>, namespace: string, name: string) {
    namespace in selected && name in selected[namespace]
  }

  /** Inserting a name adds one pair. */
  lemma InsertSelects(selected: map<string, set<string>>, ns: string, name: string, after: map<string, set<string>>)
    requires after == selected[ns := (if ns in selected then selected[ns] else {}) + {name}]
    ensures forall namespace, other :: Selected(after, namespace, other) <==>
              Selected(selected, namespace, other) || (namespace == ns && other == name)
  {
  }

  /** The selected names are those the plan copies. */
  ghost predicate SelectedExactly(selected: map<string, set<string>>, pvs: seq<PlanPv>, rollback: bool) {
    forall namespace, name :: Selected(selected, namespace, name) <==> Copies(pvs, rollback, namespace, name)
  }

  /** One more volume of the plan. */
  lemma SelectStep(before: map<string, set<string>>, pvs: seq<PlanPv>, i: nat, rollback: bool,
                   after: map<string, set<string>>)
    requires i < |pvs| && SelectedExactly(before, pvs[..i], rollback)
    requires var pv := pvs[i];
             after == if pv.action != Copy then before
                      else before[pv.pvcNamespace := (if pv.pvcNamespace in before then before[pv.pvcNamespace] else {})
                                                     + {NameOf(pv, rollback)}]
    ensures SelectedExactly(after, pvs[..i + 1], rollback)
  {
    hide NameOf, Copies, Selected;
    var pv := pvs[i];
    if pv.action == Copy {
      InsertSelects(before, pv.pvcNamespace, NameOf(pv, rollback), after);
    }
    forall namespace, name
      ensures Selected(after, namespace, name) <==> Copies(pvs[..i + 1], rollback, namespace, name)
    {
      CopiesSnoc(pvs, i, rollback, namespace, name);
      assert Selected(before, namespace, name) <==> Copies(pvs[..i], rollback, namespace, name);
    }
  }

  /** `getSelectedPVCs` */
  method GetSelectedPVCs(pvs: seq<PlanPv>, rollback: bool) returns (selected: map<string, set<string>>)
    ensures SelectedExactly(selected, pvs, rollback)
  {
    hide NameOf, SelectedExactly;
    selected := map[];
    NothingCopied(pvs, rollback);
    for i := 0 to |pvs|
      invariant SelectedExactly(selected, pvs[..i], rollback)
    {
      ghost var before := selected;
      var pv := pvs[i];
      if pv.action == Copy {
        if pv.pvcNamespace !in selected {
          selected := selected[pv.pvcNamespace := {}];
        }
        selected := selected[pv.pvcNamespace := selected[pv.pvcNamespace] + {NameOf(pv, rollback)}];
      }
      SelectStep(before, pvs, i, rollback, selected);
    }
    assert pvs[..|pvs|] == pvs;
  }

  lemma NothingCopied(pvs: seq<PlanPv>, rollback: bool)
    ensures SelectedExactly(map[], pvs[..0], rollback)
  {
  }

  /** A claim is selected only for a volume that is copied, by its source name, or in a rollback by its target
      name; claims of volumes that are moved or skipped are not. */
  lemma SelectedAreCopied(selected: map<string, set<string>>, pvs: seq<PlanPv>, rollback: bool,
                          namespace: string, name: string)
    requires SelectedExactly(selected, pvs, rollback)
    ensures namespace in selected && name in selected[namespace] <==>
              exists pv :: pv in pvs && pv.pvcNamespace == namespace && pv.action != Move && pv.action != Skip
                           && (if rollback then TargetName(pv.pvcName) == name else SourceName(pv.pvcName) == name)
  {
    hide SourceName, TargetName;
    assert Selected(selected, namespace, name) <==> Copies(pvs, rollback, namespace, name);
    if Copies(pvs, rollback, namespace, name) {
      var i :| 0 <= i < |pvs| && pvs[i].action == Copy && pvs[i].pvcNamespace == namespace && name == NameOf(pvs[i], rollback);
      assert pvs[i] in pvs;
    }
  }

  /** The plan copies one of the claims of these names. */
  predicate CopiesAny(pvs: seq<PlanPv>, rollback: bool, namespace: string, names: seq<string>) {
    exists i :: 0 <= i < |names| && Copies(pvs, rollback, namespace, names[i])
  }

  /** The claims that a pass looks for are those the plan copies, under their source names, or, in a
      rollback, under their target names. */
  ghost predicate SelectsByPlan(sel: Selection, pvs: seq<PlanPv>, rollback: bool) {
    SelectedExactly(sel.selectedPVCs, pvs, rollback)
  }

  lemma CoversByPlan(sel: Selection, pvs: seq<PlanPv>, rollback: bool, namespace: string, names: seq<string>)
    requires SelectsByPlan(sel, pvs, rollback)
    ensures Covers(sel, namespace, names) <==>
              namespace in sel.namespaces && (!sel.multiplePlans || CopiesAny(pvs, rollback, namespace, names))
  {
    hide Copies;
    assert forall i :: 0 <= i < |names| ==>
      (Selected(sel.selectedPVCs, namespace, names[i]) <==> Copies(pvs, rollback, namespace, names[i]));
  }

  /** A pass covers the workload of these volume names. */
  predicate CoveredByPlan(sel: Selection, pvs: seq<PlanPv>, rollback: bool, namespace: string, names: seq<string>) {
    namespace in sel.namespaces && (!sel.multiplePlans || CopiesAny(pvs, rollback, namespace, names))
  }

  /** In terms of the plans: quiesced by one migration and unquiesced by another (a rollback, say), a
      workload is not given back exactly when the first scales it down and the second does not find it by
      the claims that its pods mount. */
  lemma StrandedByPlan(selDown: Selection, selUp: Selection, pvs: seq<PlanPv>,
                       rollbackDown: bool, rollbackUp: bool, w: Workload)
    requires SelectsByPlan(selDown, pvs, rollbackDown) && SelectsByPlan(selUp, pvs, rollbackUp)
    requires NothingParked(w)
    ensures !Same(w, Restored(selUp, Quiesced(selDown, w)).GetOr(w)) <==>
              && !(w.spec.ReplicaSet? && w.spec.owned)
              && (if w.spec.DaemonSet? then QuiesceNodeSelector !in w.spec.nodeSelector.GetOr(map[]) else w.spec.replicas != 0)
              && CoveredByPlan(selDown, pvs, rollbackDown, w.namespace, if w.spec.StatefulSet? then w.spec.claims else w.volumes)
              && !CoveredByPlan(selUp, pvs, rollbackUp, w.namespace, w.volumes)
  {
    UnquiesceUndoesQuiesce(selDown, selUp, w);
    CoversByPlan(selUp, pvs, rollbackUp, w.namespace, w.volumes);
    CoversByPlan(selDown, pvs, rollbackDown, w.namespace, if w.spec.StatefulSet? then w.spec.claims else w.volumes);
    hide Covers, CopiesAny, Restored, Quiesced, Same, NothingParked;
  }

  /** A migration that looks for source names in both directions loses StatefulSets only. */
  lemma StrandedInOneMigration(selDown: Selection, selUp: Selection, pvs: seq<PlanPv>, rollback: bool, w: Workload)
    requires SelectsByPlan(selDown, pvs, rollback) && SelectsByPlan(selUp, pvs, rollback) && NothingParked(w)
    requires selUp.namespaces == selDown.namespaces && selUp.multiplePlans == selDown.multiplePlans
    ensures !Same(w, Restored(selUp, Quiesced(selDown, w)).GetOr(w)) <==>
              && w.spec.StatefulSet? && w.spec.replicas != 0 && w.namespace in selDown.namespaces && selDown.multiplePlans
              && CopiesAny(pvs, rollback, w.namespace, w.spec.claims)
              && !CopiesAny(pvs, rollback, w.namespace, w.volumes)
  {
    StrandedByPlan(selDown, selUp, pvs, rollback, rollback, w);
    hide CopiesAny, Restored, Quiesced, Same, NothingParked, SelectsByPlan;
  }

  const RENAMED := [PlanPv(Copy, "x", "a:b")]
  const SCALED := Workload("x", ["a"], map[], Deployment(2, false))

  /** The plan copies claim "a" of a shared namespace to "b". A Deployment that mounts "a" is scaled down by
      the migration; the rollback looks for "b", and leaves it at 0. */
  lemma RollbackLeavesScaledDown(selDown: Selection, selUp: Selection)
    requires SelectsByPlan(selDown, RENAMED, false) && SelectsByPlan(selUp, RENAMED, true)
    requires selDown.namespaces == selUp.namespaces == ["x"] && selDown.multiplePlans && selUp.multiplePlans
    ensures Restored(selUp, Quiesced(selDown, SCALED)) == Some(Quiesced(selDown, SCALED))
    ensures Quiesced(selDown, SCALED).spec == Deployment(0, false)
  {
    RenamedNames();
    assert RENAMED[0] == PlanPv(Copy, "x", "a:b");
    assert Copies(RENAMED, false, "x", "a") && !Copies(RENAMED, true, "x", "a");
    assert SCALED.volumes[0] == "a";
    assert Copies(RENAMED, false, "x", SCALED.volumes[0]);
    CoversByPlan(selDown, RENAMED, false, "x", SCALED.volumes);
    CoversByPlan(selUp, RENAMED, true, "x", SCALED.volumes);
    hide Copies, Covers, FormatInt, Atoi;
    UnquiesceUndoesQuiesce(selDown, selUp, SCALED);
  }

  lemma RenamedNames()
    ensures NameOf(PlanPv(Copy, "x", "a:b"), false) == "a" && NameOf(PlanPv(Copy, "x", "a:b"), true) == "b"
  {
    assert "a:b"[1..] == ":b" && ":b"[1..] == "b" && "b"[1..] == "";
    assert "a:b"[1] == COLON;
  }
}
