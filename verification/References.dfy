/** The index of references between resources, kept by event predicates and read to find whom to
    reconcile. pkg/reference/map.go, handler.go and ref.go; pkg/controller/migmigration/predicate.go
    and pkg/controller/migcluster/predicate.go.

    The lock of the map makes each of its operations one step; a run interleaves the steps of the two
    predicates and of every other writer. */
module References {
  import opened Wrappers

  datatype Kind = MigMigration | MigCluster | MigPlan | Secret | OtherKind(kind: string)

  /** Owners and targets: the fields of an ObjectReference that the predicates fill in. */
  datatype Reference = Reference(kind: Kind, namespace: string, name: string)

  datatype Request = Request(namespace: string, name: string)

  type Content = map<Reference, seq<Reference>>

  // ---------------------------------------------------------------- the map

  function ListFor(content: Content, target: Reference): seq<Reference> {
    if target in content then content[target] else []
  }

  function Added(content: Content, owner: Reference, target: Reference): Content {
    var list := ListFor(content, target);
    if owner in list then content else content[target := list + [owner]]
  }

  function Without(list: seq<Reference>, owner: Reference): seq<Reference> {
    if list == [] then []
    else
      var before, last := Without(list[..|list| - 1], owner), list[|list| - 1];
      if last == owner then before else before + [last]
  }

  function Deleted(content: Content, owner: Reference, target: Reference): Content {
    if target in content && owner in content[target]
    then content[target := Without(content[target], owner)] else content
  }

  function OfKind(list: seq<Reference>, kind: Kind): seq<Reference> {
    if list == [] then []
    else
      var before, last := OfKind(list[..|list| - 1], kind), list[|list| - 1];
      if last.kind == kind then before + [last] else before
  }

  lemma {:induction false} WithoutIsShorter(list: seq<Reference>, owner: Reference)
    ensures |Without(list, owner)| <= |list|
    ensures |Without(list, owner)| < |list| <==> owner in list
    ensures owner !in list ==> Without(list, owner) == list
  {
    if list != [] {
      var rest := list[..|list| - 1];
      WithoutIsShorter(rest, owner);
      assert list == rest + [list[|list| - 1]];
    }
  }

  class RefMap {
    var content: Content

    constructor ()
      ensures content == map[]
    {
      content := map[];
    }

    method Add(owner: Reference, target: Reference)
      modifies this
      ensures content == Added(old(content), owner, target)
    {
      var list := if target in content then content[target] else [];
      for i := 0 to |list|
        invariant owner !in list[..i]
      {
        if list[i] == owner {
          return;
        }
      }
      list := list + [owner];
      content := content[target := list];
    }

    method Delete(owner: Reference, target: Reference)
      modifies this
      ensures content == Deleted(old(content), owner, target)
    {
      if target !in content {
        return;
      }
      var list := content[target];
      var newList: seq<Reference> := [];
      for i := 0 to |list|
        invariant newList == Without(list[..i], owner)
      {
        assert list[..i + 1][..i] == list[..i];
        if list[i] == owner {
          continue;
        }
        newList := newList + [list[i]];
      }
      assert list[..|list|] == list;
      WithoutIsShorter(list, owner);
      if |newList| < |list| {
        content := content[target := newList];
      }
    }

    method Find(target: Reference, kind: Kind) returns (matched: seq<Reference>)
      ensures matched == OfKind(ListFor(content, target), kind)
    {
      matched := [];
      if target !in content {
        return;
      }
      var list := content[target];
      for i := 0 to |list|
        invariant matched == OfKind(list[..i], kind)
      {
        assert list[..i + 1][..i] == list[..i];
        if list[i].kind == kind {
          matched := matched + [list[i]];
        }
      }
      assert list[..|list|] == list;
    }
  }

  function InNamespace(owners: seq<Reference>, namespace: string): seq<Request> {
    if owners == [] then []
    else
      var before, last := InNamespace(owners[..|owners| - 1], namespace), owners[|owners| - 1];
      if last.namespace == namespace then before + [Request(last.namespace, last.name)] else before
  }

  function Requests(content: Content, target: Reference, namespace: string, kind: Kind): seq<Request> {
    InNamespace(OfKind(ListFor(content, target), kind), namespace)
  }

  /** `GetRequests`: whom of a kind to reconcile when the target changed. */
  method GetRequests(refMap: RefMap, target: Reference, namespace: string, kind: Kind) returns (requests: seq<Request>)
    ensures requests == Requests(refMap.content, target, namespace, kind)
  {
    requests := [];
    var owners := refMap.Find(target, kind);
    for i := 0 to |owners|
      invariant requests == InNamespace(owners[..i], namespace)
    {
      assert owners[..i + 1][..i] == owners[..i];
      if owners[i].namespace == namespace {
        requests := requests + [Request(owners[i].namespace, owners[i].name)];
      }
    }
    assert owners[..|owners|] == owners;
  }

  // ---------------------------------------------------------------- the predicates

  /** The reference in a spec; nil, or with fields that may be empty. */
  type ObjectRef = Option<Request>

  /** A migration (with its plan reference and its HasFinalMigration condition) or a cluster (with its
      secret reference and its deletion time). `rest` is the rest of the spec. */
  datatype Object =
    | Migration(namespace: string, name: string, ref: ObjectRef, rest: int, final: bool)
    | Cluster(namespace: string, name: string, ref: ObjectRef, rest: int, deletion: Option<int>)

  function OwnerOf(o: Object): Reference {
    Reference(if o.Migration? then MigMigration else MigCluster, o.namespace, o.name)
  }

  predicate RefSet(ref: ObjectRef) {
    ref.Some? && ref.value.namespace != "" && ref.value.name != ""
  }

  /** What the object references in the index, if anything. */
  function TargetOf(o: Object): Option<Reference> {
    if RefSet(o.ref)
    then Some(Reference(if o.Migration? then MigPlan else Secret, o.ref.value.namespace, o.ref.value.name))
    else None
  }

  function Mapped(content: Content, o: Object): Content {
    if TargetOf(o).Some? then Added(content, OwnerOf(o), TargetOf(o).value) else content
  }

  function Unmapped(content: Content, o: Object): Content {
    if TargetOf(o).Some? then Deleted(content, OwnerOf(o), TargetOf(o).value) else content
  }

  /** Whether the predicate treats an update as a change. */
  predicate Changed(before: Object, after: Object) {
    || before.ref != after.ref
    || before.rest != after.rest
    || (before.Migration? && after.Migration? && before.final && !after.final)
    || (before.Cluster? && after.Cluster? && before.deletion != after.deletion)
  }

  predicate Passes(filter: string, namespace: string) {
    filter == "" || filter == namespace
  }

  /** Both predicates hold a namespace, empty for all, and the one index. */
  class MigrationPredicate {
    const namespace: string
    const refMap: RefMap

    constructor (namespace: string, refMap: RefMap)
      ensures this.namespace == namespace && this.refMap == refMap
    {
      this.namespace, this.refMap := namespace, refMap;
    }

    method MapRefs(migration: Object)
      requires migration.Migration?
      modifies refMap
      ensures refMap.content == Mapped(old(refMap.content), migration)
    {
      var owner := Reference(MigMigration, migration.namespace, migration.name);
      if RefSet(migration.ref) {
        refMap.Add(owner, Reference(MigPlan, migration.ref.value.namespace, migration.ref.value.name));
      }
    }

    method UnmapRefs(migration: Object)
      requires migration.Migration?
      modifies refMap
      ensures refMap.content == Unmapped(old(refMap.content), migration)
    {
      var owner := Reference(MigMigration, migration.namespace, migration.name);
      if RefSet(migration.ref) {
        refMap.Delete(owner, Reference(MigPlan, migration.ref.value.namespace, migration.ref.value.name));
      }
    }

    method Create(migration: Object) returns (handled: bool)
      requires migration.Migration?
      modifies refMap
      ensures handled == Passes(namespace, migration.namespace)
      ensures refMap.content == if handled then Mapped(old(refMap.content), migration) else old(refMap.content)
    {
      if namespace != "" && namespace != migration.namespace {
        return false;
      }
      MapRefs(migration);
      return true;
    }

    method Update(before: Object, after: Object) returns (handled: bool)
      requires before.Migration? && after.Migration?
      modifies refMap
      ensures handled == (Passes(namespace, after.namespace) && Changed(before, after))
      ensures refMap.content ==
                if handled then Mapped(Unmapped(old(refMap.content), before), after) else old(refMap.content)
    {
      if namespace != "" && namespace != after.namespace {
        return false;
      }
      var changed := before.ref != after.ref || before.rest != after.rest || (before.final && !after.final);
      if changed {
        UnmapRefs(before);
        MapRefs(after);
      }
      return changed;
    }

    method Delete(migration: Object) returns (handled: bool)
      requires migration.Migration?
      modifies refMap
      ensures handled == Passes(namespace, migration.namespace)
      ensures refMap.content == if handled then Unmapped(old(refMap.content), migration) else old(refMap.content)
    {
      if namespace != "" && namespace != migration.namespace {
        return false;
      }
      UnmapRefs(migration);
      return true;
    }
  }

  class ClusterPredicate {
    const namespace: string
    const refMap: RefMap

    constructor (namespace: string, refMap: RefMap)
      ensures this.namespace == namespace && this.refMap == refMap
    {
      this.namespace, this.refMap := namespace, refMap;
    }

    method MapRefs(cluster: Object)
      requires cluster.Cluster?
      modifies refMap
      ensures refMap.content == Mapped(old(refMap.content), cluster)
    {
      var owner := Reference(MigCluster, cluster.namespace, cluster.name);
      if RefSet(cluster.ref) {
        refMap.Add(owner, Reference(Secret, cluster.ref.value.namespace, cluster.ref.value.name));
      }
    }

    method UnmapRefs(cluster: Object)
      requires cluster.Cluster?
      modifies refMap
      ensures refMap.content == Unmapped(old(refMap.content), cluster)
    {
      var owner := Reference(MigCluster, cluster.namespace, cluster.name);
      if RefSet(cluster.ref) {
        refMap.Delete(owner, Reference(Secret, cluster.ref.value.namespace, cluster.ref.value.name));
      }
    }

    method Create(cluster: Object) returns (handled: bool)
      requires cluster.Cluster?
      modifies refMap
      ensures handled == Passes(namespace, cluster.namespace)
      ensures refMap.content == if handled then Mapped(old(refMap.content), cluster) else old(refMap.content)
    {
      if namespace != "" && namespace != cluster.namespace {
        return false;
      }
      MapRefs(cluster);
      return true;
    }

    method Update(before: Object, after: Object) returns (handled: bool)
      requires before.Cluster? && after.Cluster?
      modifies refMap
      ensures handled == (Passes(namespace, after.namespace) && Changed(before, after))
      ensures refMap.content ==
                if handled then Mapped(Unmapped(old(refMap.content), before), after) else old(refMap.content)
    {
      if namespace != "" && namespace != after.namespace {
        return false;
      }
      var changed := before.ref != after.ref || before.rest != after.rest || before.deletion != after.deletion;
      if changed {
        UnmapRefs(before);
        MapRefs(after);
      }
      return changed;
    }

    method Delete(cluster: Object) returns (handled: bool)
      requires cluster.Cluster?
      modifies refMap
      ensures handled == Passes(namespace, cluster.namespace)
      ensures refMap.content == if handled then Unmapped(old(refMap.content), cluster) else old(refMap.content)
    {
      if namespace != "" && namespace != cluster.namespace {
        return false;
      }
      UnmapRefs(cluster);
      return true;
    }
  }

  // ---------------------------------------------------------------- runs

  /** Namespace filters of the two predicates. */
  datatype Filters = Filters(migrations: string, clusters: string)

  /** The index, the live objects, and the update each predicate is in the middle of: it has unmapped the
      old object and not yet mapped the new one. */
  datatype State = State(content: Content, live: map<Reference, Object>, pending: map<Kind, Object>)

  /** One step of the map. An update is two, since the lock is released between them. `OtherAdds` and
      `OtherDeletes` come from the predicates of other kinds of owner. */
  datatype Event =
    | Created(object: Object)
    | Updating(before: Object, after: Object)
    | UpdateDone(kind: Kind)
    | DeletedEvent(object: Object)
    | OtherAdds(owner: Reference, target: Reference)
    | OtherDeletes(owner: Reference, target: Reference)

  predicate Indexed(kind: Kind) {
    kind == MigMigration || kind == MigCluster
  }

  predicate Watched(filters: Filters, owner: Reference) {
    Passes(if owner.kind == MigMigration then filters.migrations else filters.clusters, owner.namespace)
  }

  /** Events tell the history of each object: created once, updated from its last version, deleted in its
      last version; a predicate handles one event at a time. */
  predicate WellFormed(s: State, ev: Event) {
    match ev
    case Created(o) => OwnerOf(o) !in s.live && OwnerOf(o).kind !in s.pending
    case Updating(b, a) =>
      OwnerOf(b) in s.live && s.live[OwnerOf(b)] == b && OwnerOf(a) == OwnerOf(b) && OwnerOf(b).kind !in s.pending
    case UpdateDone(kind) => kind in s.pending
    case DeletedEvent(o) => OwnerOf(o) in s.live && s.live[OwnerOf(o)] == o && OwnerOf(o).kind !in s.pending
    case OtherAdds(owner, _) => !Indexed(owner.kind)
    case OtherDeletes(owner, _) => !Indexed(owner.kind)
  }

  function Next(s: State, filters: Filters, ev: Event): State {
    match ev
    case Created(o) =>
      State(if Watched(filters, OwnerOf(o)) then Mapped(s.content, o) else s.content, s.live[OwnerOf(o) := o], s.pending)
    case Updating(b, a) =>
      var live := s.live[OwnerOf(a) := a];
      if Watched(filters, OwnerOf(a)) && Changed(b, a)
      then State(Unmapped(s.content, b), live, s.pending[OwnerOf(a).kind := a])
      else State(s.content, live, s.pending)
    case UpdateDone(kind) =>
      if kind in s.pending then State(Mapped(s.content, s.pending[kind]), s.live, s.pending - {kind}) else s
    case DeletedEvent(o) =>
      State(if Watched(filters, OwnerOf(o)) then Unmapped(s.content, o) else s.content, s.live - {OwnerOf(o)}, s.pending)
    case OtherAdds(owner, target) => s.(content := Added(s.content, owner, target))
    case OtherDeletes(owner, target) => s.(content := Deleted(s.content, owner, target))
  }

  predicate WellFormedRun(s: State, filters: Filters, events: seq<Event>)
    decreases events
  {
    events == [] || (WellFormed(s, events[0]) && WellFormedRun(Next(s, filters, events[0]), filters, events[1..]))
  }

  function Run(s: State, filters: Filters, events: seq<Event>): State
    decreases events
  {
    if events == [] then s else Run(Next(s, filters, events[0]), filters, events[1..])
  }

  predicate NoDuplicates<T(==)>(list: seq<T>) {
    forall i, j :: 0 <= i < j < |list| ==> list[i] != list[j]
  }

  predicate Lists(content: Content, owner: Reference, target: Reference) {
    target in content && owner in content[target]
  }

  /** A live, watched object that is not in the middle of an update references the target. */
  predicate Referenced(s: State, filters: Filters, owner: Reference, target: Reference) {
    && owner in s.live && Watched(filters, owner)
    && (owner.kind in s.pending ==> s.pending[owner.kind] != s.live[owner])
    && TargetOf(s.live[owner]) == Some(target)
  }

  ghost predicate Agrees(s: State, filters: Filters) {
    forall owner: Reference, target: Reference :: Indexed(owner.kind) ==>
      (Lists(s.content, owner, target) <==> Referenced(s, filters, owner, target))
  }

  predicate Unique(content: Content) {
    forall target :: target in content ==> NoDuplicates(content[target])
  }

  predicate Consistent(s: State, filters: Filters) {
    && (forall owner :: owner in s.live ==> OwnerOf(s.live[owner]) == owner)
    && (forall kind :: kind in s.pending ==>
          var o := s.pending[kind];
          OwnerOf(o).kind == kind && Watched(filters, OwnerOf(o)) && OwnerOf(o) in s.live && s.live[OwnerOf(o)] == o)
  }

  ghost predicate Inv(s: State, filters: Filters) {
    Agrees(s, filters) && Unique(s.content) && Consistent(s, filters)
  }

  // ---------------------------------------------------------------- the map's operations as sets

  lemma AddedLists(content: Content, owner: Reference, target: Reference, o: Reference, t: Reference)
    ensures Lists(Added(content, owner, target), o, t) <==> Lists(content, o, t) || (o == owner && t == target)
  {
  }

  lemma {:induction false} WithoutLists(list: seq<Reference>, owner: Reference, o: Reference)
    ensures o in Without(list, owner) <==> o in list && o != owner
  {
    if list != [] {
      var rest, last := list[..|list| - 1], list[|list| - 1];
      WithoutLists(rest, owner, o);
      assert list == rest + [last];
    }
  }

  lemma DeletedLists(content: Content, owner: Reference, target: Reference, o: Reference, t: Reference)
    ensures Lists(Deleted(content, owner, target), o, t) <==> Lists(content, o, t) && !(o == owner && t == target)
  {
    WithoutLists(ListFor(content, target), owner, o);
  }

  lemma {:induction false} WithoutIsUnique(list: seq<Reference>, owner: Reference)
    requires NoDuplicates(list)
    ensures NoDuplicates(Without(list, owner))
  {
    if list != [] {
      var rest, last := list[..|list| - 1], list[|list| - 1];
      assert forall i :: 0 <= i < |rest| ==> rest[i] == list[i];
      WithoutIsUnique(rest, owner);
      assert last !in Without(rest, owner) by { WithoutLists(rest, owner, last); }
    }
  }

  lemma AddedUnique(content: Content, owner: Reference, target: Reference)
    requires Unique(content)
    ensures Unique(Added(content, owner, target))
  {
  }

  lemma DeletedUnique(content: Content, owner: Reference, target: Reference)
    requires Unique(content)
    ensures Unique(Deleted(content, owner, target))
  {
    if target in content { WithoutIsUnique(content[target], owner); }
  }

  lemma MappedLists(content: Content, x: Object, o: Reference, t: Reference)
    ensures Lists(Mapped(content, x), o, t) <==> Lists(content, o, t) || (o == OwnerOf(x) && TargetOf(x) == Some(t))
  {
    if TargetOf(x).Some? { AddedLists(content, OwnerOf(x), TargetOf(x).value, o, t); }
    hide Added, Lists;
  }

  lemma UnmappedLists(content: Content, x: Object, o: Reference, t: Reference)
    ensures Lists(Unmapped(content, x), o, t) <==> Lists(content, o, t) && !(o == OwnerOf(x) && TargetOf(x) == Some(t))
  {
    if TargetOf(x).Some? { DeletedLists(content, OwnerOf(x), TargetOf(x).value, o, t); }
    hide Deleted, Lists;
  }

  lemma StepIsUnique(s: State, filters: Filters, ev: Event)
    requires Unique(s.content)
    ensures Unique(Next(s, filters, ev).content)
  {
    hide Added, Deleted, TargetOf, Watched, Changed;
    match ev {
      case Created(o) => MappedUnique(s.content, o);
      case Updating(b, a) => UnmappedUnique(s.content, b);
      case UpdateDone(kind) => if kind in s.pending { MappedUnique(s.content, s.pending[kind]); }
      case DeletedEvent(o) => UnmappedUnique(s.content, o);
      case OtherAdds(owner, target) => AddedUnique(s.content, owner, target);
      case OtherDeletes(owner, target) => DeletedUnique(s.content, owner, target);
    }
  }

  lemma MappedUnique(content: Content, o: Object)
    requires Unique(content)
    ensures Unique(Mapped(content, o))
  {
    if TargetOf(o).Some? { AddedUnique(content, OwnerOf(o), TargetOf(o).value); }
  }

  lemma UnmappedUnique(content: Content, o: Object)
    requires Unique(content)
    ensures Unique(Unmapped(content, o))
  {
    if TargetOf(o).Some? { DeletedUnique(content, OwnerOf(o), TargetOf(o).value); }
  }

  lemma StepIsConsistent(s: State, filters: Filters, ev: Event)
    requires Consistent(s, filters) && WellFormed(s, ev)
    ensures Consistent(Next(s, filters, ev), filters)
  {
    hide Mapped, Unmapped, Added, Deleted, Watched, Changed;
  }

  /** Every step keeps the index equal to the live references. */
  lemma StepAgrees(s: State, filters: Filters, ev: Event, owner: Reference, target: Reference)
    requires Agrees(s, filters) && Consistent(s, filters) && WellFormed(s, ev) && Indexed(owner.kind)
    ensures var after := Next(s, filters, ev);
            Lists(after.content, owner, target) <==> Referenced(after, filters, owner, target)
  {
    assert Lists(s.content, owner, target) <==> Referenced(s, filters, owner, target);
    hide Mapped, Unmapped, Added, Deleted, Watched, Lists, Agrees;
    match ev {
      case Created(o) => MappedLists(s.content, o, owner, target);
      case Updating(b, a) => UnmappedLists(s.content, b, owner, target);
      case UpdateDone(kind) => MappedLists(s.content, s.pending[kind], owner, target);
      case DeletedEvent(o) => UnmappedLists(s.content, o, owner, target);
      case OtherAdds(o, t) => AddedLists(s.content, o, t, owner, target);
      case OtherDeletes(o, t) => DeletedLists(s.content, o, t, owner, target);
    }
  }

  lemma StepKeepsInv(s: State, filters: Filters, ev: Event)
    requires Inv(s, filters) && WellFormed(s, ev)
    ensures Inv(Next(s, filters, ev), filters)
  {
    hide Next, Lists, Referenced, Unique, Consistent, WellFormed;
    StepIsUnique(s, filters, ev);
    StepIsConsistent(s, filters, ev);
    forall owner: Reference, target: Reference | Indexed(owner.kind)
      ensures var after := Next(s, filters, ev);
              Lists(after.content, owner, target) <==> Referenced(after, filters, owner, target)
    {
      StepAgrees(s, filters, ev, owner, target);
    }
  }

  lemma {:induction false} RunKeepsInv(s: State, filters: Filters, events: seq<Event>)
    requires Inv(s, filters) && WellFormedRun(s, filters, events)
    ensures Inv(Run(s, filters, events), filters)
    decreases events
  {
    if events != [] {
      StepKeepsInv(s, filters, events[0]);
      hide Inv, Next, WellFormed;
      RunKeepsInv(Next(s, filters, events[0]), filters, events[1..]);
    }
  }

  const EMPTY := State(map[], map[], map[])

  /** Main result: over every well-formed sequence of events, whatever other writers do in between, the
      index lists an owner under a target exactly when a live, watched object references it (and is not
      between the two halves of an update), without duplicates. */
  lemma IndexIsExact(filters: Filters, events: seq<Event>, owner: Reference, target: Reference)
    requires WellFormedRun(EMPTY, filters, events) && Indexed(owner.kind)
    ensures var s := Run(EMPTY, filters, events);
            && (Lists(s.content, owner, target) <==> Referenced(s, filters, owner, target))
            && (target in s.content ==> NoDuplicates(s.content[target]))
  {
    RunKeepsInv(EMPTY, filters, events);
    hide Run, Lists, Referenced, Consistent;
  }

  // ---------------------------------------------------------------- lookups

  lemma {:induction false} OfKindLists(list: seq<Reference>, kind: Kind, o: Reference)
    ensures o in OfKind(list, kind) <==> o in list && o.kind == kind
  {
    if list != [] {
      var rest, last := list[..|list| - 1], list[|list| - 1];
      OfKindLists(rest, kind, o);
      assert list == rest + [last];
    }
  }

  lemma {:induction false} OfKindIsUnique(list: seq<Reference>, kind: Kind)
    requires NoDuplicates(list)
    ensures NoDuplicates(OfKind(list, kind))
  {
    if list != [] {
      var rest, last := list[..|list| - 1], list[|list| - 1];
      assert forall i :: 0 <= i < |rest| ==> rest[i] == list[i];
      OfKindIsUnique(rest, kind);
      assert last !in OfKind(rest, kind) by { OfKindLists(rest, kind, last); }
    }
  }

  lemma {:induction false} RequestsOf(owners: seq<Reference>, kind: Kind, namespace: string, r: Request)
    requires forall i :: 0 <= i < |owners| ==> owners[i].kind == kind
    ensures r in InNamespace(owners, namespace) <==>
              r.namespace == namespace && Reference(kind, r.namespace, r.name) in owners
  {
    if owners != [] {
      var rest, last := owners[..|owners| - 1], owners[|owners| - 1];
      RequestsOf(rest, kind, namespace, r);
      assert owners == rest + [last];
    }
  }

  lemma {:induction false} RequestsAreUnique(owners: seq<Reference>, kind: Kind, namespace: string)
    requires forall i :: 0 <= i < |owners| ==> owners[i].kind == kind
    requires NoDuplicates(owners)
    ensures NoDuplicates(InNamespace(owners, namespace))
  {
    if owners != [] {
      var rest, last := owners[..|owners| - 1], owners[|owners| - 1];
      assert forall i :: 0 <= i < |rest| ==> rest[i] == owners[i];
      RequestsAreUnique(rest, kind, namespace);
      var r := Request(last.namespace, last.name);
      assert r !in InNamespace(rest, namespace) by {
        RequestsOf(rest, kind, namespace, r);
        assert last !in rest;
      }
    }
  }

  /** Whenever the index is consulted, every owner of the asked kind and namespace that references the
      target is requested exactly once, and nobody else. */
  lemma RequestsAreExact(s: State, filters: Filters, target: Reference, namespace: string, kind: Kind, r: Request)
    requires Inv(s, filters) && Indexed(kind)
    ensures var requests := Requests(s.content, target, namespace, kind);
            && (r in requests <==>
                  r.namespace == namespace && Referenced(s, filters, Reference(kind, r.namespace, r.name), target))
            && multiset(requests)[r] <= 1
  {
    var list := ListFor(s.content, target);
    var owners := OfKind(list, kind);
    var owner := Reference(kind, r.namespace, r.name);
    forall i | 0 <= i < |owners| ensures owners[i].kind == kind { OfKindLists(list, kind, owners[i]); }
    assert NoDuplicates(list);
    OfKindIsUnique(list, kind);
    RequestsOf(owners, kind, namespace, r);
    RequestsAreUnique(owners, kind, namespace);
    OfKindLists(list, kind, owner);
    assert owner in list <==> Lists(s.content, owner, target);
    assert Lists(s.content, owner, target) <==> Referenced(s, filters, owner, target);
    UniqueCounts(Requests(s.content, target, namespace, kind), r);
  }

  lemma {:induction false} UniqueCounts(list: seq<Request>, r: Request)
    requires NoDuplicates(list)
    ensures multiset(list)[r] <= 1
  {
    if list != [] {
      var rest, last := list[..|list| - 1], list[|list| - 1];
      assert forall i :: 0 <= i < |rest| ==> rest[i] == list[i];
      UniqueCounts(rest, r);
      assert list == rest + [last];
      assert last !in rest;
    }
  }

  // ---------------------------------------------------------------- in terms of the objects

  /** A migration references its plan and a cluster its secret, when the reference has both its fields. */
  lemma TargetExactly(o: Object, target: Reference)
    ensures TargetOf(o) == Some(target) <==>
              && target.kind == (if o.Migration? then MigPlan else Secret)
              && target.namespace != "" && target.name != "" && o.ref == Some(Request(target.namespace, target.name))
  {
  }

  /** An update that is no change keeps the specification, and with it the reference; a migration may have
      got its final condition, and a cluster keeps its deletion time. */
  lemma UnchangedExactly(before: Object, after: Object)
    requires before.Migration? <==> after.Migration?
    ensures !Changed(before, after) <==>
              && before.ref == after.ref && before.rest == after.rest
              && (if before.Migration? then before.final ==> after.final else before.deletion == after.deletion)
    ensures !Changed(before, after) ==> TargetOf(before) == TargetOf(after)
  {
  }

  /** Main result in these terms: after any events, with no update of a migration under way, the migrations
      requested for a plan are exactly the live, watched ones whose specification names it. */
  lemma MigrationsOfPlan(filters: Filters, events: seq<Event>, plan: Request, namespace: string, name: string)
    requires WellFormedRun(EMPTY, filters, events) && MigMigration !in Run(EMPTY, filters, events).pending
    ensures var s := Run(EMPTY, filters, events);
            var owner := Reference(MigMigration, namespace, name);
            Request(namespace, name) in Requests(s.content, Reference(MigPlan, plan.namespace, plan.name), namespace, MigMigration)
            <==> && plan.namespace != "" && plan.name != ""
                 && (filters.migrations == "" || filters.migrations == namespace)
                 && owner in s.live && s.live[owner].ref == Some(plan)
  {
    OwnersOf(filters, events, Reference(MigPlan, plan.namespace, plan.name), Reference(MigMigration, namespace, name));
    hide *;
  }

  /** The same for clusters and their secrets. */
  lemma ClustersOfSecret(filters: Filters, events: seq<Event>, secret: Request, namespace: string, name: string)
    requires WellFormedRun(EMPTY, filters, events) && MigCluster !in Run(EMPTY, filters, events).pending
    ensures var s := Run(EMPTY, filters, events);
            var owner := Reference(MigCluster, namespace, name);
            Request(namespace, name) in Requests(s.content, Reference(Secret, secret.namespace, secret.name), namespace, MigCluster)
            <==> && secret.namespace != "" && secret.name != ""
                 && (filters.clusters == "" || filters.clusters == namespace)
                 && owner in s.live && s.live[owner].ref == Some(secret)
  {
    OwnersOf(filters, events, Reference(Secret, secret.namespace, secret.name), Reference(MigCluster, namespace, name));
    hide *;
  }

  lemma OwnersOf(filters: Filters, events: seq<Event>, target: Reference, owner: Reference)
    requires WellFormedRun(EMPTY, filters, events) && Indexed(owner.kind)
    requires owner.kind !in Run(EMPTY, filters, events).pending
    ensures var s := Run(EMPTY, filters, events);
            var filter := if owner.kind == MigMigration then filters.migrations else filters.clusters;
            Request(owner.namespace, owner.name) in Requests(s.content, target, owner.namespace, owner.kind)
            <==> && target.kind == (if owner.kind == MigMigration then MigPlan else Secret)
                 && target.namespace != "" && target.name != ""
                 && (filter == "" || filter == owner.namespace)
                 && owner in s.live && s.live[owner].ref == Some(Request(target.namespace, target.name))
  {
    var s := Run(EMPTY, filters, events);
    RunKeepsInv(EMPTY, filters, events);
    RequestsAreExact(s, filters, target, owner.namespace, owner.kind, Request(owner.namespace, owner.name));
    assert Reference(owner.kind, owner.namespace, owner.name) == owner;
    hide Run, Requests, WellFormedRun, TargetOf, Lists, Agrees, Unique;
    if owner in s.live {
      assert OwnerOf(s.live[owner]) == owner;
      TargetExactly(s.live[owner], target);
    }
  }
}
