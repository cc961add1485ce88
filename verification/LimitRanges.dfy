/** Fitting transfer pod resources into a namespace's LimitRanges:
    pkg/controller/directvolumemigration/resource.go.

    Quantities are integer counts of milli-units. Container bounds apply as they are; pod bounds are
    halved, because transfer pods have two containers. */
module LimitRanges {
  import opened Quantities
  import opened Wrappers

  datatype Resource = Cpu | Memory

  type ResourceList = map<Resource, int>

  datatype LimitType = Container | Pod | OtherLimit

  /** `max` and `min` may be nil. */
  datatype LimitRangeItem = LimitRangeItem(kind: LimitType, max: Option<ResourceList>, min: Option<ResourceList>)

  datatype Requirements = Requirements(requests: Option<ResourceList>, limits: Option<ResourceList>)

  /** `ResourceList.Cpu()` and `.Memory()`: a missing quantity reads as 0. */
  function Amount(list: Option<ResourceList>, r: Resource): int {
    if list.Some? && r in list.value then list.value[r] else 0
  }

  function Bound(list: Option<ResourceList>, r: Resource): Option<int> {
    if list.Some? && r in list.value then Some(list.value[r]) else None
  }

  // ---------------------------------------------------------------- scaling

  /** `getScaledDownQuantity` */
  function ScaledDown(q: int, scale: int): Option<int> {
    if scale < 1 then None
    else if Value(q) < 0 || q > GoDiv(Value(q), scale) * 1000 then Some(GoDiv(q, scale))
    else Some(GoDiv(Value(q), scale) * 1000)
  }

  lemma DivBounds(a: nat, b: int)
    requires b > 0
    ensures (a / b) * b <= a < (a / b + 1) * b
  {
  }

  lemma HalfAtMost(v: nat, scale: int)
    requires scale >= 2
    ensures v / scale <= v / 2
  {
    var k := Quotient(v, scale);
    TwiceAtMost(k, scale, v);
  }

  lemma Quotient(a: nat, b: int) returns (k: nat)
    requires b > 0
    ensures k == a / b && k * b <= a
  {
    k := a / b;
  }

  lemma TwiceAtMost(k: nat, scale: int, v: nat)
    requires scale >= 2 && k * scale <= v
    ensures k <= v / 2
  {
    assert k * scale == k * 2 + k * (scale - 2);
    assert k * (scale - 2) >= 0;
    assert k * 2 <= v;
  }

  /** Although `Value` rounds up and the code branches on it, scaling down by two or more is exact
      division rounded down. */
  lemma ScaledDownIsFloor(q: nat, scale: int)
    requires scale >= 2
    ensures ScaledDown(q, scale) == Some(q / scale)
    ensures (q / scale) * scale <= q < (q / scale + 1) * scale
  {
    HalfAtMost(Value(q), scale);
    DivBounds(q, scale);
    if q <= Value(q) / scale * 1000 {
      assert Value(q) / scale <= Value(q) / 2;
      assert q == 0;
    }
  }

  /** By one it is the identity exactly on whole units; other quantities are rounded up. */
  lemma ScaledByOne(q: nat)
    ensures ScaledDown(q, 1).Some? && (ScaledDown(q, 1) == Some(q) <==> q % 1000 == 0)
    ensures q <= ScaledDown(q, 1).value < q + 1000
  {
  }

  /** `getHalvedResourceList` */
  function Halved(list: Option<ResourceList>): Option<ResourceList> {
    if list.None? || (Cpu !in list.value && Memory !in list.value) then None
    else Some(map r | r in {Cpu, Memory} && r in list.value :: ScaledDown(list.value[r], 2).value)
  }

  // ---------------------------------------------------------------- clamping

  /** The item whose bounds are really applied: a pod item is halved, other types are skipped. */
  function Effective(item: LimitRangeItem): LimitRangeItem {
    match item.kind
    case Container => item
    case Pod => item.(max := Halved(item.max), min := Halved(item.min))
    case OtherLimit => item.(max := None, min := None)
  }

  function CapAt(list: ResourceList, r: Resource, max: Option<ResourceList>): ResourceList {
    var bound := Bound(max, r);
    if bound.Some? && Amount(Some(list), r) > bound.value then list[r := bound.value] else list
  }

  function RaiseTo(list: ResourceList, r: Resource, min: Option<ResourceList>): ResourceList {
    var bound := Bound(min, r);
    if bound.Some? && Amount(Some(list), r) < bound.value then list[r := bound.value] else list
  }

  function Dropped(q: Requirements, r: Resource): Requirements {
    if q.limits.Some? && Amount(q.limits, r) < Amount(q.requests, r)
    then q.(limits := Some(q.limits.value - {r})) else q
  }

  /** `applyLimitRangeItemOnRequirements` */
  function Applied(q: Requirements, item: LimitRangeItem): Requirements {
    var requests :=
      if q.requests.None? then None
      else Some(RaiseTo(RaiseTo(CapAt(CapAt(q.requests.value, Cpu, item.max), Memory, item.max),
                                Cpu, item.min), Memory, item.min));
    var limits :=
      if q.limits.None? then None else Some(CapAt(CapAt(q.limits.value, Cpu, item.max), Memory, item.max));
    Dropped(Dropped(Requirements(requests, limits), Cpu), Memory)
  }

  /** `applyLimitRangeOnRequirements` */
  function AppliedAll(q: Requirements, items: seq<LimitRangeItem>): Requirements {
    if items == [] then q
    else
      var before, last := AppliedAll(q, items[..|items| - 1]), items[|items| - 1];
      if last.kind.OtherLimit? then before else Applied(before, Effective(last))
  }

  class ResourceRequirements {
    var requests: Option<ResourceList>
    var limits: Option<ResourceList>

    ghost function Stored(): Requirements
      reads this
    {
      Requirements(requests, limits)
    }

    constructor (requests: Option<ResourceList>, limits: Option<ResourceList>)
      ensures Stored() == Requirements(requests, limits)
    {
      this.requests, this.limits := requests, limits;
    }

    method ApplyLimitRangeItem(item: LimitRangeItem)
      modifies this
      ensures Stored() == Applied(old(Stored()), item)
    {
      if requests.Some? {
        if item.max.Some? {
          CapRequest(Cpu, item.max.value);
          CapRequest(Memory, item.max.value);
        }
        if item.min.Some? {
          RaiseRequest(Cpu, item.min.value);
          RaiseRequest(Memory, item.min.value);
        }
      }
      if limits.Some? && item.max.Some? {
        CapLimit(Cpu, item.max.value);
        CapLimit(Memory, item.max.value);
      }
      DropLimit(Cpu);
      DropLimit(Memory);
    }

    method CapRequest(r: Resource, max: ResourceList)
      requires requests.Some?
      modifies this`requests
      ensures requests == Some(CapAt(old(requests).value, r, Some(max)))
    {
      if r in max && Amount(requests, r) > max[r] {
        requests := Some(requests.value[r := max[r]]);
      }
    }

    method RaiseRequest(r: Resource, min: ResourceList)
      requires requests.Some?
      modifies this`requests
      ensures requests == Some(RaiseTo(old(requests).value, r, Some(min)))
    {
      if r in min && Amount(requests, r) < min[r] {
        requests := Some(requests.value[r := min[r]]);
      }
    }

    method CapLimit(r: Resource, max: ResourceList)
      requires limits.Some?
      modifies this`limits
      ensures limits == Some(CapAt(old(limits).value, r, Some(max)))
    {
      if r in max && Amount(limits, r) > max[r] {
        limits := Some(limits.value[r := max[r]]);
      }
    }

    /** Limits smaller than the request are deleted. */
    method DropLimit(r: Resource)
      modifies this`limits
      ensures Stored() == Dropped(old(Stored()), r)
    {
      if limits.Some? && Amount(limits, r) < Amount(requests, r) {
        limits := Some(limits.value - {r});
      }
    }

    method ApplyLimitRange(items: seq<LimitRangeItem>)
      modifies this
      ensures Stored() == AppliedAll(old(Stored()), items)
    {
      for i := 0 to |items|
        invariant Stored() == AppliedAll(old(Stored()), items[..i])
      {
        assert items[..i + 1][..i] == items[..i];
        match items[i].kind {
          case Container => ApplyLimitRangeItem(items[i]);
          case Pod => ApplyLimitRangeItem(LimitRangeItem(Pod, Halved(items[i].max), Halved(items[i].min)));
          case OtherLimit =>
        }
      }
      assert items[..|items|] == items;
    }
  }

  /** The value respects the bounds that the item declares for the resource. */
  predicate Within(x: int, item: LimitRangeItem, r: Resource) {
    && (Bound(item.min, r).Some? ==> Bound(item.min, r).value <= x)
    && (Bound(item.max, r).Some? ==> x <= Bound(item.max, r).value)
  }

  predicate WithinAll(x: int, items: seq<LimitRangeItem>, r: Resource) {
    forall i :: 0 <= i < |items| ==> Within(x, Effective(items[i]), r)
  }

  /** What clamping by one item makes of a value: its maximum first, then its minimum. */
  function Clamped(x: int, item: LimitRangeItem, r: Resource): int {
    var hi, lo := Bound(item.max, r), Bound(item.min, r);
    var capped := if hi.Some? && x > hi.value then hi.value else x;
    if lo.Some? && capped < lo.value then lo.value else capped
  }

  lemma AppliedToRequest(q: Requirements, item: LimitRangeItem, r: Resource)
    ensures var after := Applied(q, item);
            && (q.requests.Some? <==> after.requests.Some?)
            && Amount(after.requests, r) ==
                 if q.requests.Some? then Clamped(Amount(q.requests, r), item, r) else 0
  {
    DroppedKeepsRequests(q, item);
    hide Dropped;
  }

  lemma DroppedKeepsRequests(q: Requirements, item: LimitRangeItem)
    ensures Applied(q, item).requests ==
              if q.requests.None? then None
              else Some(RaiseTo(RaiseTo(CapAt(CapAt(q.requests.value, Cpu, item.max), Memory, item.max),
                                        Cpu, item.min), Memory, item.min))
  {
    hide CapAt, RaiseTo;
  }

  /** One item's effect on one limit: capped, then dropped if below the request. */
  lemma AppliedToLimit(q: Requirements, item: LimitRangeItem, r: Resource)
    requires Bound(item.max, r).Some? ==> Bound(item.max, r).value >= 0
    ensures var after := Applied(q, item);
            Bound(after.limits, r).Some? ==>
              && Amount(after.requests, r) <= Bound(after.limits, r).value
              && (Bound(item.max, r).Some? ==> Bound(after.limits, r).value <= Bound(item.max, r).value)
              && Bound(q.limits, r).Some? && Bound(after.limits, r).value <= Bound(q.limits, r).value
  {
    hide RaiseTo;
  }

  /** Clamping moves a value towards every value the item allows, and stops at an allowed one. */
  lemma ClampedFits(a: int, b: int, item: LimitRangeItem, r: Resource)
    requires Within(b, item, r)
    ensures Within(Clamped(a, item, r), item, r)
    ensures a <= Clamped(a, item, r) <= b || b <= Clamped(a, item, r) <= a || Clamped(a, item, r) == a
  {
  }

  lemma WithinAllSplit(x: int, items: seq<LimitRangeItem>, r: Resource)
    requires items != []
    ensures WithinAll(x, items, r) <==>
              WithinAll(x, items[..|items| - 1], r) && Within(x, Effective(items[|items| - 1]), r)
  {
    hide Effective, Within;
    var rest, last := items[..|items| - 1], items[|items| - 1];
    assert forall i :: 0 <= i < |items| ==> items[i] == if i < |rest| then rest[i] else last;
    if WithinAll(x, items, r) {
      assert forall i :: 0 <= i < |rest| ==> rest[i] == items[i];
    }
  }

  /** A value between two that respect the items respects them too. */
  lemma BetweenStaysWithin(a: int, b: int, between: int, items: seq<LimitRangeItem>, r: Resource)
    requires WithinAll(a, items, r) && WithinAll(b, items, r)
    requires a <= between <= b || b <= between <= a
    ensures WithinAll(between, items, r)
  {
    hide Effective;
  }

  /** Applying the items cannot miss a value that respects all of them. */
  lemma {:induction false} RequestsReach(q: Requirements, items: seq<LimitRangeItem>, r: Resource, x: int)
    requires q.requests.Some? && WithinAll(x, items, r)
    ensures AppliedAll(q, items).requests.Some?
    ensures WithinAll(Amount(AppliedAll(q, items).requests, r), items, r)
  {
    if items != [] {
      var rest, last := items[..|items| - 1], items[|items| - 1];
      WithinAllSplit(x, items, r);
      RequestsReach(q, rest, r, x);
      var a := Amount(AppliedAll(q, rest).requests, r);
      ClampedFits(a, x, Effective(last), r);
      AppliedToRequest(AppliedAll(q, rest), Effective(last), r);
      hide Applied, Effective, Within, Clamped, WithinAll;
      if last.kind.OtherLimit? {
        OtherLimitsAllow(a, last, r);
      } else {
        BetweenStaysWithin(a, x, Clamped(a, Effective(last), r), rest, r);
      }
      WithinAllSplit(Amount(AppliedAll(q, items).requests, r), items, r);
    }
  }

  lemma OtherLimitsAllow(x: int, item: LimitRangeItem, r: Resource)
    requires item.kind.OtherLimit?
    ensures Within(x, Effective(item), r)
  {
  }

  /** Main result: after a LimitRange of any number of items is applied, the CPU and memory requests
      respect every item exactly when some value does, whatever the requests were before. */
  lemma RequestsFitWhenPossible(q: Requirements, items: seq<LimitRangeItem>, r: Resource)
    requires q.requests.Some?
    ensures WithinAll(Amount(AppliedAll(q, items).requests, r), items, r) <==> exists x :: WithinAll(x, items, r)
  {
    hide WithinAll, AppliedAll;
    if x :| WithinAll(x, items, r) {
      RequestsReach(q, items, r, x);
    }
  }

  /** Every limit still present lies between the request and every maximum. */
  lemma {:induction false} LimitsLieBetween(q: Requirements, items: seq<LimitRangeItem>, r: Resource)
    requires forall i :: 0 <= i < |items| ==>
               Bound(Effective(items[i]).max, r).Some? ==> Bound(Effective(items[i]).max, r).value >= 0
    ensures var after := AppliedAll(q, items);
            Bound(after.limits, r).Some? ==>
              && (forall i :: 0 <= i < |items| && Bound(Effective(items[i]).max, r).Some? ==>
                    Bound(after.limits, r).value <= Bound(Effective(items[i]).max, r).value)
              && Bound(q.limits, r).Some? && Bound(after.limits, r).value <= Bound(q.limits, r).value
              && ((exists i :: 0 <= i < |items| && !items[i].kind.OtherLimit?) ==>
                    Amount(after.requests, r) <= Bound(after.limits, r).value)
  {
    if items != [] {
      var rest, last := items[..|items| - 1], items[|items| - 1];
      LimitsLieBetween(q, rest, r);
      assert forall i :: 0 <= i < |items| ==> items[i] == if i < |rest| then rest[i] else last;
      hide Effective, Applied;
      if !last.kind.OtherLimit? {
        AppliedToLimit(AppliedAll(q, rest), Effective(last), r);
      } else {
        OtherLimitsCapNothing(last, r);
      }
    }
  }

  /** The request respects the item, and the limit, if any, its maximum and the request. */
  predicate Fits(q: Requirements, item: LimitRangeItem, r: Resource) {
    && (q.requests.Some? ==> Within(Amount(q.requests, r), item, r))
    && (Bound(q.limits, r).Some? ==>
          && Amount(q.requests, r) <= Bound(q.limits, r).value
          && (Bound(item.max, r).Some? ==> Bound(q.limits, r).value <= Bound(item.max, r).value))
  }

  lemma FittingItemChangesNothing(q: Requirements, item: LimitRangeItem)
    requires Fits(q, item, Cpu) && Fits(q, item, Memory)
    requires Bound(item.max, Cpu).Some? ==> Bound(item.max, Cpu).value >= 0
    requires Bound(item.max, Memory).Some? ==> Bound(item.max, Memory).value >= 0
    ensures Applied(q, item) == q
  {
    assert q.limits.Some? && Cpu !in q.limits.value ==> q.limits.value - {Cpu} == q.limits.value;
    assert q.limits.Some? && Memory !in q.limits.value ==> q.limits.value - {Memory} == q.limits.value;
  }

  /** Requirements that fit every item are left exactly as they are, limits included. */
  lemma {:induction false} FittingRequirementsStay(q: Requirements, items: seq<LimitRangeItem>)
    requires NonNegative(items, Cpu) && NonNegative(items, Memory)
    requires forall i, r :: 0 <= i < |items| ==> Fits(q, Effective(items[i]), r)
    ensures AppliedAll(q, items) == q
  {
    if items != [] {
      var rest, last := items[..|items| - 1], items[|items| - 1];
      assert forall i :: 0 <= i < |rest| ==> rest[i] == items[i];
      FittingRequirementsStay(q, rest);
      EffectiveNonNegative(last, Cpu);
      EffectiveNonNegative(last, Memory);
      hide Effective, Applied, Fits;
      assert Fits(q, Effective(items[|rest|]), Cpu) && Fits(q, Effective(items[|rest|]), Memory);
      FittingItemChangesNothing(q, Effective(last));
    }
  }

  lemma OtherLimitsCapNothing(item: LimitRangeItem, r: Resource)
    requires item.kind.OtherLimit?
    ensures Bound(Effective(item).max, r).None?
  {
  }

  /** Only pod bounds, consistent: two containers together stay below the pod maximum and miss the pod
      minimum by at most one milli-unit. */
  lemma TwoContainersFitThePod(q: Requirements, pod: LimitRangeItem, r: Resource)
    requires q.requests.Some? && pod.kind.Pod?
    requires Bound(pod.max, r).Some? ==> Bound(pod.max, r).value >= 0
    requires Bound(pod.min, r).Some? ==> Bound(pod.min, r).value >= 0
    requires Bound(pod.min, r).Some? && Bound(pod.max, r).Some? ==> Bound(pod.min, r).value <= Bound(pod.max, r).value
    ensures var each := Amount(AppliedAll(q, [pod]).requests, r);
            && (Bound(pod.max, r).Some? ==> 2 * each <= Bound(pod.max, r).value)
            && (Bound(pod.min, r).Some? ==> Bound(pod.min, r).value - 1 <= 2 * each)
  {
    var lo, hi := Bound(pod.min, r), Bound(pod.max, r);
    if lo.Some? { ScaledDownIsFloor(lo.value, 2); }
    if hi.Some? { ScaledDownIsFloor(hi.value, 2); }
    HalvedBound(pod.max, r);
    HalvedBound(pod.min, r);
    var x := if lo.Some? then lo.value / 2 else if hi.Some? then hi.value / 2 else 0;
    assert Within(x, Effective(pod), r);
    assert WithinAll(x, [pod], r);
    RequestsFitWhenPossible(q, [pod], r);
    assert WithinAll(Amount(AppliedAll(q, [pod]).requests, r), [pod], r);
    assert [pod][0] == pod;
  }

  lemma HalvedBound(list: Option<ResourceList>, r: Resource)
    ensures Bound(Halved(list), r) ==
              if Bound(list, r).Some? then Some(ScaledDown(Bound(list, r).value, 2).value) else None
  {
    hide GoDiv, Value;
  }

  // ---------------------------------------------------------------- merging the ranges of a namespace

  /** `mergeResourceLimitRangeItems` */
  function Merged(target: LimitRangeItem, source: LimitRangeItem): LimitRangeItem {
    var max :=
      if source.max.None? then target.max
      else Some(CapAt(CapAt(target.max.GetOr(map[]), Cpu, source.max), Memory, source.max));
    var min :=
      if source.min.None? then target.min
      else Some(RaiseTo(RaiseTo(target.min.GetOr(map[]), Cpu, source.min), Memory, source.min));
    LimitRangeItem(target.kind, max, min)
  }

  /** The items of one kind, in order, merged into the first. */
  function MergedAll(items: seq<LimitRangeItem>): Option<LimitRangeItem> {
    if items == [] then None
    else
      var before, last := MergedAll(items[..|items| - 1]), items[|items| - 1];
      if before.None? then Some(last) else Some(Merged(before.value, last))
  }

  function OfKind(items: seq<LimitRangeItem>, kind: LimitType): seq<LimitRangeItem> {
    if items == [] then []
    else
      var before, last := OfKind(items[..|items| - 1], kind), items[|items| - 1];
      if last.kind == kind then before + [last] else before
  }

  function Flattened(ranges: seq<seq<LimitRangeItem>>): seq<LimitRangeItem> {
    if ranges == [] then [] else Flattened(ranges[..|ranges| - 1]) + ranges[|ranges| - 1]
  }

  function Listed(item: Option<LimitRangeItem>): seq<LimitRangeItem> {
    if item.None? then [] else [item.value]
  }

  function Consolidated(items: seq<LimitRangeItem>): seq<LimitRangeItem> {
    Listed(MergedAll(OfKind(items, Pod))) + Listed(MergedAll(OfKind(items, Container)))
  }

  lemma OfKindSnoc(items: seq<LimitRangeItem>, item: LimitRangeItem, kind: LimitType)
    ensures OfKind(items + [item], kind) ==
              if item.kind == kind then OfKind(items, kind) + [item] else OfKind(items, kind)
  {
    assert (items + [item])[..|items|] == items;
  }

  lemma MergedAllSnoc(items: seq<LimitRangeItem>, item: LimitRangeItem)
    ensures MergedAll(items + [item]) ==
              if items == [] then Some(item) else Some(Merged(MergedAll(items).value, item))
  {
    assert (items + [item])[..|items|] == items;
  }

  /** The item that the items of one kind are merged into, in place. */
  class TargetItem {
    const kind: LimitType
    var max: Option<ResourceList>
    var min: Option<ResourceList>

    ghost function Stored(): LimitRangeItem
      reads this
    {
      LimitRangeItem(kind, max, min)
    }

    constructor (item: LimitRangeItem)
      ensures Stored() == item
    {
      kind, max, min := item.kind, item.max, item.min;
    }

    /** `mergeResourceLimitRangeItems` */
    method MergeResourceLimitRangeItems(source: LimitRangeItem)
      modifies this
      ensures Stored() == Merged(old(Stored()), source)
    {
      if source.max.Some? {
        var bounds := max.GetOr(map[]);
        if Cpu in source.max.value && Amount(Some(bounds), Cpu) > source.max.value[Cpu] {
          bounds := bounds[Cpu := source.max.value[Cpu]];
        }
        if Memory in source.max.value && Amount(Some(bounds), Memory) > source.max.value[Memory] {
          bounds := bounds[Memory := source.max.value[Memory]];
        }
        max := Some(bounds);
      }
      if source.min.Some? {
        var bounds := min.GetOr(map[]);
        if Cpu in source.min.value && Amount(Some(bounds), Cpu) < source.min.value[Cpu] {
          bounds := bounds[Cpu := source.min.value[Cpu]];
        }
        if Memory in source.min.value && Amount(Some(bounds), Memory) < source.min.value[Memory] {
          bounds := bounds[Memory := source.min.value[Memory]];
        }
        min := Some(bounds);
      }
    }
  }

  /** What a target pointer, nil before the first item of its kind, stands for. */
  ghost predicate Holds(target: TargetItem?, item: Option<LimitRangeItem>)
    reads target
  {
    if target == null then item.None? else item == Some(target.Stored())
  }

  method AppendStored(limits: seq<LimitRangeItem>, target: TargetItem?, ghost item: Option<LimitRangeItem>)
    returns (appended: seq<LimitRangeItem>)
    requires Holds(target, item)
    ensures appended == limits + Listed(item)
  {
    appended := limits;
    if target != null {
      appended := appended + [LimitRangeItem(target.kind, target.max, target.min)];
    }
  }

  lemma NothingMerged()
    ensures MergedAll(OfKind([], Pod)).None? && MergedAll(OfKind([], Container)).None?
  {
  }

  /** One more item of the namespace, for the target of one kind. */
  lemma MergeStep(seen: seq<LimitRangeItem>, item: LimitRangeItem, kind: LimitType)
    ensures var before, after := MergedAll(OfKind(seen, kind)), MergedAll(OfKind(seen + [item], kind));
            after == if item.kind != kind then before
                     else if before.None? then Some(item) else Some(Merged(before.value, item))
  {
    OfKindSnoc(seen, item, kind);
    MergedAllSnoc(OfKind(seen, kind), item);
    MergedAllNone(OfKind(seen, kind));
  }

  /** `getLimitRangeForNamespace`: nothing without LimitRange objects. Each range is the list of its items. */
  method GetLimitRangeForNamespace(ranges: seq<seq<LimitRangeItem>>) returns (final: Option<seq<LimitRangeItem>>)
    ensures final == if ranges == [] then None else Some(Consolidated(Flattened(ranges)))
  {
    hide Merged, MergedAll, OfKind, Listed;
    if |ranges| == 0 {
      return None;
    }
    NothingMerged();
    var podItem: TargetItem? := null;
    var containerItem: TargetItem? := null;
    ghost var seen: seq<LimitRangeItem> := [];
    for i := 0 to |ranges|
      invariant podItem != null ==> fresh(podItem) && podItem != containerItem
      invariant containerItem != null ==> fresh(containerItem)
      invariant seen == Flattened(ranges[..i])
      invariant Holds(podItem, MergedAll(OfKind(seen, Pod)))
      invariant Holds(containerItem, MergedAll(OfKind(seen, Container)))
    {
      ghost var before := seen;
      for j := 0 to |ranges[i]|
        invariant podItem != null ==> fresh(podItem) && podItem != containerItem
        invariant containerItem != null ==> fresh(containerItem)
        invariant seen == before + ranges[i][..j]
        invariant Holds(podItem, MergedAll(OfKind(seen, Pod)))
        invariant Holds(containerItem, MergedAll(OfKind(seen, Container)))
      {
        var item := ranges[i][j];
        MergeStep(seen, item, Pod);
        MergeStep(seen, item, Container);
        match item.kind {
          case Container =>
            if containerItem == null {
              containerItem := new TargetItem(item);
            } else {
              containerItem.MergeResourceLimitRangeItems(item);
            }
          case Pod =>
            if podItem == null {
              podItem := new TargetItem(item);
            } else {
              podItem.MergeResourceLimitRangeItems(item);
            }
          case OtherLimit =>
        }
        assert ranges[i][..j + 1] == ranges[i][..j] + [item];
        seen := seen + [item];
      }
      assert ranges[i][..|ranges[i]|] == ranges[i];
      assert ranges[..i + 1][..i] == ranges[..i];
    }
    assert ranges[..|ranges|] == ranges;
    ghost var ofPods := Listed(MergedAll(OfKind(seen, Pod)));
    var limits := AppendStored([], podItem, MergedAll(OfKind(seen, Pod)));
    assert limits == ofPods;
    limits := AppendStored(limits, containerItem, MergedAll(OfKind(seen, Container)));
    final := Some(limits);
  }

  predicate BelowMax(x: int, item: LimitRangeItem, r: Resource) {
    Bound(item.max, r).Some? ==> x <= Bound(item.max, r).value
  }

  predicate AboveMin(x: int, item: LimitRangeItem, r: Resource) {
    Bound(item.min, r).Some? ==> Bound(item.min, r).value <= x
  }

  /** Limits are validated to be non-negative when the object is created. */
  predicate NonNegative(items: seq<LimitRangeItem>, r: Resource) {
    forall i :: 0 <= i < |items| ==>
      && (Bound(items[i].max, r).Some? ==> Bound(items[i].max, r).value >= 0)
      && (Bound(items[i].min, r).Some? ==> Bound(items[i].min, r).value >= 0)
  }

  /** The first item of the kind declares a maximum, or none does. */
  predicate FirstDeclaresMax(items: seq<LimitRangeItem>, r: Resource) {
    items != [] && (Bound(items[0].max, r).Some? || forall i :: 0 <= i < |items| ==> Bound(items[i].max, r).None?)
  }

  /** Effect of one merge on the bounds of one resource. */
  lemma MergedPerResource(a: LimitRangeItem, b: LimitRangeItem, r: Resource)
    ensures Bound(Merged(a, b).max, r) ==
              if Bound(b.max, r).Some? && Amount(a.max, r) > Bound(b.max, r).value
              then Bound(b.max, r) else Bound(a.max, r)
    ensures Bound(Merged(a, b).min, r) ==
              if Bound(b.min, r).Some? && Amount(a.min, r) < Bound(b.min, r).value
              then Bound(b.min, r) else Bound(a.min, r)
  {
  }

  /** Minima always merge to the most restrictive one. */
  lemma {:induction false} MinimaMerge(items: seq<LimitRangeItem>, r: Resource, x: nat)
    requires items != [] && NonNegative(items, r)
    ensures Amount(MergedAll(items).value.min, r) >= 0
    ensures AboveMin(x, MergedAll(items).value, r) <==> forall i :: 0 <= i < |items| ==> AboveMin(x, items[i], r)
  {
    var rest, last := items[..|items| - 1], items[|items| - 1];
    if rest == [] {
      assert items == [last];
    } else {
      MinimaMerge(rest, r, x);
      MergedPerResource(MergedAll(rest).value, last, r);
      hide Merged;
      assert forall i :: 0 <= i < |items| ==> items[i] == if i < |rest| then rest[i] else last;
      assert forall i :: 0 <= i < |rest| ==> rest[i] == items[i];
    }
  }

  /** Maxima merge to the most restrictive one when the first item declares one; when it does not, the
      merged item declares none at all, because a missing maximum reads as 0. */
  lemma {:induction false} MaximaMerge(items: seq<LimitRangeItem>, r: Resource, x: int)
    requires items != [] && NonNegative(items, r)
    ensures Bound(MergedAll(items).value.max, r).Some? <==> Bound(items[0].max, r).Some?
    ensures Amount(MergedAll(items).value.max, r) >= 0
    ensures Bound(items[0].max, r).Some? ==>
              (BelowMax(x, MergedAll(items).value, r) <==> forall i :: 0 <= i < |items| ==> BelowMax(x, items[i], r))
  {
    var rest, last := items[..|items| - 1], items[|items| - 1];
    if rest == [] {
      assert items == [last];
    } else {
      MaximaMerge(rest, r, x);
      MergedPerResource(MergedAll(rest).value, last, r);
      hide Merged;
      assert forall i :: 0 <= i < |items| ==> items[i] == if i < |rest| then rest[i] else last;
      assert forall i :: 0 <= i < |rest| ==> rest[i] == items[i];
    }
  }

  /** The merged maximum stands for all of them exactly when the first item declares one or none does. */
  lemma MergedMaxIsTightest(items: seq<LimitRangeItem>, r: Resource)
    requires items != [] && NonNegative(items, r)
    ensures (forall x: nat :: BelowMax(x, MergedAll(items).value, r) <==>
              forall i :: 0 <= i < |items| ==> BelowMax(x, items[i], r))
            <==> FirstDeclaresMax(items, r)
  {
    forall x: nat
      ensures FirstDeclaresMax(items, r) ==>
                (BelowMax(x, MergedAll(items).value, r) <==>
                 forall i :: 0 <= i < |items| ==> BelowMax(x, items[i], r))
    {
      MaximaMerge(items, r, x);
    }
    if !FirstDeclaresMax(items, r) {
      var i :| 0 <= i < |items| && Bound(items[i].max, r).Some?;
      var x := Bound(items[i].max, r).value + 1;
      MaximaMerge(items, r, x);
      assert !BelowMax(x, items[i], r) && BelowMax(x, MergedAll(items).value, r);
    }
  }

  /** Half of the pod bounds, seen from twice the value. */
  lemma PodBoundsDoubled(x: int, item: LimitRangeItem, r: Resource)
    requires item.kind.Pod? && NonNegative([item], r)
    ensures Within(x, Effective(item), r) <==> BelowMax(2 * x, item, r) && AboveMin(2 * x + 1, item, r)
  {
    assert [item][0] == item;
    HalvedBound(item.max, r);
    HalvedBound(item.min, r);
    if Bound(item.max, r).Some? { ScaledDownIsFloor(Bound(item.max, r).value, 2); }
    if Bound(item.min, r).Some? { ScaledDownIsFloor(Bound(item.min, r).value, 2); }
    hide Halved, ScaledDown;
  }

  predicate AllOf(items: seq<LimitRangeItem>, kind: LimitType) {
    forall i :: 0 <= i < |items| ==> items[i].kind == kind
  }

  lemma MergedKeepsKind(items: seq<LimitRangeItem>, kind: LimitType)
    requires items != [] && AllOf(items, kind)
    ensures MergedAll(items).value.kind == kind
  {
    hide CapAt, RaiseTo;
  }

  lemma MergedNonNegative(items: seq<LimitRangeItem>, r: Resource)
    requires items != [] && NonNegative(items, r)
    ensures NonNegative([MergedAll(items).value], r)
  {
    MaximaMerge(items, r, 0);
    MinimaMerge(items, r, 0);
    hide MergedAll;
  }

  /** One kind: a non-negative value respects the merged item exactly when it respects every item. */
  lemma MergedAllowsTheSame(items: seq<LimitRangeItem>, kind: LimitType, r: Resource, x: nat)
    requires AllOf(items, kind) && NonNegative(items, r) && (items == [] || FirstDeclaresMax(items, r))
    requires kind.Pod? || kind.Container?
    ensures WithinAll(x, Listed(MergedAll(items)), r) <==> WithinAll(x, items, r)
  {
    if items != [] {
      var merged := MergedAll(items).value;
      MergedKeepsKind(items, kind);
      MergedNonNegative(items, r);
      var high, low := if kind.Pod? then 2 * x else x, if kind.Pod? then 2 * x + 1 else x;
      MergedMaxIsTightest(items, r);
      MinimaMerge(items, r, low);
      assert Listed(MergedAll(items)) == [merged];
      OneItem(x, merged, r);
      forall i | 0 <= i < |items|
        ensures Within(x, Effective(items[i]), r) <==> BelowMax(high, items[i], r) && AboveMin(low, items[i], r)
      {
        if kind.Pod? { PodBoundsDoubled(x, items[i], r); }
      }
      if kind.Pod? { PodBoundsDoubled(x, merged, r); }
      hide Effective, MergedAll, Within, NonNegative, AllOf;
      assert WithinAll(x, [merged], r) <==> BelowMax(high, merged, r) && AboveMin(low, merged, r);
    }
  }

  lemma OneItem(x: int, item: LimitRangeItem, r: Resource)
    ensures WithinAll(x, [item], r) <==> Within(x, Effective(item), r)
  {
    hide Effective;
    assert [item][0] == item;
  }

  lemma WithinAllConcat(x: int, a: seq<LimitRangeItem>, b: seq<LimitRangeItem>, r: Resource)
    ensures WithinAll(x, a + b, r) <==> WithinAll(x, a, r) && WithinAll(x, b, r)
  {
    hide Effective, Within;
    if WithinAll(x, a + b, r) {
      assert forall i :: 0 <= i < |a| ==> a[i] == (a + b)[i];
      assert forall i :: 0 <= i < |b| ==> b[i] == (a + b)[|a| + i];
    }
  }

  lemma OfKindIsOfKind(items: seq<LimitRangeItem>, kind: LimitType, r: Resource)
    requires NonNegative(items, r)
    ensures AllOf(OfKind(items, kind), kind) && NonNegative(OfKind(items, kind), r)
  {
  }

  /** Items of other types bound nothing, so pods' and containers' items are all that matters. */
  lemma {:induction false} KindsCover(x: int, items: seq<LimitRangeItem>, r: Resource)
    ensures WithinAll(x, items, r) <==>
              WithinAll(x, OfKind(items, Pod), r) && WithinAll(x, OfKind(items, Container), r)
  {
    if items != [] {
      var rest, last := items[..|items| - 1], items[|items| - 1];
      KindsCover(x, rest, r);
      WithinAllSplit(x, items, r);
      OneItem(x, last, r);
      WithinAllConcat(x, OfKind(rest, Pod), [last], r);
      WithinAllConcat(x, OfKind(rest, Container), [last], r);
      if last.kind.OtherLimit? { OtherLimitsAllow(x, last, r); }
      hide Effective, Within, WithinAll;
    }
  }

  predicate KindDeclares(items: seq<LimitRangeItem>, kind: LimitType, r: Resource) {
    OfKind(items, kind) == [] || FirstDeclaresMax(OfKind(items, kind), r)
  }

  /** Main result for a namespace: when the first item of each kind declares a maximum (or none of that
      kind does), the requests of a transfer container respect every LimitRange item of the namespace,
      pod bounds halved, exactly when some non-negative value does. */
  lemma NamespaceRequestsFit(q: Requirements, items: seq<LimitRangeItem>, r: Resource)
    requires q.requests.Some? && Amount(q.requests, r) >= 0 && NonNegative(items, r)
    requires KindDeclares(items, Pod, r) && KindDeclares(items, Container, r)
    ensures WithinAll(Amount(AppliedAll(q, Consolidated(items)).requests, r), items, r) <==>
              exists x: nat :: WithinAll(x, items, r)
  {
    hide WithinAll, AppliedAll, FirstDeclaresMax, NonNegative;
    forall x: nat
      ensures WithinAll(x, Consolidated(items), r) <==> WithinAll(x, items, r)
    {
      ConsolidatedAllowsTheSame(items, r, x);
    }
    AppliedStaysNonNegative(q, Consolidated(items), r) by {
      ConsolidatedNonNegative(items, r);
    }
    if x: nat :| WithinAll(x, items, r) {
      assert WithinAll(x, Consolidated(items), r);
      RequestsReach(q, Consolidated(items), r, x);
    }
  }

  lemma ConsolidatedAllowsTheSame(items: seq<LimitRangeItem>, r: Resource, x: nat)
    requires NonNegative(items, r) && KindDeclares(items, Pod, r) && KindDeclares(items, Container, r)
    ensures WithinAll(x, Consolidated(items), r) <==> WithinAll(x, items, r)
  {
    hide WithinAll, MergedAll, FirstDeclaresMax, NonNegative;
    var pods, containers := OfKind(items, Pod), OfKind(items, Container);
    OfKindIsOfKind(items, Pod, r);
    OfKindIsOfKind(items, Container, r);
    KindsCover(x, items, r);
    MergedAllowsTheSame(pods, Pod, r, x);
    MergedAllowsTheSame(containers, Container, r, x);
    WithinAllConcat(x, Listed(MergedAll(pods)), Listed(MergedAll(containers)), r);
  }

  lemma ListedNonNegative(items: seq<LimitRangeItem>, r: Resource)
    requires NonNegative(items, r)
    ensures NonNegative(Listed(MergedAll(items)), r)
  {
    MergedAllNone(items);
    if items != [] { MergedNonNegative(items, r); }
    hide MergedAll;
  }

  lemma NonNegativeConcat(a: seq<LimitRangeItem>, b: seq<LimitRangeItem>, r: Resource)
    requires NonNegative(a, r) && NonNegative(b, r)
    ensures NonNegative(a + b, r)
  {
  }

  lemma ConsolidatedNonNegative(items: seq<LimitRangeItem>, r: Resource)
    requires NonNegative(items, r)
    ensures NonNegative(Consolidated(items), r)
  {
    hide MergedAll, NonNegative;
    OfKindIsOfKind(items, Pod, r);
    OfKindIsOfKind(items, Container, r);
    ListedNonNegative(OfKind(items, Pod), r);
    ListedNonNegative(OfKind(items, Container), r);
    NonNegativeConcat(Listed(MergedAll(OfKind(items, Pod))), Listed(MergedAll(OfKind(items, Container))), r);
  }

  lemma MergedAllNone(items: seq<LimitRangeItem>)
    ensures MergedAll(items).None? <==> items == []
  {
  }

  lemma {:induction false} AppliedStaysNonNegative(q: Requirements, items: seq<LimitRangeItem>, r: Resource)
    requires q.requests.Some? && Amount(q.requests, r) >= 0 && NonNegative(items, r)
    ensures AppliedAll(q, items).requests.Some? && Amount(AppliedAll(q, items).requests, r) >= 0
  {
    if items != [] {
      var rest, last := items[..|items| - 1], items[|items| - 1];
      assert forall i :: 0 <= i < |rest| ==> rest[i] == items[i];
      AppliedStaysNonNegative(q, rest, r);
      EffectiveNonNegative(last, r);
      AppliedToRequest(AppliedAll(q, rest), Effective(last), r);
      hide Effective, Applied;
    }
  }

  lemma EffectiveNonNegative(item: LimitRangeItem, r: Resource)
    requires Bound(item.max, r).Some? ==> Bound(item.max, r).value >= 0
    requires Bound(item.min, r).Some? ==> Bound(item.min, r).value >= 0
    ensures Bound(Effective(item).max, r).Some? ==> Bound(Effective(item).max, r).value >= 0
    ensures Bound(Effective(item).min, r).Some? ==> Bound(Effective(item).min, r).value >= 0
  {
    HalvedBound(item.max, r);
    HalvedBound(item.min, r);
    if Bound(item.max, r).Some? { ScaledDownIsFloor(Bound(item.max, r).value, 2); }
    if Bound(item.min, r).Some? { ScaledDownIsFloor(Bound(item.min, r).value, 2); }
    hide Halved, ScaledDown;
  }

  // ---------------------------------------------------------------- conflicts, limits and odd scales

  /** What becomes of one limit: it is cut at the maximum, and what is left is kept unless it is below the
      request. */
  lemma LimitExactly(q: Requirements, item: LimitRangeItem, r: Resource)
    requires Bound(item.max, r).Some? ==> Bound(item.max, r).value >= 0
    ensures var after := Applied(q, item);
            var kept, request := Bound(after.limits, r), Amount(after.requests, r);
            && (Bound(q.limits, r).None? ==> kept.None?)
            && (Bound(q.limits, r).Some? ==>
                  var limit := Bound(q.limits, r).value;
                  && (kept.Some? <==> limit >= request && BelowMax(request, item, r))
                  && (kept.Some? && BelowMax(limit, item, r) ==> kept == Some(limit))
                  && (kept.Some? && !BelowMax(limit, item, r) ==> kept == Bound(item.max, r)))
  {
    hide RaiseTo;
  }

  /** Where the bounds of a namespace contradict each other the container's come last, and minima after
      maxima: every minimum of a container item holds, and every container item as soon as some value
      respects them all. */
  lemma ContainersWin(q: Requirements, items: seq<LimitRangeItem>, r: Resource, i: nat)
    requires q.requests.Some? && Amount(q.requests, r) >= 0 && NonNegative(items, r)
    requires i < |items| && items[i].kind.Container?
    ensures var x := Amount(AppliedAll(q, Consolidated(items)).requests, r);
            && x >= 0 && AboveMin(x, items[i], r)
            && (FirstDeclaresMax(OfKind(items, Container), r)
                && (exists y: nat :: WithinAll(y, OfKind(items, Container), r)) ==>
                  BelowMax(x, items[i], r))
  {
    hide NonNegative, FirstDeclaresMax, MergedAll, Applied, AppliedAll, Effective, Consolidated, WithinAll;
    var containers := OfKind(items, Container);
    OfKindHas(items, Container, i);
    var k :| 0 <= k < |containers| && containers[k] == items[i];
    ConsolidatedNonNegative(items, r);
    AppliedStaysNonNegative(q, Consolidated(items), r);
    var x := Amount(AppliedAll(q, Consolidated(items)).requests, r);
    OfKindIsOfKind(items, Container, r);
    LastItemWins(q, items, r);
    var merged := MergedAll(containers).value;
    MinimaMerge(containers, r, x);
    assert AboveMin(x, containers[k], r);
    if FirstDeclaresMax(containers, r) {
      if y: nat :| WithinAll(y, containers, r) {
        MergedAllowsTheSame(containers, Container, r, y);
        MergedAllowsTheSame(containers, Container, r, x);
        OneItem(y, merged, r);
        OneItem(x, merged, r);
        ContainerAsItIs(merged, containers);
        assert Within(x, merged, r);
        ContainerIsWithin(x, containers, k, r);
      }
    }
  }

  lemma ContainerIsWithin(x: int, items: seq<LimitRangeItem>, k: nat, r: Resource)
    requires k < |items| && items[k].kind.Container? && WithinAll(x, items, r)
    ensures BelowMax(x, items[k], r)
  {
    assert Within(x, Effective(items[k]), r);
  }

  lemma ContainerAsItIs(merged: LimitRangeItem, containers: seq<LimitRangeItem>)
    requires containers != [] && AllOf(containers, Container) && MergedAll(containers) == Some(merged)
    ensures Effective(merged) == merged && Listed(MergedAll(containers)) == [merged]
  {
    MergedKeepsKind(containers, Container);
    hide MergedAll;
  }

  lemma {:induction false} OfKindHas(items: seq<LimitRangeItem>, kind: LimitType, i: nat)
    requires i < |items| && items[i].kind == kind
    ensures exists k :: 0 <= k < |OfKind(items, kind)| && OfKind(items, kind)[k] == items[i]
  {
    var n := |items| - 1;
    if i < n {
      OfKindHas(items[..n], kind, i);
      var k :| 0 <= k < |OfKind(items[..n], kind)| && OfKind(items[..n], kind)[k] == items[i];
      assert OfKind(items, kind)[k] == items[i];
    } else {
      assert OfKind(items, kind)[|OfKind(items, kind)| - 1] == items[i];
    }
  }

  /** The merged container item is applied last. */
  lemma LastItemWins(q: Requirements, items: seq<LimitRangeItem>, r: Resource)
    requires q.requests.Some? && OfKind(items, Container) != []
    ensures MergedAll(OfKind(items, Container)).Some?
    ensures var x := Amount(AppliedAll(q, Consolidated(items)).requests, r);
            var merged := MergedAll(OfKind(items, Container)).value;
            AboveMin(x, merged, r) && ((exists y :: Within(y, merged, r)) ==> Within(x, merged, r))
  {
    var containers, pods := OfKind(items, Container), Listed(MergedAll(OfKind(items, Pod)));
    MergedAllNone(containers);
    MergedKeepsKind(containers, Container) by { OfKindAll(items, Container); }
    var merged := MergedAll(containers).value;
    hide MergedAll, OfKind;
    assert Consolidated(items) == pods + [merged];
    assert (pods + [merged])[..|pods|] == pods;
    AppliedKeepsRequests(q, pods);
    AppliedToRequest(AppliedAll(q, pods), merged, r);
    hide Applied;
  }

  lemma {:induction false} OfKindAll(items: seq<LimitRangeItem>, kind: LimitType)
    ensures AllOf(OfKind(items, kind), kind)
  {
    if items != [] { OfKindAll(items[..|items| - 1], kind); }
  }

  lemma {:induction false} AppliedKeepsRequests(q: Requirements, items: seq<LimitRangeItem>)
    requires q.requests.Some?
    ensures AppliedAll(q, items).requests.Some?
  {
    if items != [] {
      AppliedKeepsRequests(q, items[..|items| - 1]);
      AppliedToRequest(AppliedAll(q, items[..|items| - 1]), Effective(items[|items| - 1]), Cpu);
      hide Applied, Effective;
    }
  }

  /** There is no scaling down by less than one; a negative quantity is divided and cut towards zero. */
  lemma ScaledDownElsewhere(q: int, scale: int)
    ensures ScaledDown(q, scale).None? <==> scale < 1
    ensures scale >= 1 && q < 0 ==> ScaledDown(q, scale) == Some(-((-q) / scale))
  {
    hide Value;
    if scale >= 1 && q < 0 { NegativeStaysNegative(q); }
  }

  lemma NegativeStaysNegative(q: int)
    requires q < 0
    ensures Value(q) < 0
  {
  }
}
