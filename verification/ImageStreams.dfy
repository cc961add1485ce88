/** Image streams of a direct image migration: creating one child migration per stream, and sorting the
    streams into buckets as the children end. pkg/controller/directimagemigration/imagestream.go. */
module ImageStreams {
  import opened Wrappers

  /** `ImageStreamListItem`; `migration` is the reference to the child, nil until it is created. */
  datatype Item = Item(namespace: string, name: string, destNamespace: string, notFound: bool,
                       migration: Option<string>, errors: seq<string>)

  // ---------------------------------------------------------------- creating the children

  datatype SourceAnswer = StreamFound | StreamNotFound | SourceFailed

  /** What the API servers answer for one item: the stream, the children already there (None: the listing
      fails; otherwise for each whether its deletion succeeds) and the reference created, if it succeeds. */
  datatype CreateAnswer = CreateAnswer(source: SourceAnswer, existing: Option<seq<bool>>, created: Option<string>)

  function AllDeleted(flags: seq<bool>): bool {
    forall i :: 0 <= i < |flags| ==> flags[i]
  }

  /** One item of `createDirectImageStreamMigrations`, and whether the call goes on. */
  function WithChild(item: Item, a: CreateAnswer): (Item, bool) {
    if item.migration.Some? then (item, true)
    else if a.source.SourceFailed? then (item, false)
    else
      var marked := item.(notFound := a.source.StreamNotFound?);
      if a.existing.None? then (marked, false)
      else if marked.notFound then (marked, AllDeleted(a.existing.value))
      else if |a.existing.value| > 0 then (marked, true)
      else if a.created.Some? then (marked.(migration := a.created), true)
      else (marked, false)
  }

  /** The whole call: it stops at the first item that fails. */
  function WithChildren(items: seq<Item>, answers: seq<CreateAnswer>): (r: (seq<Item>, bool))
    requires |answers| == |items|
    ensures |r.0| == |items|
  {
    if items == [] then ([], true)
    else
      var n := |items| - 1;
      var (before, ok) := WithChildren(items[..n], answers[..n]);
      if !ok then (before + [items[n]], false)
      else
        var (after, goes) := WithChild(items[n], answers[n]);
        (before + [after], goes)
  }

  lemma {:induction false} FailureStops(items: seq<Item>, answers: seq<CreateAnswer>, n: nat)
    requires n <= |items| == |answers| && !WithChildren(items[..n], answers[..n]).1
    ensures WithChildren(items, answers) == (WithChildren(items[..n], answers[..n]).0 + items[n..], false)
  {
    var m := |items| - 1;
    if n == |items| {
      assert items[..n] == items && answers[..n] == answers && items[n..] == [];
      assert WithChildren(items, answers).0 + [] == WithChildren(items, answers).0;
    } else {
      assert items[..m][..n] == items[..n] && answers[..m][..n] == answers[..n];
      FailureStops(items[..m], answers[..m], n);
      var done := WithChildren(items[..n], answers[..n]).0;
      assert done + items[..m][n..] + [items[m]] == done + items[n..];
    }
  }

  lemma Replace(done: seq<Item>, items: seq<Item>, n: nat, item: Item)
    requires |done| == n < |items|
    ensures (done + items[n..])[n := item] == (done + [item]) + items[n + 1..]
    ensures (done + items[n..])[n] == items[n]
  {
  }

  lemma NoChildren()
    ensures WithChildren([], []) == ([], true)
  {
  }

  lemma ChildStep(items: seq<Item>, answers: seq<CreateAnswer>, n: nat)
    requires n < |items| == |answers| && WithChildren(items[..n], answers[..n]).1
    ensures WithChildren(items[..n + 1], answers[..n + 1]) ==
              (WithChildren(items[..n], answers[..n]).0 + [WithChild(items[n], answers[n]).0],
               WithChild(items[n], answers[n]).1)
  {
    hide WithChild;
    assert items[..n + 1][..n] == items[..n] && answers[..n + 1][..n] == answers[..n];
  }

  lemma {:induction false} ChildAt(items: seq<Item>, answers: seq<CreateAnswer>, i: nat)
    requires i < |items| == |answers| && WithChildren(items, answers).1
    ensures WithChild(items[i], answers[i]) == (WithChildren(items, answers).0[i], true)
  {
    hide WithChild;
    var n := |items| - 1;
    if i < n { ChildAt(items[..n], answers[..n], i); }
  }

  /** The poll dereferences the child of every item not marked as not found. */
  predicate Pollable(item: Item) {
    item.notFound || item.migration.Some?
  }

  /** A child exists already although the item does not refer to it. */
  predicate Skipped(item: Item, a: CreateAnswer) {
    item.migration.None? && a.source.StreamFound? && a.existing.Some? && a.existing.value != []
  }

  /** After a successful creation pass the poll can read an item exactly when its stream had no child
      that the item did not record; such an item is left without a reference. */
  lemma CreationMakesPollable(items: seq<Item>, answers: seq<CreateAnswer>, i: nat)
    requires i < |items| == |answers| && WithChildren(items, answers).1
    ensures Pollable(WithChildren(items, answers).0[i]) <==> !Skipped(items[i], answers[i])
  {
    hide WithChildren;
    ChildAt(items, answers, i);
  }

  /** Creating the child of the item fails: a call that is needed for it does. */
  predicate FailsOn(item: Item, a: CreateAnswer) {
    item.migration.None? &&
    (|| a.source.SourceFailed?
     || a.existing.None?
     || (a.source.StreamNotFound? && exists i :: 0 <= i < |a.existing.value| && !a.existing.value[i])
     || (a.source.StreamFound? && a.existing.value == [] && a.created.None?))
  }

  /** The item gets the child that was created for it, unless it has one, its stream is gone, or there is
      one already; nothing else of it changes but the mark of a stream that is gone. */
  predicate Given(item: Item, a: CreateAnswer, after: Item) {
    && after.(migration := item.migration, notFound := item.notFound) == item
    && (item.migration.Some? ==> after == item)
    && (item.migration.None? ==>
          && (after.notFound <==> a.source.StreamNotFound?)
          && (after.migration.Some? <==> a.source.StreamFound? && a.existing == Some([]))
          && (after.migration.Some? ==> after.migration == a.created))
  }

  lemma ChildIsGiven(item: Item, a: CreateAnswer)
    ensures WithChild(item, a).1 <==> !FailsOn(item, a)
    ensures WithChild(item, a).1 ==> Given(item, a, WithChild(item, a).0)
    ensures !WithChild(item, a).1 ==> WithChild(item, a).0.(notFound := item.notFound) == item
  {
  }

  /** Item i is reached: no item before it has failed. */
  predicate IsReached(items: seq<Item>, answers: seq<CreateAnswer>, i: nat)
    requires i <= |items| == |answers|
  {
    forall j :: 0 <= j < i ==> !FailsOn(items[j], answers[j])
  }

  lemma {:induction false} CreationAt(items: seq<Item>, answers: seq<CreateAnswer>, i: nat)
    requires i < |items| == |answers|
    ensures WithChildren(items, answers).1 <==> IsReached(items, answers, |items|)
    ensures WithChildren(items, answers).0[i]
            == if IsReached(items, answers, i) then WithChild(items[i], answers[i]).0 else items[i]
  {
    hide WithChild, FailsOn;
    var n := |items| - 1;
    ChildIsGiven(items[n], answers[n]);
    assert forall j :: 0 <= j < n ==> items[..n][j] == items[j] && answers[..n][j] == answers[j];
    if n == 0 {
      NoChildren();
      assert items[..0] == [] && answers[..0] == [];
    } else {
      CreationAt(items[..n], answers[..n], if i < n then i else 0);
    }
  }

  /** Main result: the call succeeds exactly when no item fails; items before the first failure get their
      children, that item is at most marked, and those after it are untouched. */
  lemma CreationExactly(items: seq<Item>, answers: seq<CreateAnswer>, i: nat)
    requires i < |items| == |answers|
    ensures var (after, ok) := WithChildren(items, answers);
            && (ok <==> IsReached(items, answers, |items|))
            && (IsReached(items, answers, i + 1) ==> Given(items[i], answers[i], after[i]))
            && (FailsOn(items[i], answers[i]) ==> after[i].(notFound := items[i].notFound) == items[i])
            && (!IsReached(items, answers, i) ==> after[i] == items[i])
  {
    hide WithChild, WithChildren, FailsOn, Given;
    CreationAt(items, answers, i);
    ChildIsGiven(items[i], answers[i]);
  }

  // ---------------------------------------------------------------- polling the children

  const COMPLETED := "Completed"

  /** Reading one child in one poll. */
  datatype Answer = GetFailed(message: string) | Child(phase: string, errors: seq<string>)

  /** One poll: what the API server answers for each child. */
  type Poll = string -> Answer

  datatype Verdict = Waiting | Gone | Succeeded | Failed(errors: seq<string>)

  function VerdictOf(item: Item, poll: Poll): Verdict {
    if item.notFound then Gone
    else if item.migration.None? then Waiting
    else match poll(item.migration.value)
      case GetFailed(message) => Failed([message])
      case Child(phase, errors) =>
        if phase != COMPLETED then Waiting else if errors == [] then Succeeded else Failed(errors)
  }

  function Marked(item: Item, poll: Poll): Item {
    match VerdictOf(item, poll)
    case Failed(errors) => item.(errors := item.errors + errors)
    case _ => item
  }

  datatype Bucket = New | Deleted | Failures | Successes

  function BucketOf(item: Item, poll: Poll): Bucket {
    match VerdictOf(item, poll)
    case Waiting => New
    case Gone => Deleted
    case Succeeded => Successes
    case Failed(_) => Failures
  }

  /** The items of a list that a poll sends to a bucket, in order. */
  function Sorted(items: seq<Item>, poll: Poll, bucket: Bucket): seq<Item> {
    if items == [] then []
    else
      var before, last := Sorted(items[..|items| - 1], poll, bucket), items[|items| - 1];
      if BucketOf(last, poll) == bucket then before + [Marked(last, poll)] else before
  }

  datatype Buckets = Buckets(newISs: seq<Item>, deletedISs: seq<Item>, failedISs: seq<Item>, successfulISs: seq<Item>)

  function Polled(b: Buckets, poll: Poll): Buckets {
    Buckets(Sorted(b.newISs, poll, New),
            b.deletedISs + Sorted(b.newISs, poll, Deleted),
            b.failedISs + Sorted(b.newISs, poll, Failures),
            b.successfulISs + Sorted(b.newISs, poll, Successes))
  }

  function AllErrors(items: seq<Item>): seq<string> {
    if items == [] then [] else AllErrors(items[..|items| - 1]) + items[|items| - 1].errors
  }

  lemma AllErrorsSnoc(items: seq<Item>, k: nat)
    requires k < |items|
    ensures AllErrors(items[..k + 1]) == AllErrors(items[..k]) + items[k].errors
  {
    assert items[..k + 1][..k] == items[..k];
  }

  lemma SortedSnoc(items: seq<Item>, poll: Poll, bucket: Bucket, k: nat)
    requires k < |items|
    ensures Sorted(items[..k + 1], poll, bucket) ==
              if BucketOf(items[k], poll) == bucket
              then Sorted(items[..k], poll, bucket) + [Marked(items[k], poll)]
              else Sorted(items[..k], poll, bucket)
  {
    assert items[..k + 1][..k] == items[..k];
  }

  /** The status of the owner. */
  class ImageStatus {
    var newISs: seq<Item>
    var deletedISs: seq<Item>
    var failedISs: seq<Item>
    var successfulISs: seq<Item>

    ghost function Stored(): Buckets
      reads this
    {
      Buckets(newISs, deletedISs, failedISs, successfulISs)
    }

    constructor (items: seq<Item>)
      ensures Stored() == Buckets(items, [], [], [])
    {
      newISs, deletedISs, failedISs, successfulISs := items, [], [], [];
    }

    method CreateDirectImageStreamMigrations(answers: seq<CreateAnswer>) returns (ok: bool)
      requires |answers| == |newISs|
      modifies this`newISs
      ensures (newISs, ok) == WithChildren(old(newISs), answers)
    {
      hide WithChild, WithChildren;
      ghost var items := newISs;
      NoChildren();
      assert items[..0] == [] && answers[..0] == [];
      for n := 0 to |newISs|
        invariant |newISs| == |items|
        invariant WithChildren(items[..n], answers[..n]).1
        invariant newISs == WithChildren(items[..n], answers[..n]).0 + items[n..]
      {
        ghost var done := WithChildren(items[..n], answers[..n]).0;
        var item, goes := CreateOne(newISs[n], answers[n]);
        Replace(done, items, n, item);
        ChildStep(items, answers, n);
        newISs := newISs[n := item];
        if !goes {
          FailureStops(items, answers, n + 1);
          return false;
        }
      }
      assert items[..|items|] == items && answers[..|items|] == answers;
      assert newISs == WithChildren(items, answers).0;
      return true;
    }

    static method CreateOne(item: Item, a: CreateAnswer) returns (after: Item, goes: bool)
      ensures (after, goes) == WithChild(item, a)
    {
      after := item;
      if item.migration.Some? {
        return after, true;
      }
      match a.source {
        case StreamNotFound => after := after.(notFound := true);
        case SourceFailed => return after, false;
        case StreamFound => after := after.(notFound := false);
      }
      if a.existing.None? {
        return after, false;
      }
      if after.notFound {
        for i := 0 to |a.existing.value|
          invariant AllDeleted(a.existing.value[..i])
        {
          if !a.existing.value[i] {
            return after, false;
          }
        }
        assert a.existing.value[..|a.existing.value|] == a.existing.value;
        return after, true;
      }
      if |a.existing.value| > 0 {
        return after, true;
      }
      if a.created.None? {
        return after, false;
      }
      after := after.(migration := a.created);
      return after, true;
    }

    /** `checkDISMCompletion`; every item not marked as not found has its child. */
    method CheckDISMCompletion(poll: Poll) returns (completed: bool, reasons: seq<string>)
      requires forall i :: 0 <= i < |newISs| ==> Pollable(newISs[i])
      modifies this
      ensures Stored() == Polled(old(Stored()), poll)
      ensures completed <==> newISs == []
      ensures reasons == if completed then AllErrors(failedISs) else []
    {
      hide Sorted, Marked, BucketOf;
      var items, waiting := newISs, [];
      SortedNothing(poll);
      for k := 0 to |items|
        invariant newISs == items && waiting == Sorted(items[..k], poll, New)
        invariant deletedISs == old(deletedISs) + Sorted(items[..k], poll, Deleted)
        invariant failedISs == old(failedISs) + Sorted(items[..k], poll, Failures)
        invariant successfulISs == old(successfulISs) + Sorted(items[..k], poll, Successes)
      {
        var item := items[k];
        ghost var d, f, s := Sorted(items[..k], poll, Deleted), Sorted(items[..k], poll, Failures),
                             Sorted(items[..k], poll, Successes);
        SortedSnoc(items, poll, New, k);
        SortedSnoc(items, poll, Deleted, k);
        SortedSnoc(items, poll, Failures, k);
        SortedSnoc(items, poll, Successes, k);
        Classified(item, poll);
        if item.notFound {
          deletedISs := deletedISs + [item];
          assert deletedISs == old(deletedISs) + (d + [item]);
        } else {
          match poll(item.migration.value) {
            case GetFailed(message) =>
              var failed := item.(errors := item.errors + [message]);
              failedISs := failedISs + [failed];
              assert failedISs == old(failedISs) + (f + [failed]);
            case Child(phase, errors) =>
              if phase == COMPLETED && |errors| == 0 {
                successfulISs := successfulISs + [item];
                assert successfulISs == old(successfulISs) + (s + [item]);
              } else if phase == COMPLETED {
                var failed := item.(errors := item.errors + errors);
                failedISs := failedISs + [failed];
                assert failedISs == old(failedISs) + (f + [failed]);
              } else {
                waiting := waiting + [item];
              }
          }
        }
      }
      assert items[..|items|] == items;
      newISs := waiting;
      completed := |newISs| == 0;
      reasons := [];
      if completed {
        reasons := ErrorsOf(failedISs);
      }
    }

    static method ErrorsOf(items: seq<Item>) returns (reasons: seq<string>)
      ensures reasons == AllErrors(items)
    {
      reasons := [];
      for k := 0 to |items|
        invariant reasons == AllErrors(items[..k])
      {
        AllErrorsSnoc(items, k);
        reasons := reasons + items[k].errors;
      }
      assert items[..|items|] == items;
    }
  }

  lemma SortedNothing(poll: Poll)
    ensures forall bucket :: Sorted([], poll, bucket) == []
  {
  }

  /** Where a poll sends an item, and with which errors. */
  lemma Classified(item: Item, poll: Poll)
    requires Pollable(item)
    ensures item.notFound ==> BucketOf(item, poll) == Deleted && Marked(item, poll) == item
    ensures !item.notFound ==>
              match poll(item.migration.value)
              case GetFailed(m) =>
                BucketOf(item, poll) == Failures && Marked(item, poll) == item.(errors := item.errors + [m])
              case Child(phase, errors) =>
                if phase != COMPLETED then BucketOf(item, poll) == New && Marked(item, poll) == item
                else if errors == [] then BucketOf(item, poll) == Successes && Marked(item, poll) == item
                else BucketOf(item, poll) == Failures && Marked(item, poll) == item.(errors := item.errors + errors)
  {
  }

  // ---------------------------------------------------------------- any number of polls

  function PolledAll(b: Buckets, polls: seq<Poll>): Buckets {
    if polls == [] then b else Polled(PolledAll(b, polls[..|polls| - 1]), polls[|polls| - 1])
  }

  /** An item without its errors: what stays the same when it moves. */
  function Identity(item: Item): Item {
    item.(errors := [])
  }

  function Identities(items: seq<Item>): multiset<Item> {
    if items == [] then multiset{}
    else Identities(items[..|items| - 1]) + multiset{Identity(items[|items| - 1])}
  }

  function Everything(b: Buckets): multiset<Item> {
    Identities(b.newISs) + Identities(b.deletedISs) + Identities(b.failedISs) + Identities(b.successfulISs)
  }

  lemma {:induction false} IdentitiesConcat(a: seq<Item>, b: seq<Item>)
    ensures Identities(a + b) == Identities(a) + Identities(b)
  {
    if b == [] {
      assert a + b == a;
    } else {
      assert (a + b)[..|a + b| - 1] == a + b[..|b| - 1];
      IdentitiesConcat(a, b[..|b| - 1]);
    }
  }

  lemma IdentitiesSnoc(items: seq<Item>, item: Item)
    ensures Identities(items + [item]) == Identities(items) + multiset{Identity(item)}
  {
    assert (items + [item])[..|items|] == items;
  }

  lemma SortedStep(items: seq<Item>, poll: Poll, bucket: Bucket)
    requires items != []
    ensures var rest, last := items[..|items| - 1], items[|items| - 1];
            Identities(Sorted(items, poll, bucket)) ==
              Identities(Sorted(rest, poll, bucket))
              + if BucketOf(last, poll) == bucket then multiset{Identity(last)} else multiset{}
  {
    var rest, last := items[..|items| - 1], items[|items| - 1];
    IdentitiesSnoc(Sorted(rest, poll, bucket), Marked(last, poll));
    assert Identity(Marked(last, poll)) == Identity(last);
    hide BucketOf, Marked, Identities;
  }

  /** A poll sorts every new item into exactly one bucket. */
  lemma {:induction false} SortedPartition(items: seq<Item>, poll: Poll)
    ensures Identities(items) == Identities(Sorted(items, poll, New)) + Identities(Sorted(items, poll, Deleted))
                                 + Identities(Sorted(items, poll, Failures)) + Identities(Sorted(items, poll, Successes))
  {
    if items != [] {
      SortedPartition(items[..|items| - 1], poll);
      SortedStep(items, poll, New);
      SortedStep(items, poll, Deleted);
      SortedStep(items, poll, Failures);
      SortedStep(items, poll, Successes);
      IdentitiesStep(items);
      hide Sorted, BucketOf, Identities, Identity;
      var rest, last := items[..|items| - 1], items[|items| - 1];
      OneMore(Identities(Sorted(rest, poll, New)), Identities(Sorted(rest, poll, Deleted)),
              Identities(Sorted(rest, poll, Failures)), Identities(Sorted(rest, poll, Successes)),
              multiset{Identity(last)}, BucketOf(last, poll));
    }
  }

  lemma IdentitiesStep(items: seq<Item>)
    requires items != []
    ensures Identities(items) == Identities(items[..|items| - 1]) + multiset{Identity(items[|items| - 1])}
  {
  }

  lemma OneMore(n: multiset<Item>, d: multiset<Item>, f: multiset<Item>, s: multiset<Item>, x: multiset<Item>, b: Bucket)
    ensures (n + if b == New then x else multiset{}) + (d + if b == Deleted then x else multiset{})
            + (f + if b == Failures then x else multiset{}) + (s + if b == Successes then x else multiset{})
            == n + d + f + s + x
  {
  }

  lemma PollConserves(b: Buckets, poll: Poll)
    ensures Everything(Polled(b, poll)) == Everything(b)
  {
    SortedPartition(b.newISs, poll);
    IdentitiesConcat(b.deletedISs, Sorted(b.newISs, poll, Deleted));
    IdentitiesConcat(b.failedISs, Sorted(b.newISs, poll, Failures));
    IdentitiesConcat(b.successfulISs, Sorted(b.newISs, poll, Successes));
    hide Sorted, Identities;
  }

  /** Main result: over any polls, no item is lost, duplicated or turned into another. */
  lemma {:induction false} PollsConserve(b: Buckets, polls: seq<Poll>)
    ensures Everything(PolledAll(b, polls)) == Everything(b)
  {
    if polls != [] {
      PollsConserve(b, polls[..|polls| - 1]);
      PollConserves(PolledAll(b, polls[..|polls| - 1]), polls[|polls| - 1]);
      hide Everything, Polled;
    }
  }

  predicate WaitsIn(item: Item, polls: seq<Poll>) {
    forall k :: 0 <= k < |polls| ==> VerdictOf(item, polls[k]).Waiting?
  }

  function StillWaiting(items: seq<Item>, polls: seq<Poll>): seq<Item> {
    if items == [] then []
    else
      var before, last := StillWaiting(items[..|items| - 1], polls), items[|items| - 1];
      if WaitsIn(last, polls) then before + [last] else before
  }

  lemma WaitsInSnoc(item: Item, polls: seq<Poll>)
    requires polls != []
    ensures WaitsIn(item, polls) <==>
              WaitsIn(item, polls[..|polls| - 1]) && VerdictOf(item, polls[|polls| - 1]).Waiting?
  {
    hide VerdictOf;
    var rest := polls[..|polls| - 1];
    assert forall k :: 0 <= k < |rest| ==> rest[k] == polls[k];
    if WaitsIn(item, polls) {
      forall k | 0 <= k < |rest| ensures VerdictOf(item, rest[k]).Waiting? {
        assert VerdictOf(item, polls[k]).Waiting?;
      }
    }
  }

  lemma {:induction false} SortedOfWaiting(items: seq<Item>, polls: seq<Poll>)
    requires polls != []
    ensures Sorted(StillWaiting(items, polls[..|polls| - 1]), polls[|polls| - 1], New) == StillWaiting(items, polls)
  {
    if items != [] {
      var rest, last := items[..|items| - 1], items[|items| - 1];
      var before, poll := polls[..|polls| - 1], polls[|polls| - 1];
      SortedOfWaiting(rest, polls);
      WaitsInSnoc(last, polls);
      if WaitsIn(last, before) {
        var kept := StillWaiting(rest, before) + [last];
        assert kept[..|kept| - 1] == StillWaiting(rest, before);
      }
      hide WaitsIn;
    }
  }

  lemma {:induction false} NewAfterPolls(b: Buckets, polls: seq<Poll>)
    ensures PolledAll(b, polls).newISs == StillWaiting(b.newISs, polls)
  {
    if polls == [] {
      AllWaiting(b.newISs);
    } else {
      NewAfterPolls(b, polls[..|polls| - 1]);
      SortedOfWaiting(b.newISs, polls);
      hide Sorted, StillWaiting;
    }
  }

  lemma {:induction false} AllWaiting(items: seq<Item>)
    ensures StillWaiting(items, []) == items
  {
    if items != [] {
      AllWaiting(items[..|items| - 1]);
      assert items == items[..|items| - 1] + [items[|items| - 1]];
    }
  }

  lemma {:induction false} NoneWaiting(items: seq<Item>, polls: seq<Poll>)
    ensures StillWaiting(items, polls) == [] <==> forall i :: 0 <= i < |items| ==> !WaitsIn(items[i], polls)
  {
    hide WaitsIn;
    if items != [] {
      var rest, last := items[..|items| - 1], items[|items| - 1];
      NoneWaiting(rest, polls);
      assert forall i :: 0 <= i < |items| ==> items[i] == if i < |rest| then rest[i] else last;
      if forall i :: 0 <= i < |items| ==> !WaitsIn(items[i], polls) {
        assert !WaitsIn(items[|rest|], polls);
        forall i | 0 <= i < |rest| ensures !WaitsIn(rest[i], polls) { assert !WaitsIn(items[i], polls); }
      }
    }
  }

  /** The remaining new items are those that waited in every poll, unchanged and in their order; the
      migration is complete exactly when each item has ended in some poll. */
  lemma NewItemsKeepOrder(b: Buckets, polls: seq<Poll>)
    ensures PolledAll(b, polls).newISs == StillWaiting(b.newISs, polls)
    ensures PolledAll(b, polls).newISs == [] <==>
              forall i :: 0 <= i < |b.newISs| ==> EndsIn(b.newISs[i], polls)
  {
    hide VerdictOf, PolledAll, StillWaiting, WaitsIn, EndsIn;
    NewAfterPolls(b, polls);
    NoneWaiting(b.newISs, polls);
    forall i | 0 <= i < |b.newISs|
      ensures !WaitsIn(b.newISs[i], polls) <==> EndsIn(b.newISs[i], polls)
    {
      WaitsOrEnds(b.newISs[i], polls);
    }
  }

  predicate EndsIn(item: Item, polls: seq<Poll>) {
    exists k :: 0 <= k < |polls| && !VerdictOf(item, polls[k]).Waiting?
  }

  lemma WaitsOrEnds(item: Item, polls: seq<Poll>)
    ensures WaitsIn(item, polls) <==> !EndsIn(item, polls)
  {
    hide VerdictOf;
  }

  lemma {:induction false} InStillWaiting(items: seq<Item>, polls: seq<Poll>, x: Item)
    ensures x in StillWaiting(items, polls) <==> x in items && WaitsIn(x, polls)
  {
    hide WaitsIn;
    if items != [] {
      InStillWaiting(items[..|items| - 1], polls, x);
      assert items == items[..|items| - 1] + [items[|items| - 1]];
    }
  }

  lemma {:induction false} InSorted(items: seq<Item>, poll: Poll, bucket: Bucket, y: Item)
    ensures y in Sorted(items, poll, bucket) <==>
              exists x :: x in items && BucketOf(x, poll) == bucket && y == Marked(x, poll)
  {
    hide BucketOf, Marked;
    if items != [] {
      var rest, last := items[..|items| - 1], items[|items| - 1];
      InSorted(rest, poll, bucket, y);
      assert items == rest + [last];
    }
  }

  /** The item ended in poll k, not before, and went to the bucket as y. */
  predicate EndedAs(x: Item, polls: seq<Poll>, k: nat, bucket: Bucket, y: Item) {
    k < |polls| && WaitsIn(x, polls[..k]) && BucketOf(x, polls[k]) == bucket && y == Marked(x, polls[k])
  }

  function Held(b: Buckets, bucket: Bucket): seq<Item> {
    match bucket
    case New => b.newISs
    case Deleted => b.deletedISs
    case Failures => b.failedISs
    case Successes => b.successfulISs
  }

  /** One more poll ends items in the polls before it, or in itself those that still waited. */
  lemma EndedWithOneMore(x: Item, polls: seq<Poll>, k: nat, bucket: Bucket, y: Item)
    requires polls != []
    ensures var rest, n := polls[..|polls| - 1], |polls| - 1;
            EndedAs(x, polls, k, bucket, y) <==>
              || EndedAs(x, rest, k, bucket, y)
              || (k == n && WaitsIn(x, rest) && BucketOf(x, polls[n]) == bucket && y == Marked(x, polls[n]))
  {
    hide WaitsIn, BucketOf, Marked;
    var rest := polls[..|polls| - 1];
    if k < |rest| { assert rest[..k] == polls[..k]; }
  }

  /** Some item of the list ended in the bucket as y. */
  ghost predicate SomeEnded(items: seq<Item>, polls: seq<Poll>, bucket: Bucket, y: Item) {
    exists x, k: nat :: x in items && EndedAs(x, polls, k, bucket, y)
  }

  /** What the last poll adds to a bucket. */
  lemma LastPollAdds(items: seq<Item>, polls: seq<Poll>, bucket: Bucket, y: Item)
    requires polls != []
    ensures var rest, n := polls[..|polls| - 1], |polls| - 1;
            SomeEnded(items, polls, bucket, y) <==>
              SomeEnded(items, rest, bucket, y) || y in Sorted(StillWaiting(items, rest), polls[n], bucket)
  {
    hide EndedAs, Sorted, StillWaiting, WaitsIn, BucketOf, Marked;
    var rest, n := polls[..|polls| - 1], |polls| - 1;
    InSorted(StillWaiting(items, rest), polls[n], bucket, y);
    forall x ensures x in StillWaiting(items, rest) <==> x in items && WaitsIn(x, rest) {
      InStillWaiting(items, rest, x);
    }
    forall x, k: nat
      ensures EndedAs(x, polls, k, bucket, y) <==>
                || EndedAs(x, rest, k, bucket, y)
                || (k == n && WaitsIn(x, rest) && BucketOf(x, polls[n]) == bucket && y == Marked(x, polls[n]))
    {
      EndedWithOneMore(x, polls, k, bucket, y);
    }
    if y in Sorted(StillWaiting(items, rest), polls[n], bucket) {
      var x :| x in StillWaiting(items, rest) && BucketOf(x, polls[n]) == bucket && y == Marked(x, polls[n]);
      assert EndedAs(x, polls, n, bucket, y);
    }
    if SomeEnded(items, rest, bucket, y) {
      var x, k: nat :| x in items && EndedAs(x, rest, k, bucket, y);
      assert EndedAs(x, polls, k, bucket, y);
    }
  }

  /** Main result: a bucket holds what it held and exactly the items whose first verdict sent them there;
      later answers about their children change nothing. */
  lemma {:induction false} FirstVerdictDecides(b: Buckets, polls: seq<Poll>, bucket: Bucket, y: Item)
    requires !bucket.New?
    ensures y in Held(PolledAll(b, polls), bucket) <==>
              y in Held(b, bucket) || exists x, k: nat :: x in b.newISs && EndedAs(x, polls, k, bucket, y)
  {
    if polls != [] {
      var rest, poll := polls[..|polls| - 1], polls[|polls| - 1];
      FirstVerdictDecides(b, rest, bucket, y);
      var before := PolledAll(b, rest);
      assert Held(Polled(before, poll), bucket) == Held(before, bucket) + Sorted(before.newISs, poll, bucket);
      NewAfterPolls(b, rest);
      hide Sorted, BucketOf, Marked, Held, Polled, WaitsIn, StillWaiting, EndedAs;
      LastPollAdds(b.newISs, polls, bucket, y);
    }
  }

  /** The child of the item exists and has not ended. */
  predicate StillRuns(item: Item, poll: Poll) {
    !item.notFound && item.migration.Some? &&
    match poll(item.migration.value)
    case GetFailed(_) => false
    case Child(phase, _) => phase != COMPLETED
  }

  predicate RunsUntil(item: Item, polls: seq<Poll>, k: nat) {
    forall j :: 0 <= j < k && j < |polls| ==> StillRuns(item, polls[j])
  }

  lemma WaitsAsItRuns(item: Item, polls: seq<Poll>, k: nat)
    requires Pollable(item) && k <= |polls|
    ensures WaitsIn(item, polls[..k]) <==> RunsUntil(item, polls, k)
  {
    assert forall j :: 0 <= j < k ==> polls[..k][j] == polls[j];
    assert forall j :: 0 <= j < k ==> (VerdictOf(item, polls[j]).Waiting? <==> StillRuns(item, polls[j]));
    hide VerdictOf, StillRuns;
    if WaitsIn(item, polls[..k]) {
      forall j | 0 <= j < k ensures StillRuns(item, polls[j]) { assert VerdictOf(item, polls[..k][j]).Waiting?; }
    }
  }

  /** What puts an item into the successful bucket: in the first poll in which its child has ended, the
      child was readable, completed and without errors. */
  lemma SuccessfulMeans(items: seq<Item>, polls: seq<Poll>, y: Item)
    requires forall i :: 0 <= i < |items| ==> Pollable(items[i])
    ensures y in PolledAll(Buckets(items, [], [], []), polls).successfulISs <==>
              y in items && exists k: nat :: SucceedsIn(y, polls, k)
  {
    var b := Buckets(items, [], [], []);
    FirstVerdictDecides(b, polls, Successes, y);
    hide PolledAll, EndedAs, RunsUntil;
    forall x, k: nat | x in items
      ensures EndedAs(x, polls, k, Successes, y) <==> x == y && SucceedsIn(y, polls, k)
    {
      EndsAsSuccess(x, polls, k, y);
    }
    hide SucceedsIn;
  }

  /** The child ran in the polls before k, and in poll k it was readable, completed and without errors. */
  predicate SucceedsIn(item: Item, polls: seq<Poll>, k: nat) {
    k < |polls| && !item.notFound && item.migration.Some? && RunsUntil(item, polls, k)
    && polls[k](item.migration.value) == Child(COMPLETED, [])
  }

  lemma EndsAsSuccess(x: Item, polls: seq<Poll>, k: nat, y: Item)
    requires Pollable(x)
    ensures EndedAs(x, polls, k, Successes, y) <==> x == y && SucceedsIn(y, polls, k)
  {
    if k < |polls| {
      WaitsAsItRuns(x, polls, k);
    }
    hide WaitsIn, RunsUntil;
  }

  /** What puts an item into the failed bucket: in that poll the child could not be read, or had completed
      with errors; these are appended to the item's. */
  lemma FailedMeans(items: seq<Item>, polls: seq<Poll>, y: Item)
    requires forall i :: 0 <= i < |items| ==> Pollable(items[i])
    ensures y in PolledAll(Buckets(items, [], [], []), polls).failedISs <==>
              exists x, k: nat :: x in items && FailsIn(x, polls, k, y)
  {
    var b := Buckets(items, [], [], []);
    FirstVerdictDecides(b, polls, Failures, y);
    hide PolledAll, EndedAs, RunsUntil;
    forall x, k: nat | x in items
      ensures EndedAs(x, polls, k, Failures, y) <==> FailsIn(x, polls, k, y)
    {
      EndsAsFailure(x, polls, k, y);
    }
    hide FailsIn;
  }

  /** In poll k reading the child fails, or finds it completed with errors; y is the item with these added. */
  predicate FailsIn(x: Item, polls: seq<Poll>, k: nat, y: Item) {
    k < |polls| && !x.notFound && x.migration.Some? && RunsUntil(x, polls, k) &&
    match polls[k](x.migration.value)
    case GetFailed(message) => y == x.(errors := x.errors + [message])
    case Child(phase, errors) => phase == COMPLETED && errors != [] && y == x.(errors := x.errors + errors)
  }

  lemma EndsAsFailure(x: Item, polls: seq<Poll>, k: nat, y: Item)
    requires Pollable(x)
    ensures EndedAs(x, polls, k, Failures, y) <==> FailsIn(x, polls, k, y)
  {
    if k < |polls| {
      WaitsAsItRuns(x, polls, k);
    }
    hide WaitsIn, RunsUntil;
  }

  /** The deleted bucket holds exactly the items that were marked as not found, from the first poll on. */
  lemma DeletedMeans(items: seq<Item>, polls: seq<Poll>, y: Item)
    requires forall i :: 0 <= i < |items| ==> Pollable(items[i])
    ensures y in PolledAll(Buckets(items, [], [], []), polls).deletedISs <==> y in items && y.notFound && polls != []
  {
    var b := Buckets(items, [], [], []);
    FirstVerdictDecides(b, polls, Deleted, y);
    hide PolledAll, WaitsIn;
    forall x, k: nat | x in items && EndedAs(x, polls, k, Deleted, y) ensures x == y && y.notFound && polls != [] {
    }
    if y in items && y.notFound && polls != [] {
      WaitsAsItRuns(y, polls, 0);
      assert EndedAs(y, polls, 0, Deleted, y);
    }
  }

  predicate AllBlamed(items: seq<Item>) {
    forall i :: 0 <= i < |items| ==> items[i].errors != []
  }

  lemma {:induction false} FailuresAreBlamed(items: seq<Item>, poll: Poll)
    ensures AllBlamed(Sorted(items, poll, Failures))
  {
    if items != [] { FailuresAreBlamed(items[..|items| - 1], poll); }
  }

  lemma {:induction false} BlamedHaveReasons(items: seq<Item>)
    requires AllBlamed(items)
    ensures AllErrors(items) == [] <==> items == []
  {
    if items != [] {
      assert items[|items| - 1].errors != [];
    }
  }

  /** Starting without failures, the reasons of a completed check are empty exactly when nothing failed:
      every failed item carries an error. */
  lemma {:induction false} ReasonsExactlyWhenFailed(items: seq<Item>, polls: seq<Poll>)
    ensures var b := PolledAll(Buckets(items, [], [], []), polls);
            AllBlamed(b.failedISs) && (AllErrors(b.failedISs) == [] <==> b.failedISs == [])
  {
    var start := Buckets(items, [], [], []);
    if polls != [] {
      var before := PolledAll(start, polls[..|polls| - 1]);
      ReasonsExactlyWhenFailed(items, polls[..|polls| - 1]);
      FailuresAreBlamed(before.newISs, polls[|polls| - 1]);
      BlamedHaveReasons(PolledAll(start, polls).failedISs);
      hide Sorted, AllErrors;
    }
  }

  /** The poll can read every remaining item as long as it could read the first ones. */
  lemma RemainingArePollable(items: seq<Item>, polls: seq<Poll>)
    requires forall i :: 0 <= i < |items| ==> Pollable(items[i])
    ensures forall x :: x in StillWaiting(items, polls) ==> Pollable(x)
  {
    forall x | x in StillWaiting(items, polls) ensures Pollable(x) {
      InStillWaiting(items, polls, x);
    }
  }

  lemma {:induction false} AllErrorsConcat(a: seq<Item>, b: seq<Item>)
    ensures AllErrors(a + b) == AllErrors(a) + AllErrors(b)
  {
    if b == [] {
      assert a + b == a && AllErrors(a) + [] == AllErrors(a);
    } else {
      var n, last := |b| - 1, b[|b| - 1].errors;
      AllErrorsConcat(a, b[..n]);
      assert (a + b)[..|a + b| - 1] == a + b[..n];
      var all, first, rest := AllErrors(a + b), AllErrors(a), AllErrors(b[..n]);
      assert all == first + rest + last && AllErrors(b) == rest + last;
      hide AllErrors;
      assert first + rest + last == first + (rest + last);
    }
  }

  /** The reasons are the errors of the items, in order: each item's errors stand after those of the items
      before it. */
  lemma ReasonsInOrder(items: seq<Item>, i: nat)
    requires i < |items|
    ensures AllErrors(items) == AllErrors(items[..i]) + items[i].errors + AllErrors(items[i + 1..])
  {
    assert items == items[..i + 1] + items[i + 1..];
    AllErrorsConcat(items[..i + 1], items[i + 1..]);
    AllErrorsSnoc(items, i);
  }
}
