/** The reconciliation preview's counters while items are imported or linked away. */
module PreviewCounters {
  import opened Lists

  datatype Item = Item(externalId: string, action: string)

  datatype Queue = Queue(pending: int, resolved: int)

  datatype Preview = Preview(items: seq<Item>, counts: map<string, int>, queue: Option<Queue>)

  // ----- the meaning of the counters

  function CountOf(items: seq<Item>, action: string): nat {
    if items == [] then 0 else
      CountOf(items[..|items| - 1], action) + (if items[|items| - 1].action == action then 1 else 0)
  }

  /** Every action that occurs is counted, and each count is the number of items with that action. */
  ghost predicate CountsTrack(p: Preview) {
    && (forall item :: item in p.items ==> item.action in p.counts)
    && (forall action :: action in p.counts ==> p.counts[action] == CountOf(p.items, action))
  }

  function Max0(n: int): int {
    if n < 0 then 0 else n
  }

  function Kept(items: seq<Item>, ids: set<string>): seq<Item> {
    if items == [] then [] else
      var last := items[|items| - 1];
      Kept(items[..|items| - 1], ids) + (if last.externalId in ids then [] else [last])
  }

  function Resolved(items: seq<Item>, ids: set<string>): seq<Item> {
    if items == [] then [] else
      var last := items[|items| - 1];
      Resolved(items[..|items| - 1], ids) + (if last.externalId in ids then [last] else [])
  }

  lemma {:induction false} SplitCount(items: seq<Item>, ids: set<string>, action: string)
    ensures CountOf(items, action) == CountOf(Kept(items, ids), action) + CountOf(Resolved(items, ids), action)
  {
    if items == [] {
    } else {
      var init, last := items[..|items| - 1], items[|items| - 1];
      SplitCount(init, ids, action);
      CountAppend(Kept(init, ids), last, action);
      CountAppend(Resolved(init, ids), last, action);
      if last.externalId in ids {
        assert Kept(items, ids) == Kept(init, ids);
      } else {
        assert Resolved(items, ids) == Resolved(init, ids);
      }
    }
  }

  lemma CountAppend(items: seq<Item>, last: Item, action: string)
    ensures CountOf(items + [last], action) == CountOf(items, action) + (if last.action == action then 1 else 0)
  {
    assert (items + [last])[..|items|] == items;
  }

  lemma {:induction false} SplitMembers(items: seq<Item>, ids: set<string>)
    ensures forall item :: item in Kept(items, ids) <==> item in items && item.externalId !in ids
    ensures forall item :: item in Resolved(items, ids) <==> item in items && item.externalId in ids
    ensures |Kept(items, ids)| + |Resolved(items, ids)| == |items|
  {
    if items == [] {
    } else {
      var init, last := items[..|items| - 1], items[|items| - 1];
      SplitMembers(init, ids);
      assert forall item :: item in items <==> item in init || item == last;
    }
  }

  function IsOutside(ids: set<string>): Item -> bool {
    (item: Item) => item.externalId !in ids
  }

  /** What stays is every item with another id, in order. */
  lemma {:induction false} KeptAre(items: seq<Item>, ids: set<string>)
    ensures IsSelection(Kept(items, ids), items, IsOutside(ids))
  {
    if items == [] {
      NothingSelected(IsOutside(ids));
    } else {
      var init, last := items[..|items| - 1], items[|items| - 1];
      assert items == init + [last];
      KeptAre(init, ids);
      SelectionStep(Kept(init, ids), init, last, IsOutside(ids));
      assert Kept(init, ids) + [] == Kept(init, ids);
    }
  }

  function Settled(q: Option<Queue>, n: int): Option<Queue> {
    if q.None? then None else Some(Queue(Max0(q.value.pending - n), q.value.resolved + n))
  }

  // ----- importing

  lemma CountTake(items: seq<Item>, i: nat)
    requires i < |items|
    ensures forall a :: CountOf(items[..i + 1], a) == CountOf(items[..i], a) + (if items[i].action == a then 1 else 0)
  {
    assert items[..i + 1][..i] == items[..i];
  }

  /** The counts with every resolved item taken off its action's count. */
  function LessResolved(counts: map<string, int>, resolved: seq<Item>): map<string, int> {
    map a | a in counts :: Max0(counts[a] - CountOf(resolved, a))
  }

  lemma LessResolvedStep(counts: map<string, int>, resolved: seq<Item>, i: nat)
    requires i < |resolved| && resolved[i].action in counts
    ensures
      var before, action := LessResolved(counts, resolved[..i]), resolved[i].action;
      LessResolved(counts, resolved[..i + 1]) == before[action := Max0(before[action] - 1)]
  {
    CountTake(resolved, i);
  }

  /** Takes one off the count of each resolved item's action, never below zero. */
  method TakeOff(counts: map<string, int>, resolved: seq<Item>) returns (left: map<string, int>)
    requires forall item :: item in resolved ==> item.action in counts
    requires forall action :: action in counts ==> counts[action] >= 0
    ensures left == LessResolved(counts, resolved)
  {
    left := counts;
    assert left == LessResolved(counts, []);
    for i := 0 to |resolved|
      invariant left == LessResolved(counts, resolved[..i])
    {
      var action := resolved[i].action;
      assert resolved[i] in resolved;
      LessResolvedStep(counts, resolved, i);
      left := left[action := Max0(left[action] - 1)];
    }
    assert resolved[..|resolved|] == resolved;
  }

  /** The preview after an import, count by count. */
  function Imported(p: Preview, ids: set<string>): Preview {
    var resolved := Resolved(p.items, ids);
    if resolved == [] then p
    else Preview(Kept(p.items, ids), LessResolved(p.counts, resolved), Settled(p.queue, |resolved|))
  }

  /** Removes every imported item from the list, the counts and the queue summary. */
  method RemoveResolved(p: Preview, ids: set<string>) returns (q: Preview)
    requires CountsTrack(p)
    ensures q == Imported(p, ids)
    ensures q.items == Kept(p.items, ids)
    ensures q.queue == if Resolved(p.items, ids) == [] then p.queue else Settled(p.queue, |Resolved(p.items, ids)|)
    ensures CountsTrack(q)
  {
    ImportKeepsCounts(p, ids);
    var resolved := Resolved(p.items, ids);
    SplitMembers(p.items, ids);
    if resolved == [] {
      KeepsAll(p.items, ids);
      return p;
    }
    var counts := TakeOff(p.counts, resolved);
    q := Preview(Kept(p.items, ids), counts, Settled(p.queue, |resolved|));
  }

  lemma {:induction false} KeepsAll(items: seq<Item>, ids: set<string>)
    requires forall item :: item in items ==> item.externalId !in ids
    ensures Kept(items, ids) == items
  {
    if items == [] {
    } else {
      var init, last := items[..|items| - 1], items[|items| - 1];
      forall item | item in init
        ensures item.externalId !in ids
      {
        assert item in items;
      }
      KeepsAll(init, ids);
      assert last in items;
      assert Kept(items, ids) == init + [last];
    }
  }

  // ----- linking

  function FirstWith(items: seq<Item>, id: string): Option<Item> {
    if items == [] then None
    else if items[0].externalId == id then Some(items[0])
    else FirstWith(items[1..], id)
  }

  /** Removes a linked item: one is taken off the first match's count, and every match leaves the list. */
  function Linked(p: Preview, id: string): Preview {
    var found := FirstWith(p.items, id);
    if found.None? then p else
      var action := found.value.action;
      Preview(Kept(p.items, {id}),
        if action in p.counts then p.counts[action := Max0(p.counts[action] - 1)] else p.counts,
        Settled(p.queue, 1))
  }

  lemma {:induction false} FirstWithIs(items: seq<Item>, id: string)
    ensures FirstWith(items, id).None? <==> forall item :: item in items ==> item.externalId != id
    ensures FirstWith(items, id).Some? ==>
      FirstWith(items, id).value in items && FirstWith(items, id).value.externalId == id
  {
    if items == [] {
    } else {
      FirstWithIs(items[1..], id);
      assert items == [items[0]] + items[1..];
    }
  }

  /** The item found is the first with the id. */
  lemma {:induction false} FirstWithIsFirst(items: seq<Item>, id: string) returns (i: nat)
    requires FirstWith(items, id).Some?
    ensures i < |items| && items[i] == FirstWith(items, id).value && items[i].externalId == id
    ensures forall k :: 0 <= k < i ==> items[k].externalId != id
  {
    if items[0].externalId == id {
      i := 0;
    } else {
      var k := FirstWithIsFirst(items[1..], id);
      i := k + 1;
    }
  }

  lemma {:induction false} CountWithin(items: seq<Item>, action: string)
    ensures CountOf(items, action) <= |items|
    ensures (forall item :: item in items ==> item.action == action) ==> CountOf(items, action) == |items|
    ensures forall item :: item in items && item.action == action ==> CountOf(items, action) >= 1
  {
    if items == [] {
    } else {
      CountWithin(items[..|items| - 1], action);
      assert items == items[..|items| - 1] + [items[|items| - 1]];
    }
  }

  /** A list holds one of `action` and none of any other exactly when it is one item of that action. */
  ghost predicate CountsAsOne(items: seq<Item>, action: string) {
    forall a :: CountOf(items, a) == if a == action then 1 else 0
  }

  lemma OneItemCountsAsOne(items: seq<Item>, first: Item)
    requires first in items
    ensures CountsAsOne(items, first.action) <==> |items| == 1
  {
    if |items| == 1 {
      assert items == [first] && items[..0] == [];
      assert forall a :: CountOf(items, a) == CountOf(items[..0], a) + (if first.action == a then 1 else 0);
    } else if CountsAsOne(items, first.action) {
      CountWithin(items, first.action);
      assert CountOf(items, first.action) == 1;
      var other :| other in items && other.action != first.action;
      CountWithin(items, other.action);
    }
  }

  lemma LinkSplits(p: Preview, id: string, a: string)
    requires FirstWith(p.items, id).Some?
    ensures CountOf(p.items, a) == CountOf(Linked(p, id).items, a) + CountOf(Resolved(p.items, {id}), a)
  {
    SplitCount(p.items, {id}, a);
  }

  /** Taking one off the first match is right exactly when all that leaves counts as that one. */
  lemma LinkedCounts(p: Preview, id: string)
    requires CountsTrack(p) && FirstWith(p.items, id).Some?
    ensures CountsTrack(Linked(p, id)) <==> CountsAsOne(Resolved(p.items, {id}), FirstWith(p.items, id).value.action)
  {
    var first := FirstWith(p.items, id).value;
    FirstWithIs(p.items, id);
    SplitMembers(p.items, {id});
    forall a
      ensures LinkRight(p, id, first.action, a)
    {
      LinkOneCount(p, id, first.action, a);
    }
    LinkRightSums(p, id, first.action);
  }

  lemma LinkRightSums(p: Preview, id: string, action: string)
    requires CountsTrack(p) && forall item :: item in Linked(p, id).items ==> item in p.items
    requires forall a :: LinkRight(p, id, action, a)
    ensures CountsTrack(Linked(p, id)) <==> CountsAsOne(Resolved(p.items, {id}), action)
  {
    var q, gone := Linked(p, id), Resolved(p.items, {id});
    if CountsTrack(q) {
      forall a
        ensures CountOf(gone, a) == if a == action then 1 else 0
      {
        assert LinkRight(p, id, action, a);
      }
    }
    if CountsAsOne(gone, action) {
      forall a | a in q.counts
        ensures q.counts[a] == CountOf(q.items, a)
      {
        assert LinkRight(p, id, action, a);
      }
      forall item | item in q.items
        ensures item.action in q.counts
      {
        assert LinkRight(p, id, action, item.action);
      }
    }
  }

  /** For one action: its count after linking is right exactly when what leaves counts as the first match. */
  ghost predicate LinkRight(p: Preview, id: string, action: string, a: string) {
    var q, gone := Linked(p, id), CountOf(Resolved(p.items, {id}), a);
    && (a in q.counts <==> a in p.counts)
    && (a in p.counts ==> (q.counts[a] == CountOf(q.items, a) <==> gone == if a == action then 1 else 0))
    && (a !in p.counts ==> gone == 0 && a != action)
  }

  lemma LinkOneCount(p: Preview, id: string, action: string, a: string)
    requires CountsTrack(p) && FirstWith(p.items, id).Some? && FirstWith(p.items, id).value.action == action
    requires FirstWith(p.items, id).value in p.items
    ensures LinkRight(p, id, action, a)
  {
    LinkSplits(p, id, a);
    CountWithin(p.items, action);
    if a !in p.counts {
      NoneCounted(p.items, a);
    }
  }

  lemma {:induction false} NoneWith(items: seq<Item>, id: string)
    requires forall item :: item in items ==> item.externalId != id
    ensures Resolved(items, {id}) == []
  {
    if items == [] {
    } else {
      var init, last := items[..|items| - 1], items[|items| - 1];
      forall item | item in init
        ensures item.externalId != id
      {
        assert item in items;
      }
      assert last in items;
      NoneWith(init, id);
    }
  }

  lemma {:induction false} NoneCounted(items: seq<Item>, action: string)
    requires forall item :: item in items ==> item.action != action
    ensures CountOf(items, action) == 0
  {
    if items == [] {
    } else {
      NoneCounted(items[..|items| - 1], action);
      assert items[|items| - 1] in items;
    }
  }

  /** Linking keeps the counters true exactly when at most one item carries the linked id. */
  lemma LinkKeepsCountsExactly(p: Preview, id: string)
    requires CountsTrack(p)
    ensures CountsTrack(Linked(p, id)) <==> |Resolved(p.items, {id})| <= 1
  {
    FirstWithIs(p.items, id);
    SplitMembers(p.items, {id});
    var found := FirstWith(p.items, id);
    if found.None? {
      NoneWith(p.items, id);
    } else {
      assert found.value in Resolved(p.items, {id});
      LinkedCounts(p, id);
      OneItemCountsAsOne(Resolved(p.items, {id}), found.value);
    }
  }

  const TWIN := Item("7", "create")
  const TWINS := Preview([TWIN, TWIN], map["create" := 2], None)

  /** Two items under one id: the counters hold before the link and not after it. */
  lemma LinkingTwinsMiscounts()
    ensures CountsTrack(TWINS) && !CountsTrack(Linked(TWINS, "7"))
  {
    TwinsTrack();
    TwinsResolve();
    LinkKeepsCountsExactly(TWINS, "7");
  }

  lemma TwinsTrack()
    ensures CountsTrack(TWINS)
  {
    assert [TWIN, TWIN][..1] == [TWIN] && [TWIN][..0] == [];
    assert CountOf([TWIN], "create") == 1;
  }

  lemma TwinsResolve()
    ensures Resolved(TWINS.items, {"7"}) == [TWIN, TWIN]
  {
    assert [TWIN, TWIN][..1] == [TWIN] && [TWIN][..0] == [];
    assert Resolved([TWIN], {"7"}) == [TWIN];
  }

  // ----- whole sessions

  datatype Step = Import(ids: set<string>) | Link(id: string)

  function Taken(p: Preview, step: Step): Preview {
    match step
    case Import(ids) => Imported(p, ids)
    case Link(id) => Linked(p, id)
  }

  function Run(p: Preview, steps: seq<Step>): Preview
    decreases |steps|
  {
    if steps == [] then p else Taken(Run(p, steps[..|steps| - 1]), steps[|steps| - 1])
  }

  ghost predicate DistinctIds(items: seq<Item>) {
    forall i, j :: 0 <= i < j < |items| ==> items[i].externalId != items[j].externalId
  }

  lemma {:induction false} DistinctSplit(items: seq<Item>, ids: set<string>)
    requires DistinctIds(items)
    ensures DistinctIds(Kept(items, ids)) && DistinctIds(Resolved(items, ids))
  {
    if items == [] {
    } else {
      DistinctSplit(items[..|items| - 1], ids);
      SplitMembers(items[..|items| - 1], ids);
    }
  }

  lemma LinkOne(items: seq<Item>, id: string)
    requires DistinctIds(items)
    ensures |Resolved(items, {id})| <= 1
    ensures FirstWith(items, id).Some? <==> |Resolved(items, {id})| == 1
  {
    var gone := Resolved(items, {id});
    DistinctSplit(items, {id});
    SplitMembers(items, {id});
    AtMostOne(gone, id);
    FirstWithIs(items, id);
    assert FirstWith(items, id).Some? ==> FirstWith(items, id).value in gone;
  }

  lemma AtMostOne(items: seq<Item>, id: string)
    requires DistinctIds(items) && forall item :: item in items ==> item.externalId == id
    ensures |items| <= 1
    ensures |items| == 1 ==> items[0] in items
  {
    var ids := seq(|items|, i requires 0 <= i < |items| => items[i].externalId);
    DistinctSize(ids);
    SubsetSize(Elements(ids), {id});
  }

  /** Items only ever leave through the counters: pending falls by as many as are resolved. */
  ghost predicate QueueBalanced(p: Preview, q: Preview) {
    var gone := |p.items| - |q.items|;
    && gone >= 0
    && (p.queue.None? <==> q.queue.None?)
    && (p.queue.Some? ==> q.queue.value.resolved == p.queue.value.resolved + gone)
    && (p.queue.Some? && p.queue.value.pending >= gone ==>
          q.queue.value.pending == p.queue.value.pending - gone
          && q.queue.value.pending + q.queue.value.resolved == p.queue.value.pending + p.queue.value.resolved)
  }

  lemma ImportKeepsCounts(p: Preview, ids: set<string>)
    requires CountsTrack(p)
    ensures CountsTrack(Imported(p, ids))
  {
    var q := Imported(p, ids);
    if Resolved(p.items, ids) != [] {
      forall a | a in p.counts
        ensures q.counts[a] == CountOf(q.items, a)
      {
        SplitCount(p.items, ids, a);
      }
      SplitMembers(p.items, ids);
    }
  }

  lemma ImportBalances(p: Preview, ids: set<string>)
    ensures QueueBalanced(p, Imported(p, ids))
  {
    SplitMembers(p.items, ids);
  }

  lemma LinkKeeps(p: Preview, id: string)
    requires CountsTrack(p) && DistinctIds(p.items)
    ensures CountsTrack(Linked(p, id)) && QueueBalanced(p, Linked(p, id))
  {
    LinkOne(p.items, id);
    LinkKeepsCountsExactly(p, id);
    SplitMembers(p.items, {id});
  }

  lemma TakenKeeps(p: Preview, step: Step)
    requires CountsTrack(p) && DistinctIds(p.items)
    ensures CountsTrack(Taken(p, step)) && DistinctIds(Taken(p, step).items) && QueueBalanced(p, Taken(p, step))
  {
    match step
    case Import(ids) =>
      ImportKeepsCounts(p, ids);
      ImportBalances(p, ids);
      DistinctSplit(p.items, ids);
    case Link(id) =>
      LinkKeeps(p, id);
      DistinctSplit(p.items, {id});
  }

  /** Over any session of imports and links the counts stay exactly the numbers of remaining items, and
  pending plus resolved is conserved while pending covers what is resolved. */
  lemma {:induction false} SessionKeepsCounters(p: Preview, steps: seq<Step>)
    requires CountsTrack(p) && DistinctIds(p.items)
    ensures CountsTrack(Run(p, steps)) && DistinctIds(Run(p, steps).items) && QueueBalanced(p, Run(p, steps))
    decreases |steps|
  {
    if steps == [] {
    } else {
      SessionKeepsCounters(p, steps[..|steps| - 1]);
      TakenKeeps(Run(p, steps[..|steps| - 1]), steps[|steps| - 1]);
    }
  }
}
