/** Weighted entries under text keys. Each dashboard table is a tally of one entry list, and each of
its conservation laws is the one partition law proved here. */
module Tally {
  import opened Lists

  type Entry = (string, nat)

  function TotalFor(entries: seq<Entry>, key: string): nat {
    if entries == [] then 0 else
      TotalFor(entries[..|entries| - 1], key)
      + (if entries[|entries| - 1].0 == key then entries[|entries| - 1].1 else 0)
  }

  function Total(entries: seq<Entry>): nat {
    if entries == [] then 0 else Total(entries[..|entries| - 1]) + entries[|entries| - 1].1
  }

  function TotalOver(entries: seq<Entry>, keys: seq<string>): nat {
    if keys == [] then 0 else TotalFor(entries, keys[0]) + TotalOver(entries, keys[1..])
  }

  lemma {:induction false} TotalAppend(left: seq<Entry>, right: seq<Entry>, key: string)
    ensures Total(left + right) == Total(left) + Total(right)
    ensures TotalFor(left + right, key) == TotalFor(left, key) + TotalFor(right, key)
  {
    if right == [] {
      assert left + right == left;
    } else {
      var init, last := right[..|right| - 1], right[|right| - 1];
      TotalAppend(left, init, key);
      assert left + right == (left + init) + [last];
      assert ((left + init) + [last])[..|left + init|] == left + init;
    }
  }

  /** One more entry adds its weight to the listed total exactly once, if its key is listed. */
  lemma {:induction false} TotalOverStep(entries: seq<Entry>, last: Entry, keys: seq<string>)
    requires Distinct(keys)
    ensures TotalOver(entries + [last], keys) ==
      TotalOver(entries, keys) + (if last.0 in keys then last.1 else 0)
  {
    assert (entries + [last])[..|entries|] == entries;
    if keys == [] {
    } else {
      TotalOverStep(entries, last, keys[1..]);
      assert keys == [keys[0]] + keys[1..];
      assert last.0 == keys[0] ==> last.0 !in keys[1..];
    }
  }

  ghost predicate AllListed(entries: seq<Entry>, keys: seq<string>) {
    forall e :: e in entries && e.1 > 0 ==> e.0 in keys
  }

  /** Summing per key over distinct keys gives the whole total exactly when every weighted entry's
  key is listed, and never more. */
  lemma {:induction false} PartitionTotal(entries: seq<Entry>, keys: seq<string>)
    requires Distinct(keys)
    ensures TotalOver(entries, keys) <= Total(entries)
    ensures TotalOver(entries, keys) == Total(entries) <==> AllListed(entries, keys)
  {
    if entries == [] {
      NothingOver(keys);
    } else {
      var init, last := entries[..|entries| - 1], entries[|entries| - 1];
      PartitionTotal(init, keys);
      assert entries == init + [last];
      TotalOverStep(init, last, keys);
    }
  }

  lemma {:induction false} NothingOver(keys: seq<string>)
    ensures TotalOver([], keys) == 0
  {
    if keys == [] {
    } else {
      NothingOver(keys[1..]);
    }
  }

  /** Where the entries weigh one under the key. */
  function PlacesFor(entries: seq<Entry>, key: string): set<nat> {
    set i | 0 <= i < |entries| && entries[i].0 == key && entries[i].1 == 1
  }

  lemma PlacesForStep(entries: seq<Entry>, n: nat, key: string)
    requires |entries| == n + 1
    ensures |PlacesFor(entries, key)|
      == |PlacesFor(entries[..n], key)| + (if entries[n].0 == key && entries[n].1 == 1 then 1 else 0)
  {
    assert PlacesFor(entries, key)
      == PlacesFor(entries[..n], key) + (if entries[n].0 == key && entries[n].1 == 1 then {n} else {});
  }

  /** Entries that weigh one or nothing are counted. */
  lemma {:induction false} TotalForCounts(entries: seq<Entry>, key: string)
    requires forall i :: 0 <= i < |entries| ==> entries[i].1 <= 1
    ensures TotalFor(entries, key) == |PlacesFor(entries, key)|
  {
    if entries == [] {
      assert PlacesFor(entries, key) == {};
    } else {
      var n := |entries| - 1;
      PlacesForStep(entries, n, key);
      TotalForCounts(entries[..n], key);
    }
  }

  // ----- counting incidences both ways

  /** One entry per key, weighing one when the key is in the group. */
  ghost function GroupEntries(keys: seq<string>, group: set<string>): seq<Entry> {
    if keys == [] then [] else
      GroupEntries(keys[..|keys| - 1], group) + [(keys[|keys| - 1], if keys[|keys| - 1] in group then 1 else 0)]
  }

  ghost function IncidenceEntries(keys: seq<string>, groups: seq<set<string>>): seq<Entry> {
    if groups == [] then [] else
      IncidenceEntries(keys, groups[..|groups| - 1]) + GroupEntries(keys, groups[|groups| - 1])
  }

  /** How many of the groups hold the key. */
  ghost function Hits(groups: seq<set<string>>, key: string): nat {
    if groups == [] then 0 else
      Hits(groups[..|groups| - 1], key) + (if key in groups[|groups| - 1] then 1 else 0)
  }

  ghost function HitsOver(groups: seq<set<string>>, keys: seq<string>): nat {
    if keys == [] then 0 else Hits(groups, keys[0]) + HitsOver(groups, keys[1..])
  }

  ghost function SumOfSizes(groups: seq<set<string>>): nat {
    if groups == [] then 0 else SumOfSizes(groups[..|groups| - 1]) + |groups[|groups| - 1]|
  }

  lemma LastEntry(entries: seq<Entry>, e: Entry, key: string)
    ensures TotalFor(entries + [e], key) == TotalFor(entries, key) + (if e.0 == key then e.1 else 0)
    ensures Total(entries + [e]) == Total(entries) + e.1
  {
    assert (entries + [e])[..|entries|] == entries;
  }

  lemma {:induction false} GroupTotals(keys: seq<string>, group: set<string>, key: string)
    requires Distinct(keys)
    ensures Total(GroupEntries(keys, group)) == |group * Elements(keys)|
    ensures TotalFor(GroupEntries(keys, group), key) == if key in keys && key in group then 1 else 0
    ensures forall e :: e in GroupEntries(keys, group) ==> e.0 in keys
  {
    if keys == [] {
      assert group * Elements(keys) == {};
    } else {
      var init, last := keys[..|keys| - 1], keys[|keys| - 1];
      GroupTotals(init, group, key);
      LastEntry(GroupEntries(init, group), (last, if last in group then 1 else 0), key);
      assert keys == init + [last];
      GroupStep(init, last, group);
    }
  }

  lemma GroupStep(init: seq<string>, last: string, group: set<string>)
    requires last !in init
    ensures |group * Elements(init + [last])| == |group * Elements(init)| + (if last in group then 1 else 0)
  {
    if last in group {
      assert group * Elements(init + [last]) == group * Elements(init) + {last};
    } else {
      assert group * Elements(init + [last]) == group * Elements(init);
    }
  }

  lemma {:induction false} IncidenceTotals(keys: seq<string>, groups: seq<set<string>>, key: string)
    requires Distinct(keys)
    requires forall g :: g in groups ==> g <= Elements(keys)
    ensures Total(IncidenceEntries(keys, groups)) == SumOfSizes(groups)
    ensures TotalFor(IncidenceEntries(keys, groups), key) == if key in keys then Hits(groups, key) else 0
    ensures forall e :: e in IncidenceEntries(keys, groups) ==> e.0 in keys
  {
    if groups == [] {
    } else {
      var init, last := groups[..|groups| - 1], groups[|groups| - 1];
      IncidenceTotals(keys, init, key);
      GroupTotals(keys, last, key);
      TotalAppend(IncidenceEntries(keys, init), GroupEntries(keys, last), key);
      assert last in groups;
      assert last * Elements(keys) == last;
    }
  }

  lemma {:induction false} OverKeysIsHits(part: seq<string>, keys: seq<string>, groups: seq<set<string>>)
    requires Distinct(keys)
    requires forall g :: g in groups ==> g <= Elements(keys)
    requires forall k :: k in part ==> k in keys
    ensures TotalOver(IncidenceEntries(keys, groups), part) == HitsOver(groups, part)
  {
    if part == [] {
    } else {
      OverKeysIsHits(part[1..], keys, groups);
      assert part[0] in keys;
      IncidenceTotals(keys, groups, part[0]);
    }
  }

  /** Adding up group sizes is adding up, key by key, the number of groups that hold it. */
  lemma DoubleCount(keys: seq<string>, groups: seq<set<string>>)
    requires Distinct(keys)
    requires forall g :: g in groups ==> g <= Elements(keys)
    ensures SumOfSizes(groups) == HitsOver(groups, keys)
  {
    IncidenceTotals(keys, groups, "");
    OverKeysIsHits(keys, keys, groups);
    PartitionTotal(IncidenceEntries(keys, groups), keys);
  }
}
