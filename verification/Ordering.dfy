/** Stable sorting by a key order, and the comparison of texts it rests on.

The dashboards sort with their language's library sort. `Sort` is that operation's specification as
a function; `StableSortIsUnique` says that any sorted and stable rearrangement equals it. */
module Ordering {

  ghost predicate TotalPreorder<T(!new)>(le: (T, T) -> bool) {
    && (forall x, y :: le(x, y) || le(y, x))
    && (forall x, y, z :: le(x, y) && le(y, z) ==> le(x, z))
  }

  ghost predicate SortedBy<T>(s: seq<T>, le: (T, T) -> bool) {
    forall i, j :: 0 <= i < j < |s| ==> le(s[i], s[j])
  }

  function Insert<T>(x: T, s: seq<T>, le: (T, T) -> bool): seq<T> {
    if s == [] || le(x, s[0]) then [x] + s else [s[0]] + Insert(x, s[1..], le)
  }

  function Sort<T>(s: seq<T>, le: (T, T) -> bool): seq<T> {
    if s == [] then [] else Insert(s[0], Sort(s[1..], le), le)
  }

  /** The members of `s` that rank with `k`, in order. */
  function RankedWith<T>(s: seq<T>, k: T, le: (T, T) -> bool): seq<T> {
    if s == [] then [] else
      (if le(s[0], k) && le(k, s[0]) then [s[0]] else []) + RankedWith(s[1..], k, le)
  }

  function Sum<T>(s: seq<T>, weight: T -> nat): nat {
    if s == [] then 0 else weight(s[0]) + Sum(s[1..], weight)
  }

  // ----- what Sort does

  lemma {:induction false} InsertMembers<T>(x: T, s: seq<T>, le: (T, T) -> bool)
    ensures multiset(Insert(x, s, le)) == multiset(s) + multiset{x}
    ensures forall y :: y in Insert(x, s, le) <==> y == x || y in s
  {
    if s == [] || le(x, s[0]) {
    } else {
      InsertMembers(x, s[1..], le);
      assert s == [s[0]] + s[1..];
    }
  }

  lemma HeadLeads<T(!new)>(s: seq<T>, le: (T, T) -> bool)
    requires TotalPreorder(le) && SortedBy(s, le) && s != []
    ensures forall y :: y in s ==> le(s[0], y)
  {
    assert le(s[0], s[0]);
  }

  lemma LedIsSorted<T>(x: T, s: seq<T>, le: (T, T) -> bool)
    requires SortedBy(s, le) && forall y :: y in s ==> le(x, y)
    ensures SortedBy([x] + s, le)
  {
  }

  lemma {:induction false} InsertSorted<T(!new)>(x: T, s: seq<T>, le: (T, T) -> bool)
    requires TotalPreorder(le) && SortedBy(s, le)
    ensures SortedBy(Insert(x, s, le), le)
  {
    if s == [] {
    } else {
      HeadLeads(s, le);
      if le(x, s[0]) {
        LedIsSorted(x, s, le);
      } else {
        InsertSorted(x, s[1..], le);
        InsertMembers(x, s[1..], le);
        LedIsSorted(s[0], Insert(x, s[1..], le), le);
      }
    }
  }

  lemma {:induction false} SortIsSorted<T(!new)>(s: seq<T>, le: (T, T) -> bool)
    requires TotalPreorder(le)
    ensures SortedBy(Sort(s, le), le)
    ensures multiset(Sort(s, le)) == multiset(s)
    ensures |Sort(s, le)| == |s|
  {
    if s == [] {
    } else {
      SortIsSorted(s[1..], le);
      InsertSorted(s[0], Sort(s[1..], le), le);
      InsertMembers(s[0], Sort(s[1..], le), le);
      assert s == [s[0]] + s[1..];
    }
    assert |Sort(s, le)| == |multiset(Sort(s, le))| == |multiset(s)| == |s|;
  }

  lemma {:induction false} InsertStable<T(!new)>(x: T, s: seq<T>, k: T, le: (T, T) -> bool)
    requires TotalPreorder(le) && SortedBy(s, le)
    ensures RankedWith(Insert(x, s, le), k, le) == RankedWith([x] + s, k, le)
  {
    var own := if le(x, k) && le(k, x) then [x] else [];
    assert ([x] + s)[1..] == s;
    if s != [] && !le(x, s[0]) {
      InsertStable(x, s[1..], k, le);
      assert ([s[0]] + Insert(x, s[1..], le))[1..] == Insert(x, s[1..], le);
      assert ([x] + s[1..])[1..] == s[1..];
      var head := if le(s[0], k) && le(k, s[0]) then [s[0]] else [];
      assert own == [] || head == [];
      assert head + (own + RankedWith(s[1..], k, le)) == own + (head + RankedWith(s[1..], k, le));
    }
  }

  /** Members of equal rank keep their order. */
  lemma {:induction false} SortIsStable<T(!new)>(s: seq<T>, k: T, le: (T, T) -> bool)
    requires TotalPreorder(le)
    ensures RankedWith(Sort(s, le), k, le) == RankedWith(s, k, le)
  {
    if s == [] {
    } else {
      SortIsStable(s[1..], k, le);
      SortIsSorted(s[1..], le);
      InsertStable(s[0], Sort(s[1..], le), k, le);
      assert ([s[0]] + Sort(s[1..], le))[1..] == Sort(s[1..], le);
    }
  }

  lemma {:induction false} RankedMember<T(!new)>(s: seq<T>, k: T, x: T, le: (T, T) -> bool)
    ensures x in RankedWith(s, k, le) <==> x in s && le(x, k) && le(k, x)
  {
    if s == [] {
    } else {
      RankedMember(s[1..], k, x, le);
      assert s == [s[0]] + s[1..];
    }
  }

  /** Sorted lists whose equal-rank members come in the same order are the same list. */
  lemma {:induction false} StableSortIsUnique<T(!new)>(u: seq<T>, v: seq<T>, le: (T, T) -> bool)
    requires TotalPreorder(le) && SortedBy(u, le) && SortedBy(v, le)
    requires forall k :: RankedWith(u, k, le) == RankedWith(v, k, le)
    ensures u == v
  {
    if u == [] {
    } else {
      RankedMember(u, u[0], u[0], le);
      assert le(u[0], u[0]);
      assert RankedWith(v, u[0], le) == RankedWith(u, u[0], le);
      RankedMember(v, u[0], u[0], le);
      assert u[0] in v;
      assert le(v[0], v[0]);
      RankedMember(v, v[0], v[0], le);
      RankedMember(u, v[0], v[0], le);
      assert RankedWith(v, v[0], le) == RankedWith(u, v[0], le);
      var i :| 0 <= i < |u| && u[i] == v[0];
      var j :| 0 <= j < |v| && v[j] == u[0];
      assert i == 0 || le(u[0], u[i]);
      assert j == 0 || le(v[0], v[j]);
      assert RankedWith(u, u[0], le)[0] == u[0];
      assert RankedWith(v, u[0], le)[0] == v[0];
      forall k
        ensures RankedWith(u[1..], k, le) == RankedWith(v[1..], k, le)
      {
        assert RankedWith(u, k, le) == RankedWith(v, k, le);
        var own := if le(u[0], k) && le(k, u[0]) then [u[0]] else [];
        assert RankedWith(u, k, le) == own + RankedWith(u[1..], k, le);
        assert RankedWith(v, k, le) == own + RankedWith(v[1..], k, le);
        assert RankedWith(u[1..], k, le) == (own + RankedWith(u[1..], k, le))[|own|..];
        assert RankedWith(v[1..], k, le) == (own + RankedWith(v[1..], k, le))[|own|..];
      }
      StableSortIsUnique(u[1..], v[1..], le);
    }
  }

  /** `shown` is `rows` put in order: nothing added or lost, and rows of equal rank in their old order. */
  ghost predicate Arranged<T(!new)>(shown: seq<T>, rows: seq<T>, le: (T, T) -> bool) {
    && SortedBy(shown, le) && multiset(shown) == multiset(rows)
    && forall k :: RankedWith(shown, k, le) == RankedWith(rows, k, le)
  }

  /** Sorting arranges, and is the only way to: any arranged list is the sorted one. */
  lemma SortArranges<T(!new)>(shown: seq<T>, rows: seq<T>, le: (T, T) -> bool)
    requires TotalPreorder(le)
    ensures Arranged(shown, rows, le) <==> shown == Sort(rows, le)
  {
    SortIsSorted(rows, le);
    forall k
      ensures RankedWith(Sort(rows, le), k, le) == RankedWith(rows, k, le)
    {
      SortIsStable(rows, k, le);
    }
    if Arranged(shown, rows, le) {
      forall k
        ensures RankedWith(shown, k, le) == RankedWith(Sort(rows, le), k, le)
      {
        assert RankedWith(shown, k, le) == RankedWith(rows, k, le);
      }
      StableSortIsUnique(shown, Sort(rows, le), le);
    }
  }

  lemma ArrangedMembers<T(!new)>(shown: seq<T>, rows: seq<T>, le: (T, T) -> bool)
    requires Arranged(shown, rows, le)
    ensures forall x :: x in shown <==> x in rows
  {
    forall x
      ensures x in shown <==> x in rows
    {
      assert x in multiset(shown) <==> x in multiset(rows);
    }
  }

  lemma {:induction false} SumSorted<T>(s: seq<T>, le: (T, T) -> bool, weight: T -> nat)
    ensures Sum(Sort(s, le), weight) == Sum(s, weight)
  {
    if s == [] {
    } else {
      SumSorted(s[1..], le, weight);
      SumInsert(s[0], Sort(s[1..], le), le, weight);
    }
  }

  lemma {:induction false} SumInsert<T>(x: T, s: seq<T>, le: (T, T) -> bool, weight: T -> nat)
    ensures Sum(Insert(x, s, le), weight) == weight(x) + Sum(s, weight)
  {
    assert ([x] + s)[1..] == s;
    if s != [] && !le(x, s[0]) {
      SumInsert(x, s[1..], le, weight);
      assert ([s[0]] + Insert(x, s[1..], le))[1..] == Insert(x, s[1..], le);
    }
  }

  // ----- texts in dictionary order

  predicate TextLe(a: string, b: string) {
    a == "" || (b != "" && (a[0] < b[0] || (a[0] == b[0] && TextLe(a[1..], b[1..]))))
  }

  lemma {:induction false} TextLeTotal(a: string, b: string)
    ensures TextLe(a, b) || TextLe(b, a)
    ensures TextLe(a, b) && TextLe(b, a) ==> a == b
  {
    if a != "" && b != "" && a[0] == b[0] {
      TextLeTotal(a[1..], b[1..]);
      assert a == [a[0]] + a[1..] && b == [b[0]] + b[1..];
    }
  }

  lemma {:induction false} TextLeTransitive(a: string, b: string, c: string)
    requires TextLe(a, b) && TextLe(b, c)
    ensures TextLe(a, c)
  {
    if a != "" && a[0] == b[0] == c[0] {
      TextLeTransitive(a[1..], b[1..], c[1..]);
    }
  }

  /** `k` is where two texts first differ, both going on there. */
  ghost predicate DifferAt(a: string, b: string, k: nat) {
    k < |a| && k < |b| && a[..k] == b[..k] && a[k] != b[k]
  }

  lemma SameStart(a: string, b: string, k: nat)
    requires 0 < k <= |a| && k <= |b| && a[..k] == b[..k]
    ensures a[0] == b[0]
  {
    assert a[..k][0] == a[0] && b[..k][0] == b[0];
  }

  /** Dictionary order: one text begins the other, or the first different character decides. */
  lemma {:induction false} TextLeIs(a: string, b: string)
    ensures a <= b ==> TextLe(a, b)
    ensures b < a ==> !TextLe(a, b)
    ensures forall k: nat :: DifferAt(a, b, k) ==> (TextLe(a, b) <==> a[k] < b[k])
    ensures a <= b || b < a || exists k: nat :: DifferAt(a, b, k)
  {
    if a == "" || b == "" {
    } else if a[0] != b[0] {
      assert DifferAt(a, b, 0);
      forall k: nat | DifferAt(a, b, k)
        ensures k == 0
      {
        if k > 0 {
          SameStart(a, b, k);
        }
      }
    } else {
      TextLeIs(a[1..], b[1..]);
      assert a == [a[0]] + a[1..] && b == [b[0]] + b[1..];
      forall k: nat | DifferAt(a, b, k)
        ensures k > 0 && DifferAt(a[1..], b[1..], k - 1)
      {
        assert a[1..][..k - 1] == a[..k][1..] && b[1..][..k - 1] == b[..k][1..];
      }
      if k: nat :| DifferAt(a[1..], b[1..], k) {
        assert a[..k + 1] == [a[0]] + a[1..][..k] && b[..k + 1] == [b[0]] + b[1..][..k];
        assert DifferAt(a, b, k + 1);
      }
    }
  }

  /** The key (-score, first, second) that the dashboard tables sort by. */
  datatype Key = Key(score: int, first: string, second: string)

  predicate KeyLe(a: Key, b: Key) {
    a.score > b.score
    || (a.score == b.score
        && (if a.first == b.first then TextLe(a.second, b.second) else TextLe(a.first, b.first)))
  }

  lemma KeyLeTotal(a: Key, b: Key)
    ensures KeyLe(a, b) || KeyLe(b, a)
    ensures KeyLe(a, b) && KeyLe(b, a) ==> a == b
  {
    TextLeTotal(a.first, b.first);
    TextLeTotal(a.second, b.second);
  }

  lemma KeyLeTransitive(a: Key, b: Key, c: Key)
    requires KeyLe(a, b) && KeyLe(b, c)
    ensures KeyLe(a, c)
  {
    if a.score == b.score == c.score {
      if a.first == b.first == c.first {
        TextLeTransitive(a.second, b.second, c.second);
      } else if a.first != b.first && b.first != c.first {
        TextLeTransitive(a.first, b.first, c.first);
        TextLeTotal(a.first, b.first);
      }
    }
  }

  /** Ordering by keys is a total preorder, whatever the keys are. */
  lemma KeyOrder<T(!new)>(key: T -> Key, le: (T, T) -> bool)
    requires forall x, y :: le(x, y) == KeyLe(key(x), key(y))
    ensures TotalPreorder(le)
  {
    forall x, y
      ensures le(x, y) || le(y, x)
    {
      KeyLeTotal(key(x), key(y));
    }
    forall x, y, z | le(x, y) && le(y, z)
      ensures le(x, z)
    {
      KeyLeTransitive(key(x), key(y), key(z));
    }
  }
}
