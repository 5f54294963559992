/** Lists without repetition, and the two small result types shared by the models. */
module Lists {

  datatype Option<+T> = None | Some(value: T)

  datatype Result<+T, +E> = Ok(value: T) | Err(error: E)

  ghost predicate Distinct<T>(s: seq<T>) {
    forall i, j :: 0 <= i < j < |s| ==> s[i] != s[j]
  }

  ghost function Elements<T>(s: seq<T>): set<T> {
    set x | x in s
  }

  lemma {:induction false} DistinctSize<T>(s: seq<T>)
    requires Distinct(s)
    ensures |Elements(s)| == |s|
  {
    if s == [] {
    } else {
      var init, last := s[..|s| - 1], s[|s| - 1];
      DistinctSize(init);
      assert Elements(s) == Elements(init) + {last};
    }
  }

  lemma DistinctAppend<T>(s: seq<T>, x: T)
    requires Distinct(s) && x !in s
    ensures Distinct(s + [x])
    ensures Elements(s + [x]) == Elements(s) + {x}
  {
  }

  lemma DistinctJoin<T>(s: seq<T>, t: seq<T>)
    requires Distinct(s) && Distinct(t) && forall x :: x in t ==> x !in s
    ensures Distinct(s + t)
  {
    var u := s + t;
    forall i, j | 0 <= i < j < |u|
      ensures u[i] != u[j]
    {
      if i < |s| <= j {
        assert u[j] == t[j - |s|] && u[j] in t;
      }
    }
  }

  lemma {:induction false} SubsetSize<T>(a: set<T>, b: set<T>)
    requires a <= b
    ensures |a| <= |b|
  {
    assert b == a + (b - a);
  }

  lemma TakeElements<T>(s: seq<T>, i: nat)
    requires i < |s|
    ensures Elements(s[..i + 1]) == Elements(s[..i]) + {s[i]}
  {
  }

  lemma DropAppend<T>(s: seq<T>, d: nat, x: T)
    requires d <= |s|
    ensures (s + [x])[d..] == s[d..] + [x]
  {
  }

  lemma {:induction false} DistinctMeansOnce<T>(s: seq<T>)
    ensures Distinct(s) <==> forall x :: multiset(s)[x] <= 1
  {
    if s == [] {
    } else {
      var init, last := s[..|s| - 1], s[|s| - 1];
      DistinctMeansOnce(init);
      assert s == init + [last];
      if Distinct(s) {
        assert last !in init && last !in multiset(init);
      }
      if last in multiset(init) {
        assert multiset(s)[last] > 1;
      } else if forall x :: multiset(s)[x] <= 1 {
        assert forall x :: multiset(init)[x] <= multiset(s)[x];
        DistinctAppend(init, last);
      }
    }
  }

  lemma DistinctRearranged<T>(s: seq<T>, t: seq<T>)
    requires Distinct(s) && multiset(s) == multiset(t)
    ensures Distinct(t)
  {
    DistinctMeansOnce(s);
    DistinctMeansOnce(t);
  }

  // ----- selections

  ghost predicate Increasing(places: seq<nat>) {
    forall j, k :: 0 <= j < k < |places| ==> places[j] < places[k]
  }

  /** `part` shows, in the old order, what stands at these places of `all`. */
  ghost predicate ShowsPlaces<T(!new)>(part: seq<T>, all: seq<T>, places: seq<nat>) {
    && |places| == |part| && Increasing(places)
    && forall k :: 0 <= k < |part| ==> places[k] < |all| && part[k] == all[places[k]]
  }

  ghost predicate SelectsAt<T(!new)>(part: seq<T>, all: seq<T>, keep: T -> bool, places: seq<nat>) {
    ShowsPlaces(part, all, places) && forall i: nat :: i < |all| ==> (keep(all[i]) <==> i in places)
  }

  /** `part` is what `keep` keeps of `all`, each occurrence, in the old order. */
  ghost predicate IsSelection<T(!new)>(part: seq<T>, all: seq<T>, keep: T -> bool) {
    exists places :: SelectsAt(part, all, keep, places)
  }

  lemma NothingSelected<T(!new)>(keep: T -> bool)
    ensures IsSelection([], [], keep)
  {
    assert SelectsAt([], [], keep, []);
  }

  lemma PlacesInside<T(!new)>(part: seq<T>, all: seq<T>, places: seq<nat>, i: nat)
    requires ShowsPlaces(part, all, places) && i in places
    ensures i < |all|
  {
    var k :| 0 <= k < |places| && places[k] == i;
  }

  lemma KeepStep<T(!new)>(part: seq<T>, all: seq<T>, x: T, keep: T -> bool, places: seq<nat>)
    requires SelectsAt(part, all, keep, places) && keep(x)
    ensures SelectsAt(part + [x], all + [x], keep, places + [|all|])
  {
    forall k | 0 <= k < |places|
      ensures places[k] < |all|
    {
      assert places[k] in places;
      PlacesInside(part, all, places, places[k]);
    }
    assert ShowsPlaces(part + [x], all + [x], places + [|all|]);
    forall i: nat | i < |all + [x]|
      ensures keep((all + [x])[i]) <==> i in places + [|all|]
    {
      assert i in places + [|all|] <==> i in places || i == |all|;
    }
  }

  lemma SkipStep<T(!new)>(part: seq<T>, all: seq<T>, x: T, keep: T -> bool, places: seq<nat>)
    requires SelectsAt(part, all, keep, places) && !keep(x)
    ensures SelectsAt(part, all + [x], keep, places)
  {
    var n: nat := |all|;
    if n in places {
      PlacesInside(part, all, places, n);
    }
  }

  lemma SelectionStep<T(!new)>(part: seq<T>, all: seq<T>, x: T, keep: T -> bool)
    requires IsSelection(part, all, keep)
    ensures IsSelection(if keep(x) then part + [x] else part, all + [x], keep)
  {
    var places :| SelectsAt(part, all, keep, places);
    if keep(x) {
      KeepStep(part, all, x, keep, places);
    } else {
      SkipStep(part, all, x, keep, places);
    }
  }

  lemma SelectionMembers<T(!new)>(part: seq<T>, all: seq<T>, keep: T -> bool)
    requires IsSelection(part, all, keep)
    ensures forall x :: x in part <==> x in all && keep(x)
  {
    var places :| SelectsAt(part, all, keep, places);
    forall x | x in all && keep(x)
      ensures x in part
    {
      var i: nat :| i < |all| && all[i] == x;
      var k :| 0 <= k < |places| && places[k] == i;
      assert part[k] == x;
    }
    forall x | x in part
      ensures x in all && keep(x)
    {
      var k :| 0 <= k < |part| && part[k] == x;
      assert places[k] in places && all[places[k]] == x;
    }
  }

  // ----- chains

  /** A nonempty list that begins as `start` asks and moves on as `next` allows. */
  ghost predicate Chain<T(!new)>(l: seq<T>, start: T -> bool, next: (T, T) -> bool) {
    && l != [] && start(l[0])
    && forall i :: 0 <= i < |l| - 1 ==> next(l[i], l[i + 1])
  }

  lemma ChainAppend<T(!new)>(l: seq<T>, x: T, start: T -> bool, next: (T, T) -> bool)
    requires l != []
    ensures Chain(l + [x], start, next) <==> Chain(l, start, next) && next(l[|l| - 1], x)
  {
    var m := l + [x];
    if Chain(m, start, next) {
      forall i | 0 <= i < |l| - 1
        ensures next(l[i], l[i + 1])
      {
        assert next(m[i], m[i + 1]);
      }
      assert next(m[|l| - 1], m[|l| - 1 + 1]);
    } else if Chain(l, start, next) && next(l[|l| - 1], x) {
      forall i | 0 <= i < |m| - 1
        ensures next(m[i], m[i + 1])
      {
        if i < |l| - 1 {
          assert next(l[i], l[i + 1]);
        }
      }
    }
  }
}
