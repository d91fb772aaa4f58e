/** Small facts about sequences shared by several modules. */
module Sequences {

  predicate Distinct<T(==)>(s: seq<T>) {
    forall i, j | 0 <= i < j < |s| :: s[i] != s[j]
  }

  /** The elements of `s` in the order of their first occurrences. */
  function Dedupe<T(==,!new)>(s: seq<T>): (r: seq<T>)
    ensures Distinct(r)
    ensures forall x :: x in r <==> x in s
    ensures s != [] ==> r != [] && r[0] == s[0]
    ensures Distinct(s) ==> r == s
  {
    if s == [] then []
    else
      var front := Dedupe(s[..|s| - 1]);
      var x := s[|s| - 1];
      assert s == s[..|s| - 1] + [x];
      if x in front then front else front + [x]
  }

  function Map<T, U>(f: T -> U, s: seq<T>): (r: seq<U>)
    ensures |r| == |s|
    ensures forall i | 0 <= i < |s| :: r[i] == f(s[i])
  {
    seq(|s|, i requires 0 <= i < |s| => f(s[i]))
  }

  /** The elements that satisfy `keep`, in order. */
  function Filter<T>(keep: T -> bool, s: seq<T>): (r: seq<T>)
    ensures |r| <= |s|
    ensures forall x | x in r :: x in s && keep(x)
    ensures forall x | x in s && keep(x) :: x in r
  {
    if s == [] then []
    else
      var front := Filter(keep, s[..|s| - 1]);
      assert s == s[..|s| - 1] + [s[|s| - 1]];
      if keep(s[|s| - 1]) then front + [s[|s| - 1]] else front
  }

  /** `picks` are the places in `s` of the elements that satisfy `keep`, in order, and `part` is what stands there. */
  ghost predicate PickedAt<T>(keep: T -> bool, s: seq<T>, part: seq<T>, picks: seq<nat>) {
    && |picks| == |part|
    && (forall i | 0 <= i < |picks| :: picks[i] < |s| && s[picks[i]] == part[i])
    && (forall i, j | 0 <= i < j < |picks| :: picks[i] < picks[j])
    && (forall k: nat | k < |s| :: k in picks <==> keep(s[k]))
  }

  ghost predicate Picked<T>(keep: T -> bool, s: seq<T>, part: seq<T>) {
    exists picks :: PickedAt(keep, s, part, picks)
  }

  lemma PickedMembers<T>(keep: T -> bool, s: seq<T>, part: seq<T>)
    requires Picked(keep, s, part)
    ensures forall x :: x in part <==> x in s && keep(x)
  {
    var picks :| PickedAt(keep, s, part, picks);
    forall x | x in part ensures x in s && keep(x) {
      var i :| 0 <= i < |part| && part[i] == x;
      assert picks[i] in picks && s[picks[i]] == x;
    }
    forall x | x in s && keep(x) ensures x in part {
      var k: nat :| k < |s| && s[k] == x;
      assert k in picks;
      var i :| 0 <= i < |picks| && picks[i] == k;
      assert part[i] == x;
    }
  }

  lemma PickedOneMore<T>(keep: T -> bool, s: seq<T>, part: seq<T>, picks: seq<nat>, x: T)
    requires PickedAt(keep, s, part, picks)
    ensures keep(x) ==> PickedAt(keep, s + [x], part + [x], picks + [|s|])
    ensures !keep(x) ==> PickedAt(keep, s + [x], part, picks)
  {
    assert forall k | k in picks :: k < |s|;
    forall k: nat | k < |s + [x]| ensures k in picks <==> k < |s| && keep((s + [x])[k]) {
      if k < |s| { assert (s + [x])[k] == s[k]; }
    }
    forall k: nat | k < |s + [x]| ensures k in picks + [|s|] <==> k == |s| || (k < |s| && keep((s + [x])[k])) {}
  }

  /** Filtering picks exactly the elements that satisfy the condition, in their order. */
  lemma {:induction false} FilterPicks<T>(keep: T -> bool, s: seq<T>) returns (picks: seq<nat>)
    ensures PickedAt(keep, s, Filter(keep, s), picks)
  {
    if s == [] {
      picks := [];
    } else {
      var n := |s| - 1;
      var front := FilterPicks(keep, s[..n]);
      PickedOneMore(keep, s[..n], Filter(keep, s[..n]), front, s[n]);
      assert s == s[..n] + [s[n]];
      FilterAppend(keep, s[..n], s[n]);
      picks := if keep(s[n]) then front + [n] else front;
    }
  }

  lemma FilterAppend<T>(keep: T -> bool, s: seq<T>, x: T)
    ensures Filter(keep, s + [x]) == Filter(keep, s) + if keep(x) then [x] else []
  {
    assert (s + [x])[..|s|] == s;
  }

  lemma {:induction false} FilterConcat<T>(keep: T -> bool, s: seq<T>, t: seq<T>)
    ensures Filter(keep, s + t) == Filter(keep, s) + Filter(keep, t)
  {
    if t == [] {
      assert s + t == s;
    } else {
      var front, x := t[..|t| - 1], t[|t| - 1];
      assert t == front + [x] && s + t == s + front + [x];
      FilterConcat(keep, s, front);
      FilterAppend(keep, s + front, x);
      FilterAppend(keep, front, x);
    }
  }

  /** A filter that keeps as many elements as there are keeps everything. */
  lemma {:induction false} FilterAll<T>(keep: T -> bool, s: seq<T>)
    ensures |Filter(keep, s)| == |s| <==> forall x | x in s :: keep(x)
    ensures |Filter(keep, s)| == |s| ==> Filter(keep, s) == s
  {
    if s != [] {
      FilterAll(keep, s[..|s| - 1]);
      assert s == s[..|s| - 1] + [s[|s| - 1]];
      assert s[|s| - 1] in s;
    }
  }

  /** Filtering twice is filtering once for both conditions. */
  lemma {:induction false} FilterTwice<T(!new)>(k: T -> bool, h: T -> bool, both: T -> bool, s: seq<T>)
    requires forall x :: both(x) <==> k(x) && h(x)
    ensures Filter(k, Filter(h, s)) == Filter(both, s)
  {
    if s != [] {
      FilterTwice(k, h, both, s[..|s| - 1]);
      FilterAppend(k, Filter(h, s[..|s| - 1]), s[|s| - 1]);
    }
  }

  /** A stronger condition keeps no more. */
  lemma {:induction false} FilterFewer<T(!new)>(k: T -> bool, h: T -> bool, s: seq<T>)
    requires forall x :: k(x) ==> h(x)
    ensures |Filter(k, s)| <= |Filter(h, s)|
  {
    if s != [] { FilterFewer(k, h, s[..|s| - 1]); }
  }

  lemma {:induction false} FilterNone<T>(keep: T -> bool, s: seq<T>)
    requires forall x | x in s :: !keep(x)
    ensures Filter(keep, s) == []
  {
    if s != [] {
      assert s[|s| - 1] in s;
      FilterNone(keep, s[..|s| - 1]);
    }
  }

  predicate Pairwise<T(!new)>(rel: (T, T) -> bool, s: seq<T>) {
    forall i, j | 0 <= i < j < |s| :: rel(s[i], s[j])
  }

  /** A relation between earlier and later elements survives filtering. */
  lemma {:induction false} FilterPairwise<T(!new)>(keep: T -> bool, s: seq<T>, rel: (T, T) -> bool)
    requires Pairwise(rel, s)
    ensures Pairwise(rel, Filter(keep, s))
  {
    if s != [] {
      var n := |s| - 1;
      FilterPairwise(keep, s[..n], rel);
      var front := Filter(keep, s[..n]);
      forall i | 0 <= i < |front| ensures rel(front[i], s[n]) {
        assert front[i] in s[..n];
      }
    }
  }

  lemma Associate<T>(x: seq<T>, y: seq<T>, z: seq<T>)
    ensures x + (y + z) == (x + y) + z
  {}
}
