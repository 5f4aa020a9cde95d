/** Filtering a sequence, as the program's list comprehensions do. */
module Selections {

  function Selected<T(!new)>(xs: seq<T>, keep: T -> bool): (found: seq<T>)
    ensures forall x :: x in found <==> x in xs && keep(x)
  {
    if xs == [] then []
    else (if keep(xs[0]) then [xs[0]] else []) + Selected(xs[1..], keep)
  }

  /** Positions `at` of `xs` hold what was selected, in order, and no other position holds a kept element. */
  ghost predicate Places<T(!new)>(xs: seq<T>, keep: T -> bool, found: seq<T>, at: seq<nat>) {
    && |at| == |found|
    && (forall i :: 0 <= i < |at| ==> at[i] < |xs| && found[i] == xs[at[i]])
    && (forall i, j :: 0 <= i < j < |at| ==> at[i] < at[j])
    && (forall k: nat :: k < |xs| && keep(xs[k]) <==> k in at)
  }

  lemma {:induction false} SelectedConcat<T(!new)>(a: seq<T>, b: seq<T>, keep: T -> bool)
    ensures Selected(a + b, keep) == Selected(a, keep) + Selected(b, keep)
  {
    if a == [] {
      assert a + b == b;
    } else {
      assert (a + b)[1..] == a[1..] + b;
      SelectedConcat(a[1..], b, keep);
    }
  }

  lemma SelectedSnoc<T(!new)>(front: seq<T>, x: T, keep: T -> bool)
    ensures Selected(front + [x], keep) == if keep(x) then Selected(front, keep) + [x] else Selected(front, keep)
  {
    SelectedConcat(front, [x], keep);
    assert [x][1..] == [];
  }

  /** The selection is exactly the kept elements, each as often as it occurs and in order. */
  lemma {:induction false} SelectedPositions<T(!new)>(xs: seq<T>, keep: T -> bool) returns (at: seq<nat>)
    ensures Places(xs, keep, Selected(xs, keep), at)
  {
    if xs == [] {
      at := [];
    } else {
      var front, x := xs[..|xs| - 1], xs[|xs| - 1];
      assert xs == front + [x];
      SelectedSnoc(front, x, keep);
      at := SelectedPositions(front, keep);
      at := PlaceLast(front, x, keep, Selected(front, keep), at);
    }
  }

  lemma PlaceLast<T(!new)>(front: seq<T>, x: T, keep: T -> bool, found: seq<T>, before: seq<nat>) returns (at: seq<nat>)
    requires Places(front, keep, found, before)
    ensures Places(front + [x], keep, if keep(x) then found + [x] else found, at)
  {
    var n := |front|;
    at := if keep(x) then before + [n] else before;
    forall k: nat ensures k < |front + [x]| && keep((front + [x])[k]) <==> k in at {
      if k < n {
        assert (front + [x])[k] == front[k];
      } else {
        assert k !in before;
        assert k == n ==> (front + [x])[k] == x;
      }
    }
  }

  /** The position of the last kept element. */
  ghost predicate LastKept<T(!new)>(xs: seq<T>, keep: T -> bool, k: nat) {
    k < |xs| && keep(xs[k]) && forall j :: k < j < |xs| ==> !keep(xs[j])
  }

  lemma {:induction false} SelectedNone<T(!new)>(xs: seq<T>, keep: T -> bool)
    requires forall k :: 0 <= k < |xs| ==> !keep(xs[k])
    ensures Selected(xs, keep) == []
  {
    if xs != [] {
      SelectedNone(xs[1..], keep);
    }
  }

  lemma {:induction false} SelectedLast<T(!new)>(xs: seq<T>, keep: T -> bool, k: nat)
    requires LastKept(xs, keep, k)
    ensures Selected(xs, keep) != [] && Selected(xs, keep)[|Selected(xs, keep)| - 1] == xs[k]
  {
    if k > 0 {
      assert xs[1..][k - 1] == xs[k];
      SelectedLast(xs[1..], keep, k - 1);
    } else {
      SelectedNone(xs[1..], keep);
    }
  }

  lemma {:induction false} SelectedHasLast<T(!new)>(xs: seq<T>, keep: T -> bool) returns (k: nat)
    requires Selected(xs, keep) != []
    ensures LastKept(xs, keep, k) && Selected(xs, keep)[|Selected(xs, keep)| - 1] == xs[k]
  {
    var at := SelectedPositions(xs, keep);
    k := at[|at| - 1];
    LastPlace(xs, keep, Selected(xs, keep), at);
  }

  lemma LastPlace<T(!new)>(xs: seq<T>, keep: T -> bool, found: seq<T>, at: seq<nat>)
    requires Places(xs, keep, found, at) && at != []
    ensures LastKept(xs, keep, at[|at| - 1])
  {
    var k := at[|at| - 1];
    assert k in at && forall i :: 0 <= i < |at| ==> at[i] <= k;
    forall j: nat | k < j < |xs| ensures !keep(xs[j]) {
      assert j !in at;
    }
  }

  /** A selection from a selection is one selection. */
  lemma {:induction false} SelectedTwice<T(!new)>(xs: seq<T>, p: T -> bool, q: T -> bool, both: T -> bool)
    requires forall x :: x in xs ==> both(x) == (p(x) && q(x))
    ensures Selected(Selected(xs, p), q) == Selected(xs, both)
  {
    if xs != [] {
      SelectedTwice(xs[1..], p, q, both);
      var first := if p(xs[0]) then [xs[0]] else [];
      SelectedConcat(first, Selected(xs[1..], p), q);
      assert first[|first|..] == [];
    }
  }
}
