/** Sums over append-only collections. A stored collection is a sequence of rows, and every
    ledger counter is compared with the tally of some weight over such a sequence. */
module Tallies {

  /** The sum of `w` over the rows of `xs`. */
  function Tally<T>(xs: seq<T>, w: T -> nat): (total: nat) {
    if xs == [] then 0 else Tally(xs[..|xs| - 1], w) + w(xs[|xs| - 1])
  }

  lemma TallyAppend<T>(xs: seq<T>, x: T, w: T -> nat)
    ensures Tally(xs + [x], w) == Tally(xs, w) + w(x)
  {
    assert (xs + [x])[..|xs|] == xs;
  }

  lemma TallyOne<T>(x: T, w: T -> nat)
    ensures Tally([x], w) == w(x)
  {
    assert [x] == [] + [x];
    TallyAppend([], x, w);
  }

  /** Replacing one row moves the tally by exactly the difference of the two weights. */
  lemma {:induction false} TallyUpdate<T>(xs: seq<T>, i: nat, x: T, w: T -> nat)
    requires i < |xs|
    ensures Tally(xs[i := x], w) + w(xs[i]) == Tally(xs, w) + w(x)
  {
    var n := |xs| - 1;
    var ys := xs[i := x];
    if i == n {
      assert ys[..n] == xs[..n];
    } else {
      assert ys[..n] == xs[..n][i := x];
      TallyUpdate(xs[..n], i, x, w);
    }
  }

  /** If the weights add up row by row, the tallies add up. */
  lemma {:induction false} TallySplit<T, U, V>(xs: seq<T>, u: T -> nat, ys: seq<U>, v: U -> nat, zs: seq<V>, w: V -> nat)
    requires |xs| == |ys| == |zs|
    requires forall i :: 0 <= i < |xs| ==> u(xs[i]) == v(ys[i]) + w(zs[i])
    ensures Tally(xs, u) == Tally(ys, v) + Tally(zs, w)
  {
    if xs != [] {
      var n := |xs| - 1;
      TallySplit(xs[..n], u, ys[..n], v, zs[..n], w);
    }
  }

  /** Rows of equal weight have equal tallies, whatever their other fields are. */
  lemma {:induction false} TallyEqual<T, U>(xs: seq<T>, u: T -> nat, ys: seq<U>, v: U -> nat)
    requires |xs| == |ys|
    requires forall i :: 0 <= i < |xs| ==> u(xs[i]) == v(ys[i])
    ensures Tally(xs, u) == Tally(ys, v)
  {
    if xs != [] {
      var n := |xs| - 1;
      TallyEqual(xs[..n], u, ys[..n], v);
    }
  }

  lemma {:induction false} TallyAtMost<T, U>(xs: seq<T>, u: T -> nat, ys: seq<U>, v: U -> nat)
    requires |xs| == |ys|
    requires forall i :: 0 <= i < |xs| ==> u(xs[i]) <= v(ys[i])
    ensures Tally(xs, u) <= Tally(ys, v)
  {
    if xs != [] {
      var n := |xs| - 1;
      TallyAtMost(xs[..n], u, ys[..n], v);
    }
  }

  lemma {:induction false} TallyMember<T>(xs: seq<T>, i: nat, w: T -> nat)
    requires i < |xs|
    ensures w(xs[i]) <= Tally(xs, w)
  {
    var n := |xs| - 1;
    if i < n {
      TallyMember(xs[..n], i, w);
    }
  }

  lemma {:induction false} TallyTwoMembers<T>(xs: seq<T>, i: nat, j: nat, w: T -> nat)
    requires i < j < |xs|
    ensures w(xs[i]) + w(xs[j]) <= Tally(xs, w)
  {
    var n := |xs| - 1;
    if j < n {
      TallyTwoMembers(xs[..n], i, j, w);
    } else {
      TallyMember(xs[..n], i, w);
    }
  }

  lemma {:induction false} TallyConstant<T>(xs: seq<T>, w: T -> nat, c: nat)
    requires forall i :: 0 <= i < |xs| ==> w(xs[i]) == c
    ensures Tally(xs, w) == |xs| * c
  {
    if xs != [] {
      var n := |xs| - 1;
      TallyConstant(xs[..n], w, c);
      assert (n + 1) * c == n * c + c;
    }
  }

  lemma {:induction false} TallyZero<T>(xs: seq<T>, w: T -> nat)
    requires forall i :: 0 <= i < |xs| ==> w(xs[i]) == 0
    ensures Tally(xs, w) == 0
  {
    if xs != [] {
      TallyZero(xs[..|xs| - 1], w);
    }
  }

  /** The rows at the given positions. */
  function At<T>(xs: seq<T>, positions: seq<nat>): (rows: seq<T>)
    requires forall k :: 0 <= k < |positions| ==> positions[k] < |xs|
    ensures |rows| == |positions|
    ensures forall k :: 0 <= k < |rows| ==> rows[k] == xs[positions[k]]
  {
    seq(|positions|, k requires 0 <= k < |positions| => xs[positions[k]])
  }

  predicate Distinct(positions: seq<nat>) {
    forall j, k :: 0 <= j < k < |positions| ==> positions[j] != positions[k]
  }

  /** The listing without its `p`-th position. */
  function Without(positions: seq<nat>, p: nat): (rest: seq<nat>)
    requires p < |positions|
    ensures |rest| == |positions| - 1
    ensures forall k :: 0 <= k < |rest| ==> rest[k] == positions[if k < p then k else k + 1]
  {
    positions[..p] + positions[p + 1..]
  }

  lemma WithoutDistinct(positions: seq<nat>, p: nat)
    requires p < |positions| && Distinct(positions)
    ensures Distinct(Without(positions, p)) && positions[p] !in Without(positions, p)
  {
    var rest := Without(positions, p);
    forall j, k | 0 <= j < k < |rest| ensures rest[j] != rest[k] {
      assert rest[j] == positions[if j < p then j else j + 1];
      assert rest[k] == positions[if k < p then k else k + 1];
    }
  }

  lemma WithoutKeepsOthers(positions: seq<nat>, p: nat, i: nat)
    requires p < |positions| && i in positions && i != positions[p]
    ensures i in Without(positions, p)
  {
    var k :| 0 <= k < |positions| && positions[k] == i;
    assert Without(positions, p)[if k < p then k else k - 1] == i;
  }

  /** A query that lists, once each and in any order, every row of non-zero weight sees the whole tally. */
  lemma {:induction false} TallyOfListing<T>(xs: seq<T>, positions: seq<nat>, w: T -> nat)
    requires forall k :: 0 <= k < |positions| ==> positions[k] < |xs|
    requires Distinct(positions)
    requires forall i :: 0 <= i < |xs| && w(xs[i]) != 0 ==> i in positions
    ensures Tally(At(xs, positions), w) == Tally(xs, w)
    decreases |xs|
  {
    if xs != [] {
      var n := |xs| - 1;
      if n in positions {
        var p :| 0 <= p < |positions| && positions[p] == n;
        TallyOfListingLast(xs, positions, p, w);
      } else {
        TallyOfListing(xs[..n], positions, w);
        assert At(xs[..n], positions) == At(xs, positions);
      }
    }
  }

  lemma {:induction false} TallyOfListingLast<T>(xs: seq<T>, positions: seq<nat>, p: nat, w: T -> nat)
    requires xs != [] && p < |positions| && positions[p] == |xs| - 1
    requires forall k :: 0 <= k < |positions| ==> positions[k] < |xs|
    requires Distinct(positions)
    requires forall i :: 0 <= i < |xs| && w(xs[i]) != 0 ==> i in positions
    ensures Tally(At(xs, positions), w) == Tally(xs, w)
    decreases |xs|, 0
  {
    var n := |xs| - 1;
    var rest := Without(positions, p);
    WithoutDistinct(positions, p);
    forall k | 0 <= k < |rest| ensures rest[k] < n {
      assert rest[k] in rest;
    }
    assert forall i :: 0 <= i < n && w(xs[..n][i]) != 0 ==> i in rest by {
      forall i | 0 <= i < n && w(xs[..n][i]) != 0 ensures i in rest {
        WithoutKeepsOthers(positions, p, i);
      }
    }
    TallyOfListing(xs[..n], rest, w);
    AtWithout(xs, positions, p);
    TallyRemove(At(xs, positions), p, w);
  }

  lemma AtWithout<T>(xs: seq<T>, positions: seq<nat>, p: nat)
    requires xs != [] && p < |positions|
    requires forall k :: 0 <= k < |positions| ==> positions[k] < |xs|
    requires forall k :: 0 <= k < |Without(positions, p)| ==> Without(positions, p)[k] < |xs| - 1
    ensures At(xs[..|xs| - 1], Without(positions, p)) == At(xs, positions)[..p] + At(xs, positions)[p + 1..]
  {
    var rows := At(xs, positions);
    var rest := Without(positions, p);
    var others := rows[..p] + rows[p + 1..];
    forall k | 0 <= k < |rest| ensures At(xs[..|xs| - 1], rest)[k] == others[k] {
      assert others[k] == rows[if k < p then k else k + 1];
    }
  }

  lemma {:induction false} TallyRemove<T>(xs: seq<T>, p: nat, w: T -> nat)
    requires p < |xs|
    ensures Tally(xs, w) == Tally(xs[..p] + xs[p + 1..], w) + w(xs[p])
  {
    var n := |xs| - 1;
    if p == n {
      assert xs[..p] + xs[p + 1..] == xs[..n];
    } else {
      TallyRemove(xs[..n], p, w);
      var rest := xs[..p] + xs[p + 1..];
      assert rest[..|rest| - 1] == xs[..n][..p] + xs[..n][p + 1..];
    }
  }
}
