/** How a list of records may change over time: records move in place, old ones
    may be dropped, new ones appear at the end. */
module Lineage {

  /** `b` comes from `a`: some records of `a` are gone, the others have moved by
      `step` in their order, and whatever follows was `born` meanwhile. */
  ghost predicate Evolves<T(!new)>(a: seq<T>, b: seq<T>, step: (T, T) -> bool, born: T -> bool) {
    if a == [] then forall x | x in b :: born(x)
    else
      || Evolves(a[1..], b, step, born)
      || (b != [] && step(a[0], b[0]) && Evolves(a[1..], b[1..], step, born))
  }

  ghost predicate Orderly<T(!new)>(step: (T, T) -> bool, born: T -> bool) {
    && (forall x :: step(x, x))
    && (forall x, y, z :: step(x, y) && step(y, z) ==> step(x, z))
    && (forall x, y :: born(x) && step(x, y) ==> born(y))
  }

  lemma {:induction false} Stays<T(!new)>(a: seq<T>, step: (T, T) -> bool, born: T -> bool)
    requires Orderly(step, born)
    ensures Evolves(a, a, step, born)
  {
    if a != [] { Stays(a[1..], step, born); }
  }

  lemma {:induction false} BornStays<T(!new)>(a: seq<T>, b: seq<T>, step: (T, T) -> bool, born: T -> bool)
    requires Orderly(step, born) && Evolves(a, b, step, born)
    requires forall x | x in a :: born(x)
    ensures forall x | x in b :: born(x)
  {
    if a != [] {
      assert forall x | x in a[1..] :: x in a;
      if Evolves(a[1..], b, step, born) {
        BornStays(a[1..], b, step, born);
      } else {
        BornStays(a[1..], b[1..], step, born);
        assert b == [b[0]] + b[1..];
      }
    }
  }

  lemma {:induction false} Composes<T(!new)>(a: seq<T>, b: seq<T>, c: seq<T>, step: (T, T) -> bool, born: T -> bool)
    requires Orderly(step, born)
    requires Evolves(a, b, step, born) && Evolves(b, c, step, born)
    ensures Evolves(a, c, step, born)
    decreases |a|, |b|
  {
    if a == [] {
      BornStays(b, c, step, born);
    } else if Evolves(a[1..], b, step, born) {
      Composes(a[1..], b, c, step, born);
    } else if Evolves(b[1..], c, step, born) {
      Composes(a[1..], b[1..], c, step, born);
    } else {
      Composes(a[1..], b[1..], c[1..], step, born);
      assert step(a[0], c[0]);
    }
  }

  lemma {:induction false} Moves<T(!new)>(a: seq<T>, i: nat, x: T, step: (T, T) -> bool, born: T -> bool)
    requires Orderly(step, born) && i < |a| && step(a[i], x)
    ensures Evolves(a, a[i := x], step, born)
  {
    if i == 0 {
      Stays(a[1..], step, born);
      assert a[0 := x][1..] == a[1..];
    } else {
      Moves(a[1..], i - 1, x, step, born);
      assert a[i := x][1..] == a[1..][i - 1 := x];
    }
  }

  lemma {:induction false} Grows<T(!new)>(a: seq<T>, more: seq<T>, step: (T, T) -> bool, born: T -> bool)
    requires Orderly(step, born) && forall x | x in more :: born(x)
    ensures Evolves(a, a + more, step, born)
  {
    if a == [] {
      assert a + more == more;
    } else {
      Grows(a[1..], more, step, born);
      assert (a + more)[1..] == a[1..] + more;
    }
  }

  /** Every later record descends from an earlier one or was born meanwhile. */
  lemma {:induction false} Descends<T(!new)>(a: seq<T>, b: seq<T>, step: (T, T) -> bool, born: T -> bool, y: T)
    requires Evolves(a, b, step, born) && y in b
    ensures born(y) || exists x | x in a :: step(x, y)
  {
    if a != [] {
      if Evolves(a[1..], b, step, born) {
        Descends(a[1..], b, step, born, y);
      } else if y != b[0] {
        assert b == [b[0]] + b[1..];
        Descends(a[1..], b[1..], step, born, y);
      } else {
        assert a[0] in a;
      }
    }
  }

  /** `at` says which earlier record each of the first later records descends from: the order is
      kept, and no two descend from the same one. */
  ghost predicate Matching<T(!new)>(a: seq<T>, b: seq<T>, step: (T, T) -> bool, at: seq<nat>) {
    && |at| <= |b|
    && (forall j | 0 <= j < |at| :: at[j] < |a| && step(a[at[j]], b[j]))
    && (forall i, j | 0 <= i < j < |at| :: at[i] < at[j])
  }
  function Shifted(at: seq<nat>): (r: seq<nat>)
    ensures |r| == |at| && forall j | 0 <= j < |at| :: r[j] == at[j] + 1
  {
    seq(|at|, j requires 0 <= j < |at| => at[j] + 1)
  }
  /** Later records are matched with earlier ones, and the rest was born meanwhile. */
  lemma {:induction false} Matches<T(!new)>(a: seq<T>, b: seq<T>, step: (T, T) -> bool,
                                            born: T -> bool) returns (at: seq<nat>)
    requires Evolves(a, b, step, born)
    ensures Matching(a, b, step, at)
    ensures forall j | |at| <= j < |b| :: born(b[j])
    ensures (forall x :: !born(x)) ==> |at| == |b|
  {
    if a == [] {
      at := [];
      assert b != [] ==> b[0] in b;
    } else if Evolves(a[1..], b, step, born) {
      var rest := Matches(a[1..], b, step, born);
      at := Shifted(rest);
    } else {
      var rest := Matches(a[1..], b[1..], step, born);
      at := [0] + Shifted(rest);
      forall j | 0 <= j < |at| ensures at[j] < |a| && step(a[at[j]], b[j]) {
        if j > 0 { assert at[j] == rest[j - 1] + 1 && b[j] == b[1..][j - 1]; }
      }
      forall j | |at| <= j < |b| ensures born(b[j]) { assert b[j] == b[1..][j - 1]; }
    }
  }
}
