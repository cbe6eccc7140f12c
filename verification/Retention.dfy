/** Bounded history: every live entry survives, plus the most recent others.
    Models the in-memory trim of the Feishu bridge. */
module Retention {

  /** The last `limit` items, as JavaScript's `slice(-limit)` for a positive limit. */
  function Tail<T>(items: seq<T>, limit: nat): (r: seq<T>)
    ensures |r| <= limit && |r| <= |items|
    ensures |items| <= limit ==> r == items
    ensures |items| > limit ==> |r| == limit
  {
    if |items| <= limit then items else items[|items| - limit..]
  }

  /** The items whose key is in `keys`, in order. */
  function Pick<T, K(==)>(items: seq<T>, keys: set<K>, keyOf: T -> K): seq<T> {
    if items == [] then []
    else (if keyOf(items[0]) in keys then [items[0]] else []) + Pick(items[1..], keys, keyOf)
  }

  /** The items whose key is not in `keys`, in order. */
  function Omit<T, K(==)>(items: seq<T>, keys: set<K>, keyOf: T -> K): seq<T> {
    if items == [] then []
    else (if keyOf(items[0]) in keys then [] else [items[0]]) + Omit(items[1..], keys, keyOf)
  }

  function Keys<T(==), K(==)>(items: seq<T>, keyOf: T -> K): set<K> {
    set x | x in items :: keyOf(x)
  }

  ghost predicate Unique<T(!new), K(!new)>(items: seq<T>, keyOf: T -> K) {
    forall i, j | 0 <= i < j < |items| :: keyOf(items[i]) != keyOf(items[j])
  }

  /** What the trim leaves: the live keys and the keys of the last `limit` others. */
  function Retained<T(==), K(==)>(items: seq<T>, limit: nat, live: set<K>, keyOf: T -> K): seq<T> {
    Pick(items, live + Keys(Tail(Omit(items, live, keyOf), limit), keyOf), keyOf)
  }

  lemma OmitStep<T, K>(items: seq<T>, i: nat, keys: set<K>, keyOf: T -> K, done: seq<T>)
    requires i < |items|
    ensures done + Omit(items[i..], keys, keyOf)
      == (if keyOf(items[i]) in keys then done else done + [items[i]]) + Omit(items[i + 1..], keys, keyOf)
  {
    assert items[i..][1..] == items[i + 1..];
  }

  lemma PickStep<T, K>(items: seq<T>, i: nat, keys: set<K>, keyOf: T -> K, done: seq<T>)
    requires i < |items|
    ensures done + Pick(items[i..], keys, keyOf)
      == (if keyOf(items[i]) in keys then done + [items[i]] else done) + Pick(items[i + 1..], keys, keyOf)
  {
    assert items[i..][1..] == items[i + 1..];
  }

  lemma TailIsSuffix<T>(items: seq<T>, limit: nat)
    ensures Tail(items, limit) == items[|items| - |Tail(items, limit)|..]
  {}

  lemma TailAt<T>(s: seq<T>, n: nat, i: nat)
    requires i < |Tail(s, n)|
    ensures Tail(s, n)[i] == s[|s| - |Tail(s, n)| + i]
  {}

  method CollectNonLive<T, K(==)>(items: seq<T>, live: set<K>, keyOf: T -> K) returns (nonLive: seq<T>)
    ensures nonLive == Omit(items, live, keyOf)
  {
    nonLive := [];
    for i := 0 to |items|
      invariant nonLive + Omit(items[i..], live, keyOf) == Omit(items, live, keyOf)
    {
      OmitStep(items, i, live, keyOf, nonLive);
      if keyOf(items[i]) !in live { nonLive := nonLive + [items[i]]; }
    }
  }

  method FilterByKeys<T, K(==)>(items: seq<T>, keys: set<K>, keyOf: T -> K) returns (kept: seq<T>)
    ensures kept == Pick(items, keys, keyOf)
  {
    kept := [];
    for i := 0 to |items|
      invariant kept + Pick(items[i..], keys, keyOf) == Pick(items, keys, keyOf)
    {
      PickStep(items, i, keys, keyOf, kept);
      if keyOf(items[i]) in keys { kept := kept + [items[i]]; }
    }
  }

  /** The source's three passes: collect the non-live items, keep the last `limit`
      of their keys, and filter the original list. */
  method TailKeepingKeys<T(==), K(==)>(items: seq<T>, limit: nat, live: set<K>, keyOf: T -> K) returns (kept: seq<T>)
    ensures kept == Retained(items, limit, live, keyOf)
  {
    var nonLive := CollectNonLive(items, live, keyOf);
    var keptKeys := Keys(Tail(nonLive, limit), keyOf);
    kept := FilterByKeys(items, live + keptKeys, keyOf);
  }

  // ----- membership and algebra of Pick and Omit

  lemma {:induction false} PickMembers<T(!new), K(!new)>(items: seq<T>, keys: set<K>, keyOf: T -> K)
    ensures forall x :: x in Pick(items, keys, keyOf) <==> x in items && keyOf(x) in keys
  {
    if items != [] {
      PickMembers(items[1..], keys, keyOf);
      assert items == [items[0]] + items[1..];
    }
  }

  lemma {:induction false} OmitMembers<T(!new), K(!new)>(items: seq<T>, keys: set<K>, keyOf: T -> K)
    ensures forall x :: x in Omit(items, keys, keyOf) <==> x in items && keyOf(x) !in keys
  {
    if items != [] {
      OmitMembers(items[1..], keys, keyOf);
      assert items == [items[0]] + items[1..];
    }
  }

  lemma UniqueTail<T(!new), K(!new)>(items: seq<T>, keyOf: T -> K)
    requires Unique(items, keyOf) && items != []
    ensures Unique(items[1..], keyOf)
    ensures forall x | x in items[1..] :: keyOf(x) != keyOf(items[0])
  {
    forall i, j | 0 <= i < j < |items[1..]| ensures keyOf(items[1..][i]) != keyOf(items[1..][j]) {
      assert items[1..][i] == items[i + 1] && items[1..][j] == items[j + 1];
    }
    forall x | x in items[1..] ensures keyOf(x) != keyOf(items[0]) {
      var j :| 0 <= j < |items[1..]| && items[1..][j] == x;
      assert items[j + 1] == x;
    }
  }

  lemma {:induction false} PickUnique<T(!new), K(!new)>(items: seq<T>, keys: set<K>, keyOf: T -> K)
    requires Unique(items, keyOf)
    ensures Unique(Pick(items, keys, keyOf), keyOf)
  {
    if items != [] {
      UniqueTail(items, keyOf);
      PickUnique(items[1..], keys, keyOf);
      PickMembers(items[1..], keys, keyOf);
      var rest := Pick(items[1..], keys, keyOf);
      var all := Pick(items, keys, keyOf);
      if keyOf(items[0]) in keys {
        forall i, j | 0 <= i < j < |all| ensures keyOf(all[i]) != keyOf(all[j]) {
          if i == 0 { assert all[j] in rest; } else { assert all[i] == rest[i - 1] && all[j] == rest[j - 1]; }
        }
      }
    }
  }

  lemma {:induction false} OmitUnique<T(!new), K(!new)>(items: seq<T>, keys: set<K>, keyOf: T -> K)
    requires Unique(items, keyOf)
    ensures Unique(Omit(items, keys, keyOf), keyOf)
  {
    if items != [] {
      UniqueTail(items, keyOf);
      OmitUnique(items[1..], keys, keyOf);
      OmitMembers(items[1..], keys, keyOf);
      var rest := Omit(items[1..], keys, keyOf);
      var all := Omit(items, keys, keyOf);
      if keyOf(items[0]) !in keys {
        forall i, j | 0 <= i < j < |all| ensures keyOf(all[i]) != keyOf(all[j]) {
          if i == 0 { assert all[j] in rest; } else { assert all[i] == rest[i - 1] && all[j] == rest[j - 1]; }
        }
      }
    }
  }

  /** Omitting a set and then picking another commutes with picking from the omitted list. */
  lemma {:induction false} OmitOfPick<T(!new), K(!new)>(items: seq<T>, keys: set<K>, live: set<K>, keyOf: T -> K)
    ensures Omit(Pick(items, keys, keyOf), live, keyOf) == Pick(Omit(items, live, keyOf), keys, keyOf)
  {
    if items != [] {
      OmitOfPick(items[1..], keys, live, keyOf);
      var x := items[0];
      var p, o := Pick(items[1..], keys, keyOf), Omit(items[1..], live, keyOf);
      assert ([x] + p)[1..] == p && ([x] + o)[1..] == o;
      assert [] + p == p && [] + o == o;
    }
  }

  lemma {:induction false} PickOfPick<T(!new), K(!new)>(items: seq<T>, keys: set<K>, wanted: set<K>, keyOf: T -> K)
    ensures Pick(Pick(items, keys, keyOf), wanted, keyOf) == Pick(items, keys * wanted, keyOf)
  {
    if items != [] {
      PickOfPick(items[1..], keys, wanted, keyOf);
      var p := Pick(items[1..], keys, keyOf);
      assert ([items[0]] + p)[1..] == p && [] + p == p;
    }
  }

  /** Two key sets that agree on the items pick the same list. */
  lemma {:induction false} PickAll<T(!new), K(!new)>(items: seq<T>, keys: set<K>, keyOf: T -> K)
    requires forall x | x in items :: keyOf(x) in keys
    ensures Pick(items, keys, keyOf) == items
  {
    if items != [] {
      assert forall x | x in items[1..] :: x in items;
      PickAll(items[1..], keys, keyOf);
    }
  }

  /** Picking the keys of a suffix gives back that suffix. */
  lemma {:induction false} PickSuffix<T(!new), K(!new)>(items: seq<T>, n: nat, keys: set<K>, keyOf: T -> K)
    requires n <= |items| && Unique(items, keyOf)
    requires forall x | x in items :: keyOf(x) in keys <==> x in items[n..]
    ensures Pick(items, keys, keyOf) == items[n..]
  {
    if n == 0 {
      assert items[0..] == items;
      PickAll(items, keys, keyOf);
    } else {
      UniqueTail(items, keyOf);
      assert items[1..][n - 1..] == items[n..];
      assert forall x | x in items[n..] :: x in items[1..] by {
        forall x | x in items[n..] ensures x in items[1..] {
          var k :| 0 <= k < |items[n..]| && items[n..][k] == x;
          assert items[1..][n - 1 + k] == x;
        }
      }
      assert items[0] !in items[n..];
      PickSuffix(items[1..], n - 1, keys, keyOf);
    }
  }

  lemma SuffixKeys<T(!new), K(!new)>(items: seq<T>, n: nat, keyOf: T -> K)
    requires n <= |items| && Unique(items, keyOf)
    ensures forall x | x in items :: keyOf(x) in Keys(items[n..], keyOf) <==> x in items[n..]
  {
    forall x | x in items && keyOf(x) in Keys(items[n..], keyOf) ensures x in items[n..] {
      var y :| y in items[n..] && keyOf(y) == keyOf(x);
      var i :| 0 <= i < |items| && items[i] == x;
      var j :| 0 <= j < |items[n..]| && items[n..][j] == y;
      assert items[n + j] == y;
      assert i == n + j;
    }
  }

  // ----- the retention theorems

  /** With unique keys the trim keeps every live entry, exactly the last `limit`
      others, both in their original order, and trimming again changes nothing. */
  lemma RetainedExactly<T(!new), K(!new)>(items: seq<T>, limit: nat, live: set<K>, keyOf: T -> K)
    requires Unique(items, keyOf)
    ensures var r := Retained(items, limit, live, keyOf);
      && Pick(r, live, keyOf) == Pick(items, live, keyOf)
      && Omit(r, live, keyOf) == Tail(Omit(items, live, keyOf), limit)
      && Unique(r, keyOf)
      && Retained(r, limit, live, keyOf) == r
  {
    var others := Omit(items, live, keyOf);
    var kept := Tail(others, limit);
    var n := |others| - |kept|;
    var keptKeys := Keys(kept, keyOf);
    var r := Retained(items, limit, live, keyOf);
    OmitUnique(items, live, keyOf);
    OmitMembers(items, live, keyOf);
    PickUnique(items, live + keptKeys, keyOf);
    PickOfPick(items, live + keptKeys, live, keyOf);
    assert (live + keptKeys) * live == live;
    OmitOfPick(items, live + keptKeys, live, keyOf);
    SuffixKeys(others, n, keyOf);
    assert kept == others[n..];
    forall x | x in others ensures keyOf(x) in live + keptKeys <==> x in others[n..] {}
    PickSuffix(others, n, live + keptKeys, keyOf);
    assert Omit(r, live, keyOf) == kept;
    assert Tail(kept, limit) == kept;
    PickMembers(items, live + keptKeys, keyOf);
    PickAll(r, live + keptKeys, keyOf);
  }

  /** An entry of the stored suffix that is not live is among the last `limit` non-live ones. */
  lemma SuffixOthersKept<T(!new), K(!new)>(items: seq<T>, limit: nat, live: set<K>, keyOf: T -> K, x: T)
    requires x in Tail(items, limit) && keyOf(x) !in live
    ensures x in Tail(Omit(items, live, keyOf), limit)
  {
    var suffix, others := Tail(items, limit), Omit(items, live, keyOf);
    TailIsSuffix(items, limit);
    OmitTail(items, |items| - |suffix|, live, keyOf);
    OmitMembers(suffix, live, keyOf);
    OmitShort(suffix, live, keyOf);
    ShortSuffix(others, |others| - |Omit(suffix, live, keyOf)|, limit, x);
  }

  lemma ShortSuffix<T(!new)>(s: seq<T>, n: nat, limit: nat, x: T)
    requires n <= |s| <= n + limit && x in s[n..]
    ensures x in Tail(s, limit)
  {
    var k :| 0 <= k < |s[n..]| && s[n..][k] == x;
    var t := Tail(s, limit);
    assert t[|t| - |s| + n + k] == s[n + k];
  }

  /** A dropped entry also lies outside the plain suffix that is stored on disk. */
  lemma DroppedIsOld<T(!new), K(!new)>(items: seq<T>, limit: nat, live: set<K>, keyOf: T -> K, x: T)
    requires Unique(items, keyOf)
    requires x in items && x !in Retained(items, limit, live, keyOf)
    ensures keyOf(x) !in live && keyOf(x) !in Keys(Tail(items, limit), keyOf)
  {
    var others, suffix := Omit(items, live, keyOf), Tail(items, limit);
    PickMembers(items, live + Keys(Tail(others, limit), keyOf), keyOf);
    if x in suffix { SuffixOthersKept(items, limit, live, keyOf, x); }
    SuffixKeys(items, |items| - |suffix|, keyOf);
  }

  lemma {:induction false} OmitTail<T(!new), K(!new)>(items: seq<T>, n: nat, live: set<K>, keyOf: T -> K)
    requires n <= |items|
    ensures var o := Omit(items[n..], live, keyOf); var all := Omit(items, live, keyOf);
      |o| <= |all| && o == all[|all| - |o|..]
  {
    if n == 0 {
      assert items[0..] == items;
    } else {
      OmitTail(items[1..], n - 1, live, keyOf);
      assert items[1..][n - 1..] == items[n..];
    }
  }

  lemma {:induction false} OmitShort<T(!new), K(!new)>(items: seq<T>, live: set<K>, keyOf: T -> K)
    ensures |Omit(items, live, keyOf)| <= |items|
  {
    if items != [] { OmitShort(items[1..], live, keyOf); }
  }

  lemma {:induction false} OmitLast<T(!new), K(!new)>(items: seq<T>, x: T, keys: set<K>, keyOf: T -> K)
    ensures Omit(items + [x], keys, keyOf) == Omit(items, keys, keyOf) + if keyOf(x) in keys then [] else [x]
  {
    if items == [] {
      assert items + [x] == [x] && [x][1..] == [];
    } else {
      assert (items + [x])[1..] == items[1..] + [x];
      OmitLast(items[1..], x, keys, keyOf);
    }
  }
  lemma {:induction false} OmitNone<T(!new), K(!new)>(items: seq<T>, keyOf: T -> K)
    ensures Omit(items, {}, keyOf) == items
  {
    if items != [] { OmitNone(items[1..], keyOf); }
  }
  /** A list is left alone if its others are within the limit. */
  lemma RetainedShort<T(!new), K(!new)>(items: seq<T>, limit: nat, live: set<K>, keyOf: T -> K)
    requires |Omit(items, live, keyOf)| <= limit
    ensures Retained(items, limit, live, keyOf) == items
  {
    OmitMembers(items, live, keyOf);
    PickAll(items, live + Keys(Tail(Omit(items, live, keyOf), limit), keyOf), keyOf);
  }
  /** Without anything live, the latest ones stay. */
  lemma RetainedLatest<T(!new), K(!new)>(items: seq<T>, limit: nat, keyOf: T -> K)
    requires Unique(items, keyOf)
    ensures Retained(items, limit, {}, keyOf) == Tail(items, limit)
  {
    RetainedExactly(items, limit, {}, keyOf);
    OmitNone(items, keyOf);
    OmitNone(Retained(items, limit, {}, keyOf), keyOf);
  }
  lemma TailGrows<T>(items: seq<T>, x: T, n: nat)
    requires n > 0
    ensures Tail(Tail(items, n) + [x], n) == Tail(items + [x], n)
  {
    if |items| > n {
      var t := Tail(items, n) + [x];
      assert Tail(t, n) == t[1..] && Tail(items + [x], n) == (items + [x])[|items| + 1 - n..];
    }
  }
}
