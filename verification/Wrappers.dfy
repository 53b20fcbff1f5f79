/** The optional value used throughout the model where the Go code returns `(value, ok)` or a nil error,
    the two halves of a non-empty sequence, and lists of selected positions. */
module Wrappers {
  datatype Option<+T> = None | Some(value: T)

  function Last<T>(s: seq<T>): T
    requires s != []
  {
    s[|s| - 1]
  }

  function Init<T>(s: seq<T>): seq<T>
    requires s != []
  {
    s[..|s| - 1]
  }

  /** The keys of a map in the order a range loop happens to yield them. */
  method Order<T(==)>(keys: set<T>) returns (order: seq<T>)
    ensures forall i :: 0 <= i < |order| ==> order[i] in keys
    ensures forall k :: k in keys ==> k in order
    ensures forall i, j :: 0 <= i < j < |order| ==> order[i] != order[j]
  {
    order := [];
    var rest := keys;
    while rest != {}
      invariant rest <= keys
      invariant forall k :: k in order <==> k in keys && k !in rest
      invariant forall i, j :: 0 <= i < j < |order| ==> order[i] != order[j]
      decreases |rest|
    {
      var k :| k in rest;
      order := order + [k];
      rest := rest - {k};
    }
  }

  /** Counting positions one further. */
  lemma OneMorePosition(before: set<nat>, all: set<nat>, n: nat)
    requires (forall i :: i in before ==> i < n) && (forall i :: i in all ==> i <= n)
    requires forall i: nat :: i < n ==> (i in before <==> i in all)
    ensures |all| == |before| + if n in all then 1 else 0
  {
    assert all == before + if n in all then {n} else {};
  }

  /** Two maps hold the same under `k`, or both nothing. */
  predicate AgreeOn<K, V(==)>(a: map<K, V>, b: map<K, V>, k: K) {
    (k in a <==> k in b) && (k in a && k in b ==> a[k] == b[k])
  }

  ghost predicate Injective<T, U>(m: map<T, U>) {
    forall a, b :: a in m && b in m && m[a] == m[b] ==> a == b
  }

  lemma AgreeEverywhere<K(!new), V>(a: map<K, V>, b: map<K, V>)
    requires forall k :: AgreeOn(a, b, k)
    ensures a == b
  {
    forall k ensures k in a <==> k in b {
      assert AgreeOn(a, b, k);
    }
    forall k | k in a ensures a[k] == b[k] {
      assert AgreeOn(a, b, k);
    }
  }

  // ---------- selecting some positions of a list ----------

  ghost predicate Listed(idx: seq<nat>, i: nat) {
    exists k :: 0 <= k < |idx| && idx[k] == i
  }

  /** `idx` lists, in increasing order, exactly the chosen positions below `n`. */
  ghost predicate Selects(idx: seq<nat>, n: nat, chosen: iset<nat>) {
    && (forall k, l :: 0 <= k < l < |idx| ==> idx[k] < idx[l])
    && (forall k :: 0 <= k < |idx| ==> idx[k] < n && idx[k] in chosen)
    && (forall i: nat {:trigger Listed(idx, i)} :: i < n && i in chosen ==> Listed(idx, i))
  }

  function Extend(idx: seq<nat>, n: nat, take: bool): seq<nat> {
    if take then idx + [n] else idx
  }

  lemma SelectsExtend(idx: seq<nat>, n: nat, before: iset<nat>, chosen: iset<nat>)
    requires Selects(idx, n, before)
    requires forall i: nat :: i < n ==> (i in before <==> i in chosen)
    ensures Selects(Extend(idx, n, n in chosen), n + 1, chosen)
  {
    var idx' := Extend(idx, n, n in chosen);
    forall i: nat | i < n + 1 && i in chosen ensures Listed(idx', i) {
      if i == n {
        assert idx'[|idx|] == i;
      } else {
        assert Listed(idx, i);
        var k :| 0 <= k < |idx| && idx[k] == i;
        assert idx'[k] == i;
      }
    }
  }

  lemma SelectsCompose(a: seq<nat>, n: nat, as': iset<nat>, b: seq<nat>, bs: iset<nat>, c: seq<nat>, cs: iset<nat>)
    requires Selects(a, n, as') && Selects(b, |a|, bs)
    requires |c| == |b| && forall k :: 0 <= k < |b| ==> c[k] == a[b[k]]
    requires forall j :: 0 <= j < |a| ==> (j in bs <==> a[j] in cs)
    requires cs <= as'
    ensures Selects(c, n, cs)
  {
    forall i: nat | i < n && i in cs ensures Listed(c, i) {
      assert Listed(a, i);
      var j :| 0 <= j < |a| && a[j] == i;
      assert Listed(b, j);
      var k :| 0 <= k < |b| && b[k] == j;
      assert c[k] == i;
    }
  }
}
