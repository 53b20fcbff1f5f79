/** Scopes, interests and interest updates as values: one user's authorization, the union a dashboard pod
    publishes and what a router filters by (services/internal/dashboard/broker.go, interest.go,
    services/internal/router/hub.go). */
module Interest {
  import opened Wrappers

  // ---------- filters ----------

  /** An authorization scope or a routing interest: both admit an event by fleet or by VIN. */
  datatype Filter = Filter(all: bool, fleets: set<string>, vins: set<string>) {
    /** `Scope.Allows` and `Interest.Matches`. */
    predicate Admits(fleet: string, vin: string) {
      all || fleet in fleets || vin in vins
    }
  }

  const NOTHING := Filter(false, {}, {})

  function Join(a: Filter, b: Filter): Filter {
    Filter(a.all || b.all, a.fleets + b.fleets, a.vins + b.vins)
  }

  /** The union of the connected users' scopes. */
  ghost function UnionOf(scopes: set<Filter>): Filter {
    Filter(
      exists s :: s in scopes && s.all,
      set s, f | s in scopes && f in s.fleets :: f,
      set s, v | s in scopes && v in s.vins :: v)
  }

  lemma UnionOfNone()
    ensures UnionOf({}) == NOTHING
  {
    assert UnionOf({}).fleets == {} && UnionOf({}).vins == {};
  }

  lemma UnionOfAdd(scopes: set<Filter>, s: Filter)
    ensures UnionOf(scopes + {s}) == Join(UnionOf(scopes), s)
  {
    var a, b := UnionOf(scopes + {s}), Join(UnionOf(scopes), s);
    assert a.all == b.all;
    assert a.fleets == b.fleets;
    assert a.vins == b.vins;
  }

  ghost predicate SomeAdmits(scopes: set<Filter>, fleet: string, vin: string) {
    exists s :: s in scopes && s.Admits(fleet, vin)
  }

  /** The union admits an event if and only if some scope does. */
  lemma UnionOfIsExact(scopes: set<Filter>, fleet: string, vin: string)
    ensures UnionOf(scopes).Admits(fleet, vin) <==> SomeAdmits(scopes, fleet, vin)
  {
  }

  /** `InterestUpdate` on the wire. */
  datatype Update = Update(all: bool, fleets: seq<string>, vins: seq<string>, version: nat)

  const NO_INTEREST := Update(false, [], [], 0)

  function FromProto(u: Update): Filter {
    Filter(u.all, set f | f in u.fleets, set v | v in u.vins)
  }

  // ---------- the order of sort.Strings ----------

  predicate Below(a: string, b: string) {
    b != [] && (a == [] || a[0] < b[0] || (a[0] == b[0] && Below(a[1..], b[1..])))
  }

  /** At byte `i` the strings first differ: `a` ends there, or has the smaller byte. */
  predicate FirstDifference(a: string, b: string, i: nat) {
    i <= |a| && i < |b| && a[..i] == b[..i] && (i == |a| || a[i] < b[i])
  }

  /** The order is that of the first byte in which two strings differ, a prefix coming first. */
  lemma {:induction false} BelowIsByteOrder(a: string, b: string)
    ensures Below(a, b) <==> exists i :: FirstDifference(a, b, i)
  {
    if b != [] && a != [] && a[0] == b[0] {
      BelowIsByteOrder(a[1..], b[1..]);
      if i: nat :| FirstDifference(a[1..], b[1..], i) {
        assert a[..i + 1] == [a[0]] + a[1..][..i] && b[..i + 1] == [b[0]] + b[1..][..i];
        assert FirstDifference(a, b, i + 1);
      }
      if i: nat :| FirstDifference(a, b, i) {
        assert i > 0;
        assert a[1..][..i - 1] == a[..i][1..] && b[1..][..i - 1] == b[..i][1..];
        assert FirstDifference(a[1..], b[1..], i - 1);
      }
    } else {
      assert Below(a, b) ==> FirstDifference(a, b, 0);
      forall i: nat ensures FirstDifference(a, b, i) ==> Below(a, b) {
        if 0 < i <= |a| && i < |b| {
          assert a[..i][0] == a[0] && b[..i][0] == b[0];
        }
      }
    }
  }

  lemma {:induction false} BelowIsTotal(a: string, b: string)
    ensures a != b ==> Below(a, b) || Below(b, a)
    ensures Below(a, b) ==> a != b && !Below(b, a)
  {
    if a != [] && b != [] {
      BelowIsTotal(a[1..], b[1..]);
      if a[0] == b[0] && a[1..] == b[1..] {
        assert a == [a[0]] + a[1..] && b == [b[0]] + b[1..];
      }
    }
  }

  lemma {:induction false} BelowIsTransitive(a: string, b: string, c: string)
    requires Below(a, b) && Below(b, c)
    ensures Below(a, c)
  {
    if a != [] && a[0] == b[0] && b[0] == c[0] {
      BelowIsTransitive(a[1..], b[1..], c[1..]);
    }
  }

  ghost predicate Increasing(s: seq<string>) {
    forall i, j :: 0 <= i < j < |s| ==> Below(s[i], s[j])
  }

  function Elements(s: seq<string>): set<string> {
    set x | x in s
  }

  /** The list `sortedKeys` returns for the keys of a map. */
  ghost predicate SortedOf(s: seq<string>, keys: set<string>) {
    Increasing(s) && Elements(s) == keys
  }

  /** The greatest element of an increasing list is the last. */
  lemma LastIsGreatest(s: seq<string>, x: string)
    requires Increasing(s) && x in s
    ensures x == s[|s| - 1] || Below(x, s[|s| - 1])
  {
  }

  lemma InitElements(s: seq<string>)
    requires Increasing(s) && s != []
    ensures Increasing(s[..|s| - 1]) && Elements(s[..|s| - 1]) == Elements(s) - {s[|s| - 1]}
  {
    var n := |s| - 1;
    forall x ensures x in s[..n] <==> x in s && x != s[n] {
      if x in s[..n] {
        var i :| 0 <= i < n && s[i] == x;
        BelowIsTotal(s[i], s[n]);
      }
    }
  }

  /** Two increasing lists over the same set are the same list. */
  lemma {:induction false} SortedIsUnique(s: seq<string>, t: seq<string>)
    requires Increasing(s) && Increasing(t) && Elements(s) == Elements(t)
    ensures s == t
  {
    assert t != [] ==> t[0] in Elements(t);
    if s != [] {
      assert s[|s| - 1] in Elements(t);
      assert t[|t| - 1] in Elements(s);
      LastIsGreatest(s, t[|t| - 1]);
      LastIsGreatest(t, s[|s| - 1]);
      BelowIsTotal(s[|s| - 1], t[|t| - 1]);
      InitElements(s);
      InitElements(t);
      SortedIsUnique(s[..|s| - 1], t[..|t| - 1]);
    }
  }

  // ---------- recompute's argument and Set ----------

  /** What `recompute` represents: with an admin connected nothing is enumerated. */
  function Collapse(f: Filter): Filter {
    if f.all then Filter(true, {}, {}) else f
  }

  lemma CollapseAdmits(f: Filter, fleet: string, vin: string)
    ensures Collapse(f).Admits(fleet, vin) <==> f.Admits(fleet, vin)
  {
  }

  /** The bus value lists each set in increasing order, and nothing beside the all flag. */
  ghost predicate Normal(u: Update) {
    Increasing(u.fleets) && Increasing(u.vins) && (u.all ==> u.fleets == [] && u.vins == [])
  }

  /** `InterestBus.Set`: the same contents leave the value alone, others raise the version. */
  function SetTo(cur: Update, all: bool, fleets: seq<string>, vins: seq<string>): Update {
    if cur.all == all && cur.fleets == fleets && cur.vins == vins then cur
    else Update(all, fleets, vins, cur.version + 1)
  }

  /** The arguments `recompute` passes for a union of scopes. */
  ghost predicate ArgsOf(f: Filter, all: bool, fleets: seq<string>, vins: seq<string>) {
    all == f.all && SortedOf(fleets, Collapse(f).fleets) && SortedOf(vins, Collapse(f).vins)
  }

  lemma SetRepresents(cur: Update, f: Filter, all: bool, fleets: seq<string>, vins: seq<string>)
    requires Normal(cur) && ArgsOf(f, all, fleets, vins)
    ensures Normal(SetTo(cur, all, fleets, vins)) && FromProto(SetTo(cur, all, fleets, vins)) == Collapse(f)
  {
    assert all ==> fleets == [] && vins == [] by {
      assert fleets != [] ==> fleets[0] in Elements(fleets);
      assert vins != [] ==> vins[0] in Elements(vins);
    }
  }

  /** `Set` raises the version if and only if the represented interest changed. */
  lemma VersionBumpIsExact(cur: Update, f: Filter, all: bool, fleets: seq<string>, vins: seq<string>)
    requires Normal(cur) && ArgsOf(f, all, fleets, vins)
    ensures SetTo(cur, all, fleets, vins).version == cur.version + (if FromProto(cur) == Collapse(f) then 0 else 1)
    ensures FromProto(cur) == Collapse(f) <==> SetTo(cur, all, fleets, vins) == cur
  {
    SetRepresents(cur, f, all, fleets, vins);
    if FromProto(cur) == Collapse(f) {
      SortedIsUnique(cur.fleets, fleets);
      SortedIsUnique(cur.vins, vins);
    }
  }

  // ---------- what a change of the represented interest means for events ----------

  /** Some string is longer than all of a set. */
  lemma FreshString(s: set<string>) returns (x: string)
    ensures x !in s
  {
    var bound: nat := 0;
    var rest := s;
    while rest != {}
      invariant rest <= s
      invariant forall y :: y in s && y !in rest ==> |y| < bound
      decreases |rest|
    {
      var y :| y in rest;
      rest := rest - {y};
      bound := if |y| < bound then bound else |y| + 1;
    }
    x := seq(bound, _ => 'x');
  }

  lemma FleetsTellApart(a: Filter, b: Filter, fleet: string) returns (vin: string)
    requires !a.all && !b.all && fleet in a.fleets && fleet !in b.fleets
    ensures a.Admits(fleet, vin) && !b.Admits(fleet, vin)
  {
    vin := FreshString(b.vins);
  }

  lemma VinsTellApart(a: Filter, b: Filter, vin: string) returns (fleet: string)
    requires !a.all && !b.all && vin in a.vins && vin !in b.vins
    ensures a.Admits(fleet, vin) && !b.Admits(fleet, vin)
  {
    fleet := FreshString(b.fleets);
  }

  lemma AllTellsApart(a: Filter, b: Filter) returns (fleet: string, vin: string)
    requires a.all && !b.all
    ensures a.Admits(fleet, vin) && !b.Admits(fleet, vin)
  {
    fleet := FreshString(b.fleets);
    vin := FreshString(b.vins);
  }

  ghost predicate Differ(a: Filter, b: Filter) {
    exists fleet, vin :: Tells(a, b, fleet, vin)
  }

  ghost predicate Tells(a: Filter, b: Filter, fleet: string, vin: string) {
    a.Admits(fleet, vin) != b.Admits(fleet, vin)
  }

  lemma OneSidedDiffers(a: Filter, b: Filter)
    requires Collapse(a) == a && Collapse(b) == b
    requires (a.all && !b.all) || (!a.all && !b.all && (!(a.fleets <= b.fleets) || !(a.vins <= b.vins)))
    ensures Differ(a, b)
  {
    if a.all {
      var fleet, vin := AllTellsApart(a, b);
      assert Tells(a, b, fleet, vin);
    } else if !(a.fleets <= b.fleets) {
      var fleet :| fleet in a.fleets && fleet !in b.fleets;
      var vin := FleetsTellApart(a, b, fleet);
      assert Tells(a, b, fleet, vin);
    } else {
      var vin :| vin in a.vins && vin !in b.vins;
      var fleet := VinsTellApart(a, b, vin);
      assert Tells(a, b, fleet, vin);
    }
  }

  /** Collapsed filters differ as values only if some event tells them apart: a version is raised exactly
      when some (fleet, VIN) starts or stops being routed to this pod. */
  lemma ChangedMeansObservable(a: Filter, b: Filter)
    requires Collapse(a) == a && Collapse(b) == b
    ensures a != b <==> Differ(a, b)
  {
    if a != b {
      if (a.all && !b.all) || (!a.all && !b.all && (!(a.fleets <= b.fleets) || !(a.vins <= b.vins))) {
        OneSidedDiffers(a, b);
      } else {
        OneSidedDiffers(b, a);
        var fleet, vin :| Tells(b, a, fleet, vin);
        assert Tells(a, b, fleet, vin);
      }
    }
  }

  /** The interest admits exactly what some scope does. */
  ghost predicate Serves(interest: Filter, scopes: set<Filter>) {
    forall fleet, vin :: interest.Admits(fleet, vin) <==> SomeAdmits(scopes, fleet, vin)
  }

  /** It does if and only if it represents their union. */
  lemma ServesIff(interest: Filter, scopes: set<Filter>)
    requires Collapse(interest) == interest
    ensures Serves(interest, scopes) <==> interest == Collapse(UnionOf(scopes))
  {
    var union := Collapse(UnionOf(scopes));
    ChangedMeansObservable(interest, union);
    forall fleet, vin ensures union.Admits(fleet, vin) <==> SomeAdmits(scopes, fleet, vin) {
      CollapseAdmits(UnionOf(scopes), fleet, vin);
      UnionOfIsExact(scopes, fleet, vin);
    }
    if Differ(interest, union) {
      var fleet, vin :| Tells(interest, union, fleet, vin);
      assert interest.Admits(fleet, vin) != SomeAdmits(scopes, fleet, vin);
    } else {
      forall fleet, vin ensures interest.Admits(fleet, vin) <==> SomeAdmits(scopes, fleet, vin) {
        assert !Tells(interest, union, fleet, vin);
      }
    }
  }

  lemma VersionBumpIsObservable(cur: Update, f: Filter, all: bool, fleets: seq<string>, vins: seq<string>)
    requires Normal(cur) && ArgsOf(f, all, fleets, vins)
    ensures SetTo(cur, all, fleets, vins).version != cur.version <==> Differ(FromProto(cur), f)
  {
    VersionBumpIsExact(cur, f, all, fleets, vins);
    ChangedMeansObservable(FromProto(cur), Collapse(f));
    forall fleet, vin ensures Tells(FromProto(cur), Collapse(f), fleet, vin) <==> Tells(FromProto(cur), f, fleet, vin) {
      CollapseAdmits(f, fleet, vin);
    }
    if Differ(FromProto(cur), f) {
      var fleet, vin :| Tells(FromProto(cur), f, fleet, vin);
      assert Tells(FromProto(cur), Collapse(f), fleet, vin);
    }
    if Differ(FromProto(cur), Collapse(f)) {
      var fleet, vin :| Tells(FromProto(cur), Collapse(f), fleet, vin);
      assert Tells(FromProto(cur), f, fleet, vin);
    }
  }

  // ---------- every set has its list ----------

  function Insert(s: seq<string>, x: string): seq<string> {
    if s == [] then [x]
    else if Below(x, s[|s| - 1]) then Insert(s[..|s| - 1], x) + [s[|s| - 1]]
    else s + [x]
  }

  lemma {:induction false} InsertKeepsSorted(s: seq<string>, x: string)
    requires Increasing(s) && x !in s
    ensures SortedOf(Insert(s, x), Elements(s) + {x})
  {
    if s != [] {
      var top := s[|s| - 1];
      BelowIsTotal(x, top);
      InitElements(s);
      assert s == s[..|s| - 1] + [top];
      if Below(x, top) {
        InsertKeepsSorted(s[..|s| - 1], x);
        var rest := Insert(s[..|s| - 1], x);
        forall y | y in rest ensures Below(y, top) {
          assert y in Elements(rest);
          assert y == x || y in s[..|s| - 1];
        }
        assert Insert(s, x) == rest + [top];
        assert Elements(rest + [top]) == Elements(rest) + {top};
      } else {
        forall y | y in s ensures Below(y, x) {
          LastIsGreatest(s, y);
          if y != top {
            BelowIsTransitive(y, top, x);
          }
        }
        assert Elements(s + [x]) == Elements(s) + {x};
      }
    }
  }

  /** `sort.Strings` on distinct strings. */
  function Sorted(s: seq<string>): seq<string> {
    if s == [] then [] else Insert(Sorted(s[..|s| - 1]), s[|s| - 1])
  }

  ghost predicate Distinct(s: seq<string>) {
    forall i, j :: 0 <= i < j < |s| ==> s[i] != s[j]
  }

  lemma {:induction false} SortedSorts(s: seq<string>)
    requires Distinct(s)
    ensures SortedOf(Sorted(s), Elements(s))
  {
    if s != [] {
      var rest, x := s[..|s| - 1], s[|s| - 1];
      SortedSorts(rest);
      assert x in Sorted(rest) ==> x in Elements(rest);
      InsertKeepsSorted(Sorted(rest), x);
      assert s == rest + [x];
      assert Elements(s) == Elements(rest) + {x};
    }
  }

  /** `sortedKeys`: collects the keys in whatever order the map yields them, then sorts. */
  method SortedKeys(keys: set<string>) returns (out: seq<string>)
    ensures SortedOf(out, keys)
  {
    var listed := Order(keys);
    assert Elements(listed) == keys;
    SortedSorts(listed);
    out := Sorted(listed);
  }
}
