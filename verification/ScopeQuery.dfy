/** One user's scope in its three other forms: the OpenSearch query of the snapshot, the access check of
    rbac-authz and the wire message (services/internal/dashboard/api.go, broker.go,
    services/internal/authz/service.go). */
module ScopeQuery {
  import opened Wrappers
  import opened Interest

  /** `UserScope` as rbac-authz sends it. */
  datatype UserScope = UserScope(allFleets: bool, fleetIds: seq<string>, vins: seq<string>)

  function ToFilter(us: UserScope): Filter {
    Filter(us.allFleets, set f | f in us.fleetIds, set v | v in us.vins)
  }

  /** `ScopeFromProto`. */
  method ScopeFromProto(us: UserScope) returns (scope: Filter)
    ensures scope == ToFilter(us)
  {
    var fleets, vins := {}, {};
    for i := 0 to |us.fleetIds|
      invariant fleets == set f | f in us.fleetIds[..i]
    {
      fleets := fleets + {us.fleetIds[i]};
    }
    for i := 0 to |us.vins|
      invariant vins == set v | v in us.vins[..i]
    {
      vins := vins + {us.vins[i]};
    }
    assert us.fleetIds[..|us.fleetIds|] == us.fleetIds && us.vins[..|us.vins|] == us.vins;
    scope := Filter(us.allFleets, fleets, vins);
  }

  // ---------- the snapshot query ----------

  datatype Field = FleetId | Vin

  datatype Clause =
    | Last24Hours                                         // range deviceTimestamp >= now-24h
    | Terms(field: Field, values: seq<string>)
    | Should(clauses: seq<Clause>, minimum: nat)          // bool with minimum_should_match

  /** A document as the query sees it. */
  datatype Document = Document(fleetId: string, vin: string, age: int)

  const DAY_MILLIS := 24 * 60 * 60 * 1000

  function Value(d: Document, field: Field): string {
    match field
    case FleetId => d.fleetId
    case Vin => d.vin
  }

  /** OpenSearch's meaning of a clause. */
  predicate Holds(c: Clause, d: Document) {
    match c
    case Last24Hours => d.age <= DAY_MILLIS
    case Terms(field, values) => Value(d, field) in values
    case Should(clauses, minimum) => minimum <= Satisfied(clauses, d)
  }

  function Satisfied(clauses: seq<Clause>, d: Document): nat {
    if clauses == [] then 0
    else (if Holds(clauses[0], d) then 1 else 0) + Satisfied(clauses[1..], d)
  }

  /** A bool filter: all clauses hold. */
  predicate Selected(filters: seq<Clause>, d: Document) {
    forall c :: c in filters ==> Holds(c, d)
  }

  /** The filters `latest` sends, or nothing if it answers with an empty list at once. */
  method BuildQuery(us: UserScope) returns (query: Option<seq<Clause>>)
    ensures query.None? ==> forall d: Document :: !ToFilter(us).Admits(d.fleetId, d.vin)
    ensures query.Some? ==> forall d: Document :: Selected(query.value, d) <==>
      d.age <= DAY_MILLIS && ToFilter(us).Admits(d.fleetId, d.vin)
    ensures query.None? <==> !us.allFleets && us.fleetIds == [] && us.vins == []
  {
    var filters := [Last24Hours];
    if us.allFleets {
      EveryoneSelected();
      return Some(filters);
    }
    var should: seq<Clause> := [];
    if |us.fleetIds| > 0 {
      should := should + [Terms(FleetId, us.fleetIds)];
    }
    if |us.vins| > 0 {
      should := should + [Terms(Vin, us.vins)];
    }
    if |should| == 0 {
      return None;
    }
    filters := filters + [Should(should, 1)];
    forall d ensures Selected(filters, d) <==> d.age <= DAY_MILLIS && ToFilter(us).Admits(d.fleetId, d.vin) {
      ShouldMeansAny(should, d);
      TwoFilters(should, d);
      assert AnyHolds(should, d) <==> ToFilter(us).Admits(d.fleetId, d.vin) by {
        if d.fleetId in us.fleetIds {
          assert Terms(FleetId, us.fleetIds) in should;
        }
        if d.vin in us.vins {
          assert Terms(Vin, us.vins) in should;
        }
      }
    }
    query := Some(filters);
  }

  lemma EveryoneSelected()
    ensures forall d :: Selected([Last24Hours], d) <==> d.age <= DAY_MILLIS
  {
    forall d ensures Selected([Last24Hours], d) <==> d.age <= DAY_MILLIS {
      assert Last24Hours in [Last24Hours];
    }
  }

  lemma TwoFilters(should: seq<Clause>, d: Document)
    ensures Selected([Last24Hours] + [Should(should, 1)], d) <==> Holds(Last24Hours, d) && Holds(Should(should, 1), d)
  {
    var filters := [Last24Hours] + [Should(should, 1)];
    assert forall c :: c in filters <==> c == Last24Hours || c == Should(should, 1);
  }

  ghost predicate AnyHolds(clauses: seq<Clause>, d: Document) {
    exists c :: c in clauses && Holds(c, d)
  }

  lemma {:induction false} ShouldMeansAny(clauses: seq<Clause>, d: Document)
    ensures 1 <= Satisfied(clauses, d) <==> AnyHolds(clauses, d)
  {
    if clauses != [] {
      ShouldMeansAny(clauses[1..], d);
      assert forall c :: c in clauses <==> c == clauses[0] || c in clauses[1..];
      assert AnyHolds(clauses, d) <==> Holds(clauses[0], d) || AnyHolds(clauses[1..], d);
    }
  }

  // ---------- the access check ----------

  datatype Access = Allowed(yes: bool) | MissingUser | Unavailable

  /** `CheckAccess`, for what the store answers about the user. */
  method CheckAccess(userId: string, stored: Option<UserScope>, fleetId: string, vin: string) returns (a: Access)
    ensures userId == "" ==> a == MissingUser
    ensures userId != "" && stored.None? ==> a == Unavailable
    ensures userId != "" && stored.Some? ==> a == Allowed(Permits(stored.value, fleetId, vin))
  {
    if userId == "" {
      return MissingUser;
    }
    if stored.None? {
      return Unavailable;
    }
    var s := stored.value;
    var allowed := s.allFleets;
    if !allowed && fleetId != "" {
      allowed := fleetId in s.fleetIds;
    }
    if !allowed && vin != "" {
      allowed := vin in s.vins;
    }
    a := Allowed(allowed);
  }

  predicate Permits(s: UserScope, fleetId: string, vin: string) {
    s.allFleets || (fleetId != "" && fleetId in s.fleetIds) || (vin != "" && vin in s.vins)
  }

  /** The access check and the live filters decide alike for every scope if and only if both ids are given. */
  lemma CheckAccessAgreesIff(fleetId: string, vin: string)
    ensures (forall s :: Permits(s, fleetId, vin) <==> ToFilter(s).Admits(fleetId, vin)) <==> fleetId != "" && vin != ""
  {
    if fleetId == "" {
      var s := UserScope(false, [fleetId], []);
      assert !Permits(s, fleetId, vin) && ToFilter(s).Admits(fleetId, vin);
    } else if vin == "" {
      var s := UserScope(false, [], [vin]);
      assert !Permits(s, fleetId, vin) && ToFilter(s).Admits(fleetId, vin);
    }
  }

  /** For one scope they decide alike if and only if an empty id that the scope lists makes no difference:
      everything, or the other id, is granted anyway. */
  lemma CheckAccessAgrees(s: UserScope, fleetId: string, vin: string)
    ensures (Permits(s, fleetId, vin) <==> ToFilter(s).Admits(fleetId, vin)) <==>
      && (fleetId == "" && "" in s.fleetIds ==> s.allFleets || (vin != "" && vin in s.vins))
      && (vin == "" && "" in s.vins ==> s.allFleets || (fleetId != "" && fleetId in s.fleetIds))
  {
  }
}
