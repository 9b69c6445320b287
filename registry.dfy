/** The gateway registry (registry.go): which payment methods are eligible
    in which country, through three scopes — global, per region and per
    country — and one priority per method, lower meaning preferred. */
module Registry {
  import opened Geography
  import opened Sequences
  import opened PaymentTypes

  /** The priority reported for a method that was never registered. */
  const DefaultPriority := 999

  /** Region entries of a recommendation list are recommended only while
      fewer than this many entries have been emitted. */
  const RecommendLimit := 5

  function Min(a: int, b: int): int { if a <= b then a else b }
  function Max(a: int, b: int): int { if a <= b then b else a }

  /** The scope that granted a recommended method. */
  datatype Scope = CountryScope | RegionScope | GlobalScope
  {
    /** The scope as a recommendation spells it. */
    function Name(): string {
      match this
      case CountryScope => "country"
      case RegionScope => "region"
      case GlobalScope => "global"
    }
  }

  /** The scope names tell the three scopes apart. */
  lemma ScopeNamesDistinct(s: Scope, t: Scope)
    ensures s.Name() == t.Name() <==> s == t
  {
  }

  datatype Recommendation = Recommendation(
    paymentMethod: Method, priority: int, scope: Scope, available: bool, recommended: bool)

  function MethodOf(r: Recommendation): Method { r.paymentMethod }

  function PriorityOf(r: Recommendation): int { r.priority }

  /** Which group of the emitted list r belongs to, in emission order:
      country entries, recommended region entries, the other region
      entries, global entries. */
  function EmitRankOf(r: Recommendation): int {
    match r.scope
    case CountryScope => 0
    case RegionScope => if r.recommended then 1 else 2
    case GlobalScope => 3
  }

  predicate IsRecommendedRegion(r: Recommendation) { r.scope == RegionScope && r.recommended }

  function HasScope(scope: Scope): Recommendation -> bool { (r: Recommendation) => r.scope == scope }

  /** The sort key both sorts read: a Go map read, so a method without a
      priority entry sorts as 0. */
  function PriorityKey(priority: map<Method, int>): Method -> int {
    m => if m in priority then priority[m] else 0
  }

  /** One registration call, with the arguments it was given. */
  datatype Grant =
    | GlobalGrant(paymentMethod: Method, priority: int)
    | RegionGrant(region: Region, paymentMethod: Method, priority: int)
    | CountryGrant(country: Country, paymentMethod: Method, priority: int)

  /** The contents of a registry as a value: the three scope maps and the
      priority table. */
  datatype Scopes = Scopes(
    global: set<Method>,
    regions: map<Region, set<Method>>,
    countries: map<Country, set<Method>>,
    priority: map<Method, int>)
  {
    /** Every method some scope grants has a priority entry. */
    ghost predicate Valid() {
      && (forall m :: m in global ==> m in priority)
      && (forall r, m :: r in regions && m in regions[r] ==> m in priority)
      && (forall c, m :: c in countries && m in countries[c] ==> m in priority)
    }

    /** The methods granted to a region; empty when it has no entry. */
    function RegionSet(r: Region): set<Method> {
      if r in regions then regions[r] else {}
    }

    /** The methods granted to a country; empty when it has no entry. */
    function CountrySet(c: Country): set<Method> {
      if c in countries then countries[c] else {}
    }

    /** The union of the three scopes that apply to a country. */
    function Eligible(c: Country): set<Method> {
      global + RegionSet(GetRegion(c)) + CountrySet(c)
    }

    /** Whether m may be used in country c: globally, through c's region,
        or for c itself, checked in that order. */
    predicate IsGatewayAvailable(c: Country, m: Method): (available: bool)
      ensures available <==> m in Eligible(c)
    {
      if m in global then true
      else
        var region := GetRegion(c);
        if region in regions && m in regions[region] then true
        else c in countries && m in countries[c]
    }

    /** The stored priority of m, or DefaultPriority if m was never registered. */
    function GetGatewayPriority(m: Method): (p: int)
      ensures m in priority ==> p == priority[m]
      ensures m !in priority ==> p == DefaultPriority
    {
      if m in priority then priority[m] else DefaultPriority
    }

    /** The narrowest scope that grants m in country c. */
    function NarrowestScope(c: Country, m: Method): Scope {
      if m in CountrySet(c) then CountryScope
      else if m in RegionSet(GetRegion(c)) then RegionScope
      else GlobalScope
    }

    /** How many region entries a recommendation list for c marks as
        recommended: the region-only methods, up to the slots the country
        entries leave below the limit. */
    function RecommendedRegionCount(c: Country): nat {
      var countryCount := |CountrySet(c)|;
      var regionOnly := |RegionSet(GetRegion(c)) - CountrySet(c)|;
      Min(regionOnly, Max(0, RecommendLimit - countryCount))
    }

    /** Nothing, or the error naming m and c when m is not available in c. */
    function ValidateGatewayForCountry(c: Country, m: Method): (o: Outcome)
      ensures o == Pass <==> m in Eligible(c)
      ensures o != Pass ==> o == Fail(NotAvailable(m, c))
    {
      if !IsGatewayAvailable(c, m) then Fail(NotAvailable(m, c)) else Pass
    }

    /** The state after RegisterGlobalGateway(m, p). */
    function RegisterGlobal(m: Method, p: int): Scopes {
      this.(global := global + {m}, priority := priority[m := p])
    }

    /** The state after RegisterRegionGateway(region, m, p). */
    function RegisterRegion(region: Region, m: Method, p: int): Scopes {
      this.(regions := regions[region := RegionSet(region) + {m}], priority := priority[m := p])
    }

    /** The state after RegisterCountryGateway(country, m, p). */
    function RegisterCountry(country: Country, m: Method, p: int): Scopes {
      this.(countries := countries[country := CountrySet(country) + {m}], priority := priority[m := p])
    }

    /** The state after the registration call g. */
    function Register(g: Grant): Scopes {
      match g
      case GlobalGrant(m, p) => RegisterGlobal(m, p)
      case RegionGrant(r, m, p) => RegisterRegion(r, m, p)
      case CountryGrant(c, m, p) => RegisterCountry(c, m, p)
    }
  }

  /** A failed validation reports the method and the country it was checked for. */
  lemma ValidationMessage(st: Scopes, c: Country, m: Method)
    ensures st.ValidateGatewayForCountry(c, m).Fail? <==> m !in st.Eligible(c)
    ensures st.ValidateGatewayForCountry(c, m).Fail? ==>
      st.ValidateGatewayForCountry(c, m).error.Message() == "gateway " + m + " is not available for country " + c
  {
  }

  /** A global grant makes m usable in every country, sets its priority to
      p, and changes nothing else. */
  lemma RegisterGlobalEffect(st: Scopes, m: Method, p: int)
    ensures st.Valid() ==> st.RegisterGlobal(m, p).Valid()
    ensures st.RegisterGlobal(m, p).GetGatewayPriority(m) == p
    ensures forall n :: n != m ==> st.RegisterGlobal(m, p).GetGatewayPriority(n) == st.GetGatewayPriority(n)
    ensures forall c :: st.RegisterGlobal(m, p).Eligible(c) == st.Eligible(c) + {m}
  {
  }

  /** A region grant makes m usable in exactly the countries GetRegion
      places in that region, sets its priority to p, and changes nothing
      else. */
  lemma RegisterRegionEffect(st: Scopes, region: Region, m: Method, p: int)
    ensures st.Valid() ==> st.RegisterRegion(region, m, p).Valid()
    ensures st.RegisterRegion(region, m, p).GetGatewayPriority(m) == p
    ensures forall n :: n != m ==> st.RegisterRegion(region, m, p).GetGatewayPriority(n) == st.GetGatewayPriority(n)
    ensures forall c :: st.RegisterRegion(region, m, p).Eligible(c) ==
                        if GetRegion(c) == region then st.Eligible(c) + {m} else st.Eligible(c)
  {
  }

  /** A country grant makes m usable in that one country, sets its
      priority to p, and changes nothing else. */
  lemma RegisterCountryEffect(st: Scopes, country: Country, m: Method, p: int)
    ensures st.Valid() ==> st.RegisterCountry(country, m, p).Valid()
    ensures st.RegisterCountry(country, m, p).GetGatewayPriority(m) == p
    ensures forall n :: n != m ==> st.RegisterCountry(country, m, p).GetGatewayPriority(n) == st.GetGatewayPriority(n)
    ensures forall c :: st.RegisterCountry(country, m, p).Eligible(c) ==
                        if c == country then st.Eligible(c) + {m} else st.Eligible(c)
  {
  }

  /** A freshly made registry. */
  const Empty := Scopes({}, map[], map[], map[])

  /** What GetAvailableGateways promises for country c: every method
      usable there, once each, by non-decreasing reported priority. */
  ghost predicate AvailableFor(st: Scopes, c: Country, gateways: seq<Method>) {
    && Distinct(gateways)
    && (forall m :: m in gateways <==> st.IsGatewayAvailable(c, m))
    && (forall i, j :: 0 <= i < j < |gateways| ==>
          st.GetGatewayPriority(gateways[i]) <= st.GetGatewayPriority(gateways[j]))
  }

  /** What GetRecommendations promises for country c: one entry per eligible
      method, each describing the method correctly, the region
      recommendations counted, the whole sorted by priority, and entries of
      equal priority in the order the loops emit them: country, then
      recommended region, then other region, then global. */
  ghost predicate RecommendedFor(st: Scopes, c: Country, recs: seq<Recommendation>) {
    && WellFormedFor(st, c, recs)
    && SortedBy(recs, PriorityOf)
    && TiesOrderedBy(recs, PriorityOf, EmitRankOf)
  }

  /** Registering the same grant twice leaves the same state as
      registering it once. */
  lemma RegisterIdempotent(st: Scopes, region: Region, country: Country, m: Method, p: int)
    ensures st.RegisterGlobal(m, p).RegisterGlobal(m, p) == st.RegisterGlobal(m, p)
    ensures st.RegisterRegion(region, m, p).RegisterRegion(region, m, p) == st.RegisterRegion(region, m, p)
    ensures st.RegisterCountry(country, m, p).RegisterCountry(country, m, p) == st.RegisterCountry(country, m, p)
  {
  }

  /** A region grant reaches exactly the countries the geography table
      lists under that region; a country grant reaches no other country. */
  lemma GrantReach(st: Scopes, region: Region, country: Country, m: Method, p: int)
    requires region != RegionGlobal
    requires forall c :: m !in st.Eligible(c)
    ensures forall c :: m in st.RegisterRegion(region, m, p).Eligible(c) <==> c in GetCountriesInRegion(region)
    ensures forall c :: m in st.RegisterCountry(country, m, p).Eligible(c) <==> c == country
  {
    RegisterRegionEffect(st, region, m, p);
    RegisterCountryEffect(st, country, m, p);
  }

  /** A grant to the "global" region reaches exactly the codes the
      geography table does not list, since those are the ones GetRegion
      sends to "global". */
  lemma GlobalRegionGrantReach(st: Scopes, m: Method, p: int)
    requires forall c :: m !in st.Eligible(c)
    ensures forall c :: m in st.RegisterRegion(RegionGlobal, m, p).Eligible(c) <==> c !in CountryToRegion
  {
    RegisterRegionEffect(st, RegionGlobal, m, p);
  }

  /** The state after the registration calls in grants, issued in order
      from st. */
  function Registered(st: Scopes, grants: seq<Grant>): Scopes
    decreases |grants|
  {
    if grants == [] then st
    else Registered(st, grants[..|grants| - 1]).Register(grants[|grants| - 1])
  }

  lemma RegisteredSnoc(st: Scopes, grants: seq<Grant>, g: Grant)
    ensures Registered(st, grants + [g]) == Registered(st, grants).Register(g)
  {
    assert (grants + [g])[..|grants|] == grants;
  }

  /** Issuing two batches of calls one after the other is issuing their
      concatenation. */
  lemma {:induction false} RegisteredAppend(st: Scopes, first: seq<Grant>, second: seq<Grant>)
    ensures Registered(st, first + second) == Registered(Registered(st, first), second)
    decreases |second|
  {
    if second == [] {
      assert first + second == first;
    } else {
      var init := second[..|second| - 1];
      var g := second[|second| - 1];
      assert second == init + [g];
      assert first + second == (first + init) + [g];
      RegisteredAppend(st, first, init);
      RegisteredSnoc(st, first + init, g);
      RegisteredSnoc(Registered(st, first), init, g);
    }
  }

  /** The methods the calls grant to country c. */
  ghost function CountryGrantsFor(grants: seq<Grant>, c: Country): set<Method> {
    set i | 0 <= i < |grants| && grants[i].CountryGrant? && grants[i].country == c :: grants[i].paymentMethod
  }

  /** The methods the calls grant to region r. */
  ghost function RegionGrantsFor(grants: seq<Grant>, r: Region): set<Method> {
    set i | 0 <= i < |grants| && grants[i].RegionGrant? && grants[i].region == r :: grants[i].paymentMethod
  }

  /** The methods the calls grant globally. */
  ghost function GlobalGrantsOf(grants: seq<Grant>): set<Method> {
    set i | 0 <= i < |grants| && grants[i].GlobalGrant? :: grants[i].paymentMethod
  }

  /** Scopes only grow: after a run of calls, country c holds what it held
      before plus every method the calls granted to it. */
  lemma {:induction false} RegisteredCountrySet(st: Scopes, grants: seq<Grant>, c: Country)
    ensures Registered(st, grants).CountrySet(c) == st.CountrySet(c) + CountryGrantsFor(grants, c)
    decreases |grants|
  {
    if grants == [] {
      assert CountryGrantsFor(grants, c) == {};
    } else {
      var init := grants[..|grants| - 1];
      var g := grants[|grants| - 1];
      RegisteredCountrySet(st, init, c);
      var added := if g.CountryGrant? && g.country == c then {g.paymentMethod} else {};
      forall m
        ensures m in CountryGrantsFor(grants, c) <==> m in CountryGrantsFor(init, c) + added
      {
        if m in CountryGrantsFor(init, c) {
          var i :| 0 <= i < |init| && init[i].CountryGrant? && init[i].country == c && init[i].paymentMethod == m;
          assert grants[i] == init[i];
        }
        if m in added {
          assert grants[|grants| - 1] == g;
        }
      }
    }
  }

  /** The region counterpart of RegisteredCountrySet. */
  lemma {:induction false} RegisteredRegionSet(st: Scopes, grants: seq<Grant>, r: Region)
    ensures Registered(st, grants).RegionSet(r) == st.RegionSet(r) + RegionGrantsFor(grants, r)
    decreases |grants|
  {
    if grants == [] {
      assert RegionGrantsFor(grants, r) == {};
    } else {
      var init := grants[..|grants| - 1];
      var g := grants[|grants| - 1];
      RegisteredRegionSet(st, init, r);
      var added := if g.RegionGrant? && g.region == r then {g.paymentMethod} else {};
      forall m
        ensures m in RegionGrantsFor(grants, r) <==> m in RegionGrantsFor(init, r) + added
      {
        if m in RegionGrantsFor(init, r) {
          var i :| 0 <= i < |init| && init[i].RegionGrant? && init[i].region == r && init[i].paymentMethod == m;
          assert grants[i] == init[i];
        }
        if m in added {
          assert grants[|grants| - 1] == g;
        }
      }
    }
  }

  /** The global counterpart of RegisteredCountrySet. */
  lemma {:induction false} RegisteredGlobal(st: Scopes, grants: seq<Grant>)
    ensures Registered(st, grants).global == st.global + GlobalGrantsOf(grants)
    decreases |grants|
  {
    if grants == [] {
      assert GlobalGrantsOf(grants) == {};
    } else {
      var init := grants[..|grants| - 1];
      var g := grants[|grants| - 1];
      RegisteredGlobal(st, init);
      var added := if g.GlobalGrant? then {g.paymentMethod} else {};
      forall m
        ensures m in GlobalGrantsOf(grants) <==> m in GlobalGrantsOf(init) + added
      {
        if m in GlobalGrantsOf(init) {
          var i :| 0 <= i < |init| && init[i].GlobalGrant? && init[i].paymentMethod == m;
          assert grants[i] == init[i];
        }
        if m in added {
          assert grants[|grants| - 1] == g;
        }
      }
    }
  }

  /** The last call naming m decides m's priority. */
  lemma RegisteredPriority(st: Scopes, grants: seq<Grant>, m: Method, i: nat)
    requires i < |grants| && grants[i].paymentMethod == m
    requires forall j :: i < j < |grants| ==> grants[j].paymentMethod != m
    ensures Registered(st, grants).GetGatewayPriority(m) == grants[i].priority
  {
    var upTo := grants[..i + 1];
    var after := grants[i + 1..];
    assert grants == upTo + after;
    assert upTo[..i] == grants[..i];
    RegisteredAppend(st, upTo, after);
    PriorityUntouched(Registered(st, upTo), after, m);
    var g := grants[i];
    match g
    case GlobalGrant(_, p) => RegisterGlobalEffect(Registered(st, grants[..i]), m, p);
    case RegionGrant(r, _, p) => RegisterRegionEffect(Registered(st, grants[..i]), r, m, p);
    case CountryGrant(c, _, p) => RegisterCountryEffect(Registered(st, grants[..i]), c, m, p);
  }

  /** Calls that never name m leave m's priority as it was. */
  lemma {:induction false} PriorityUntouched(st: Scopes, grants: seq<Grant>, m: Method)
    requires forall i :: 0 <= i < |grants| ==> grants[i].paymentMethod != m
    ensures Registered(st, grants).GetGatewayPriority(m) == st.GetGatewayPriority(m)
    decreases |grants|
  {
    if grants != [] {
      PriorityUntouched(st, grants[..|grants| - 1], m);
    }
  }

  /** The calls DefaultRegistry issues, in its order. */
  const DefaultGrants: seq<Grant> := [
    // Nepal
    CountryGrant(CountryNepal, "esewa", 1), CountryGrant(CountryNepal, "khalti", 2),
    CountryGrant(CountryNepal, "imepay", 3), CountryGrant(CountryNepal, "connectips", 4),
    // India
    CountryGrant(CountryIndia, "razorpay", 1), CountryGrant(CountryIndia, "paytm", 2),
    CountryGrant(CountryIndia, "phonepe", 3), CountryGrant(CountryIndia, "upi", 4),
    // Southeast Asia
    CountryGrant(CountrySingapore, "grab-pay", 1), CountryGrant(CountryMalaysia, "grab-pay", 1),
    CountryGrant(CountryThailand, "promptpay", 1), CountryGrant(CountryIndonesia, "gopay", 1),
    CountryGrant(CountryPhilippines, "gcash", 1),
    // global
    GlobalGrant("stripe", 10), GlobalGrant("paypal", 11), GlobalGrant("wise", 12),
    // regions
    RegionGrant(RegionEurope, "sepa", 5), RegionGrant(RegionNorthAmerica, "venmo", 5),
    RegionGrant(RegionAfrica, "mpesa", 1), RegionGrant(RegionLatinAmerica, "mercadopago", 1)]

  /** DefaultGrants, written as the calls append to a registry's history. */
  lemma DefaultGrantsInOrder()
    ensures [] + [CountryGrant(CountryNepal, "esewa", 1)] + [CountryGrant(CountryNepal, "khalti", 2)]
      + [CountryGrant(CountryNepal, "imepay", 3)] + [CountryGrant(CountryNepal, "connectips", 4)]
      + [CountryGrant(CountryIndia, "razorpay", 1)] + [CountryGrant(CountryIndia, "paytm", 2)]
      + [CountryGrant(CountryIndia, "phonepe", 3)] + [CountryGrant(CountryIndia, "upi", 4)]
      + [CountryGrant(CountrySingapore, "grab-pay", 1)] + [CountryGrant(CountryMalaysia, "grab-pay", 1)]
      + [CountryGrant(CountryThailand, "promptpay", 1)] + [CountryGrant(CountryIndonesia, "gopay", 1)]
      + [CountryGrant(CountryPhilippines, "gcash", 1)]
      + [GlobalGrant("stripe", 10)] + [GlobalGrant("paypal", 11)] + [GlobalGrant("wise", 12)]
      + [RegionGrant(RegionEurope, "sepa", 5)] + [RegionGrant(RegionNorthAmerica, "venmo", 5)]
      + [RegionGrant(RegionAfrica, "mpesa", 1)] + [RegionGrant(RegionLatinAmerica, "mercadopago", 1)]
      == DefaultGrants
  {
  }

  /** The registry DefaultRegistry builds. */
  const DefaultScopes: Scopes := Registered(Empty, DefaultGrants)

  /** The registry itself. Registration adds to a scope and overwrites the
      method's priority; the queries read it. */
  class GatewayRegistry {
    var globalGateways: set<Method>
    var regionGateways: map<Region, set<Method>>
    var countryGateways: map<Country, set<Method>>
    var gatewayPriority: map<Method, int>
    /** The registration calls made so far, oldest first. */
    ghost var issued: seq<Grant>

    function State(): Scopes
      reads this
    {
      Scopes(globalGateways, regionGateways, countryGateways, gatewayPriority)
    }

    ghost predicate Valid()
      reads this
    {
      State().Valid()
    }

    /** The registry holds exactly what replaying its calls from empty gives. */
    ghost predicate Replays()
      reads this
    {
      State() == Registered(Empty, issued)
    }

    constructor ()
      ensures Valid()
      ensures State() == Empty
      ensures issued == [] && Replays()
    {
      globalGateways := {};
      regionGateways := map[];
      countryGateways := map[];
      gatewayPriority := map[];
      issued := [];
    }

    method RegisterGlobalGateway(m: Method, p: int)
      requires Valid()
      modifies this
      ensures Valid()
      ensures State() == old(State()).RegisterGlobal(m, p)
      ensures issued == old(issued) + [GlobalGrant(m, p)]
      ensures old(Replays()) ==> Replays()
    {
      RegisteredSnoc(Empty, issued, GlobalGrant(m, p));
      issued := issued + [GlobalGrant(m, p)];
      globalGateways := globalGateways + {m};
      gatewayPriority := gatewayPriority[m := p];
    }

    method RegisterRegionGateway(r: Region, m: Method, p: int)
      requires Valid()
      modifies this
      ensures Valid()
      ensures State() == old(State()).RegisterRegion(r, m, p)
      ensures issued == old(issued) + [RegionGrant(r, m, p)]
      ensures old(Replays()) ==> Replays()
    {
      RegisteredSnoc(Empty, issued, RegionGrant(r, m, p));
      issued := issued + [RegionGrant(r, m, p)];
      if r !in regionGateways {
        regionGateways := regionGateways[r := {}];
      }
      regionGateways := regionGateways[r := regionGateways[r] + {m}];
      gatewayPriority := gatewayPriority[m := p];
      assert State() == old(State()).RegisterRegion(r, m, p);
      RegisterRegionEffect(old(State()), r, m, p);
    }

    method RegisterCountryGateway(c: Country, m: Method, p: int)
      requires Valid()
      modifies this
      ensures Valid()
      ensures State() == old(State()).RegisterCountry(c, m, p)
      ensures issued == old(issued) + [CountryGrant(c, m, p)]
      ensures old(Replays()) ==> Replays()
    {
      RegisteredSnoc(Empty, issued, CountryGrant(c, m, p));
      issued := issued + [CountryGrant(c, m, p)];
      if c !in countryGateways {
        countryGateways := countryGateways[c := {}];
      }
      countryGateways := countryGateways[c := countryGateways[c] + {m}];
      gatewayPriority := gatewayPriority[m := p];
      assert State() == old(State()).RegisterCountry(c, m, p);
      RegisterCountryEffect(old(State()), c, m, p);
    }

    /** Sorts methods in place by their priority, lowest first, keeping
        methods of equal priority in their order. */
    method SortByPriority(a: array<Method>)
      modifies a
      ensures SortedBy(a[..], PriorityKey(gatewayPriority))
      ensures Rearranged(a[..], old(a[..]), PriorityKey(gatewayPriority))
    {
      BubbleSortBy(a, PriorityKey(gatewayPriority));
    }

    /** Sorts recommendations in place by their priority field, keeping
        entries of equal priority in their order. */
    method SortRecommendations(a: array<Recommendation>)
      modifies a
      ensures SortedBy(a[..], PriorityOf)
      ensures Rearranged(a[..], old(a[..]), PriorityOf)
    {
      BubbleSortBy(a, PriorityOf);
    }

    /** Every method usable in country, once each, by ascending priority. */
    method GetAvailableGateways(country: Country) returns (gateways: seq<Method>)
      requires Valid()
      ensures AvailableFor(State(), country, gateways)
    {
      ghost var st := State();
      var region := GetRegion(country);
      var available := globalGateways;
      if region in regionGateways {
        available := available + regionGateways[region];
      }
      if country in countryGateways {
        available := available + countryGateways[country];
      }
      gateways := ListByPriority(available);
      SortedAvailable(st, country, available, gateways);
    }

    /** The methods of a set, each once, in Go's map order, then sorted
        by SortByPriority. */
    method ListByPriority(available: set<Method>) returns (gateways: seq<Method>)
      ensures Distinct(gateways)
      ensures forall m :: m in gateways <==> m in available
      ensures SortedBy(gateways, PriorityKey(gatewayPriority))
    {
      var listed := Enumerate(available);
      var a := new Method[|listed|](k requires 0 <= k < |listed| => listed[k]);
      assert a[..] == listed;
      SortByPriority(a);
      gateways := a[..];
      DistinctPermutation(listed, gateways);
      assert forall m :: m in gateways <==> m in multiset(listed);
    }

    /** The eligible methods for country, each tagged with the narrowest
        scope that grants it, sorted by priority. */
    method GetRecommendations(country: Country) returns (recs: seq<Recommendation>)
      requires Valid()
      ensures RecommendedFor(State(), country, recs)
    {
      ghost var st := State();
      var countryPart, regionPart, globalPart := CollectRecommendations(country);
      RecommendationsWellFormed(st, country, countryPart, regionPart, globalPart);
      var listed := countryPart + regionPart + globalPart;
      recs := RecommendationsByPriority(listed);
      PermutedRecommendations(st, country, listed, recs);
      JoinedRanks(st, country, countryPart, regionPart, globalPart);
      StableKeepsRankOrder(listed, recs, PriorityOf, EmitRankOf);
      assert RecommendedFor(st, country, recs);
    }

    /** The three enumeration loops of GetRecommendations, which append to
        one list: the entries each loop appended, in order. */
    method CollectRecommendations(country: Country)
      returns (countryPart: seq<Recommendation>, regionPart: seq<Recommendation>, globalPart: seq<Recommendation>)
      ensures EmittedParts(State(), country, countryPart, regionPart, globalPart)
    {
      var seen: set<Method>;
      countryPart, seen := EmitCountryGateways(country);
      regionPart, seen := EmitRegionGateways(country, seen, |countryPart|);
      globalPart, seen := EmitNew(|countryPart| + |regionPart|, seen, globalGateways, GlobalScope, gatewayPriority);
    }

    /** The first loop: the country's own gateways, all of them new. */
    method EmitCountryGateways(country: Country) returns (countryPart: seq<Recommendation>, seen: set<Method>)
      ensures seen == State().CountrySet(country)
      ensures EmitProgress(countryPart, State().CountrySet(country), CountryScope, gatewayPriority, 0)
    {
      countryPart, seen := [], {};
      if country in countryGateways {
        countryPart, seen := EmitNew(0, seen, countryGateways[country], CountryScope, gatewayPriority);
        assert countryGateways[country] - {} == countryGateways[country];
      }
    }

    /** The second loop: the gateways of the country's region not seen yet. */
    method EmitRegionGateways(country: Country, seen: set<Method>, emitted: nat)
      returns (regionPart: seq<Recommendation>, seen': set<Method>)
      requires seen == State().CountrySet(country)
      ensures seen' == seen + State().RegionSet(GetRegion(country))
      ensures EmitProgress(regionPart, State().RegionSet(GetRegion(country)) - seen, RegionScope, gatewayPriority, emitted)
    {
      regionPart, seen' := [], seen;
      var region := GetRegion(country);
      if region in regionGateways {
        regionPart, seen' := EmitNew(emitted, seen, regionGateways[region], RegionScope, gatewayPriority);
      }
    }

    /** The collected recommendations copied into a slice and sorted by
        SortRecommendations. */
    method RecommendationsByPriority(listed: seq<Recommendation>) returns (recs: seq<Recommendation>)
      ensures Rearranged(recs, listed, PriorityOf)
      ensures SortedBy(recs, PriorityOf)
    {
      var a := new Recommendation[|listed|](k requires 0 <= k < |listed| => listed[k]);
      assert a[..] == listed;
      SortRecommendations(a);
      recs := a[..];
    }
  }

  /** A fresh registry with the package's preset grants: Nepal's and
      India's own wallets, the Southeast Asian wallets, three global
      gateways and four regional ones. */
  method DefaultRegistry() returns (registry: GatewayRegistry)
    ensures fresh(registry)
    ensures registry.Valid()
    ensures registry.Replays()
    ensures registry.issued == DefaultGrants
    ensures registry.State() == DefaultScopes
  {
    registry := new GatewayRegistry();
    // Nepal-specific gateways
    registry.RegisterCountryGateway(CountryNepal, "esewa", 1);
    registry.RegisterCountryGateway(CountryNepal, "khalti", 2);
    registry.RegisterCountryGateway(CountryNepal, "imepay", 3);
    registry.RegisterCountryGateway(CountryNepal, "connectips", 4);
    // India-specific gateways
    registry.RegisterCountryGateway(CountryIndia, "razorpay", 1);
    registry.RegisterCountryGateway(CountryIndia, "paytm", 2);
    registry.RegisterCountryGateway(CountryIndia, "phonepe", 3);
    registry.RegisterCountryGateway(CountryIndia, "upi", 4);
    // Southeast Asia
    registry.RegisterCountryGateway(CountrySingapore, "grab-pay", 1);
    registry.RegisterCountryGateway(CountryMalaysia, "grab-pay", 1);
    registry.RegisterCountryGateway(CountryThailand, "promptpay", 1);
    registry.RegisterCountryGateway(CountryIndonesia, "gopay", 1);
    registry.RegisterCountryGateway(CountryPhilippines, "gcash", 1);
    // Global gateways
    registry.RegisterGlobalGateway("stripe", 10);
    registry.RegisterGlobalGateway("paypal", 11);
    registry.RegisterGlobalGateway("wise", 12);
    // Region-specific gateways
    registry.RegisterRegionGateway(RegionEurope, "sepa", 5);
    registry.RegisterRegionGateway(RegionNorthAmerica, "venmo", 5);
    registry.RegisterRegionGateway(RegionAfrica, "mpesa", 1);
    registry.RegisterRegionGateway(RegionLatinAmerica, "mercadopago", 1);
    DefaultGrantsInOrder();
  }

  /** An entry of the given scope as the enumeration loops build it. */
  ghost predicate EmittedAs(r: Recommendation, scope: Scope, priority: map<Method, int>) {
    && r.scope == scope && r.available
    && r.priority == PriorityKey(priority)(r.paymentMethod)
    && (scope == CountryScope ==> r.recommended)
    && (scope == GlobalScope ==> !r.recommended)
  }

  /** What one enumeration loop has emitted so far: one entry per method of
      emittedFor, with emitted entries before them in the whole list; a
      region entry is recommended exactly when fewer than RecommendLimit
      entries precede it in that list. */
  ghost predicate EmitProgress(added: seq<Recommendation>, emittedFor: set<Method>, scope: Scope,
                               priority: map<Method, int>, emitted: nat) {
    && |added| == |emittedFor|
    && Distinct(Project(added, MethodOf))
    && (forall x :: x in Project(added, MethodOf) <==> x in emittedFor)
    && (forall r :: r in added ==> EmittedAs(r, scope, priority))
    && (scope == RegionScope ==>
          forall k :: 0 <= k < |added| ==> (added[k].recommended <==> emitted + k < RecommendLimit))
    && CountWhere(added, IsRecommendedRegion) ==
         if scope == RegionScope then Min(|emittedFor|, Max(0, RecommendLimit - emitted)) else 0
  }

  /** One of the three enumeration loops of GetRecommendations: walks the
      methods of one scope in arbitrary order and emits an entry for each
      method not seen before, tagged with scope. A region entry is
      recommended while fewer than RecommendLimit entries precede it. */
  method EmitNew(emitted: nat, seen: set<Method>, methods: set<Method>, scope: Scope, priority: map<Method, int>)
    returns (added: seq<Recommendation>, seen': set<Method>)
    ensures seen' == seen + methods
    ensures EmitProgress(added, methods - seen, scope, priority, emitted)
  {
    added, seen' := [], seen;
    ghost var newOnes: set<Method> := {};
    var rest := methods;
    while rest != {}
      invariant rest <= methods
      invariant forall x :: x in seen' <==> x in seen || (x in methods && x !in rest)
      invariant forall x :: x in newOnes <==> x in methods && x !in rest && x !in seen
      invariant EmitProgress(added, newOnes, scope, priority, emitted)
      decreases |rest|
    {
      var m :| m in rest;
      rest := rest - {m};
      if m !in seen' {
        var recommended := match scope
          case CountryScope => true
          case RegionScope => emitted + |added| < RecommendLimit
          case GlobalScope => false;
        var entry := Recommendation(m, PriorityKey(priority)(m), scope, true, recommended);
        EmitStep(added, newOnes, entry, scope, priority, emitted);
        added := added + [entry];
        newOnes := newOnes + {m};
      }
      seen' := seen' + {m};
    }
    assert newOnes == methods - seen;
  }

  /** Emitting one more entry, for a method not emitted yet, keeps
      EmitProgress. */
  lemma EmitStep(added: seq<Recommendation>, emittedFor: set<Method>, entry: Recommendation,
                 scope: Scope, priority: map<Method, int>, emitted: nat)
    requires EmitProgress(added, emittedFor, scope, priority, emitted)
    requires entry.paymentMethod !in emittedFor
    requires EmittedAs(entry, scope, priority)
    requires scope == RegionScope ==> (entry.recommended <==> emitted + |added| < RecommendLimit)
    ensures EmitProgress(added + [entry], emittedFor + {entry.paymentMethod}, scope, priority, emitted)
  {
    AppendEntry(added, entry);
    RegionCountStep(|emittedFor|, emitted);
    if scope == RegionScope {
      PositionStep(added, entry, emitted);
    }
    var ms := Project(added, MethodOf);
    assert Project(added + [entry], MethodOf) == ms + [entry.paymentMethod];
  }

  /** The positional rule for region entries survives appending the entry
      that follows. */
  lemma PositionStep(added: seq<Recommendation>, entry: Recommendation, emitted: nat)
    requires forall k :: 0 <= k < |added| ==> (added[k].recommended <==> emitted + k < RecommendLimit)
    requires entry.recommended <==> emitted + |added| < RecommendLimit
    ensures forall k :: 0 <= k < |added + [entry]| ==>
      ((added + [entry])[k].recommended <==> emitted + k < RecommendLimit)
  {
    forall k | 0 <= k < |added + [entry]|
      ensures (added + [entry])[k].recommended <==> emitted + k < RecommendLimit
    {
      if k < |added| {
        assert (added + [entry])[k] == added[k];
      }
    }
  }

  /** One more region entry is recommended exactly when fewer than
      RecommendLimit entries precede it. */
  lemma RegionCountStep(n: nat, emitted: nat)
    ensures Min(n + 1, Max(0, RecommendLimit - emitted)) ==
      Min(n, Max(0, RecommendLimit - emitted)) + (if emitted + n < RecommendLimit then 1 else 0)
  {
  }

  /** What appending one entry does to the projections the loops track. */
  lemma AppendEntry(s: seq<Recommendation>, r: Recommendation)
    ensures Project(s + [r], MethodOf) == Project(s, MethodOf) + [r.paymentMethod]
    ensures CountWhere(s + [r], IsRecommendedRegion) ==
      CountWhere(s, IsRecommendedRegion) + (if IsRecommendedRegion(r) then 1 else 0)
  {
    ProjectAppend(s, [r], MethodOf);
    CountWhereAppend(s, [r], IsRecommendedRegion);
  }

  /** For registered methods the sort key is the reported priority, so a
      list of eligible methods sorted by the key is sorted by priority. */
  lemma SortKeyIsPriority(st: Scopes, c: Country, s: seq<Method>)
    requires st.Valid()
    requires forall m :: m in s ==> m in st.Eligible(c)
    requires SortedBy(s, PriorityKey(st.priority))
    ensures forall i, j :: 0 <= i < j < |s| ==> st.GetGatewayPriority(s[i]) <= st.GetGatewayPriority(s[j])
  {
    forall i, j | 0 <= i < j < |s|
      ensures st.GetGatewayPriority(s[i]) <= st.GetGatewayPriority(s[j])
    {
      EligibleHavePriority(st, c, s[i]);
      EligibleHavePriority(st, c, s[j]);
      assert PriorityKey(st.priority)(s[i]) <= PriorityKey(st.priority)(s[j]);
    }
  }

  /** The union's methods, listed once each and sorted by the sort key, are
      what GetAvailableGateways promises. */
  lemma SortedAvailable(st: Scopes, c: Country, available: set<Method>, gateways: seq<Method>)
    requires st.Valid()
    requires Distinct(gateways)
    requires available == st.global + st.RegionSet(GetRegion(c)) + st.CountrySet(c)
    requires forall m :: m in gateways <==> m in available
    requires SortedBy(gateways, PriorityKey(st.priority))
    ensures AvailableFor(st, c, gateways)
  {
    SortKeyIsPriority(st, c, gateways);
  }

  lemma EligibleHavePriority(st: Scopes, c: Country, m: Method)
    requires st.Valid()
    requires m in st.Eligible(c)
    ensures m in st.priority
    ensures PriorityKey(st.priority)(m) == st.GetGatewayPriority(m)
  {
  }

  /** A list GetAvailableGateways may return is as long as the union of the
      three scopes is large. */
  lemma AvailableLength(st: Scopes, c: Country, gateways: seq<Method>)
    requires AvailableFor(st, c, gateways)
    ensures |gateways| == |st.Eligible(c)|
  {
    DistinctLength(gateways, st.Eligible(c));
  }

  /** What one recommendation says about method r.paymentMethod in
      country c. */
  ghost predicate Describes(st: Scopes, c: Country, r: Recommendation) {
    && r.available
    && r.priority == st.GetGatewayPriority(r.paymentMethod)
    && r.scope == st.NarrowestScope(c, r.paymentMethod)
    && (r.scope == CountryScope ==> r.recommended)
    && (r.scope == GlobalScope ==> !r.recommended)
  }

  /** Everything GetRecommendations promises except order. */
  ghost predicate WellFormedFor(st: Scopes, c: Country, recs: seq<Recommendation>) {
    && Distinct(Project(recs, MethodOf))
    && (forall m :: m in Project(recs, MethodOf) <==> m in st.Eligible(c))
    && |recs| == |st.Eligible(c)|
    && (forall r :: r in recs ==> Describes(st, c, r))
    && CountWhere(recs, IsRecommendedRegion) == st.RecommendedRegionCount(c)
  }

  /** What the three enumeration loops of GetRecommendations leave: the
      country's methods, then the region's methods not seen yet, then the
      global methods not seen yet. */
  ghost predicate EmittedParts(st: Scopes, c: Country, countryPart: seq<Recommendation>,
                               regionPart: seq<Recommendation>, globalPart: seq<Recommendation>) {
    && EmitProgress(countryPart, st.CountrySet(c), CountryScope, st.priority, 0)
    && EmitProgress(regionPart, st.RegionSet(GetRegion(c)) - st.CountrySet(c),
                    RegionScope, st.priority, |countryPart|)
    && EmitProgress(globalPart, st.global - (st.CountrySet(c) + st.RegionSet(GetRegion(c))),
                    GlobalScope, st.priority, |countryPart| + |regionPart|)
  }

  /** The three parts, joined, have every property GetRecommendations
      promises except order. */
  lemma RecommendationsWellFormed(st: Scopes, c: Country, countryPart: seq<Recommendation>,
                                  regionPart: seq<Recommendation>, globalPart: seq<Recommendation>)
    requires st.Valid()
    requires EmittedParts(st, c, countryPart, regionPart, globalPart)
    ensures WellFormedFor(st, c, countryPart + regionPart + globalPart)
  {
    JoinedMethods(st, c, countryPart, regionPart, globalPart);
    JoinedLength(st, c, countryPart, regionPart, globalPart);
    JoinedDescribed(st, c, countryPart, regionPart, globalPart);
    JoinedRegionCount(st, c, countryPart, regionPart, globalPart);
  }

  lemma JoinedMethods(st: Scopes, c: Country, countryPart: seq<Recommendation>,
                      regionPart: seq<Recommendation>, globalPart: seq<Recommendation>)
    requires EmittedParts(st, c, countryPart, regionPart, globalPart)
    ensures Distinct(Project(countryPart + regionPart + globalPart, MethodOf))
    ensures forall m :: m in Project(countryPart + regionPart + globalPart, MethodOf) <==> m in st.Eligible(c)
  {
    ProjectAppend(countryPart, regionPart, MethodOf);
    ProjectAppend(countryPart + regionPart, globalPart, MethodOf);
    JoinDisjoint(Project(countryPart, MethodOf), Project(regionPart, MethodOf), Project(globalPart, MethodOf),
                 st.CountrySet(c), st.RegionSet(GetRegion(c)), st.global);
  }

  lemma JoinedLength(st: Scopes, c: Country, countryPart: seq<Recommendation>,
                     regionPart: seq<Recommendation>, globalPart: seq<Recommendation>)
    requires EmittedParts(st, c, countryPart, regionPart, globalPart)
    ensures |countryPart + regionPart + globalPart| == |st.Eligible(c)|
  {
    PartsCardinality(st.CountrySet(c), st.RegionSet(GetRegion(c)), st.global);
  }

  lemma JoinedDescribed(st: Scopes, c: Country, countryPart: seq<Recommendation>,
                        regionPart: seq<Recommendation>, globalPart: seq<Recommendation>)
    requires st.Valid()
    requires EmittedParts(st, c, countryPart, regionPart, globalPart)
    ensures forall r :: r in countryPart + regionPart + globalPart ==> Describes(st, c, r)
  {
    var cs, region := st.CountrySet(c), st.RegionSet(GetRegion(c));
    PartDescribed(st, c, countryPart, CountryScope, cs);
    PartDescribed(st, c, regionPart, RegionScope, region - cs);
    PartDescribed(st, c, globalPart, GlobalScope, st.global - (cs + region));
  }

  /** The loops emit country entries, then the recommended region entries,
      then the other region entries, then global ones. */
  lemma JoinedRanks(st: Scopes, c: Country, countryPart: seq<Recommendation>,
                    regionPart: seq<Recommendation>, globalPart: seq<Recommendation>)
    requires EmittedParts(st, c, countryPart, regionPart, globalPart)
    ensures SortedBy(countryPart + regionPart + globalPart, EmitRankOf)
  {
    assert forall p, q :: 0 <= p < q < |regionPart| && regionPart[q].recommended ==> regionPart[p].recommended;
    GroupsInOrder(countryPart, regionPart, globalPart);
  }

  lemma GroupsInOrder(countryPart: seq<Recommendation>, regionPart: seq<Recommendation>,
                      globalPart: seq<Recommendation>)
    requires forall r :: r in countryPart ==> r.scope == CountryScope
    requires forall r :: r in regionPart ==> r.scope == RegionScope
    requires forall p, q :: 0 <= p < q < |regionPart| && regionPart[q].recommended ==> regionPart[p].recommended
    requires forall r :: r in globalPart ==> r.scope == GlobalScope
    ensures SortedBy(countryPart + regionPart + globalPart, EmitRankOf)
  {
    var listed := countryPart + regionPart + globalPart;
    var n, m := |countryPart|, |countryPart| + |regionPart|;
    forall i, j | 0 <= i < j < |listed|
      ensures EmitRankOf(listed[i]) <= EmitRankOf(listed[j])
    {
      if i < n {
        assert listed[i] == countryPart[i];
      } else if j >= m {
        assert listed[j] == globalPart[j - m];
      } else {
        assert listed[i] == regionPart[i - n] && listed[j] == regionPart[j - n];
      }
    }
  }

  lemma JoinedRegionCount(st: Scopes, c: Country, countryPart: seq<Recommendation>,
                          regionPart: seq<Recommendation>, globalPart: seq<Recommendation>)
    requires EmittedParts(st, c, countryPart, regionPart, globalPart)
    ensures CountWhere(countryPart + regionPart + globalPart, IsRecommendedRegion) == st.RecommendedRegionCount(c)
  {
    CountWhereAppend(countryPart, regionPart, IsRecommendedRegion);
    CountWhereAppend(countryPart + regionPart, globalPart, IsRecommendedRegion);
  }

  /** Joining the country's methods, the region's others and the remaining
      global ones lists every eligible method exactly once. */
  lemma JoinDisjoint(pc: seq<Method>, pr: seq<Method>, pg: seq<Method>,
                     cs: set<Method>, region: set<Method>, global: set<Method>)
    requires Distinct(pc) && Distinct(pr) && Distinct(pg)
    requires forall m :: m in pc <==> m in cs
    requires forall m :: m in pr <==> m in region - cs
    requires forall m :: m in pg <==> m in global - (cs + region)
    ensures Distinct(pc + pr + pg)
    ensures forall m :: m in pc + pr + pg <==> m in global + region + cs
  {
    DistinctConcat(pc, pr);
    DistinctConcat(pc + pr, pg);
  }

  /** The entries of one part describe their methods correctly, when the
      part lists methods that scope is the narrowest grant of. */
  lemma PartDescribed(st: Scopes, c: Country, part: seq<Recommendation>, scope: Scope, methods: set<Method>)
    requires st.Valid()
    requires forall r :: r in part ==> EmittedAs(r, scope, st.priority)
    requires forall m :: m in Project(part, MethodOf) <==> m in methods
    requires methods <= st.Eligible(c)
    requires forall m :: m in methods ==> st.NarrowestScope(c, m) == scope
    ensures forall r :: r in part ==> Describes(st, c, r)
  {
    forall r | r in part
      ensures Describes(st, c, r)
    {
      ProjectedMember(part, r);
      EligibleHavePriority(st, c, r.paymentMethod);
    }
  }

  /** An entry's method is among the projected methods. */
  lemma ProjectedMember(s: seq<Recommendation>, r: Recommendation)
    requires r in s
    ensures r.paymentMethod in Project(s, MethodOf)
  {
    var i :| 0 <= i < |s| && s[i] == r;
    assert Project(s, MethodOf)[i] == r.paymentMethod;
  }

  /** The country's methods, the region's others and the remaining global
      ones split the eligible set into disjoint parts. */
  lemma PartsCardinality(cs: set<Method>, region: set<Method>, global: set<Method>)
    ensures |global + region + cs| == |cs| + |region - cs| + |global - (cs + region)|
  {
    assert cs + region == cs + (region - cs);
    assert cs * (region - cs) == {};
    assert |cs + region| == |cs| + |region - cs|;
    assert global + region + cs == (cs + region) + (global - (cs + region));
    assert (cs + region) * (global - (cs + region)) == {};
  }

  /** A well-formed list has one entry per method of each scope, counting
      a method only under the narrowest scope that grants it. */
  lemma RecommendationCount(st: Scopes, c: Country, recs: seq<Recommendation>)
    requires WellFormedFor(st, c, recs)
    ensures |recs| == |st.CountrySet(c)| + |st.RegionSet(GetRegion(c)) - st.CountrySet(c)|
                      + |st.global - (st.CountrySet(c) + st.RegionSet(GetRegion(c)))|
  {
    PartsCardinality(st.CountrySet(c), st.RegionSet(GetRegion(c)), st.global);
  }

  /** How many entries each scope tags: the country's methods, the region's
      methods the country does not have, and the remaining global ones. */
  lemma ScopeCounts(st: Scopes, c: Country, recs: seq<Recommendation>)
    requires WellFormedFor(st, c, recs)
    ensures CountWhere(recs, HasScope(CountryScope)) == |st.CountrySet(c)|
    ensures CountWhere(recs, HasScope(RegionScope)) == |st.RegionSet(GetRegion(c)) - st.CountrySet(c)|
    ensures CountWhere(recs, HasScope(GlobalScope)) ==
      |st.global - (st.CountrySet(c) + st.RegionSet(GetRegion(c)))|
  {
    var cs, region := st.CountrySet(c), st.RegionSet(GetRegion(c));
    NarrowestScopeSets(st, c);
    ScopeCount(st, c, recs, CountryScope, cs);
    ScopeCount(st, c, recs, RegionScope, region - cs);
    ScopeCount(st, c, recs, GlobalScope, st.global - (cs + region));
  }

  /** The eligible methods each scope is the narrowest grant of. */
  lemma NarrowestScopeSets(st: Scopes, c: Country)
    ensures forall m :: m in st.CountrySet(c) <==> m in st.Eligible(c) && st.NarrowestScope(c, m) == CountryScope
    ensures forall m :: m in st.RegionSet(GetRegion(c)) - st.CountrySet(c) <==>
      m in st.Eligible(c) && st.NarrowestScope(c, m) == RegionScope
    ensures forall m :: m in st.global - (st.CountrySet(c) + st.RegionSet(GetRegion(c))) <==>
      m in st.Eligible(c) && st.NarrowestScope(c, m) == GlobalScope
  {
  }

  /** The entries tagged with scope are one per method that scope is the
      narrowest grant of. */
  lemma ScopeCount(st: Scopes, c: Country, recs: seq<Recommendation>, scope: Scope, keys: set<Method>)
    requires WellFormedFor(st, c, recs)
    requires forall m :: m in keys <==> m in st.Eligible(c) && st.NarrowestScope(c, m) == scope
    ensures CountWhere(recs, HasScope(scope)) == |keys|
  {
    forall r | r in recs
      ensures HasScope(scope)(r) <==> MethodOf(r) in keys
    {
      ProjectedMember(recs, r);
    }
    CountByKeys(recs, MethodOf, HasScope(scope), keys);
  }

  /** Reordering keeps every property but order. */
  lemma PermutedRecommendations(st: Scopes, c: Country, listed: seq<Recommendation>, recs: seq<Recommendation>)
    requires WellFormedFor(st, c, listed)
    requires multiset(recs) == multiset(listed)
    ensures WellFormedFor(st, c, recs)
  {
    ProjectPermutation(listed, recs, MethodOf);
    DistinctPermutation(Project(listed, MethodOf), Project(recs, MethodOf));
    assert forall m :: m in Project(recs, MethodOf) <==> m in multiset(Project(listed, MethodOf));
    assert |recs| == |multiset(recs)| == |listed|;
    assert forall r :: r in recs <==> r in multiset(listed);
    CountWherePermutation(listed, recs, IsRecommendedRegion);
  }
}
