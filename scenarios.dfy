/** The registry scenarios of the package's tests (region_test.go) and of
    DefaultRegistry, stated about the registry contents each builds and
    about any result the queries' contracts allow. */
module RegistryScenarios {
  import opened Geography
  import opened Sequences
  import opened PaymentTypes
  import opened Registry

  /** Two Nepal wallets and one global card gateway. */
  const NepalWallets: Scopes :=
    Empty
      .RegisterCountry(CountryNepal, "esewa", 1)
      .RegisterCountry(CountryNepal, "khalti", 2)
      .RegisterGlobal("stripe", 10)

  lemma NepalWalletsAvailability()
    ensures NepalWallets.IsGatewayAvailable(CountryNepal, "esewa")
    ensures NepalWallets.IsGatewayAvailable(CountryNepal, "stripe")
    ensures !NepalWallets.IsGatewayAvailable(CountryUSA, "esewa")
  {
    KnownRegions();
  }

  lemma NepalWalletsFacts()
    ensures NepalWallets.Eligible(CountryNepal) == {"esewa", "khalti", "stripe"}
    ensures NepalWallets.GetGatewayPriority("esewa") == 1
    ensures NepalWallets.GetGatewayPriority("khalti") == 2
    ensures NepalWallets.GetGatewayPriority("stripe") == 10
  {
    KnownRegions();
  }

  /** Nepal's list has the three methods, eSewa first. */
  lemma NepalWalletsListed(gateways: seq<Method>)
    requires AvailableFor(NepalWallets, CountryNepal, gateways)
    ensures gateways == ["esewa", "khalti", "stripe"]
  {
    NepalWalletsFacts();
    OrderDetermined(NepalWallets, CountryNepal, gateways, "esewa", "khalti", "stripe");
  }

  /** A South Asian regional gateway. */
  const RegionalPay: Scopes := Empty.RegisterRegion(RegionSouthAsia, "regional-pay", 5)

  lemma RegionalPayAvailability()
    ensures RegionalPay.IsGatewayAvailable(CountryNepal, "regional-pay")
    ensures RegionalPay.IsGatewayAvailable(CountryIndia, "regional-pay")
    ensures !RegionalPay.IsGatewayAvailable(CountryUSA, "regional-pay")
  {
    KnownRegions();
  }

  /** Three Nepal gateways registered out of priority order. */
  const ThreePriorities: Scopes :=
    Empty
      .RegisterCountry(CountryNepal, "low-priority", 10)
      .RegisterCountry(CountryNepal, "high-priority", 1)
      .RegisterCountry(CountryNepal, "mid-priority", 5)

  lemma ThreePrioritiesFacts()
    ensures ThreePriorities.Eligible(CountryNepal) == {"high-priority", "mid-priority", "low-priority"}
    ensures ThreePriorities.GetGatewayPriority("high-priority") == 1
    ensures ThreePriorities.GetGatewayPriority("mid-priority") == 5
    ensures ThreePriorities.GetGatewayPriority("low-priority") == 10
  {
    KnownRegions();
  }

  /** The test's expected order: registration order does not matter. */
  lemma ThreePrioritiesOrdered(gateways: seq<Method>)
    requires AvailableFor(ThreePriorities, CountryNepal, gateways)
    ensures gateways == ["high-priority", "mid-priority", "low-priority"]
  {
    ThreePrioritiesFacts();
    OrderDetermined(ThreePriorities, CountryNepal, gateways, "high-priority", "mid-priority", "low-priority");
  }

  /** When three usable methods have distinct priorities, the list
      GetAvailableGateways returns is determined. */
  lemma OrderDetermined(st: Scopes, c: Country, gateways: seq<Method>, first: Method, second: Method, third: Method)
    requires AvailableFor(st, c, gateways)
    requires st.Eligible(c) == {first, second, third}
    requires st.GetGatewayPriority(first) < st.GetGatewayPriority(second) < st.GetGatewayPriority(third)
    ensures gateways == [first, second, third]
  {
    AvailableLength(st, c, gateways);
    ThreeSorted(st, gateways, first, second, third);
  }

  lemma ThreeSorted(st: Scopes, gateways: seq<Method>, first: Method, second: Method, third: Method)
    requires |gateways| == 3
    requires forall n :: n in gateways <==> n in {first, second, third}
    requires forall i, j :: 0 <= i < j < |gateways| ==>
      st.GetGatewayPriority(gateways[i]) <= st.GetGatewayPriority(gateways[j])
    requires st.GetGatewayPriority(first) < st.GetGatewayPriority(second) < st.GetGatewayPriority(third)
    ensures gateways == [first, second, third]
  {
    LeastFirst(st, gateways, first);
    GreatestLast(st, gateways, third);
    assert second in gateways;
  }

  /** In a list sorted by priority, a strictly cheapest member comes first. */
  lemma LeastFirst(st: Scopes, gateways: seq<Method>, m: Method)
    requires forall i, j :: 0 <= i < j < |gateways| ==>
      st.GetGatewayPriority(gateways[i]) <= st.GetGatewayPriority(gateways[j])
    requires m in gateways
    requires forall n :: n in gateways && n != m ==> st.GetGatewayPriority(m) < st.GetGatewayPriority(n)
    ensures gateways[0] == m
  {
    var k :| 0 <= k < |gateways| && gateways[k] == m;
    if k > 0 {
      assert st.GetGatewayPriority(gateways[0]) <= st.GetGatewayPriority(m);
    }
  }

  /** In a list sorted by priority, a strictly dearest member comes last. */
  lemma GreatestLast(st: Scopes, gateways: seq<Method>, m: Method)
    requires forall i, j :: 0 <= i < j < |gateways| ==>
      st.GetGatewayPriority(gateways[i]) <= st.GetGatewayPriority(gateways[j])
    requires m in gateways
    requires forall n :: n in gateways && n != m ==> st.GetGatewayPriority(n) < st.GetGatewayPriority(m)
    ensures gateways[|gateways| - 1] == m
  {
    var k :| 0 <= k < |gateways| && gateways[k] == m;
    if k < |gateways| - 1 {
      assert st.GetGatewayPriority(m) <= st.GetGatewayPriority(gateways[|gateways| - 1]);
    }
  }

  /** Two Nepal wallets, a South Asian gateway and a global one. */
  const MixedScopes: Scopes :=
    Empty
      .RegisterCountry(CountryNepal, "esewa", 1)
      .RegisterCountry(CountryNepal, "khalti", 2)
      .RegisterRegion(RegionSouthAsia, "regional", 5)
      .RegisterGlobal("stripe", 10)

  lemma MixedScopesFacts()
    ensures MixedScopes.CountrySet(CountryNepal) == {"esewa", "khalti"}
    ensures MixedScopes.RegionSet(GetRegion(CountryNepal)) == {"regional"}
    ensures MixedScopes.global == {"stripe"}
  {
    KnownRegions();
  }

  /** Four recommendations for Nepal: two country, one region, one global. */
  lemma MixedScopesRecommended(recs: seq<Recommendation>)
    requires RecommendedFor(MixedScopes, CountryNepal, recs)
    ensures |recs| == 4
    ensures CountWhere(recs, HasScope(CountryScope)) == 2
    ensures CountWhere(recs, HasScope(RegionScope)) == 1
    ensures CountWhere(recs, HasScope(GlobalScope)) == 1
  {
    MixedScopesFacts();
    OneOfEachButTwoCountry(MixedScopes, recs);
  }

  lemma OneOfEachButTwoCountry(st: Scopes, recs: seq<Recommendation>)
    requires st.CountrySet(CountryNepal) == {"esewa", "khalti"}
    requires st.RegionSet(GetRegion(CountryNepal)) == {"regional"}
    requires st.global == {"stripe"}
    requires RecommendedFor(st, CountryNepal, recs)
    ensures |recs| == 4
    ensures CountWhere(recs, HasScope(CountryScope)) == 2
    ensures CountWhere(recs, HasScope(RegionScope)) == 1
    ensures CountWhere(recs, HasScope(GlobalScope)) == 1
  {
    MixedSizes(st.CountrySet(CountryNepal), st.RegionSet(GetRegion(CountryNepal)), st.global);
    ScopeCounts(st, CountryNepal, recs);
    RecommendationCount(st, CountryNepal, recs);
  }

  lemma MixedSizes(cs: set<Method>, region: set<Method>, global: set<Method>)
    requires cs == {"esewa", "khalti"} && region == {"regional"} && global == {"stripe"}
    ensures |cs| == 2 && |region - cs| == 1 && |global - (cs + region)| == 1
  {
    assert region - cs == {"regional"};
    assert global - (cs + region) == {"stripe"};
  }

  /** One Nepal wallet and one global gateway. */
  const ValidationScopes: Scopes :=
    Empty.RegisterCountry(CountryNepal, "esewa", 1).RegisterGlobal("stripe", 10)

  lemma ValidationOutcomes()
    ensures ValidationScopes.ValidateGatewayForCountry(CountryNepal, "esewa") == Pass
    ensures ValidationScopes.ValidateGatewayForCountry(CountryNepal, "stripe") == Pass
    ensures ValidationScopes.ValidateGatewayForCountry(CountryUSA, "esewa") == Fail(NotAvailable("esewa", CountryUSA))
  {
    KnownRegions();
  }

  lemma DefaultAvailability()
    ensures DefaultScopes.IsGatewayAvailable(CountryNepal, "esewa")
    ensures DefaultScopes.IsGatewayAvailable(CountryNepal, "khalti")
    ensures DefaultScopes.IsGatewayAvailable(CountryUSA, "stripe")
    ensures DefaultScopes.IsGatewayAvailable(CountryNepal, "stripe")
  {
    DefaultNepalGrants();
  }

  /** The preset grants that reach Nepal: its four wallets, nothing for
      South Asia, and the three global gateways. */
  lemma DefaultNepalGrants()
    ensures DefaultScopes.CountrySet(CountryNepal) == {"esewa", "khalti", "imepay", "connectips"}
    ensures DefaultScopes.RegionSet(GetRegion(CountryNepal)) == {}
    ensures DefaultScopes.global == {"stripe", "paypal", "wise"}
  {
    KnownRegions();
    RegisteredCountrySet(Empty, DefaultGrants, CountryNepal);
    RegisteredRegionSet(Empty, DefaultGrants, RegionSouthAsia);
    RegisteredGlobal(Empty, DefaultGrants);
    DefaultNepalSets();
  }

  lemma DefaultNepalSets()
    ensures CountryGrantsFor(DefaultGrants, CountryNepal) == {"esewa", "khalti", "imepay", "connectips"}
    ensures RegionGrantsFor(DefaultGrants, RegionSouthAsia) == {}
    ensures GlobalGrantsOf(DefaultGrants) == {"stripe", "paypal", "wise"}
  {
    assert DefaultGrants[0].paymentMethod == "esewa";
    assert DefaultGrants[1].paymentMethod == "khalti";
    assert DefaultGrants[2].paymentMethod == "imepay";
    assert DefaultGrants[3].paymentMethod == "connectips";
    assert DefaultGrants[13].paymentMethod == "stripe";
    assert DefaultGrants[14].paymentMethod == "paypal";
    assert DefaultGrants[15].paymentMethod == "wise";
  }

  /** eSewa keeps the priority of its one registration, the global
      gateways theirs. */
  lemma DefaultNepalPriorities()
    ensures DefaultScopes.GetGatewayPriority("esewa") == 1
    ensures DefaultScopes.GetGatewayPriority("stripe") == 10
    ensures DefaultScopes.GetGatewayPriority("paypal") == 11
    ensures DefaultScopes.GetGatewayPriority("wise") == 12
  {
    RegisteredPriority(Empty, DefaultGrants, "esewa", 0);
    RegisteredPriority(Empty, DefaultGrants, "stripe", 13);
    RegisteredPriority(Empty, DefaultGrants, "paypal", 14);
    RegisteredPriority(Empty, DefaultGrants, "wise", 15);
  }

  /** Nepal's first recommendation comes from its own wallets: eSewa, at
      priority 1, sorts ahead of every global gateway. */
  lemma DefaultNepalFirstIsCountry(recs: seq<Recommendation>)
    requires RecommendedFor(DefaultScopes, CountryNepal, recs)
    ensures |recs| > 0
    ensures recs[0].scope == CountryScope
  {
    DefaultEsewaLeads();
    FirstIsCountry(DefaultScopes, CountryNepal, recs, "esewa");
  }

  /** eSewa is one of Nepal's own wallets and outranks every method Nepal
      only gets globally. */
  lemma DefaultEsewaLeads()
    ensures "esewa" in DefaultScopes.CountrySet(CountryNepal)
    ensures forall n :: n in DefaultScopes.Eligible(CountryNepal) - DefaultScopes.CountrySet(CountryNepal) ==>
      DefaultScopes.GetGatewayPriority("esewa") < DefaultScopes.GetGatewayPriority(n)
  {
    DefaultNepalGrants();
    DefaultNepalPriorities();
    var st := DefaultScopes;
    assert st.Eligible(CountryNepal) - st.CountrySet(CountryNepal) == {"stripe", "paypal", "wise"};
  }

  /** A Nepal wallet and a global gateway with the same priority. */
  const PriorityTie: Scopes :=
    Empty
      .RegisterCountry(CountryNepal, "local", 5)
      .RegisterGlobal("card", 5)

  lemma PriorityTieFacts()
    ensures PriorityTie.CountrySet(CountryNepal) == {"local"}
    ensures PriorityTie.RegionSet(GetRegion(CountryNepal)) == {}
    ensures PriorityTie.global == {"card"}
    ensures PriorityTie.GetGatewayPriority("local") == 5
    ensures PriorityTie.GetGatewayPriority("card") == 5
  {
    KnownRegions();
  }

  /** The tie goes to the country entry, which the first loop emitted. */
  lemma PriorityTieRecommended(recs: seq<Recommendation>)
    requires RecommendedFor(PriorityTie, CountryNepal, recs)
    ensures recs == [Recommendation("local", 5, CountryScope, true, true),
                     Recommendation("card", 5, GlobalScope, true, false)]
  {
    PriorityTieFacts();
    CountryWinsTie(PriorityTie, recs);
  }

  lemma CountryWinsTie(st: Scopes, recs: seq<Recommendation>)
    requires st.CountrySet(CountryNepal) == {"local"}
    requires st.RegionSet(GetRegion(CountryNepal)) == {}
    requires st.global == {"card"}
    requires st.GetGatewayPriority("local") == 5 && st.GetGatewayPriority("card") == 5
    requires RecommendedFor(st, CountryNepal, recs)
    ensures recs == [Recommendation("local", 5, CountryScope, true, true),
                     Recommendation("card", 5, GlobalScope, true, false)]
  {
    assert st.Eligible(CountryNepal) == {"local", "card"};
    assert |recs| == 2;
    FirstIsCountry(st, CountryNepal, recs, "local");
    assert recs[0] in recs && recs[1] in recs;
    var ms := Project(recs, MethodOf);
    assert ms[0] != ms[1];
    assert ms[0] in st.Eligible(CountryNepal) && ms[1] in st.Eligible(CountryNepal);
    assert recs[0].paymentMethod == "local";
    assert recs[1].paymentMethod == "card";
  }

  /** Four Nepal wallets at priority 2 and two South Asian gateways at
      priority 1: the region loop emits its first entry fifth, which is
      recommended, and its second sixth, which is not. */
  const RegionTie: Scopes := NepalFour.RegisterRegion(RegionSouthAsia, "ra", 1).RegisterRegion(RegionSouthAsia, "rb", 1)

  /** The four Nepal wallets of RegionTie. */
  const NepalFour: Scopes :=
    Empty
      .RegisterCountry(CountryNepal, "c1", 2)
      .RegisterCountry(CountryNepal, "c2", 2)
      .RegisterCountry(CountryNepal, "c3", 2)
      .RegisterCountry(CountryNepal, "c4", 2)

  lemma NepalFourFacts()
    ensures NepalFour.CountrySet(CountryNepal) == {"c1", "c2", "c3", "c4"}
    ensures NepalFour.RegionSet(RegionSouthAsia) == {}
    ensures NepalFour.global == {}
    ensures NepalFour.priority == map["c1" := 2, "c2" := 2, "c3" := 2, "c4" := 2]
  {
  }

  lemma RegionTieFacts()
    ensures RegionTie.CountrySet(CountryNepal) == {"c1", "c2", "c3", "c4"}
    ensures RegionTie.RegionSet(RegionSouthAsia) == {"ra", "rb"}
    ensures RegionTie.global == {}
    ensures RegionTie.priority == map["c1" := 2, "c2" := 2, "c3" := 2, "c4" := 2, "ra" := 1, "rb" := 1]
  {
    NepalFourFacts();
  }

  /** The two region entries lead, the recommended one first. */
  lemma RegionTieRecommended(recs: seq<Recommendation>)
    requires RecommendedFor(RegionTie, CountryNepal, recs)
    ensures |recs| == 6
    ensures recs[0].scope == RegionScope && recs[0].recommended
    ensures recs[1].scope == RegionScope && !recs[1].recommended
  {
    KnownRegions();
    RegionTieFacts();
    RegionEntriesLead(RegionTie, CountryNepal, recs);
    RecommendedRegionLeads(RegionTie, CountryNepal, recs);
  }

  lemma RegionEntriesLead(st: Scopes, c: Country, recs: seq<Recommendation>)
    requires st.CountrySet(c) == {"c1", "c2", "c3", "c4"}
    requires st.RegionSet(GetRegion(c)) == {"ra", "rb"}
    requires st.global == {}
    requires st.priority == map["c1" := 2, "c2" := 2, "c3" := 2, "c4" := 2, "ra" := 1, "rb" := 1]
    requires RecommendedFor(st, c, recs)
    ensures |recs| == 6
    ensures recs[0].scope == RegionScope && recs[1].scope == RegionScope
    ensures recs[0].priority == recs[1].priority
    ensures forall k :: 2 <= k < |recs| ==> recs[k].scope == CountryScope
  {
    RegionTieSizes(st.CountrySet(c), st.RegionSet(GetRegion(c)), st.global);
    RegionTieTiers(st, c);
    var ms := Project(recs, MethodOf);
    RegionTieMembers(st, c, recs, ms, "ra", "rb");
    RegionTiePriorities(st, c, recs, "ra", "rb");
    RegionTieScopes(st, c, recs, "ra", "rb");
    TwoLeastLead(recs, ms, "ra", "rb");
  }

  lemma RegionTieSizes(cs: set<Method>, region: set<Method>, global: set<Method>)
    requires cs == {"c1", "c2", "c3", "c4"} && region == {"ra", "rb"} && global == {}
    ensures |cs| == 4 && |region - cs| == 2 && |global + region + cs| == 6
  {
    assert region - cs == region;
    assert global + region + cs == {"c1", "c2", "c3", "c4", "ra", "rb"};
  }

  /** The region methods are priority 1 and region-scoped; the others
      priority 2 and country-scoped. */
  lemma RegionTieTiers(st: Scopes, c: Country)
    requires st.CountrySet(c) == {"c1", "c2", "c3", "c4"}
    requires st.RegionSet(GetRegion(c)) == {"ra", "rb"}
    requires st.global == {}
    requires st.priority == map["c1" := 2, "c2" := 2, "c3" := 2, "c4" := 2, "ra" := 1, "rb" := 1]
    ensures "ra" in st.Eligible(c) && "rb" in st.Eligible(c)
    ensures forall m :: m in st.Eligible(c) ==>
      st.GetGatewayPriority(m) == (if m == "ra" || m == "rb" then 1 else 2)
    ensures forall m :: m in st.Eligible(c) ==>
      st.NarrowestScope(c, m) == (if m == "ra" || m == "rb" then RegionScope else CountryScope)
  {
  }

  /** Both region methods are listed, and the list has no duplicates. */
  lemma RegionTieMembers(st: Scopes, c: Country, recs: seq<Recommendation>, ms: seq<Method>, a: Method, b: Method)
    requires WellFormedFor(st, c, recs)
    requires ms == Project(recs, MethodOf)
    requires a != b && a in st.Eligible(c) && b in st.Eligible(c)
    ensures |ms| == |recs| >= 2 && Distinct(ms) && a in ms && b in ms
  {
    assert a in ms && b in ms;
    TwoMembers(ms, a, b);
  }

  /** Each entry's priority follows from its method alone. */
  lemma RegionTiePriorities(st: Scopes, c: Country, recs: seq<Recommendation>, a: Method, b: Method)
    requires WellFormedFor(st, c, recs)
    requires forall m :: m in st.Eligible(c) ==> st.GetGatewayPriority(m) == (if m == a || m == b then 1 else 2)
    ensures forall k :: 0 <= k < |recs| ==>
      recs[k].priority == (if recs[k].paymentMethod == a || recs[k].paymentMethod == b then 1 else 2)
  {
    forall k | 0 <= k < |recs|
      ensures recs[k].priority == (if recs[k].paymentMethod == a || recs[k].paymentMethod == b then 1 else 2)
    {
      EntryPriority(st, c, recs, a, b, k);
    }
  }

  /** Each entry's scope follows from its method alone. */
  lemma RegionTieScopes(st: Scopes, c: Country, recs: seq<Recommendation>, a: Method, b: Method)
    requires WellFormedFor(st, c, recs)
    requires forall m :: m in st.Eligible(c) ==>
      st.NarrowestScope(c, m) == (if m == a || m == b then RegionScope else CountryScope)
    ensures forall k :: 0 <= k < |recs| ==>
      recs[k].scope == (if recs[k].paymentMethod == a || recs[k].paymentMethod == b then RegionScope else CountryScope)
  {
    forall k | 0 <= k < |recs|
      ensures recs[k].scope == (if recs[k].paymentMethod == a || recs[k].paymentMethod == b then RegionScope else CountryScope)
    {
      EntryScope(st, c, recs, a, b, k);
    }
  }

  lemma EntryPriority(st: Scopes, c: Country, recs: seq<Recommendation>, a: Method, b: Method, k: nat)
    requires WellFormedFor(st, c, recs)
    requires forall m :: m in st.Eligible(c) ==> st.GetGatewayPriority(m) == (if m == a || m == b then 1 else 2)
    requires k < |recs|
    ensures recs[k].priority == (if recs[k].paymentMethod == a || recs[k].paymentMethod == b then 1 else 2)
  {
    var m := recs[k].paymentMethod;
    assert recs[k] in recs;
    ProjectedMember(recs, recs[k]);
    assert Describes(st, c, recs[k]);
    assert st.GetGatewayPriority(m) == (if m == a || m == b then 1 else 2);
  }

  lemma EntryScope(st: Scopes, c: Country, recs: seq<Recommendation>, a: Method, b: Method, k: nat)
    requires WellFormedFor(st, c, recs)
    requires forall m :: m in st.Eligible(c) ==>
      st.NarrowestScope(c, m) == (if m == a || m == b then RegionScope else CountryScope)
    requires k < |recs|
    ensures recs[k].scope == (if recs[k].paymentMethod == a || recs[k].paymentMethod == b then RegionScope else CountryScope)
  {
    var m := recs[k].paymentMethod;
    assert recs[k] in recs;
    ProjectedMember(recs, recs[k]);
    assert Describes(st, c, recs[k]);
    assert st.NarrowestScope(c, m) == (if m == a || m == b then RegionScope else CountryScope);
  }

  lemma TwoMembers(ms: seq<Method>, a: Method, b: Method)
    requires a != b && a in ms && b in ms
    ensures |ms| >= 2
  {
    var ia :| 0 <= ia < |ms| && ms[ia] == a;
    var ib :| 0 <= ib < |ms| && ms[ib] == b;
    assert ia != ib;
  }

  /** In a list sorted by priority where the distinct methods a and b have
      priority 1 and every other method priority 2, a and b come first. */
  lemma TwoLeastLead(recs: seq<Recommendation>, ms: seq<Method>, a: Method, b: Method)
    requires |ms| == |recs| >= 2
    requires forall k :: 0 <= k < |recs| ==> ms[k] == recs[k].paymentMethod
    requires Distinct(ms)
    requires a != b && a in ms && b in ms
    requires forall k :: 0 <= k < |recs| ==>
      recs[k].priority == (if recs[k].paymentMethod == a || recs[k].paymentMethod == b then 1 else 2)
    requires SortedBy(recs, PriorityOf)
    ensures recs[0].priority == 1 && recs[1].priority == 1
    ensures forall k :: 2 <= k < |recs| ==> ms[k] != a && ms[k] != b
  {
    var ia :| 0 <= ia < |ms| && ms[ia] == a;
    var ib :| 0 <= ib < |ms| && ms[ib] == b;
    assert PriorityOf(recs[0]) <= PriorityOf(recs[1]);
  }

  /** Exactly one region entry is recommended, and stability puts it
      before the other. */
  lemma RecommendedRegionLeads(st: Scopes, c: Country, recs: seq<Recommendation>)
    requires st.CountrySet(c) == {"c1", "c2", "c3", "c4"}
    requires st.RegionSet(GetRegion(c)) == {"ra", "rb"}
    requires RecommendedFor(st, c, recs)
    requires |recs| == 6
    requires recs[0].scope == RegionScope && recs[1].scope == RegionScope
    requires recs[0].priority == recs[1].priority
    requires forall k :: 2 <= k < |recs| ==> recs[k].scope == CountryScope
    ensures recs[0].recommended && !recs[1].recommended
  {
    RegionTieCount(st, c);
    OneRecommendedLeads(recs);
  }

  lemma RegionTieCount(st: Scopes, c: Country)
    requires st.CountrySet(c) == {"c1", "c2", "c3", "c4"}
    requires st.RegionSet(GetRegion(c)) == {"ra", "rb"}
    ensures st.RecommendedRegionCount(c) == 1
  {
    RegionTieSizes(st.CountrySet(c), st.RegionSet(GetRegion(c)), {});
  }

  /** Two leading region entries of equal priority, one of them
      recommended, in emission order: the recommended one is first. */
  lemma OneRecommendedLeads(recs: seq<Recommendation>)
    requires |recs| >= 2
    requires CountWhere(recs, IsRecommendedRegion) == 1
    requires TiesOrderedBy(recs, PriorityOf, EmitRankOf)
    requires recs[0].scope == RegionScope && recs[1].scope == RegionScope
    requires recs[0].priority == recs[1].priority
    requires forall k :: 2 <= k < |recs| ==> recs[k].scope == CountryScope
    ensures recs[0].recommended && !recs[1].recommended
  {
    assert recs == recs[..2] + recs[2..];
    CountWhereAppend(recs[..2], recs[2..], IsRecommendedRegion);
    NoneCounted(recs[2..], IsRecommendedRegion);
    assert recs[..2][1..] == [recs[1]];
    assert EmitRankOf(recs[0]) <= EmitRankOf(recs[1]);
  }

  /** If a country method's priority is at most that of every method the
      country only gets through its region or globally, the first
      recommendation is a country one: ties go to the country entry. */
  lemma FirstIsCountry(st: Scopes, c: Country, recs: seq<Recommendation>, m: Method)
    requires RecommendedFor(st, c, recs)
    requires m in st.CountrySet(c)
    requires forall n :: n in st.Eligible(c) - st.CountrySet(c) ==> st.GetGatewayPriority(m) <= st.GetGatewayPriority(n)
    ensures |recs| > 0
    ensures recs[0].scope == CountryScope
  {
    assert m in Project(recs, MethodOf);
    var k :| 0 <= k < |recs| && Project(recs, MethodOf)[k] == m;
    assert recs[k] in recs && recs[0] in recs;
    var first := recs[0].paymentMethod;
    ProjectedMember(recs, recs[0]);
    assert first in st.Eligible(c);
    if k > 0 && first !in st.CountrySet(c) {
      assert recs[0].priority <= recs[k].priority;
      assert recs[k].scope == CountryScope;
      assert EmitRankOf(recs[0]) <= EmitRankOf(recs[k]);
    }
  }
}
