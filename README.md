# Payment façade core, modelled in Dafny

This project models the core of a Go payment façade (package `payment`). It has three parts:

- **Geography** (`region.go`): two package-level tables that the package never writes. One maps a region to the countries it lists. The other maps a country code to its region. `GetRegion` and `GetCountriesInRegion` look them up, falling back to the `"global"` region and to an empty list.
- **Gateway registry** (`registry.go`): a `GatewayRegistry` object with four maps:
  - global methods;
  - methods per region;
  - methods per country;
  - a priority per method (lower is preferred).

  Registration adds a method to one scope and overwrites its priority. The queries are:
  - whether a method is usable in a country;
  - the usable methods, sorted by priority;
  - recommendations, where each usable method is tagged with the narrowest scope that grants it, region entries are recommended while fewer than five entries were emitted before them, and the list is sorted by priority. Three loops emit the entries (country, then region, then global) and skip methods already emitted, so a method granted by several scopes appears once, under its narrowest scope. The sort has no tie-break but is a stable bubble sort, so entries of equal priority stay in the order the loops emitted them: country entries, then recommended region entries, then the other region entries, then global entries;
  - validation.

  `DefaultRegistry` issues a fixed list of twenty registrations.
- **Payment manager** (`manager.go`): a `PaymentManager` object with two maps, both keyed by payment method. One holds the installed gateway, the other the factory that builds a gateway from a configuration and the shared HTTP client. It routes the four payment operations (initiate, verify, refund, status) to the installed gateway. If no gateway is installed for the method, it reports "not registered".

How the modules are laid out:

- `types.dfy` (module `PaymentTypes`) holds the records the core passes around and the errors it reports. A gateway is a datatype whose four operations are function fields: the provider behind it is opaque, and the core only passes its answers on.
- `sequences.dfy` (module `Sequences`) holds generic sequence facts and the two imperative building blocks the Go code uses twice:
  - enumerating a map's keys in an order nobody can rely on (`Enumerate`, a loop with `:|`);
  - a bubble sort over an array (`BubbleSortBy`), proved sorted and stable. Stable means a permutation that keeps elements with equal keys in their order.
- `registry.dfy` (module `Registry`) has two layers:
  - a value `Scopes` with the registry's contents, and pure queries over it;
  - the `GatewayRegistry` class, whose methods are proved against those queries.

  Registration calls are also replayed as data (`Grant`, `Registered`), so facts about `DefaultRegistry` follow from general lemmas about replay.
- `manager.dfy` (module `Manager`) holds the `PaymentManager` class.
- `scenarios.dfy` (module `RegistryScenarios`) restates the registry cases of `region_test.go` as lemmas about what every result allowed by the contracts must look like.

## Model

| member | source | states |
|---|---|---|
| Geography.GetRegion | region.go:180-185 | The result is a key of the region table or "global"; it is not "global" exactly when the country is listed, and then the region's list contains the country |
| Geography.GetCountriesInRegion | region.go:188-193 | A country is in the result exactly when the region is not "global" and `GetRegion` maps the country to that region. No country appears twice, because no region list repeats one |
| Geography.TablesAgree | region.go:94-177 | A region lists a country exactly when the country table maps that country to the region; every region the country table names is a key of the region table |
| Geography.ListedCountriesMapBack | region.go:94-177 | Every country listed under a region maps back to that region |
| Geography.RegionsDisjoint | region.go:94-125 | No country is listed under two regions |
| Geography.RegionListsDistinct | region.go:94-125 | No region lists a country twice |
| Geography.KnownRegions | region_test.go:7-44 | NP and IN map to south-asia, US to north-america, SG to southeast-asia and GB to europe; south-asia lists NP |
| Geography.GlobalCountryFallback | region.go:180-185 | The "GLOBAL" code maps to the "global" region |
| Geography.GlobalRegionFallback | region.go:188-193 | The "global" region lists no country |
| Registry.Scopes.IsGatewayAvailable | registry.go:108-133 | The three-step check (global, then the country's region, then the country) holds exactly when the method is in the union of the three scopes that apply to the country |
| Registry.Scopes.GetGatewayPriority | registry.go:136-144 | A registered method reports its stored priority; a method that was never registered reports priority 999 |
| Registry.Scopes.ValidateGatewayForCountry | registry.go:280-285 | Passes exactly when the method is usable in the country; otherwise fails with the error naming the method and the country |
| Registry.ValidationMessage | registry.go:281-283 | Validation fails exactly when the method is not usable in the country, and then its error reads "gateway <method> is not available for country <country>" |
| PaymentTypes.PaymentError.Message | registry.go:282 | The error texts the core formats: not available (registry.go:282), no factory (manager.go:64) and not registered (manager.go:77); a provider's error text is passed on as it is |
| Registry.Scope.Name | registry.go:222-254 | The scope strings a recommendation carries: "country", "region" and "global" |
| Registry.ScopeNamesDistinct | registry.go:222-254 | Two scopes have the same name exactly when they are the same scope, so the string a recommendation carries identifies its scope |
| Registry.RegisterGlobalEffect | registry.go:36-42 | A global grant makes the method usable in every country, sets its priority, leaves every other priority alone, and keeps every granted method priced |
| Registry.RegisterRegionEffect | registry.go:45-54 | A region grant adds the method exactly in the countries of that region, sets its priority and leaves every other priority alone |
| Registry.RegisterCountryEffect | registry.go:57-66 | A country grant adds the method in that country only, sets its priority and leaves every other priority alone |
| Registry.RegisterIdempotent | registry.go:36-66 | Repeating a registration with the same arguments changes nothing |
| Registry.GrantReach | registry.go:45-66 | For a method not yet granted anywhere, a grant to a region other than "global" reaches exactly the countries `GetCountriesInRegion` lists, and a country grant reaches exactly that country |
| Registry.GlobalRegionGrantReach | registry.go:45-54 | For a method not yet granted anywhere, a grant to the region "global" reaches exactly the codes the country table does not list, because `GetRegion` sends those codes to "global" (region.go:184) |
| Registry.RegisteredAppend | registry.go:36-66 | Replaying two batches of registrations one after the other equals replaying their concatenation |
| Registry.RegisteredCountrySet | registry.go:57-66 | After any registrations, a country holds what it held before plus every method granted to it, and nothing else |
| Registry.RegisteredRegionSet | registry.go:45-54 | After any registrations, a region holds what it held before plus every method granted to it, and nothing else |
| Registry.RegisteredGlobal | registry.go:36-42 | After any registrations, the global scope is what it was plus every globally granted method |
| Registry.RegisteredPriority | registry.go:36-66 | A method's priority is the one given by the last registration that names it |
| Registry.PriorityUntouched | registry.go:36-66 | Registrations that never name a method leave its priority unchanged |
| Registry.GatewayRegistry.constructor | registry.go:26-33 | A new registry is empty and has replayed no registrations |
| Registry.GatewayRegistry.RegisterGlobalGateway | registry.go:36-42 | Adds the method to the global scope, overwrites its priority, keeps the registry valid and records the call |
| Registry.GatewayRegistry.RegisterRegionGateway | registry.go:45-54 | Adds the method to the region, creating the region's entry if absent, overwrites its priority, keeps the registry valid and records the call |
| Registry.GatewayRegistry.RegisterCountryGateway | registry.go:57-66 | Adds the method to the country, creating the country's entry if absent, overwrites its priority, keeps the registry valid and records the call |
| Registry.GatewayRegistry.SortByPriority | registry.go:147-159 | The array ends sorted by stored priority (0 when absent) and is a stable permutation of its old contents |
| Registry.GatewayRegistry.SortRecommendations | registry.go:268-277 | The array ends sorted by the recommendation priority and is a stable permutation of its old contents |
| Registry.GatewayRegistry.GetAvailableGateways | registry.go:69-105 | Returns every method usable in the country, each once and no other, in non-decreasing order of reported priority |
| Registry.GatewayRegistry.ListByPriority | registry.go:95-104 | Lists the collected set, each member once, sorted by the stored priority |
| Registry.SortedAvailable | registry.go:95-104 | Sorting by the stored priority is sorting by reported priority, because every usable method of a valid registry has a stored priority |
| Registry.AvailableLength | registry.go:69-105 | The available list is as long as the union of the three scopes |
| Registry.GatewayRegistry.GetRecommendations | registry.go:208-266 | One entry per usable method and none for any other method. Each entry is available, carries the method's priority, and is tagged with the narrowest scope that grants the method. Country entries are recommended and global ones are not. Exactly min(new region methods, max(0, 5 - country methods)) region entries are recommended. The list is sorted by priority, and entries of equal priority keep the loops' emission order: country entries, then recommended region entries, then the other region entries, then global entries |
| Registry.GatewayRegistry.CollectRecommendations | registry.go:212-260 | The three loops emit the country's methods, then the region's methods not seen yet, then the global methods not seen yet, each tagged with its loop's scope |
| Registry.GatewayRegistry.EmitCountryGateways | registry.go:215-229 | The country loop emits one recommended country entry per method granted to the country |
| Registry.GatewayRegistry.EmitRegionGateways | registry.go:231-246 | The region loop emits one region entry per region method the country loop did not emit; the entry at position k of the region part is recommended exactly when the entries before it in the whole list, country entries included, number fewer than five |
| Registry.GatewayRegistry.RecommendationsByPriority | registry.go:262-265 | The sorted recommendations are sorted by priority and are a permutation of the collected ones that keeps entries of equal priority in the order the loops emitted them |
| Registry.JoinedRanks | registry.go:212-260 | The three loops' joined output lists country entries, then the recommended region entries, then the other region entries, then global entries |
| Registry.EmitNew | registry.go:216-260 | One enumeration loop emits exactly one entry per method of its scope not seen before, and marks all of the scope's methods as seen |
| Registry.RecommendationsWellFormed | registry.go:212-260 | The three loops' output, joined, has every property of the recommendations except order |
| Registry.PermutedRecommendations | registry.go:262-265 | Reordering keeps every property of the recommendations except order |
| Registry.RecommendationCount | registry.go:212-260 | The number of recommendations is the number of country methods plus the new region methods plus the new global methods |
| Registry.ScopeCounts | registry.go:215-260 | Country, region and global entries number the country methods, the region methods the country lacks, and the global methods neither has |
| Registry.DefaultRegistry | registry.go:162-196 | Issues exactly the twenty preset registrations, in order, and holds the state they replay to |
| Sequences.Enumerate | registry.go:96-99 | A map's keys, listed by a loop over the map, each once, in no promised order |
| Sequences.BubbleSortBy | registry.go:147-159 | The Go bubble sort leaves the array sorted by the key and stably permuted |
| Sequences.StableKeepsRankOrder | registry.go:268-277 | A sort that only swaps neighbours with a strictly greater key keeps equal keys in their input order, so input ordered by a second rank leaves every run of equal keys ordered by that rank |
| RegistryScenarios.NepalWalletsAvailability | region_test.go:46-67 | With two Nepal wallets and global Stripe, eSewa and Stripe are usable in Nepal and eSewa is not usable in the US |
| RegistryScenarios.NepalWalletsListed | region_test.go:69-78 | Nepal's available list in that registry is eSewa, Khalti, Stripe |
| RegistryScenarios.RegionalPayAvailability | region_test.go:81-99 | A South Asian grant is usable in Nepal and India and not in the US |
| RegistryScenarios.ThreePrioritiesOrdered | region_test.go:101-117 | Three Nepal methods registered out of order come back ordered high, mid, low |
| RegistryScenarios.OrderDetermined | registry.go:69-105 | When three usable methods have distinct priorities, the available list is fully determined |
| RegistryScenarios.MixedScopesRecommended | region_test.go:152-183 | Two Nepal wallets, a South Asian method and a global one give four recommendations: two country, one region, one global |
| RegistryScenarios.ValidationOutcomes | region_test.go:185-203 | Validation passes for eSewa and Stripe in Nepal and fails for eSewa in the US with the error naming both |
| RegistryScenarios.DefaultAvailability | region_test.go:119-138 | The default registry offers eSewa and Khalti in Nepal and Stripe in Nepal and the US |
| RegistryScenarios.DefaultNepalFirstIsCountry | region_test.go:140-150 | The default registry's recommendations for Nepal are non-empty and the first one has the country scope |
| RegistryScenarios.FirstIsCountry | registry.go:208-277 | If a country method's priority is at most that of every method the country gets only through its region or globally, the first recommendation has the country scope |
| RegistryScenarios.PriorityTieRecommended | registry.go:208-277 | A Nepal wallet and a global gateway of equal priority are recommended in that order: the wallet, recommended, then the global gateway, not recommended |
| RegistryScenarios.RegionTieRecommended | registry.go:231-277 | With four Nepal wallets at priority 2 and two South Asian gateways at priority 1, the two region entries lead, and the recommended one (emitted fifth) comes before the one that is not (emitted sixth) |
| Manager.ClientTimeout | manager.go:19-22 | A zero timeout becomes 30 seconds; any other timeout is kept |
| Manager.PaymentManager.constructor | manager.go:19-41 | A new manager has no gateways and no factories, and its client has the settled timeout |
| Manager.PaymentManager.RegisterFactory | manager.go:44-48 | Sets the method's factory, replacing any earlier one, and leaves the gateways unchanged |
| Manager.PaymentManager.RegisterGateway | manager.go:51-55 | Sets the method's gateway, replacing any earlier one, and leaves the factories unchanged |
| Manager.PaymentManager.RegisterGatewayWithConfig | manager.go:58-70 | Without a factory, fails with the error "no factory registered for method: <method>" and changes nothing. With one, installs the gateway the factory builds from the configuration and the manager's client, replacing any earlier gateway. The factories never change |
| Manager.PaymentManager.GetGateway | manager.go:72-80 | Succeeds exactly when the method has a gateway and returns that gateway; otherwise returns the error "gateway <method> not registered" |
| Manager.PaymentManager.ListGateways | manager.go:82-91 | Returns exactly the methods with a gateway, each once |
| Manager.PaymentManager.InitiatePayment | manager.go:93-99 | An unknown method yields "not registered"; otherwise the gateway's answer, success or error, is returned unchanged; nothing is modified |
| Manager.PaymentManager.VerifyPayment | manager.go:101-107 | The same routing for verification |
| Manager.PaymentManager.RefundPayment | manager.go:109-115 | The same routing for refunds |
| Manager.PaymentManager.GetStatus | manager.go:117-123 | The same routing for status queries |
| Manager.ConfigureAndPay | manager.go:44-99 | Registering a factory, configuring and paying sends the payment to the gateway that factory built from that configuration and the manager's client |
| Manager.ConfigureWithoutFactory | manager.go:58-99 | With no factory and no gateway for a method, configuring fails and changes nothing, and paying reports the method as not registered |

## Left out

- Locking (`sync.RWMutex` in registry.go:22 and manager.go:16) is not modelled: every operation is taken as sequential.
- The HTTP client's transport settings (manager.go:27-34) are left out. Only the client's timeout is kept.
- The provider gateways (eSewa, Khalti, IMEPay, ConnectIPS, Stripe, PayPal, Razorpay) are left out. They do HTTP, JSON decoding, hashing, money formatting, float parsing and use the clock. Each gateway is an opaque value whose four operations are function fields.
- `context.Context` arguments of the four routing methods are dropped, because the core only passes them on to the gateway.
- The setup package and the example programs are process wiring and are not part of this model. So are the manager methods they call but manager.go does not define.
- `Money`, from the external money library, is a record of minor units and a currency code. Its formatting is not modelled.
- Go map iteration order is nondeterministic and is modelled as an arbitrary choice (`:|`), so the model states no fact that depends on it. These orders depend on it, in the code as in the model: the order of equal-priority methods from `GetAvailableGateways`, the order of equal-priority recommendations of the same scope from `GetRecommendations`, and the whole order of `ListGateways`, which does not sort.
- The three union loops of `GetAvailableGateways` (registry.go:75-93) are modelled as set unions. The boolean map sets of registry.go are sets of methods.
- Registry.GatewayRegistry.RegisterRegionGateway and Registry.GatewayRegistry.RegisterCountryGateway: Go's check for a nil inner map (registry.go:49-51 and 61-63) is modelled as a check for a missing key. The registry never stores a nil inner map, so the two agree.
- `RegionMap` and `CountryToRegion` are exported package variables (region.go:94 and 128), and `GetCountriesInRegion` returns the table's own slice (region.go:189-190), so an importer could change either table. The package never writes them, and the model takes both as constants with their initial contents: `TablesAgree`, `RegionsDisjoint` and `RegionListsDistinct` are facts about those contents only.
- The `ExtraConfig` map of `GatewayConfig` (types.go:117) is dropped. The core only hands the configuration to a factory and never reads that field.
- Nil gateways and nil factories are not modelled. Go accepts them in `RegisterGateway` and `RegisterFactory` (manager.go:51-55 and 44-48) and panics when one is later called (manager.go:67 for a factory, the routing methods for a gateway). The model has no nil values: every gateway and factory is a total function.
