# Route decisions of the jasmin SMS gateway

This project models the route family of jasmin's router. A route pairs a list of
filters with one connector or a list of connectors, and for MT traffic a rate.
The variants are:

- `DefaultRoute`;
- `StaticMORoute` and `StaticMTRoute`;
- `RandomRoundrobinMORoute` and `RandomRoundrobinMTRoute`;
- `FailoverMORoute` and `FailoverMTRoute`.

For every variant the model covers:

- construction with validation of the filter list, the connector argument and the rate,
  each refusal being an `InvalidRouteParameter` or an `InvalidRouteFilter` error;
- `matchFilters` over a routable (a deliver_sm with its connector, or a submit_sm with its user);
- the connector a route hands out, including the failover cursor, which walks the list once and never wraps;
- `getRate`, and `getBillFor(user)` with the `Bill` it returns;
- `str` and `repr`.

The implementation of the routes is not part of this model's sources: the behaviour
is the one pinned down by the route test suite, `jasmin/routing/test/test_Routes.py`.
The modules are:

- `Entities` (entities.dfy): connectors, groups, users with their quotas, routables.
- `Text` (text.dfy): base-ten numbers and the two-decimal rate format, each with its parser.
- `Filters` (filters.dfy): connector, user and destination-address filters, and the
  destination-address pattern (literal characters, `.` and `*`, matched against the whole address).
- `Routes` (routes.dfy): arguments as dynamically typed `Value`s, validation, the route
  record, matching, rate, stateless connector choice, display.
- `Billing` (billing.dfy): the bill, and the user's MT credential whose quotas are set in place.
- `Failover` (failover.dfy): the failover route as an object with a cursor.
- `RouteScenarios` (route_scenarios.dfy): the fixtures of the test suite and what each test asserts, stated over the model.

## Model

| member | source | states |
|---|---|---|
| Text.ParseNatToString | jasmin/routing/test/test_Routes.py:46 | the connector count written in base ten reads back as the same number |
| Text.RoundHalfEven | jasmin/routing/test/test_Routes.py:232 | the rounded value is within one half of the input, and a tie goes to the even neighbour |
| Text.FormatRate2 | jasmin/routing/test/test_Routes.py:232 | a formatted rate has a point followed by exactly two digits |
| Text.FormatCentsRoundTrip | jasmin/routing/test/test_Routes.py:232 | reading back a two-decimal rendering gives the number of hundredths it was made from |
| Text.FormatRate2OfHundredths | jasmin/routing/test/test_Routes.py:254 | a rate that is a whole number of hundredths is rendered without rounding |
| Filters.Compile | jasmin/routing/test/test_Routes.py:24 | a pattern starting with `*` does not compile, nor does one using a metacharacter outside the modelled subset; a compiled pattern is no longer than its text |
| Filters.CompileRender | jasmin/routing/test/test_Routes.py:24 | compiling the text of a well-formed pattern gives that pattern back |
| Filters.CompileDotStar | jasmin/routing/test/test_Routes.py:24 | `.*` compiles to the match-everything pattern |
| Filters.MatchAllMatchesEverything | jasmin/routing/test/test_Routes.py:24 | the compiled `.*` matches every destination address |
| Filters.LiteralMatchesOnlyItself | jasmin/routing/test/test_Routes.py:24 | a pattern of literal characters matches exactly the address it spells |
| Filters.NewDestinationAddrFilter | jasmin/routing/test/test_Routes.py:24 | the filter is created exactly when its pattern compiles, and holds the compiled pattern |
| Filters.FullMatch | jasmin/routing/test/test_Routes.py:24 | a pattern without `*` matches only addresses as long as itself (the full-string match of `.*` and of literals is stated by the lemmas above) |
| Filters.Matches | jasmin/routing/test/test_Routes.py:131-138 | a filter matches only traffic of the direction it is used for |
| Filters.MatchAllFilters | jasmin/routing/test/test_Routes.py:131-138 | the early-exit scan of a filter list holds exactly when every filter matches |
| Routes.CheckFilterItems | jasmin/routing/test/test_Routes.py:87-95 | the list is accepted iff every element is a filter for the route's direction; otherwise the first refused element decides the error: a non-filter is a parameter error, a filter of the wrong direction a filter error |
| Routes.CheckFilters | jasmin/routing/test/test_Routes.py:87-95 | the filter argument is accepted iff it is a list of compatible filters, non-empty except on the default route; the error is a filter error iff the first refused element is a filter |
| Routes.CheckConnectors | jasmin/routing/test/test_Routes.py:189-191 | a single-connector route accepts exactly one connector; the others accept exactly a non-empty list of connectors of one kind, keeping their order; anything else is a parameter error |
| Routes.UniformIffSameKindName | jasmin/routing/test/test_Routes.py:389-392 | connectors are of one kind exactly when they all carry the same type name, so an HTTP and an SMPP client connector are not of one kind |
| Routes.CheckRate | jasmin/routing/test/test_Routes.py:234-237 | a rate is accepted iff it is a float and not negative; an int is refused, even 0 |
| Routes.Build | jasmin/routing/test/test_Routes.py:87-95 | a route is built iff filters, connectors and (unless MO) rate are accepted, checked in that order; the route is valid, keeps the checked filters and connectors, and carries rate 0 when MO |
| Routes.BuildComplete | jasmin/routing/test/test_Routes.py:84-85 | every valid route is what construction makes of its own filters, connectors and rate |
| Routes.DefaultRoute | jasmin/routing/test/test_Routes.py:224-237 | a default route takes one connector and an optional rate, 0 when omitted |
| Routes.StaticMORoute | jasmin/routing/test/test_Routes.py:239-246 | a static MO route is built iff its filters are MO filters and it gets one connector; its rate is 0 |
| Routes.StaticMORouteIgnoresRate | jasmin/routing/test/test_Routes.py:244-246 | a rate passed to a static MO route changes nothing |
| Routes.StaticMTRoute | jasmin/routing/test/test_Routes.py:248-262 | a static MT route is built iff its filters are MT filters, it gets one connector and a non-negative float rate, which it keeps |
| Routes.RandomRoundrobinMORoute | jasmin/routing/test/test_Routes.py:264-272 | built iff the filters are MO filters and the connector list is accepted; rate 0 |
| Routes.RandomRoundrobinMTRoute | jasmin/routing/test/test_Routes.py:274-292 | built iff the filters are MT filters, the connector list is accepted and the rate is a non-negative float, which it keeps |
| Routes.FailoverMORoute | jasmin/routing/test/test_Routes.py:372-375 | built iff the filters are MO filters and the connector list is accepted; rate 0 |
| Routes.FailoverMTRoute | jasmin/routing/test/test_Routes.py:418-422 | built iff the filters are MT filters, the connector list is accepted and the rate is a non-negative float |
| Routes.MultiConnectorShapeRefused | jasmin/routing/test/test_Routes.py:50 | a route needing a connector list refuses an empty list, a lone connector, a list with a non-connector and a list of mixed kinds, each as a parameter error |
| Routes.SingleConnectorShapeRefused | jasmin/routing/test/test_Routes.py:90 | a single-connector route refuses anything but a connector |
| Routes.RateChecked | jasmin/routing/test/test_Routes.py:259-262 | a rated route refuses any int rate and any negative rate, and accepts 0.0 |
| Routes.MatchFilters | jasmin/routing/test/test_Routes.py:110-115 | the default route answers with its connector; every other route answers true iff all its filters match |
| Routes.MoreFiltersMatchLess | jasmin/routing/test/test_Routes.py:131-138 | adding a filter to a route never widens what it matches |
| Routes.GetRate | jasmin/routing/test/test_Routes.py:239-246 | the rate is never negative and is 0 on every MO route |
| Routes.GetConnector | jasmin/routing/test/test_Routes.py:176-179 | a stateless route hands out one of its own connectors; a single-connector route always its only one |
| Routes.EveryConnectorReachable | jasmin/routing/test/test_Routes.py:176-179 | every connector of a random round-robin route is handed out for some choice of the random source |
| Routes.ItemList | jasmin/routing/test/test_Routes.py:54 | a non-empty connector listing ends with the closing parenthesis of its last connector |
| Routes.StrEnding | jasmin/routing/test/test_Routes.py:28-74 | the display form ends with the rate text, except on a multi-connector MO route, which ends with its last connector |
| Routes.NotRatedIff | jasmin/routing/test/test_Routes.py:228-232 | the display form ends with NOT RATED iff the route has a rate suffix and a rate of 0; a positive rate ends it with the formatted rate |
| Routes.Str | jasmin/routing/test/test_Routes.py:28-74 | the display form starts with the route's label and " to "; its ending is stated by StrEnding and NotRatedIff, and the asserted strings by the display scenarios |
| Routes.Repr | jasmin/routing/test/test_Routes.py:28-31 | the short form is the label, a prefix of the display form |
| Billing.GetAmount | jasmin/routing/test/test_Routes.py:337-346 | a bucket other than submit_sm and submit_sm_resp has amount 0 (the buckets' values are stated by BillFor) |
| Billing.GetAction | jasmin/routing/test/test_Routes.py:337-346 | an action is never negative and is 0 for any action but decrement_submit_sm_count |
| Billing.GetTotalAmounts | jasmin/routing/test/test_Routes.py:336 | the total is the sum of the submit_sm and submit_sm_resp amounts |
| Billing.BillFor | jasmin/routing/test/test_Routes.py:316-346 | a positive rate is charged in full when the balance is limited, nothing otherwise; without early decrement it all goes on submit_sm; with p percent, p percent of it goes on submit_sm; the submit_sm count is decremented by one iff it is limited |
| Billing.GetBillFor | jasmin/routing/test/test_Routes.py:316-318 | anything but a user is a parameter error; for a user the total is the route's rate when positive and the balance limited, otherwise 0 |
| Billing.MORoutesChargeNothing | jasmin/routing/test/test_Routes.py:301-302 | a bill for an MO route charges nothing |
| Billing.SplitPreservesTotal | jasmin/routing/test/test_Routes.py:340-346 | setting an early decrement percentage between 0 and 100 leaves the total unchanged and neither amount negative |
| Billing.ApplyUpdate | jasmin/routing/test/test_Routes.py:321-323 | an update sets the quota it names to the given value and leaves the other two as they were |
| Billing.BucketsReadBack | jasmin/routing/test/test_Routes.py:337-346 | getAmount on submit_sm and submit_sm_resp, and getAction on decrement_submit_sm_count, read back the bill's own amounts and count |
| Billing.MtCredential.SetQuota | jasmin/routing/test/test_Routes.py:321-323 | setting one quota changes that quota and leaves the others as they were |
| Billing.MtCredential.constructor | jasmin/routing/test/test_Routes.py:305 | a new credential has every quota unlimited |
| Failover.Served | jasmin/routing/test/test_Routes.py:377-382 | the i-th of the first k answers is the i-th connector while the list lasts, None after |
| Failover.ServedInOrder | jasmin/routing/test/test_Routes.py:377-382 | the first k calls hand out the first k connectors in order, each once, and no more than the list holds |
| Failover.NeverWraps | jasmin/routing/test/test_Routes.py:382 | every call after the list is used up answers None |
| Failover.FailoverRoute.constructor | jasmin/routing/test/test_Routes.py:379 | a new failover route starts with its cursor at the first connector |
| Failover.FailoverRoute.GetConnector | jasmin/routing/test/test_Routes.py:377-382 | each call answers the connector under the cursor and moves it on, answers None once the list is used up, and keeps the record of answers equal to the served sequence |
| Failover.FailoverRoute.GetConnectors | jasmin/routing/test/test_Routes.py:384-387 | the whole configured list, wherever the cursor is |
| Failover.FailoverRoute.MatchFilters | jasmin/routing/test/test_Routes.py:363-370 | true iff all the route's filters match |
| Failover.FailoverRoute.GetRate | jasmin/routing/test/test_Routes.py:333-338 | the configured rate: never negative, 0 on a failover MO route, the given rate on a failover MT route |
| Failover.NewFailoverMORoute | jasmin/routing/test/test_Routes.py:372-375 | a failover MO route object, built from filters and connectors with no rate, exists iff the route construction accepts them, and otherwise fails with the same error; it holds the built route and a fresh cursor |
| Failover.NewFailoverMTRoute | jasmin/routing/test/test_Routes.py:418-422 | a failover MT route object, built from filters, connectors and a rate, exists iff the route construction accepts them, and otherwise fails with the same error; it holds the built route and a fresh cursor |
| RouteScenarios.BothConnectorsChecked | jasmin/routing/test/test_Routes.py:176 | the list [abc, def] is accepted as it is |
| RouteScenarios.ConnectorTexts | jasmin/routing/test/test_Routes.py:30 | connectors abc and def of the generic kind are shown as generic(abc) and generic(def) |
| RouteScenarios.BothConnectorsListed | jasmin/routing/test/test_Routes.py:46 | [abc, def] is counted as 2 and listed as two tab-indented items |
| RouteScenarios.RatesFormatted | jasmin/routing/test/test_Routes.py:232 | 2.3 and 5.6 are rendered as 2.30 and 5.60 |
| RouteScenarios.RateTexts | jasmin/routing/test/test_Routes.py:282 | the rate texts of 2.3 and 5.6 are rated 2.30 and rated 5.60 |
| RouteScenarios.StaticMTRouteBuilt | jasmin/routing/test/test_Routes.py:29 | the static MT route of the display test is built with user 1's filter and connector def |
| RouteScenarios.StaticMTRouteDisplay | jasmin/routing/test/test_Routes.py:30-31 | its display form and its short form are the asserted strings |
| RouteScenarios.StaticMORouteBuilt | jasmin/routing/test/test_Routes.py:34 | the static MO route of the display test is built with connector abc's filter and connector def |
| RouteScenarios.StaticMORouteDisplay | jasmin/routing/test/test_Routes.py:35-36 | its display form and its short form are the asserted strings |
| RouteScenarios.DefaultRouteBuilt | jasmin/routing/test/test_Routes.py:39 | the default route of the display test is built with connector def and rate 0 |
| RouteScenarios.DefaultRouteDisplay | jasmin/routing/test/test_Routes.py:40-41 | its display form and its short form are the asserted strings |
| RouteScenarios.RandomRoundrobinMTRouteBuilt | jasmin/routing/test/test_Routes.py:44 | the random round-robin MT route is built over [abc, def] |
| RouteScenarios.RandomRoundrobinMTRouteDisplay | jasmin/routing/test/test_Routes.py:45-47 | its display form lists both connectors and ends with NOT RATED |
| RouteScenarios.RandomRoundrobinMORouteBuilt | jasmin/routing/test/test_Routes.py:53 | the random round-robin MO route is built over [abc, def] |
| RouteScenarios.RandomRoundrobinMORouteDisplay | jasmin/routing/test/test_Routes.py:54-55 | its display form lists both connectors and has no rate suffix |
| RouteScenarios.FailoverMTRouteBuilt | jasmin/routing/test/test_Routes.py:61 | the failover MT route is built over [abc, def] |
| RouteScenarios.FailoverMTRouteDisplay | jasmin/routing/test/test_Routes.py:62-63 | its display form lists both connectors and ends with NOT RATED |
| RouteScenarios.FailoverMORouteBuilt | jasmin/routing/test/test_Routes.py:69 | the failover MO route is built over [abc, def] |
| RouteScenarios.FailoverMORouteDisplay | jasmin/routing/test/test_Routes.py:70-71 | its display form lists both connectors and has no rate suffix |
| RouteScenarios.UnratedDefaultRouteBuilt | jasmin/routing/test/test_Routes.py:226-227 | the default route given no rate is built with connector abc and rate 0 |
| RouteScenarios.UnratedDefaultRouteDisplay | jasmin/routing/test/test_Routes.py:228 | its display form ends with NOT RATED |
| RouteScenarios.RatedDefaultRouteBuilt | jasmin/routing/test/test_Routes.py:230-231 | the default route given 2.3 keeps that rate |
| RouteScenarios.RatedDefaultRouteDisplay | jasmin/routing/test/test_Routes.py:232 | its display form ends with rated 2.30 |
| RouteScenarios.UnratedStaticMTRouteBuilt | jasmin/routing/test/test_Routes.py:249-250 | the static MT route given 0.0 is built with connector abc and rate 0 |
| RouteScenarios.UnratedStaticMTRouteDisplay | jasmin/routing/test/test_Routes.py:251 | its display form ends with NOT RATED |
| RouteScenarios.RatedStaticMTRouteBuilt | jasmin/routing/test/test_Routes.py:252-253 | the static MT route given 2.3 keeps that rate |
| RouteScenarios.RatedStaticMTRouteDisplay | jasmin/routing/test/test_Routes.py:254 | its display form ends with rated 2.30 |
| RouteScenarios.RatedStaticMORouteBuilt | jasmin/routing/test/test_Routes.py:244 | the static MO route given 2.3 is built with rate 0 |
| RouteScenarios.RatedStaticMORouteDisplay | jasmin/routing/test/test_Routes.py:245 | its display form says NOT RATED |
| RouteScenarios.RatedRandomRoundrobinMTRouteBuilt | jasmin/routing/test/test_Routes.py:279-280 | the random round-robin MT route given 5.6 keeps that rate |
| RouteScenarios.RatedRandomRoundrobinMTRouteDisplay | jasmin/routing/test/test_Routes.py:281-282 | its display form ends with rated 5.60 |
| RouteScenarios.EmptyConnectorListRefused | jasmin/routing/test/test_Routes.py:49-74 | every route needing a connector list refuses an empty one as a parameter error |
| RouteScenarios.StaticRouteParameters | jasmin/routing/test/test_Routes.py:83-90 | the static routes accept the standard arguments and refuse a non-list filter argument, a list of non-filters and a non-connector |
| RouteScenarios.FilterTypeCompatibility | jasmin/routing/test/test_Routes.py:92-95 | a filter list mixing directions, or holding a filter of the other direction, is a filter error |
| RouteScenarios.ConnectorListsChecked | jasmin/routing/test/test_Routes.py:187-191 | multi-connector routes accept [abc, def] and refuse a lone connector, [0, 1] and a list mixing an HTTP and an SMPP client connector |
| RouteScenarios.Rates | jasmin/routing/test/test_Routes.py:223-292 | the rates the rate tests read back, and the int and negative rates they see refused |
| RouteScenarios.Matching | jasmin/routing/test/test_Routes.py:110-215 | the verdicts of matchFilters in the matching tests, including the default route answering with its connector |
| RouteScenarios.MatchAllFilterMatchesEverything | jasmin/routing/test/test_Routes.py:311 | a route filtered by `.*` matches every routable |
| RouteScenarios.BillingRouteBuilt | jasmin/routing/test/test_Routes.py:307-313 | the billing test builds a route of every default or MT kind, keeping the given rate |
| RouteScenarios.TestBills | jasmin/routing/test/test_Routes.py:318-346 | the four bills the billing test expects, from the quotas it sets |
| RouteScenarios.CarriedOverQuotasBill | jasmin/routing/test/test_Routes.py:305-318 | with the quotas a previous pass of the loop left on the shared credential, the unrated bill still totals 0 and asks for one submit_sm count decrement |
| RouteScenarios.BillingScenario | jasmin/routing/test/test_Routes.py:299-346 | for every default or MT kind, starting from a fresh credential, the quotas are set in place on the credential in the test's order and each bill is computed from the quotas in force at its point of the test; each bill equals the expected one: a non-user is refused, a 0.0 rate charges nothing, 2.0 charges 2.0 on submit_sm, or 1.0 and 1.0 with early decrement at 50, and the submit_sm count is decremented |
| RouteScenarios.FailoverGetConnector | jasmin/routing/test/test_Routes.py:424-429 | on both failover kinds, three calls over [abc, def] answer abc, def, then None |
| RouteScenarios.FailoverGetConnectors | jasmin/routing/test/test_Routes.py:384-387 | getConnectors answers [abc, def] after a getConnector call has moved the cursor |

## Left out

- The implementation files of the routes, filters and routables are not part of this model. Every behaviour
  above is the one the route test suite asserts. Where the suite is silent, the model makes these choices:
  - an empty filter list is refused on every route but the default one;
  - connectors must be of one kind on every multi-connector route, not only on the failover MO route the suite tests;
  - a filter applied to traffic of the other direction does not match;
  - the validation order is filters, then connectors, then rate.
- Billing.BillFor: charges a positive rate only when the user's balance quota is limited. The suite sets a balance
  before its rated bills, so this is the reading it supports. The bill is a record with the two buckets and the
  one action the suite reads, not a general mapping.
- Filters.FullMatch: regular expressions are modelled only as literal characters, `.` and `*`, matched against
  the whole destination address. Filters.Compile refuses any other metacharacter (`+ ? ( ) [ ] { } ^ $ | \`),
  so character classes, anchors, alternation, groups and escapes are outside the model rather than read as
  literals. Here `.` also matches a newline, which a Python pattern without the DOTALL flag does not.
- Text.FormatRate2: rounds the exact rational rate to two decimals, ties to even. The binary floating-point value
  that a '%.2f' conversion actually sees is not modelled, so rates whose binary value lies on the other side of a
  tie may print differently.
- Rates and amounts are exact rationals (`real`), not binary floats.
- Entities.KindName: only "generic" is pinned by the suite. The names "smppc" and "http" for the SMPP client and
  HTTP connector kinds are the model's choice.
- The HTTP connector's base URL is opaque data and is not modelled.
- Routes.GetConnector: the random round-robin choice is a parameter `pick` supplied by the caller. The uniformity
  of the random source is not modelled.
- The failover cursor is modelled sequentially. Concurrent calls are not modelled.
- Python's `TypeError` for a wrong number of constructor arguments is not modelled. The signatures fix the arity
  instead: MT routes and failover MT route objects require a rate, the MO list routes and failover MO route objects
  take none, and the default and static MO routes take an optional one.
- The SMPP PDUs are not modelled. A routable keeps only its connector or user and its destination address.
- `BestQualityMTRoute` is not implemented by the system and its tests are skipped, so it is not modelled.
- The test harness, object copying and the reflection loop over route class names are not modelled.
  RouteScenarios.BillingScenario takes the route kind as a parameter instead.
- RouteScenarios.BillingScenario: the test's bill / setQuota / bill interleaving is replaced by snapshots. All
  setQuota calls are made first, the quotas in force after each group of them are kept, and every bill is then
  taken from the snapshot in force at its point of the test. getBillFor only reads the credential, so the bills
  are the same; the order of the calls is not captured.
- RouteScenarios.BillingScenario: each kind starts from a fresh credential with unlimited quotas. In the test,
  `copy.copy` is shallow, so every pass of the loop shares one credential, and from the second kind on the first
  bill starts from the quotas the previous pass set (RouteScenarios.CarriedOverQuotasBill states that bill).
