/** The routing test suite's scenarios, stated over the model: the fixtures
    (two generic connectors "abc" and "def", users 1 and 2 of group 100, and
    the filter lists) and what each test asserts. */
module RouteScenarios {
  import opened Entities
  import opened Filters
  import opened Text
  import opened Routes
  import opened Billing
  import opened Failover

  const Connector1 := Connector("abc", Generic)
  const Connector2 := Connector("def", Generic)
  const Group100 := Group(100)
  const User1 := User(1, Group100, "username", "password", UnlimitedQuotas)
  const User2 := User(2, Group100, "username", "password", UnlimitedQuotas)

  const InvalidFilter := VList([VFilter(ConnectorFilter(Connector1)), VFilter(UserFilter(User1))])
  const SimpleFilterMO := VList([VFilter(ConnectorFilter(Connector1))])
  const SimpleFilterMT := VList([VFilter(UserFilter(User1))])
  const SimpleFilterAll := VList([VFilter(DestinationAddrFilter(MatchAll))])
  const BothConnectors := VList([VConnector(Connector1), VConnector(Connector2)])

  // ---- Display strings ----
  // Each expected text is written as the pieces the display form is made of.

  const Both := [Connector1, Connector2]

  lemma BothConnectorsChecked()
    ensures CheckConnectors(false, BothConnectors) == Ok(Both)
  {
    var r := CheckConnectors(false, BothConnectors);
    assert AllConnectors(BothConnectors.items);
    assert |r.value| == 2 && r.value[0] == Connector1 && r.value[1] == Connector2;
    assert r.value == Both;
  }

  lemma ConnectorTexts()
    ensures ConnectorText(Connector1) == "generic(abc)"
    ensures ConnectorText(Connector2) == "generic(def)"
  {
  }

  lemma LastConnectorListed()
    ensures ItemList([Connector2]) == "\n\t- generic(def)"
  {
    ConnectorTexts();
    assert [Connector2][1..] == [];
  }

  lemma BothConnectorsListed()
    ensures NatToString(|Both|) == "2"
    ensures ItemList(Both) == "\n\t- generic(abc)\n\t- generic(def)"
  {
    ConnectorTexts();
    LastConnectorListed();
    assert Both[1..] == [Connector2];
    assert ItemList(Both) == "\n\t- " + "generic(abc)" + "\n\t- generic(def)";
  }

  /** '%.2f' of the rates the tests use. */
  lemma RatesFormatted()
    ensures FormatRate2(2.3) == "2.30" && FormatRate2(5.6) == "5.60"
  {
    assert 2.3 * 100.0 == 230.0 && RoundHalfEven(230.0) == 230;
    assert 5.6 * 100.0 == 560.0 && RoundHalfEven(560.0) == 560;
    assert NatToString(2) == "2" && NatToString(5) == "5";
  }

  lemma RateTexts()
    ensures "rated " + FormatRate2(2.3) == "rated 2.30"
    ensures "rated " + FormatRate2(5.6) == "rated 5.60"
  {
    RatesFormatted();
  }

  lemma StaticMTRouteBuilt()
    ensures StaticMTRoute(SimpleFilterMT, VConnector(Connector2), VFloat(0.0))
      == Ok(Route(StaticMT, [UserFilter(User1)], [Connector2], 0.0))
  {
    assert CheckFilters(MTType, SimpleFilterMT).value == [UserFilter(User1)];
  }

  lemma StaticMTRouteDisplay()
    ensures Str(Route(StaticMT, [UserFilter(User1)], [Connector2], 0.0))
      == "StaticMTRoute" + " to " + "generic(def)" + " " + "NOT RATED"
    ensures Repr(Route(StaticMT, [UserFilter(User1)], [Connector2], 0.0)) == "StaticMTRoute"
  {
    var r := Route(StaticMT, [UserFilter(User1)], [Connector2], 0.0);
    assert r.Valid();
    assert Label(r.kind) == "StaticMTRoute";
    assert RateText(r) == "NOT RATED";
  }

  lemma StaticMORouteBuilt()
    ensures StaticMORoute(SimpleFilterMO, VConnector(Connector2), None)
      == Ok(Route(StaticMO, [ConnectorFilter(Connector1)], [Connector2], 0.0))
  {
    assert CheckFilters(MOType, SimpleFilterMO).value == [ConnectorFilter(Connector1)];
  }

  lemma StaticMORouteDisplay()
    ensures Str(Route(StaticMO, [ConnectorFilter(Connector1)], [Connector2], 0.0))
      == "StaticMORoute" + " to " + "generic(def)" + " " + "NOT RATED"
    ensures Repr(Route(StaticMO, [ConnectorFilter(Connector1)], [Connector2], 0.0)) == "StaticMORoute"
  {
    var r := Route(StaticMO, [ConnectorFilter(Connector1)], [Connector2], 0.0);
    assert r.Valid();
    assert Label(r.kind) == "StaticMORoute";
    assert RateText(r) == "NOT RATED";
  }

  lemma DefaultRouteBuilt()
    ensures DefaultRoute(VConnector(Connector2), None)
      == Ok(Route(Default, [], [Connector2], 0.0))
  {
  }

  lemma DefaultRouteDisplay()
    ensures Str(Route(Default, [], [Connector2], 0.0))
      == "DefaultRoute" + " to " + "generic(def)" + " " + "NOT RATED"
    ensures Repr(Route(Default, [], [Connector2], 0.0)) == "DefaultRoute"
  {
    var r := Route(Default, [], [Connector2], 0.0);
    assert r.Valid();
    assert Label(r.kind) == "DefaultRoute";
    assert RateText(r) == "NOT RATED";
  }

  lemma RandomRoundrobinMTRouteBuilt()
    ensures RandomRoundrobinMTRoute(SimpleFilterMT, BothConnectors, VFloat(0.0))
      == Ok(Route(RandomRoundrobinMT, [UserFilter(User1)], Both, 0.0))
  {
    BothConnectorsChecked();
    assert CheckFilters(MTType, SimpleFilterMT).value == [UserFilter(User1)];
  }

  lemma RandomRoundrobinMTRouteDisplay()
    ensures Str(Route(RandomRoundrobinMT, [UserFilter(User1)], Both, 0.0))
      == "RandomRoundrobinMTRoute" + " to " + "2" + " connectors:" + "\n\t- generic(abc)\n\t- generic(def)" + " \n" + "NOT RATED"
    ensures Repr(Route(RandomRoundrobinMT, [UserFilter(User1)], Both, 0.0)) == "RandomRoundrobinMTRoute"
  {
    var r := Route(RandomRoundrobinMT, [UserFilter(User1)], Both, 0.0);
    assert r.Valid();
    assert Label(r.kind) == "RandomRoundrobinMTRoute";
    BothConnectorsListed();
    assert RateText(r) == "NOT RATED";
  }

  /** MO routes have no rate line. */
  lemma RandomRoundrobinMORouteBuilt()
    ensures RandomRoundrobinMORoute(SimpleFilterMO, BothConnectors)
      == Ok(Route(RandomRoundrobinMO, [ConnectorFilter(Connector1)], Both, 0.0))
  {
    BothConnectorsChecked();
    assert CheckFilters(MOType, SimpleFilterMO).value == [ConnectorFilter(Connector1)];
  }

  lemma RandomRoundrobinMORouteDisplay()
    ensures Str(Route(RandomRoundrobinMO, [ConnectorFilter(Connector1)], Both, 0.0))
      == "RandomRoundrobinMORoute" + " to " + "2" + " connectors:" + "\n\t- generic(abc)\n\t- generic(def)"
    ensures Repr(Route(RandomRoundrobinMO, [ConnectorFilter(Connector1)], Both, 0.0)) == "RandomRoundrobinMORoute"
  {
    var r := Route(RandomRoundrobinMO, [ConnectorFilter(Connector1)], Both, 0.0);
    assert r.Valid();
    assert Label(r.kind) == "RandomRoundrobinMORoute";
    BothConnectorsListed();
    assert RateText(r) == "NOT RATED";
  }

  lemma FailoverMTRouteBuilt()
    ensures FailoverMTRoute(SimpleFilterMT, BothConnectors, VFloat(0.0))
      == Ok(Route(FailoverMT, [UserFilter(User1)], Both, 0.0))
  {
    BothConnectorsChecked();
    assert CheckFilters(MTType, SimpleFilterMT).value == [UserFilter(User1)];
  }

  lemma FailoverMTRouteDisplay()
    ensures Str(Route(FailoverMT, [UserFilter(User1)], Both, 0.0))
      == "FailoverMTRoute" + " to " + "2" + " connectors:" + "\n\t- generic(abc)\n\t- generic(def)" + " \n" + "NOT RATED"
    ensures Repr(Route(FailoverMT, [UserFilter(User1)], Both, 0.0)) == "FailoverMTRoute"
  {
    var r := Route(FailoverMT, [UserFilter(User1)], Both, 0.0);
    assert r.Valid();
    assert Label(r.kind) == "FailoverMTRoute";
    BothConnectorsListed();
    assert RateText(r) == "NOT RATED";
  }

  lemma FailoverMORouteBuilt()
    ensures FailoverMORoute(SimpleFilterMO, BothConnectors)
      == Ok(Route(FailoverMO, [ConnectorFilter(Connector1)], Both, 0.0))
  {
    BothConnectorsChecked();
    assert CheckFilters(MOType, SimpleFilterMO).value == [ConnectorFilter(Connector1)];
  }

  lemma FailoverMORouteDisplay()
    ensures Str(Route(FailoverMO, [ConnectorFilter(Connector1)], Both, 0.0))
      == "FailoverMORoute" + " to " + "2" + " connectors:" + "\n\t- generic(abc)\n\t- generic(def)"
    ensures Repr(Route(FailoverMO, [ConnectorFilter(Connector1)], Both, 0.0)) == "FailoverMORoute"
  {
    var r := Route(FailoverMO, [ConnectorFilter(Connector1)], Both, 0.0);
    assert r.Valid();
    assert Label(r.kind) == "FailoverMORoute";
    BothConnectorsListed();
    assert RateText(r) == "NOT RATED";
  }

  lemma UnratedDefaultRouteBuilt()
    ensures DefaultRoute(VConnector(Connector1), None)
      == Ok(Route(Default, [], [Connector1], 0.0))
  {
  }

  lemma UnratedDefaultRouteDisplay()
    ensures Str(Route(Default, [], [Connector1], 0.0))
      == "DefaultRoute" + " to " + "generic(abc)" + " " + "NOT RATED"
  {
    var r := Route(Default, [], [Connector1], 0.0);
    assert r.Valid();
    assert Label(r.kind) == "DefaultRoute";
    assert RateText(r) == "NOT RATED";
  }

  lemma RatedDefaultRouteBuilt()
    ensures DefaultRoute(VConnector(Connector1), Some(VFloat(2.3)))
      == Ok(Route(Default, [], [Connector1], 2.3))
  {
  }

  lemma RatedDefaultRouteDisplay()
    ensures Str(Route(Default, [], [Connector1], 2.3))
      == "DefaultRoute" + " to " + "generic(abc)" + " " + "rated 2.30"
    ensures Repr(Route(Default, [], [Connector1], 2.3)) == "DefaultRoute"
  {
    var r := Route(Default, [], [Connector1], 2.3);
    assert r.Valid();
    assert Label(r.kind) == "DefaultRoute";
    assert RateText(r) == "rated " + FormatRate2(r.rate);
    RateTexts();
  }

  lemma UnratedStaticMTRouteBuilt()
    ensures StaticMTRoute(SimpleFilterMT, VConnector(Connector1), VFloat(0.0))
      == Ok(Route(StaticMT, [UserFilter(User1)], [Connector1], 0.0))
  {
    assert CheckFilters(MTType, SimpleFilterMT).value == [UserFilter(User1)];
  }

  lemma UnratedStaticMTRouteDisplay()
    ensures Str(Route(StaticMT, [UserFilter(User1)], [Connector1], 0.0))
      == "StaticMTRoute" + " to " + "generic(abc)" + " " + "NOT RATED"
  {
    var r := Route(StaticMT, [UserFilter(User1)], [Connector1], 0.0);
    assert r.Valid();
    assert Label(r.kind) == "StaticMTRoute";
    assert RateText(r) == "NOT RATED";
  }

  lemma RatedStaticMTRouteBuilt()
    ensures StaticMTRoute(SimpleFilterMT, VConnector(Connector1), VFloat(2.3))
      == Ok(Route(StaticMT, [UserFilter(User1)], [Connector1], 2.3))
  {
    assert CheckFilters(MTType, SimpleFilterMT).value == [UserFilter(User1)];
  }

  lemma RatedStaticMTRouteDisplay()
    ensures Str(Route(StaticMT, [UserFilter(User1)], [Connector1], 2.3))
      == "StaticMTRoute" + " to " + "generic(abc)" + " " + "rated 2.30"
    ensures Repr(Route(StaticMT, [UserFilter(User1)], [Connector1], 2.3)) == "StaticMTRoute"
  {
    var r := Route(StaticMT, [UserFilter(User1)], [Connector1], 2.3);
    assert r.Valid();
    assert Label(r.kind) == "StaticMTRoute";
    assert RateText(r) == "rated " + FormatRate2(r.rate);
    RateTexts();
  }

  /** The rate given to a StaticMORoute is ignored. */
  lemma RatedStaticMORouteBuilt()
    ensures StaticMORoute(SimpleFilterMO, VConnector(Connector1), Some(VFloat(2.3)))
      == Ok(Route(StaticMO, [ConnectorFilter(Connector1)], [Connector1], 0.0))
  {
    assert CheckFilters(MOType, SimpleFilterMO).value == [ConnectorFilter(Connector1)];
  }

  lemma RatedStaticMORouteDisplay()
    ensures Str(Route(StaticMO, [ConnectorFilter(Connector1)], [Connector1], 0.0))
      == "StaticMORoute" + " to " + "generic(abc)" + " " + "NOT RATED"
    ensures Repr(Route(StaticMO, [ConnectorFilter(Connector1)], [Connector1], 0.0)) == "StaticMORoute"
  {
    var r := Route(StaticMO, [ConnectorFilter(Connector1)], [Connector1], 0.0);
    assert r.Valid();
    assert Label(r.kind) == "StaticMORoute";
    assert RateText(r) == "NOT RATED";
  }

  lemma RatedRandomRoundrobinMTRouteBuilt()
    ensures RandomRoundrobinMTRoute(SimpleFilterMT, BothConnectors, VFloat(5.6))
      == Ok(Route(RandomRoundrobinMT, [UserFilter(User1)], Both, 5.6))
  {
    BothConnectorsChecked();
    assert CheckFilters(MTType, SimpleFilterMT).value == [UserFilter(User1)];
  }

  lemma RatedRandomRoundrobinMTRouteDisplay()
    ensures Str(Route(RandomRoundrobinMT, [UserFilter(User1)], Both, 5.6))
      == "RandomRoundrobinMTRoute" + " to " + "2" + " connectors:" + "\n\t- generic(abc)\n\t- generic(def)" + " \n" + "rated 5.60"
    ensures Repr(Route(RandomRoundrobinMT, [UserFilter(User1)], Both, 5.6)) == "RandomRoundrobinMTRoute"
  {
    var r := Route(RandomRoundrobinMT, [UserFilter(User1)], Both, 5.6);
    assert r.Valid();
    assert Label(r.kind) == "RandomRoundrobinMTRoute";
    BothConnectorsListed();
    assert RateText(r) == "rated " + FormatRate2(r.rate);
    RateTexts();
  }

  // ---- Construction ----

  /** Routes with a connector list refuse an empty list. */
  lemma EmptyConnectorListRefused()
    ensures RandomRoundrobinMTRoute(SimpleFilterMT, VList([]), VFloat(0.0)) == Err(InvalidRouteParameter)
    ensures RandomRoundrobinMORoute(SimpleFilterMO, VList([])) == Err(InvalidRouteParameter)
    ensures FailoverMTRoute(SimpleFilterMT, VList([]), VFloat(0.0)) == Err(InvalidRouteParameter)
    ensures FailoverMORoute(SimpleFilterMO, VList([])) == Err(InvalidRouteParameter)
  {
  }

  lemma StaticRouteParameters()
    ensures StaticMTRoute(SimpleFilterMT, VConnector(Connector2), VFloat(0.0)).Ok?
    ensures StaticMORoute(SimpleFilterMO, VConnector(Connector2), None).Ok?
    ensures StaticMTRoute(VStr("anything"), VConnector(Connector2), VFloat(0.0)) == Err(InvalidRouteParameter)
    ensures StaticMTRoute(VList([VStr("anything in a list")]), VConnector(Connector2), VFloat(0.0))
      == Err(InvalidRouteParameter)
    ensures StaticMTRoute(SimpleFilterMT, VStr("anything"), VFloat(0.0)) == Err(InvalidRouteParameter)
  {
  }

  lemma FilterTypeCompatibility()
    ensures StaticMTRoute(InvalidFilter, VConnector(Connector2), VFloat(0.0)) == Err(InvalidRouteFilter)
    ensures StaticMORoute(SimpleFilterMT, VConnector(Connector2), Some(VFloat(0.0))) == Err(InvalidRouteFilter)
    ensures StaticMTRoute(SimpleFilterMO, VConnector(Connector2), VFloat(0.0)) == Err(InvalidRouteFilter)
  {
    assert FirstBadFilter(MTType, InvalidFilter.items, 0);
    assert FirstBadFilter(MOType, SimpleFilterMT.items, 0);
    assert FirstBadFilter(MTType, SimpleFilterMO.items, 0);
  }

  /** Multi-connector routes accept the connector list and refuse a single
      connector, a list of non-connectors and a list of mixed kinds. */
  lemma ConnectorListsChecked()
    ensures RandomRoundrobinMTRoute(SimpleFilterMT, BothConnectors, VFloat(0.0)).Ok?
    ensures RandomRoundrobinMTRoute(SimpleFilterMT, VConnector(Connector1), VFloat(0.0)) == Err(InvalidRouteParameter)
    ensures RandomRoundrobinMTRoute(SimpleFilterMT, VList([VInt(0), VInt(1)]), VFloat(0.0)) == Err(InvalidRouteParameter)
    ensures RandomRoundrobinMORoute(SimpleFilterMO, BothConnectors).Ok?
    ensures RandomRoundrobinMORoute(SimpleFilterMO, VConnector(Connector1)) == Err(InvalidRouteParameter)
    ensures RandomRoundrobinMORoute(SimpleFilterMO, VList([VInt(0), VInt(1)])) == Err(InvalidRouteParameter)
    ensures FailoverMORoute(SimpleFilterMO, VConnector(Connector1)) == Err(InvalidRouteParameter)
    ensures FailoverMORoute(SimpleFilterMO, VList([VInt(0), VInt(1)])) == Err(InvalidRouteParameter)
    ensures FailoverMTRoute(SimpleFilterMT, VConnector(Connector1), VFloat(0.0)) == Err(InvalidRouteParameter)
    ensures FailoverMTRoute(SimpleFilterMT, VList([VInt(0), VInt(1)]), VFloat(0.0)) == Err(InvalidRouteParameter)
    ensures FailoverMORoute(SimpleFilterMO,
      VList([VConnector(Connector("http", Http)), VConnector(Connector("smpp", SmppClient))]))
      == Err(InvalidRouteParameter)
  {
    assert [VInt(0), VInt(1)][0] == VInt(0);
    var mixed := [VConnector(Connector("http", Http)), VConnector(Connector("smpp", SmppClient))];
    assert mixed[1].connector.kind != mixed[0].connector.kind;
  }

  // ---- Rates ----

  lemma Rates()
    ensures GetRate(DefaultRoute(VConnector(Connector1), None).value) == 0.0
    ensures GetRate(DefaultRoute(VConnector(Connector1), Some(VFloat(2.3))).value) == 2.3
    ensures DefaultRoute(VConnector(Connector1), Some(VInt(0))) == Err(InvalidRouteParameter)
    ensures DefaultRoute(VConnector(Connector1), Some(VInt(-2))) == Err(InvalidRouteParameter)
    ensures GetRate(StaticMORoute(SimpleFilterMO, VConnector(Connector1), None).value) == 0.0
    ensures GetRate(StaticMORoute(SimpleFilterMO, VConnector(Connector1), Some(VFloat(2.3))).value) == 0.0
    ensures GetRate(StaticMTRoute(SimpleFilterMT, VConnector(Connector1), VFloat(0.0)).value) == 0.0
    ensures GetRate(StaticMTRoute(SimpleFilterMT, VConnector(Connector1), VFloat(2.3)).value) == 2.3
    ensures StaticMTRoute(SimpleFilterMT, VConnector(Connector1), VInt(0)) == Err(InvalidRouteParameter)
    ensures StaticMTRoute(SimpleFilterMT, VConnector(Connector1), VInt(-2)) == Err(InvalidRouteParameter)
    ensures GetRate(RandomRoundrobinMORoute(SimpleFilterMO, BothConnectors).value) == 0.0
    ensures GetRate(RandomRoundrobinMTRoute(SimpleFilterMT, BothConnectors, VFloat(0.0)).value) == 0.0
    ensures GetRate(RandomRoundrobinMTRoute(SimpleFilterMT, BothConnectors, VFloat(5.6)).value) == 5.6
    ensures RandomRoundrobinMTRoute(SimpleFilterMT, BothConnectors, VInt(0)) == Err(InvalidRouteParameter)
    ensures RandomRoundrobinMTRoute(SimpleFilterMT, BothConnectors, VInt(-2)) == Err(InvalidRouteParameter)
  {
  }

  // ---- Matching ----

  lemma Matching()
    ensures MatchFilters(DefaultRoute(VConnector(Connector2), None).value, RoutableSubmitSm(User1, "1"))
      == Target(Connector2)
    ensures MatchFilters(StaticMTRoute(SimpleFilterMT, VConnector(Connector2), VFloat(0.0)).value,
      RoutableSubmitSm(User1, "1")) == Verdict(true)
    ensures MatchFilters(StaticMTRoute(SimpleFilterMT, VConnector(Connector2), VFloat(0.0)).value,
      RoutableSubmitSm(User2, "1")) == Verdict(false)
    ensures MatchFilters(StaticMORoute(SimpleFilterMO, VConnector(Connector2), None).value,
      RoutableDeliverSm(Connector1, "1")) == Verdict(true)
    ensures MatchFilters(StaticMORoute(SimpleFilterMO, VConnector(Connector2), None).value,
      RoutableDeliverSm(Connector2, "1")) == Verdict(false)
    ensures MatchFilters(RandomRoundrobinMTRoute(SimpleFilterMT, BothConnectors, VFloat(0.0)).value,
      RoutableSubmitSm(User1, "1")) == Verdict(true)
    ensures MatchFilters(RandomRoundrobinMTRoute(SimpleFilterMT, BothConnectors, VFloat(0.0)).value,
      RoutableSubmitSm(User2, "1")) == Verdict(false)
    ensures MatchFilters(RandomRoundrobinMORoute(SimpleFilterMO, BothConnectors).value,
      RoutableDeliverSm(Connector1, "1")) == Verdict(true)
    ensures MatchFilters(RandomRoundrobinMORoute(SimpleFilterMO, BothConnectors).value,
      RoutableDeliverSm(Connector2, "1")) == Verdict(false)
    ensures MatchFilters(FailoverMORoute(SimpleFilterMO, BothConnectors).value,
      RoutableDeliverSm(Connector1, "1")) == Verdict(true)
    ensures MatchFilters(FailoverMORoute(SimpleFilterMO, BothConnectors).value,
      RoutableDeliverSm(Connector2, "1")) == Verdict(false)
    ensures MatchFilters(FailoverMTRoute(SimpleFilterMT, BothConnectors, VFloat(0.0)).value,
      RoutableSubmitSm(User1, "1")) == Verdict(true)
    ensures MatchFilters(FailoverMTRoute(SimpleFilterMT, BothConnectors, VFloat(0.0)).value,
      RoutableSubmitSm(User2, "1")) == Verdict(false)
  {
  }

  /** A route whose only filter is `.*` matches every routable. */
  lemma MatchAllFilterMatchesEverything(routable: Routable)
    ensures StaticMTRoute(SimpleFilterAll, VConnector(Connector1), VFloat(0.0)).Ok?
    ensures MatchFilters(StaticMTRoute(SimpleFilterAll, VConnector(Connector1), VFloat(0.0)).value, routable)
      == Verdict(true)
  {
    MatchAllMatchesEverything(routable.destinationAddr);
  }

  // ---- Billing ----

  /** The filters and the connector argument the billing tests build a route of this kind with. */
  function BillingFilters(kind: RouteKind): Value {
    if kind == Default then VList([]) else SimpleFilterAll
  }

  function BillingTarget(kind: RouteKind): Value {
    if SingleConnector(kind) then VConnector(Connector1) else BothConnectors
  }

  lemma BillingRouteBuilt(kind: RouteKind, rate: real)
    requires TypeOf(kind) != MOType && rate >= 0.0
    ensures Build(kind, BillingFilters(kind), BillingTarget(kind), VFloat(rate)).Ok?
    ensures Build(kind, BillingFilters(kind), BillingTarget(kind), VFloat(rate)).value.rate == rate
  {
    assert CheckConnectors(SingleConnector(kind), BillingTarget(kind)).Ok?;
  }

  /** The bills the tests expect, for a user whose balance is 10 and whose
      submit_sm count is 10. */
  lemma TestBills()
    ensures BillFor(0.0, UnlimitedQuotas) == Bill(0.0, 0.0, 0)
    ensures BillFor(0.0, Quotas(Some(10.0), None, Some(10))) == Bill(0.0, 0.0, 1)
    ensures BillFor(2.0, Quotas(Some(10.0), None, Some(10))) == Bill(2.0, 0.0, 1)
    ensures BillFor(2.0, Quotas(Some(10.0), Some(50.0), Some(10))) == Bill(1.0, 1.0, 1)
  {
    assert 2.0 * 50.0 / 100.0 == 1.0;
  }

  /** From its second route kind on, the test's loop bills a user whose
      credential is shared with the previous pass, so the first bill is taken
      from the quotas that pass left set; on the unrated route it still
      totals 0, while it already asks for the submit_sm count decrement. */
  lemma CarriedOverQuotasBill()
    ensures BillFor(0.0, Quotas(Some(10.0), Some(50.0), Some(10))) == Bill(0.0, 0.0, 1)
    ensures GetTotalAmounts(BillFor(0.0, Quotas(Some(10.0), Some(50.0), Some(10)))) == 0.0
  {
  }

  /** The route of this kind the billing test builds with the given rate. */
  method NewBillingRoute(kind: RouteKind, rate: real) returns (r: Route)
    requires TypeOf(kind) != MOType && rate >= 0.0
    ensures r.Valid() && r.rate == rate
  {
    BillingRouteBuilt(kind, rate);
    r := Build(kind, BillingFilters(kind), BillingTarget(kind), VFloat(rate)).value;
  }

  /** getBillFor(user1) once user 1's quotas are q, on a route whose rate is
      the one the test gave it. */
  method BillUser1(r: Route, rate: real, q: Quotas) returns (b: Bill)
    requires r.Valid() && r.rate == rate
    ensures b == BillFor(rate, q)
  {
    b := GetBillFor(r, VUser(User1.(quotas := q))).value;
  }

  /** The billing test for one default or MT route kind: a non-user is
      refused; a 0.0-rated route charges nothing, before and after the user's
      quotas are set; a 2.0-rated route charges 2.0 on submit_sm, or 1.0 and
      1.0 once early decrement is set to 50 percent, and asks for the
      submit_sm count to be decremented. getBillFor reads the user's quotas
      when it is called and changes nothing, so the quotas in force after
      each group of updates are kept, and each bill is taken from the ones
      in force at its point of the test. */
  method BillingScenario(kind: RouteKind)
    returns (refused: Result<Bill, RouteError>, unrated1: Bill, unrated2: Bill, rated: Bill, split: Bill)
    requires TypeOf(kind) != MOType
    ensures refused == Err(InvalidRouteParameter)
    ensures unrated1 == Bill(0.0, 0.0, 0) && unrated2 == Bill(0.0, 0.0, 1)
    ensures rated == Bill(2.0, 0.0, 1) && split == Bill(1.0, 1.0, 1)
    ensures GetTotalAmounts(unrated1) == 0.0 && GetTotalAmounts(unrated2) == 0.0
    ensures GetTotalAmounts(rated) == 2.0 && GetAmount(rated, SubmitSmBucket) == 2.0
    ensures GetAction(rated, DecrementSubmitSmCount) == 1
    ensures GetTotalAmounts(split) == 2.0
    ensures GetAmount(split, SubmitSmBucket) == 1.0 && GetAmount(split, SubmitSmRespBucket) == 1.0
    ensures GetAction(split, DecrementSubmitSmCount) == 1
  {
    var credential := new MtCredential();
    var unlimited := credential.quotas;
    credential.SetQuota(SetBalance(Some(10.0)));
    credential.SetQuota(SetEarlyDecrementBalancePercent(None));
    credential.SetQuota(SetSubmitSmCount(Some(10)));
    var limited := credential.quotas;
    credential.SetQuota(SetEarlyDecrementBalancePercent(Some(50.0)));
    var halved := credential.quotas;
    assert unlimited == UnlimitedQuotas && limited == Quotas(Some(10.0), None, Some(10))
      && halved == Quotas(Some(10.0), Some(50.0), Some(10));

    var r := NewBillingRoute(kind, 0.0);
    refused := GetBillFor(r, VStr("user"));
    unrated1 := BillUser1(r, 0.0, unlimited);
    unrated2 := BillUser1(r, 0.0, limited);
    r := NewBillingRoute(kind, 2.0);
    rated := BillUser1(r, 2.0, limited);
    split := BillUser1(r, 2.0, halved);
    TestBills();
    BucketsReadBack(rated);
    BucketsReadBack(split);
  }

  // ---- Failover ----

  /** getConnector() over [abc, def] answers abc, then def, then None. */
  method FailoverGetConnector(kind: RouteKind) returns (first: Option<Connector>, second: Option<Connector>, third: Option<Connector>)
    requires IsFailover(kind)
    ensures first == Some(Connector1) && second == Some(Connector2) && third == None
  {
    assert CheckConnectors(false, BothConnectors).value == [Connector1, Connector2];
    var r;
    if kind == FailoverMO {
      r := NewFailoverMORoute(SimpleFilterMO, BothConnectors);
    } else {
      r := NewFailoverMTRoute(SimpleFilterMT, BothConnectors, VFloat(0.0));
    }
    var route := r.value;
    first := route.GetConnector();
    second := route.GetConnector();
    third := route.GetConnector();
  }

  /** getConnectors() answers the configured list. */
  method FailoverGetConnectors() returns (cs: seq<Connector>)
    ensures cs == [Connector1, Connector2]
  {
    assert CheckConnectors(false, BothConnectors).value == [Connector1, Connector2];
    var r := NewFailoverMORoute(SimpleFilterMO, BothConnectors);
    var route := r.value;
    var _ := route.GetConnector();
    cs := route.GetConnectors();
  }
}
