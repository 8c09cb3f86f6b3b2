/** The route variants: construction with validation of the filters, the
    connector(s) and the rate; filter matching; connector selection for the
    stateless variants; rate; display strings. */
module Routes {
  import opened Entities
  import opened Filters
  import opened Text

  /** A constructor or call argument as the configuration passes it: any
      value, of any type. */
  datatype Value =
    | VNone
    | VInt(i: int)
    | VFloat(f: real)
    | VStr(s: string)
    | VList(items: seq<Value>)
    | VFilter(filter: Filter)
    | VConnector(connector: Connector)
    | VUser(user: User)

  datatype RouteError = InvalidRouteParameter | InvalidRouteFilter

  datatype RouteType = DefaultType | MOType | MTType

  datatype RouteKind =
    | Default
    | StaticMO
    | StaticMT
    | RandomRoundrobinMO
    | RandomRoundrobinMT
    | FailoverMO
    | FailoverMT

  function TypeOf(k: RouteKind): RouteType {
    match k
    case Default => DefaultType
    case StaticMO | RandomRoundrobinMO | FailoverMO => MOType
    case StaticMT | RandomRoundrobinMT | FailoverMT => MTType
  }

  /** Default and static routes have one connector, the others a list. */
  predicate SingleConnector(k: RouteKind) {
    k == Default || k == StaticMO || k == StaticMT
  }

  predicate IsFailover(k: RouteKind) {
    k == FailoverMO || k == FailoverMT
  }

  /** The variant label: the short display form of a route. */
  function Label(k: RouteKind): string {
    match k
    case Default => "DefaultRoute"
    case StaticMO => "StaticMORoute"
    case StaticMT => "StaticMTRoute"
    case RandomRoundrobinMO => "RandomRoundrobinMORoute"
    case RandomRoundrobinMT => "RandomRoundrobinMTRoute"
    case FailoverMO => "FailoverMORoute"
    case FailoverMT => "FailoverMTRoute"
  }

  /** A filter may sit in a route iff it is used for the route's type; no
      filter is used for the default type. */
  predicate Compatible(f: Filter, t: RouteType) {
    match t
    case DefaultType => false
    case MOType => UsedFor(f, MO)
    case MTType => UsedFor(f, MT)
  }

  predicate GoodFilter(t: RouteType, v: Value) {
    v.VFilter? && Compatible(v.filter, t)
  }

  /** Position i holds the first argument of the filter list that is refused. */
  predicate FirstBadFilter(t: RouteType, items: seq<Value>, i: int) {
    && 0 <= i < |items|
    && !GoodFilter(t, items[i])
    && forall j | 0 <= j < i :: GoodFilter(t, items[j])
  }

  function FilterError(v: Value): RouteError {
    if v.VFilter? then InvalidRouteFilter else InvalidRouteParameter
  }

  /** The elements of a filter list, checked in order: a non-filter is a
      parameter error, a filter for the other direction a filter error. */
  function CheckFilterItems(t: RouteType, items: seq<Value>): (r: Result<seq<Filter>, RouteError>)
    ensures r.Ok? <==> forall i | 0 <= i < |items| :: GoodFilter(t, items[i])
    ensures r.Ok? ==> |r.value| == |items| && forall i | 0 <= i < |items| :: r.value[i] == items[i].filter
    ensures r.Err? ==> exists i :: FirstBadFilter(t, items, i) && r.error == FilterError(items[i])
  {
    if items == [] then Ok([])
    else if !items[0].VFilter? then Err(InvalidRouteParameter)
    else if !Compatible(items[0].filter, t) then Err(InvalidRouteFilter)
    else
      var rest := CheckFilterItems(t, items[1..]);
      if rest.Err? then
        ghost var i :| FirstBadFilter(t, items[1..], i) && rest.error == FilterError(items[1..][i]);
        assert FirstBadFilter(t, items, i + 1);
        rest
      else
        Ok([items[0].filter] + rest.value)
  }

  /** The filter argument must be a list of compatible filters, non-empty
      except on the default route. */
  function CheckFilters(t: RouteType, v: Value): (r: Result<seq<Filter>, RouteError>)
    ensures r.Ok? <==>
      && v.VList?
      && (forall i | 0 <= i < |v.items| :: GoodFilter(t, v.items[i]))
      && (t == DefaultType || |v.items| > 0)
    ensures r.Ok? ==> |r.value| == |v.items| && forall i | 0 <= i < |v.items| :: r.value[i] == v.items[i].filter
    ensures r == Err(InvalidRouteFilter) <==>
      v.VList? && exists i :: FirstBadFilter(t, v.items, i) && v.items[i].VFilter?
  {
    if !v.VList? then Err(InvalidRouteParameter)
    else
      var items := CheckFilterItems(t, v.items);
      if items.Err? then
        FirstBadFilterUnique(t, v.items);
        items
      else if t != DefaultType && items.value == [] then Err(InvalidRouteParameter)
      else items
  }

  lemma FirstBadFilterUnique(t: RouteType, items: seq<Value>)
    ensures forall i, j :: FirstBadFilter(t, items, i) && FirstBadFilter(t, items, j) ==> i == j
  {
  }

  predicate Uniform(cs: seq<Connector>) {
    forall i | 0 <= i < |cs| :: cs[i].kind == cs[0].kind
  }

  /** Connectors are of one kind exactly when they all carry the same type
      name, so the uniformity test can be read as a test on type names. */
  lemma UniformIffSameKindName(cs: seq<Connector>)
    ensures Uniform(cs) <==> forall i | 0 <= i < |cs| :: KindName(cs[i].kind) == KindName(cs[0].kind)
  {
    forall i | 0 <= i < |cs| {
      KindNameInjective(cs[i].kind, cs[0].kind);
    }
  }

  predicate AllConnectors(items: seq<Value>) {
    forall i | 0 <= i < |items| :: items[i].VConnector?
  }

  /** The connector argument: one connector for single-connector routes; a
      non-empty list of connectors of one kind for the others. Any other
      shape is a parameter error. */
  function CheckConnectors(single: bool, v: Value): (r: Result<seq<Connector>, RouteError>)
    ensures r.Ok? <==>
      if single then v.VConnector?
      else
        && v.VList? && |v.items| > 0 && AllConnectors(v.items)
        && forall i | 0 <= i < |v.items| :: v.items[i].connector.kind == v.items[0].connector.kind
    ensures r.Ok? ==> |r.value| >= 1 && Uniform(r.value)
    ensures r.Ok? && single ==> r.value == [v.connector]
    ensures r.Ok? && !single ==> |r.value| == |v.items| && forall i | 0 <= i < |v.items| :: r.value[i] == v.items[i].connector
    ensures r.Err? ==> r.error == InvalidRouteParameter
  {
    if single then
      if v.VConnector? then Ok([v.connector]) else Err(InvalidRouteParameter)
    else if !v.VList? || v.items == [] || !AllConnectors(v.items) then Err(InvalidRouteParameter)
    else
      var cs := seq(|v.items|, i requires 0 <= i < |v.items| => v.items[i].connector);
      assert forall i | 0 <= i < |cs| :: cs[i].kind == v.items[i].connector.kind;
      if Uniform(cs) then Ok(cs) else Err(InvalidRouteParameter)
  }

  /** A rate must be a float, and not negative; an int, even 0, is refused. */
  function CheckRate(v: Value): (r: Result<real, RouteError>)
    ensures r.Ok? <==> v.VFloat? && v.f >= 0.0
    ensures r.Ok? ==> r.value == v.f
    ensures r.Err? ==> r.error == InvalidRouteParameter
  {
    if !v.VFloat? then Err(InvalidRouteParameter)
    else if v.f < 0.0 then Err(InvalidRouteParameter)
    else Ok(v.f)
  }

  datatype Route = Route(kind: RouteKind, filters: seq<Filter>, connectors: seq<Connector>, rate: real) {
    /** What construction guarantees of every route. */
    predicate Valid() {
      && |connectors| >= 1
      && (SingleConnector(kind) ==> |connectors| == 1)
      && Uniform(connectors)
      && rate >= 0.0
      && (TypeOf(kind) == MOType ==> rate == 0.0)
      && (kind == Default <==> filters == [])
      && forall i | 0 <= i < |filters| :: Compatible(filters[i], TypeOf(kind))
    }
  }

  /** Validation in order (filters, connectors, rate); the first failing
      check decides the error. MO routes are not rated: their rate is 0. */
  function Build(kind: RouteKind, filters: Value, target: Value, rate: Value): (r: Result<Route, RouteError>)
    ensures r.Ok? <==>
      && CheckFilters(TypeOf(kind), filters).Ok?
      && CheckConnectors(SingleConnector(kind), target).Ok?
      && (TypeOf(kind) == MOType || CheckRate(rate).Ok?)
    ensures r.Ok? ==> r.value.Valid() && r.value.kind == kind
    ensures r.Ok? ==> r.value.rate == if TypeOf(kind) == MOType then 0.0 else rate.f
    ensures r.Ok? ==> r.value.filters == CheckFilters(TypeOf(kind), filters).value
    ensures r.Ok? ==> r.value.connectors == CheckConnectors(SingleConnector(kind), target).value
    ensures CheckFilters(TypeOf(kind), filters).Err? ==> r == Err(CheckFilters(TypeOf(kind), filters).error)
    ensures CheckFilters(TypeOf(kind), filters).Ok? && r.Err? ==> r.error == InvalidRouteParameter
  {
    var t := TypeOf(kind);
    match CheckFilters(t, filters)
    case Err(e) => Err(e)
    case Ok(fs) =>
      match CheckConnectors(SingleConnector(kind), target)
      case Err(e) => Err(e)
      case Ok(cs) =>
        if t == MOType then Ok(Route(kind, fs, cs, 0.0))
        else
          match CheckRate(rate)
          case Err(e) => Err(e)
          case Ok(x) => Ok(Route(kind, fs, cs, x))
  }

  function FilterValues(fs: seq<Filter>): (vs: seq<Value>)
    ensures |vs| == |fs| && forall i | 0 <= i < |fs| :: vs[i] == VFilter(fs[i])
  {
    seq(|fs|, i requires 0 <= i < |fs| => VFilter(fs[i]))
  }

  function ConnectorValues(cs: seq<Connector>): (vs: seq<Value>)
    ensures |vs| == |cs| && forall i | 0 <= i < |cs| :: vs[i] == VConnector(cs[i])
  {
    seq(|cs|, i requires 0 <= i < |cs| => VConnector(cs[i]))
  }

  /** The connector argument a route was built from. */
  function TargetValue(r: Route): Value
    requires |r.connectors| >= 1
  {
    if SingleConnector(r.kind) then VConnector(r.connectors[0]) else VList(ConnectorValues(r.connectors))
  }

  /** Every valid route is what construction makes of its own parts, so
      Valid describes exactly the routes construction can produce. */
  lemma BuildComplete(r: Route)
    requires r.Valid()
    ensures Build(r.kind, VList(FilterValues(r.filters)), TargetValue(r), VFloat(r.rate)) == Ok(r)
  {
    var fv := FilterValues(r.filters);
    var t := TypeOf(r.kind);
    assert forall i | 0 <= i < |fv| :: GoodFilter(t, fv[i]);
    var fs := CheckFilters(t, VList(fv));
    assert fs.Ok?;
    assert fs.value == r.filters;
    var cs := CheckConnectors(SingleConnector(r.kind), TargetValue(r));
    if SingleConnector(r.kind) {
      assert cs.Ok? && cs.value == r.connectors;
    } else {
      var cv := ConnectorValues(r.connectors);
      assert forall i | 0 <= i < |cv| :: cv[i].connector.kind == cv[0].connector.kind;
      assert cs.Ok?;
      assert cs.value == r.connectors;
    }
  }

  // ---- The variants' constructors ----

  /** DefaultRoute(connector, rate=0.0): no filters; the rate may be omitted. */
  function DefaultRoute(connector: Value, rate: Option<Value>): (r: Result<Route, RouteError>)
    ensures r.Ok? <==> connector.VConnector? && (rate.None? || (rate.value.VFloat? && rate.value.f >= 0.0))
    ensures r.Err? ==> r.error == InvalidRouteParameter
    ensures r.Ok? ==> r.value.kind == Default && r.value.filters == [] && r.value.connectors == [connector.connector]
    ensures r.Ok? ==> r.value.rate == if rate.None? then 0.0 else rate.value.f
  {
    Build(Default, VList([]), connector, rate.GetOr(VFloat(0.0)))
  }

  /** StaticMORoute(filters, connector[, rate]): a supplied rate is ignored. */
  function StaticMORoute(filters: Value, connector: Value, rate: Option<Value>): (r: Result<Route, RouteError>)
    ensures r.Ok? <==> CheckFilters(MOType, filters).Ok? && connector.VConnector?
    ensures r.Ok? ==> r.value.kind == StaticMO && r.value.rate == 0.0 && r.value.connectors == [connector.connector]
  {
    Build(StaticMO, filters, connector, VFloat(0.0))
  }

  lemma StaticMORouteIgnoresRate(filters: Value, connector: Value, rate: Value)
    ensures StaticMORoute(filters, connector, Some(rate)) == StaticMORoute(filters, connector, None)
  {
  }

  /** StaticMTRoute(filters, connector, rate). */
  function StaticMTRoute(filters: Value, connector: Value, rate: Value): (r: Result<Route, RouteError>)
    ensures r.Ok? <==> CheckFilters(MTType, filters).Ok? && connector.VConnector? && rate.VFloat? && rate.f >= 0.0
    ensures r.Ok? ==> r.value.kind == StaticMT && r.value.rate == rate.f && r.value.connectors == [connector.connector]
  {
    Build(StaticMT, filters, connector, rate)
  }

  /** RandomRoundrobinMORoute(filters, connectors): takes no rate. */
  function RandomRoundrobinMORoute(filters: Value, connectors: Value): (r: Result<Route, RouteError>)
    ensures r.Ok? <==> CheckFilters(MOType, filters).Ok? && CheckConnectors(false, connectors).Ok?
    ensures r.Ok? ==> r.value.kind == RandomRoundrobinMO && r.value.rate == 0.0
    ensures r.Ok? ==> r.value.connectors == CheckConnectors(false, connectors).value
  {
    Build(RandomRoundrobinMO, filters, connectors, VFloat(0.0))
  }

  /** RandomRoundrobinMTRoute(filters, connectors, rate). */
  function RandomRoundrobinMTRoute(filters: Value, connectors: Value, rate: Value): (r: Result<Route, RouteError>)
    ensures r.Ok? <==>
      CheckFilters(MTType, filters).Ok? && CheckConnectors(false, connectors).Ok? && rate.VFloat? && rate.f >= 0.0
    ensures r.Ok? ==> r.value.kind == RandomRoundrobinMT && r.value.rate == rate.f
    ensures r.Ok? ==> r.value.connectors == CheckConnectors(false, connectors).value
  {
    Build(RandomRoundrobinMT, filters, connectors, rate)
  }

  /** FailoverMORoute(filters, connectors): the configuration of a failover
      route; its cursor lives in the Failover module. */
  function FailoverMORoute(filters: Value, connectors: Value): (r: Result<Route, RouteError>)
    ensures r.Ok? <==> CheckFilters(MOType, filters).Ok? && CheckConnectors(false, connectors).Ok?
    ensures r.Ok? ==> r.value.kind == FailoverMO && r.value.rate == 0.0
    ensures r.Ok? ==> r.value.connectors == CheckConnectors(false, connectors).value
  {
    Build(FailoverMO, filters, connectors, VFloat(0.0))
  }

  /** FailoverMTRoute(filters, connectors, rate). */
  function FailoverMTRoute(filters: Value, connectors: Value, rate: Value): (r: Result<Route, RouteError>)
    ensures r.Ok? <==>
      CheckFilters(MTType, filters).Ok? && CheckConnectors(false, connectors).Ok? && rate.VFloat? && rate.f >= 0.0
    ensures r.Ok? ==> r.value.kind == FailoverMT && r.value.rate == rate.f
    ensures r.Ok? ==> r.value.connectors == CheckConnectors(false, connectors).value
  {
    Build(FailoverMT, filters, connectors, rate)
  }

  // ---- Construction errors ----

  /** A route that needs a connector list refuses an empty list, a single
      connector, a list holding a non-connector and a list of mixed kinds. */
  lemma MultiConnectorShapeRefused(kind: RouteKind, filters: Value, target: Value, rate: Value)
    requires !SingleConnector(kind)
    requires CheckFilters(TypeOf(kind), filters).Ok?
    requires
      || target == VList([])
      || target.VConnector?
      || (target.VList? && exists i | 0 <= i < |target.items| :: !target.items[i].VConnector?)
      || (target.VList? && AllConnectors(target.items)
          && exists i | 0 <= i < |target.items| :: target.items[i].connector.kind != target.items[0].connector.kind)
    ensures Build(kind, filters, target, rate) == Err(InvalidRouteParameter)
  {
  }

  /** A single-connector route refuses anything but one connector. */
  lemma SingleConnectorShapeRefused(kind: RouteKind, filters: Value, target: Value, rate: Value)
    requires SingleConnector(kind)
    requires CheckFilters(TypeOf(kind), filters).Ok?
    requires !target.VConnector?
    ensures Build(kind, filters, target, rate) == Err(InvalidRouteParameter)
  {
  }

  /** A rated route refuses an int-typed rate, whatever its value, and a
      negative rate; 0.0 is accepted. */
  lemma RateChecked(kind: RouteKind, filters: Value, target: Value, rate: Value)
    requires TypeOf(kind) != MOType
    requires CheckFilters(TypeOf(kind), filters).Ok? && CheckConnectors(SingleConnector(kind), target).Ok?
    ensures rate.VInt? ==> Build(kind, filters, target, rate) == Err(InvalidRouteParameter)
    ensures rate.VFloat? && rate.f < 0.0 ==> Build(kind, filters, target, rate) == Err(InvalidRouteParameter)
    ensures rate == VFloat(0.0) ==> Build(kind, filters, target, rate).Ok?
  {
  }

  // ---- Matching ----

  /** matchFilters: a verdict, except on the default route, which answers
      with its connector. */
  datatype MatchResult = Verdict(ok: bool) | Target(connector: Connector)

  function MatchFilters(r: Route, routable: Routable): (m: MatchResult)
    requires r.Valid()
    ensures r.kind == Default ==> m == Target(r.connectors[0])
    ensures r.kind != Default ==>
      m.Verdict? && (m.ok <==> forall i | 0 <= i < |r.filters| :: Matches(r.filters[i], routable))
  {
    if r.kind == Default then Target(r.connectors[0]) else Verdict(MatchAllFilters(r.filters, routable))
  }

  /** Adding a filter can only narrow what a route matches. */
  lemma MoreFiltersMatchLess(r: Route, f: Filter, routable: Routable)
    requires r.Valid() && r.kind != Default && Compatible(f, TypeOf(r.kind))
    ensures r.(filters := r.filters + [f]).Valid()
    ensures MatchFilters(r.(filters := r.filters + [f]), routable).ok ==> MatchFilters(r, routable).ok
  {
    var r' := r.(filters := r.filters + [f]);
    if MatchFilters(r', routable).ok {
      forall i | 0 <= i < |r.filters| ensures Matches(r.filters[i], routable) {
        assert r'.filters[i] == r.filters[i];
      }
    }
  }

  // ---- Rate and connectors ----

  /** getRate: the configured rate; always 0 on MO routes. */
  function GetRate(r: Route): (rate: real)
    requires r.Valid()
    ensures rate >= 0.0
    ensures TypeOf(r.kind) == MOType ==> rate == 0.0
  {
    r.rate
  }

  /** The connector a stateless route hands out: the only one of a
      single-connector route; for a random round-robin route the one at the
      position the random source picks (uniformity is not modelled). */
  function GetConnector(r: Route, pick: nat): (c: Connector)
    requires r.Valid() && !IsFailover(r.kind)
    ensures c in r.connectors
    ensures SingleConnector(r.kind) ==> c == r.connectors[0]
  {
    if SingleConnector(r.kind) then r.connectors[0] else r.connectors[pick % |r.connectors|]
  }

  /** Every configured connector of a random round-robin route can be picked. */
  lemma EveryConnectorReachable(r: Route, c: Connector)
    requires r.Valid() && !IsFailover(r.kind) && !SingleConnector(r.kind)
    requires c in r.connectors
    ensures exists pick: nat :: GetConnector(r, pick) == c
  {
    var cs := r.connectors;
    var i :| 0 <= i < |cs| && cs[i] == c;
    assert i % |cs| == i;
    assert GetConnector(r, i) == c;
  }

  // ---- Display ----

  function ConnectorText(c: Connector): string {
    KindName(c.kind) + "(" + c.cid + ")"
  }

  function ItemList(cs: seq<Connector>): (s: string)
    ensures cs != [] ==> |s| > 0 && s[|s| - 1] == ')'
  {
    if cs == [] then ""
    else
      var tail := ItemList(cs[1..]);
      var s := "\n\t- " + ConnectorText(cs[0]) + tail;
      assert tail == [] ==> s[|s| - 1] == ConnectorText(cs[0])[|ConnectorText(cs[0])| - 1];
      s
  }

  function RateText(r: Route): string
    requires r.rate >= 0.0
  {
    if r.rate > 0.0 then "rated " + FormatRate2(r.rate) else "NOT RATED"
  }

  /** str(route). */
  function Str(r: Route): (s: string)
    requires r.Valid()
    ensures Label(r.kind) + " to " <= s
  {
    if SingleConnector(r.kind) then
      Label(r.kind) + " to " + ConnectorText(r.connectors[0]) + " " + RateText(r)
    else
      var head := Label(r.kind) + " to " + NatToString(|r.connectors|) + " connectors:" + ItemList(r.connectors);
      if TypeOf(r.kind) == MOType then head else head + " \n" + RateText(r)
  }

  /** repr(route): the label alone, which is where the display form starts. */
  function Repr(r: Route): (s: string)
    ensures r.Valid() ==> s <= Str(r)
  {
    Label(r.kind)
  }

  predicate EndsWith(s: string, suffix: string) {
    |suffix| <= |s| && s[|s| - |suffix|..] == suffix
  }

  /** The display form ends with its rate text, except on a multi-connector MO
      route, which ends with the closing parenthesis of its last connector. */
  lemma StrEnding(r: Route)
    requires r.Valid()
    ensures !SingleConnector(r.kind) && TypeOf(r.kind) == MOType ==> Str(r)[|Str(r)| - 1] == ')'
    ensures SingleConnector(r.kind) || TypeOf(r.kind) != MOType ==> EndsWith(Str(r), RateText(r))
  {
    var s := Str(r);
    if !SingleConnector(r.kind) && TypeOf(r.kind) == MOType {
      var items := ItemList(r.connectors);
      assert s[|s| - 1] == items[|items| - 1];
    } else {
      var rt := RateText(r);
      assert s[|s| - |rt|..] == rt;
    }
  }

  lemma EndsWithTransitive(s: string, t: string, u: string)
    requires EndsWith(s, t) && EndsWith(t, u)
    ensures EndsWith(s, u)
  {
    assert s[|s| - |u|..] == s[|s| - |t|..][|t| - |u|..];
  }

  /** The display form says NOT RATED exactly when the route has a rate
      suffix and its rate is 0; a multi-connector MO route has no rate suffix
      and ends with its last connector. */
  lemma NotRatedIff(r: Route)
    requires r.Valid()
    ensures EndsWith(Str(r), "NOT RATED") <==>
      r.rate == 0.0 && (SingleConnector(r.kind) || TypeOf(r.kind) != MOType)
    ensures TypeOf(r.kind) != MOType && r.rate > 0.0 ==> EndsWith(Str(r), FormatRate2(r.rate))
  {
    var s := Str(r);
    StrEnding(r);
    if !SingleConnector(r.kind) && TypeOf(r.kind) == MOType {
      assert s[|s| - 1] != "NOT RATED"[8];
    } else if r.rate > 0.0 {
      var rt := RateText(r);
      var f := FormatRate2(r.rate);
      assert rt == "rated " + f;
      assert rt[|rt| - |f|..] == f;
      EndsWithTransitive(s, rt, f);
      assert s[|s| - 1] == f[|f| - 1];
      assert IsDigit(s[|s| - 1]);
    }
  }
}
