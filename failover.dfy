/** Failover routes: the configured connectors are handed out one after the
    other, each once, by successive getConnector() calls; after the last one
    every call answers None. The cursor never wraps around; only building a
    new route starts over. */
module Failover {
  import opened Entities
  import opened Filters
  import opened Routes

  /** What the call made when the cursor is at position i answers. */
  function Attempt(cs: seq<Connector>, i: nat): (c: Option<Connector>)
    ensures c.Some? <==> i < |cs|
    ensures c.Some? ==> c.value == cs[i]
  {
    if i < |cs| then Some(cs[i]) else None
  }

  /** The answers of the first k getConnector() calls on a new route. */
  function Served(cs: seq<Connector>, k: nat): (s: seq<Option<Connector>>)
    ensures |s| == k
    ensures forall i | 0 <= i < k :: s[i] == Attempt(cs, i)
  {
    if k == 0 then [] else Served(cs, k - 1) + [Attempt(cs, k - 1)]
  }

  /** The connectors among a sequence of answers, in order. */
  function Somes(s: seq<Option<Connector>>): seq<Connector> {
    if s == [] then []
    else Somes(s[..|s| - 1]) + (if s[|s| - 1].Some? then [s[|s| - 1].value] else [])
  }

  lemma SomesSnoc(s: seq<Option<Connector>>, x: Option<Connector>)
    ensures Somes(s + [x]) == Somes(s) + (if x.Some? then [x.value] else [])
  {
    assert (s + [x])[..|s|] == s;
  }

  /** The first k calls hand out the first k connectors (or all of them, if
      there are fewer) in order, each once. */
  lemma {:induction false} ServedInOrder(cs: seq<Connector>, k: nat)
    ensures Somes(Served(cs, k)) == if k <= |cs| then cs[..k] else cs
  {
    if k > 0 {
      var prev := Served(cs, k - 1);
      var a := Attempt(cs, k - 1);
      ServedInOrder(cs, k - 1);
      assert Somes(Served(cs, k)) == Somes(prev) + (if a.Some? then [a.value] else []) by {
        assert Served(cs, k) == prev + [a];
        SomesSnoc(prev, a);
      }
      if k <= |cs| {
        assert cs[..k] == cs[..k - 1] + [cs[k - 1]];
      } else if k - 1 == |cs| {
        assert cs[..|cs|] == cs;
      }
    }
  }

  /** Once every connector has been handed out, all later calls answer None:
      the cursor does not wrap around. */
  lemma {:induction false} NeverWraps(cs: seq<Connector>, k: nat)
    ensures forall i | |cs| <= i < k :: Served(cs, k)[i] == None
  {
    if k > 0 {
      NeverWraps(cs, k - 1);
      assert forall i | 0 <= i < k - 1 :: Served(cs, k)[i] == Served(cs, k - 1)[i];
    }
  }

  class FailoverRoute {
    const config: Route
    var cursor: nat
    /** The answers given so far. */
    ghost var history: seq<Option<Connector>>

    ghost predicate Valid()
      reads this
    {
      && config.Valid()
      && IsFailover(config.kind)
      && cursor == (if |history| <= |config.connectors| then |history| else |config.connectors|)
      && history == Served(config.connectors, |history|)
    }

    constructor (route: Route)
      requires route.Valid() && IsFailover(route.kind)
      ensures Valid() && config == route && cursor == 0 && history == []
    {
      config := route;
      cursor := 0;
      history := [];
    }

    /** getConnector(): the connector under the cursor, which then moves on;
        None once the cursor is past the last connector. */
    method GetConnector() returns (c: Option<Connector>)
      requires Valid()
      modifies this
      ensures Valid()
      ensures c == Attempt(config.connectors, |old(history)|)
      ensures history == old(history) + [c]
      ensures cursor == if old(cursor) < |config.connectors| then old(cursor) + 1 else old(cursor)
    {
      if cursor < |config.connectors| {
        c := Some(config.connectors[cursor]);
        cursor := cursor + 1;
      } else {
        c := None;
      }
      history := history + [c];
    }

    /** getConnectors(): the whole configured list, wherever the cursor is. */
    method GetConnectors() returns (cs: seq<Connector>)
      requires Valid()
      ensures cs == config.connectors
    {
      cs := config.connectors;
    }

    /** matchFilters(routable): the AND of the route's filters. */
    method MatchFilters(routable: Routable) returns (ok: bool)
      requires Valid()
      ensures ok <==> forall i | 0 <= i < |config.filters| :: Matches(config.filters[i], routable)
    {
      ok := Routes.MatchFilters(config, routable).ok;
    }

    /** getRate(): the configured rate, which is 0 on a FailoverMORoute. */
    method GetRate() returns (rate: real)
      requires Valid()
      ensures rate == config.rate
      ensures rate >= 0.0 && (config.kind == FailoverMO ==> rate == 0.0)
    {
      rate := Routes.GetRate(config);
    }
  }

  /** FailoverMORoute(filters, connectors): the route object with a new
      cursor; it takes no rate. */
  method NewFailoverMORoute(filters: Value, connectors: Value)
    returns (r: Result<FailoverRoute, RouteError>)
    ensures r.Ok? <==> FailoverMORoute(filters, connectors).Ok?
    ensures r.Err? ==> r.error == FailoverMORoute(filters, connectors).error
    ensures r.Ok? ==> fresh(r.value) && r.value.Valid() && r.value.cursor == 0 && r.value.history == []
    ensures r.Ok? ==> r.value.config == FailoverMORoute(filters, connectors).value
  {
    match FailoverMORoute(filters, connectors)
    case Err(e) =>
      r := Err(e);
    case Ok(route) =>
      var f := new FailoverRoute(route);
      r := Ok(f);
  }

  /** FailoverMTRoute(filters, connectors, rate): the route object with a
      new cursor. */
  method NewFailoverMTRoute(filters: Value, connectors: Value, rate: Value)
    returns (r: Result<FailoverRoute, RouteError>)
    ensures r.Ok? <==> FailoverMTRoute(filters, connectors, rate).Ok?
    ensures r.Err? ==> r.error == FailoverMTRoute(filters, connectors, rate).error
    ensures r.Ok? ==> fresh(r.value) && r.value.Valid() && r.value.cursor == 0 && r.value.history == []
    ensures r.Ok? ==> r.value.config == FailoverMTRoute(filters, connectors, rate).value
  {
    match FailoverMTRoute(filters, connectors, rate)
    case Err(e) =>
      r := Err(e);
    case Ok(route) =>
      var f := new FailoverRoute(route);
      r := Ok(f);
  }
}
