/** Route filters: predicates over a routable, each usable on MO traffic, MT
    traffic or both. The destination address filter holds a compiled pattern
    of a regular-expression subset (literal characters, `.` and `*`), matched
    against the whole destination address. */
module Filters {
  import opened Entities

  /** One position of a compiled pattern: `.` or a literal character,
      possibly repeated by a following `*`. */
  datatype AtomChar = AnyChar | Lit(ch: char)
  datatype Atom = Atom(what: AtomChar, star: bool)
  type Pattern = seq<Atom>

  predicate Special(ch: char) {
    ch == '.' || ch == '*'
  }

  /** The other regular-expression metacharacters; a pattern using any of
      them is outside the modelled subset and does not compile. */
  predicate Unsupported(ch: char) {
    ch in "+?()[]{}^$|\\"
  }

  predicate Accepts(a: AtomChar, ch: char) {
    match a
    case AnyChar => true
    case Lit(l) => l == ch
  }

  /** Compiles the pattern text; a `*` with nothing to repeat (at the start,
      or right after another `*`) is a compilation error, and so is any
      metacharacter outside the subset. */
  function Compile(text: string): (p: Option<Pattern>)
    ensures p.Some? ==> |p.value| <= |text|
    ensures text != [] && text[0] == '*' ==> p.None?
    ensures (exists i | 0 <= i < |text| :: Unsupported(text[i])) ==> p.None?
    decreases |text|
  {
    if text == [] then Some([])
    else if text[0] == '*' || Unsupported(text[0]) then None
    else
      var a := if text[0] == '.' then AnyChar else Lit(text[0]);
      var star := |text| > 1 && text[1] == '*';
      var tail := if star then text[2..] else text[1..];
      var rest := Compile(tail);
      assert forall i | 0 <= i < |text| && Unsupported(text[i]) ::
        i >= 1 && (star ==> i >= 2) && tail[i - (|text| - |tail|)] == text[i];
      if rest.None? then None else Some([Atom(a, star)] + rest.value)
  }

  /** The pattern text of a compiled pattern. */
  function Render(p: Pattern): string {
    if p == [] then []
    else
      var c := match p[0].what case AnyChar => '.' case Lit(l) => l;
      [c] + (if p[0].star then "*" else "") + Render(p[1..])
  }

  /** Literal characters of a pattern are not themselves metacharacters. */
  predicate WellFormed(p: Pattern) {
    forall i | 0 <= i < |p| :: p[i].what.Lit? ==> !Special(p[i].what.ch) && !Unsupported(p[i].what.ch)
  }

  lemma {:induction false} CompileRender(p: Pattern)
    requires WellFormed(p)
    ensures Compile(Render(p)) == Some(p)
  {
    if p != [] {
      var c := match p[0].what case AnyChar => '.' case Lit(l) => l;
      var tail := Render(p[1..]);
      var text := [c] + (if p[0].star then "*" else "") + tail;
      assert Render(p) == text;
      assert text[0] == c && c != '*' && !Unsupported(c);
      CompileRender(p[1..]);
      if p[0].star {
        assert text[1] == '*' && text[2..] == tail;
      } else {
        assert text[1..] == tail;
        if tail != [] {
          var c1 := match p[1].what case AnyChar => '.' case Lit(l) => l;
          assert tail[0] == c1;
        }
      }
      assert [p[0]] + p[1..] == p;
    }
  }

  /** Whole-string match of s against the pattern. */
  predicate FullMatch(p: Pattern, s: string)
    ensures FullMatch(p, s) && (forall i | 0 <= i < |p| :: !p[i].star) ==> |s| == |p|
    decreases |p|, |s|
  {
    if p == [] then s == []
    else if p[0].star then
      FullMatch(p[1..], s) || (s != [] && Accepts(p[0].what, s[0]) && FullMatch(p, s[1..]))
    else
      s != [] && Accepts(p[0].what, s[0]) && FullMatch(p[1..], s[1..])
  }

  /** The compiled form of `.*`. */
  const MatchAll: Pattern := [Atom(AnyChar, true)]

  lemma {:induction false} MatchAllMatchesEverything(s: string)
    ensures FullMatch(MatchAll, s)
  {
    if s != [] {
      MatchAllMatchesEverything(s[1..]);
    }
  }

  lemma CompileDotStar()
    ensures Compile(".*") == Some(MatchAll)
  {
    var text := ".*";
    assert text[0] == '.' && text[1] == '*' && text[2..] == [];
    assert Compile(text[2..]) == Some([]);
    assert [Atom(AnyChar, true)] + [] == MatchAll;
  }

  /** The pattern that spells w literally. */
  function Literal(w: string): (p: Pattern)
    ensures |p| == |w|
  {
    if w == [] then [] else [Atom(Lit(w[0]), false)] + Literal(w[1..])
  }

  lemma {:induction false} LiteralMatchesOnlyItself(w: string, s: string)
    ensures FullMatch(Literal(w), s) <==> s == w
  {
    if w != [] {
      var p := Literal(w);
      assert p[0] == Atom(Lit(w[0]), false) && p[1..] == Literal(w[1..]);
      if s != [] {
        LiteralMatchesOnlyItself(w[1..], s[1..]);
        assert FullMatch(p, s) <==> s[0] == w[0] && FullMatch(Literal(w[1..]), s[1..]);
        assert s == w <==> s[0] == w[0] && s[1..] == w[1..] by {
          assert s == [s[0]] + s[1..] && w == [w[0]] + w[1..];
        }
      }
    }
  }

  /** The traffic a filter may be used on. */
  datatype Direction = MO | MT

  datatype Filter =
    | ConnectorFilter(connector: Connector)
    | UserFilter(user: User)
    | DestinationAddrFilter(pattern: Pattern)

  /** Creating a destination address filter compiles its pattern. */
  function NewDestinationAddrFilter(text: string): (f: Option<Filter>)
    ensures f.Some? <==> Compile(text).Some?
    ensures f.Some? ==> f.value.DestinationAddrFilter? && f.value.pattern == Compile(text).value
  {
    match Compile(text)
    case None => None
    case Some(p) => Some(DestinationAddrFilter(p))
  }

  /** Connector filters are for MO traffic, user filters for MT traffic and
      destination address filters for both. */
  predicate UsedFor(f: Filter, d: Direction) {
    match f
    case ConnectorFilter(_) => d == MO
    case UserFilter(_) => d == MT
    case DestinationAddrFilter(_) => true
  }

  /** A connector filter compares the routable's connector, a user filter the
      routable's user by id, a destination address filter the destination
      address; a filter never matches traffic of a direction it is not for. */
  predicate Matches(f: Filter, r: Routable)
    ensures Matches(f, r) ==> UsedFor(f, if r.RoutableDeliverSm? then MO else MT)
  {
    match f
    case ConnectorFilter(c) => r.RoutableDeliverSm? && r.connector == c
    case UserFilter(u) => r.RoutableSubmitSm? && r.user.uid == u.uid
    case DestinationAddrFilter(p) => FullMatch(p, r.destinationAddr)
  }

  /** The filter list is the AND of its filters, checked in order with an
      early exit on the first that does not match. */
  predicate MatchAllFilters(fs: seq<Filter>, r: Routable)
    ensures MatchAllFilters(fs, r) <==> forall i | 0 <= i < |fs| :: Matches(fs[i], r)
  {
    if fs == [] then true
    else if !Matches(fs[0], r) then false
    else MatchAllFilters(fs[1..], r)
  }
}
