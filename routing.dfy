/**
 * Express-style routing: a router is the list of routes in the order they
 * were registered, a request goes to the first route whose method and path
 * pattern match, and a route may put the `verify` middleware before its
 * handler. Path patterns are `/`-separated; a `:name` segment binds any
 * non-empty segment; one trailing slash is ignored.
 */
module Routing {
  import opened Wrappers
  import Text

  datatype Verb = Get | Post | Patch | Delete

  datatype Segment = Literal(text: string) | Param(name: string)

  /** One registration: method, path pattern, whether `verify` runs first, and the handler. */
  datatype Route<H> = Route(verb: Verb, path: string, guarded: bool, handler: H)

  /** The position of the route that answers, and the path parameters it binds. */
  datatype Dispatched = Dispatched(index: nat, params: map<string, string>)

  /** The segments of a path: split on '/', without the leading empty piece and one trailing empty piece. */
  function PathSegments(path: string): seq<string>
  {
    var pieces := Text.Split(path, '/');
    var tail := if pieces[0] == "" then pieces[1..] else pieces;
    if |tail| > 0 && tail[|tail| - 1] == "" then tail[..|tail| - 1] else tail
  }

  function ToSegment(s: string): Segment {
    if |s| > 0 && s[0] == ':' then Param(s[1..]) else Literal(s)
  }

  /** The compiled pattern of a registered path. */
  function PatternOf(path: string): (pattern: seq<Segment>)
    ensures |pattern| == |PathSegments(path)|
    ensures forall i :: 0 <= i < |pattern| ==> pattern[i] == ToSegment(PathSegments(path)[i])
  {
    var segments := PathSegments(path);
    seq(|segments|, i requires 0 <= i < |segments| => ToSegment(segments[i]))
  }

  /** The names a pattern binds. */
  function ParamNames(pattern: seq<Segment>): set<string>
  {
    set i | 0 <= i < |pattern| && pattern[i].Param? :: pattern[i].name
  }

  /** Matching a pattern against request segments: the bindings on success. */
  function MatchSegments(pattern: seq<Segment>, segments: seq<string>): (r: Option<map<string, string>>)
    ensures r.Some? ==> |pattern| == |segments|
    ensures r.Some? ==> r.value.Keys == ParamNames(pattern)
    ensures r.Some? ==> forall i :: 0 <= i < |pattern| ==>
      (pattern[i].Literal? ==> segments[i] == pattern[i].text) && (pattern[i].Param? ==> segments[i] != "")
    decreases |pattern|
  {
    if |pattern| != |segments| then None
    else if pattern == [] then Some(map[])
    else
      match MatchSegments(pattern[1..], segments[1..])
      case None => None
      case Some(rest) =>
        assert ParamNames(pattern) == ParamNames(pattern[1..]) + (if pattern[0].Param? then {pattern[0].name} else {}) by {
          forall n | n in ParamNames(pattern)
            ensures n in ParamNames(pattern[1..]) + (if pattern[0].Param? then {pattern[0].name} else {})
          {
            var i :| 0 <= i < |pattern| && pattern[i].Param? && pattern[i].name == n;
            if i > 0 { assert pattern[1..][i - 1] == pattern[i]; }
          }
          forall n | n in ParamNames(pattern[1..])
            ensures n in ParamNames(pattern)
          {
            var i :| 0 <= i < |pattern[1..]| && pattern[1..][i].Param? && pattern[1..][i].name == n;
            assert pattern[i + 1] == pattern[1..][i];
          }
        }
        match pattern[0]
        case Literal(t) => if segments[0] == t then Some(rest) else None
        case Param(n) => if segments[0] != "" then Some(rest[n := segments[0]]) else None
  }

  /** Whether a route answers this method and path. */
  predicate Matches<H>(route: Route<H>, verb: Verb, path: string) {
    route.verb == verb && MatchSegments(PatternOf(route.path), PathSegments(path)).Some?
  }

  /** The first route at or after `from` that matches. */
  function FirstMatch<H>(routes: seq<Route<H>>, verb: Verb, path: string, from: nat): (r: Option<nat>)
    requires from <= |routes|
    ensures r.Some? ==> from <= r.value < |routes| && Matches(routes[r.value], verb, path)
    ensures r.Some? ==> forall j :: from <= j < r.value ==> !Matches(routes[j], verb, path)
    ensures r.None? ==> forall j :: from <= j < |routes| ==> !Matches(routes[j], verb, path)
    decreases |routes| - from
  {
    if from == |routes| then None
    else if Matches(routes[from], verb, path) then Some(from)
    else FirstMatch(routes, verb, path, from + 1)
  }

  /** First-match dispatch over the routes in registration order. */
  function Dispatch<H>(routes: seq<Route<H>>, verb: Verb, path: string): (r: Option<Dispatched>)
    ensures r.Some? ==> r.value.index < |routes| && Matches(routes[r.value.index], verb, path)
    ensures r.Some? ==> forall j :: 0 <= j < r.value.index ==> !Matches(routes[j], verb, path)
    ensures r.Some? ==> Some(r.value.params) == MatchSegments(PatternOf(routes[r.value.index].path), PathSegments(path))
    ensures r.None? <==> forall j :: 0 <= j < |routes| ==> !Matches(routes[j], verb, path)
  {
    match FirstMatch(routes, verb, path, 0)
    case None => None
    case Some(i) => Some(Dispatched(i, MatchSegments(PatternOf(routes[i].path), PathSegments(path)).value))
  }

  /** The root path has no segments. */
  lemma RootSegments()
    ensures PathSegments("/") == []
  {
    Text.SplitAfterPrefix("", '/', "");
    assert "" + ['/'] + "" == "/";
  }

  /** A path written as '/' followed by non-empty, slash-free words has exactly those words as segments. */
  lemma SegmentsOfWords(words: seq<string>)
    requires |words| >= 1
    requires forall i :: 0 <= i < |words| ==> words[i] != "" && '/' !in words[i]
    ensures PathSegments("/" + Text.Join(words, '/')) == words
  {
    Text.SplitAfterPrefix("", '/', Text.Join(words, '/'));
    assert "" + ['/'] + Text.Join(words, '/') == "/" + Text.Join(words, '/');
    Text.SplitJoin(words, '/');
  }

  /** A pattern of literals only binds nothing. */
  lemma LiteralPatternBindsNothing(pattern: seq<Segment>)
    requires forall k :: 0 <= k < |pattern| ==> pattern[k].Literal?
    ensures ParamNames(pattern) == {}
  {
  }

  /** A literal segment consumes an equal request segment and binds nothing. */
  lemma MatchLiteralHead(t: string, pattern: seq<Segment>, segments: seq<string>)
    ensures MatchSegments([Literal(t)] + pattern, [t] + segments) == MatchSegments(pattern, segments)
  {
    assert ([Literal(t)] + pattern)[1..] == pattern;
    assert ([t] + segments)[1..] == segments;
  }

  /** When one route alone answers a method, a request for that method that it matches goes to it. */
  lemma {:induction false} SoleRouteForVerb<H>(routes: seq<Route<H>>, verb: Verb, path: string, i: nat, params: map<string, string>)
    requires i < |routes| && routes[i].verb == verb
    requires MatchSegments(PatternOf(routes[i].path), PathSegments(path)) == Some(params)
    requires forall j :: 0 <= j < |routes| && j != i ==> routes[j].verb != verb
    ensures Dispatch(routes, verb, path) == Some(Dispatched(i, params))
  {
    assert Matches(routes[i], verb, path);
    var d := Dispatch(routes, verb, path);
    assert d.Some?;
    assert d.value.index == i;
  }

  /** A router, filled by successive registrations, each appended at the end. */
  class Router<H> {
    var routes: seq<Route<H>>

    constructor ()
      ensures routes == []
    {
      routes := [];
    }

    method Register(verb: Verb, path: string, guarded: bool, handler: H)
      modifies this
      ensures routes == old(routes) + [Route(verb, path, guarded, handler)]
    {
      routes := routes + [Route(verb, path, guarded, handler)];
    }
  }
}
