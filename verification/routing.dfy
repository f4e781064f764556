/** How a request finds its endpoint. Each router in api/v1 is mounted by
    main.py under `/api/v1` and its own first path segment; inside a router
    a route is a verb and a path template, and the web framework hands a
    request to the first route whose template and verb both match. When
    some route matches the path only under another verb the answer is 405;
    when no template matches it is 404. Paths here are relative to
    `/api/v1`, as the frontend client writes them. */
module Routing {
  import opened Lists
  import opened Strings

  /** One `/`-separated piece of a template: literal text or a `{param}`. */
  datatype Segment = Lit(text: string) | Param

  /** A route: its verb, its template (prefix included) and the name of the
      endpoint function that serves it. */
  datatype Route = Route(verb: string, template: seq<Segment>, endpoint: string)

  datatype Outcome = Handled(endpoint: string) | MethodNotAllowed | NotFound

  /** A path matches a template piece by piece: a literal must be equal, a
      parameter takes any non-empty piece. */
  predicate PiecesMatch(template: seq<Segment>, pieces: seq<string>) {
    |template| == |pieces| &&
    forall k :: 0 <= k < |pieces| ==>
      (if template[k].Lit? then pieces[k] == template[k].text else pieces[k] != "")
  }

  predicate PathMatches(r: Route, path: string) {
    PiecesMatch(r.template, Split(path, '/'))
  }

  function Serves(verb: string, path: string): Route -> bool {
    (r: Route) => r.verb == verb && PathMatches(r, path)
  }

  function MatchesPath(path: string): Route -> bool {
    (r: Route) => PathMatches(r, path)
  }

  /** The dispatch of a request: the first route serving it, else 405 when
      some route has that path, else 404. */
  function Dispatch(routes: seq<Route>, verb: string, path: string): (o: Outcome)
    ensures o.Handled? <==> exists i :: 0 <= i < |routes| && routes[i].verb == verb && PathMatches(routes[i], path)
    ensures o.Handled? ==>
      exists i :: 0 <= i < |routes| && routes[i].verb == verb && PathMatches(routes[i], path) &&
                  routes[i].endpoint == o.endpoint &&
                  forall j :: 0 <= j < i ==> !(routes[j].verb == verb && PathMatches(routes[j], path))
    ensures o == NotFound <==> forall i :: 0 <= i < |routes| ==> !PathMatches(routes[i], path)
  {
    match FirstIndex(routes, Serves(verb, path))
    case Some(i) => Handled(routes[i].endpoint)
    case None =>
      if FirstIndex(routes, MatchesPath(path)).Some? then MethodNotAllowed else NotFound
  }

  /** The first route serving a request handles it. */
  lemma FirstServes(routes: seq<Route>, verb: string, path: string, i: nat)
    requires i < |routes| && routes[i].verb == verb && PathMatches(routes[i], path)
    requires forall j :: 0 <= j < i ==> !(routes[j].verb == verb && PathMatches(routes[j], path))
    ensures Dispatch(routes, verb, path) == Handled(routes[i].endpoint)
  {
    assert Serves(verb, path)(routes[i]);
  }

  /** A path some route has, under none of them with that verb, is 405. */
  lemma WrongVerb(routes: seq<Route>, verb: string, path: string, i: nat)
    requires i < |routes| && PathMatches(routes[i], path)
    requires forall j :: 0 <= j < |routes| && PathMatches(routes[j], path) ==> routes[j].verb != verb
    ensures Dispatch(routes, verb, path) == MethodNotAllowed
  {
  }

  /** Splitting a path at its first `/`: the piece before it, then the
      pieces of the rest. */
  lemma SplitFirst(a: string, rest: string)
    requires '/' !in a
    ensures Split(a + "/" + rest, '/') == [a] + Split(rest, '/')
  {
    var s := a + "/" + rest;
    assert s[|a|] == '/';
    assert IndexOf(s, '/') == |a| by {
      assert forall m :: 0 <= m < |a| ==> s[m] == a[m];
    }
    assert s[..|a|] == a;
    assert s[|a| + 1..] == rest;
  }

  /** A path `/<a>/<rest>` splits into the empty piece, `a`, and the
      pieces of the rest. */
  lemma PrefixPieces(a: string, rest: string)
    requires '/' !in a
    ensures Split("/" + a + "/" + rest, '/') == ["", a] + Split(rest, '/')
  {
    assert "/" + a + "/" + rest == "" + "/" + (a + "/" + rest);
    SplitFirst("", a + "/" + rest);
    SplitFirst(a, rest);
  }

  /** A path of three pieces without `/` in them splits back into those
      pieces, after the empty piece before the leading `/`. */
  lemma {:induction false} ThreePieces(a: string, b: string, c: string)
    requires '/' !in a && '/' !in b && '/' !in c
    ensures Split("/" + a + "/" + b + "/" + c, '/') == ["", a, b, c]
  {
    var pieces := ["", a, b, c];
    assert Join([b, c], "/") == b + "/" + c by {
      assert [b, c][1..] == [c];
    }
    assert Join([a, b, c], "/") == a + "/" + (b + "/" + c) by {
      assert [a, b, c][1..] == [b, c];
    }
    assert Join(pieces, "/") == "" + "/" + (a + "/" + (b + "/" + c)) by {
      assert pieces[1..] == [a, b, c];
    }
    assert "" + "/" + (a + "/" + (b + "/" + c)) == "/" + a + "/" + b + "/" + c;
    SplitJoin(pieces, '/');
  }
}
