/**
 * Which route answers a URL. Starlette tries routes in list order; whether a route covers a URL is a
 * parameter. What the order of routes does to precedence among overlapping routes follows for any
 * such relation.
 */
module RoutePrecedence {
  import opened Wrappers
  import opened Paths
  import opened Recordings
  import opened Mocks
  import opened Sequences
  import opened Lifecycle
  import opened Admin
  import opened Snapshot
  import opened RoundTrip
  import opened RouteOrder

  type Covers = (string, string) -> bool

  /** The route that answers a URL: the first that covers it. */
  function Answering(covers: Covers, paths: seq<string>, url: string): Option<string> {
    if paths == [] then None
    else if covers(paths[0], url) then Some(paths[0])
    else Answering(covers, paths[1..], url)
  }

  predicate Distinct(paths: seq<string>) {
    forall i, j :: 0 <= i < j < |paths| ==> paths[i] != paths[j]
  }

  predicate Before(paths: seq<string>, x: string, y: string) {
    exists i, j :: 0 <= i < j < |paths| && paths[i] == x && paths[j] == y
  }

  predicate SameElements(xs: seq<string>, ys: seq<string>) {
    (forall x :: x in xs ==> x in ys) && (forall y :: y in ys ==> y in xs)
  }

  lemma {:induction false} AnsweringFirst(covers: Covers, paths: seq<string>, url: string)
    ensures match Answering(covers, paths, url)
            case Some(x) =>
              exists i :: 0 <= i < |paths| && paths[i] == x && covers(x, url) && forall j :: 0 <= j < i ==> !covers(paths[j], url)
            case None => forall x :: x in paths ==> !covers(x, url)
  {
    if paths != [] && !covers(paths[0], url) {
      AnsweringFirst(covers, paths[1..], url);
      if Answering(covers, paths[1..], url).Some? {
        var x := Answering(covers, paths[1..], url).value;
        var i :| 0 <= i < |paths[1..]| && paths[1..][i] == x && covers(x, url)
                 && forall j :: 0 <= j < i ==> !covers(paths[1..][j], url);
        assert paths[i + 1] == x && forall j :: 0 <= j < i + 1 ==> !covers(paths[j], url) by {
          forall j | 0 <= j < i + 1
            ensures !covers(paths[j], url)
          {
            assert j > 0 ==> paths[j] == paths[1..][j - 1];
          }
        }
      }
    }
  }

  /** The answering route comes before every other route that covers the URL, and only it does. */
  lemma AnsweringIff(covers: Covers, paths: seq<string>, url: string, x: string)
    requires Distinct(paths)
    ensures Answering(covers, paths, url) == Some(x) <==>
            x in paths && covers(x, url) && forall z :: covers(z, url) ==> !Before(paths, z, x)
  {
    AnsweringFirst(covers, paths, url);
    if Answering(covers, paths, url) == Some(x) {
      forall z | covers(z, url)
        ensures !Before(paths, z, x)
      {
      }
    } else if x in paths && covers(x, url) {
      var k :| 0 <= k < |paths| && paths[k] == x;
      var y := Answering(covers, paths, url).value;
      var i :| 0 <= i < |paths| && paths[i] == y && covers(y, url) && forall j :: 0 <= j < i ==> !covers(paths[j], url);
      assert i < k;
      assert Before(paths, y, x);
    }
  }

  /** Another route stands before the one that would answer, in one of the two orders. */
  ghost predicate Shadowed(covers: Covers, xs: seq<string>, ys: seq<string>, x: string, y: string, url: string) {
    exists z :: covers(z, url) && (Before(xs, z, x) || Before(ys, z, y))
  }

  /** Two routes that cover a URL stand in one order here and in the other there, and neither is shadowed. */
  ghost predicate Inverted(covers: Covers, xs: seq<string>, ys: seq<string>, x: string, y: string, url: string) {
    && Before(xs, x, y) && Before(ys, y, x) && covers(x, url) && covers(y, url) && !Shadowed(covers, xs, ys, x, y, url)
  }

  ghost predicate NoneInverted(covers: Covers, xs: seq<string>, ys: seq<string>) {
    forall x, y, url :: !Inverted(covers, xs, ys, x, y, url)
  }

  ghost predicate SamePrecedence(covers: Covers, xs: seq<string>, ys: seq<string>) {
    forall url :: Answering(covers, xs, url) == Answering(covers, ys, url)
  }

  /** Reordering routes changes no answer exactly if it inverts no pair of overlapping routes in the open. */
  lemma SamePrecedenceIff(covers: Covers, xs: seq<string>, ys: seq<string>)
    requires Distinct(xs) && Distinct(ys) && SameElements(xs, ys)
    ensures SamePrecedence(covers, xs, ys) <==> NoneInverted(covers, xs, ys)
  {
    if x, y, url :| Inverted(covers, xs, ys, x, y, url) {
      InvertedAnswers(covers, xs, ys, x, y, url);
    } else if url :| Answering(covers, xs, url) != Answering(covers, ys, url) {
      var x, y := DifferentAnswers(covers, xs, ys, url);
    }
  }

  lemma InvertedAnswers(covers: Covers, xs: seq<string>, ys: seq<string>, x: string, y: string, url: string)
    requires Distinct(xs) && Distinct(ys) && Inverted(covers, xs, ys, x, y, url)
    ensures Answering(covers, xs, url) == Some(x) && Answering(covers, ys, url) == Some(y) && x != y
  {
    AnsweringIff(covers, xs, url, x);
    AnsweringIff(covers, ys, url, y);
  }

  lemma DifferentAnswers(covers: Covers, xs: seq<string>, ys: seq<string>, url: string) returns (x: string, y: string)
    requires Distinct(xs) && Distinct(ys) && SameElements(xs, ys)
    requires Answering(covers, xs, url) != Answering(covers, ys, url)
    ensures Inverted(covers, xs, ys, x, y, url)
  {
    AnsweringFirst(covers, xs, url);
    AnsweringFirst(covers, ys, url);
    x, y := Answering(covers, xs, url).value, Answering(covers, ys, url).value;
    AnsweringIff(covers, xs, url, x);
    AnsweringIff(covers, ys, url, y);
    OneIsBefore(xs, x, y);
    OneIsBefore(ys, x, y);
  }

  lemma OneIsBefore(paths: seq<string>, x: string, y: string)
    requires x in paths && y in paths && x != y
    ensures Before(paths, x, y) || Before(paths, y, x)
  {
    var i :| 0 <= i < |paths| && paths[i] == x;
    var j :| 0 <= j < |paths| && paths[j] == y;
    if i < j {
      assert Before(paths, x, y);
    } else {
      assert Before(paths, y, x);
    }
  }

  // ---------------------------------------------------------------- the round trip

  lemma {:induction false} DistinctRoutePaths(routes: seq<Route>)
    requires DistinctRoutes(routes)
    ensures Distinct(RoutePaths(routes))
  {
    if routes != [] {
      DistinctRoutePaths(routes[1..]);
      HasRouteIff(routes[1..], routes[0].path);
      var all, rest := RoutePaths(routes), RoutePaths(routes[1..]);
      forall i, j | 0 <= i < j < |all|
        ensures all[i] != all[j]
      {
        assert routes[j] == routes[1..][j - 1] && routes[1..][j - 1] in routes[1..];
        assert i > 0 ==> all[i] == rest[i - 1];
        assert all[j] == rest[j - 1];
      }
    }
  }

  /** The routes of an application are those of its mocks, in whatever order. */
  lemma RouteElements(env: Env, a: App, c: string)
    requires AppOk(env, a)
    ensures c in RoutePaths(a.routes) <==> exists p: RootedPath :: p in PathsOf(a.storage) && c in Candidates(p)
  {
    ListedIff(a.routes, c);
    HasRouteIff(a.routes, c);
    assert RoutesAgree(a, PathsOf(a.storage));
    if r :| r in a.routes && r.path == c {
      assert RouteAgrees(a, PathsOf(a.storage), r);
      var p: RootedPath := Owner(c);
      assert p in PathsOf(a.storage) && c in Candidates(p);
    }
  }

  lemma ListedIff(routes: seq<Route>, c: string)
    ensures c in RoutePaths(routes) <==> exists r :: r in routes && r.path == c
  {
    if c in RoutePaths(routes) {
      var i :| 0 <= i < |routes| && RoutePaths(routes)[i] == c;
      assert routes[i] in routes;
    }
    if r :| r in routes && r.path == c {
      var i :| 0 <= i < |routes| && routes[i] == r;
      assert RoutePaths(routes)[i] == c;
    }
  }

  lemma SameRouteElements(env: Env, a: App, b: App)
    requires AppOk(env, a) && AppOk(env, b) && b.storage == a.storage
    ensures SameElements(RoutePaths(a.routes), RoutePaths(b.routes))
    ensures Distinct(RoutePaths(a.routes)) && Distinct(RoutePaths(b.routes))
  {
    DistinctRoutePaths(a.routes);
    DistinctRoutePaths(b.routes);
    forall c
      ensures c in RoutePaths(a.routes) <==> c in RoutePaths(b.routes)
    {
      RouteElements(env, a, c);
      RouteElements(env, b, c);
    }
  }

  /**
   * A round trip, replacing or merging, keeps precedence exactly if storage order inverts no pair of
   * overlapping routes in the open: routes that cover no common URL, or none that is theirs to
   * answer, may change places.
   */
  lemma RoundTripKeepsPrecedenceIff(env: Env, a: App, version: string, replace: bool, covers: Covers)
    requires AppOk(env, a) && StorageAccepted(env, a) && ExportsImportable(env, a)
    ensures Export(a, version).Some?
    ensures var b := Import(env, a, Export(a, version).value, replace).0;
            SamePrecedence(covers, RoutePaths(a.routes), RoutePaths(b.routes))
            <==> NoneInverted(covers, RoutePaths(a.routes), StorageOrder(a.storage))
  {
    RoundTripPutsRoutesInStorageOrder(env, a, version, a, replace);
    if replace {
      SnapshotRoundTrip(env, a, version, a);
    } else {
      MergeOfOwnExport(env, a, version);
    }
    var b := Import(env, a, Export(a, version).value, replace).0;
    SameRouteElements(env, a, b);
    SamePrecedenceIff(covers, RoutePaths(a.routes), RoutePaths(b.routes));
  }

  // ---------------------------------------------------------------- updates

  lemma {:induction false} AnsweringConcat(covers: Covers, xs: seq<string>, ys: seq<string>, url: string)
    ensures Answering(covers, xs + ys, url)
            == if Answering(covers, xs, url).Some? then Answering(covers, xs, url) else Answering(covers, ys, url)
  {
    if xs == [] {
      assert xs + ys == ys;
    } else {
      assert (xs + ys)[1..] == xs[1..] + ys;
      AnsweringConcat(covers, xs[1..], ys, url);
    }
  }

  /** An updated mock yields to every other mock: it answers exactly the URLs that no other covers. */
  lemma UpdatedMockYields(
    env: Env, a: App, m: Mock, preserve: set<Key>, keepRecordings: bool, imported: Option<seq<Entry>>, covers: Covers,
    url: string)
    requires AppOk(env, a) && m.path in PathsOf(a.storage)
    ensures var others := RoutePaths(DropRoutes(a.routes, Candidates(m.path)));
            Answering(covers, RoutePaths(Generation(env, a, m, preserve, keepRecordings, imported).routes), url)
            == if Answering(covers, others, url).Some? then Answering(covers, others, url)
               else Answering(covers, PathsOfMock(m.path), url)
  {
    UpdateMovesRoutes(env, a, m, preserve, keepRecordings, imported);
    AnsweringConcat(covers, RoutePaths(DropRoutes(a.routes, Candidates(m.path))), PathsOfMock(m.path), url);
  }
}
