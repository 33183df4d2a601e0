/**
 * The order of routes. Every update of a mock appends its routes anew while storage keeps its place;
 * a snapshot records storage order only.
 */
module RouteOrder {
  import opened Wrappers
  import opened Paths
  import opened Recordings
  import opened Mocks
  import opened Sequences
  import opened Lifecycle
  import opened LifecycleProofs
  import opened Admin
  import opened AdminEffects
  import opened Snapshot
  import opened SnapshotProofs
  import opened RoundTrip

  function RoutePaths(routes: seq<Route>): seq<string> {
    seq(|routes|, i requires 0 <= i < |routes| => routes[i].path)
  }

  function PathsOfMock(path: string): seq<string> {
    if path == "/" then [path] else [path, path + "/"]
  }

  /** The routes of a freshly configured application, in storage order. */
  function StorageOrder(storage: seq<Mock>): seq<string> {
    if storage == [] then [] else PathsOfMock(storage[0].path) + StorageOrder(storage[1..])
  }

  function ImportOrder(parsed: seq<Parsed>): seq<string> {
    if parsed == [] then [] else PathsOfMock(parsed[0].mock.path) + ImportOrder(parsed[1..])
  }

  lemma {:induction false} RoutesAfterDrop(routes: seq<Route>, candidates: set<string>, last: seq<Route>)
    requires forall r :: r in last ==> r.path !in candidates
    ensures DropRoutes(routes + last, candidates) == DropRoutes(routes, candidates) + last
  {
    if routes == [] {
      assert routes + last == last;
      DropNone(last, candidates);
    } else {
      RoutesAfterDrop(routes[1..], candidates, last);
      assert (routes + last)[1..] == routes[1..] + last;
    }
  }

  lemma {:induction false} DropNone(routes: seq<Route>, candidates: set<string>)
    requires forall r :: r in routes ==> r.path !in candidates
    ensures DropRoutes(routes, candidates) == routes
  {
    if routes != [] {
      assert routes[0] in routes;
      DropNone(routes[1..], candidates);
    }
  }

  // ---------------------------------------------------------------- the routes of an import

  /** What is left of a route list when every imported mock has dropped the routes of its path. */
  function DropAll(routes: seq<Route>, parsed: seq<Parsed>): seq<Route>
    decreases |parsed|
  {
    if parsed == [] then routes else DropAll(DropRoutes(routes, Candidates(parsed[0].mock.path)), parsed[1..])
  }

  lemma {:induction false} DropAllShape(routes: seq<Route>, parsed: seq<Parsed>)
    ensures forall r :: r in DropAll(routes, parsed) <==>
              r in routes && forall p :: p in parsed ==> r.path !in Candidates(p.mock.path)
    decreases |parsed|
  {
    if parsed != [] {
      assert parsed == [parsed[0]] + parsed[1..];
      DropRoutesShape(routes, Candidates(parsed[0].mock.path));
      DropAllShape(DropRoutes(routes, Candidates(parsed[0].mock.path)), parsed[1..]);
    }
  }

  lemma {:induction false} DropAllKeeps(routes: seq<Route>, parsed: seq<Parsed>, last: seq<Route>)
    requires forall p, r :: p in parsed && r in last ==> r.path !in Candidates(p.mock.path)
    ensures DropAll(routes + last, parsed) == DropAll(routes, parsed) + last
    decreases |parsed|
  {
    if parsed != [] {
      assert parsed[0] in parsed && forall p :: p in parsed[1..] ==> p in parsed;
      RoutesAfterDrop(routes, Candidates(parsed[0].mock.path), last);
      DropAllKeeps(DropRoutes(routes, Candidates(parsed[0].mock.path)), parsed[1..], last);
    }
  }

  /** The routes of a mock stay when other mocks are imported. */
  lemma OwnRoutesStay(env: Env, parsed: seq<Parsed>, path: string, h: Handler)
    requires Settled(path) && AllReady(env, parsed) && path !in ParsedPaths(parsed)
    ensures forall p, r :: p in parsed && r in RoutesOfMock(path, h) ==> r.path !in Candidates(p.mock.path)
  {
    forall p, r | p in parsed && r in RoutesOfMock(path, h)
      ensures r.path !in Candidates(p.mock.path)
    {
      assert Ready(env, p);
      SettledFacts(path);
      CandidatesDisjoint(path, p.mock.path);
      assert r.path in Candidates(path);
    }
  }

  /** An import puts the routes it installs behind what is left of the others, in the order of the document. */
  lemma {:induction false} ImportedRoutes(env: Env, a: App, parsed: seq<Parsed>)
    requires AllReady(env, parsed) && DistinctParsed(parsed)
    ensures RoutePaths(InstallAll(env, a, parsed).routes) == RoutePaths(DropAll(a.routes, parsed)) + ImportOrder(parsed)
    decreases |parsed|
  {
    if parsed != [] {
      ReadyParts(env, parsed);
      var p, rest := parsed[0], parsed[1..];
      var c := Next(env, a, p);
      var dropped := DropRoutes(a.routes, Candidates(p.mock.path));
      var h := NextRoutes(env, a, p);
      ImportedRoutes(env, c, rest);
      OwnRoutesStay(env, rest, p.mock.path, h);
      DropAllKeeps(dropped, rest, RoutesOfMock(p.mock.path, h));
      PathsOfRoutes(DropAll(dropped, rest), DropAll(c.routes, rest), p.mock.path, h);
      Associative(RoutePaths(DropAll(dropped, rest)), PathsOfMock(p.mock.path), ImportOrder(rest));
    }
  }

  lemma NextRoutes(env: Env, a: App, p: Parsed) returns (h: Handler)
    ensures Next(env, a, p).routes == DropRoutes(a.routes, Candidates(p.mock.path)) + RoutesOfMock(p.mock.path, h)
  {
    h := GenerationRoutes(env, a, p.mock, {}, false, p.entries);
  }

  /** A new generation drops the routes of its path and appends its own. */
  lemma GenerationRoutes(
    env: Env, a: App, m: Mock, preserve: set<Key>, keepRecordings: bool, imported: Option<seq<Entry>>)
    returns (h: Handler)
    ensures Generation(env, a, m, preserve, keepRecordings, imported).routes
            == DropRoutes(a.routes, Candidates(m.path)) + RoutesOfMock(m.path, h)
  {
    var path: string := m.path;
    var built := BuildAll(m, if path in a.sequences then a.sequences[path] else map[], preserve, a.cursors);
    h := Handler(m, built.states, if m.recording.Some? then Some(|a.stores|) else None);
  }

  lemma PathsOfRoutes(before: seq<Route>, after: seq<Route>, path: string, h: Handler)
    requires after == before + RoutesOfMock(path, h)
    ensures RoutePaths(after) == RoutePaths(before) + PathsOfMock(path)
  {
  }

  lemma Associative(x: seq<string>, y: seq<string>, z: seq<string>)
    ensures x + y + z == x + (y + z)
  {
  }

  /** An import that covers every stored path leaves no old route. */
  lemma NothingLeft(env: Env, a: App, parsed: seq<Parsed>)
    requires AppOk(env, a) && PathsOf(a.storage) <= ParsedPaths(parsed)
    ensures DropAll(a.routes, parsed) == []
  {
    DropAllShape(a.routes, parsed);
    forall r
      ensures r !in DropAll(a.routes, parsed)
    {
      if r in a.routes {
        assert RouteAgrees(a, PathsOf(a.storage), r);
        var p :| p in parsed && p.mock.path == Owner(r.path);
      }
    }
    NoMembers(DropAll(a.routes, parsed));
  }

  // ---------------------------------------------------------------- the round trip

  lemma {:induction false} ExportOrder(a: App, mocks: seq<Mock>)
    ensures ImportOrder(AllParsedOf(a, mocks)) == StorageOrder(mocks)
  {
    if mocks != [] {
      assert AllParsedOf(a, mocks)[1..] == AllParsedOf(a, mocks[1..]);
      ExportOrder(a, mocks[1..]);
    }
  }

  /**
   * An import of an export puts routes into storage order: a replacing one on any server, and a
   * merging one on any server that has no other mocks, such as the one that was exported.
   */
  lemma RoundTripPutsRoutesInStorageOrder(env: Env, a: App, version: string, target: App, replace: bool)
    requires AppOk(env, a) && StorageAccepted(env, a) && ExportsImportable(env, a) && AppOk(env, target)
    requires replace || PathsOf(target.storage) <= PathsOf(a.storage)
    ensures Export(a, version).Some?
    ensures RoutePaths(Import(env, target, Export(a, version).value, replace).0.routes) == StorageOrder(a.storage)
  {
    ImportOfExport(env, a, version, target, replace);
    var parsed := AllParsedOf(a, a.storage);
    StartCovered(env, target, replace, PathsOf(a.storage));
    ParsedPathsOf(a, a.storage);
    NothingLeft(env, StartOf(target, replace), parsed);
    ImportedRoutes(env, StartOf(target, replace), parsed);
    ExportOrder(a, a.storage);
    assert RoutePaths([]) + StorageOrder(a.storage) == StorageOrder(a.storage);
  }

  lemma StartCovered(env: Env, a: App, replace: bool, paths: set<string>)
    requires AppOk(env, a) && (replace || PathsOf(a.storage) <= paths)
    ensures AppOk(env, StartOf(a, replace)) && PathsOf(StartOf(a, replace).storage) <= paths
  {
    CleanupOk(env, a);
  }

  // ---------------------------------------------------------------- updates

  /** Updating a mock in any way moves its routes behind all others, while storage keeps its order. */
  lemma UpdateMovesRoutes(
    env: Env, a: App, m: Mock, preserve: set<Key>, keepRecordings: bool, imported: Option<seq<Entry>>)
    requires AppOk(env, a) && m.path in PathsOf(a.storage)
    ensures var b := Generation(env, a, m, preserve, keepRecordings, imported);
            && RoutePaths(b.routes) == RoutePaths(DropRoutes(a.routes, Candidates(m.path))) + PathsOfMock(m.path)
            && StorageOrder(b.storage) == StorageOrder(a.storage)
    ensures forall q :: q in PathsOf(a.storage) ==> Settled(q)
  {
    var b := Generation(env, a, m, preserve, keepRecordings, imported);
    var h := GenerationRoutes(env, a, m, preserve, keepRecordings, imported);
    StoredPathsSettle(env, a);
    FiledIsSame(m);
    MockAtIff(a.storage, m.path);
    SameOrder(a.storage, m);
    PathsOfRoutes(DropRoutes(a.routes, Candidates(m.path)), b.routes, m.path, h);
  }

  lemma {:induction false} SameOrder(storage: seq<Mock>, m: Mock)
    requires MockAt(storage, m.path).Some?
    ensures StorageOrder(SetMock(storage, m)) == StorageOrder(storage)
  {
    if storage[0].path == m.path {
      assert ([m] + storage[1..])[1..] == storage[1..];
    } else {
      SameOrder(storage[1..], m);
      assert ([storage[0]] + SetMock(storage[1..], m))[1..] == SetMock(storage[1..], m);
    }
  }

  /** Updating any mock but the last one in storage order leaves routes out of storage order. */
  lemma UpdateLeavesStorageOrder(
    env: Env, a: App, m: Mock, preserve: set<Key>, keepRecordings: bool, imported: Option<seq<Entry>>,
    front: seq<Mock>, last: Mock)
    requires a.storage == front + [last] && last.path != m.path && m.path in PathsOf(a.storage) && AppOk(env, a)
    ensures !InStorageOrder(Generation(env, a, m, preserve, keepRecordings, imported))
  {
    UpdateMovesRoutes(env, a, m, preserve, keepRecordings, imported);
    assert last in a.storage;
    MovedFromOrder(
      front, last, RoutePaths(DropRoutes(a.routes, Candidates(m.path))), m.path,
      Generation(env, a, m, preserve, keepRecordings, imported));
  }

  predicate InStorageOrder(a: App) {
    RoutePaths(a.routes) == StorageOrder(a.storage)
  }

  lemma MovedFromOrder(front: seq<Mock>, last: Mock, before: seq<string>, path: string, b: App)
    requires Settled(path) && Settled(last.path) && last.path != path
    requires RoutePaths(b.routes) == before + PathsOfMock(path) && StorageOrder(b.storage) == StorageOrder(front + [last])
    ensures !InStorageOrder(b)
  {
    EndsElsewhere(front + [last], before, path);
  }

  lemma EndsElsewhere(storage: seq<Mock>, before: seq<string>, path: string)
    requires storage != [] && Settled(path) && Settled(storage[|storage| - 1].path) && storage[|storage| - 1].path != path
    ensures before + PathsOfMock(path) != StorageOrder(storage)
  {
    EndsWithLast(storage);
    LastPathsDiffer(path, storage[|storage| - 1].path);
    var last, all := PathsOfMock(path), before + PathsOfMock(path);
    assert all[|all| - 1] == last[|last| - 1];
  }

  lemma LastPathsDiffer(p: string, q: string)
    requires Settled(p) && Settled(q) && p != q
    ensures var a, b := PathsOfMock(p), PathsOfMock(q); a[|a| - 1] != b[|b| - 1]
  {
    SettledFacts(p);
    SettledFacts(q);
    CandidatesDisjoint(p, q);
    var a, b := PathsOfMock(p), PathsOfMock(q);
    assert a[|a| - 1] in Candidates(p) && b[|b| - 1] in Candidates(q);
  }

  lemma {:induction false} EndsWithLast(storage: seq<Mock>)
    requires storage != []
    ensures var own := PathsOfMock(storage[|storage| - 1].path);
            var order := StorageOrder(storage);
            |order| > 0 && order[|order| - 1] == own[|own| - 1]
  {
    if |storage| > 1 {
      EndsWithLast(storage[1..]);
    }
  }
}
