/**
 * The lifecycle of mocks (proxy_mock/services/mock_service.py, proxy_mock/repositories/mock_storage.py)
 * over four structures that must agree: the configuration storage, the cursors, the recording
 * stores and the routes. Stores and cursors are numbered in order of allocation, because handlers
 * of replaced generations keep referring to theirs.
 */
module Lifecycle {
  import opened Wrappers
  import opened Base64
  import opened Json
  import opened Paths
  import opened Recordings
  import opened Store
  import opened Mocks
  import opened Sequences

  /** Process settings and library calls: the administrative prefix, route compilation, ids and sizes,
      configuration parsing, the proxy allowlist, and the id of this instance. */
  datatype Env = Env(
    prefix: string, compiles: string -> bool, codec: Codec, schema: Object -> Option<Mock>, hostAllowed: string -> bool,
    instanceId: string)

  /** A route handler closes over its configuration, cursors and store. */
  datatype Handler = Handler(mock: Mock, sequences: map<Key, nat>, recordings: Option<nat>)

  datatype Route = Route(path: string, handler: Handler)

  datatype App = App(
    storage: seq<Mock>,
    sequences: map<string, map<Key, nat>>,
    recordings: map<string, nat>,
    routes: seq<Route>,
    cursors: seq<Cursor>,
    stores: seq<StoreState>)

  const EMPTY := App([], map[], map[], [], [], [])

  // ---------------------------------------------------------------- storage

  function MockAt(storage: seq<Mock>, path: string): Option<Mock> {
    if storage == [] then None
    else if storage[0].path == path then Some(storage[0])
    else MockAt(storage[1..], path)
  }

  /** Assignment to the insertion-ordered dictionary: an existing path keeps its place. */
  function SetMock(storage: seq<Mock>, m: Mock): seq<Mock> {
    if storage == [] then [m]
    else if storage[0].path == m.path then [m] + storage[1..]
    else [storage[0]] + SetMock(storage[1..], m)
  }

  function RemoveMock(storage: seq<Mock>, path: string): seq<Mock> {
    if storage == [] then []
    else if storage[0].path == path then RemoveMock(storage[1..], path)
    else [storage[0]] + RemoveMock(storage[1..], path)
  }

  predicate DistinctPaths(storage: seq<Mock>) {
    storage != [] ==> MockAt(storage[1..], storage[0].path).None? && DistinctPaths(storage[1..])
  }

  function PathsOf(storage: seq<Mock>): set<string> {
    set m | m in storage :: m.path
  }

  lemma {:induction false} MockAtIff(storage: seq<Mock>, path: string)
    ensures MockAt(storage, path).Some? <==> path in PathsOf(storage)
    ensures MockAt(storage, path).Some? ==> MockAt(storage, path).value in storage && MockAt(storage, path).value.path == path
  {
    if storage != [] {
      assert storage == [storage[0]] + storage[1..];
      MockAtIff(storage[1..], path);
    }
  }

  lemma {:induction false} MockAtOfMember(storage: seq<Mock>, m: Mock)
    requires DistinctPaths(storage) && m in storage
    ensures MockAt(storage, m.path) == Some(m)
  {
    if storage[0] != m {
      assert m in storage[1..];
      MockAtOfMember(storage[1..], m);
      MockAtIff(storage[1..], m.path);
    }
  }

  lemma {:induction false} SetMockShape(storage: seq<Mock>, m: Mock)
    ensures forall q :: MockAt(SetMock(storage, m), q) == if q == m.path then Some(m) else MockAt(storage, q)
    ensures DistinctPaths(storage) ==> DistinctPaths(SetMock(storage, m))
    ensures forall x :: x in SetMock(storage, m) ==> x == m || x in storage
  {
    if storage != [] {
      SetMockShape(storage[1..], m);
      assert ([m] + storage[1..])[1..] == storage[1..];
      assert ([storage[0]] + SetMock(storage[1..], m))[1..] == SetMock(storage[1..], m);
    }
  }

  lemma {:induction false} RemoveMockShape(storage: seq<Mock>, path: string)
    ensures forall q :: MockAt(RemoveMock(storage, path), q) == if q == path then None else MockAt(storage, q)
    ensures DistinctPaths(storage) ==> DistinctPaths(RemoveMock(storage, path))
    ensures forall x :: x in RemoveMock(storage, path) ==> x in storage
  {
    if storage != [] {
      RemoveMockShape(storage[1..], path);
      assert ([storage[0]] + RemoveMock(storage[1..], path))[1..] == RemoveMock(storage[1..], path);
    }
  }

  lemma StoredPaths(storage: seq<Mock>, m: Mock, path: string)
    ensures PathsOf(SetMock(storage, m)) == PathsOf(storage) + {m.path}
    ensures PathsOf(RemoveMock(storage, path)) == PathsOf(storage) - {path}
  {
    SetMockShape(storage, m);
    RemoveMockShape(storage, path);
    forall q
      ensures q in PathsOf(SetMock(storage, m)) <==> q in PathsOf(storage) + {m.path}
      ensures q in PathsOf(RemoveMock(storage, path)) <==> q in PathsOf(storage) - {path}
    {
      MockAtIff(storage, q);
      MockAtIff(SetMock(storage, m), q);
      MockAtIff(RemoveMock(storage, path), q);
    }
  }

  // ---------------------------------------------------------------- routes

  function DropRoutes(routes: seq<Route>, candidates: set<string>): seq<Route> {
    if routes == [] then []
    else if routes[0].path in candidates then DropRoutes(routes[1..], candidates)
    else [routes[0]] + DropRoutes(routes[1..], candidates)
  }

  predicate HasRoute(routes: seq<Route>, path: string) {
    routes != [] && (routes[0].path == path || HasRoute(routes[1..], path))
  }

  predicate DistinctRoutes(routes: seq<Route>) {
    routes != [] ==> !HasRoute(routes[1..], routes[0].path) && DistinctRoutes(routes[1..])
  }

  lemma {:induction false} HasRouteIff(routes: seq<Route>, path: string)
    ensures HasRoute(routes, path) <==> exists r :: r in routes && r.path == path
  {
    if routes != [] {
      HasRouteIff(routes[1..], path);
      assert forall r :: r in routes <==> r == routes[0] || r in routes[1..];
    }
  }

  lemma {:induction false} DropRoutesShape(routes: seq<Route>, candidates: set<string>)
    ensures forall r :: r in DropRoutes(routes, candidates) <==> r in routes && r.path !in candidates
    ensures forall p :: HasRoute(DropRoutes(routes, candidates), p) <==> HasRoute(routes, p) && p !in candidates
    ensures DistinctRoutes(routes) ==> DistinctRoutes(DropRoutes(routes, candidates))
  {
    if routes != [] {
      DropRoutesShape(routes[1..], candidates);
      assert routes == [routes[0]] + routes[1..];
      assert ([routes[0]] + DropRoutes(routes[1..], candidates))[1..] == DropRoutes(routes[1..], candidates);
    }
  }

  lemma {:induction false} AppendRoute(routes: seq<Route>, r: Route)
    requires !HasRoute(routes, r.path)
    ensures DistinctRoutes(routes) ==> DistinctRoutes(routes + [r])
    ensures forall p :: HasRoute(routes + [r], p) <==> HasRoute(routes, p) || p == r.path
  {
    if routes != [] {
      AppendRoute(routes[1..], r);
      assert (routes + [r])[1..] == routes[1..] + [r];
    }
  }

  // ---------------------------------------------------------------- operations

  /** `remove_runtime_routes`: forget the cursors, retire the store, drop the routes. */
  function RemoveRuntime(a: App, path: RootedPath): App {
    var p := Renormalize(path);
    a.(
      sequences := a.sequences - {p},
      recordings := a.recordings - {p},
      stores := if p in a.recordings && a.recordings[p] < |a.stores|
                then a.stores[a.recordings[p] := Retired(a.stores[a.recordings[p]])]
                else a.stores,
      routes := DropRoutes(a.routes, Candidates(path)))
  }

  function StoreAt(a: App, path: string): Option<StoreState> {
    if path in a.recordings && a.recordings[path] < |a.stores| then Some(a.stores[a.recordings[path]]) else None
  }

  function RoutesOfMock(path: string, handler: Handler): seq<Route> {
    if path == "/" then [Route(path, handler)] else [Route(path, handler), Route(path + "/", handler)]
  }

  /** The second half of `mock_initialization`: a new generation of runtime state at a path. */
  function Install(
    env: Env, a: App, path: string, m: Mock, previous: map<Key, nat>, preserve: set<Key>,
    prior: Option<StoreState>, imported: Option<seq<Entry>>): App
  {
    var built := BuildAll(m, previous, preserve, a.cursors);
    var store := if m.recording.Some? then Some(|a.stores|) else None;
    a.(
      stores := if m.recording.Some? then a.stores + [NewStore(env.codec, m.recording.value, prior, imported)] else a.stores,
      recordings := if m.recording.Some? then a.recordings[path := |a.stores|] else a.recordings,
      cursors := built.cursors,
      sequences := a.sequences[path := built.states],
      routes := a.routes + RoutesOfMock(path, Handler(m, built.states, store)))
  }

  /** Where `mock_initialization` files the runtime state of a configuration that comes with this path. */
  function Lands(path: RootedPath): RootedPath {
    Renormalize(Renormalize(path))
  }

  /**
   * `mock_initialization`: validate the path, store the configuration, retire what the path had
   * and install the new generation. `None` is the ValueError of a path that may not be mocked.
   * The path is normalized anew for the check, for storage (twice) and for the runtime state. A
   * handler never reads the path in its configuration, which is taken to be that of its route.
   */
  function MockInit(
    env: Env, a: App, m: Mock, preserve: set<Key>, keepRecordings: bool, imported: Option<seq<Entry>>): Option<App>
  {
    var valid := ValidatePath(env.prefix, env.compiles, m.path);
    if valid.None? then None
    else
      var mock := m.(path := valid.value);
      var path := Renormalize(mock.path);
      var stored := a.(storage := SetMock(a.storage, mock.(path := Renormalize(path))));
      var previous := if path in a.sequences then a.sequences[path] else map[];
      var prior := if keepRecordings then StoreAt(a, path) else None;
      Some(Install(env, RemoveRuntime(stored, path), path, mock.(path := path), previous, preserve, prior, imported))
  }

  /** `cleanup_storage`. */
  function RemoveAll(a: App, mocks: seq<Mock>): App
    decreases |mocks|
  {
    if mocks == [] then a else RemoveAll(RemoveRuntime(a, mocks[0].path), mocks[1..])
  }

  function Cleanup(a: App): App {
    RemoveAll(a, a.storage).(storage := [])
  }

  // ---------------------------------------------------------------- agreement

  /** The path whose mock owns a route. */
  function Owner(route: string): string {
    if |route| > 1 && route[|route| - 1] == '/' then route[..|route| - 1] else route
  }

  /** The cursors of a mock: one for each sequence it has, with that sequence. */
  predicate CursorsAgree(a: App, m: Mock, ids: map<Key, nat>) {
    && (forall k :: k in ids ==> ids[k] < |a.cursors| && Some(a.cursors[ids[k]].sequence) == SequenceOf(m, k))
    && (m.sequence.Some? ==> Default in ids)
    && forall i :: 0 <= i < |RulesOf(m)| && RulesOf(m)[i].sequence.Some? ==> OfRule(i) in ids
  }

  /** Whatever the mock at a path owns agrees with its stored configuration. */
  predicate Agrees(a: App, p: string) {
    var m := MockAt(a.storage, p);
    && m.Some? && m.value.path == p && Settled(p) && ValidMock(m.value)
    && p in a.sequences && CursorsAgree(a, m.value, a.sequences[p])
    && (p in a.recordings <==> m.value.recording.Some?)
    && (p in a.recordings ==>
          && a.recordings[p] < |a.stores|
          && a.stores[a.recordings[p]].active && a.stores[a.recordings[p]].config == m.value.recording.value)
  }

  /** The handler a path must have. */
  function HandlerAt(a: App, p: string): Option<Handler> {
    var m := MockAt(a.storage, p);
    if m.Some? && p in a.sequences
    then Some(Handler(m.value, a.sequences[p], if p in a.recordings then Some(a.recordings[p]) else None))
    else None
  }

  predicate RouteAgrees(a: App, live: set<string>, r: Route) {
    var p := Owner(r.path);
    p in live && Rooted(p) && r.path in Candidates(p) && HandlerAt(a, p) == Some(r.handler)
  }

  predicate RoutesAgree(a: App, live: set<string>) {
    && DistinctRoutes(a.routes)
    && (forall r :: r in a.routes ==> RouteAgrees(a, live, r))
    && (forall p :: p in live && Rooted(p) ==> forall c :: c in Candidates(p) ==> HasRoute(a.routes, c))
  }

  predicate OneStoreEach(recordings: map<string, nat>) {
    forall p, q :: p in recordings && q in recordings && recordings[p] == recordings[q] ==> p == q
  }

  predicate OneCursorEach(sequences: map<string, map<Key, nat>>) {
    forall p, q, k, l ::
      (p in sequences && q in sequences && k in sequences[p] && l in sequences[q] && sequences[p][k] == sequences[q][l])
      ==> p == q && k == l
  }

  /** Nothing is shared between mocks or between the keys of one mock. */
  predicate Unshared(a: App) {
    OneStoreEach(a.recordings) && OneCursorEach(a.sequences)
  }

  /** The four structures agree on a set of paths, and only their stores are active. */
  predicate Consistent(a: App, live: set<string>) {
    && a.sequences.Keys == live && a.recordings.Keys <= live
    && (forall p :: p in live ==> Agrees(a, p))
    && RoutesAgree(a, live)
    && Unshared(a)
    && OnlyOwnedActive(a)
  }

  /** A store that no mock owns has been retired. */
  predicate OnlyOwnedActive(a: App) {
    forall i :: 0 <= i < |a.stores| && a.stores[i].active ==> exists p :: p in a.recordings && a.recordings[p] == i
  }

  /** A stored exchange is filed under the id of its request and charged for its own size. */
  predicate SlotOk(codec: Codec, config: Config, x: Slot) {
    && x.size == codec.size(x.entry)
    && x.entry.id == codec.hash(x.entry.request)
    && x.entry.request.headers.Keys == (set name | name in config.matchHeaders)
    && ValidBody(x.entry.response.bodyB64)
  }

  predicate StoreWell(codec: Codec, s: StoreState) {
    StoreOk(s) && s.config.maxItems > 0 && forall x :: x in s.slots ==> SlotOk(codec, s.config, x)
  }

  predicate HeapOk(codec: Codec, a: App) {
    && (forall i :: 0 <= i < |a.stores| ==> StoreWell(codec, a.stores[i]))
    && (forall i :: 0 <= i < |a.cursors| ==> a.cursors[i].Ok())
  }

  /** A path that may be mocked as it is. */
  predicate Admissible(env: Env, path: string) {
    ValidatePath(env.prefix, env.compiles, path) == Some(path)
  }

  /** The invariant of the application between administrative operations. */
  predicate AppOk(env: Env, a: App) {
    && DistinctPaths(a.storage)
    && (forall m :: m in a.storage ==> Admissible(env, m.path))
    && Consistent(a, PathsOf(a.storage)) && HeapOk(env.codec, a)
  }
}
