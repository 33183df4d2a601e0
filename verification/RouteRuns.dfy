/**
 * Routes over whole runs. Storage keeps mocks in the order in which they were created, the route list
 * in the order in which they were last updated; a snapshot keeps only the former. So what a round
 * trip does to precedence is a matter of which updates the run has made.
 */
module RouteRuns {
  import opened Wrappers
  import opened Json
  import opened Paths
  import opened Mocks
  import opened Sequences
  import opened Recordings
  import opened Lifecycle
  import opened LifecycleProofs
  import opened Admin
  import opened AdminEffects
  import opened Snapshot
  import opened SnapshotProofs
  import opened RoundTrip
  import opened RouteOrder
  import opened RoutePrecedence
  import opened UpdateOrders
  import opened Machine
  import opened LateWrites
  import opened CursorRuns
  import opened Reachable

  function InstallsOf(parsed: seq<Parsed>): seq<Event> {
    if parsed == [] then [] else [Installs(parsed[0].mock.path)] + InstallsOf(parsed[1..])
  }

  function PutEvents(env: Env, raw: string, body: Object): seq<Event> {
    if PutSucceeds(env, raw, body) then [Installs(Landing(raw))] else []
  }

  function PatchEvents(env: Env, a: App, raw: string, changes: Object): seq<Event> {
    if Normalize(raw).Some? && PatchMock(env, a, raw, changes).1.Success? then [Installs(Addressed(raw))] else []
  }

  function DeleteEvents(a: App, raw: string): seq<Event> {
    if Normalize(raw).Some? && DeleteMock(a, raw).1.Success? then [Removes(Addressed(raw))] else []
  }

  function ImportEvents(env: Env, doc: Document, replace: bool): seq<Event> {
    if Validated(env, doc).None? then []
    else if replace then [Clears] + InstallsOf(Installed(env, doc))
    else InstallsOf(Installed(env, doc))
  }

  /** The events of one step. */
  function EventsOf(env: Env, a: App, l: Label): seq<Event> {
    match l
    case Put(raw, body) => PutEvents(env, raw, body)
    case Patch(raw, changes) => PatchEvents(env, a, raw, changes)
    case Delete(raw) => DeleteEvents(a, raw)
    case Clear => [Clears]
    case ImportSnapshot(doc, replace) => ImportEvents(env, doc, replace)
    case _ => []
  }

  /** The events of a run. */
  function History(env: Env, labels: seq<Label>): seq<Event> {
    if labels == [] then []
    else
      var n := |labels| - 1;
      History(env, labels[..n]) + EventsOf(env, Run(env, INITIAL, labels[..n]).app, labels[n])
  }

  // ---------------------------------------------------------------- what a server keeps

  function RouteList(order: seq<string>): seq<string> {
    if order == [] then [] else PathsOfMock(order[0]) + RouteList(order[1..])
  }

  function PathList(storage: seq<Mock>): seq<string> {
    seq(|storage|, i requires 0 <= i < |storage| => storage[i].path)
  }

  /** The route list is in one order and storage in the other. */
  predicate Ordered(a: App, recent: seq<string>, created: seq<string>) {
    && RoutePaths(a.routes) == RouteList(recent) && PathList(a.storage) == created
    && forall p :: p in recent ==> Settled(p)
  }

  lemma {:induction false} StorageIsCreation(storage: seq<Mock>)
    ensures StorageOrder(storage) == RouteList(PathList(storage))
  {
    if storage != [] {
      assert PathList(storage)[1..] == PathList(storage[1..]);
      StorageIsCreation(storage[1..]);
    }
  }

  lemma {:induction false} SetKeepsCreation(storage: seq<Mock>, m: Mock)
    ensures PathList(SetMock(storage, m)) == Enlisted(PathList(storage), Installs(m.path))
  {
    if storage != [] {
      var paths := PathList(storage);
      assert paths == [storage[0].path] + PathList(storage[1..]);
      if storage[0].path != m.path {
        SetKeepsCreation(storage[1..], m);
        assert PathList(SetMock(storage, m)) == [storage[0].path] + PathList(SetMock(storage[1..], m));
      } else {
        assert PathList([m] + storage[1..]) == paths;
      }
    } else {
      assert PathList(storage) == [];
    }
  }

  lemma {:induction false} RemoveFromCreation(storage: seq<Mock>, p: string)
    ensures PathList(RemoveMock(storage, p)) == Without(PathList(storage), p)
  {
    if storage != [] {
      assert PathList(storage)[1..] == PathList(storage[1..]);
      RemoveFromCreation(storage[1..], p);
      if storage[0].path != p {
        assert PathList(RemoveMock(storage, p)) == [storage[0].path] + PathList(RemoveMock(storage[1..], p));
      }
    }
  }

  // ---------------------------------------------------------------- routes of one mock

  function DropPaths(paths: seq<string>, candidates: set<string>): seq<string> {
    if paths == [] then []
    else if paths[0] in candidates then DropPaths(paths[1..], candidates)
    else [paths[0]] + DropPaths(paths[1..], candidates)
  }

  lemma {:induction false} DropsPaths(routes: seq<Route>, candidates: set<string>)
    ensures RoutePaths(DropRoutes(routes, candidates)) == DropPaths(RoutePaths(routes), candidates)
  {
    if routes != [] {
      DropsPaths(routes[1..], candidates);
      assert RoutePaths(routes)[1..] == RoutePaths(routes[1..]);
      if routes[0].path !in candidates {
        assert RoutePaths([routes[0]] + DropRoutes(routes[1..], candidates))
            == [routes[0].path] + RoutePaths(DropRoutes(routes[1..], candidates));
      }
    }
  }

  lemma {:induction false} DropConcat(xs: seq<string>, ys: seq<string>, candidates: set<string>)
    ensures DropPaths(xs + ys, candidates) == DropPaths(xs, candidates) + DropPaths(ys, candidates)
  {
    if xs == [] {
      assert xs + ys == ys;
    } else {
      assert (xs + ys)[1..] == xs[1..] + ys;
      DropConcat(xs[1..], ys, candidates);
    }
  }

  lemma DropTwo(x: string, y: string, candidates: set<string>)
    ensures DropPaths([x], candidates) == if x in candidates then [] else [x]
    ensures DropPaths([x, y], candidates)
            == (if x in candidates then [] else [x]) + (if y in candidates then [] else [y])
  {
    assert [x, y][1..] == [y] && [y][1..] == [] && [x][1..] == [];
  }

  /** The routes of a mock all go, or none of them does. */
  lemma DropsOwn(p: string, q: string)
    requires Settled(p) && Settled(q)
    ensures DropPaths(PathsOfMock(q), Candidates(p)) == if p == q then [] else PathsOfMock(q)
  {
    SettledFacts(p);
    SettledFacts(q);
    if p != q {
      CandidatesDisjoint(p, q);
      assert q in Candidates(q) && (q != "/" ==> q + "/" in Candidates(q));
    }
    DropTwo(q, q + "/", Candidates(p));
  }

  lemma {:induction false} DropsFromList(order: seq<string>, p: string)
    requires Settled(p) && forall q :: q in order ==> Settled(q)
    ensures DropPaths(RouteList(order), Candidates(p)) == RouteList(Without(order, p))
  {
    if order != [] {
      assert order[0] in order && forall q :: q in order[1..] ==> q in order;
      DropsFromList(order[1..], p);
      DropConcat(PathsOfMock(order[0]), RouteList(order[1..]), Candidates(p));
      DropsOwn(p, order[0]);
    }
  }

  lemma {:induction false} ListAppend(order: seq<string>, p: string)
    ensures RouteList(order + [p]) == RouteList(order) + PathsOfMock(p)
  {
    if order == [] {
      assert order + [p] == [p] && [p][1..] == [];
    } else {
      assert (order + [p])[1..] == order[1..] + [p];
      ListAppend(order[1..], p);
    }
  }

  // ---------------------------------------------------------------- one step

  /** A new generation is an installation, in both orders. */
  lemma GenerationOrders(
    env: Env, a: App, m: Mock, preserve: set<Key>, keepRecordings: bool, imported: Option<seq<Entry>>,
    recent: seq<string>, created: seq<string>)
    requires Settled(m.path) && Ordered(a, recent, created)
    ensures Ordered(
      Generation(env, a, m, preserve, keepRecordings, imported), Requeued(recent, Installs(m.path)),
      Enlisted(created, Installs(m.path)))
  {
    var b := Generation(env, a, m, preserve, keepRecordings, imported);
    var h := GenerationRoutes(env, a, m, preserve, keepRecordings, imported);
    FiledIsSame(m);
    SetKeepsCreation(a.storage, m);
    DropsPaths(a.routes, Candidates(m.path));
    DropsFromList(recent, m.path);
    PathsOfRoutes(DropRoutes(a.routes, Candidates(m.path)), b.routes, m.path, h);
    ListAppend(Without(recent, m.path), m.path);
    WithoutShape(recent, m.path);
  }

  lemma {:induction false} InstallAllOrders(
    env: Env, a: App, parsed: seq<Parsed>, recent: seq<string>, created: seq<string>)
    requires AllReady(env, parsed) && Ordered(a, recent, created)
    ensures Ordered(
      InstallAll(env, a, parsed), UpdateOrder(recent, InstallsOf(parsed)), CreationOrder(created, InstallsOf(parsed)))
    decreases |parsed|
  {
    if parsed != [] {
      ReadyParts(env, parsed);
      var p := parsed[0];
      GenerationOrders(env, a, p.mock, {}, false, p.entries, recent, created);
      assert InstallsOf(parsed)[1..] == InstallsOf(parsed[1..]);
      InstallAllOrders(
        env, Next(env, a, p), parsed[1..], Requeued(recent, Installs(p.mock.path)), Enlisted(created, Installs(p.mock.path)));
    }
  }

  lemma ClearOrders(env: Env, a: App)
    requires AppOk(env, a)
    ensures Ordered(Cleanup(a), [], [])
  {
    CleanupOk(env, a);
    assert RoutePaths([]) == [] && PathList([]) == [];
  }

  /** Orders that follow from two others by some events. */
  predicate Follows(b: App, recent: seq<string>, created: seq<string>, events: seq<Event>) {
    Ordered(b, UpdateOrder(recent, events), CreationOrder(created, events))
  }

  lemma NothingFollows(a: App, recent: seq<string>, created: seq<string>)
    requires Ordered(a, recent, created)
    ensures Follows(a, recent, created, [])
  {
  }

  lemma ReplaceOrders(env: Env, a: App, parsed: seq<Parsed>, recent: seq<string>, created: seq<string>)
    requires AllReady(env, parsed) && AppOk(env, a)
    ensures Follows(InstallAll(env, Cleanup(a), parsed), recent, created, [Clears] + InstallsOf(parsed))
  {
    ClearOrders(env, a);
    InstallAllOrders(env, Cleanup(a), parsed, [], []);
    OrdersConcat(recent, created, [Clears], InstallsOf(parsed));
    OrdersOfOne(recent, created, Clears);
  }

  lemma ImportOrders(env: Env, a: App, doc: Document, replace: bool, recent: seq<string>, created: seq<string>)
    requires AppOk(env, a) && SoundSchema(env.schema) && GoodDocument(env, doc) && Ordered(a, recent, created)
    ensures Follows(Import(env, a, doc, replace).0, recent, created, ImportEvents(env, doc, replace))
  {
    ImportInstalls(env, a, doc, replace);
    InstalledWell(env, doc);
    var parsed := Installed(env, doc);
    if Validated(env, doc).None? {
      NothingFollows(a, recent, created);
    } else if replace {
      ReplaceOrders(env, a, parsed, recent, created);
    } else {
      InstallAllOrders(env, a, parsed, recent, created);
    }
  }

  /** The same of a step that makes one generation. */
  lemma InstalledOrders(
    env: Env, a: App, m: Mock, preserve: set<Key>, keepRecordings: bool, recent: seq<string>, created: seq<string>)
    requires Settled(m.path) && Ordered(a, recent, created)
    ensures Follows(Generation(env, a, m, preserve, keepRecordings, None), recent, created, [Installs(m.path)])
  {
    OrdersOfOne(recent, created, Installs(m.path));
    GenerationOrders(env, a, m, preserve, keepRecordings, None, recent, created);
  }

  lemma PutOrders(env: Env, a: App, raw: string, body: Object, recent: seq<string>, created: seq<string>)
    requires SoundSchema(env.schema) && GoodPut(env, raw, body) && Ordered(a, recent, created)
    ensures Follows(PutMock(env, a, raw, body).0, recent, created, PutEvents(env, raw, body))
  {
    PutEffect(env, a, raw, body);
    if PutSucceeds(env, raw, body) {
      InstalledOrders(env, a, Submitted(env, raw, body), {}, false, recent, created);
    }
  }

  lemma PatchOrders(env: Env, a: App, raw: string, changes: Object, recent: seq<string>, created: seq<string>)
    requires AppOk(env, a) && SoundSchema(env.schema) && Ordered(a, recent, created)
    ensures Follows(PatchMock(env, a, raw, changes).0, recent, created, PatchEvents(env, a, raw, changes))
  {
    PatchEffect(env, a, raw, changes);
    if PatchMock(env, a, raw, changes).1.Success? {
      var saved, m := MockAt(a.storage, Addressed(raw)).value, Patched(env, a, raw, changes);
      InstalledOrders(env, a, m, PreservedKeys(changes, m), KeepsRecordings(saved, m), recent, created);
    } else {
      NothingFollows(a, recent, created);
    }
  }

  lemma DeleteOrders(env: Env, a: App, raw: string, recent: seq<string>, created: seq<string>)
    requires AppOk(env, a) && Ordered(a, recent, created)
    ensures Follows(DeleteMock(a, raw).0, recent, created, DeleteEvents(a, raw))
  {
    if DeleteMock(a, raw).1.Success? {
      DeleteEffect(env, a, raw);
      RemovedOrders(a, Addressed(raw), recent, created);
    } else {
      NothingFollows(a, recent, created);
    }
  }

  lemma RemovedOrders(a: App, p: RootedPath, recent: seq<string>, created: seq<string>)
    requires Settled(p) && Ordered(a, recent, created)
    ensures Follows(RemoveRuntime(a, p).(storage := RemoveMock(a.storage, p)), recent, created, [Removes(p)])
  {
    OrdersOfOne(recent, created, Removes(p));
    RemoveFromCreation(a.storage, p);
    DropsPaths(a.routes, Candidates(p));
    DropsFromList(recent, p);
    WithoutShape(recent, p);
  }

  lemma ClearFollows(env: Env, a: App, recent: seq<string>, created: seq<string>)
    requires AppOk(env, a)
    ensures Follows(Cleanup(a), recent, created, [Clears])
  {
    ClearOrders(env, a);
    OrdersOfOne(recent, created, Clears);
  }

  lemma AdminOrders(
    env: Env, a: App, l: Label, b: App, events: seq<Event>, recent: seq<string>, created: seq<string>)
    requires IsAdmin(l) && b == AdminStep(env, a, l) && events == EventsOf(env, a, l)
    requires AppOk(env, a) && SoundSchema(env.schema) && GoodLabel(env, l) && Ordered(a, recent, created)
    ensures Follows(b, recent, created, events)
  {
    match l
    case Put(raw, body) => PutOrders(env, a, raw, body, recent, created);
    case Patch(raw, changes) => PatchOrders(env, a, raw, changes, recent, created);
    case Delete(raw) => DeleteOrders(env, a, raw, recent, created);
    case Clear => ClearFollows(env, a, recent, created);
    case ImportSnapshot(doc, replace) => ImportOrders(env, a, doc, replace, recent, created);
    case DeleteRecording(_, _) =>
    case ResetCursor(_, _) =>
  }

  lemma StepOrders(env: Env, s: System, l: Label, events: seq<Event>, recent: seq<string>, created: seq<string>)
    requires AppOk(env, s.app) && SoundSchema(env.schema) && GoodLabel(env, l) && Ordered(s.app, recent, created)
    requires events == EventsOf(env, s.app, l)
    ensures Follows(Step(env, s, l).app, recent, created, events)
  {
    if IsAdmin(l) {
      AdminOnly(env, s, l);
      AdminOrders(env, s.app, l, AdminStep(env, s.app, l), events, recent, created);
    } else {
      RoutesStay(env, s, l);
      NothingFollows(s.app, recent, created);
    }
  }

  lemma RoutesStay(env: Env, s: System, l: Label)
    requires !IsAdmin(l)
    ensures Step(env, s, l).app.routes == s.app.routes && Step(env, s, l).app.storage == s.app.storage
  {
    if l.Resume? && l.id in s.requests {
      StepReserves(env, s.app, s.requests[l.id], l.input);
    }
  }

  // ---------------------------------------------------------------- whole runs

  /**
   * In every run, the routes are those of the live mocks in the order of their last updates, and
   * storage holds them in the order of their creation.
   */
  lemma {:induction false} RunOrders(env: Env, labels: seq<Label>)
    requires SoundSchema(env.schema) && forall l :: l in labels ==> GoodLabel(env, l)
    ensures var a := Run(env, INITIAL, labels).app;
            Ordered(a, UpdateOrder([], History(env, labels)), CreationOrder([], History(env, labels)))
  {
    if labels != [] {
      var n := |labels| - 1;
      var before := labels[..n];
      assert labels[n] in labels && forall l :: l in before ==> l in labels;
      RunOrders(env, before);
      InitialOk(env);
      RunOk(env, INITIAL, before);
      var s, h := Run(env, INITIAL, before), History(env, before);
      StepOrders(env, s, labels[n], EventsOf(env, s.app, labels[n]), UpdateOrder([], h), CreationOrder([], h));
      OrdersConcat([], [], h, EventsOf(env, s.app, labels[n]));
    }
  }

  // ---------------------------------------------------------------- precedence

  /** Routes of different mocks stand as the mocks do. */
  lemma {:induction false} ListBefore(order: seq<string>, p: string, q: string, c: string, d: string)
    requires forall x :: x in order ==> Settled(x)
    requires Settled(p) && Settled(q) && p != q && c in Candidates(p) && d in Candidates(q)
    ensures c in RouteList(order) <==> p in order
    ensures Before(RouteList(order), c, d) <==> Before(order, p, q)
  {
    if order != [] {
      assert order[0] in order && forall x :: x in order[1..] ==> x in order;
      assert order == [order[0]] + order[1..];
      ListBefore(order[1..], p, q, c, d);
      ListBefore(order[1..], q, p, d, c);
      BeforeCons(order[0], order[1..], p, q);
      OwnPaths(order[0], p, c);
      OwnPaths(order[0], q, d);
      BeforeOwn(order[0], RouteList(order[1..]), c, d);
      OnlyOne(order[0], p, q);
    }
  }

  lemma OwnPaths(p: string, q: string, d: string)
    requires Settled(p) && Settled(q) && d in Candidates(q)
    ensures d in PathsOfMock(p) <==> p == q
  {
    SettledFacts(p);
    SettledFacts(q);
    if p != q {
      CandidatesDisjoint(p, q);
      assert p in Candidates(p) && (p != "/" ==> p + "/" in Candidates(p));
    }
  }

  lemma OnlyOne(r: string, p: string, q: string)
    requires p != q
    ensures !(r == p && r == q)
  {
  }

  lemma BeforeOwn(r: string, rest: seq<string>, c: string, d: string)
    requires !(c in PathsOfMock(r) && d in PathsOfMock(r))
    ensures Before(PathsOfMock(r) + rest, c, d) <==> Before(rest, c, d) || (c in PathsOfMock(r) && d in rest)
  {
    var slash := r + "/";
    if r == "/" {
      BeforeCons(r, rest, c, d);
    } else {
      assert PathsOfMock(r) + rest == [r] + ([slash] + rest);
      BeforeCons(r, [slash] + rest, c, d);
      BeforeCons(slash, rest, c, d);
    }
  }

  /**
   * In every run, a route of one mock stands before a route of another exactly if the last update of
   * the one precedes that of the other; storage order, to which a round trip returns, has them so
   * exactly if the creation of the one precedes that of the other.
   */
  lemma RouteOrderIff(env: Env, labels: seq<Label>, p: string, q: string, c: string, d: string)
    requires SoundSchema(env.schema) && forall l :: l in labels ==> GoodLabel(env, l)
    requires Settled(p) && Settled(q) && p != q && c in Candidates(p) && d in Candidates(q)
    ensures var a, events := Run(env, INITIAL, labels).app, History(env, labels);
            && (Before(RoutePaths(a.routes), c, d) <==> UpdatedBefore(events, p, q))
            && (Before(StorageOrder(a.storage), c, d) <==> CreatedBefore(events, p, q))
  {
    var a, events := Run(env, INITIAL, labels).app, History(env, labels);
    RunOrders(env, labels);
    var recent, created := UpdateOrder([], events), CreationOrder([], events);
    StorageIsCreation(a.storage);
    UpdateOrderIff(events, p, q);
    CreationOrderIff(events, p, q);
    forall x | x in created
      ensures Settled(x)
    {
      OrdersAreLive(events, x);
    }
    ListBefore(recent, p, q, c, d);
    ListBefore(created, p, q, c, d);
  }

  /** Two routes of different mocks that cover a URL, updated in one order and created in the other, in the open. */
  ghost predicate Overtaken(covers: Covers, a: App, events: seq<Event>, x: string, y: string, url: string) {
    && x in RoutePaths(a.routes) && y in RoutePaths(a.routes) && covers(x, url) && covers(y, url)
    && UpdatedBefore(events, Owner(x), Owner(y)) && CreatedBefore(events, Owner(y), Owner(x))
    && !Shadowed(covers, RoutePaths(a.routes), StorageOrder(a.storage), x, y, url)
  }

  ghost predicate NoneOvertaken(covers: Covers, a: App, events: seq<Event>) {
    forall x, y, url :: !Overtaken(covers, a, events, x, y, url)
  }

  lemma {:induction false} MainFirst(order: seq<string>, p: string)
    requires p in order && p != "/"
    ensures Before(RouteList(order), p, p + "/")
  {
    assert order == [order[0]] + order[1..];
    if order[0] == p {
      assert RouteList(order)[0] == p && RouteList(order)[1] == p + "/";
    } else {
      MainFirst(order[1..], p);
      var rest, own := RouteList(order[1..]), PathsOfMock(order[0]);
      var i, j :| 0 <= i < j < |rest| && rest[i] == p && rest[j] == p + "/";
      assert (own + rest)[|own| + i] == p && (own + rest)[|own| + j] == p + "/";
    }
  }

  lemma OneWay(paths: seq<string>, x: string, y: string)
    requires Distinct(paths) && Before(paths, x, y)
    ensures !Before(paths, y, x) && x != y
  {
  }

  /** A list of routes by mocks has the routes of one mock in one order. */
  lemma SameMock(xs: seq<string>, ys: seq<string>, p: string, x: string, y: string)
    requires Settled(p) && p in xs && p in ys && x in Candidates(p) && y in Candidates(p)
    requires Distinct(RouteList(xs)) && Distinct(RouteList(ys))
    ensures !(Before(RouteList(xs), x, y) && Before(RouteList(ys), y, x))
  {
    SettledFacts(p);
    if Before(RouteList(xs), x, y) && Before(RouteList(ys), y, x) {
      OneWay(RouteList(xs), x, y);
      MainFirst(xs, p);
      MainFirst(ys, p);
      OneWay(RouteList(xs), p, p + "/");
      OneWay(RouteList(ys), p, p + "/");
    }
  }

  lemma RouteOwner(env: Env, a: App, x: string)
    requires AppOk(env, a) && x in RoutePaths(a.routes)
    ensures Settled(Owner(x)) && x in Candidates(Owner(x)) && Owner(x) in PathsOf(a.storage)
  {
    RouteElements(env, a, x);
    var p: RootedPath :| p in PathsOf(a.storage) && x in Candidates(p);
    StoredIsThere(env, a, p);
    SettledFacts(p);
  }

  lemma InvertedIsOvertaken(
    env: Env, labels: seq<Label>, a: App, covers: Covers, x: string, y: string, url: string)
    requires SoundSchema(env.schema) && forall l :: l in labels ==> GoodLabel(env, l)
    requires a == Run(env, INITIAL, labels).app && AppOk(env, a) && Distinct(StorageOrder(a.storage))
    ensures Inverted(covers, RoutePaths(a.routes), StorageOrder(a.storage), x, y, url)
            <==> Overtaken(covers, a, History(env, labels), x, y, url)
  {
    var events := History(env, labels);
    if x in RoutePaths(a.routes) && y in RoutePaths(a.routes) {
      RouteOwner(env, a, x);
      RouteOwner(env, a, y);
      if Owner(x) == Owner(y) {
        SameOwner(env, labels, a, x, y);
        NotBeforeItself(events, Owner(x));
      } else {
        RouteOrderIff(env, labels, Owner(x), Owner(y), x, y);
        RouteOrderIff(env, labels, Owner(y), Owner(x), y, x);
      }
    }
  }

  lemma StoredIsLive(storage: seq<Mock>, events: seq<Event>, p: string)
    requires PathList(storage) == CreationOrder([], events) && p in PathsOf(storage)
    ensures p in CreationOrder([], events) && p in UpdateOrder([], events)
  {
    var i :| 0 <= i < |storage| && storage[i].path == p;
    assert PathList(storage)[i] == p;
    OrdersAreLive(events, p);
  }

  lemma SameOwner(env: Env, labels: seq<Label>, a: App, x: string, y: string)
    requires SoundSchema(env.schema) && forall l :: l in labels ==> GoodLabel(env, l)
    requires a == Run(env, INITIAL, labels).app && AppOk(env, a) && Distinct(StorageOrder(a.storage))
    requires x in RoutePaths(a.routes) && y in RoutePaths(a.routes) && Owner(x) == Owner(y)
    ensures !(Before(RoutePaths(a.routes), x, y) && Before(StorageOrder(a.storage), y, x))
  {
    var events := History(env, labels);
    RunOrders(env, labels);
    RouteOwner(env, a, x);
    RouteOwner(env, a, y);
    DistinctRoutePaths(a.routes);
    StorageIsCreation(a.storage);
    StoredIsLive(a.storage, events, Owner(x));
    SameMock(UpdateOrder([], events), CreationOrder([], events), Owner(x), x, y);
  }

  lemma StorageOrderDistinct(env: Env, a: App, version: string)
    requires AppOk(env, a) && StorageAccepted(env, a) && ExportsImportable(env, a)
    ensures Distinct(StorageOrder(a.storage))
  {
    RoundTripPutsRoutesInStorageOrder(env, a, version, a, true);
    SnapshotRoundTrip(env, a, version, a);
    DistinctRoutePaths(Import(env, a, Export(a, version).value, true).0.routes);
  }

  lemma NoneIffNone(env: Env, labels: seq<Label>, a: App, covers: Covers)
    requires SoundSchema(env.schema) && forall l :: l in labels ==> GoodLabel(env, l)
    requires a == Run(env, INITIAL, labels).app && AppOk(env, a) && Distinct(StorageOrder(a.storage))
    ensures NoneInverted(covers, RoutePaths(a.routes), StorageOrder(a.storage))
            <==> NoneOvertaken(covers, a, History(env, labels))
  {
    forall x, y, url
      ensures Inverted(covers, RoutePaths(a.routes), StorageOrder(a.storage), x, y, url)
              <==> Overtaken(covers, a, History(env, labels), x, y, url)
    {
      InvertedIsOvertaken(env, labels, a, covers, x, y, url);
    }
  }

  lemma PrecedenceIff(env: Env, labels: seq<Label>, a: App, version: string, replace: bool, covers: Covers)
    requires SoundSchema(env.schema) && forall l :: l in labels ==> GoodLabel(env, l)
    requires a == Run(env, INITIAL, labels).app && Exportable(env, a)
    ensures Export(a, version).Some?
    ensures SamePrecedence(
              covers, RoutePaths(a.routes), RoutePaths(Import(env, a, Export(a, version).value, replace).0.routes))
            <==> NoneOvertaken(covers, a, History(env, labels))
  {
    RoundTripKeepsPrecedenceIff(env, a, version, replace, covers);
    StorageOrderDistinct(env, a, version);
    NoneIffNone(env, labels, a, covers);
  }

  lemma RunIsExportable(env: Env, labels: seq<Label>)
    requires SoundSchema(env.schema) && StableSchema(env.schema) && HexIds(env) && GoodRun(env, labels)
    ensures Exportable(env, Run(env, INITIAL, labels).app) && forall l :: l in labels ==> GoodLabel(env, l)
  {
    RunValid(env, labels);
    RunAccepted(env, labels);
    ReachableExports(env, Run(env, INITIAL, labels).app);
  }

  /**
   * What a round trip does to precedence, for every server: after any good run, importing one's own
   * export, in either mode, changes no answer exactly if there are no two routes that cover a common
   * URL in the open and whose mocks were last updated in one order but created in the other.
   */
  lemma RunPrecedenceIff(env: Env, labels: seq<Label>, a: App, version: string, replace: bool, covers: Covers)
    requires SoundSchema(env.schema) && StableSchema(env.schema) && HexIds(env) && GoodRun(env, labels)
    requires a == Run(env, INITIAL, labels).app
    ensures Export(a, version).Some?
    ensures SamePrecedence(
              covers, RoutePaths(a.routes), RoutePaths(Import(env, a, Export(a, version).value, replace).0.routes))
            <==> NoneOvertaken(covers, a, History(env, labels))
  {
    RunIsExportable(env, labels);
    PrecedenceIff(env, labels, a, version, replace, covers);
  }

  // ---------------------------------------------------------------- a run whose answers change

  /** One mock is created, then another, and then the first is updated. */
  function Reupdated(p: string, one: Object, q: string, two: Object): seq<Label> {
    [Put(p, one), Put(q, two), Put(p, one)]
  }

  /** A PUT that succeeds at the path it names. */
  predicate Puts(env: Env, l: Label) {
    l.Put? && PutSucceeds(env, l.raw, l.body) && Landing(l.raw) == l.raw
  }

  /** What such PUTs amount to. */
  function InstallsBy(labels: seq<Label>): seq<Event> {
    if labels == [] then []
    else
      var n := |labels| - 1;
      InstallsBy(labels[..n]) + if labels[n].Put? then [Installs(labels[n].raw)] else []
  }

  lemma OnePut(env: Env, a: App, l: Label)
    requires Puts(env, l)
    ensures EventsOf(env, a, l) == [Installs(l.raw)]
  {
  }

  lemma {:induction false} PutHistory(env: Env, labels: seq<Label>)
    requires forall l :: l in labels ==> Puts(env, l)
    ensures History(env, labels) == InstallsBy(labels)
  {
    if labels != [] {
      var n := |labels| - 1;
      assert labels[n] in labels && forall l :: l in labels[..n] ==> l in labels;
      PutHistory(env, labels[..n]);
      OnePut(env, Run(env, INITIAL, labels[..n]).app, labels[n]);
    }
  }

  lemma ThreePuts(x: Label, y: Label)
    requires x.Put? && y.Put?
    ensures InstallsBy([x, y, x]) == [Installs(x.raw), Installs(y.raw), Installs(x.raw)]
  {
    assert [x, y, x][..2] == [x, y] && [x, y][..1] == [x] && [x][..0] == [];
    assert InstallsBy([x]) == [] + [Installs(x.raw)];
    assert InstallsBy([x, y]) == InstallsBy([x]) + [Installs(y.raw)];
  }

  lemma FirstAnswers(covers: Covers, p: string, rest: seq<string>, url: string)
    requires covers(p, url)
    ensures Answering(covers, RouteList([p] + rest), url) == Some(p)
  {
    assert ([p] + rest)[1..] == rest;
    assert RouteList([p] + rest)[0] == p;
  }

  lemma SettledLands(p: RootedPath)
    requires Settled(p)
    ensures Normalize(p) == Some(p) && Landing(p) == p
  {
    FixedIffSettled(p);
    SettledIsLanding(p);
  }

  lemma ReupdatesAreGood(env: Env, p: RootedPath, one: Object, q: RootedPath, two: Object)
    requires Mountable(env, p) && Mountable(env, q)
    ensures forall l :: l in Reupdated(p, one, q, two) ==> l.Put? && GoodLabel(env, l)
  {
    SettledLands(p);
    SettledLands(q);
  }

  lemma ReupdatedRoutes(env: Env, a: App, p: RootedPath, one: Object, q: RootedPath, two: Object)
    requires SoundSchema(env.schema) && Mountable(env, p) && Mountable(env, q) && p != q
    requires PutSucceeds(env, p, one) && PutSucceeds(env, q, two)
    requires a == Run(env, INITIAL, Reupdated(p, one, q, two)).app
    ensures RoutePaths(a.routes) == RouteList([q, p]) && StorageOrder(a.storage) == RouteList([p, q])
  {
    SettledLands(p);
    SettledLands(q);
    PutHistory(env, Reupdated(p, one, q, two));
    ThreePuts(Put(p, one), Put(q, two));
    ThreeOrders(p, q);
    ReupdatesAreGood(env, p, one, q, two);
    OrdersOfRun(env, Reupdated(p, one, q, two), a, [q, p], [p, q]);
  }

  lemma OrdersOfRun(env: Env, labels: seq<Label>, a: App, recent: seq<string>, created: seq<string>)
    requires SoundSchema(env.schema) && forall l :: l in labels ==> GoodLabel(env, l)
    requires a == Run(env, INITIAL, labels).app
    requires UpdateOrder([], History(env, labels)) == recent && CreationOrder([], History(env, labels)) == created
    ensures RoutePaths(a.routes) == RouteList(recent) && StorageOrder(a.storage) == RouteList(created)
  {
    RunOrders(env, labels);
    StorageIsCreation(a.storage);
  }

  lemma PutsAreGood(env: Env, labels: seq<Label>)
    requires forall l :: l in labels ==> l.Put? && GoodLabel(env, l)
    ensures GoodRun(env, labels)
  {
  }

  lemma AnswersSwap(
    env: Env, a: App, p: string, q: string, version: string, replace: bool, covers: Covers, url: string)
    requires Exportable(env, a) && covers(p, url) && covers(q, url)
    requires RoutePaths(a.routes) == RouteList([q, p]) && StorageOrder(a.storage) == RouteList([p, q])
    ensures Export(a, version).Some?
    ensures Answering(covers, RoutePaths(a.routes), url) == Some(q)
    ensures Answering(covers, RoutePaths(Import(env, a, Export(a, version).value, replace).0.routes), url) == Some(p)
  {
    RoundTripPutsRoutesInStorageOrder(env, a, version, a, replace);
    FirstAnswers(covers, q, [p], url);
    FirstAnswers(covers, p, [q], url);
    assert [q] + [p] == [q, p] && [p] + [q] == [p, q];
  }

  /**
   * A round trip can change an answer: with mocks at, say, "/{x}" and "/a", created in this order,
   * the first is updated again. Then "/a" is answered by the second mock before and by the first
   * after the round trip.
   */
  lemma RoundTripChangesAnswer(
    env: Env, a: App, p: RootedPath, one: Object, q: RootedPath, two: Object, version: string, replace: bool,
    covers: Covers, url: string)
    requires SoundSchema(env.schema) && StableSchema(env.schema) && HexIds(env)
    requires Mountable(env, p) && Mountable(env, q) && p != q && PutSucceeds(env, p, one) && PutSucceeds(env, q, two)
    requires a == Run(env, INITIAL, Reupdated(p, one, q, two)).app && covers(p, url) && covers(q, url)
    ensures Export(a, version).Some?
    ensures Answering(covers, RoutePaths(a.routes), url) == Some(q)
    ensures Answering(covers, RoutePaths(Import(env, a, Export(a, version).value, replace).0.routes), url) == Some(p)
  {
    ReupdatesAreGood(env, p, one, q, two);
    PutsAreGood(env, Reupdated(p, one, q, two));
    RunIsExportable(env, Reupdated(p, one, q, two));
    ReupdatedRoutes(env, a, p, one, q, two);
    AnswersSwap(env, a, p, q, version, replace, covers, url);
  }
}
