/**
 * The running application (proxy_mock/services/mock_service.py, proxy_mock/api/routes/admin.py,
 * `import_snapshot` of proxy_mock/services/snapshot.py): dictionaries and a route list that are
 * updated in place and hold cursors and stores by reference. Its methods are proved against the
 * functions on application values, so whatever is proved of those holds of the objects.
 */
module Runtime {
  import opened Wrappers
  import opened Paths
  import opened Recordings
  import opened Store
  import opened Mocks
  import opened Sequences
  import opened Lifecycle

  /** A route handler closes over objects. */
  datatype Closure = Closure(mock: Mock, sequences: map<Key, ResponseSequence>, recordings: Option<RecordingStore>)

  datatype LiveRoute = LiveRoute(path: string, handler: Closure)

  // ---------------------------------------------------------------- views

  ghost function CursorIds(states: map<Key, ResponseSequence>): map<Key, nat> {
    map k | k in states :: states[k].id
  }

  ghost function HandlerView(h: Closure): Handler {
    Handler(h.mock, CursorIds(h.sequences), if h.recordings.Some? then Some(h.recordings.value.id) else None)
  }

  ghost function RouteView(r: LiveRoute): Route {
    Route(r.path, HandlerView(r.handler))
  }

  ghost function RoutesView(routes: seq<LiveRoute>): (views: seq<Route>)
    ensures |views| == |routes|
    ensures forall i :: 0 <= i < |routes| ==> views[i] == RouteView(routes[i])
  {
    seq(|routes|, i requires 0 <= i < |routes| => RouteView(routes[i]))
  }

  ghost function CursorViews(heap: seq<ResponseSequence>): (views: seq<Cursor>)
    reads heap
    ensures |views| == |heap|
    ensures forall i :: 0 <= i < |heap| ==> views[i] == heap[i].View()
  {
    seq(|heap|, i requires 0 <= i < |heap| reads heap => heap[i].View())
  }

  ghost function StoreViews(heap: seq<RecordingStore>): (views: seq<StoreState>)
    reads heap
    ensures |views| == |heap|
    ensures forall i :: 0 <= i < |heap| ==> views[i] == heap[i].View()
  {
    seq(|heap|, i requires 0 <= i < |heap| reads heap => heap[i].View())
  }

  /** The objects are numbered in order of allocation. */
  ghost predicate StoreHeap(heap: seq<RecordingStore>)
    reads heap
  {
    forall i :: 0 <= i < |heap| ==> heap[i].id == i && heap[i].Valid()
  }

  ghost predicate KnownStore(heap: seq<RecordingStore>, store: RecordingStore) {
    store.id < |heap| && heap[store.id] == store
  }

  ghost predicate KnownHandler(cursors: seq<ResponseSequence>, stores: seq<RecordingStore>, h: Closure) {
    && Named(cursors, h.sequences, CursorIds(h.sequences))
    && (h.recordings.Some? ==> KnownStore(stores, h.recordings.value))
  }

  ghost predicate KnownSequences(cursors: seq<ResponseSequence>, sequences: map<string, map<Key, ResponseSequence>>) {
    forall p :: p in sequences ==> Named(cursors, sequences[p], CursorIds(sequences[p]))
  }

  ghost predicate KnownRecordings(stores: seq<RecordingStore>, recordings: map<string, RecordingStore>) {
    forall p :: p in recordings ==> KnownStore(stores, recordings[p])
  }

  ghost predicate KnownRoutes(cursors: seq<ResponseSequence>, stores: seq<RecordingStore>, routes: seq<LiveRoute>) {
    forall r :: r in routes ==> KnownHandler(cursors, stores, r.handler)
  }

  // ---------------------------------------------------------------- routes

  /** `list.remove`: the first equal element. */
  function RemoveFirst(routes: seq<LiveRoute>, r: LiveRoute): seq<LiveRoute> {
    if routes == [] then [] else if routes[0] == r then routes[1..] else [routes[0]] + RemoveFirst(routes[1..], r)
  }

  lemma {:induction false} RemoveFirstAfter(kept: seq<LiveRoute>, r: LiveRoute, rest: seq<LiveRoute>)
    requires r !in kept
    ensures RemoveFirst(kept + [r] + rest, r) == kept + rest
  {
    if kept == [] {
      assert [] + [r] + rest == [r] + rest;
    } else {
      RemoveFirstAfter(kept[1..], r, rest);
      assert (kept + [r] + rest)[1..] == kept[1..] + [r] + rest;
    }
  }

  function DropLive(routes: seq<LiveRoute>, candidates: set<string>): seq<LiveRoute> {
    if routes == [] then []
    else
      var last := routes[|routes| - 1];
      DropLive(routes[..|routes| - 1], candidates) + (if last.path in candidates then [] else [last])
  }

  lemma {:induction false} DropRoutesSnoc(routes: seq<Route>, r: Route, candidates: set<string>)
    ensures DropRoutes(routes + [r], candidates)
            == DropRoutes(routes, candidates) + (if r.path in candidates then [] else [r])
  {
    if routes != [] {
      assert (routes + [r])[1..] == routes[1..] + [r];
      DropRoutesSnoc(routes[1..], r, candidates);
    }
  }

  lemma {:induction false} DropLiveView(routes: seq<LiveRoute>, candidates: set<string>)
    ensures RoutesView(DropLive(routes, candidates)) == DropRoutes(RoutesView(routes), candidates)
    ensures forall r :: r in DropLive(routes, candidates) ==> r in routes && r.path !in candidates
  {
    if routes != [] {
      var before, last := routes[..|routes| - 1], routes[|routes| - 1];
      DropLiveView(before, candidates);
      DropRoutesSnoc(RoutesView(before), RouteView(last), candidates);
      assert RoutesView(routes) == RoutesView(before) + [RouteView(last)];
      RoutesViewSnoc(DropLive(before, candidates), last);
    }
  }

  /** One round of the loop over a copy of the list: what has been passed, and what is still there. */
  lemma DropRound(copy: seq<LiveRoute>, i: nat, candidates: set<string>)
    requires i < |copy|
    ensures var now := DropLive(copy[..i], candidates) + copy[i..];
            DropLive(copy[..i + 1], candidates) + copy[i + 1..]
            == if copy[i].path in candidates then RemoveFirst(now, copy[i]) else now
  {
    var kept, route := DropLive(copy[..i], candidates), copy[i];
    assert copy[..i + 1][..i] == copy[..i];
    assert kept + copy[i..] == kept + [route] + copy[i + 1..];
    if route.path in candidates {
      DropLiveView(copy[..i], candidates);
      RemoveFirstAfter(kept, route, copy[i + 1..]);
    }
  }

  lemma RoutesViewSnoc(routes: seq<LiveRoute>, r: LiveRoute)
    ensures RoutesView(routes + [r]) == RoutesView(routes) + [RouteView(r)]
    ensures RoutesView(routes + []) == RoutesView(routes)
  {
    assert routes + [] == routes;
  }

  // ---------------------------------------------------------------- dictionaries of objects

  ghost function SequencesView(sequences: map<string, map<Key, ResponseSequence>>): map<string, map<Key, nat>> {
    map p | p in sequences :: CursorIds(sequences[p])
  }

  ghost function RecordingsView(recordings: map<string, RecordingStore>): map<string, nat> {
    map p | p in recordings :: recordings[p].id
  }

  /** Known objects stay known as the heap grows. */
  lemma StoresGrow(
    heap: seq<RecordingStore>, more: seq<RecordingStore>, recordings: map<string, RecordingStore>,
    cursors: seq<ResponseSequence>, routes: seq<LiveRoute>)
    requires KnownRecordings(heap, recordings) && KnownRoutes(cursors, heap, routes)
    ensures KnownRecordings(heap + more, recordings) && KnownRoutes(cursors, heap + more, routes)
  {
    forall r | r in routes
      ensures KnownHandler(cursors, heap + more, r.handler)
    {
      assert KnownHandler(cursors, heap, r.handler);
    }
  }

  lemma CursorsGrow(
    heap: seq<ResponseSequence>, later: seq<ResponseSequence>, sequences: map<string, map<Key, ResponseSequence>>,
    stores: seq<RecordingStore>, routes: seq<LiveRoute>)
    requires heap <= later && KnownSequences(heap, sequences) && KnownRoutes(heap, stores, routes)
    ensures KnownSequences(later, sequences) && KnownRoutes(later, stores, routes)
  {
    forall r | r in routes
      ensures KnownHandler(later, stores, r.handler)
    {
      assert KnownHandler(heap, stores, r.handler);
    }
  }

  /** `RemoveRuntime` without its routes. */
  function RetireAt(a: App, p: string): App {
    a.(
      sequences := a.sequences - {p},
      recordings := a.recordings - {p},
      stores := if p in a.recordings && a.recordings[p] < |a.stores|
                then a.stores[a.recordings[p] := Retired(a.stores[a.recordings[p]])]
                else a.stores)
  }

  /** `MockInit` after the configuration has been stored. */
  function Replaced(
    env: Env, a: App, path: RootedPath, m: Mock, preserve: set<Key>, keepRecordings: bool, entries: Option<seq<Entry>>): App
  {
    var p: string := path;
    Install(
      env, RemoveRuntime(a, path), path, m, if p in a.sequences then a.sequences[p] else map[], preserve,
      if keepRecordings then StoreAt(a, path) else None, entries)
  }

  lemma MockInitIsReplacement(
    env: Env, a: App, m: Mock, preserve: set<Key>, keepRecordings: bool, entries: Option<seq<Entry>>, valid: RootedPath)
    requires ValidatePath(env.prefix, env.compiles, m.path) == Some(valid)
    ensures var mock, path := m.(path := valid), Renormalize(valid);
            MockInit(env, a, m, preserve, keepRecordings, entries)
            == Some(Replaced(
                 env, a.(storage := SetMock(a.storage, mock.(path := Renormalize(path)))), path, mock.(path := path),
                 preserve, keepRecordings, entries))
  {
  }

  /** The new store copies entries, so it does not matter that the old one has been retired by then. */
  lemma RetirementKeepsEntries(
    env: Env, a: App, path: RootedPath, m: Mock, previous: map<Key, nat>, preserve: set<Key>, keepRecordings: bool,
    prior: Option<StoreState>, entries: Option<seq<Entry>>)
    requires var p: string := path; previous == if p in a.sequences then a.sequences[p] else map[]
    requires prior == PriorStore(a, path, keepRecordings) || prior == RetiredOption(PriorStore(a, path, keepRecordings))
    ensures Install(env, RemoveRuntime(a, path), path, m, previous, preserve, prior, entries)
            == Replaced(env, a, path, m, preserve, keepRecordings, entries)
  {
  }

  function PriorStore(a: App, path: string, keepRecordings: bool): Option<StoreState> {
    if keepRecordings then StoreAt(a, path) else None
  }

  function RetiredOption(s: Option<StoreState>): Option<StoreState> {
    if s.None? then None else Some(Retired(s.value))
  }

  class MockApp {
    const env: Env
    var storage: seq<Mock>
    var sequences: map<string, map<Key, ResponseSequence>>
    var recordings: map<string, RecordingStore>
    var routes: seq<LiveRoute>
    /** Every cursor and store ever created, whoever still refers to it. */
    ghost var cursorHeap: seq<ResponseSequence>
    ghost var storeHeap: seq<RecordingStore>

    ghost predicate Valid()
      reads this, cursorHeap, storeHeap
    {
      && CursorHeap(cursorHeap, CursorViews(cursorHeap)) && StoreHeap(storeHeap)
      && KnownSequences(cursorHeap, sequences) && KnownRecordings(storeHeap, recordings)
      && KnownRoutes(cursorHeap, storeHeap, routes)
    }

    /** The application as a value. */
    ghost function View(): App
      reads this, cursorHeap, storeHeap
    {
      App(
        storage, SequencesView(sequences), RecordingsView(recordings),
        RoutesView(routes), CursorViews(cursorHeap), StoreViews(storeHeap))
    }

    constructor (env: Env)
      ensures Valid() && View() == EMPTY && this.env == env
      ensures cursorHeap == [] && storeHeap == []
    {
      this.env := env;
      storage, sequences, recordings, routes := [], map[], map[], [];
      cursorHeap, storeHeap := [], [];
    }

    /** The loop over a copy of the route list that removes every route of a set of paths. */
    method DropMatching(candidates: set<string>)
      modifies this`routes
      ensures routes == DropLive(old(routes), candidates)
    {
      var copy := routes;
      for i := 0 to |copy|
        invariant routes == DropLive(copy[..i], candidates) + copy[i..]
      {
        DropRound(copy, i, candidates);
        if copy[i].path in candidates {
          routes := RemoveFirst(routes, copy[i]);
        }
      }
      assert copy[..|copy|] == copy;
    }

    method RetireStore(store: RecordingStore)
      requires Valid() && KnownStore(storeHeap, store)
      modifies storeHeap
      ensures Valid()
      ensures View() == old(View()).(stores := old(StoreViews(storeHeap))[store.id := Retired(old(store.View()))])
    {
      store.Retire();
      assert StoreHeap(storeHeap);
    }

    method Forget(p: string)
      requires Valid()
      modifies this`sequences, this`recordings
      ensures Valid()
      ensures View() == old(View()).(
                sequences := old(SequencesView(sequences)) - {p}, recordings := old(RecordingsView(recordings)) - {p})
    {
      sequences := sequences - {p};
      recordings := recordings - {p};
      assert SequencesView(sequences) == old(SequencesView(sequences)) - {p};
      assert RecordingsView(recordings) == old(RecordingsView(recordings)) - {p};
    }

    method RemoveRoutes(candidates: set<string>)
      requires Valid()
      modifies this`routes
      ensures Valid() && View() == old(View()).(routes := DropRoutes(old(RoutesView(routes)), candidates))
    {
      DropLiveView(routes, candidates);
      DropMatching(candidates);
    }

    method Withdraw(p: string)
      requires Valid()
      modifies this`sequences, this`recordings, storeHeap
      ensures Valid() && routes == old(routes)
      ensures View() == RetireAt(old(View()), p)
    {
      if p in recordings {
        RetireStore(recordings[p]);
      }
      Forget(p);
    }

    /** `remove_runtime_routes`. */
    method RemoveRuntimeRoutes(path: RootedPath)
      requires Valid()
      modifies this`sequences, this`recordings, this`routes, storeHeap
      ensures Valid() && View() == RemoveRuntime(old(View()), path)
    {
      Withdraw(Renormalize(path));
      RemoveRoutes(Candidates(path));
    }

    // -------------------------------------------------------------- a new generation

    /** `app.add_api_route`, for a path and its trailing-slash variant. */
    method AddRoutes(path: string, handler: Closure)
      requires Valid() && KnownHandler(cursorHeap, storeHeap, handler)
      modifies this`routes
      ensures Valid()
      ensures View() == old(View()).(routes := old(RoutesView(routes)) + RoutesOfMock(path, HandlerView(handler)))
    {
      RoutesViewSnoc(routes, LiveRoute(path, handler));
      RoutesViewSnoc(routes + [LiveRoute(path, handler)], LiveRoute(path + "/", handler));
      routes := routes + [LiveRoute(path, handler)];
      if path != "/" {
        routes := routes + [LiveRoute(path + "/", handler)];
      }
    }

    method AllocateStore(config: Config, prior: RecordingStore?, entries: Option<seq<Entry>>) returns (store: RecordingStore)
      requires Valid() && (prior != null ==> KnownStore(storeHeap, prior))
      modifies this`storeHeap
      ensures Valid() && fresh(store) && storeHeap == old(storeHeap) + [store] && store.id == |old(storeHeap)|
      ensures StoreViews(storeHeap) == old(StoreViews(storeHeap))
                + [NewStore(env.codec, config, if prior == null then None else Some(old(prior.View())), entries)]
    {
      store := new RecordingStore(|storeHeap|, env.codec, config, prior, entries);
      StoresGrow(storeHeap, [store], recordings, cursorHeap, routes);
      storeHeap := storeHeap + [store];
      assert StoreHeap(storeHeap);
    }

    /** Create the recording store of a new generation, perhaps from the one it replaces. */
    method CreateStore(path: string, config: Config, prior: RecordingStore?, entries: Option<seq<Entry>>)
      returns (store: RecordingStore)
      requires Valid() && (prior != null ==> KnownStore(storeHeap, prior))
      modifies this`recordings, this`storeHeap
      ensures Valid() && fresh(store) && storeHeap == old(storeHeap) + [store] && store.id == |old(storeHeap)|
      ensures View() == old(View()).(
                recordings := old(RecordingsView(recordings))[path := |old(storeHeap)|],
                stores := old(StoreViews(storeHeap))
                          + [NewStore(env.codec, config, if prior == null then None else Some(old(prior.View())), entries)])
    {
      store := AllocateStore(config, prior, entries);
      recordings := recordings[path := store];
      assert RecordingsView(recordings) == old(RecordingsView(recordings))[path := |old(storeHeap)|];
    }

    method AllocateCursors(m: Mock, previous: map<Key, ResponseSequence>, preserve: set<Key>)
      returns (states: map<Key, ResponseSequence>)
      requires Valid() && ValidMock(m) && Named(cursorHeap, previous, CursorIds(previous))
      modifies this`cursorHeap
      ensures Valid() && Named(cursorHeap, states, CursorIds(states))
      ensures old(cursorHeap) <= cursorHeap && forall i :: |old(cursorHeap)| <= i < |cursorHeap| ==> fresh(cursorHeap[i])
      ensures var built := BuildAll(m, CursorIds(previous), preserve, old(CursorViews(cursorHeap)));
              CursorIds(states) == built.states && View() == old(View()).(cursors := built.cursors)
    {
      ghost var built := BuildAll(m, CursorIds(previous), preserve, CursorViews(cursorHeap));
      ghost var heap;
      states, heap := BuildSequences(m, previous, preserve, cursorHeap, CursorViews(cursorHeap), CursorIds(previous));
      CursorsGrow(cursorHeap, heap, sequences, storeHeap, routes);
      cursorHeap := heap;
      assert CursorIds(states) == built.states;
      assert CursorViews(cursorHeap) == built.cursors;
    }

    method RegisterCursors(path: string, states: map<Key, ResponseSequence>)
      requires Valid() && Named(cursorHeap, states, CursorIds(states))
      modifies this`sequences
      ensures Valid()
      ensures View() == old(View()).(sequences := old(SequencesView(sequences))[path := CursorIds(states)])
    {
      sequences := sequences[path := states];
      assert SequencesView(sequences) == old(SequencesView(sequences))[path := CursorIds(states)];
    }

    /** Create or keep the cursors of a new generation. */
    method CreateCursors(path: string, m: Mock, previous: map<Key, ResponseSequence>, preserve: set<Key>)
      returns (states: map<Key, ResponseSequence>)
      requires Valid() && ValidMock(m) && Named(cursorHeap, previous, CursorIds(previous))
      modifies this`sequences, this`cursorHeap
      ensures Valid() && Named(cursorHeap, states, CursorIds(states))
      ensures old(cursorHeap) <= cursorHeap && forall i :: |old(cursorHeap)| <= i < |cursorHeap| ==> fresh(cursorHeap[i])
      ensures var built := BuildAll(m, CursorIds(previous), preserve, old(CursorViews(cursorHeap)));
              && CursorIds(states) == built.states
              && View() == old(View()).(
                   sequences := old(SequencesView(sequences))[path := built.states], cursors := built.cursors)
    {
      states := AllocateCursors(m, previous, preserve);
      RegisterCursors(path, states);
    }

    /** The second half of `mock_initialization`. */
    method InstallGeneration(
      path: string, m: Mock, previous: map<Key, ResponseSequence>, preserve: set<Key>, prior: RecordingStore?,
      entries: Option<seq<Entry>>)
      requires Valid() && ValidMock(m) && Named(cursorHeap, previous, CursorIds(previous))
      requires prior != null ==> KnownStore(storeHeap, prior)
      modifies this`sequences, this`recordings, this`routes, this`cursorHeap, this`storeHeap
      ensures Valid()
      ensures old(cursorHeap) <= cursorHeap && forall i :: |old(cursorHeap)| <= i < |cursorHeap| ==> fresh(cursorHeap[i])
      ensures old(storeHeap) <= storeHeap && forall i :: |old(storeHeap)| <= i < |storeHeap| ==> fresh(storeHeap[i])
      ensures View() == Install(
                env, old(View()), path, m, CursorIds(previous), preserve,
                if prior == null then None else Some(old(prior.View())), entries)
    {
      var store := None;
      if m.recording.Some? {
        var created := CreateStore(path, m.recording.value, prior, entries);
        store := Some(created);
      }
      var states := CreateCursors(path, m, previous, preserve);
      AddRoutes(path, Closure(m, states, store));
    }

    method SetStorage(mocks: seq<Mock>)
      requires Valid()
      modifies this`storage
      ensures Valid() && View() == old(View()).(storage := mocks)
    {
      storage := mocks;
    }

    /** Take a generation out of service, keeping hold of its cursors and perhaps of its store. */
    method RemovePrevious(path: RootedPath, keepRecordings: bool)
      returns (previous: map<Key, ResponseSequence>, prior: RecordingStore?)
      requires Valid()
      modifies this`sequences, this`recordings, this`routes, storeHeap
      ensures Valid() && View() == RemoveRuntime(old(View()), path)
      ensures Named(cursorHeap, previous, CursorIds(previous)) && (prior != null ==> KnownStore(storeHeap, prior))
      ensures var p: string := path;
              CursorIds(previous) == if p in old(SequencesView(sequences)) then old(SequencesView(sequences))[p] else map[]
      ensures var kept := PriorStore(old(View()), path, keepRecordings);
              var now := if prior == null then None else Some(prior.View());
              now == kept || now == RetiredOption(kept)
    {
      previous := if path in sequences then sequences[path] else map[];
      prior := if keepRecordings && path in recordings then recordings[path] else null;
      RemoveRuntimeRoutes(path);
      assert prior != null ==> prior.View() == StoreViews(storeHeap)[prior.id];
    }

    /** Replace the generation at a path, taking cursors and recordings over from it. */
    method ReplaceGeneration(
      path: RootedPath, m: Mock, preserve: set<Key>, keepRecordings: bool, entries: Option<seq<Entry>>)
      requires Valid() && ValidMock(m)
      modifies this`sequences, this`recordings, this`routes, this`cursorHeap, this`storeHeap, storeHeap
      ensures Valid()
      ensures old(cursorHeap) <= cursorHeap && forall i :: |old(cursorHeap)| <= i < |cursorHeap| ==> fresh(cursorHeap[i])
      ensures old(storeHeap) <= storeHeap && forall i :: |old(storeHeap)| <= i < |storeHeap| ==> fresh(storeHeap[i])
      ensures View() == Replaced(env, old(View()), path, m, preserve, keepRecordings, entries)
    {
      ghost var a := View();
      var previous, prior := RemovePrevious(path, keepRecordings);
      ghost var kept := if prior == null then None else Some(prior.View());
      RetirementKeepsEntries(env, a, path, m, CursorIds(previous), preserve, keepRecordings, kept, entries);
      InstallGeneration(path, m, previous, preserve, prior, entries);
    }

    /** `mock_initialization`. */
    method MockInitialization(m: Mock, preserve: set<Key>, keepRecordings: bool, entries: Option<seq<Entry>>)
      returns (ok: bool)
      requires Valid() && ValidMock(m)
      modifies this`storage, this`sequences, this`recordings, this`routes, this`cursorHeap, this`storeHeap, storeHeap
      ensures Valid()
      ensures old(cursorHeap) <= cursorHeap && forall i :: |old(cursorHeap)| <= i < |cursorHeap| ==> fresh(cursorHeap[i])
      ensures old(storeHeap) <= storeHeap && forall i :: |old(storeHeap)| <= i < |storeHeap| ==> fresh(storeHeap[i])
      ensures var r := MockInit(env, old(View()), m, preserve, keepRecordings, entries);
              ok == r.Some? && View() == r.GetOr(old(View()))
    {
      var valid := ValidatePath(env.prefix, env.compiles, m.path);
      if valid.None? {
        return false;
      }
      MockInitIsReplacement(env, View(), m, preserve, keepRecordings, entries, valid.value);
      var mock := m.(path := valid.value);
      var path := Renormalize(mock.path);
      SetStorage(SetMock(storage, mock.(path := Renormalize(path))));
      ValidWithPath(mock, path);
      ReplaceGeneration(path, mock.(path := path), preserve, keepRecordings, entries);
      return true;
    }

    // -------------------------------------------------------------- objects

    /** Delete from one store. */
    method DeleteFrom(store: RecordingStore, key: Option<string>) returns (ok: bool)
      requires Valid() && KnownStore(storeHeap, store)
      modifies storeHeap
      ensures Valid() && ok == DeletionSucceeds(old(store.View()), key)
      ensures View() == if !ok then old(View()) else
                old(View()).(stores := old(StoreViews(storeHeap))[store.id := Deleted(old(store.View()), key)])
    {
      ok := store.Delete(key);
      assert StoreHeap(storeHeap);
      assert !ok ==> StoreViews(storeHeap) == old(StoreViews(storeHeap));
    }

    /** Save into one store, which may belong to a generation that has been replaced. */
    method SaveInto(store: RecordingStore, key: string, request: RequestData, reply: Reply, captured: nat)
      returns (outcome: Outcome)
      requires Valid() && KnownStore(storeHeap, store) && key == env.codec.hash(request)
      modifies storeHeap
      ensures Valid()
      ensures var e := EntryOf(env.codec.hash, request, reply);
              var slot := Slot(e, env.codec.size(e));
              && outcome == SaveOutcome(old(store.View()), slot.size, captured)
              && View() == old(View()).(
                   stores := old(StoreViews(storeHeap))[store.id := Saved(old(store.View()), slot, captured)])
    {
      outcome := store.Save(env.codec, key, request, reply, captured);
      assert StoreHeap(storeHeap);
    }

    /** Reserve a response of one cursor, which generations may share. */
    method TakeFrom(cursor: ResponseSequence) returns (taken: Taken)
      requires Valid() && cursor.id < |cursorHeap| && cursorHeap[cursor.id] == cursor
      modifies cursorHeap
      ensures Valid() && taken == TakeResult(old(cursor.View()))
      ensures View() == old(View()).(cursors := old(CursorViews(cursorHeap))[cursor.id := AfterTake(old(cursor.View()))])
    {
      taken := cursor.Take();
      assert CursorHeap(cursorHeap, CursorViews(cursorHeap));
    }

    /** Report on one cursor, perhaps after restarting it. */
    method StateOf(cursor: ResponseSequence, reset: bool) returns (report: Report)
      requires Valid() && cursor.id < |cursorHeap| && cursorHeap[cursor.id] == cursor
      modifies cursorHeap
      ensures Valid() && report == ReportOf(cursor.View())
      ensures var after := if reset then AfterReset(old(cursor.View())) else old(cursor.View());
              View() == old(View()).(cursors := old(CursorViews(cursorHeap))[cursor.id := after])
    {
      report := cursor.State(reset);
      assert CursorHeap(cursorHeap, CursorViews(cursorHeap));
    }
  }
}
