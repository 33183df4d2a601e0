/**
 * The four structures stay in agreement: one lemma for removing what a path owns, one for
 * installing a new generation, and from them every administrative operation.
 */
module LifecycleProofs {
  import opened Wrappers
  import opened Paths
  import opened Recordings
  import opened Store
  import opened Mocks
  import opened Sequences
  import opened Lifecycle

  lemma SettledFacts(p: string)
    requires Settled(p)
    ensures Renormalize(p) == p
    ensures Candidates(p) == if p == "/" then {p} else {p, p + "/"}
    ensures forall c :: c in Candidates(p) ==> Owner(c) == p
  {
    FixedIffSettled(p);
    assert (p + "/")[..|p|] == p;
  }

  /** Changing the stored configuration of other paths does not matter to a set of live paths. */
  lemma StorageElsewhere(a: App, live: set<string>, storage: seq<Mock>)
    requires Consistent(a, live)
    requires forall q :: q in live ==> MockAt(storage, q) == MockAt(a.storage, q)
    ensures Consistent(a.(storage := storage), live)
  {
    var b := a.(storage := storage);
    forall q | q in live
      ensures Agrees(b, q)
    {
      assert Agrees(a, q);
    }
    forall r | r in a.routes
      ensures RouteAgrees(b, live, r)
    {
      assert RouteAgrees(a, live, r);
    }
  }

  /** What removing the runtime state of a path leaves alone. */
  lemma RemoveFrame(a: App, p: string)
    requires Settled(p)
    ensures var b := RemoveRuntime(a, p);
            && b.storage == a.storage && b.cursors == a.cursors && |b.stores| == |a.stores|
            && b.sequences == a.sequences - {p} && b.recordings == a.recordings - {p}
            && b.routes == DropRoutes(a.routes, Candidates(p))
            && forall i :: 0 <= i < |a.stores| ==>
                 b.stores[i] == if p in a.recordings && a.recordings[p] == i then Retired(a.stores[i]) else a.stores[i]
  {
    SettledFacts(p);
  }

  lemma RemoveConsistent(a: App, live: set<string>, p: string)
    requires Consistent(a, live) && Settled(p)
    ensures Consistent(RemoveRuntime(a, p), live - {p})
  {
    var b := RemoveRuntime(a, p);
    RemoveFrame(a, p);
    forall q | q in live - {p}
      ensures Agrees(b, q)
    {
      RemoveKeepsOthers(a, live, p, q);
    }
    RemoveRoutesAgree(a, live, p);
    RemoveActive(a, p);
    RemoveUnshared(a, p);
  }

  lemma RemoveKeepsOthers(a: App, live: set<string>, p: string, q: string)
    requires Consistent(a, live) && Settled(p) && q in live - {p}
    ensures Agrees(RemoveRuntime(a, p), q)
  {
    RemoveFrame(a, p);
    assert Agrees(a, q);
  }

  lemma RemoveActive(a: App, p: string)
    requires OnlyOwnedActive(a) && Settled(p)
    ensures OnlyOwnedActive(RemoveRuntime(a, p))
  {
    var b := RemoveRuntime(a, p);
    RemoveFrame(a, p);
    forall i | 0 <= i < |b.stores| && b.stores[i].active
      ensures exists q :: q in b.recordings && b.recordings[q] == i
    {
      assert a.stores[i].active;
      var q :| q in a.recordings && a.recordings[q] == i;
      assert q in b.recordings && b.recordings[q] == i;
    }
  }

  lemma RemoveUnshared(a: App, p: string)
    requires Unshared(a) && Settled(p)
    ensures Unshared(RemoveRuntime(a, p))
  {
    RemoveFrame(a, p);
  }

  lemma RemoveRoutesAgree(a: App, live: set<string>, p: string)
    requires Consistent(a, live) && Settled(p)
    ensures RoutesAgree(RemoveRuntime(a, p), live - {p})
  {
    var b := RemoveRuntime(a, p);
    RemoveFrame(a, p);
    SettledFacts(p);
    DropRoutesShape(a.routes, Candidates(p));
    forall r | r in b.routes
      ensures RouteAgrees(b, live - {p}, r)
    {
      RouteStays(a, live, p, r);
    }
    forall q | q in live - {p} && Rooted(q)
      ensures forall c :: c in Candidates(q) ==> HasRoute(b.routes, c)
    {
      assert Agrees(a, q);
      OthersKeepRoutes(a, live, p, q);
    }
  }

  lemma RouteStays(a: App, live: set<string>, p: string, r: Route)
    requires RouteAgrees(a, live, r) && Settled(p) && r.path !in Candidates(p)
    ensures RouteAgrees(RemoveRuntime(a, p), live - {p}, r)
  {
    RemoveFrame(a, p);
    SettledFacts(p);
  }

  lemma OthersKeepRoutes(a: App, live: set<string>, p: string, q: string)
    requires RoutesAgree(a, live) && Settled(p) && Settled(q) && q in live && p != q
    ensures forall c :: c in Candidates(q) ==> HasRoute(DropRoutes(a.routes, Candidates(p)), c)
  {
    SettledFacts(p);
    CandidatesDisjoint(p, q);
    DropRoutesShape(a.routes, Candidates(p));
  }

  lemma RemoveHeapOk(codec: Codec, a: App, p: string)
    requires HeapOk(codec, a) && Settled(p)
    ensures HeapOk(codec, RemoveRuntime(a, p))
  {
    RemoveFrame(a, p);
  }

  // ---------------------------------------------------------------- installing

  /** Cursors that may be carried over belong to no other mock, and each to one key. */
  predicate Spare(a: App, previous: map<Key, nat>) {
    && (forall k :: k in previous ==> previous[k] < |a.cursors|)
    && (forall k, l :: k in previous && l in previous && previous[k] == previous[l] ==> k == l)
    && (forall k, q, l :: k in previous && q in a.sequences && l in a.sequences[q] ==> a.sequences[q][l] != previous[k])
  }

  /** Entries that may be carried over suit the new recording configuration. */
  predicate Suitable(
    codec: Codec, config: Config, prior: Option<StoreState>, imported: Option<seq<Entry>>) {
    && config.maxItems > 0
    && (prior.Some? ==> StoreWell(codec, prior.value) && prior.value.config.matchHeaders == config.matchHeaders)
    && (imported.Some? ==> forall e :: e in imported.value ==> SlotOk(codec, config, Slot(e, codec.size(e))))
  }

  predicate CanInstall(
    env: Env, a: App, live: set<string>, p: string, m: Mock, previous: map<Key, nat>, prior: Option<StoreState>,
    imported: Option<seq<Entry>>) {
    && Consistent(a, live) && HeapOk(env.codec, a)
    && p !in live && Settled(p) && m.path == p && ValidMock(m) && MockAt(a.storage, p) == Some(m)
    && Spare(a, previous)
    && (m.recording.Some? ==> Suitable(env.codec, m.recording.value, prior, imported))
  }

  lemma NewStoreWell(codec: Codec, config: Config, prior: Option<StoreState>, imported: Option<seq<Entry>>)
    requires Suitable(codec, config, prior, imported)
    ensures StoreWell(codec, NewStore(codec, config, prior, imported))
  {
    NewStoreOk(codec, config, prior, imported);
    var start := if imported.Some? then FromEntries(codec, imported.value) else if prior.Some? then prior.value.slots else [];
    if imported.Some? {
      FromEntriesDistinct(codec, imported.value);
    }
    assert DistinctKeys(start);
    TrimmedKeepsDistinct(start, config.maxItems, config.maxBytes);
    forall x | x in start
      ensures SlotOk(codec, config, x)
    {
      if imported.Some? {
        assert x == Slot(x.entry, codec.size(x.entry));
      }
    }
  }

  /** The cursors of a fresh generation agree with its configuration and are shared with nobody. */
  lemma BuiltAgrees(a: App, m: Mock, previous: map<Key, nat>, preserve: set<Key>)
    requires Spare(a, previous)
    ensures var b := BuildAll(m, previous, preserve, a.cursors);
            && |a.cursors| <= |b.cursors| && b.cursors[..|a.cursors|] == a.cursors
            && (forall i :: |a.cursors| <= i < |b.cursors| ==> b.cursors[i].position == 0)
            && (forall k :: k in b.states <==> SequenceOf(m, k).Some?)
            && (forall k :: k in b.states ==>
                  && b.states[k] < |b.cursors| && Some(b.cursors[b.states[k]].sequence) == SequenceOf(m, k)
                  && ((k in previous && b.states[k] == previous[k]) || b.states[k] >= |a.cursors|))
            && (forall k, l :: k in b.states && l in b.states && b.states[k] == b.states[l] ==> k == l)
  {
    var n := |AllKeys(m)|;
    BuildShape(m, previous, preserve, a.cursors, n);
    BuildInjective(m, previous, preserve, a.cursors, n);
    forall k | SequenceOf(m, k).Some?
      ensures KeyPosition(k) < n
    {
      SequenceKeyIsListed(m, k);
    }
    var b := BuildAll(m, previous, preserve, a.cursors);
    forall k | k in b.states
      ensures (k in previous && b.states[k] == previous[k]) || b.states[k] >= |a.cursors|
    {
      assert Assigned(m, previous, preserve, a.cursors, b, k);
    }
  }

  lemma InstallHeapOk(
    env: Env, a: App, p: string, m: Mock, previous: map<Key, nat>, preserve: set<Key>,
    prior: Option<StoreState>, imported: Option<seq<Entry>>)
    requires HeapOk(env.codec, a) && ValidMock(m)
    requires m.recording.Some? ==> Suitable(env.codec, m.recording.value, prior, imported)
    ensures HeapOk(env.codec, Install(env, a, p, m, previous, preserve, prior, imported))
  {
    if m.recording.Some? {
      NewStoreWell(env.codec, m.recording.value, prior, imported);
    }
    BuiltCursorsOk(m, previous, preserve, a.cursors);
  }

  lemma BuiltCursorsOk(m: Mock, previous: map<Key, nat>, preserve: set<Key>, cursors: seq<Cursor>)
    requires ValidMock(m) && forall i :: 0 <= i < |cursors| ==> cursors[i].Ok()
    ensures var b := BuildAll(m, previous, preserve, cursors); forall i :: 0 <= i < |b.cursors| ==> b.cursors[i].Ok()
  {
    BuildShape(m, previous, preserve, cursors, |AllKeys(m)|);
    BuildNonEmpty(m, previous, preserve, cursors, |AllKeys(m)|);
    var b := BuildAll(m, previous, preserve, cursors);
    assert forall i :: 0 <= i < |cursors| ==> b.cursors[i] == b.cursors[..|cursors|][i];
  }

  lemma {:induction false} BuildNonEmpty(m: Mock, previous: map<Key, nat>, preserve: set<Key>, cursors: seq<Cursor>, n: nat)
    requires n <= |AllKeys(m)| && ValidMock(m)
    ensures var b := Build(m, previous, preserve, cursors, n);
            |cursors| <= |b.cursors| && forall i :: |cursors| <= i < |b.cursors| ==> b.cursors[i].sequence.responses != []
  {
    if n > 0 {
      BuildNonEmpty(m, previous, preserve, cursors, n - 1);
      var key := AllKeys(m)[n - 1];
      if SequenceOf(m, key).Some? {
        SequencesAreNotEmpty(m, key);
      }
    }
  }

  /** Everything but the routes, for the paths that were live before. */
  lemma InstallKeepsOthers(
    env: Env, a: App, live: set<string>, p: string, m: Mock, previous: map<Key, nat>, preserve: set<Key>,
    prior: Option<StoreState>, imported: Option<seq<Entry>>, q: string)
    requires CanInstall(env, a, live, p, m, previous, prior, imported) && q in live
    ensures var b := Install(env, a, p, m, previous, preserve, prior, imported);
            Agrees(b, q) && HandlerAt(b, q) == HandlerAt(a, q)
  {
    assert Agrees(a, q);
    InstallFrame(env, a, p, m, previous, preserve, prior, imported);
    StillAgrees(a, Install(env, a, p, m, previous, preserve, prior, imported), q);
  }

  /** A new generation adds to the heaps, and files under its own path alone. */
  lemma InstallFrame(
    env: Env, a: App, p: string, m: Mock, previous: map<Key, nat>, preserve: set<Key>,
    prior: Option<StoreState>, imported: Option<seq<Entry>>)
    requires Spare(a, previous)
    ensures var b := Install(env, a, p, m, previous, preserve, prior, imported);
            && b.storage == a.storage && a.cursors <= b.cursors && a.stores <= b.stores
            && (forall q :: q != p ==> (q in b.sequences <==> q in a.sequences) && (q in b.recordings <==> q in a.recordings))
            && (forall q :: q != p && q in a.sequences ==> b.sequences[q] == a.sequences[q])
            && (forall q :: q != p && q in a.recordings ==> b.recordings[q] == a.recordings[q])
  {
    BuiltAgrees(a, m, previous, preserve);
  }

  lemma StillAgrees(a: App, b: App, q: string)
    requires Agrees(a, q) && b.storage == a.storage && a.cursors <= b.cursors && a.stores <= b.stores
    requires q in b.sequences && b.sequences[q] == a.sequences[q]
    requires (q in b.recordings <==> q in a.recordings) && (q in a.recordings ==> b.recordings[q] == a.recordings[q])
    ensures Agrees(b, q) && HandlerAt(b, q) == HandlerAt(a, q)
  {
  }

  lemma InstallAgrees(
    env: Env, a: App, live: set<string>, p: string, m: Mock, previous: map<Key, nat>, preserve: set<Key>,
    prior: Option<StoreState>, imported: Option<seq<Entry>>)
    requires CanInstall(env, a, live, p, m, previous, prior, imported)
    ensures Agrees(Install(env, a, p, m, previous, preserve, prior, imported), p)
  {
    BuiltAgrees(a, m, previous, preserve);
    var b := BuildAll(m, previous, preserve, a.cursors);
    assert m.sequence.Some? ==> SequenceOf(m, Default).Some?;
    forall i | 0 <= i < |RulesOf(m)| && RulesOf(m)[i].sequence.Some?
      ensures OfRule(i) in b.states
    {
      assert SequenceOf(m, OfRule(i)).Some?;
    }
  }

  lemma InstallUnshared(
    env: Env, a: App, live: set<string>, p: string, m: Mock, previous: map<Key, nat>, preserve: set<Key>,
    prior: Option<StoreState>, imported: Option<seq<Entry>>)
    requires CanInstall(env, a, live, p, m, previous, prior, imported)
    ensures Unshared(Install(env, a, p, m, previous, preserve, prior, imported))
  {
    var b := Install(env, a, p, m, previous, preserve, prior, imported);
    assert OneCursorEach(b.sequences) by {
      OthersHaveOtherCursors(a, live, m, previous, preserve);
      AddCursors(a.sequences, p, BuildAll(m, previous, preserve, a.cursors).states);
    }
    assert OneStoreEach(b.recordings) by {
      forall q | q in a.recordings
        ensures a.recordings[q] < |a.stores|
      {
        assert Agrees(a, q);
      }
      AddStore(a.recordings, p, |a.stores|);
    }
  }

  /** One more mock whose cursors nobody else has. */
  lemma AddCursors(sequences: map<string, map<Key, nat>>, p: string, states: map<Key, nat>)
    requires OneCursorEach(sequences) && p !in sequences
    requires forall k, l :: k in states && l in states && states[k] == states[l] ==> k == l
    requires forall q, k, l :: q in sequences && k in sequences[q] && l in states ==> sequences[q][k] != states[l]
    ensures OneCursorEach(sequences[p := states])
  {
  }

  lemma AddStore(recordings: map<string, nat>, p: string, id: nat)
    requires OneStoreEach(recordings) && forall q :: q in recordings ==> recordings[q] != id
    ensures OneStoreEach(recordings[p := id])
  {
  }

  lemma OthersHaveOtherCursors(a: App, live: set<string>, m: Mock, previous: map<Key, nat>, preserve: set<Key>)
    requires Consistent(a, live) && Spare(a, previous)
    ensures var states := BuildAll(m, previous, preserve, a.cursors).states;
            && (forall k, l :: k in states && l in states && states[k] == states[l] ==> k == l)
            && forall q, k, l :: q in a.sequences && k in a.sequences[q] && l in states ==> a.sequences[q][k] != states[l]
  {
    BuiltAgrees(a, m, previous, preserve);
    var states := BuildAll(m, previous, preserve, a.cursors).states;
    forall q, k, l | q in a.sequences && k in a.sequences[q] && l in states
      ensures a.sequences[q][k] != states[l]
    {
      assert Agrees(a, q);
    }
  }

  /** The routes of one more mock, installed without changing any other handler. */
  lemma RoutesExtend(a: App, b: App, live: set<string>, p: string, handler: Handler)
    requires RoutesAgree(a, live) && p !in live && Settled(p)
    requires b.routes == a.routes + RoutesOfMock(p, handler) && HandlerAt(b, p) == Some(handler)
    requires forall q :: q in live ==> HandlerAt(b, q) == HandlerAt(a, q)
    ensures RoutesAgree(b, live + {p})
  {
    SettledFacts(p);
    AppendedRoutes(a, live, p, handler);
    forall r | r in b.routes
      ensures RouteAgrees(b, live + {p}, r)
    {
      if r in a.routes {
        assert RouteAgrees(a, live, r);
      } else {
        assert r in RoutesOfMock(p, handler) && r.path in Candidates(p);
      }
    }
  }

  lemma InstallRoutes(
    env: Env, a: App, live: set<string>, p: string, m: Mock, previous: map<Key, nat>, preserve: set<Key>,
    prior: Option<StoreState>, imported: Option<seq<Entry>>)
    requires CanInstall(env, a, live, p, m, previous, prior, imported)
    ensures RoutesAgree(Install(env, a, p, m, previous, preserve, prior, imported), live + {p})
  {
    var b := Install(env, a, p, m, previous, preserve, prior, imported);
    forall q | q in live
      ensures HandlerAt(b, q) == HandlerAt(a, q)
    {
      InstallKeepsOthers(env, a, live, p, m, previous, preserve, prior, imported, q);
    }
    RoutesExtend(a, b, live, p, HandlerAt(b, p).value);
  }

  lemma NoRouteYet(a: App, live: set<string>, p: string)
    requires RoutesAgree(a, live) && p !in live && Settled(p)
    ensures forall c :: c in Candidates(p) ==> !HasRoute(a.routes, c)
  {
    SettledFacts(p);
    forall c | c in Candidates(p)
      ensures !HasRoute(a.routes, c)
    {
      HasRouteIff(a.routes, c);
      assert forall r :: r in a.routes ==> RouteAgrees(a, live, r);
    }
  }

  /** Appending the routes of a path that had none keeps routes distinct. */
  lemma AppendedRoutes(a: App, live: set<string>, p: string, handler: Handler)
    requires RoutesAgree(a, live) && p !in live && Settled(p)
    ensures DistinctRoutes(a.routes + RoutesOfMock(p, handler))
    ensures forall c :: HasRoute(a.routes + RoutesOfMock(p, handler), c) <==> HasRoute(a.routes, c) || c in Candidates(p)
  {
    SettledFacts(p);
    NoRouteYet(a, live, p);
    var first := Route(p, handler);
    AppendRoute(a.routes, first);
    if p == "/" {
      assert RoutesOfMock(p, handler) == [first];
    } else {
      AppendRoute(a.routes + [first], Route(p + "/", handler));
      assert a.routes + [first] + [Route(p + "/", handler)] == a.routes + RoutesOfMock(p, handler);
    }
  }

  lemma InstallActive(
    env: Env, a: App, live: set<string>, p: string, m: Mock, previous: map<Key, nat>, preserve: set<Key>,
    prior: Option<StoreState>, imported: Option<seq<Entry>>)
    requires p !in live && a.recordings.Keys <= live && OnlyOwnedActive(a)
    ensures OnlyOwnedActive(Install(env, a, p, m, previous, preserve, prior, imported))
  {
    var b := Install(env, a, p, m, previous, preserve, prior, imported);
    forall i | 0 <= i < |b.stores| && b.stores[i].active
      ensures exists q :: q in b.recordings && b.recordings[q] == i
    {
      if i < |a.stores| {
        var q :| q in a.recordings && a.recordings[q] == i;
        assert q in b.recordings && b.recordings[q] == i;
      } else {
        assert b.recordings[p] == i;
      }
    }
  }

  lemma InstallConsistent(
    env: Env, a: App, live: set<string>, p: string, m: Mock, previous: map<Key, nat>, preserve: set<Key>,
    prior: Option<StoreState>, imported: Option<seq<Entry>>)
    requires CanInstall(env, a, live, p, m, previous, prior, imported)
    ensures Consistent(Install(env, a, p, m, previous, preserve, prior, imported), live + {p})
    ensures HeapOk(env.codec, Install(env, a, p, m, previous, preserve, prior, imported))
  {
    var b := Install(env, a, p, m, previous, preserve, prior, imported);
    forall q | q in live
      ensures Agrees(b, q)
    {
      InstallKeepsOthers(env, a, live, p, m, previous, preserve, prior, imported, q);
    }
    InstallAgrees(env, a, live, p, m, previous, preserve, prior, imported);
    InstallRoutes(env, a, live, p, m, previous, preserve, prior, imported);
    InstallUnshared(env, a, live, p, m, previous, preserve, prior, imported);
    InstallHeapOk(env, a, p, m, previous, preserve, prior, imported);
    InstallActive(env, a, live, p, m, previous, preserve, prior, imported);
  }
}
