/**
 * What an update of one mock does to everything else, what it hands over to its own next generation,
 * and exactly when it keeps the four structures in agreement.
 */
module AdminEffects {
  import opened Wrappers
  import opened Json
  import opened Paths
  import opened Recordings
  import opened Store
  import opened Mocks
  import opened Sequences
  import opened Lifecycle
  import opened LifecycleProofs
  import opened Admin

  /**
   * The heap after a new generation at any path: nothing moves, and the store that the path owned
   * under the next normalization is retired.
   */
  lemma GenerationHeap(
    env: Env, a: App, m: Mock, preserve: set<Key>, keepRecordings: bool, imported: Option<seq<Entry>>)
    ensures var b := Generation(env, a, m, preserve, keepRecordings, imported);
            var key: string := Renormalize(m.path);
            && |a.stores| <= |b.stores| && |a.cursors| <= |b.cursors|
            && (forall i :: 0 <= i < |a.cursors| ==> b.cursors[i] == a.cursors[i])
            && forall i :: 0 <= i < |a.stores| ==>
                 b.stores[i] == if key in a.recordings && a.recordings[key] == i then Retired(a.stores[i]) else a.stores[i]
  {
    var p: string := m.path;
    var previous := if p in a.sequences then a.sequences[p] else map[];
    BuildShape(m, previous, preserve, a.cursors, |AllKeys(m)|);
    var b := BuildAll(m, previous, preserve, a.cursors);
    assert forall i :: 0 <= i < |a.cursors| ==> b.cursors[i] == b.cursors[..|a.cursors|][i];
  }

  /** Where a generation files what: storage one normalization further than the runtime state. */
  lemma GenerationFiles(
    env: Env, a: App, m: Mock, preserve: set<Key>, keepRecordings: bool, imported: Option<seq<Entry>>)
    ensures var b := Generation(env, a, m, preserve, keepRecordings, imported);
            var path: string := m.path;
            var key: string := Renormalize(m.path);
            && b.storage == SetMock(a.storage, Filed(m))
            && PathsOf(b.storage) == PathsOf(a.storage) + {key}
            && b.sequences.Keys == a.sequences.Keys - {key} + {path}
  {
    StoredPaths(a.storage, Filed(m), Renormalize(m.path));
  }

  /** What other paths own stays theirs. */
  lemma GenerationMaps(
    env: Env, a: App, m: Mock, preserve: set<Key>, keepRecordings: bool, imported: Option<seq<Entry>>, q: string)
    requires q != m.path && q != Renormalize(m.path)
    ensures var b := Generation(env, a, m, preserve, keepRecordings, imported);
            && (q in b.sequences <==> q in a.sequences) && (q in b.recordings <==> q in a.recordings)
            && (q in a.sequences ==> b.sequences[q] == a.sequences[q])
            && (q in a.recordings ==> b.recordings[q] == a.recordings[q])
  {
  }

  /** A settled path that a generation is not filed under is not where it lands either. */
  lemma LandsElsewhere(m: Mock, q: string)
    requires Settled(q) && Renormalize(m.path) != q
    ensures m.path != q
  {
    FixedIffSettled(q);
  }

  /** A path is as it was: configuration, cursors and their positions, and store. */
  predicate Untouched(a: App, b: App, q: string) {
    && MockAt(b.storage, q) == MockAt(a.storage, q)
    && q in a.sequences && q in b.sequences && b.sequences[q] == a.sequences[q]
    && (forall k :: k in a.sequences[q] ==>
          a.sequences[q][k] < |a.cursors| && a.sequences[q][k] < |b.cursors|
          && b.cursors[a.sequences[q][k]] == a.cursors[a.sequences[q][k]])
    && StoreAt(b, q) == StoreAt(a, q)
  }

  /** Every store that is owned exists and has one owner. */
  predicate Separate(a: App) {
    OneStoreEach(a.recordings) && forall q :: q in a.recordings ==> a.recordings[q] < |a.stores|
  }

  lemma StoredIsThere(env: Env, a: App, q: string)
    requires AppOk(env, a)
    ensures Separate(a)
    ensures q in PathsOf(a.storage) ==> Settled(q) && Untouched(a, a, q)
  {
    forall p | p in a.recordings
      ensures a.recordings[p] < |a.stores|
    {
      assert Agrees(a, p);
    }
    if q in PathsOf(a.storage) {
      assert Agrees(a, q);
    }
  }

  lemma GenerationSeparate(
    env: Env, a: App, m: Mock, preserve: set<Key>, keepRecordings: bool, imported: Option<seq<Entry>>)
    requires Separate(a)
    ensures Separate(Generation(env, a, m, preserve, keepRecordings, imported))
  {
    GenerationHeap(env, a, m, preserve, keepRecordings, imported);
  }

  lemma GenerationLeaves(
    env: Env, a: App, m: Mock, preserve: set<Key>, keepRecordings: bool, imported: Option<seq<Entry>>, q: string)
    requires Separate(a) && Settled(q) && Untouched(a, a, q) && q != Renormalize(m.path)
    ensures Untouched(a, Generation(env, a, m, preserve, keepRecordings, imported), q)
  {
    LandsElsewhere(m, q);
    SetMockShape(a.storage, Filed(m));
    GenerationHeap(env, a, m, preserve, keepRecordings, imported);
    StoreElsewhere(env, a, m, preserve, keepRecordings, imported, q);
  }

  /** Updating one mock leaves configuration, cursors and store of every other untouched. */
  lemma OtherMocksUntouched(
    env: Env, a: App, m: Mock, preserve: set<Key>, keepRecordings: bool, imported: Option<seq<Entry>>, q: string)
    requires AppOk(env, a) && q in PathsOf(a.storage) && q != Renormalize(m.path)
    ensures Untouched(a, Generation(env, a, m, preserve, keepRecordings, imported), q)
  {
    StoredIsThere(env, a, q);
    GenerationLeaves(env, a, m, preserve, keepRecordings, imported, q);
  }

  /** A settled path keeps its store through a generation that is filed elsewhere. */
  lemma StoreElsewhere(
    env: Env, a: App, m: Mock, preserve: set<Key>, keepRecordings: bool, imported: Option<seq<Entry>>, q: string)
    requires OneStoreEach(a.recordings) && q != m.path && q != Renormalize(m.path)
    requires q in a.recordings ==> a.recordings[q] < |a.stores|
    ensures var b := Generation(env, a, m, preserve, keepRecordings, imported);
            && (q in b.sequences <==> q in a.sequences) && (q in a.sequences ==> b.sequences[q] == a.sequences[q])
            && StoreAt(b, q) == StoreAt(a, q)
  {
    GenerationHeap(env, a, m, preserve, keepRecordings, imported);
    GenerationMaps(env, a, m, preserve, keepRecordings, imported, q);
  }

  /** ... and so are its routes, with the handlers they had. */
  lemma OtherRoutesStay(
    env: Env, a: App, m: Mock, preserve: set<Key>, keepRecordings: bool, imported: Option<seq<Entry>>, r: Route)
    requires AppOk(env, a) && r in a.routes && Owner(r.path) != Renormalize(m.path)
    ensures r in Generation(env, a, m, preserve, keepRecordings, imported).routes
  {
    assert RouteAgrees(a, PathsOf(a.storage), r);
    assert Agrees(a, Owner(r.path));
    CandidatesDisjoint(m.path, Owner(r.path));
    DropRoutesShape(a.routes, Candidates(m.path));
  }

  /** In agreement only settled paths have cursors or a store. */
  lemma OwnersSettle(env: Env, a: App, p: string)
    requires AppOk(env, a) && (p in a.sequences || p in a.recordings)
    ensures Settled(p)
  {
    assert Agrees(a, p);
  }

  lemma OwnStore(
    env: Env, a: App, m: Mock, preserve: set<Key>, keepRecordings: bool, imported: Option<seq<Entry>>)
    requires m.path in a.recordings ==> Renormalize(m.path) == m.path
    ensures var b := Generation(env, a, m, preserve, keepRecordings, imported);
            if m.recording.None? then StoreAt(b, m.path).None?
            else
              && StoreAt(b, m.path) == Some(NewStore(
                   env.codec, m.recording.value, if keepRecordings then StoreAt(a, m.path) else None, imported))
              && b.recordings[m.path] == |a.stores|
  {
  }

  /** What the updated path itself has afterwards. */
  lemma OwnGeneration(
    env: Env, a: App, m: Mock, preserve: set<Key>, keepRecordings: bool, imported: Option<seq<Entry>>)
    requires AppOk(env, a)
    ensures var b := Generation(env, a, m, preserve, keepRecordings, imported);
            && MockAt(b.storage, Renormalize(m.path)) == Some(Filed(m))
            && m.path in b.sequences
            && (m.recording.Some? ==>
                  && b.recordings[m.path] == |a.stores|
                  && StoreAt(b, m.path) == Some(NewStore(
                       env.codec, m.recording.value, if keepRecordings then StoreAt(a, m.path) else None, imported)))
            && (m.recording.None? ==> StoreAt(b, m.path).None?)
  {
    SetMockShape(a.storage, Filed(m));
    if m.path in a.recordings {
      OwnersSettle(env, a, m.path);
      SettledFacts(m.path);
    }
    OwnStore(env, a, m, preserve, keepRecordings, imported);
  }

  /**
   * A cursor is carried over exactly when its key is preserved and its definition unchanged;
   * otherwise the key gets a cursor that did not exist before, at position zero.
   */
  lemma OwnCursors(
    env: Env, a: App, m: Mock, preserve: set<Key>, keepRecordings: bool, imported: Option<seq<Entry>>, k: Key)
    requires AppOk(env, a) && SequenceOf(m, k).Some?
    ensures var b := Generation(env, a, m, preserve, keepRecordings, imported);
            var p := m.path;
            && p in b.sequences && k in b.sequences[p] && b.sequences[p][k] < |b.cursors|
            && b.cursors[b.sequences[p][k]].sequence == SequenceOf(m, k).value
            && if k in preserve && p in a.sequences && k in a.sequences[p]
                  && MockAt(a.storage, p).Some? && SequenceOf(MockAt(a.storage, p).value, k) == SequenceOf(m, k)
               then b.sequences[p][k] == a.sequences[p][k]
               else b.sequences[p][k] >= |a.cursors| && b.cursors[b.sequences[p][k]].position == 0
  {
    var p := m.path;
    var previous := if p in a.sequences then a.sequences[p] else map[];
    BuildShape(m, previous, preserve, a.cursors, |AllKeys(m)|);
    SequenceKeyIsListed(m, k);
    assert Assigned(m, previous, preserve, a.cursors, BuildAll(m, previous, preserve, a.cursors), k);
    if p in a.sequences {
      assert Agrees(a, p);
    }
  }

  /** The store that the new generation of a recording mock starts with. */
  lemma NextStore(env: Env, a: App, saved: Mock, m: Mock, preserve: set<Key>)
    requires AppOk(env, a) && Settled(m.path) && MockAt(a.storage, m.path) == Some(saved) && m.recording.Some?
    ensures KeepsRecordings(saved, m) ==> StoreAt(a, m.path).Some?
    ensures var b := Generation(env, a, m, preserve, KeepsRecordings(saved, m), None);
            var config := m.recording.value;
            StoreAt(b, m.path) ==
              if KeepsRecordings(saved, m) then
                Some(StoreState(config, Trimmed(StoreAt(a, m.path).value.slots, config.maxItems, config.maxBytes), 0, true))
              else Some(StoreState(config, [], 0, true))
  {
    OwnGeneration(env, a, m, preserve, KeepsRecordings(saved, m), None);
    MockAtIff(a.storage, m.path);
    assert Agrees(a, m.path);
    EmptyFits(m.recording.value.maxItems, m.recording.value.maxBytes);
  }

  /** The store of a path has been replaced by one with its entries, trimmed, and every request keeps its key. */
  ghost predicate HandsOver(a: App, b: App, p: string, config: Config) {
    && StoreAt(a, p).Some?
    && var before := StoreAt(a, p).value;
       && StoreAt(b, p) == Some(StoreState(config, Trimmed(before.slots, config.maxItems, config.maxBytes), 0, true))
       && a.recordings[p] < |b.stores| && b.stores[a.recordings[p]] == Retired(before)
       && forall q: Request :: Identity(config, q) == Identity(before.config, q)
  }

  lemma GenerationHandsOver(env: Env, a: App, saved: Mock, m: Mock, preserve: set<Key>)
    requires AppOk(env, a) && Settled(m.path) && MockAt(a.storage, m.path) == Some(saved) && KeepsRecordings(saved, m)
    ensures HandsOver(a, Generation(env, a, m, preserve, true, None), m.path, m.recording.value)
  {
    NextStore(env, a, saved, m, preserve);
    SettledFacts(m.path);
    GenerationHeap(env, a, m, preserve, true, None);
    MockAtIff(a.storage, m.path);
    HandedStore(env, a, saved);
    SameIdentity(saved.recording.value, m.recording.value);
  }

  /**
   * Lossless handover: a patch that keeps upstream and matching headers moves exactly the entries
   * of the retired store, in order, into a new store trimmed to the new limits, and every request
   * keeps its key; any other patch of a recording mock starts empty.
   */
  lemma Handover(env: Env, a: App, raw: string, changes: Object)
    requires AppOk(env, a) && SoundSchema(env.schema) && PatchMock(env, a, raw, changes).1.Success?
    ensures Normalize(raw).Some?
    ensures var b := PatchMock(env, a, raw, changes).0;
            var p: string := Addressed(raw);
            && MockAt(a.storage, p).Some? && MockAt(b.storage, p).Some?
            && var saved, m := MockAt(a.storage, p).value, MockAt(b.storage, p).value;
               m.recording.Some? ==>
                 if saved.recording.Some? && saved.recording.value.matchHeaders == m.recording.value.matchHeaders
                    && saved.proxyHost == m.proxyHost
                 then HandsOver(a, b, p, m.recording.value)
                 else StoreAt(b, p) == Some(StoreState(m.recording.value, [], 0, true))
  {
    PatchEffect(env, a, raw, changes);
    var saved, m := MockAt(a.storage, Addressed(raw)).value, Patched(env, a, raw, changes);
    FiledIsSame(m);
    OwnGeneration(env, a, m, PreservedKeys(changes, m), KeepsRecordings(saved, m), None);
    if m.recording.Some? {
      if KeepsRecordings(saved, m) {
        GenerationHandsOver(env, a, saved, m, PreservedKeys(changes, m));
      } else {
        NextStore(env, a, saved, m, PreservedKeys(changes, m));
      }
    }
  }

  lemma HandedStore(env: Env, a: App, saved: Mock)
    requires AppOk(env, a) && MockAt(a.storage, saved.path) == Some(saved) && saved.recording.Some?
    ensures StoreAt(a, saved.path).Some? && StoreAt(a, saved.path).value.config == saved.recording.value
  {
    MockAtIff(a.storage, saved.path);
    assert Agrees(a, saved.path);
  }

  lemma EmptyFits(maxItems: nat, maxBytes: nat)
    ensures Trimmed([], maxItems, maxBytes) == []
  {
  }

  /** The key of a request depends on the configuration only through its matching headers. */
  lemma SameIdentity(c: Config, d: Config)
    requires c.matchHeaders == d.matchHeaders
    ensures forall q: Request :: Identity(c, q) == Identity(d, q)
  {
  }

  /**
   * A successful PUT starts afresh, at whatever path: what it submits is stored there with new cursors
   * at zero and without recordings, whatever was there before, and every other mock is untouched.
   */
  lemma PutStartsAfresh(env: Env, a: App, raw: string, body: Object, k: Key, q: string)
    requires AppOk(env, a) && SoundSchema(env.schema) && PutSucceeds(env, raw, body)
    ensures PutMock(env, a, raw, body).1 == if MockAt(a.storage, Addressed(raw)).Some? then Success else Created
    ensures var b, m := PutMock(env, a, raw, body).0, Submitted(env, raw, body);
            && MockAt(b.storage, Renormalize(m.path)) == Some(Filed(m))
            && (SequenceOf(m, k).Some? ==> NewAtZero(a, b, m.path, k))
            && (m.recording.Some? ==> StoreAt(b, m.path) == Some(StoreState(m.recording.value, [], 0, true)))
            && (m.recording.None? ==> StoreAt(b, m.path).None?)
            && (q in PathsOf(a.storage) && q != Renormalize(m.path) ==> Untouched(a, b, q))
  {
    PutEffect(env, a, raw, body);
    FreshGeneration(env, a, Submitted(env, raw, body), k, q);
  }

  /** The cursor of a key did not exist before and has not moved. */
  predicate NewAtZero(a: App, b: App, p: string, k: Key) {
    && p in b.sequences && k in b.sequences[p] && |a.cursors| <= b.sequences[p][k] < |b.cursors|
    && b.cursors[b.sequences[p][k]].position == 0
  }

  lemma FreshGeneration(env: Env, a: App, m: Mock, k: Key, q: string)
    requires AppOk(env, a)
    ensures var b := Generation(env, a, m, {}, false, None);
            && MockAt(b.storage, Renormalize(m.path)) == Some(Filed(m))
            && (SequenceOf(m, k).Some? ==> NewAtZero(a, b, m.path, k))
            && (m.recording.Some? ==> StoreAt(b, m.path) == Some(StoreState(m.recording.value, [], 0, true)))
            && (m.recording.None? ==> StoreAt(b, m.path).None?)
            && (q in PathsOf(a.storage) && q != Renormalize(m.path) ==> Untouched(a, b, q))
  {
    OwnGeneration(env, a, m, {}, false, None);
    if m.recording.Some? {
      EmptyFits(m.recording.value.maxItems, m.recording.value.maxBytes);
    }
    if SequenceOf(m, k).Some? {
      OwnCursors(env, a, m, {}, false, None, k);
    }
    if q in PathsOf(a.storage) && q != Renormalize(m.path) {
      OtherMocksUntouched(env, a, m, {}, false, None, q);
    }
  }

  /** What a patch leaves unmentioned: the sequence of the mock, or all rules with theirs. */
  predicate Unmentioned(changes: Object, k: Key) {
    if k.Default? then "sequence" !in changes else "rules" !in changes
  }

  /** The cursor of a key after a patch: the old one if the patch left its sequence alone, else a new one. */
  predicate CarriesCursor(a: App, b: App, p: string, changes: Object, k: Key)
    requires MockAt(a.storage, p).Some? && MockAt(b.storage, p).Some?
  {
    var before, after := SequenceOf(MockAt(a.storage, p).value, k), SequenceOf(MockAt(b.storage, p).value, k);
    after.Some? ==>
      if Unmentioned(changes, k) && before == after
      then p in a.sequences && k in a.sequences[p] && p in b.sequences && k in b.sequences[p]
           && b.sequences[p][k] == a.sequences[p][k]
      else NewAtZero(a, b, p, k)
  }

  lemma GenerationCarries(env: Env, a: App, saved: Mock, m: Mock, changes: Object, keepRecordings: bool, k: Key)
    requires AppOk(env, a) && Settled(m.path) && MockAt(a.storage, m.path) == Some(saved)
    ensures var b := Generation(env, a, m, PreservedKeys(changes, m), keepRecordings, None);
            MockAt(b.storage, m.path) == Some(m) && CarriesCursor(a, b, m.path, changes, k)
  {
    SettledFacts(m.path);
    FiledIsSame(m);
    OwnGeneration(env, a, m, PreservedKeys(changes, m), keepRecordings, None);
    StoredIsThere(env, a, m.path);
    MockAtIff(a.storage, m.path);
    StoredCursors(env, a, saved, k);
    if SequenceOf(m, k).Some? {
      OwnCursors(env, a, m, PreservedKeys(changes, m), keepRecordings, None, k);
      PreservedIff(changes, m, k);
    }
  }

  /**
   * After a PATCH each sequence of the mock is served from the cursor it had, if the patch does not
   * mention it and its definition has not changed, and from a new one at zero otherwise.
   */
  lemma PatchCarriesCursors(env: Env, a: App, raw: string, changes: Object, k: Key)
    requires AppOk(env, a) && SoundSchema(env.schema) && PatchMock(env, a, raw, changes).1.Success?
    ensures Normalize(raw).Some?
    ensures var b := PatchMock(env, a, raw, changes).0;
            && MockAt(a.storage, Addressed(raw)).Some? && MockAt(b.storage, Addressed(raw)).Some?
            && CarriesCursor(a, b, Addressed(raw), changes, k)
  {
    PatchEffect(env, a, raw, changes);
    var saved, m := MockAt(a.storage, Addressed(raw)).value, Patched(env, a, raw, changes);
    GenerationCarries(env, a, saved, m, changes, KeepsRecordings(saved, m), k);
  }

  lemma PreservedIff(changes: Object, m: Mock, k: Key)
    requires SequenceOf(m, k).Some?
    ensures k in PreservedKeys(changes, m) <==> Unmentioned(changes, k)
  {
  }

  /** The cursors of a stored mock are those of its sequences. */
  lemma StoredCursors(env: Env, a: App, m: Mock, k: Key)
    requires AppOk(env, a) && MockAt(a.storage, m.path) == Some(m)
    ensures m.path in a.sequences && (k in a.sequences[m.path] <==> SequenceOf(m, k).Some?)
  {
    MockAtIff(a.storage, m.path);
    assert Agrees(a, m.path);
  }

  // ---------------------------------------------------------------- agreement, exactly

  /** What a deletion does to one store of the heap. */
  lemma DeletionInHeap(a: App, raw: string, key: Option<string>, id: nat)
    requires id < |a.stores|
    ensures var (b, status) := DeleteRecordings(a, raw, key);
            && b == a.(stores := b.stores) && |b.stores| == |a.stores|
            && b.stores[id] == (if Targets(a, raw, id) then Deleted(a.stores[id], key) else a.stores[id])
            && (Targets(a, raw, id) ==> (status.Success? <==> DeletionSucceeds(a.stores[id], key)))
  {
  }

  /**
   * Deleting one recording changes nothing but the store of its mock, and there no lookup but that of
   * its own key; it succeeds exactly if that store has an entry under the key.
   */
  lemma DeletionTakesOneKey(env: Env, a: App, raw: string, key: string, id: nat, other: string)
    requires AppOk(env, a) && id < |a.stores|
    ensures var (b, status) := DeleteRecordings(a, raw, Some(key));
            && b == a.(stores := b.stores) && |b.stores| == |a.stores|
            && (if Targets(a, raw, id) then Pops(a.stores[id].slots, b.stores[id].slots, key) else b.stores[id] == a.stores[id])
            && (LookUp(b.stores[id].slots, other)
                == if Targets(a, raw, id) && other == key then None else LookUp(a.stores[id].slots, other))
            && (Targets(a, raw, id) ==> (status.Success? <==> exists x :: x in a.stores[id].slots && x.entry.id == key))
  {
    DeletionInHeap(a, raw, Some(key), id);
    StoreIsOk(env.codec, a, id);
    HasKeyIff(a.stores[id].slots, key);
    DeletionPops(a.stores[id], key);
  }

  lemma StoreIsOk(codec: Codec, a: App, id: nat)
    requires HeapOk(codec, a) && id < |a.stores|
    ensures StoreOk(a.stores[id])
  {
    assert StoreWell(codec, a.stores[id]);
  }

  lemma StoredPathsSettle(env: Env, a: App)
    requires AppOk(env, a)
    ensures forall q :: q in PathsOf(a.storage) ==> Settled(q)
  {
    forall q | q in PathsOf(a.storage)
      ensures Settled(q)
    {
      assert Agrees(a, q);
    }
  }

  /**
   * From a state in agreement, storage and runtime state are filed under the same paths afterwards
   * exactly when the path has settled by the time the runtime state is filed.
   */
  lemma KeysAgreeIffSettled(
    env: Env, a: App, m: Mock, preserve: set<Key>, keepRecordings: bool, imported: Option<seq<Entry>>)
    requires AppOk(env, a)
    ensures var b := Generation(env, a, m, preserve, keepRecordings, imported);
            b.sequences.Keys == PathsOf(b.storage) <==> Settled(m.path)
  {
    FixedIffSettled(m.path);
    GenerationFiles(env, a, m, preserve, keepRecordings, imported);
    StoredPathsSettle(env, a);
  }

  /** Cursors are kept under a path that has not settled, or a mock is stored where none may be. */
  predicate Stray(env: Env, a: App) {
    (exists q :: q in a.sequences && !Settled(q)) || (exists m :: m in a.storage && !Admissible(env, m.path))
  }

  lemma StrayDisagrees(env: Env, a: App)
    requires Stray(env, a)
    ensures !AppOk(env, a)
  {
    if AppOk(env, a) {
      var q :| q in a.sequences && !Settled(q);
      OwnersSettle(env, a, q);
    }
  }

  /** No later generation mends that, and one that lands where no mock can be brings it about. */
  lemma GenerationStrays(
    env: Env, a: App, m: Mock, preserve: set<Key>, keepRecordings: bool, imported: Option<seq<Entry>>)
    requires Stray(env, a) || !Mountable(env, m.path)
    ensures Stray(env, Generation(env, a, m, preserve, keepRecordings, imported))
  {
    var b := Generation(env, a, m, preserve, keepRecordings, imported);
    GenerationFiles(env, a, m, preserve, keepRecordings, imported);
    if !Settled(m.path) {
      assert m.path in b.sequences;
    } else if q :| q in a.sequences && !Settled(q) {
      SettledFacts(m.path);
      assert q in b.sequences;
    } else {
      FiledIsSame(m);
      InadmissibleStays(env, a.storage, m);
    }
  }

  lemma InadmissibleStays(env: Env, storage: seq<Mock>, m: Mock)
    requires !Admissible(env, m.path) || exists x :: x in storage && !Admissible(env, x.path)
    ensures exists x :: x in SetMock(storage, m) && !Admissible(env, x.path)
  {
    var s := SetMock(storage, m);
    SetMockShape(storage, m);
    MockAtIff(s, m.path);
    if x :| x in storage && !Admissible(env, x.path) {
      StoredPaths(storage, m, m.path);
      MockAtIff(s, x.path);
    }
  }

  /** A new generation keeps the invariant exactly if it lands on a settled path that may be mocked. */
  lemma GenerationOkIff(
    env: Env, a: App, m: Mock, preserve: set<Key>, keepRecordings: bool, imported: Option<seq<Entry>>)
    requires AppOk(env, a) && Installable(env, a, m, keepRecordings, imported)
    ensures AppOk(env, Generation(env, a, m, preserve, keepRecordings, imported)) <==> Mountable(env, m.path)
  {
    if Mountable(env, m.path) {
      GenerationOk(env, a, m, preserve, keepRecordings, imported);
    } else {
      GenerationStrays(env, a, m, preserve, keepRecordings, imported);
      StrayDisagrees(env, Generation(env, a, m, preserve, keepRecordings, imported));
    }
  }

  /** PUT keeps the invariant exactly if it fails or lands on a settled path that may be mocked. */
  lemma PutKeepsAgreementIff(env: Env, a: App, raw: string, body: Object)
    requires AppOk(env, a) && SoundSchema(env.schema)
    ensures AppOk(env, PutMock(env, a, raw, body).0) <==> GoodPut(env, raw, body)
  {
    PutEffect(env, a, raw, body);
    if PutSucceeds(env, raw, body) {
      GenerationOkIff(env, a, Submitted(env, raw, body), {}, false, None);
    }
  }

  lemma ChecksPass(env: Env, raw: string, identity: RootedPath, next: RootedPath, last: RootedPath, body: Object)
    requires Normalize(raw) == Some(identity) && Normalize(identity) == Some(next) && Normalize(next) == Some(last)
    requires !Reserved(env.prefix, next) && env.compiles(next) && !Reserved(env.prefix, last) && env.compiles(last)
    requires "path" !in body && env.schema(WithPath(body, identity)).Some?
    ensures PutSucceeds(env, raw, body) && Landing(raw) == Renormalize(last)
  {
  }

  /** A PUT may succeed and leave the structures in disagreement, behind any path with four such layers. */
  lemma PutCanDisagree(env: Env, a: App, path: RootedPath, body: Object)
    requires AppOk(env, a) && SoundSchema(env.schema)
    requires var second, third := Layer(Layer(path)) + " ", Layer(path) + " ";
             !Reserved(env.prefix, second) && env.compiles(second) && !Reserved(env.prefix, third) && env.compiles(third)
    requires "path" !in body && env.schema(body["path" := Str(Layer(Layer(Layer(path))) + " ")]).Some?
    ensures var (b, status) := PutMock(env, a, Deep(path), body); status in {Success, Created} && !AppOk(env, b)
  {
    DeepNormalizes(path);
    var identity: RootedPath := Layer(Layer(Layer(path))) + " ";
    ChecksPass(env, Deep(path), identity, Layer(Layer(path)) + " ", Layer(path) + " ", body);
    var landing := path + " ";
    assert Landing(Deep(path)) == landing && !Settled(landing);
    PutInstalls(env, a, Deep(path), body);
    PutKeepsAgreementIff(env, a, Deep(path), body);
  }

  lemma LastCheckFails(env: Env, a: App, raw: string, identity: RootedPath, next: RootedPath, body: Object)
    requires Normalize(raw) == Some(identity)
    requires ValidatePath(env.prefix, env.compiles, identity) == Some(next)
    requires ValidatePath(env.prefix, env.compiles, next).None?
    requires "path" !in body && env.schema(WithPath(body, identity)).Some?
    ensures PutMock(env, a, raw, body) == (a, Crashed)
  {
  }

  /** A PUT may pass validation and fail all the same, since its path is normalized once more. */
  lemma PutCanFailLate(env: Env, a: App, body: Object)
    requires Settled(env.prefix) && env.compiles(env.prefix + " ")
    requires "path" !in body && env.schema(body["path" := Str(Layer(env.prefix) + " ")]).Some?
    ensures PutMock(env, a, Layer(Layer(env.prefix)), body) == (a, Crashed)
  {
    ReservedLayers(env.prefix);
    LastCheckFails(env, a, Layer(Layer(env.prefix)), Layer(env.prefix) + " ", env.prefix + " ", body);
  }
}
