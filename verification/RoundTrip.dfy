/**
 * The snapshot round trip: exporting never misses a store, and importing the exported document
 * restores configuration and recordings with cursors at zero.
 */
module RoundTrip {
  import opened Wrappers
  import opened Json
  import opened Paths
  import opened Recordings
  import opened Store
  import opened SnapshotCodec
  import opened Mocks
  import opened Rules
  import opened Lifecycle
  import opened LifecycleProofs
  import opened Admin
  import opened Snapshot
  import opened SnapshotProofs
  import opened ImportEffects

  // ---------------------------------------------------------------- export

  /** The parser reads back every stored configuration, as it does whatever it has accepted. */
  predicate StorageAccepted(env: Env, a: App) {
    forall m :: m in a.storage ==> ReadsBack(env.schema, m)
  }

  /** Everything a store retains may be imported again. */
  predicate ExportsImportable(env: Env, a: App) {
    forall m :: m in a.storage && m.recording.Some? && StoreAt(a, m.path).Some? ==>
      Importable(m.recording.value, env.codec.hash, env.codec.size, Store.Entries(StoreAt(a, m.path).value.slots))
  }

  /** An application whose export can be read back. */
  ghost predicate Exportable(env: Env, a: App) {
    AppOk(env, a) && StorageAccepted(env, a) && ExportsImportable(env, a)
  }

  /** What a reader of the export obtains for one mock. */
  function ParsedOf(a: App, m: Mock): Parsed {
    Parsed(m, if m.recording.Some? then Some(RecordingsAt(a, m.path)) else None)
  }

  function AllParsedOf(a: App, mocks: seq<Mock>): seq<Parsed> {
    seq(|mocks|, i requires 0 <= i < |mocks| => ParsedOf(a, mocks[i]))
  }

  /** A stored mock whose export can be read back. */
  ghost predicate Portable(env: Env, a: App, m: Mock) {
    && Settled(m.path) && ValidMock(m) && Admissible(env, m.path)
    && (StoreAt(a, m.path).Some? <==> m.recording.Some?)
    && (m.recording.Some? ==> Importable(m.recording.value, env.codec.hash, env.codec.size, RecordingsAt(a, m.path)))
    && ReadsBack(env.schema, m)
  }

  ghost predicate AllPortable(env: Env, a: App, mocks: seq<Mock>) {
    forall m :: m in mocks ==> Portable(env, a, m)
  }

  lemma StoredFacts(env: Env, a: App, m: Mock)
    requires AppOk(env, a) && m in a.storage
    ensures Settled(m.path) && ValidMock(m) && Admissible(env, m.path) && MockAt(a.storage, m.path) == Some(m)
    ensures StoreAt(a, m.path).Some? <==> m.recording.Some?
    ensures m.recording.Some? ==> StoreAt(a, m.path).value.config == m.recording.value
  {
    MockAtOfMember(a.storage, m);
    assert m.path in PathsOf(a.storage);
    assert Agrees(a, m.path);
  }

  lemma StoredIsPortable(env: Env, a: App)
    requires AppOk(env, a) && StorageAccepted(env, a) && ExportsImportable(env, a)
    ensures AllPortable(env, a, a.storage)
  {
    forall m | m in a.storage
      ensures Portable(env, a, m)
    {
      StoredFacts(env, a, m);
    }
  }

  /** Export never misses a store, because the four structures agree. */
  lemma ExportNeverFails(env: Env, a: App, version: string)
    requires AppOk(env, a)
    ensures Export(a, version).Some?
  {
    forall m | m in a.storage
      ensures ExportMock(a, m).Some?
    {
      StoredFacts(env, a, m);
    }
    ExportsAll(a, a.storage);
  }

  lemma {:induction false} ExportsAll(a: App, mocks: seq<Mock>)
    requires forall m :: m in mocks ==> ExportMock(a, m).Some?
    ensures ExportMocks(a, mocks).Some? && |ExportMocks(a, mocks).value| == |mocks|
    ensures forall i :: 0 <= i < |mocks| ==> ExportMock(a, mocks[i]) == Some(ExportMocks(a, mocks).value[i])
  {
    if mocks != [] {
      assert mocks[0] in mocks && forall m :: m in mocks[1..] ==> m in mocks;
      ExportsAll(a, mocks[1..]);
      var first, rest := ExportMock(a, mocks[0]).value, ExportMocks(a, mocks[1..]).value;
      assert forall i :: 0 < i < |mocks| ==> mocks[i] == mocks[1..][i - 1] && ([first] + rest)[i] == rest[i - 1];
    }
  }

  lemma EncodingKeepsFields(o: Object)
    ensures EncodeMock(o).Keys == o.Keys
    ensures forall k :: k in o && k != "mock_data" && k != "rules" && k != "sequence" ==> EncodeMock(o)[k] == o[k]
  {
    ConvertMockBack(o, ENCODING, ENCODING);
    var fr: Convert := r => MapRules(r, ENCODING);
    var fs: Convert := s => MapSequence(s, ENCODING);
    Mapped(o, "mock_data", ENCODING, "rules", fr, "sequence", fs);
  }

  lemma ExportedFields(m: Mock)
    requires ValidMock(m)
    ensures var o := EncodeMock(Dump(m));
            && Field(o, "path") == Str(m.path) && Truthy(Field(o, "path"))
            && ConvertMock(o, DECODING) == Ok(Dump(m))
            && Dump(m) - {"cache_time"} == Dump(m) && !StaleCacheTime(Dump(m))
            && Field(Dump(m), "path") == Str(m.path)
  {
    EncodingKeepsFields(Dump(m));
    ExportDecodes(m);
    DumpedPath(m);
  }

  lemma DumpedPath(m: Mock)
    requires ValidMock(m)
    ensures "path" in Dump(m) && Dump(m)["path"] == Str(m.path) && m.path != "" && "cache_time" !in Dump(m)
    ensures "path" != "mock_data" && "path" != "rules" && "path" != "sequence"
  {
  }

  lemma PortableParsedWell(env: Env, a: App, m: Mock)
    requires Portable(env, a, m)
    ensures ParsedWell(env, ParsedOf(a, m)) && ExportMock(a, m).Some?
  {
  }

  /** Parsing one exported mock gives back its configuration and recordings. */
  lemma ExportedMockParses(env: Env, a: App, m: Mock, seen: set<string>)
    requires Portable(env, a, m) && m.path !in seen
    ensures ExportMock(a, m).Some?
    ensures ParseMock(env, 2, ExportMock(a, m).value, seen) == Ok(ParsedOf(a, m))
  {
    ExportedFields(m);
    FixedIffSettled(m.path);
    ParsesTo(env, ExportMock(a, m).value, Dump(m), m.path, m, seen);
  }

  /** Validation of one mock whose fields are read back as they are. */
  lemma ParsesTo(env: Env, raw: RawMock, data: Object, path: RootedPath, m: Mock, seen: set<string>)
    requires raw.RawMock? && Truthy(Field(raw.fields, "path")) && ConvertMock(raw.fields, DECODING) == Ok(data)
    requires !StaleCacheTime(data) && data - {"cache_time"} == data
    requires env.schema(data).Some? && env.schema(data).value.(path := path) == m
    requires Field(data, "path") == Str(path) && Normalize(path) == Some(path) && env.compiles(path) && m.path !in seen
    requires raw.recordings.Some? <==> m.recording.Some?
    requires raw.recordings.Some? ==> raw.recordings.value.Entries?
    requires raw.recordings.Some? ==>
               Importable(m.recording.value, env.codec.hash, env.codec.size, raw.recordings.value.list)
    ensures ParseMock(env, 2, raw, seen)
            == Ok(Parsed(m, if raw.recordings.Some? then Some(raw.recordings.value.list) else None))
  {
  }

  /** A parser that reads every element of a list back. */
  predicate ParsesBack(parse: Parser, a: App, mocks: seq<Mock>, raws: seq<RawMock>, k: nat)
    requires k < |mocks| == |raws|
  {
    mocks[k].path !in PathsOf(mocks[..k]) ==> parse(raws[k], PathsOf(mocks[..k])) == Ok(ParsedOf(a, mocks[k]))
  }

  lemma {:induction false} ExportParses(parse: Parser, a: App, mocks: seq<Mock>, raws: seq<RawMock>, n: nat)
    requires DistinctPaths(mocks) && n <= |mocks| == |raws|
    requires forall k :: 0 <= k < |mocks| ==> ParsesBack(parse, a, mocks, raws, k)
    ensures ParseEach(parse, raws, n) == Ok(AllParsedOf(a, mocks[..n]))
  {
    if n > 0 {
      ExportParses(parse, a, mocks, raws, n - 1);
      PathNotBefore(mocks, n - 1);
      ParsedPathsOf(a, mocks[..n - 1]);
      assert ParsesBack(parse, a, mocks, raws, n - 1);
      assert AllParsedOf(a, mocks[..n]) == AllParsedOf(a, mocks[..n - 1]) + [ParsedOf(a, mocks[n - 1])];
    }
  }

  lemma ParsedPathsOf(a: App, mocks: seq<Mock>)
    ensures ParsedPaths(AllParsedOf(a, mocks)) == PathsOf(mocks)
  {
    var ps := AllParsedOf(a, mocks);
    forall q
      ensures q in ParsedPaths(ps) <==> q in PathsOf(mocks)
    {
      if q in ParsedPaths(ps) {
        var i :| 0 <= i < |ps| && ps[i].mock.path == q;
        assert mocks[i] in mocks;
      }
      if q in PathsOf(mocks) {
        var i :| 0 <= i < |mocks| && mocks[i].path == q;
        assert ps[i] in ps;
      }
    }
  }

  lemma {:induction false} PathNotBefore(storage: seq<Mock>, n: nat)
    requires DistinctPaths(storage) && n < |storage|
    ensures storage[n].path !in PathsOf(storage[..n])
  {
    if n > 0 {
      PathNotBefore(storage[1..], n - 1);
      assert storage[..n] == [storage[0]] + storage[1..][..n - 1];
      MockAtIff(storage[1..], storage[0].path);
      assert storage[n] in storage[1..];
    }
  }

  lemma ExportedIsReady(env: Env, a: App, mocks: seq<Mock>)
    requires AllPortable(env, a, mocks)
    ensures AllReady(env, AllParsedOf(a, mocks))
  {
    var ps := AllParsedOf(a, mocks);
    forall p | p in ps
      ensures Ready(env, p)
    {
      var i :| 0 <= i < |ps| && ps[i] == p;
      assert Portable(env, a, mocks[i]);
      PortableParsedWell(env, a, mocks[i]);
    }
  }

  lemma {:induction false} ExportedIsDistinct(a: App, mocks: seq<Mock>)
    requires DistinctPaths(mocks)
    ensures DistinctParsed(AllParsedOf(a, mocks))
  {
    if mocks != [] {
      assert AllParsedOf(a, mocks)[1..] == AllParsedOf(a, mocks[1..]);
      ExportedIsDistinct(a, mocks[1..]);
      ParsedPathsOf(a, mocks[1..]);
      MockAtIff(mocks[1..], mocks[0].path);
    }
  }

  lemma ReadyStays(env: Env, p: Parsed)
    requires Ready(env, p)
    ensures !Trapped(env, p) && Landed(p) == p && Parsed(p.mock.(path := p.mock.path), p.entries) == p
  {
    SettledFacts(p.mock.path);
    assert p.mock.(path := p.mock.path) == p.mock;
  }

  /** Neither the second check nor the mutation loop changes what is ready. */
  lemma {:induction false} ReadyIsReached(env: Env, parsed: seq<Parsed>)
    requires AllReady(env, parsed)
    ensures Revalidated(env, parsed) == Some(parsed) && Reached(env, parsed) == parsed && !AnyTrapped(env, parsed)
  {
    if parsed != [] {
      ReadyParts(env, parsed);
      assert parsed == [parsed[0]] + parsed[1..];
      ReadyStays(env, parsed[0]);
      ReadyIsReached(env, parsed[1..]);
    }
  }

  /** Importing an exported document means installing exactly what was exported. */
  lemma ImportOfExport(env: Env, a: App, version: string, target: App, replace: bool)
    requires AppOk(env, a) && StorageAccepted(env, a) && ExportsImportable(env, a)
    ensures Export(a, version).Some? && Installed(env, Export(a, version).value) == AllParsedOf(a, a.storage)
    ensures Import(env, target, Export(a, version).value, replace)
            == (InstallAll(env, StartOf(target, replace), AllParsedOf(a, a.storage)), Imported)
    ensures AllReady(env, AllParsedOf(a, a.storage)) && DistinctParsed(AllParsedOf(a, a.storage))
  {
    ExportNeverFails(env, a, version);
    StoredIsPortable(env, a);
    PortableImports(env, a, version);
    LoopInstalls(env, StartOf(target, replace), AllParsedOf(a, a.storage));
    ExportedIsReady(env, a, a.storage);
    ReadyIsReached(env, AllParsedOf(a, a.storage));
  }

  lemma PortableImports(env: Env, a: App, version: string)
    requires AllPortable(env, a, a.storage) && DistinctPaths(a.storage) && Export(a, version).Some?
    ensures Validated(env, Export(a, version).value) == Some(AllParsedOf(a, a.storage))
    ensures AllReady(env, AllParsedOf(a, a.storage)) && DistinctParsed(AllParsedOf(a, a.storage))
  {
    PortableParses(env, a);
    ExportedIsReady(env, a, a.storage);
    ExportedIsDistinct(a, a.storage);
    ReadyIsReached(env, AllParsedOf(a, a.storage));
  }

  lemma PortableParses(env: Env, a: App)
    requires AllPortable(env, a, a.storage) && DistinctPaths(a.storage) && ExportMocks(a, a.storage).Some?
    ensures var raws := ExportMocks(a, a.storage).value;
            ParseEach(MockParser(env, 2), raws, |raws|) == Ok(AllParsedOf(a, a.storage))
  {
    var mocks := a.storage;
    forall m | m in mocks
      ensures ExportMock(a, m).Some?
    {
      PortableParsedWell(env, a, m);
    }
    ExportsAll(a, mocks);
    var raws := ExportMocks(a, mocks).value;
    forall k | 0 <= k < |mocks|
      ensures ParsesBack(MockParser(env, 2), a, mocks, raws, k)
    {
      assert mocks[k] in mocks;
      if mocks[k].path !in PathsOf(mocks[..k]) {
        ExportedMockParses(env, a, mocks[k], PathsOf(mocks[..k]));
      }
    }
    ExportParses(MockParser(env, 2), a, mocks, raws, |raws|);
    assert mocks[..|mocks|] == mocks;
  }

  // ---------------------------------------------------------------- the round trip

  lemma StillFresh(storage: seq<Mock>, m: Mock, others: seq<Mock>)
    requires MockAt(storage, m.path).None? && MockAt(others, m.path).None?
    requires forall x :: x in others ==> MockAt(storage, x.path).None?
    ensures forall x :: x in others ==> MockAt(storage + [m], x.path).None?
  {
    SetFresh(storage, m);
    SetMockShape(storage, m);
    MockAtIff(others, m.path);
    assert forall x :: x in others ==> x.path in PathsOf(others) && x.path != m.path;
  }

  lemma {:induction false} SetAllFresh(storage: seq<Mock>, a: App, mocks: seq<Mock>)
    requires DistinctPaths(mocks) && forall m :: m in mocks ==> MockAt(storage, m.path).None?
    ensures SetAll(storage, AllParsedOf(a, mocks)) == storage + mocks
    decreases |mocks|
  {
    if mocks == [] {
      assert storage + mocks == storage;
    } else {
      var m := mocks[0];
      assert mocks == [m] + mocks[1..] && AllParsedOf(a, mocks)[1..] == AllParsedOf(a, mocks[1..]);
      SetFresh(storage, m);
      StillFresh(storage, m, mocks[1..]);
      SetAllFresh(storage + [m], a, mocks[1..]);
      assert storage + [m] + mocks[1..] == storage + mocks;
    }
  }

  lemma {:induction false} SetFresh(storage: seq<Mock>, m: Mock)
    requires MockAt(storage, m.path).None?
    ensures SetMock(storage, m) == storage + [m]
  {
    if storage != [] {
      SetFresh(storage[1..], m);
      assert storage == [storage[0]] + storage[1..];
    }
  }

  lemma {:induction false} SetSame(storage: seq<Mock>, m: Mock)
    requires MockAt(storage, m.path) == Some(m)
    ensures SetMock(storage, m) == storage
  {
    if storage[0].path != m.path {
      SetSame(storage[1..], m);
    }
    assert storage == [storage[0]] + storage[1..];
  }

  lemma {:induction false} SetAllSame(storage: seq<Mock>, a: App, mocks: seq<Mock>)
    requires forall m :: m in mocks ==> MockAt(storage, m.path) == Some(m)
    ensures SetAll(storage, AllParsedOf(a, mocks)) == storage
    decreases |mocks|
  {
    if mocks != [] {
      assert mocks == [mocks[0]] + mocks[1..] && AllParsedOf(a, mocks)[1..] == AllParsedOf(a, mocks[1..]);
      SetSame(storage, mocks[0]);
      SetAllSame(storage, a, mocks[1..]);
    }
  }

  /** Same configuration and recordings, in the same order, with every cursor at zero. */
  predicate Restored(a: App, b: App) {
    && b.storage == a.storage
    && forall m :: m in a.storage ==>
         && RecordingsAt(b, m.path) == RecordingsAt(a, m.path)
         && (StoreAt(b, m.path).Some? <==> StoreAt(a, m.path).Some?)
         && AtStart(b, m.path)
  }

  lemma {:induction false} OnlyOneAt(parsed: seq<Parsed>, p: Parsed)
    requires DistinctParsed(parsed) && p in parsed
    ensures LastAt(parsed, p.mock.path) == Some(p)
  {
    LastAtIff(parsed[1..], p.mock.path);
    if p in parsed[1..] {
      OnlyOneAt(parsed[1..], p);
    }
  }

  lemma HoldsAllIsRestored(env: Env, a: App, b: App, start: App)
    requires AppOk(env, a) && b.storage == a.storage && DistinctParsed(AllParsedOf(a, a.storage))
    requires forall q :: EffectAt(start, b, AllParsedOf(a, a.storage), q)
    ensures Restored(a, b)
  {
    var ps := AllParsedOf(a, a.storage);
    forall m | m in a.storage
      ensures RecordingsAt(b, m.path) == RecordingsAt(a, m.path) && AtStart(b, m.path)
      ensures StoreAt(b, m.path).Some? <==> StoreAt(a, m.path).Some?
    {
      var i :| 0 <= i < |a.storage| && a.storage[i] == m;
      assert ps[i] in ps && ps[i] == ParsedOf(a, m);
      OnlyOneAt(ps, ps[i]);
      assert EffectAt(start, b, ps, m.path);
      StoredFacts(env, a, m);
    }
  }

  lemma {:induction false} SameExport(a: App, b: App, mocks: seq<Mock>)
    requires Restored(a, b) && forall m :: m in mocks ==> m in a.storage
    ensures ExportMocks(b, mocks) == ExportMocks(a, mocks)
  {
    if mocks != [] {
      assert mocks[0] in mocks && forall m :: m in mocks[1..] ==> m in mocks;
      SameExport(a, b, mocks[1..]);
      assert ExportMock(b, mocks[0]) == ExportMock(a, mocks[0]);
    }
  }

  /** Installing what was exported restores it, if storage ends up the same. */
  lemma InstalledIsRestored(env: Env, a: App, start: App)
    requires AppOk(env, a) && AppOk(env, start)
    requires AllReady(env, AllParsedOf(a, a.storage)) && DistinctParsed(AllParsedOf(a, a.storage))
    requires SetAll(start.storage, AllParsedOf(a, a.storage)) == a.storage
    ensures AppOk(env, InstallAll(env, start, AllParsedOf(a, a.storage)))
    ensures Restored(a, InstallAll(env, start, AllParsedOf(a, a.storage)))
  {
    var parsed := AllParsedOf(a, a.storage);
    InstallAllOk(env, start, parsed);
    InstallAllEffect(env, start, parsed);
    HoldsAllIsRestored(env, a, InstallAll(env, start, parsed), start);
  }

  /**
   * The snapshot round trip. A replacing import of an exported document, into any application,
   * succeeds and restores every configuration and every recording list in order, with all cursors
   * at zero; exporting again gives an equal document.
   */
  lemma SnapshotRoundTrip(env: Env, a: App, version: string, target: App)
    requires AppOk(env, a) && StorageAccepted(env, a) && ExportsImportable(env, a) && AppOk(env, target)
    ensures Export(a, version).Some?
    ensures var (b, r) := Import(env, target, Export(a, version).value, true);
            r.Imported? && AppOk(env, b) && Restored(a, b) && Export(b, version) == Export(a, version)
  {
    ImportOfExport(env, a, version, target, true);
    CleanupOk(env, target);
    SetAllFresh([], a, a.storage);
    assert [] + a.storage == a.storage;
    InstalledIsRestored(env, a, Cleanup(target));
    SameExport(a, InstallAll(env, Cleanup(target), AllParsedOf(a, a.storage)), a.storage);
  }

  /**
   * Merging an application's own export keeps every configuration and recording list and sets every
   * cursor to zero. Like a replacing import it puts routes into storage order.
   */
  lemma MergeOfOwnExport(env: Env, a: App, version: string)
    requires AppOk(env, a) && StorageAccepted(env, a) && ExportsImportable(env, a)
    ensures Export(a, version).Some?
    ensures var (b, r) := Import(env, a, Export(a, version).value, false);
            r.Imported? && AppOk(env, b) && Restored(a, b) && Export(b, version) == Export(a, version)
  {
    ImportOfExport(env, a, version, a, false);
    forall m | m in a.storage
      ensures MockAt(a.storage, m.path) == Some(m)
    {
      MockAtOfMember(a.storage, m);
    }
    SetAllSame(a.storage, a, a.storage);
    InstalledIsRestored(env, a, a);
    SameExport(a, InstallAll(env, a, AllParsedOf(a, a.storage)), a.storage);
  }
}
