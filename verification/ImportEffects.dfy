/**
 * What an import leaves behind: at each path what came last for it, everything else untouched; and
 * exactly when every mock of a document is there afterwards.
 */
module ImportEffects {
  import opened Wrappers
  import opened Json
  import opened Paths
  import opened Recordings
  import opened Store
  import opened Mocks
  import opened Lifecycle
  import opened LifecycleProofs
  import opened Admin
  import opened AdminEffects
  import opened Snapshot
  import opened SnapshotProofs

  // ---------------------------------------------------------------- path by path

  /** Every cursor of a path is at its start. */
  predicate AtStart(a: App, p: string) {
    p in a.sequences && forall k :: k in a.sequences[p] ==>
      a.sequences[p][k] < |a.cursors| && a.cursors[a.sequences[p][k]].position == 0
  }

  /** The recordings of a path in eviction order; empty for a mock that does not record. */
  function RecordingsAt(a: App, p: string): seq<Entry> {
    var s := StoreAt(a, p);
    if s.None? then [] else Store.Entries(s.value.slots)
  }

  /** A path holds exactly what was imported for it. */
  predicate Holds(a: App, p: Parsed) {
    && MockAt(a.storage, p.mock.path) == Some(p.mock)
    && AtStart(a, p.mock.path)
    && RecordingsAt(a, p.mock.path) == p.entries.GetOr([])
    && (StoreAt(a, p.mock.path).Some? <==> p.mock.recording.Some?)
  }

  lemma UntouchedHolds(a: App, b: App, p: Parsed)
    requires Holds(a, p) && Untouched(a, b, p.mock.path)
    ensures Holds(b, p)
  {
  }

  lemma NextHolds(env: Env, a: App, p: Parsed)
    requires AppOk(env, a) && Ready(env, p)
    ensures Holds(Next(env, a, p), p)
  {
    FiledIsSame(p.mock);
    OwnGeneration(env, a, p.mock, {}, false, p.entries);
    NextRecordings(env, a, p);
    NextAtStart(env, a, p);
  }

  lemma NextRecordings(env: Env, a: App, p: Parsed)
    requires AppOk(env, a) && ParsedWell(env, p)
    ensures RecordingsAt(Next(env, a, p), p.mock.path) == p.entries.GetOr([])
  {
    OwnGeneration(env, a, p.mock, {}, false, p.entries);
    if p.entries.Some? {
      ImportedIsNeverEvicted(env.codec, p.mock.recording.value, None, p.entries.value);
    }
  }

  lemma NextAtStart(env: Env, a: App, p: Parsed)
    requires AppOk(env, a) && Ready(env, p)
    ensures AtStart(Next(env, a, p), p.mock.path)
  {
    var b, path := Next(env, a, p), p.mock.path;
    NextOk(env, a, p);
    FiledIsSame(p.mock);
    OwnGeneration(env, a, p.mock, {}, false, p.entries);
    MockAtIff(b.storage, path);
    assert Agrees(b, path);
    forall k | k in b.sequences[path]
      ensures b.cursors[b.sequences[path][k]].position == 0
    {
      OwnCursors(env, a, p.mock, {}, false, p.entries, k);
    }
  }

  /** Assigning a list of mocks to storage, in order. */
  function SetAll(storage: seq<Mock>, parsed: seq<Parsed>): seq<Mock>
    decreases |parsed|
  {
    if parsed == [] then storage else SetAll(SetMock(storage, parsed[0].mock), parsed[1..])
  }

  /** The last of a list of mocks at a path: it replaces the earlier ones. */
  function LastAt(parsed: seq<Parsed>, q: string): Option<Parsed> {
    if parsed == [] then None
    else
      var later := LastAt(parsed[1..], q);
      if later.Some? then later else if parsed[0].mock.path == q then Some(parsed[0]) else None
  }

  lemma {:induction false} LastAtIff(parsed: seq<Parsed>, q: string)
    ensures LastAt(parsed, q).Some? <==> q in ParsedPaths(parsed)
    ensures LastAt(parsed, q).Some? ==> LastAt(parsed, q).value in parsed && LastAt(parsed, q).value.mock.path == q
  {
    if parsed != [] {
      assert parsed == [parsed[0]] + parsed[1..];
      LastAtIff(parsed[1..], q);
    }
  }

  /** A path holds exactly the last mock that was imported for it; without one it is as before. */
  predicate EffectAt(a: App, b: App, parsed: seq<Parsed>, q: string) {
    match LastAt(parsed, q)
    case Some(p) => Holds(b, p)
    case None => q in PathsOf(a.storage) ==> Untouched(a, b, q)
  }

  /**
   * The effect of a whole import: every imported path holds exactly the configuration and recordings
   * that came last for it, with cursors at zero; every other mock keeps configuration, cursors and
   * store.
   */
  lemma {:induction false} InstallAllEffect(env: Env, a: App, parsed: seq<Parsed>)
    requires AppOk(env, a) && AllReady(env, parsed)
    ensures var b := InstallAll(env, a, parsed);
            b.storage == SetAll(a.storage, parsed) && forall q :: EffectAt(a, b, parsed, q)
    decreases |parsed|
  {
    if parsed == [] {
      forall q
        ensures EffectAt(a, a, parsed, q)
      {
        StoredIsThere(env, a, q);
      }
    } else {
      ReadyParts(env, parsed);
      var first, rest := parsed[0], parsed[1..];
      var c := Next(env, a, first);
      NextOk(env, a, first);
      NextHolds(env, a, first);
      FiledIsSame(first.mock);
      InstallAllEffect(env, c, rest);
      var b := InstallAll(env, c, rest);
      forall q
        ensures EffectAt(a, b, parsed, q)
      {
        assert EffectAt(c, b, rest, q);
        EffectStep(env, a, b, parsed, q);
      }
    }
  }

  lemma EffectStep(env: Env, a: App, b: App, parsed: seq<Parsed>, q: string)
    requires AppOk(env, a) && parsed != [] && Ready(env, parsed[0]) && Holds(Next(env, a, parsed[0]), parsed[0])
    requires EffectAt(Next(env, a, parsed[0]), b, parsed[1..], q)
    ensures EffectAt(a, b, parsed, q)
  {
    var first := parsed[0];
    var c := Next(env, a, first);
    if LastAt(parsed[1..], q).None? {
      SettledFacts(first.mock.path);
      GenerationFiles(env, a, first.mock, {}, false, first.entries);
      if q == first.mock.path {
        UntouchedHolds(c, b, first);
      } else if q in PathsOf(a.storage) {
        OtherMocksUntouched(env, a, first.mock, {}, false, first.entries, q);
        UntouchedTwice(a, c, b, q);
      }
    }
  }

  lemma UntouchedTwice(a: App, b: App, c: App, q: string)
    requires Untouched(a, b, q) && Untouched(b, c, q)
    ensures Untouched(a, c, q)
  {
  }

  /** The effect of an import, path by path, whether it goes through or breaks. */
  lemma ImportEffect(env: Env, a: App, doc: Document, replace: bool, q: string)
    requires AppOk(env, a) && SoundSchema(env.schema) && GoodDocument(env, doc)
    ensures Import(env, a, doc, replace).1.Rejected? || EffectAt(StartOf(a, replace), Import(env, a, doc, replace).0, Installed(env, doc), q)
  {
    ImportInstalls(env, a, doc, replace);
    InstalledWell(env, doc);
    StartOk(env, a, replace);
    InstallAllEffect(env, StartOf(a, replace), Installed(env, doc));
  }

  // ---------------------------------------------------------------- imported as a whole

  /** Mocks that land on one path are equal. */
  predicate Clashless(parsed: seq<Parsed>) {
    forall x, y :: x in parsed && y in parsed && x.mock.path == y.mock.path ==> x == y
  }

  lemma HeldOnce(env: Env, b: App, x: Parsed, y: Parsed)
    requires Holds(b, x) && Holds(b, y) && ParsedWell(env, x) && ParsedWell(env, y) && x.mock.path == y.mock.path
    ensures x == y
  {
  }

  /** An import leaves everything it installs in place exactly if no two different mocks land on one path. */
  lemma NothingOverwrittenIff(env: Env, a: App, doc: Document, replace: bool)
    requires AppOk(env, a) && SoundSchema(env.schema) && GoodDocument(env, doc)
    ensures (forall p :: p in Installed(env, doc) ==> Holds(Import(env, a, doc, replace).0, p))
            <==> Clashless(Installed(env, doc))
  {
    var b, parsed := Import(env, a, doc, replace).0, Installed(env, doc);
    InstalledWell(env, doc);
    if Clashless(parsed) {
      forall p | p in parsed
        ensures Holds(b, p)
      {
        LastAtIff(parsed, p.mock.path);
        ImportInstalls(env, a, doc, replace);
        ImportEffect(env, a, doc, replace, p.mock.path);
      }
    } else {
      var x, y :| x in parsed && y in parsed && x.mock.path == y.mock.path && x != y;
      if Holds(b, x) && Holds(b, y) {
        HeldOnce(env, b, x, y);
      }
    }
  }

  function AllLanded(parsed: seq<Parsed>): seq<Parsed> {
    seq(|parsed|, i requires 0 <= i < |parsed| => Landed(parsed[i]))
  }

  lemma {:induction false} ReachedAll(env: Env, parsed: seq<Parsed>)
    requires !AnyTrapped(env, parsed)
    ensures Reached(env, parsed) == AllLanded(parsed)
  {
    if parsed != [] {
      assert parsed[0] in parsed && forall p :: p in parsed[1..] ==> p in parsed;
      ReachedAll(env, parsed[1..]);
    }
  }

  /** The documented promise: the import succeeds and every mock of the document is there afterwards. */
  predicate ImportedWhole(env: Env, a: App, doc: Document, replace: bool) {
    && Import(env, a, doc, replace).1.Imported? && Validated(env, doc).Some?
    && forall p :: p in AllLanded(Validated(env, doc).value) ==> Holds(Import(env, a, doc, replace).0, p)
  }

  /**
   * A document is imported as a whole exactly if both checks accept it, no path becomes one that may
   * not be mocked when it is normalized once more, and no two different mocks land on one path.
   */
  lemma ImportedWholeIff(env: Env, a: App, doc: Document, replace: bool)
    requires AppOk(env, a) && SoundSchema(env.schema) && GoodDocument(env, doc)
    ensures ImportedWhole(env, a, doc, replace) <==>
            && Validated(env, doc).Some? && !AnyTrapped(env, Validated(env, doc).value)
            && Clashless(AllLanded(Validated(env, doc).value))
  {
    ImportIsAllOrNothing(env, a, doc, replace);
    if Validated(env, doc).Some? && !AnyTrapped(env, Validated(env, doc).value) {
      ReachedAll(env, Validated(env, doc).value);
      NothingOverwrittenIff(env, a, doc, replace);
    }
  }

  lemma RevalidatesFirst(env: Env, p: Parsed, path: RootedPath, rest: seq<Parsed>, valid: seq<Parsed>)
    requires ValidatePath(env.prefix, env.compiles, p.mock.path) == Some(path) && Revalidated(env, rest) == Some(valid)
    ensures Revalidated(env, [p] + rest) == Some([Parsed(p.mock.(path := path), p.entries)] + valid)
  {
    assert ([p] + rest)[1..] == rest;
  }

  lemma ReachesFirst(env: Env, p: Parsed, rest: seq<Parsed>)
    requires Mountable(env, p.mock.path) && Reached(env, rest) == rest && !AnyTrapped(env, rest)
    ensures Reached(env, [p] + rest) == [p] + rest && !AnyTrapped(env, [p] + rest)
  {
    SettledFacts(p.mock.path);
    assert ([p] + rest)[1..] == rest;
    assert p.mock.(path := p.mock.path) == p.mock;
  }

  /** Two mocks given one path in two ways, as both checks and the mutation loop see them. */
  lemma BothReached(env: Env, x: Parsed, y: Parsed, path: RootedPath)
    requires Mountable(env, path) && x.mock.path == path && y.mock.path == path + " "
    ensures var same := Parsed(y.mock.(path := path), y.entries);
            Revalidated(env, [x, y]) == Some([x, same]) && Reached(env, [x, same]) == [x, same]
            && !AnyTrapped(env, [x, same])
  {
    var same := Parsed(y.mock.(path := path), y.entries);
    WhitespaceLayer(path);
    assert x.mock.(path := path) == x.mock;
    RevalidatesFirst(env, y, path, [], []);
    RevalidatesFirst(env, x, path, [y] + [], [same] + []);
    ReachesFirst(env, same, []);
    ReachesFirst(env, x, [same] + []);
    assert [x] + ([y] + []) == [x, y] && [x] + ([same] + []) == [x, same];
  }

  function TwoMocks(one: Object, two: Object): Document {
    SnapshotOf([RawMock(one, None), RawMock(two, None)])
  }

  lemma TwoValidated(env: Env, path: RootedPath, one: Object, two: Object)
    requires Mountable(env, path) && env.compiles(path + " ") && Plain(env, one, path) && Plain(env, two, Layer(path))
    ensures var x, y := env.schema(one).value.(path := path), env.schema(two).value.(path := path);
            Validated(env, TwoMocks(one, two)) == Some([Parsed(x, None), Parsed(y, None)])
  {
    var x := Parsed(env.schema(one).value.(path := path), None);
    var y := Parsed(env.schema(two).value.(path := path + " "), None);
    FixedIffSettled(path);
    WhitespaceLayer(path);
    PlainParses(env, one, path, path, {});
    assert (path + " ")[|path|] == ' ' && path + " " != path;
    PlainParses(env, two, Layer(path), path + " ", {path});
    TwoParse(MockParser(env, 2), RawMock(one, None), RawMock(two, None), x, y);
    BothReached(env, x, y, path);
  }

  lemma TwoInstalled(env: Env, a: App, x: Parsed, y: Parsed)
    requires Mountable(env, x.mock.path) && x.mock.path == y.mock.path
    ensures ImportMocks(env, a, [x, y]).1.Imported?
    ensures MockAt(ImportMocks(env, a, [x, y]).0.storage, y.mock.path) == Some(y.mock)
  {
    ReachesFirst(env, y, []);
    ReachesFirst(env, x, [y] + []);
    assert [x] + ([y] + []) == [x, y];
    LoopInstalls(env, a, [x, y]);
    SecondWins(env, a, x, y);
  }

  /**
   * The documented guarantee also fails for a document that names one path in two ways: it passes the
   * check for duplicates, is imported to the end, and leaves only the second of the two mocks.
   */
  lemma TwoOnOnePath(env: Env, a: App, path: RootedPath, one: Object, two: Object, replace: bool)
    requires Mountable(env, path) && env.compiles(path + " ") && Plain(env, one, path) && Plain(env, two, Layer(path))
    ensures Validated(env, TwoMocks(one, two)).Some? && |Validated(env, TwoMocks(one, two)).value| == 2
    ensures Import(env, a, TwoMocks(one, two), replace).1.Imported?
    ensures MockAt(Import(env, a, TwoMocks(one, two), replace).0.storage, path) == Some(env.schema(two).value.(path := path))
  {
    var x, y := env.schema(one).value.(path := path), env.schema(two).value.(path := path);
    TwoValidated(env, path, one, two);
    TwoInstalled(env, StartOf(a, replace), Parsed(x, None), Parsed(y, None));
  }

  lemma SecondWins(env: Env, a: App, x: Parsed, y: Parsed)
    requires Settled(y.mock.path)
    ensures MockAt(InstallAll(env, a, [x, y]).storage, y.mock.path) == Some(y.mock)
  {
    var b := Next(env, a, x);
    assert [x, y][1..] == [y] && [y][1..] == [];
    assert InstallAll(env, a, [x, y]) == InstallAll(env, b, [y]) == InstallAll(env, Next(env, b, y), []) == Next(env, b, y);
    FiledIsSame(y.mock);
    SetMockShape(b.storage, y.mock);
  }

  // ---------------------------------------------------------------- what a merge leaves alone

  lemma {:induction false} InstallAllLeaves(env: Env, a: App, parsed: seq<Parsed>, q: string)
    requires Separate(a) && Settled(q) && Untouched(a, a, q)
    requires forall p :: p in parsed ==> Renormalize(p.mock.path) != q
    ensures Untouched(a, InstallAll(env, a, parsed), q)
    decreases |parsed|
  {
    if parsed != [] {
      assert parsed[0] in parsed && forall p :: p in parsed[1..] ==> p in parsed;
      var c := Next(env, a, parsed[0]);
      GenerationSeparate(env, a, parsed[0].mock, {}, false, parsed[0].entries);
      GenerationLeaves(env, a, parsed[0].mock, {}, false, parsed[0].entries, q);
      InstallAllLeaves(env, c, parsed[1..], q);
      UntouchedTwice(a, c, InstallAll(env, c, parsed[1..]), q);
    }
  }

  /**
   * A merge leaves untouched every mock that the document omits: every mock at whose path nothing is
   * filed. This holds of every document, refused or broken ones and those with unsettled paths included.
   */
  lemma MergeKeepsOmitted(env: Env, a: App, doc: Document, q: string)
    requires AppOk(env, a) && q in PathsOf(a.storage)
    requires forall p :: p in Installed(env, doc) ==> Renormalize(p.mock.path) != q
    ensures Untouched(a, Import(env, a, doc, false).0, q)
  {
    StoredIsThere(env, a, q);
    ImportInstalls(env, a, doc, false);
    InstallAllLeaves(env, a, Installed(env, doc), q);
  }
}
