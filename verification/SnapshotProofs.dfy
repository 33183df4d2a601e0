/**
 * What an import does, for every document: validation either refuses it or yields well-formed mocks,
 * and the mutation loop installs one new generation after the other where their paths land, until
 * one more normalization turns a path into one that may not be mocked.
 */
module SnapshotProofs {
  import opened Wrappers
  import opened Json
  import opened Paths
  import opened Recordings
  import opened Store
  import opened SnapshotCodec
  import opened Mocks
  import opened Lifecycle
  import opened Admin
  import opened AdminEffects
  import opened Snapshot

  // ---------------------------------------------------------------- validated documents

  /** What validation establishes about one mock, whatever its path. */
  predicate ParsedWell(env: Env, p: Parsed) {
    && ValidMock(p.mock)
    && (p.entries.Some? <==> p.mock.recording.Some?)
    && (p.entries.Some? ==> Importable(p.mock.recording.value, env.codec.hash, env.codec.size, p.entries.value))
  }

  predicate AllWell(env: Env, parsed: seq<Parsed>) {
    forall p :: p in parsed ==> ParsedWell(env, p)
  }

  /** No path occurs twice. */
  predicate DistinctParsed(parsed: seq<Parsed>) {
    parsed != [] ==> parsed[0].mock.path !in ParsedPaths(parsed[1..]) && DistinctParsed(parsed[1..])
  }

  /** A validated mock is what the parser made of some dictionary, at its own path. */
  lemma ParsedConfiguration(env: Env, format: int, raw: RawMock, seen: set<string>) returns (data: Object)
    requires ParseMock(env, format, raw, seen).Ok?
    ensures var p := ParseMock(env, format, raw, seen).value;
            env.schema(data).Some? && p.mock == env.schema(data).value.(path := p.mock.path)
  {
    data := ConvertMock(raw.fields, DECODING).value - {"cache_time"};
  }

  /** The path is what normalization makes of the one that the dictionary gives. */
  predicate Gives(raw: RawMock, path: string) {
    && raw.RawMock? && Field(raw.fields, "path").Str?
    && Normalize(Field(raw.fields, "path").text) == Some(path)
  }

  /** The dictionary gives the path and lists the recordings. */
  predicate Supplies(raw: RawMock, p: Parsed) {
    && Gives(raw, p.mock.path)
    && (p.entries.Some? && p.entries.value != [] ==> raw.recordings == Some(Entries(p.entries.value)))
  }

  /** What parsing one mock after others with the given paths comes to. */
  predicate Yields(env: Env, raw: RawMock, seen: set<string>, p: Parsed) {
    ParsedWell(env, p) && p.mock.path !in seen && Supplies(raw, p)
  }

  lemma ParsedPath(env: Env, format: int, raw: RawMock, seen: set<string>)
    requires ParseMock(env, format, raw, seen).Ok?
    ensures Gives(raw, ParseMock(env, format, raw, seen).value.mock.path)
  {
    DecodingKeepsPath(raw.fields);
    var data := ConvertMock(raw.fields, DECODING).value - {"cache_time"};
    assert Field(data, "path") == Field(raw.fields, "path");
  }

  lemma ParseMockWell(env: Env, format: int, raw: RawMock, seen: set<string>)
    requires SoundSchema(env.schema) && ParseMock(env, format, raw, seen).Ok?
    ensures Yields(env, raw, seen, ParseMock(env, format, raw, seen).value)
  {
    ParsedPath(env, format, raw, seen);
    var data := ConvertMock(raw.fields, DECODING).value - {"cache_time"};
    var path := Normalize(data["path"].text).value;
    ValidWithPath(env.schema(data).value, path);
    EmptyIsImportable(env, env.schema(data).value);
  }

  ghost predicate ParsesWell(env: Env, parse: Parser) {
    forall raw, seen :: parse(raw, seen).Ok? ==> Yields(env, raw, seen, parse(raw, seen).value)
  }

  lemma MockParserWell(env: Env, format: int)
    requires SoundSchema(env.schema)
    ensures ParsesWell(env, MockParser(env, format))
  {
    forall raw, seen | MockParser(env, format)(raw, seen).Ok?
      ensures Yields(env, raw, seen, MockParser(env, format)(raw, seen).value)
    {
      ParseMockWell(env, format, raw, seen);
    }
  }

  lemma EmptyIsImportable(env: Env, m: Mock)
    ensures m.recording.Some? ==> Importable(m.recording.value, env.codec.hash, env.codec.size, [])
  {
  }

  lemma DecodingKeepsPath(o: Object)
    requires ConvertMock(o, DECODING).Ok?
    ensures Field(ConvertMock(o, DECODING).value, "path") == Field(o, "path")
  {
    var fr: Convert := r => MapRules(r, DECODING);
    var fs: Convert := s => MapSequence(s, DECODING);
    Mapped(o, "mock_data", DECODING, "rules", fr, "sequence", fs);
  }

  lemma {:induction false} DistinctAppend(parsed: seq<Parsed>, p: Parsed)
    requires DistinctParsed(parsed) && p.mock.path !in ParsedPaths(parsed)
    ensures DistinctParsed(parsed + [p])
  {
    if parsed != [] {
      assert parsed == [parsed[0]] + parsed[1..];
      assert (parsed + [p])[1..] == parsed[1..] + [p];
      assert forall x :: x in parsed[1..] + [p] ==> x in parsed[1..] || x == p;
      assert parsed[0] in parsed;
      DistinctAppend(parsed[1..], p);
    }
  }

  lemma {:induction false} ParseEachWell(env: Env, parse: Parser, raws: seq<RawMock>, n: nat)
    requires ParsesWell(env, parse) && n <= |raws| && ParseEach(parse, raws, n).Ok?
    ensures AllWell(env, ParseEach(parse, raws, n).value)
    ensures DistinctParsed(ParseEach(parse, raws, n).value)
    ensures forall p :: p in ParseEach(parse, raws, n).value ==> Supplied(raws, p)
  {
    if n > 0 {
      ParseEachWell(env, parse, raws, n - 1);
      var before := ParseEach(parse, raws, n - 1).value;
      assert Yields(env, raws[n - 1], ParsedPaths(before), parse(raws[n - 1], ParsedPaths(before)).value);
      DistinctAppend(before, parse(raws[n - 1], ParsedPaths(before)).value);
    }
  }

  predicate Supplied(raws: seq<RawMock>, p: Parsed) {
    exists r :: r in raws && Supplies(r, p)
  }

  /** The mocks of an accepted document are well-formed, at distinct paths, and each comes from the document. */
  lemma DocumentWell(env: Env, doc: Document)
    requires SoundSchema(env.schema) && ParseSnapshot(env, doc).Ok?
    ensures var parsed := ParseSnapshot(env, doc).value;
            && AllWell(env, parsed) && DistinctParsed(parsed)
            && forall p :: p in parsed ==> Supplied(doc.mocks.value, p)
  {
    MockParserWell(env, doc.format.number);
    ParseEachWell(env, MockParser(env, doc.format.number), doc.mocks.value, |doc.mocks.value|);
  }

  lemma {:induction false} RevalidatedWell(env: Env, parsed: seq<Parsed>)
    requires AllWell(env, parsed) && Revalidated(env, parsed).Some?
    ensures AllWell(env, Revalidated(env, parsed).value)
  {
    if parsed != [] {
      assert parsed[0] in parsed && forall p :: p in parsed[1..] ==> p in parsed;
      RevalidatedWell(env, parsed[1..]);
      WellElsewhere(env, parsed[0], ValidatePath(env.prefix, env.compiles, parsed[0].mock.path).value);
    }
  }

  lemma WellElsewhere(env: Env, p: Parsed, path: RootedPath)
    requires ParsedWell(env, p)
    ensures ParsedWell(env, Parsed(p.mock.(path := path), p.entries))
  {
    ValidWithPath(p.mock, path);
  }

  lemma ValidatedWell(env: Env, doc: Document)
    requires SoundSchema(env.schema) && Validated(env, doc).Some?
    ensures AllWell(env, Validated(env, doc).value)
  {
    DocumentWell(env, doc);
    RevalidatedWell(env, ParseSnapshot(env, doc).value);
  }

  // ---------------------------------------------------------------- the mutation loop

  /** A path that the third normalization turns into one that may not be mocked. */
  predicate Trapped(env: Env, p: Parsed) {
    ValidatePath(env.prefix, env.compiles, p.mock.path).None?
  }

  predicate AnyTrapped(env: Env, parsed: seq<Parsed>) {
    exists p :: p in parsed && Trapped(env, p)
  }

  /** A validated mock at the path where it is installed. */
  function Landed(p: Parsed): Parsed {
    Parsed(p.mock.(path := Lands(p.mock.path)), p.entries)
  }

  /** What the loop installs before it stops. */
  function Reached(env: Env, parsed: seq<Parsed>): seq<Parsed> {
    if parsed == [] || Trapped(env, parsed[0]) then [] else [Landed(parsed[0])] + Reached(env, parsed[1..])
  }

  /** What an import installs, in order: nothing if the document is refused. */
  function Installed(env: Env, doc: Document): seq<Parsed> {
    if Validated(env, doc).None? then [] else Reached(env, Validated(env, doc).value)
  }

  /** One imported mock: a new generation with the imported recordings and nothing preserved. */
  function Next(env: Env, a: App, p: Parsed): App {
    Generation(env, a, p.mock, {}, false, p.entries)
  }

  function InstallAll(env: Env, a: App, parsed: seq<Parsed>): App
    decreases |parsed|
  {
    if parsed == [] then a else InstallAll(env, Next(env, a, parsed[0]), parsed[1..])
  }

  /** The application the loop starts from. */
  function StartOf(a: App, replace: bool): App {
    if replace then Cleanup(a) else a
  }

  lemma {:induction false} LoopInstalls(env: Env, a: App, parsed: seq<Parsed>)
    ensures var (b, r) := ImportMocks(env, a, parsed);
            && b == InstallAll(env, a, Reached(env, parsed)) && !r.Rejected?
            && (r.Broken? <==> AnyTrapped(env, parsed))
    decreases |parsed|
  {
    if parsed != [] {
      assert parsed == [parsed[0]] + parsed[1..];
      assert forall p :: p in parsed <==> p == parsed[0] || p in parsed[1..];
      MockInitLands(env, a, parsed[0].mock, {}, false, parsed[0].entries);
      if !Trapped(env, parsed[0]) {
        var first := Landed(parsed[0]);
        assert Reached(env, parsed)[0] == first && Reached(env, parsed)[1..] == Reached(env, parsed[1..]);
        LoopInstalls(env, Next(env, a, first), parsed[1..]);
      }
    }
  }

  /** The effect of every import: what it installs, one generation after the other. */
  lemma ImportInstalls(env: Env, a: App, doc: Document, replace: bool)
    ensures Import(env, a, doc, replace).1.Rejected? <==> Validated(env, doc).None?
    ensures Import(env, a, doc, replace).0
            == if Validated(env, doc).None? then a else InstallAll(env, StartOf(a, replace), Installed(env, doc))
  {
    if Validated(env, doc).Some? {
      LoopInstalls(env, StartOf(a, replace), Validated(env, doc).value);
    }
  }

  /**
   * Two phases, for every document and every application: an import that is refused has changed
   * nothing, and one that passes validation goes through to the end unless one more normalization
   * turns one of its paths into one that may not be mocked.
   */
  lemma ImportIsAllOrNothing(env: Env, a: App, doc: Document, replace: bool)
    ensures Import(env, a, doc, replace).1.Rejected? <==> Validated(env, doc).None?
    ensures Import(env, a, doc, replace).1.Rejected? ==> Import(env, a, doc, replace).0 == a
    ensures Import(env, a, doc, replace).1.Imported? <==>
            Validated(env, doc).Some? && !AnyTrapped(env, Validated(env, doc).value)
  {
    if Validated(env, doc).Some? {
      LoopInstalls(env, StartOf(a, replace), Validated(env, doc).value);
    }
  }

  /**
   * The mutation phase fails exactly when validation passes but some path, normalized once more,
   * is reserved or does not compile. No condition on the paths or on the state is needed.
   */
  lemma MutationFailsIff(env: Env, a: App, doc: Document, replace: bool)
    ensures Import(env, a, doc, replace).1.Broken? <==>
            Validated(env, doc).Some? && AnyTrapped(env, Validated(env, doc).value)
  {
    ImportIsAllOrNothing(env, a, doc, replace);
  }

  // ---------------------------------------------------------------- agreement

  /** A well-formed mock at a path that can hold it. */
  predicate Ready(env: Env, p: Parsed) {
    ParsedWell(env, p) && Mountable(env, p.mock.path)
  }

  predicate AllReady(env: Env, parsed: seq<Parsed>) {
    forall p :: p in parsed ==> Ready(env, p)
  }

  /** Everything that an import of the document installs lands on a settled path that may be mocked. */
  predicate GoodDocument(env: Env, doc: Document) {
    forall p :: p in Installed(env, doc) ==> Mountable(env, p.mock.path)
  }

  lemma {:induction false} ReachedWell(env: Env, parsed: seq<Parsed>)
    requires AllWell(env, parsed)
    ensures AllWell(env, Reached(env, parsed))
  {
    if parsed != [] && !Trapped(env, parsed[0]) {
      assert parsed[0] in parsed && forall p :: p in parsed[1..] ==> p in parsed;
      ReachedWell(env, parsed[1..]);
      WellElsewhere(env, parsed[0], Lands(parsed[0].mock.path));
    }
  }

  lemma InstalledWell(env: Env, doc: Document)
    requires SoundSchema(env.schema)
    ensures AllWell(env, Installed(env, doc))
    ensures GoodDocument(env, doc) ==> AllReady(env, Installed(env, doc))
  {
    if Validated(env, doc).Some? {
      ValidatedWell(env, doc);
      ReachedWell(env, Validated(env, doc).value);
    }
  }

  /** Importable entries suit the store they are installed in. */
  lemma ImportableSuits(env: Env, p: Parsed)
    requires ParsedWell(env, p) && p.entries.Some?
    ensures forall e :: e in p.entries.value ==>
              SlotOk(env.codec, p.mock.recording.value, Slot(e, env.codec.size(e)))
  {
    forall e | e in p.entries.value
      ensures SlotOk(env.codec, p.mock.recording.value, Slot(e, env.codec.size(e)))
    {
      assert ValidEntry(p.mock.recording.value, env.codec.hash, e);
    }
  }

  lemma NextOk(env: Env, a: App, p: Parsed)
    requires AppOk(env, a) && Ready(env, p)
    ensures AppOk(env, Next(env, a, p))
  {
    if p.entries.Some? {
      ImportableSuits(env, p);
    }
    GenerationOk(env, a, p.mock, {}, false, p.entries);
  }

  /** A list of ready mocks begins with one and goes on with such a list. */
  lemma ReadyParts(env: Env, parsed: seq<Parsed>)
    requires parsed != [] && AllReady(env, parsed)
    ensures parsed[0] in parsed && Ready(env, parsed[0]) && AllReady(env, parsed[1..])
  {
    assert forall p :: p in parsed[1..] ==> p in parsed;
  }

  lemma {:induction false} InstallAllOk(env: Env, a: App, parsed: seq<Parsed>)
    requires AppOk(env, a) && AllReady(env, parsed)
    ensures AppOk(env, InstallAll(env, a, parsed))
    decreases |parsed|
  {
    if parsed != [] {
      ReadyParts(env, parsed);
      NextOk(env, a, parsed[0]);
      InstallAllOk(env, Next(env, a, parsed[0]), parsed[1..]);
    }
  }

  lemma StartOk(env: Env, a: App, replace: bool)
    requires AppOk(env, a)
    ensures AppOk(env, StartOf(a, replace))
  {
    CleanupOk(env, a);
  }

  lemma {:induction false} InstallAllStrays(env: Env, a: App, parsed: seq<Parsed>)
    requires Stray(env, a) || exists p :: p in parsed && !Mountable(env, p.mock.path)
    ensures Stray(env, InstallAll(env, a, parsed))
    decreases |parsed|
  {
    if parsed != [] {
      assert parsed == [parsed[0]] + parsed[1..];
      if Stray(env, a) || !Mountable(env, parsed[0].mock.path) {
        GenerationStrays(env, a, parsed[0].mock, {}, false, parsed[0].entries);
      }
      InstallAllStrays(env, Next(env, a, parsed[0]), parsed[1..]);
    }
  }

  /**
   * An import keeps the four structures in agreement, whether it goes through or breaks, exactly if
   * everything it installs lands on a settled path that may be mocked.
   */
  lemma ImportKeepsAgreementIff(env: Env, a: App, doc: Document, replace: bool)
    requires AppOk(env, a) && SoundSchema(env.schema)
    ensures AppOk(env, Import(env, a, doc, replace).0) <==> GoodDocument(env, doc)
  {
    ImportInstalls(env, a, doc, replace);
    if GoodDocument(env, doc) {
      InstalledWell(env, doc);
      StartOk(env, a, replace);
      InstallAllOk(env, StartOf(a, replace), Installed(env, doc));
    } else {
      InstallAllStrays(env, StartOf(a, replace), Installed(env, doc));
      StrayDisagrees(env, Import(env, a, doc, replace).0);
    }
  }

  // ---------------------------------------------------------------- paths of a document

  /** Every path that a document gives is refused or lands where a mock can be. */
  predicate GoodPaths(env: Env, raws: seq<RawMock>) {
    forall r :: r in raws && r.RawMock? && Field(r.fields, "path").Str? ==> GoodPath(env, Field(r.fields, "path").text)
  }

  lemma {:induction false} RevalidatedFrom(env: Env, parsed: seq<Parsed>, p: Parsed)
    requires Revalidated(env, parsed).Some? && p in Revalidated(env, parsed).value
    ensures exists x :: x in parsed && p == Parsed(x.mock.(path := Renormalize(x.mock.path)), x.entries)
  {
    assert parsed != [];
    if p in Revalidated(env, parsed[1..]).value {
      RevalidatedFrom(env, parsed[1..], p);
    } else {
      assert parsed[0] in parsed;
    }
  }

  lemma {:induction false} ReachedFrom(env: Env, parsed: seq<Parsed>, p: Parsed)
    requires p in Reached(env, parsed)
    ensures exists x :: x in parsed && !Trapped(env, x) && p == Landed(x)
  {
    if p in Reached(env, parsed[1..]) {
      ReachedFrom(env, parsed[1..], p);
    } else {
      assert parsed[0] in parsed;
    }
  }

  /** Whatever an import installs was given by the document, at a path that lands there. */
  lemma InstalledFrom(env: Env, doc: Document, p: Parsed) returns (r: RawMock)
    requires SoundSchema(env.schema) && p in Installed(env, doc)
    ensures doc.Document? && doc.mocks.Some? && r in doc.mocks.value && r.RawMock? && Field(r.fields, "path").Str?
    ensures var path := Field(r.fields, "path").text;
            && Normalize(path).Some? && Landing(path) == p.mock.path
            && ValidatePath(env.prefix, env.compiles, Addressed(path)).Some?
    ensures p.entries.Some? && p.entries.value != [] ==> r.recordings == Some(Entries(p.entries.value))
  {
    var parsed, valid := ParseSnapshot(env, doc).value, Validated(env, doc).value;
    ReachedFrom(env, valid, p);
    var x :| x in valid && !Trapped(env, x) && p == Landed(x);
    RevalidatedFrom(env, parsed, x);
    var y :| y in parsed && x == Parsed(y.mock.(path := Renormalize(y.mock.path)), y.entries);
    DocumentWell(env, doc);
    r :| r in doc.mocks.value && Supplies(r, y);
  }

  /** A document whose paths are good, in particular free of whitespace, keeps agreement. */
  lemma GoodPathsSuffice(env: Env, doc: Document)
    requires SoundSchema(env.schema) && (doc.Document? && doc.mocks.Some? ==> GoodPaths(env, doc.mocks.value))
    ensures GoodDocument(env, doc)
  {
    forall p | p in Installed(env, doc)
      ensures Mountable(env, p.mock.path)
    {
      var r := InstalledFrom(env, doc, p);
    }
  }

  // ---------------------------------------------------------------- documents that break

  /** The dictionary of an exported mock without bytes and without recordings. */
  predicate Plain(env: Env, fields: Object, path: string) {
    && path != "" && "path" in fields && fields["path"] == Str(path) && "cache_time" !in fields
    && ConvertMock(fields, DECODING) == Ok(fields)
    && env.schema(fields).Some? && env.schema(fields).value.recording.None?
  }

  lemma PlainParses(env: Env, fields: Object, given: string, path: RootedPath, seen: set<string>)
    requires Plain(env, fields, given) && Normalize(given) == Some(path) && env.compiles(path) && path !in seen
    ensures ParseMock(env, 2, RawMock(fields, None), seen) == Ok(Parsed(env.schema(fields).value.(path := path), None))
  {
    assert fields - {"cache_time"} == fields;
  }

  function SnapshotOf(raws: seq<RawMock>): Document {
    Document(Int(2), None, None, false, Some(raws))
  }

  /** A snapshot of one mock whose path is the administrative prefix behind two layers of whitespace. */
  predicate TrapDocument(env: Env, fields: Object) {
    && Settled(env.prefix) && env.compiles(Layer(env.prefix) + " ") && env.compiles(env.prefix + " ")
    && Plain(env, fields, Layer(Layer(env.prefix)))
  }

  const TRAP: Object := map["path" := Str("/__admin / /")]

  /** Under the default prefix one mock with nothing but a path is such a document. */
  lemma TrapAtDefaultPrefix(env: Env)
    requires env.prefix == "/__admin" && env.compiles("/__admin / ") && env.compiles("/__admin ")
    requires env.schema(TRAP).Some? && env.schema(TRAP).value.recording.None?
    ensures TrapDocument(env, TRAP)
  {
    assert Layer(env.prefix) + " " == "/__admin / " && env.prefix + " " == "/__admin ";
    assert Layer(Layer(env.prefix)) == "/__admin / /";
    assert "mock_data" !in TRAP && "rules" !in TRAP && "sequence" !in TRAP;
  }

  lemma TrapSprings(env: Env, a: App, p: Parsed)
    requires Settled(env.prefix) && env.compiles(env.prefix + " ") && p.mock.path == Layer(env.prefix) + " "
    ensures Revalidated(env, [p]).Some? && ImportMocks(env, a, Revalidated(env, [p]).value) == (a, Broken)
  {
    ReservedLayers(env.prefix);
    assert [p][1..] == [];
    assert Revalidated(env, []) == Some([]);
  }

  lemma OneParses(parse: Parser, raw: RawMock, p: Parsed)
    requires parse(raw, {}) == Ok(p)
    ensures ParseEach(parse, [raw], 1) == Ok([p])
  {
    assert ParsedPaths([]) == {} && [] + [p] == [p];
    assert ParseEach(parse, [raw], 0) == Ok([]);
  }

  lemma TwoParse(parse: Parser, one: RawMock, two: RawMock, p: Parsed, q: Parsed)
    requires parse(one, {}) == Ok(p) && parse(two, {p.mock.path}) == Ok(q)
    ensures ParseEach(parse, [one, two], 2) == Ok([p, q])
  {
    assert ParsedPaths([]) == {} && [] + [p] == [p] && [p] + [q] == [p, q] && ParsedPaths([p]) == {p.mock.path};
    assert ParseEach(parse, [one, two], 0) == Ok([]);
    assert ParseEach(parse, [one, two], 1) == Ok([p]);
  }

  /**
   * The documented guarantee fails for a path with whitespace before its slashes: such a document
   * passes validation and then breaks after a replacing import has removed every mock.
   */
  lemma ReplaceCanLoseEverything(env: Env, a: App, fields: Object)
    requires TrapDocument(env, fields)
    ensures Import(env, a, SnapshotOf([RawMock(fields, None)]), true) == (Cleanup(a), Broken)
  {
    ReservedLayers(env.prefix);
    PlainParses(env, fields, Layer(Layer(env.prefix)), Layer(env.prefix) + " ", {});
    var p := ParseMock(env, 2, RawMock(fields, None), {}).value;
    OneParses(MockParser(env, 2), RawMock(fields, None), p);
    TrapSprings(env, Cleanup(a), p);
  }
}
