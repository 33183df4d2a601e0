/**
 * Snapshots (proxy_mock/services/snapshot.py): export, validation of a whole document, and the
 * import that validates everything before it changes anything.
 */
module Snapshot {
  import opened Wrappers
  import opened Json
  import opened Paths
  import opened Recordings
  import opened Store
  import opened SnapshotCodec
  import opened Mocks
  import opened Rules
  import opened Lifecycle
  import opened Admin

  /** The `recordings` field of an exported mock, before it is validated. */
  datatype RawEntries = NotAList | Entries(list: seq<Entry>)

  /** One element of `mocks`; its `recordings` field is kept apart from the other fields. */
  datatype RawMock = NotADict | RawMock(fields: Object, recordings: Option<RawEntries>)

  /** A snapshot document; `mocks` is `None` when it is missing or not a list. */
  datatype Document =
    | NotAnObject
    | Document(
        format: Json, protocol: Option<Json>, generatedBy: Option<Json>, unknownFields: bool, mocks: Option<seq<RawMock>>)

  /** A validated mock with the recordings to install, if it records. */
  datatype Parsed = Parsed(mock: Mock, entries: Option<seq<Entry>>)

  // ---------------------------------------------------------------- parsing

  function Field(o: Object, key: string): Json {
    if key in o then o[key] else Null
  }

  predicate HasSequences(o: Object) {
    || Field(o, "sequence") != Null
    || (Field(o, "rules").Arr? && exists r :: r in Field(o, "rules").items && r.Dict? && Field(r.fields, "sequence") != Null)
  }

  /** A leftover of the removed response cache: only 0 and null are still tolerated. */
  predicate StaleCacheTime(o: Object) {
    "cache_time" in o && o["cache_time"] != Null && o["cache_time"] != Int(0)
  }

  /** Validate one mock against the paths seen before it. */
  function ParseMock(env: Env, format: int, raw: RawMock, seen: set<string>): Result<Parsed, Problem> {
    if raw.NotADict? || !Truthy(Field(raw.fields, "path")) then
      Err(NoPath)
    else if format == 1 && (HasSequences(raw.fields) || Field(raw.fields, "recording") != Null || raw.recordings.Some?) then
      Err(NeedsFormatTwo)
    else
      var decoded := ConvertMock(raw.fields, DECODING);
      if decoded.Err? then Err(decoded.error)
      else if StaleCacheTime(decoded.value) then Err(CacheTimeSet)
      else
        var data := decoded.value - {"cache_time"};
        var value := env.schema(data);
        if value.None? then Err(BadConfiguration)
        else if !Field(data, "path").Str? then Err(BadPath)
        else
          var path := Normalize(data["path"].text);
          if path.None? then Err(BadPath)
          else if !env.compiles(path.value) then Err(BadPath)
          else if path.value in seen then Err(DuplicatePath)
          else
            var mock := value.value.(path := path.value);
            if raw.recordings.Some? then
              if raw.recordings.value.NotAList? then Err(BadRecordings)
              else if mock.recording.None? then Err(BadRecordings)
              else if Importable(mock.recording.value, env.codec.hash, env.codec.size, raw.recordings.value.list) then
                Ok(Parsed(mock, Some(raw.recordings.value.list)))
              else Err(BadRecordings)
            else Ok(Parsed(mock, if mock.recording.Some? then Some([]) else None))
  }

  function ParsedPaths(parsed: seq<Parsed>): set<string> {
    set p | p in parsed :: p.mock.path
  }

  /** A check on one mock, given the paths seen before it. */
  type Parser = (RawMock, set<string>) -> Result<Parsed, Problem>

  /** The first `n` mocks of a document, validated in order. */
  function ParseEach(parse: Parser, raws: seq<RawMock>, n: nat): Result<seq<Parsed>, Problem>
    requires n <= |raws|
  {
    if n == 0 then Ok([])
    else
      var before := ParseEach(parse, raws, n - 1);
      if before.Err? then before
      else
        var next := parse(raws[n - 1], ParsedPaths(before.value));
        if next.Err? then Err(next.error) else Ok(before.value + [next.value])
  }

  function MockParser(env: Env, format: int): Parser {
    (raw, seen) => ParseMock(env, format, raw, seen)
  }

  /** The checks on the envelope. */
  predicate GoodEnvelope(doc: Document) {
    && doc.Document?
    && doc.format in {Int(1), Int(2)}
    && (doc.protocol.Some? ==> doc.protocol.value == Str("http"))
    && (doc.format == Int(2) ==> !doc.unknownFields && (doc.generatedBy.Some? ==> doc.generatedBy.value.Str?))
    && doc.mocks.Some?
  }

  /** `parse_snapshot`. */
  function ParseSnapshot(env: Env, doc: Document): Result<seq<Parsed>, Problem> {
    if !GoodEnvelope(doc) then Err(BadEnvelope)
    else ParseEach(MockParser(env, doc.format.number), doc.mocks.value, |doc.mocks.value|)
  }

  /** The loop of `parse_snapshot`, with its set of paths seen so far. */
  method ParseDocument(env: Env, doc: Document) returns (r: Result<seq<Parsed>, Problem>)
    ensures r == ParseSnapshot(env, doc)
  {
    if !GoodEnvelope(doc) {
      return Err(BadEnvelope);
    }
    var raws := doc.mocks.value;
    var parse := MockParser(env, doc.format.number);
    var validated, seenPaths := [], {};
    for index := 0 to |raws|
      invariant ParseEach(parse, raws, index) == Ok(validated)
      invariant seenPaths == ParsedPaths(validated)
    {
      var next := parse(raws[index], seenPaths);
      if next.Err? {
        FirstErrorDecides(parse, raws, index + 1, |raws|);
        return Err(next.error);
      }
      OneMoreParsed(parse, raws, index, validated, next.value);
      validated := validated + [next.value];
      seenPaths := seenPaths + {next.value.mock.path};
    }
    return Ok(validated);
  }

  lemma OneMoreParsed(parse: Parser, raws: seq<RawMock>, n: nat, parsed: seq<Parsed>, next: Parsed)
    requires n < |raws| && ParseEach(parse, raws, n) == Ok(parsed) && parse(raws[n], ParsedPaths(parsed)) == Ok(next)
    ensures ParseEach(parse, raws, n + 1) == Ok(parsed + [next])
    ensures ParsedPaths(parsed + [next]) == ParsedPaths(parsed) + {next.mock.path}
  {
  }

  lemma {:induction false} FirstErrorDecides(parse: Parser, raws: seq<RawMock>, k: nat, n: nat)
    requires k <= n <= |raws| && ParseEach(parse, raws, k).Err?
    ensures ParseEach(parse, raws, n) == ParseEach(parse, raws, k)
  {
    if k < n {
      FirstErrorDecides(parse, raws, k, n - 1);
    }
  }

  // ---------------------------------------------------------------- export

  /** One exported mock; `None` is the KeyError of a recording mock without a store. */
  function ExportMock(a: App, m: Mock): Option<RawMock> {
    if m.recording.None? then Some(RawMock(EncodeMock(Dump(m)), None))
    else if StoreAt(a, m.path).None? then None
    else Some(RawMock(EncodeMock(Dump(m)), Some(Entries(Store.Entries(StoreAt(a, m.path).value.slots)))))
  }

  function ExportMocks(a: App, mocks: seq<Mock>): Option<seq<RawMock>> {
    if mocks == [] then Some([])
    else
      var first, rest := ExportMock(a, mocks[0]), ExportMocks(a, mocks[1..]);
      if first.None? || rest.None? then None else Some([first.value] + rest.value)
  }

  function Envelope(version: string, mocks: seq<RawMock>): Document {
    Document(Int(2), Some(Str("http")), Some(Str("proxy_mock " + version)), false, Some(mocks))
  }

  /** `export_snapshot`. */
  function Export(a: App, version: string): Option<Document> {
    var mocks := ExportMocks(a, a.storage);
    if mocks.None? then None
    else Some(Envelope(version, mocks.value))
  }

  // ---------------------------------------------------------------- import

  /** How an import ends; `Broken` is a ValueError after mutation has begun. */
  datatype ImportResult = Imported | Rejected | Broken

  /** The second check of every path, before mutation. */
  function Revalidated(env: Env, parsed: seq<Parsed>): Option<seq<Parsed>> {
    if parsed == [] then Some([])
    else
      var path := ValidatePath(env.prefix, env.compiles, parsed[0].mock.path);
      var rest := Revalidated(env, parsed[1..]);
      if path.None? || rest.None? then None
      else Some([Parsed(parsed[0].mock.(path := path.value), parsed[0].entries)] + rest.value)
  }

  /** The mutation loop, which stops where `mock_initialization` raises. */
  function ImportMocks(env: Env, a: App, parsed: seq<Parsed>): (App, ImportResult)
    decreases |parsed|
  {
    if parsed == [] then (a, Imported)
    else
      var r := MockInit(env, a, parsed[0].mock, {}, false, parsed[0].entries);
      if r.None? then (a, Broken) else ImportMocks(env, r.value, parsed[1..])
  }

  /** What a document comes to when both checks have passed. */
  function Validated(env: Env, doc: Document): Option<seq<Parsed>> {
    var parsed := ParseSnapshot(env, doc);
    if parsed.Err? then None else Revalidated(env, parsed.value)
  }

  /** `import_snapshot` in merge or replace mode. */
  function Import(env: Env, a: App, doc: Document, replace: bool): (App, ImportResult) {
    var mocks := Validated(env, doc);
    if mocks.None? then (a, Rejected) else ImportMocks(env, if replace then Cleanup(a) else a, mocks.value)
  }
}
