/**
 * Which snapshot documents are accepted, and what is read from them, said of the document itself:
 * not in the order of the checks, and without the loop over the paths seen so far.
 */
module SnapshotAcceptance {
  import opened Wrappers
  import opened Json
  import opened Paths
  import opened Recordings
  import opened SnapshotCodec
  import opened Mocks
  import opened Lifecycle
  import opened Snapshot
  import opened RecordingRules

  // ---------------------------------------------------------------- one mock

  /** A field that is missing counts as null. */
  predicate NullAt(o: Object, key: string) {
    key in o ==> o[key].Null?
  }

  /** What documents of the first format may not have: sequences, of the mock or of a rule, and recordings. */
  predicate Plain1(raw: RawMock)
    requires raw.RawMock?
  {
    && NullAt(raw.fields, "sequence") && NullAt(raw.fields, "recording") && raw.recordings.None?
    && ("rules" in raw.fields && raw.fields["rules"].Arr? ==>
          forall r :: r in raw.fields["rules"].items && r.Dict? ==> NullAt(r.fields, "sequence"))
  }

  /** The path a dictionary gives, as it is normalized. */
  function GivenPath(raw: RawMock): Option<RootedPath> {
    if raw.RawMock? && "path" in raw.fields && raw.fields["path"].Str? then Normalize(raw.fields["path"].text) else None
  }

  /** The configuration that the parser makes of the decoded dictionary, without the leftover field. */
  function Configured(env: Env, raw: RawMock): Option<Mock>
    requires raw.RawMock?
  {
    var decoded := ConvertMock(raw.fields, DECODING);
    if decoded.Err? then None else env.schema(map k | k in decoded.value && k != "cache_time" :: decoded.value[k])
  }

  ghost predicate CollectionRules(env: Env, config: Config, list: seq<Entry>) {
    && |list| <= config.maxItems && (forall e :: e in list ==> EntryRules(config, env.codec.hash, e))
    && (forall i, j :: 0 <= i < j < |list| ==> list[i].id != list[j].id)
    && TotalSize(env.codec.size, list) <= config.maxBytes
  }

  /** What a document must say of one mock. */
  ghost predicate MockRules(env: Env, format: int, raw: RawMock) {
    && GivenPath(raw).Some? && env.compiles(GivenPath(raw).value)
    && (format == 1 ==> Plain1(raw))
    && AllSections(raw.fields, s => Decodable(s))
    && ("cache_time" in raw.fields ==> raw.fields["cache_time"] in {Null, Int(0)})
    && Configured(env, raw).Some?
    && (raw.recordings.Some? ==>
          && raw.recordings.value.Entries? && Configured(env, raw).value.recording.Some?
          && CollectionRules(env, Configured(env, raw).value.recording.value, raw.recordings.value.list))
  }

  /** What is read then: the configuration at its path, with the recordings if it records. */
  function ReadFrom(env: Env, raw: RawMock): Parsed
    requires GivenPath(raw).Some? && Configured(env, raw).Some?
  {
    var m := Configured(env, raw).value.(path := GivenPath(raw).value);
    Parsed(m, if m.recording.None? then None
              else if raw.recordings.Some? && raw.recordings.value.Entries? then Some(raw.recordings.value.list)
              else Some([]))
  }

  lemma CollectionIff(env: Env, config: Config, list: seq<Entry>)
    ensures Importable(config, env.codec.hash, env.codec.size, list) <==> CollectionRules(env, config, list)
  {
    forall e | e in list
      ensures ValidEntry(config, env.codec.hash, e) <==> EntryRules(config, env.codec.hash, e)
    {
      EntryIff(config, env.codec.hash, e);
    }
  }

  lemma DecodedFields(raw: RawMock)
    requires raw.RawMock? && ConvertMock(raw.fields, DECODING).Ok?
    ensures var o := ConvertMock(raw.fields, DECODING).value;
            && o.Keys == raw.fields.Keys
            && ("path" in o ==> o["path"] == raw.fields["path"])
            && ("cache_time" in o ==> o["cache_time"] == raw.fields["cache_time"])
            && o - {"cache_time"} == map k | k in o && k != "cache_time" :: o[k]
  {
    var fr: Convert := r => MapRules(r, DECODING);
    var fs: Convert := s => MapSequence(s, DECODING);
    Mapped(raw.fields, "mock_data", DECODING, "rules", fr, "sequence", fs);
  }

  lemma Plain1Iff(raw: RawMock)
    requires raw.RawMock?
    ensures Plain1(raw) <==> !(HasSequences(raw.fields) || Field(raw.fields, "recording") != Null || raw.recordings.Some?)
  {
  }

  /** Validation of one mock whose sections decode. */
  lemma DecodedRulesIff(env: Env, format: int, raw: RawMock, seen: set<string>, decoded: Object, configured: Option<Mock>)
    requires raw.RawMock? && ConvertMock(raw.fields, DECODING) == Ok(decoded)
    requires decoded.Keys == raw.fields.Keys
    requires "path" in decoded ==> decoded["path"] == raw.fields["path"]
    requires "cache_time" in decoded ==> decoded["cache_time"] == raw.fields["cache_time"]
    requires configured == env.schema(decoded - {"cache_time"}) && configured == Configured(env, raw)
    requires AllSections(raw.fields, s => Decodable(s))
    ensures ParseMock(env, format, raw, seen).Ok? <==> MockRules(env, format, raw) && GivenPath(raw).value !in seen
    ensures ParseMock(env, format, raw, seen).Ok? ==> ParseMock(env, format, raw, seen).value == ReadFrom(env, raw)
  {
    Plain1Iff(raw);
    if configured.Some? && configured.value.recording.Some? && raw.recordings.Some? && raw.recordings.value.Entries? {
      CollectionIff(env, configured.value.recording.value, raw.recordings.value.list);
    }
  }

  /** Validation of one mock, after others with the given paths. */
  lemma MockRulesIff(env: Env, format: int, raw: RawMock, seen: set<string>)
    ensures ParseMock(env, format, raw, seen).Ok? <==> MockRules(env, format, raw) && GivenPath(raw).value !in seen
    ensures ParseMock(env, format, raw, seen).Ok? ==> ParseMock(env, format, raw, seen).value == ReadFrom(env, raw)
  {
    if raw.RawMock? {
      DecodingOkIff(raw.fields);
      if ConvertMock(raw.fields, DECODING).Ok? {
        DecodedFields(raw);
        DecodedRulesIff(env, format, raw, seen, ConvertMock(raw.fields, DECODING).value, Configured(env, raw));
      }
    }
  }

  // ---------------------------------------------------------------- whole documents

  predicate EnvelopeRules(doc: Document) {
    && doc.Document? && doc.mocks.Some?
    && (doc.format == Int(1) || doc.format == Int(2))
    && (doc.protocol == None || doc.protocol == Some(Str("http")))
    && (doc.format == Int(2) ==> !doc.unknownFields && (doc.generatedBy.None? || doc.generatedBy.value.Str?))
  }

  /** The mocks of a list meet the rules, and no two of them give one path. */
  ghost predicate ListRules(env: Env, format: int, raws: seq<RawMock>) {
    && (forall i :: 0 <= i < |raws| ==> MockRules(env, format, raws[i]))
    && forall i, j :: 0 <= i < j < |raws| ==> GivenPath(raws[i]) != GivenPath(raws[j])
  }

  ghost predicate ReadsAs(env: Env, raws: seq<RawMock>, parsed: seq<Parsed>) {
    && |parsed| == |raws|
    && forall i :: 0 <= i < |raws| ==>
         GivenPath(raws[i]).Some? && raws[i].RawMock? && Configured(env, raws[i]).Some? && parsed[i] == ReadFrom(env, raws[i])
  }

  lemma SeenPaths(env: Env, raws: seq<RawMock>, parsed: seq<Parsed>, path: RootedPath)
    requires ReadsAs(env, raws, parsed)
    ensures path in ParsedPaths(parsed) <==> exists i :: 0 <= i < |raws| && GivenPath(raws[i]) == Some(path)
  {
    if i :| 0 <= i < |raws| && GivenPath(raws[i]) == Some(path) {
      assert parsed[i] in parsed;
    }
    if path in ParsedPaths(parsed) {
      var i :| 0 <= i < |parsed| && parsed[i].mock.path == path;
    }
  }

  lemma ListStep(env: Env, format: int, front: seq<RawMock>, raw: RawMock)
    ensures ListRules(env, format, front + [raw]) <==>
            && ListRules(env, format, front) && MockRules(env, format, raw)
            && forall i :: 0 <= i < |front| ==> GivenPath(front[i]) != GivenPath(raw)
  {
    var raws := front + [raw];
    assert forall i :: 0 <= i < |front| ==> raws[i] == front[i];
    assert raws[|front|] == raw;
    if ListRules(env, format, raws) {
      forall i | 0 <= i < |front|
        ensures MockRules(env, format, front[i])
      {
        assert MockRules(env, format, raws[i]);
      }
    }
  }

  /** The validated part of a list: accepted by the rules, and read as its dictionaries say. */
  ghost predicate Validated(env: Env, format: int, raws: seq<RawMock>, r: Result<seq<Parsed>, Problem>) {
    && (r.Ok? <==> ListRules(env, format, raws))
    && (r.Ok? ==> ReadsAs(env, raws, r.value))
  }

  lemma OneMore(env: Env, format: int, front: seq<RawMock>, raw: RawMock, before: Result<seq<Parsed>, Problem>,
                next: Result<Parsed, Problem>, all: Result<seq<Parsed>, Problem>)
    requires Validated(env, format, front, before)
    requires before.Err? ==> all.Err?
    requires before.Ok? ==> next == ParseMock(env, format, raw, ParsedPaths(before.value))
    requires before.Ok? ==> all == if next.Err? then Err(next.error) else Ok(before.value + [next.value])
    ensures Validated(env, format, front + [raw], all)
  {
    ListStep(env, format, front, raw);
    if before.Ok? {
      NextIff(env, format, front, before.value, raw);
    }
  }

  lemma EachStep(parse: Parser, raws: seq<RawMock>, n: nat, before: Result<seq<Parsed>, Problem>)
    requires n < |raws| && before == ParseEach(parse, raws, n)
    ensures var all := ParseEach(parse, raws, n + 1);
            if before.Err? then all == before
            else
              var next := parse(raws[n], ParsedPaths(before.value));
              all == if next.Err? then Err(next.error) else Ok(before.value + [next.value])
  {
  }

  lemma NothingYet(env: Env, format: int, parse: Parser, raws: seq<RawMock>)
    ensures Validated(env, format, raws[..0], ParseEach(parse, raws, 0))
  {
  }

  lemma OneLonger(raws: seq<RawMock>, n: nat)
    requires n < |raws|
    ensures raws[..n] + [raws[n]] == raws[..n + 1]
  {
  }

  lemma {:induction false} ListIff(env: Env, format: int, parse: Parser, raws: seq<RawMock>, n: nat)
    requires n <= |raws| && parse == MockParser(env, format)
    ensures Validated(env, format, raws[..n], ParseEach(parse, raws, n))
  {
    if n == 0 {
      NothingYet(env, format, parse, raws);
    } else {
      ListIff(env, format, parse, raws, n - 1);
      OneLonger(raws, n - 1);
      var before := ParseEach(parse, raws, n - 1);
      EachStep(parse, raws, n - 1, before);
      ListNext(env, format, parse, raws[..n - 1], raws[n - 1], before, ParseEach(parse, raws, n));
    }
  }

  lemma ListNext(env: Env, format: int, parse: Parser, front: seq<RawMock>, raw: RawMock,
                 before: Result<seq<Parsed>, Problem>, all: Result<seq<Parsed>, Problem>)
    requires parse == MockParser(env, format) && Validated(env, format, front, before)
    requires if before.Err? then all == before
             else
               var next := parse(raw, ParsedPaths(before.value));
               all == if next.Err? then Err(next.error) else Ok(before.value + [next.value])
    ensures Validated(env, format, front + [raw], all)
  {
    var next := if before.Ok? then parse(raw, ParsedPaths(before.value)) else Err(NoPath);
    OneMore(env, format, front, raw, before, next, all);
  }

  lemma NextIff(env: Env, format: int, front: seq<RawMock>, before: seq<Parsed>, raw: RawMock)
    requires ReadsAs(env, front, before)
    ensures ParseMock(env, format, raw, ParsedPaths(before)).Ok? <==>
            MockRules(env, format, raw) && forall i :: 0 <= i < |front| ==> GivenPath(front[i]) != GivenPath(raw)
    ensures ParseMock(env, format, raw, ParsedPaths(before)).Ok? ==>
              ReadsAs(env, front + [raw], before + [ParseMock(env, format, raw, ParsedPaths(before)).value])
  {
    MockRulesIff(env, format, raw, ParsedPaths(before));
    if MockRules(env, format, raw) {
      SeenPaths(env, front, before, GivenPath(raw).value);
    }
  }

  /**
   * A document is accepted exactly if its envelope and each of its mocks meet the rules and no two of
   * them give one path, whatever order the checks are made in; what is read is what each mock says.
   */
  lemma DocumentIff(env: Env, doc: Document)
    ensures ParseSnapshot(env, doc).Ok? <==> EnvelopeRules(doc) && ListRules(env, doc.format.number, doc.mocks.value)
    ensures ParseSnapshot(env, doc).Ok? ==> ReadsAs(env, doc.mocks.value, ParseSnapshot(env, doc).value)
  {
    if GoodEnvelope(doc) {
      ListIff(env, doc.format.number, MockParser(env, doc.format.number), doc.mocks.value, |doc.mocks.value|);
      assert doc.mocks.value[..|doc.mocks.value|] == doc.mocks.value;
    }
  }
}
