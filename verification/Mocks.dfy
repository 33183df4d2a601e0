/**
 * Validated mock configurations (proxy_mock/api/schemas.py, proxy_mock/domain/models.py): the
 * typed form that storage keeps, its cross-field rules, and its dictionary form.
 */
module Mocks {
  import opened Wrappers
  import opened Json
  import opened Paths
  import opened Recordings
  import opened SnapshotCodec

  datatype OnExhaustion = RepeatLast | Fail

  /** Every response is a section: a dictionary with `body`, `status_code` and `headers`. */
  datatype Sequence = Sequence(responses: seq<Object>, onExhaustion: OnExhaustion)

  /** What a rule asks of a request. */
  datatype Condition = Condition(
    methods: Option<seq<string>>, body: Json, headers: map<string, string>, query: map<string, string>,
    proxyHost: Option<string>, timeout: Option<real>)

  datatype Rule = Rule(
    input: Condition, output: Object, extraInfo: Json, priority: int, timestamp: real, sequence: Option<Sequence>)

  datatype Mock = Mock(
    path: RootedPath, methods: seq<string>, mockData: Object, extraInfo: Json, proxyHost: Option<string>,
    timeout: Option<real>, rules: Option<seq<Rule>>, sequence: Option<Sequence>, recording: Option<Config>)

  /** Truth of an optional host: absent and empty both mean "no proxying". */
  predicate HasHost(host: Option<string>) {
    host.Some? && host.value != ""
  }

  predicate HasDelay(timeout: Option<real>) {
    timeout.Some? && timeout.value != 0.0
  }

  function RulesOf(m: Mock): seq<Rule> {
    m.rules.GetOr([])
  }

  predicate HasSequence(m: Mock) {
    m.sequence.Some? || exists r :: r in RulesOf(m) && r.sequence.Some?
  }

  const SECTION_FIELDS: set<string> := {"body", "status_code", "headers"}

  predicate ValidSection(o: Object) {
    o.Keys <= SECTION_FIELDS
  }

  predicate ValidSequence(s: Sequence) {
    s.responses != [] && forall r :: r in s.responses ==> ValidSection(r)
  }

  /** `RuleResource`. */
  predicate ValidRule(r: Rule) {
    && ValidSection(r.output)
    && (r.sequence.Some? ==> ValidSequence(r.sequence.value) && !HasHost(r.input.proxyHost))
  }

  /** `MockResource`: the configurations that PUT, PATCH and import accept. */
  predicate ValidMock(m: Mock) {
    && m.methods != []
    && ValidSection(m.mockData)
    && (forall r :: r in RulesOf(m) ==> ValidRule(r))
    && (m.sequence.Some? ==> ValidSequence(m.sequence.value))
    && (HasSequence(m) ==> !HasHost(m.proxyHost))
    && (m.recording.Some? ==>
          && (m.recording.value.mode.Record? ==> HasHost(m.proxyHost))
          && !HasSequence(m) && RulesOf(m) == []
          && m.recording.value.maxItems > 0 && m.recording.value.maxBytes > 0)
  }

  // ---------------------------------------------------------------- dictionary form

  function Optional<T>(v: Option<T>, f: T -> Json): Json {
    if v.Some? then f(v.value) else Null
  }

  function DumpStrings(s: seq<string>): Json {
    Arr(seq(|s|, i requires 0 <= i < |s| => Str(s[i])))
  }

  function DumpPairs(m: map<string, string>): Json {
    Dict(map k | k in m :: Str(m[k]))
  }

  function DumpResponses(s: seq<Object>): Json {
    Arr(seq(|s|, i requires 0 <= i < |s| => Dict(s[i])))
  }

  function DumpSequence(s: Sequence): Json {
    Dict(map[
      "responses" := DumpResponses(s.responses),
      "on_exhaustion" := Str(if s.onExhaustion.Fail? then "error" else "repeat_last")])
  }

  function DumpCondition(c: Condition): Json {
    Dict(map[
      "methods" := Optional(c.methods, DumpStrings),
      "body" := c.body,
      "headers" := DumpPairs(c.headers),
      "query" := DumpPairs(c.query),
      "proxy_host" := Optional(c.proxyHost, s => Str(s)),
      "timeout" := Optional(c.timeout, r => Float(r))])
  }

  function DumpRule(r: Rule): Json {
    Dict(map[
      "input_data" := DumpCondition(r.input),
      "output_data" := Dict(r.output),
      "extra_info" := r.extraInfo,
      "priority" := Int(r.priority),
      "timestamp" := Float(r.timestamp),
      "sequence" := Optional(r.sequence, DumpSequence)])
  }

  function DumpRules(rules: seq<Rule>): Json {
    Arr(seq(|rules|, i requires 0 <= i < |rules| => DumpRule(rules[i])))
  }

  function DumpConfig(c: Config): Json {
    Dict(map[
      "mode" := Str(if c.mode.Record? then "record" else "replay"),
      "match_headers" := DumpStrings(c.matchHeaders),
      "max_items" := Int(c.maxItems),
      "max_bytes" := Int(c.maxBytes)])
  }

  /** `model_dump`: the dictionary that storage keeps and export writes. */
  function Dump(m: Mock): Object {
    map[
      "path" := Str(m.path),
      "methods" := DumpStrings(m.methods),
      "mock_data" := Dict(m.mockData),
      "extra_info" := m.extraInfo,
      "proxy_host" := Optional(m.proxyHost, s => Str(s)),
      "timeout" := Optional(m.timeout, r => Float(r)),
      "rules" := Optional(m.rules, DumpRules),
      "sequence" := Optional(m.sequence, DumpSequence),
      "recording" := Optional(m.recording, DumpConfig)]
  }

  // ---------------------------------------------------------------- reading the dictionary form

  function ReadOptional<T>(v: Json, read: Json -> Option<T>): Option<Option<T>> {
    if v.Null? then Some(None)
    else
      var r := read(v);
      if r.None? then None else Some(Some(r.value))
  }

  function ReadList<T>(v: Json, read: Json -> Option<T>): Option<seq<T>> {
    if v.Arr? && forall x :: x in v.items ==> read(x).Some?
    then Some(seq(|v.items|, i requires 0 <= i < |v.items| => read(v.items[i]).value))
    else None
  }

  function ReadText(v: Json): Option<string> {
    if v.Str? then Some(v.text) else None
  }

  function ReadNumber(v: Json): Option<real> {
    if v.Float? then Some(v.float) else None
  }

  function ReadObject(v: Json): Option<Object> {
    if v.Dict? then Some(v.fields) else None
  }

  function ReadPairs(v: Json): Option<map<string, string>> {
    if v.Dict? && forall k :: k in v.fields ==> v.fields[k].Str?
    then Some(map k | k in v.fields :: v.fields[k].text)
    else None
  }

  predicate HasFields(v: Json, names: set<string>) {
    v.Dict? && names <= v.fields.Keys
  }

  function ReadSequence(v: Json): Option<Sequence> {
    if !HasFields(v, {"responses", "on_exhaustion"}) then None
    else
      var responses := ReadList(v.fields["responses"], ReadObject);
      var policy := v.fields["on_exhaustion"];
      if responses.None? then None
      else if policy == Str("repeat_last") then Some(Sequence(responses.value, RepeatLast))
      else if policy == Str("error") then Some(Sequence(responses.value, Fail))
      else None
  }

  function ReadCondition(v: Json): Option<Condition> {
    if !HasFields(v, {"methods", "body", "headers", "query", "proxy_host", "timeout"}) then None
    else
      var methods := ReadOptional(v.fields["methods"], x => ReadList(x, ReadText));
      var headers, query := ReadPairs(v.fields["headers"]), ReadPairs(v.fields["query"]);
      var host, timeout := ReadOptional(v.fields["proxy_host"], ReadText), ReadOptional(v.fields["timeout"], ReadNumber);
      if methods.None? || headers.None? || query.None? || host.None? || timeout.None? then None
      else Some(Condition(methods.value, v.fields["body"], headers.value, query.value, host.value, timeout.value))
  }

  function ReadRule(v: Json): Option<Rule> {
    if !HasFields(v, {"input_data", "output_data", "extra_info", "priority", "timestamp", "sequence"}) then None
    else
      var input, output := ReadCondition(v.fields["input_data"]), v.fields["output_data"];
      var priority, timestamp := v.fields["priority"], v.fields["timestamp"];
      var sequence := ReadOptional(v.fields["sequence"], ReadSequence);
      if input.None? || !output.Dict? || !priority.Int? || !timestamp.Float? || sequence.None? then None
      else Some(Rule(
        input.value, output.fields, v.fields["extra_info"], priority.number, timestamp.float, sequence.value))
  }

  function ReadConfig(v: Json): Option<Config> {
    if !HasFields(v, {"mode", "match_headers", "max_items", "max_bytes"}) then None
    else
      var mode, headers := v.fields["mode"], ReadList(v.fields["match_headers"], ReadText);
      var items, bytes := v.fields["max_items"], v.fields["max_bytes"];
      if headers.None? || !items.Int? || items.number < 0 || !bytes.Int? || bytes.number < 0 then None
      else if mode == Str("record") then Some(Config(Record, headers.value, items.number, bytes.number))
      else if mode == Str("replay") then Some(Config(Replay, headers.value, items.number, bytes.number))
      else None
  }

  /** A reader of complete dictionaries, field by field; it supplies no defaults and converts nothing. */
  function ReadMock(o: Object): Option<Mock> {
    if !({"path", "methods", "mock_data", "extra_info", "proxy_host", "timeout", "rules", "sequence", "recording"} <= o.Keys)
    then None
    else
      var path, methods, data := o["path"], ReadList(o["methods"], ReadText), o["mock_data"];
      var host, timeout := ReadOptional(o["proxy_host"], ReadText), ReadOptional(o["timeout"], ReadNumber);
      var rules := ReadOptional(o["rules"], x => ReadList(x, ReadRule));
      var sequence, recording := ReadOptional(o["sequence"], ReadSequence), ReadOptional(o["recording"], ReadConfig);
      if !path.Str? || !Rooted(path.text) || methods.None? || !data.Dict? || host.None? || timeout.None? || rules.None?
         || sequence.None? || recording.None? then None
      else Some(Mock(
        path.text, methods.value, data.fields, o["extra_info"], host.value, timeout.value, rules.value, sequence.value,
        recording.value))
  }

  lemma ListRead<T>(v: Json, read: Json -> Option<T>, s: seq<T>)
    requires v.Arr? && |v.items| == |s| && forall i :: 0 <= i < |s| ==> read(v.items[i]) == Some(s[i])
    ensures ReadList(v, read) == Some(s)
  {
    forall x | x in v.items
      ensures read(x).Some?
    {
      var i :| 0 <= i < |v.items| && v.items[i] == x;
    }
    assert ReadList(v, read).value == s;
  }

  lemma StringsRead(s: seq<string>)
    ensures ReadList(DumpStrings(s), ReadText) == Some(s)
  {
    ListRead(DumpStrings(s), ReadText, s);
  }

  lemma PairsRead(m: map<string, string>)
    ensures ReadPairs(DumpPairs(m)) == Some(m)
  {
    assert DumpPairs(m).fields.Keys == m.Keys;
    assert ReadPairs(DumpPairs(m)).value == m;
  }

  lemma ResponsesRead(s: seq<Object>)
    ensures ReadList(DumpResponses(s), ReadObject) == Some(s)
  {
    ListRead(DumpResponses(s), ReadObject, s);
  }

  lemma SequenceRead(s: Sequence)
    ensures ReadSequence(DumpSequence(s)) == Some(s)
  {
    ResponsesRead(s.responses);
    assert "error" != "repeat_last";
  }

  lemma OptionalSequenceRead(s: Option<Sequence>)
    ensures ReadOptional(Optional(s, DumpSequence), ReadSequence) == Some(s)
  {
    if s.Some? {
      SequenceRead(s.value);
    }
  }

  lemma ConditionRead(c: Condition)
    ensures ReadCondition(DumpCondition(c)) == Some(c)
  {
    var f := DumpCondition(c).fields;
    assert f["methods"] == Optional(c.methods, DumpStrings) && f["body"] == c.body && f["headers"] == DumpPairs(c.headers);
    assert f["query"] == DumpPairs(c.query) && f["proxy_host"] == Optional(c.proxyHost, s => Str(s));
    assert f["timeout"] == Optional(c.timeout, r => Float(r));
    if c.methods.Some? {
      StringsRead(c.methods.value);
    }
    PairsRead(c.headers);
    PairsRead(c.query);
  }

  lemma RuleRead(r: Rule)
    ensures ReadRule(DumpRule(r)) == Some(r)
  {
    var f := DumpRule(r).fields;
    assert f["input_data"] == DumpCondition(r.input) && f["output_data"] == Dict(r.output);
    assert f["extra_info"] == r.extraInfo && f["priority"] == Int(r.priority) && f["timestamp"] == Float(r.timestamp);
    assert f["sequence"] == Optional(r.sequence, DumpSequence);
    ConditionRead(r.input);
    OptionalSequenceRead(r.sequence);
  }

  lemma RulesRead(rules: seq<Rule>)
    ensures ReadList(DumpRules(rules), ReadRule) == Some(rules)
  {
    forall i | 0 <= i < |rules|
      ensures ReadRule(DumpRules(rules).items[i]) == Some(rules[i])
    {
      RuleRead(rules[i]);
    }
    ListRead(DumpRules(rules), ReadRule, rules);
  }

  lemma ConfigRead(c: Config)
    ensures ReadConfig(DumpConfig(c)) == Some(c)
  {
    var f := DumpConfig(c).fields;
    assert f["mode"] == Str(if c.mode.Record? then "record" else "replay") && f["match_headers"] == DumpStrings(c.matchHeaders);
    assert f["max_items"] == Int(c.maxItems) && f["max_bytes"] == Int(c.maxBytes);
    assert "record"[2] != "replay"[2];
    StringsRead(c.matchHeaders);
  }

  /** Reading the dictionary form of a configuration field by field gives the configuration back. */
  lemma DumpReads(m: Mock)
    ensures ReadMock(Dump(m)) == Some(m)
  {
    var o := Dump(m);
    assert o["path"] == Str(m.path) && o["methods"] == DumpStrings(m.methods) && o["mock_data"] == Dict(m.mockData);
    assert o["extra_info"] == m.extraInfo && o["proxy_host"] == Optional(m.proxyHost, s => Str(s));
    assert o["timeout"] == Optional(m.timeout, r => Float(r)) && o["rules"] == Optional(m.rules, DumpRules);
    assert o["sequence"] == Optional(m.sequence, DumpSequence) && o["recording"] == Optional(m.recording, DumpConfig);
    StringsRead(m.methods);
    if m.rules.Some? {
      RulesRead(m.rules.value);
    }
    OptionalSequenceRead(m.sequence);
    if m.recording.Some? {
      ConfigRead(m.recording.value);
    }
  }

  /** So the dictionary form determines the configuration. */
  lemma DumpInjective(a: Mock, b: Mock)
    requires Dump(a) == Dump(b)
    ensures a == b
  {
    DumpReads(a);
    DumpReads(b);
  }

  lemma ValidSectionHasNoBase64(o: Object)
    requires ValidSection(o)
    ensures NoBase64Field(Dict(o))
  {
    assert "body_b64" !in SECTION_FIELDS;
  }

  lemma DumpedSequenceSections(s: Sequence)
    requires ValidSequence(s)
    ensures SequenceSections(DumpSequence(s), x => NoBase64Field(x))
  {
    var items := DumpResponses(s.responses).items;
    assert DumpSequence(s).fields["responses"] == Arr(items);
    forall x | x in items
      ensures NoBase64Field(x)
    {
      var i :| 0 <= i < |items| && items[i] == x;
      assert x == Dict(s.responses[i]);
      ValidSectionHasNoBase64(s.responses[i]);
    }
  }

  lemma DumpedRuleSections(r: Rule)
    requires ValidRule(r)
    ensures RuleSections(DumpRule(r), x => NoBase64Field(x))
  {
    ValidSectionHasNoBase64(r.output);
    var f := DumpRule(r).fields;
    assert f["input_data"] == DumpCondition(r.input) && f["output_data"] == Dict(r.output);
    assert "body_b64" !in DumpCondition(r.input).fields;
    assert f["sequence"] == Optional(r.sequence, DumpSequence);
    if r.sequence.Some? {
      DumpedSequenceSections(r.sequence.value);
    }
  }

  /** A valid configuration never uses the field that the snapshot codec needs. */
  lemma DumpedSections(m: Mock)
    requires ValidMock(m)
    ensures AllSections(Dump(m), x => NoBase64Field(x))
  {
    ValidSectionHasNoBase64(m.mockData);
    var o := Dump(m);
    assert o["mock_data"] == Dict(m.mockData) && o["sequence"] == Optional(m.sequence, DumpSequence);
    assert o["rules"] == Optional(m.rules, DumpRules);
    if m.sequence.Some? {
      DumpedSequenceSections(m.sequence.value);
    }
    if m.rules.Some? {
      var items := DumpRules(m.rules.value).items;
      forall x | x in items
        ensures RuleSections(x, y => NoBase64Field(y))
      {
        var i :| 0 <= i < |items| && items[i] == x;
        assert m.rules.value[i] in RulesOf(m);
        DumpedRuleSections(m.rules.value[i]);
      }
    }
  }

  /** Exported configuration decodes to the stored dictionary. */
  lemma ExportDecodes(m: Mock)
    requires ValidMock(m)
    ensures ConvertMock(EncodeMock(Dump(m)), DECODING) == Ok(Dump(m))
  {
    DumpedSections(m);
    CodecRoundTripIff(Dump(m));
  }

  // ---------------------------------------------------------------- configuration parsing

  /** The path of a mock does not matter to the rules on its configuration. */
  lemma ValidWithPath(m: Mock, p: RootedPath)
    ensures ValidMock(m.(path := p)) <==> ValidMock(m)
  {
    assert RulesOf(m.(path := p)) == RulesOf(m);
    assert HasSequence(m.(path := p)) <==> HasSequence(m);
  }

  /** The parser accepts nothing that breaks the cross-field rules. */
  ghost predicate SoundSchema(schema: Object -> Option<Mock>) {
    forall o :: schema(o).Some? ==> ValidMock(schema(o).value)
  }

  /** The parser accepts the dictionary form of a configuration and reads the same one back. */
  predicate ReadsBack(schema: Object -> Option<Mock>, m: Mock) {
    schema(Dump(m)).Some? && schema(Dump(m)).value.(path := m.path) == m
  }

  /** Whatever the parser has accepted, it reads back; the path is set apart from it. */
  ghost predicate StableSchema(schema: Object -> Option<Mock>) {
    forall o, p: RootedPath :: schema(o).Some? ==> ReadsBack(schema, schema(o).value.(path := p))
  }

  /** A parser of complete dictionaries, for a class of configurations: for instance those with HTTP methods only. */
  function Strict(accepts: Mock -> bool): Object -> Option<Mock> {
    o =>
      var m := ReadMock(o);
      if m.Some? && ValidMock(m.value) && accepts(m.value) then m else None
  }

  /** For every class that ignores the path it is sound and stable, and it accepts exactly the class. */
  lemma StrictWorks(accepts: Mock -> bool)
    requires forall m: Mock, p: RootedPath :: accepts(m.(path := p)) == accepts(m)
    ensures SoundSchema(Strict(accepts)) && StableSchema(Strict(accepts))
    ensures forall m :: ValidMock(m) ==> (ReadsBack(Strict(accepts), m) <==> accepts(m))
  {
    var schema := Strict(accepts);
    forall m | ValidMock(m)
      ensures schema(Dump(m)) == if accepts(m) then Some(m) else None
    {
      DumpReads(m);
    }
    forall o, p: RootedPath | schema(o).Some?
      ensures ReadsBack(schema, schema(o).value.(path := p))
    {
      ValidWithPath(schema(o).value, p);
      assert accepts(schema(o).value.(path := p));
    }
  }
}
