/**
 * The section codec of snapshots (proxy_mock/services/snapshot.py): byte bodies travel as base64.
 * It works on unvalidated values, so every step checks the shape of what it is given.
 */
module SnapshotCodec {
  import opened Wrappers
  import opened Base64
  import opened Json

  /** Why a snapshot document is refused. */
  datatype Problem =
    | TwoBodies | BodyNotText | BodyNotBase64
    | BadEnvelope | NoPath | NeedsFormatTwo | CacheTimeSet | BadConfiguration | BadPath | DuplicatePath
    | BadRecordings

  type Convert = Json -> Result<Json, Problem>

  function EncodeSection(section: Json): Json {
    if section.Dict? && "body" in section.fields && section.fields["body"].Bytes? then
      Dict((section.fields - {"body"})["body_b64" := Str(Encode(section.fields["body"].bytes))])
    else section
  }

  function DecodeSection(section: Json): Result<Json, Problem> {
    if !section.Dict? || "body_b64" !in section.fields then Ok(section)
    else if "body" in section.fields then Err(TwoBodies)
    else
      var raw := section.fields["body_b64"];
      if !raw.Str? then Err(BodyNotText)
      else
        var decoded := Decode(raw.text);
        if decoded.None? then Err(BodyNotBase64)
        else Ok(Dict((section.fields - {"body_b64"})["body" := Bytes(decoded.value)]))
  }

  const ENCODING: Convert := section => Ok(EncodeSection(section))
  const DECODING: Convert := section => DecodeSection(section)

  /** A list comprehension over a function that may raise. */
  function MapAll(items: seq<Json>, f: Convert): Result<seq<Json>, Problem> {
    if items == [] then Ok([])
    else
      var first := f(items[0]);
      if first.Err? then Err(first.error)
      else
        var rest := MapAll(items[1..], f);
        if rest.Err? then rest else Ok([first.value] + rest.value)
  }

  /** Replace one field by its converted value, where it is present. */
  function MapField(o: Object, key: string, f: Convert): Result<Object, Problem> {
    if key !in o then Ok(o)
    else
      var v := f(o[key]);
      if v.Err? then Err(v.error) else Ok(o[key := v.value])
  }

  function MapSequence(sequence: Json, convert: Convert): Result<Json, Problem> {
    if !sequence.Dict? || "responses" !in sequence.fields || !sequence.fields["responses"].Arr? then Ok(sequence)
    else
      var responses := MapAll(sequence.fields["responses"].items, convert);
      if responses.Err? then Err(responses.error)
      else Ok(Dict(sequence.fields["responses" := Arr(responses.value)]))
  }

  /** Convert three fields in turn. */
  function MapFields(o: Object, k1: string, f1: Convert, k2: string, f2: Convert, k3: string, f3: Convert)
    : Result<Object, Problem>
  {
    var a := MapField(o, k1, f1);
    if a.Err? then a
    else
      var b := MapField(a.value, k2, f2);
      if b.Err? then b else MapField(b.value, k3, f3)
  }

  function MapRule(rule: Json, convert: Convert): Result<Json, Problem> {
    if !rule.Dict? then Ok(rule)
    else
      var r := MapFields(
        rule.fields, "input_data", convert, "output_data", convert, "sequence", s => MapSequence(s, convert));
      if r.Err? then Err(r.error) else Ok(Dict(r.value))
  }

  function MapRules(rules: Json, convert: Convert): Result<Json, Problem> {
    if !rules.Arr? then Ok(rules)
    else
      var mapped := MapAll(rules.items, rule => MapRule(rule, convert));
      if mapped.Err? then Err(mapped.error) else Ok(Arr(mapped.value))
  }

  /** `_convert_mock`: all five places that hold a body. */
  function ConvertMock(mock: Object, convert: Convert): Result<Object, Problem> {
    MapFields(
      mock, "mock_data", convert, "rules", r => MapRules(r, convert), "sequence", s => MapSequence(s, convert))
  }

  // ---------------------------------------------------------------- the sections of a mock

  type Check = Json -> bool

  predicate SequenceSections(sequence: Json, p: Check) {
    sequence.Dict? && "responses" in sequence.fields && sequence.fields["responses"].Arr? ==>
      forall s :: s in sequence.fields["responses"].items ==> p(s)
  }

  predicate RuleSections(rule: Json, p: Check) {
    rule.Dict? ==>
      && ("input_data" in rule.fields ==> p(rule.fields["input_data"]))
      && ("output_data" in rule.fields ==> p(rule.fields["output_data"]))
      && ("sequence" in rule.fields ==> SequenceSections(rule.fields["sequence"], p))
  }

  predicate RulesSections(rules: Json, p: Check) {
    rules.Arr? ==> forall rule :: rule in rules.items ==> RuleSections(rule, p)
  }

  /** A check holds of every section of a mock that may carry a body. */
  predicate AllSections(mock: Object, p: Check) {
    && ("mock_data" in mock ==> p(mock["mock_data"]))
    && ("rules" in mock ==> RulesSections(mock["rules"], p))
    && ("sequence" in mock ==> SequenceSections(mock["sequence"], p))
  }

  predicate NoBase64Field(section: Json) {
    section.Dict? ==> "body_b64" !in section.fields
  }

  predicate NoByteBody(section: Json) {
    section.Dict? && "body" in section.fields ==> !section.fields["body"].Bytes?
  }

  /** On one section decoding undoes encoding unless the field of the encoded form is already in use. */
  lemma SectionRoundTrip(s: Json)
    ensures DecodeSection(EncodeSection(s)) == Ok(s) <==> NoBase64Field(s)
    ensures NoByteBody(EncodeSection(s))
  {
    if s.Dict? && "body" in s.fields && s.fields["body"].Bytes? {
      DecodeEncode(s.fields["body"].bytes);
      assert "body" != "body_b64";
      MovedAndBack(s.fields, "body", "body_b64", Str(Encode(s.fields["body"].bytes)));
    }
  }

  /** Moving a field to another name and back restores an object exactly if the name was free. */
  lemma MovedAndBack(f: Object, from: string, to: string, x: Json)
    requires from != to && from in f
    ensures var there := (f - {from})[to := x];
            && from !in there && to in there && there[to] == x
            && ((there - {to})[from := f[from]] == f <==> to !in f)
  {
    var there := (f - {from})[to := x];
    var back := (there - {to})[from := f[from]];
    assert to !in back;
    if to !in f {
      assert back == f;
    }
  }

  predicate Undone(f: Convert, g: Convert, x: Json) {
    f(x).Ok? && g(f(x).value) == Ok(x)
  }

  predicate Total(f: Convert, x: Json) {
    f(x).Ok?
  }

  lemma ConsEqual<T>(x: T, xs: seq<T>, ys: seq<T>)
    requires ys != [] && [x] + xs == ys
    ensures x == ys[0] && xs == ys[1..]
  {
    assert ([x] + xs)[1..] == xs;
  }

  lemma {:induction false} MapAllBack(items: seq<Json>, f: Convert, g: Convert)
    requires forall x :: x in items ==> Total(f, x)
    ensures MapAll(items, f).Ok? && |MapAll(items, f).value| == |items|
    ensures MapAll(MapAll(items, f).value, g) == Ok(items) <==> forall x :: x in items ==> Undone(f, g, x)
  {
    if items != [] {
      assert items == [items[0]] + items[1..];
      assert forall x :: x in items <==> x == items[0] || x in items[1..];
      assert Total(f, items[0]);
      MapAllBack(items[1..], f, g);
      var mapped := MapAll(items, f).value;
      assert mapped[0] == f(items[0]).value && mapped[1..] == MapAll(items[1..], f).value;
      assert Undone(f, g, items[0]) && MapAll(mapped[1..], g) == Ok(items[1..]) ==> MapAll(mapped, g) == Ok(items);
      if MapAll(mapped, g) == Ok(items) {
        ConsEqual(g(mapped[0]).value, MapAll(mapped[1..], g).value, items);
        assert MapAll(mapped[1..], g) == Ok(items[1..]);
      }
    }
  }

  /** Three fields are converted exactly if each of them can be. */
  lemma MapFieldsOk(o: Object, k1: string, f1: Convert, k2: string, f2: Convert, k3: string, f3: Convert)
    requires k1 != k2 && k2 != k3 && k1 != k3
    ensures MapFields(o, k1, f1, k2, f2, k3, f3).Ok? <==>
            (k1 in o ==> f1(o[k1]).Ok?) && (k2 in o ==> f2(o[k2]).Ok?) && (k3 in o ==> f3(o[k3]).Ok?)
  {
  }

  /** Converting three distinct fields there and back restores an object iff each is restored. */
  lemma MapFieldsBack(
    o: Object, k1: string, f1: Convert, g1: Convert, k2: string, f2: Convert, g2: Convert,
    k3: string, f3: Convert, g3: Convert)
    requires k1 != k2 && k2 != k3 && k1 != k3
    requires (k1 in o ==> Total(f1, o[k1])) && (k2 in o ==> Total(f2, o[k2])) && (k3 in o ==> Total(f3, o[k3]))
    ensures var there := MapFields(o, k1, f1, k2, f2, k3, f3);
            && there.Ok?
            && there.value.Keys == o.Keys
            && (k1 in o ==> there.value[k1] == f1(o[k1]).value)
            && (k2 in o ==> there.value[k2] == f2(o[k2]).value)
            && (k3 in o ==> there.value[k3] == f3(o[k3]).value)
            && (MapFields(there.value, k1, g1, k2, g2, k3, g3) == Ok(o) <==>
                  && (k1 in o ==> Undone(f1, g1, o[k1]))
                  && (k2 in o ==> Undone(f2, g2, o[k2]))
                  && (k3 in o ==> Undone(f3, g3, o[k3])))
  {
    MapFieldsOk(o, k1, f1, k2, f2, k3, f3);
    Mapped(o, k1, f1, k2, f2, k3, f3);
    var there := MapFields(o, k1, f1, k2, f2, k3, f3).value;
    MapFieldsOk(there, k1, g1, k2, g2, k3, g3);
    var back := MapFields(there, k1, g1, k2, g2, k3, g3);
    if back.Ok? {
      Mapped(there, k1, g1, k2, g2, k3, g3);
      if (k1 in o ==> Undone(f1, g1, o[k1])) && (k2 in o ==> Undone(f2, g2, o[k2])) && (k3 in o ==> Undone(f3, g3, o[k3])) {
        assert back.value == o;
      }
    }
  }

  lemma Mapped(o: Object, k1: string, f1: Convert, k2: string, f2: Convert, k3: string, f3: Convert)
    requires k1 != k2 && k2 != k3 && k1 != k3
    requires MapFields(o, k1, f1, k2, f2, k3, f3).Ok?
    ensures var m := MapFields(o, k1, f1, k2, f2, k3, f3).value;
            && m.Keys == o.Keys
            && (k1 in o ==> f1(o[k1]) == Ok(m[k1]))
            && (k2 in o ==> f2(o[k2]) == Ok(m[k2]))
            && (k3 in o ==> f3(o[k3]) == Ok(m[k3]))
            && forall k :: k in o && k != k1 && k != k2 && k != k3 ==> m[k] == o[k]
  {
  }

  lemma MapSequenceBack(sequence: Json, f: Convert, g: Convert)
    requires forall x :: Total(f, x)
    ensures MapSequence(sequence, f).Ok?
    ensures MapSequence(MapSequence(sequence, f).value, g) == Ok(sequence)
            <==> SequenceSections(sequence, s => Undone(f, g, s))
  {
    if sequence.Dict? && "responses" in sequence.fields && sequence.fields["responses"].Arr? {
      var items := sequence.fields["responses"].items;
      MapAllBack(items, f, g);
      var there := MapSequence(sequence, f).value;
      var back := MapAll(there.fields["responses"].items, g);
      assert there.fields["responses"].items == MapAll(items, f).value;
      if back.Ok? {
        var restored := Dict(there.fields["responses" := Arr(back.value)]);
        if back.value == items {
          assert restored.fields == sequence.fields;
        } else {
          assert restored.fields["responses"] != sequence.fields["responses"];
        }
      }
    }
  }

  lemma MapRuleBack(rule: Json, f: Convert, g: Convert)
    requires forall x :: Total(f, x)
    ensures MapRule(rule, f).Ok?
    ensures MapRule(MapRule(rule, f).value, g) == Ok(rule) <==> RuleSections(rule, s => Undone(f, g, s))
  {
    if rule.Dict? {
      var o := rule.fields;
      var fs: Convert := s => MapSequence(s, f);
      var gs: Convert := s => MapSequence(s, g);
      if "sequence" in o {
        MapSequenceBack(o["sequence"], f, g);
      }
      MapFieldsBack(o, "input_data", f, g, "output_data", f, g, "sequence", fs, gs);
    }
  }

  lemma MapRulesBack(rules: Json, f: Convert, g: Convert)
    requires forall x :: Total(f, x)
    ensures MapRules(rules, f).Ok?
    ensures MapRules(MapRules(rules, f).value, g) == Ok(rules) <==> RulesSections(rules, s => Undone(f, g, s))
  {
    if rules.Arr? {
      var fr: Convert := rule => MapRule(rule, f);
      var gr: Convert := rule => MapRule(rule, g);
      forall rule
        ensures Total(fr, rule)
        ensures Undone(fr, gr, rule) <==> RuleSections(rule, s => Undone(f, g, s))
      {
        MapRuleBack(rule, f, g);
      }
      MapAllBack(rules.items, fr, gr);
    }
  }

  /** Converting a mock there and back restores it iff every one of its sections is restored. */
  lemma ConvertMockBack(mock: Object, f: Convert, g: Convert)
    requires forall x :: Total(f, x)
    ensures ConvertMock(mock, f).Ok?
    ensures ConvertMock(ConvertMock(mock, f).value, g) == Ok(mock) <==> AllSections(mock, s => Undone(f, g, s))
  {
    var fr: Convert := r => MapRules(r, f);
    var gr: Convert := r => MapRules(r, g);
    var fs: Convert := s => MapSequence(s, f);
    var gs: Convert := s => MapSequence(s, g);
    if "rules" in mock {
      MapRulesBack(mock["rules"], f, g);
    }
    if "sequence" in mock {
      MapSequenceBack(mock["sequence"], f, g);
    }
    MapFieldsBack(mock, "mock_data", f, g, "rules", fr, gr, "sequence", fs, gs);
  }

  /** The encoded form of a mock. */
  function EncodeMock(mock: Object): Object {
    ConvertMockBack(mock, ENCODING, ENCODING);
    ConvertMock(mock, ENCODING).value
  }

  /**
   * The codec is invertible on a mock exactly when none of its sections already uses the field
   * that the encoded form needs.
   */
  lemma CodecRoundTripIff(mock: Object)
    ensures ConvertMock(EncodeMock(mock), DECODING) == Ok(mock) <==> AllSections(mock, s => NoBase64Field(s))
  {
    ConvertMockBack(mock, ENCODING, DECODING);
    forall s
      ensures Undone(ENCODING, DECODING, s) <==> NoBase64Field(s)
    {
      SectionRoundTrip(s);
    }
    SameSections(mock, s => Undone(ENCODING, DECODING, s), s => NoBase64Field(s));
  }

  lemma SameSections(mock: Object, p: Check, q: Check)
    requires forall s :: p(s) <==> q(s)
    ensures AllSections(mock, p) <==> AllSections(mock, q)
  {
    forall r
      ensures RuleSections(r, p) <==> RuleSections(r, q)
    {
    }
  }

  lemma {:induction false} MapAllOk(items: seq<Json>, f: Convert)
    ensures MapAll(items, f).Ok? <==> forall x :: x in items ==> f(x).Ok?
  {
    if items != [] {
      assert items == [items[0]] + items[1..];
      MapAllOk(items[1..], f);
    }
  }

  lemma MapSequenceOk(sequence: Json, f: Convert)
    ensures MapSequence(sequence, f).Ok? <==> SequenceSections(sequence, s => f(s).Ok?)
  {
    if sequence.Dict? && "responses" in sequence.fields && sequence.fields["responses"].Arr? {
      MapAllOk(sequence.fields["responses"].items, f);
    }
  }

  lemma MapRuleOk(rule: Json, f: Convert)
    ensures MapRule(rule, f).Ok? <==> RuleSections(rule, s => f(s).Ok?)
  {
    if rule.Dict? {
      if "sequence" in rule.fields {
        MapSequenceOk(rule.fields["sequence"], f);
      }
      MapFieldsOk(rule.fields, "input_data", f, "output_data", f, "sequence", s => MapSequence(s, f));
    }
  }

  lemma MapRulesOk(rules: Json, f: Convert)
    ensures MapRules(rules, f).Ok? <==> RulesSections(rules, s => f(s).Ok?)
  {
    if rules.Arr? {
      MapAllOk(rules.items, rule => MapRule(rule, f));
      forall rule | rule in rules.items
        ensures MapRule(rule, f).Ok? <==> RuleSections(rule, s => f(s).Ok?)
      {
        MapRuleOk(rule, f);
      }
    }
  }

  /** A mock is converted exactly if each of its sections can be. */
  lemma ConvertMockOk(mock: Object, f: Convert)
    ensures ConvertMock(mock, f).Ok? <==> AllSections(mock, s => f(s).Ok?)
  {
    if "rules" in mock {
      MapRulesOk(mock["rules"], f);
    }
    if "sequence" in mock {
      MapSequenceOk(mock["sequence"], f);
    }
    MapFieldsOk(mock, "mock_data", f, "rules", r => MapRules(r, f), "sequence", s => MapSequence(s, f));
  }

  /** A section has a text body or an encoded one that is base64, but not both. */
  predicate Decodable(section: Json) {
    section.Dict? && "body_b64" in section.fields ==>
      "body" !in section.fields && section.fields["body_b64"].Str? && Decode(section.fields["body_b64"].text).Some?
  }

  /** Decoding accepts a mock exactly if all its sections can be decoded. */
  lemma DecodingOkIff(mock: Object)
    ensures ConvertMock(mock, DECODING).Ok? <==> AllSections(mock, s => Decodable(s))
  {
    ConvertMockOk(mock, DECODING);
    SameSections(mock, s => DECODING(s).Ok?, s => Decodable(s));
  }

  lemma {:induction false} MapAllItems(items: seq<Json>, f: Convert)
    requires MapAll(items, f).Ok?
    ensures forall y :: y in MapAll(items, f).value ==> exists x :: x in items && f(x) == Ok(y)
  {
    if items != [] {
      MapAllItems(items[1..], f);
    }
  }

  /** No byte string is left in any section of an encoded mock, so it can be written as JSON. */
  lemma EncodedIsJson(mock: Object)
    ensures AllSections(EncodeMock(mock), s => NoByteBody(s))
  {
    ConvertMockBack(mock, ENCODING, ENCODING);
    forall s
      ensures NoByteBody(EncodeSection(s))
    {
      SectionRoundTrip(s);
    }
    var fr: Convert := r => MapRules(r, ENCODING);
    var fs: Convert := s => MapSequence(s, ENCODING);
    Mapped(mock, "mock_data", ENCODING, "rules", fr, "sequence", fs);
    if "rules" in mock {
      EncodedRules(mock["rules"]);
    }
    if "sequence" in mock {
      EncodedSequence(mock["sequence"]);
    }
  }

  lemma EncodedSequence(sequence: Json)
    requires MapSequence(sequence, ENCODING).Ok?
    ensures SequenceSections(MapSequence(sequence, ENCODING).value, s => NoByteBody(s))
  {
    if sequence.Dict? && "responses" in sequence.fields && sequence.fields["responses"].Arr? {
      MapAllItems(sequence.fields["responses"].items, ENCODING);
      forall s
        ensures NoByteBody(EncodeSection(s))
      {
        SectionRoundTrip(s);
      }
    }
  }

  lemma EncodedRule(rule: Json)
    requires MapRule(rule, ENCODING).Ok?
    ensures RuleSections(MapRule(rule, ENCODING).value, s => NoByteBody(s))
  {
    if rule.Dict? {
      var fs: Convert := s => MapSequence(s, ENCODING);
      Mapped(rule.fields, "input_data", ENCODING, "output_data", ENCODING, "sequence", fs);
      forall s
        ensures NoByteBody(EncodeSection(s))
      {
        SectionRoundTrip(s);
      }
      if "sequence" in rule.fields {
        EncodedSequence(rule.fields["sequence"]);
      }
    }
  }

  lemma EncodedRules(rules: Json)
    requires MapRules(rules, ENCODING).Ok?
    ensures RulesSections(MapRules(rules, ENCODING).value, s => NoByteBody(s))
  {
    if rules.Arr? {
      var fr: Convert := rule => MapRule(rule, ENCODING);
      MapAllItems(rules.items, fr);
      forall rule | MapRule(rule, ENCODING).Ok?
        ensures RuleSections(MapRule(rule, ENCODING).value, s => NoByteBody(s))
      {
        EncodedRule(rule);
      }
    }
  }
}
