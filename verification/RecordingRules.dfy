/**
 * What a snapshot may carry as recordings of a mock, and what a request is identified by, spelled out
 * over characters, names and places.
 */
module RecordingRules {
  import opened Wrappers
  import opened Base64
  import opened Http
  import opened Recordings
  import opened ReplyHeaders

  /** A letter, a digit or one of the marks that header names may contain. */
  predicate NameChar(c: char) {
    'a' <= c <= 'z' || 'A' <= c <= 'Z' || '0' <= c <= '9' || c in "!#$%&'*+-.^_`|~"
  }

  predicate Name(s: string) {
    |s| > 0 && forall c :: c in s ==> NameChar(c)
  }

  /** Latin-1 text without control characters, but with tabs. */
  predicate Printable(s: string) {
    forall c :: c in s ==> c == '\t' || ' ' <= c <= '~' || '\U{80}' <= c <= '\U{FF}'
  }

  /** Visible ASCII without a fragment. */
  predicate RawTarget(s: string) {
    forall c :: c in s ==> '!' <= c <= '~' && c != '#'
  }

  predicate Among(s: string, alphabet: string) {
    forall c :: c in s ==> c in alphabet
  }

  /** The canonical base64 form of some bytes. */
  ghost predicate Canonical(s: string) {
    exists b: seq<byte> :: Encode(b) == s
  }

  /** An absolute path without query or fragment, and a query without fragment. */
  predicate TargetRules(r: RequestData) {
    r.path != "" && r.path[0] == '/' && '?' !in r.path && RawTarget(r.path) && RawTarget(r.query)
  }

  /** Exactly the selected headers. */
  predicate HeaderRules(config: Config, headers: map<string, seq<string>>) {
    && (forall name :: name in headers ==> name in config.matchHeaders)
    && (forall name :: name in config.matchHeaders ==> name in headers)
    && forall name, v :: name in headers && v in headers[name] ==> Printable(v)
  }

  ghost predicate RequestRules(config: Config, r: RequestData) {
    && r.verb in ["CONNECT", "DELETE", "GET", "HEAD", "OPTIONS", "PATCH", "POST", "PUT", "TRACE"]
    && TargetRules(r) && Canonical(r.bodyB64) && HeaderRules(config, r.headers)
  }

  /** No length, or the length of a reply to HEAD: given once, in digits. */
  predicate LengthRules(verb: string, headers: seq<Header>) {
    || (forall h :: h in headers ==> !Named(h, "content-length"))
    || (verb == "HEAD" && exists i :: 0 <= i < |headers| && LengthAt(headers, i))
  }

  predicate LengthAt(headers: seq<Header>, i: int)
    requires 0 <= i < |headers|
  {
    OnlyAt(headers, "content-length", i) && headers[i].value != "" && Among(headers[i].value, "0123456789")
  }

  ghost predicate ReplyRules(verb: string, d: ReplyData) {
    && 200 <= d.status <= 599 && Canonical(d.bodyB64)
    && (forall h :: h in d.headers ==> Name(h.name) && !Listed(Lower(h.name)) && Printable(h.value))
    && LengthRules(verb, d.headers)
    && (verb == "HEAD" || d.status == 204 || d.status == 304 ==> d.bodyB64 == "")
  }

  ghost predicate EntryRules(config: Config, hash: RequestData -> string, e: Entry) {
    && |e.id| == 64 && Among(e.id, "0123456789abcdef") && e.id == hash(e.request)
    && RequestRules(config, e.request) && ReplyRules(e.request.verb, e.response)
  }

  lemma NameIff(s: string)
    ensures Token(s) <==> Name(s)
  {
    forall c
      ensures TokenChar(c) <==> NameChar(c)
    {
    }
  }

  lemma TextIff(s: string)
    ensures Octets(s) <==> Printable(s)
    ensures Target(s) <==> RawTarget(s)
  {
  }

  lemma DigitsIff(s: string)
    ensures Digits(s) <==> s != "" && Among(s, "0123456789")
  {
    forall c
      ensures '0' <= c <= '9' <==> c in "0123456789"
    {
    }
  }

  lemma HexIff(id: string)
    ensures HexDigest(id) <==> |id| == 64 && Among(id, "0123456789abcdef")
  {
    forall c
      ensures ('0' <= c <= '9' || 'a' <= c <= 'f') <==> c in "0123456789abcdef"
    {
    }
  }

  lemma VerbIff(verb: string)
    ensures verb in METHODS <==> verb in ["CONNECT", "DELETE", "GET", "HEAD", "OPTIONS", "PATCH", "POST", "PUT", "TRACE"]
  {
  }

  lemma ListedIff(name: string)
    ensures Listed(name) <==> name in UNREPLAYABLE
  {
  }

  lemma TargetIff(r: RequestData)
    ensures ValidRequest(r) <==> r.verb in METHODS && TargetRules(r) && ValidBody(r.bodyB64)
  {
    TextIff(r.path);
    TextIff(r.query);
  }

  lemma HeadersIff(config: Config, headers: map<string, seq<string>>)
    ensures HeaderRules(config, headers) <==>
            && headers.Keys == (set name | name in config.matchHeaders)
            && forall name, v :: name in headers && v in headers[name] ==> Octets(v)
  {
    forall name, v | name in headers && v in headers[name]
      ensures Octets(v) <==> Printable(v)
    {
      TextIff(v);
    }
  }

  lemma RequestIff(config: Config, r: RequestData)
    ensures RequestRules(config, r) <==>
            && ValidRequest(r) && r.headers.Keys == (set name | name in config.matchHeaders)
            && forall name, v :: name in r.headers && v in r.headers[name] ==> Octets(v)
  {
    ValidBodyIsImage(r.bodyB64);
    VerbIff(r.verb);
    TargetIff(r);
    HeadersIff(config, r.headers);
  }

  lemma LengthsIff(verb: string, headers: seq<Header>)
    ensures ValidLengths(verb, ValuesOf(headers, LENGTH)) <==> LengthRules(verb, headers)
  {
    var values := ValuesOf(headers, LENGTH);
    ValuesIff(headers, LENGTH);
    OneValue(headers, LENGTH);
    if |values| == 1 {
      var i :| 0 <= i < |headers| && OnlyAt(headers, LENGTH, i);
      DigitsIff(headers[i].value);
      assert headers[i] in headers && Named(headers[i], LENGTH);
      assert LengthRules(verb, headers) <==> verb == "HEAD" && LengthAt(headers, i);
    }
  }

  lemma ReplyIff(verb: string, d: ReplyData)
    ensures ReplyRules(verb, d) <==>
            && ValidReply(d) && (forall h :: h in d.headers ==> Lower(h.name) !in UNREPLAYABLE)
            && ValidLengths(verb, ValuesOf(d.headers, LENGTH)) && (Bodiless(verb, d.status) ==> d.bodyB64 == "")
  {
    ValidBodyIsImage(d.bodyB64);
    LengthsIff(verb, d.headers);
    forall h | h in d.headers
      ensures Token(h.name) <==> Name(h.name)
      ensures Octets(h.value) <==> Printable(h.value)
      ensures Listed(Lower(h.name)) <==> Lower(h.name) in UNREPLAYABLE
    {
      NameIff(h.name);
      TextIff(h.value);
      ListedIff(Lower(h.name));
    }
  }

  /** The import validator accepts an entry exactly by these rules. */
  lemma EntryIff(config: Config, hash: RequestData -> string, e: Entry)
    ensures ValidEntry(config, hash, e) <==> EntryRules(config, hash, e)
  {
    HexIff(e.id);
    RequestIff(config, e.request);
    ReplyIff(e.request.verb, e.response);
  }

  // ---------------------------------------------------------------- identities

  predicate ValuesAt(headers: seq<Header>, name: string, values: seq<string>, at: seq<nat>) {
    && |values| == |at| && Ascending(at, |headers|)
    && (forall k :: 0 <= k < |at| ==> values[k] == headers[at[k]].value)
    && forall i :: 0 <= i < |headers| ==> (i in at <==> Named(headers[i], name))
  }

  lemma ValuesLonger(headers: seq<Header>, last: Header, name: string, values: seq<string>, at: seq<nat>)
    requires ValuesAt(headers, name, values, at)
    ensures if Named(last, name) then ValuesAt(headers + [last], name, values + [last.value], at + [|headers|])
            else ValuesAt(headers + [last], name, values, at)
  {
    var all := headers + [last];
    assert forall i :: 0 <= i < |headers| ==> all[i] == headers[i];
    assert all[|headers|] == last;
  }

  lemma ValuesLast(front: seq<Header>, last: Header, name: string)
    ensures ValuesOf(front + [last], name) == ValuesOf(front, name) + if Named(last, name) then [last.value] else []
  {
    assert [last][1..] == [];
    ValuesOfConcat(front, [last], name);
  }

  lemma {:induction false} ValuesPlaces(headers: seq<Header>, name: string) returns (at: seq<nat>)
    ensures ValuesAt(headers, name, ValuesOf(headers, name), at)
  {
    if headers == [] {
      at := [];
    } else {
      var front, last := headers[..|headers| - 1], headers[|headers| - 1];
      var before := ValuesPlaces(front, name);
      assert headers == front + [last];
      ValuesLast(front, last, name);
      ValuesLonger(front, last, name, ValuesOf(front, name), before);
      if Named(last, name) {
        at := before + [|front|];
      } else {
        assert ValuesOf(front, name) + [] == ValuesOf(front, name);
        at := before;
      }
    }
  }

  /**
   * What a request is identified by: method, raw path and query as they are, the body in base64, and
   * for each selected name all values of that header, in order.
   */
  lemma IdentityDescribes(config: Config, q: Request, name: string) returns (at: seq<nat>)
    requires name in config.matchHeaders
    ensures forall k :: k in Identity(config, q).headers <==> k in config.matchHeaders
    ensures var r := Identity(config, q);
            && r.verb == q.verb && r.path == q.rawPath && r.query == q.rawQuery && Decode(r.bodyB64) == Some(q.body)
            && name in r.headers && ValuesAt(q.headers, name, r.headers[name], at)
  {
    DecodeEncode(q.body);
    at := ValuesPlaces(q.headers, name);
  }
}
