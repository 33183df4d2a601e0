/**
 * Recorded exchanges (proxy_mock/services/recordings.py and proxy_mock/domain/models.py): how an
 * upstream reply is stored, how it is replayed, and which stored exchanges a snapshot may carry.
 */
module Recordings {
  import opened Wrappers
  import opened Base64
  import opened Http
  import opened Json
  import opened Paths

  datatype Mode = Record | Replay

  /** A recording configuration; `match_headers` is lower-case, sorted and free of duplicates. */
  datatype Config = Config(mode: Mode, matchHeaders: seq<string>, maxItems: nat, maxBytes: nat)

  datatype RequestData = RequestData(
    verb: string, path: string, query: string, bodyB64: string, headers: map<string, seq<string>>)

  datatype ReplyData = ReplyData(status: int, headers: seq<Header>, bodyB64: string)

  /** The library calls behind an entry: its SHA-256 id and the length of its JSON form. */
  datatype Codec = Codec(hash: RequestData -> string, size: Entry -> nat)

  datatype Entry = Entry(id: string, request: RequestData, response: ReplyData)

  /**
   * An incoming request. `rawPath` and `rawQuery` are its undecoded target, `query` the decoded
   * parameters and `parsedBody` what the body reads as.
   */
  datatype Request = Request(
    verb: string, rawPath: string, rawQuery: string, body: seq<byte>, headers: seq<Header>,
    query: seq<(string, string)>, parsedBody: Json)

  /** A completed upstream reply, its body already decoded by the HTTP client. */
  datatype Reply = Reply(status: int, headers: seq<Header>, content: seq<byte>)

  /** A response on its way to the caller. */
  datatype Response = Response(status: int, headers: seq<Header>, body: seq<byte>)

  // ---------------------------------------------------------------- recording

  /** The exact-match identity of a request: the dictionary hashed by `identify`. */
  function Identity(config: Config, request: Request): RequestData {
    RequestData(
      request.verb, request.rawPath, request.rawQuery, Encode(request.body),
      map name | name in config.matchHeaders :: ValuesOf(request.headers, name))
  }

  const MARKER := "x-proxy-mock-recording"
  const LENGTH := "content-length"

  const UNREPLAYABLE: set<string> := {
    "connection", "keep-alive", "proxy-authenticate", "proxy-authorization", "te", "trailer",
    "transfer-encoding", "upgrade", "content-encoding", MARKER}

  /** The requests agree on method, raw target, body and every selected header list. */
  predicate SameRequest(matchHeaders: seq<string>, q: Request, r: Request) {
    && q.verb == r.verb && q.rawPath == r.rawPath && q.rawQuery == r.rawQuery && q.body == r.body
    && forall name :: name in matchHeaders ==> ValuesOf(q.headers, name) == ValuesOf(r.headers, name)
  }

  /** Two requests have one identity exactly if they agree on all of that. */
  lemma SameIdentityIff(config: Config, q: Request, r: Request)
    ensures Identity(config, q) == Identity(config, r) <==> SameRequest(config.matchHeaders, q, r)
  {
    var a, b := Identity(config, q), Identity(config, r);
    if a == b {
      EncodeInjective(q.body, r.body);
      forall name | name in config.matchHeaders
        ensures ValuesOf(q.headers, name) == ValuesOf(r.headers, name)
      {
        assert a.headers[name] == b.headers[name];
      }
    }
  }

  function Strip(s: string): string {
    StripRight(StripLeft(s))
  }

  /** The convenience accessor: all values of a header joined with a comma. */
  function Get(headers: seq<Header>, name: string): string {
    Join(ValuesOf(headers, name), ", ")
  }

  /** Headers nominated by `Connection` apply to one connection only. */
  function HopByHop(headers: seq<Header>): set<string> {
    set v | v in Split(Get(headers, "connection"), ',') :: Lower(Strip(v))
  }

  /** The upstream transferred the representation as it is. */
  predicate PlainEncoding(headers: seq<Header>) {
    Lower(Strip(Get(headers, "content-encoding"))) in {"", "identity"}
  }

  function Excluded(headers: seq<Header>, preserveLength: bool): set<string> {
    UNREPLAYABLE
    + (if preserveLength && PlainEncoding(headers) then {} else {LENGTH})
    + HopByHop(headers)
  }

  /** Keep the headers whose lower-case name is not excluded, under their lower-case name. */
  function Keep(headers: seq<Header>, excluded: set<string>): (kept: seq<Header>)
    ensures forall h :: h in kept ==> h.name !in excluded && exists g :: g in headers && h == Header(Lower(g.name), g.value)
  {
    if headers == [] then []
    else
      var name := Lower(headers[0].name);
      (if name in excluded then [] else [Header(name, headers[0].value)]) + Keep(headers[1..], excluded)
  }

  /** `response_headers`. */
  function ResponseHeaders(headers: seq<Header>, preserveLength: bool): seq<Header> {
    Keep(headers, Excluded(headers, preserveLength))
  }

  /** The stored form of a reply. */
  function Recorded(verb: string, reply: Reply): ReplyData {
    ReplyData(reply.status, ResponseHeaders(reply.headers, verb == "HEAD"), Encode(reply.content))
  }

  function EntryOf(hash: RequestData -> string, request: RequestData, reply: Reply): Entry {
    Entry(hash(request), request, Recorded(request.verb, reply))
  }

  // ---------------------------------------------------------------- responses

  function Decimal(n: nat): string {
    if n < 10 then [('0' as int + n) as char] else Decimal(n / 10) + [('0' as int + n % 10) as char]
  }

  /** A framework response starts with the length of its body, where a body is allowed at all. */
  function BaseHeaders(status: int, body: seq<byte>): seq<Header> {
    if status < 200 || status == 204 || status == 304 then [] else [Header(LENGTH, Decimal(|body|))]
  }

  function WithoutName(headers: seq<Header>, name: string): seq<Header> {
    if headers == [] then []
    else (if headers[0].name == name then [] else [headers[0]]) + WithoutName(headers[1..], name)
  }

  /** Assignment to a header: the first occurrence is replaced, later ones go, or it is appended. */
  function SetHeader(headers: seq<Header>, name: string, value: string): seq<Header> {
    if headers == [] then [Header(name, value)]
    else if headers[0].name == name then [Header(name, value)] + WithoutName(headers[1..], name)
    else [headers[0]] + SetHeader(headers[1..], name, value)
  }

  /** What the caller of a recording mock receives. */
  function LiveResponse(verb: string, reply: Reply, outcome: string): Response {
    var headers := Start(verb, reply) + ResponseHeaders(reply.headers, verb == "HEAD");
    Response(reply.status, SetHeader(headers, MARKER, outcome), reply.content)
  }

  /** `recorded_response`: what the caller of a replaying mock receives. */
  function ReplayedResponse(data: ReplyData, verb: string): Response
    requires Decode(data.bodyB64).Some?
  {
    var body := Decode(data.bodyB64).value;
    var start := BaseHeaders(data.status, body);
    var hasLength := exists h :: h in data.headers && Lower(h.name) == LENGTH;
    var framed := if verb == "HEAD" || hasLength then WithoutName(start, LENGTH) else start;
    Response(data.status, framed + data.headers, body)
  }

  /** A live response as the caller would see it without the recording marker. */
  function Unmarked(r: Response): Response {
    r.(headers := WithoutName(r.headers, MARKER))
  }

  lemma {:induction false} WithoutAbsentName(headers: seq<Header>, name: string)
    requires forall h :: h in headers ==> h.name != name
    ensures WithoutName(headers, name) == headers
  {
    if headers != [] {
      assert forall h :: h in headers[1..] ==> h in headers;
      assert headers[0] in headers && headers == [headers[0]] + headers[1..];
      WithoutAbsentName(headers[1..], name);
    }
  }

  lemma SetAbsentHeader(headers: seq<Header>, name: string, value: string)
    requires forall h :: h in headers ==> h.name != name
    ensures SetHeader(headers, name, value) == headers + [Header(name, value)]
    ensures WithoutName(SetHeader(headers, name, value), name) == headers
  {
    AppendHeader(headers, name, value);
    RemoveLastHeader(headers, name, value);
  }

  lemma {:induction false} AppendHeader(headers: seq<Header>, name: string, value: string)
    requires forall h :: h in headers ==> h.name != name
    ensures SetHeader(headers, name, value) == headers + [Header(name, value)]
  {
    if headers != [] {
      assert headers[0] in headers && forall h :: h in headers[1..] ==> h in headers;
      AppendHeader(headers[1..], name, value);
      assert headers == [headers[0]] + headers[1..];
    }
  }

  lemma {:induction false} RemoveLastHeader(headers: seq<Header>, name: string, value: string)
    requires forall h :: h in headers ==> h.name != name
    ensures WithoutName(headers + [Header(name, value)], name) == headers
  {
    var all := headers + [Header(name, value)];
    if headers != [] {
      assert headers[0] in headers && forall h :: h in headers[1..] ==> h in headers;
      RemoveLastHeader(headers[1..], name, value);
      assert all[1..] == headers[1..] + [Header(name, value)] && headers == [headers[0]] + headers[1..];
    }
  }

  lemma LengthIsReplayable()
    ensures LENGTH !in UNREPLAYABLE && MARKER in UNREPLAYABLE && Lower(LENGTH) == LENGTH
  {
  }

  lemma AlwaysExcluded(headers: seq<Header>, preserveLength: bool)
    ensures MARKER in Excluded(headers, preserveLength)
    ensures !preserveLength ==> LENGTH in Excluded(headers, preserveLength)
    ensures preserveLength ==> (LENGTH in Excluded(headers, preserveLength) <==>
                                !PlainEncoding(headers) || LENGTH in HopByHop(headers))
  {
    LengthIsReplayable();
  }

  /** The headers a reply contributes, after whatever the framework puts in front of them. */
  function Start(verb: string, reply: Reply): seq<Header> {
    if verb == "HEAD" then [] else BaseHeaders(reply.status, reply.content)
  }

  lemma ReplayedHeaders(verb: string, reply: Reply)
    ensures Decode(Recorded(verb, reply).bodyB64) == Some(reply.content)
    ensures ReplayedResponse(Recorded(verb, reply), verb) ==
            Response(reply.status, Start(verb, reply) + ResponseHeaders(reply.headers, verb == "HEAD"), reply.content)
  {
    DecodeEncode(reply.content);
    var kept := ResponseHeaders(reply.headers, verb == "HEAD");
    KeptNamesAreLower(reply.headers, Excluded(reply.headers, verb == "HEAD"));
    AlwaysExcluded(reply.headers, verb == "HEAD");
    if verb == "HEAD" {
      assert WithoutName(BaseHeaders(reply.status, reply.content), LENGTH) == [];
    } else {
      assert forall h :: h in kept ==> Lower(h.name) != LENGTH;
    }
  }

  /**
   * Replay is transparent: for every upstream reply, the replay of its stored form is the live
   * response without the marker, including status, body and the order of all header pairs.
   */
  lemma ReplayIsLive(verb: string, reply: Reply, outcome: string)
    ensures Decode(Recorded(verb, reply).bodyB64) == Some(reply.content)
    ensures ReplayedResponse(Recorded(verb, reply), verb) == Unmarked(LiveResponse(verb, reply, outcome))
    ensures Header(MARKER, outcome) in LiveResponse(verb, reply, outcome).headers
  {
    var kept := ResponseHeaders(reply.headers, verb == "HEAD");
    AlwaysExcluded(reply.headers, verb == "HEAD");
    ReplayedHeaders(verb, reply);
    assert forall h :: h in Start(verb, reply) ==> h.name == LENGTH;
    SetAbsentHeader(Start(verb, reply) + kept, MARKER, outcome);
  }

  lemma KeptNamesAreLower(headers: seq<Header>, excluded: set<string>)
    ensures forall h :: h in Keep(headers, excluded) ==> Lower(h.name) == h.name
  {
    forall h | h in Keep(headers, excluded)
      ensures Lower(h.name) == h.name
    {
      var g :| g in headers && h == Header(Lower(g.name), g.value);
      LowerIdempotent(g.name);
    }
  }

  lemma {:induction false} KeptValues(headers: seq<Header>, excluded: set<string>, name: string)
    ensures ValuesOf(Keep(headers, excluded), name) == if name in excluded then [] else ValuesOf(headers, name)
  {
    if headers != [] {
      KeptValues(headers[1..], excluded, name);
      LowerIdempotent(headers[0].name);
      var first := if Lower(headers[0].name) in excluded then [] else [Header(Lower(headers[0].name), headers[0].value)];
      ValuesOfConcat(first, Keep(headers[1..], excluded), name);
    }
  }

  lemma StartLength(verb: string, reply: Reply)
    ensures ValuesOf(Start(verb, reply), LENGTH) ==
            if verb == "HEAD" || reply.status < 200 || reply.status == 204 || reply.status == 304 then []
            else [Decimal(|reply.content|)]
  {
    LengthIsReplayable();
  }

  /**
   * Section 8.6 of RFC 9110: a replayed HEAD response repeats the length of the representation
   * exactly as upstream sent it, and omits it when the upstream encoded the representation or
   * nominated the header as hop-by-hop; any other replay carries the length of the body it sends.
   */
  lemma ReplayedLength(verb: string, reply: Reply)
    ensures Decode(Recorded(verb, reply).bodyB64).Some?
    ensures ValuesOf(ReplayedResponse(Recorded(verb, reply), verb).headers, LENGTH) ==
            if verb == "HEAD" then
              if PlainEncoding(reply.headers) && LENGTH !in HopByHop(reply.headers)
              then ValuesOf(reply.headers, LENGTH) else []
            else if reply.status < 200 || reply.status == 204 || reply.status == 304 then []
            else [Decimal(|reply.content|)]
  {
    var kept := ResponseHeaders(reply.headers, verb == "HEAD");
    ReplayedHeaders(verb, reply);
    AlwaysExcluded(reply.headers, verb == "HEAD");
    KeptValues(reply.headers, Excluded(reply.headers, verb == "HEAD"), LENGTH);
    StartLength(verb, reply);
    ValuesOfConcat(Start(verb, reply), kept, LENGTH);
  }

  // ---------------------------------------------------------------- validation

  const METHODS: set<string> := {"CONNECT", "DELETE", "GET", "HEAD", "OPTIONS", "PATCH", "POST", "PUT", "TRACE"}

  predicate TokenChar(c: char) {
    || 'A' <= c <= 'Z' || 'a' <= c <= 'z' || '0' <= c <= '9'
    || c in {'!', '#', '$', '%', '&', '\'', '*', '+', '.', '^', '_', '`', '|', '~', '-'}
  }

  predicate Token(s: string) {
    s != "" && forall c :: c in s ==> TokenChar(c)
  }

  /** Octets allowed in a header value. */
  predicate Octets(s: string) {
    forall c :: c in s ==> c as int <= 255 && c as int != 127 && (c as int >= 32 || c == '\t')
  }

  predicate Target(s: string) {
    forall c :: c in s ==> 33 <= c as int <= 126 && c != '#'
  }

  predicate ValidRequest(r: RequestData) {
    && r.verb in METHODS
    && Target(r.path) && Target(r.query)
    && r.path != "" && r.path[0] == '/' && '?' !in r.path
    && ValidBody(r.bodyB64)
  }

  predicate ValidReply(d: ReplyData) {
    && 200 <= d.status <= 599
    && (forall h :: h in d.headers ==> Token(h.name) && Octets(h.value))
    && ValidBody(d.bodyB64)
  }

  predicate HexDigest(id: string) {
    |id| == 64 && forall c :: c in id ==> '0' <= c <= '9' || 'a' <= c <= 'f'
  }

  predicate Digits(s: string) {
    s != "" && forall c :: c in s ==> '0' <= c <= '9'
  }

  predicate Bodiless(verb: string, status: int) {
    verb == "HEAD" || status == 204 || status == 304
  }

  /** Only a HEAD recording carries a length, a single numeric one. */
  predicate ValidLengths(verb: string, lengths: seq<string>) {
    lengths == [] || (verb == "HEAD" && |lengths| == 1 && Digits(lengths[0]))
  }

  /** The checks on one imported entry, in the order of `_validate_recordings`. */
  predicate ValidEntry(config: Config, hash: RequestData -> string, e: Entry) {
    && HexDigest(e.id) && ValidRequest(e.request) && ValidReply(e.response)
    && e.request.headers.Keys == (set name | name in config.matchHeaders)
    && (forall name, v :: name in e.request.headers && v in e.request.headers[name] ==> Octets(v))
    && e.id == hash(e.request)
    && (forall h :: h in e.response.headers ==> Lower(h.name) !in UNREPLAYABLE)
    && ValidLengths(e.request.verb, ValuesOf(e.response.headers, LENGTH))
    && (Bodiless(e.request.verb, e.response.status) ==> e.response.bodyB64 == "")
  }

  function TotalSize(size: Entry -> nat, entries: seq<Entry>): nat {
    if entries == [] then 0
    else TotalSize(size, entries[..|entries| - 1]) + size(entries[|entries| - 1])
  }

  predicate DistinctIds(entries: seq<Entry>) {
    forall i, j :: 0 <= i < j < |entries| ==> entries[i].id != entries[j].id
  }

  /** A collection a snapshot may carry for a mock with this configuration. */
  predicate Importable(config: Config, hash: RequestData -> string, size: Entry -> nat, entries: seq<Entry>) {
    && |entries| <= config.maxItems
    && (forall e :: e in entries ==> ValidEntry(config, hash, e))
    && DistinctIds(entries)
    && TotalSize(size, entries) <= config.maxBytes
  }

  function Ids(entries: seq<Entry>): set<string> {
    set e | e in entries :: e.id
  }

  /** The checks of one pass over a prefix: what the loop below has established so far. */
  predicate Passed(valid: Entry -> bool, size: Entry -> nat, maxBytes: nat, entries: seq<Entry>) {
    entries == [] ||
    var last, before := entries[|entries| - 1], entries[..|entries| - 1];
    && Passed(valid, size, maxBytes, before)
    && valid(last)
    && last.id !in Ids(before)
    && TotalSize(size, entries) <= maxBytes
  }

  lemma {:induction false} PassedPrefix(valid: Entry -> bool, size: Entry -> nat, maxBytes: nat, entries: seq<Entry>, k: nat)
    requires k <= |entries| && Passed(valid, size, maxBytes, entries)
    ensures Passed(valid, size, maxBytes, entries[..k])
  {
    if k == |entries| {
      assert entries[..k] == entries;
    } else {
      PassedPrefix(valid, size, maxBytes, entries[..|entries| - 1], k);
      assert entries[..|entries| - 1][..k] == entries[..k];
    }
  }

  /** Passing the loop is a property of the collection as a whole. */
  lemma {:induction false} PassedIff(valid: Entry -> bool, size: Entry -> nat, maxBytes: nat, entries: seq<Entry>)
    ensures Passed(valid, size, maxBytes, entries) <==>
            && (forall e :: e in entries ==> valid(e))
            && DistinctIds(entries) && TotalSize(size, entries) <= maxBytes
  {
    if entries != [] {
      var last, before := entries[|entries| - 1], entries[..|entries| - 1];
      PassedIff(valid, size, maxBytes, before);
      DistinctIdsStep(entries);
      assert entries == before + [last];
      assert forall e :: e in entries <==> e in before || e == last;
    }
  }

  lemma DistinctIdsStep(entries: seq<Entry>)
    requires entries != []
    ensures DistinctIds(entries) <==>
            DistinctIds(entries[..|entries| - 1]) && entries[|entries| - 1].id !in Ids(entries[..|entries| - 1])
  {
    var last, before := entries[|entries| - 1], entries[..|entries| - 1];
    if DistinctIds(before) && last.id !in Ids(before) {
      forall i, j | 0 <= i < j < |entries|
        ensures entries[i].id != entries[j].id
      {
        assert before[i] in before;
        if j < |entries| - 1 {
          assert before[i].id != before[j].id;
        }
      }
    }
  }

  /** One round of the loop: what the next entry adds to the ids, the total and the verdict. */
  lemma PassedNext(valid: Entry -> bool, size: Entry -> nat, maxBytes: nat, entries: seq<Entry>, i: nat)
    requires i < |entries|
    ensures Ids(entries[..i + 1]) == Ids(entries[..i]) + {entries[i].id}
    ensures TotalSize(size, entries[..i + 1]) == TotalSize(size, entries[..i]) + size(entries[i])
    ensures Passed(valid, size, maxBytes, entries[..i + 1]) <==>
            && Passed(valid, size, maxBytes, entries[..i])
            && valid(entries[i]) && entries[i].id !in Ids(entries[..i])
            && TotalSize(size, entries[..i]) + size(entries[i]) <= maxBytes
    ensures Passed(valid, size, maxBytes, entries) ==> Passed(valid, size, maxBytes, entries[..i + 1])
  {
    assert entries[..i + 1] == entries[..i] + [entries[i]] && entries[..i + 1][..i] == entries[..i];
    if Passed(valid, size, maxBytes, entries) {
      PassedPrefix(valid, size, maxBytes, entries, i + 1);
    }
  }

  /** Why a collection is refused. */
  datatype Refusal = InvalidEntry | DuplicateId | TooManyBytes | NoConfiguration | TooManyEntries

  /** One pass with a set of seen ids and a running total, for any check on single entries. */
  method Scan(valid: Entry -> bool, size: Entry -> nat, maxBytes: nat, entries: seq<Entry>)
    returns (r: Result<seq<Entry>, Refusal>)
    ensures r.Ok? <==> Passed(valid, size, maxBytes, entries)
    ensures r.Ok? ==> r.value == entries
  {
    var validated, seen, total := [], {}, 0;
    for i := 0 to |entries|
      invariant validated == entries[..i]
      invariant seen == Ids(entries[..i])
      invariant total == TotalSize(size, entries[..i])
      invariant Passed(valid, size, maxBytes, entries[..i])
    {
      var entry := entries[i];
      PassedNext(valid, size, maxBytes, entries, i);
      if !valid(entry) {
        return Err(InvalidEntry);
      }
      if entry.id in seen {
        return Err(DuplicateId);
      }
      seen := seen + {entry.id};
      total := total + size(entry);
      if total > maxBytes {
        return Err(TooManyBytes);
      }
      validated := validated + [entry];
    }
    assert entries[..|entries|] == entries;
    return Ok(validated);
  }

  /** `_validate_recordings`: accepts exactly the importable collections and returns them unchanged. */
  method ValidateRecordings(
    config: Option<Config>, hash: RequestData -> string, size: Entry -> nat, entries: seq<Entry>)
    returns (r: Result<seq<Entry>, Refusal>)
    ensures r.Ok? <==> config.Some? && Importable(config.value, hash, size, entries)
    ensures r.Ok? ==> r.value == entries
  {
    if config.None? {
      return Err(NoConfiguration);
    }
    if |entries| > config.value.maxItems {
      return Err(TooManyEntries);
    }
    var valid := e => ValidEntry(config.value, hash, e);
    PassedIff(valid, size, config.value.maxBytes, entries);
    r := Scan(valid, size, config.value.maxBytes, entries);
  }

  // ---------------------------------------------------------------- saved data is importable

  /** What the server must have seen for a recorded request to be importable. */
  predicate ImportableRequest(config: Config, q: Request) {
    && q.verb in METHODS
    && Target(q.rawPath) && Target(q.rawQuery)
    && q.rawPath != "" && q.rawPath[0] == '/' && '?' !in q.rawPath
    && (forall name, v :: name in config.matchHeaders && v in ValuesOf(q.headers, name) ==> Octets(v))
  }

  /** What the upstream must have sent for its reply to be importable. */
  predicate ImportableReply(verb: string, reply: Reply) {
    && 200 <= reply.status <= 599
    && (forall h :: h in reply.headers && Lower(h.name) !in Excluded(reply.headers, verb == "HEAD") ==>
          Token(h.name) && Octets(h.value))
    && (Bodiless(verb, reply.status) ==> reply.content == [])
    && (verb == "HEAD" && PlainEncoding(reply.headers) && LENGTH !in HopByHop(reply.headers) ==>
          ValidLengths(verb, ValuesOf(reply.headers, LENGTH)))
  }

  lemma LowerToken(s: string)
    ensures Token(Lower(s)) <==> Token(s)
  {
    forall i | 0 <= i < |s|
      ensures TokenChar(LowerChar(s[i])) <==> TokenChar(s[i])
    {
    }
    if Token(Lower(s)) {
      forall c | c in s
        ensures TokenChar(c)
      {
        var i :| 0 <= i < |s| && s[i] == c;
        assert Lower(s)[i] in Lower(s);
      }
    }
    if Token(s) {
      forall c | c in Lower(s)
        ensures TokenChar(c)
      {
        var i :| 0 <= i < |s| && Lower(s)[i] == c;
        assert s[i] in s;
      }
    }
  }

  lemma {:induction false} KeptEverything(headers: seq<Header>, excluded: set<string>)
    ensures forall g :: g in headers && Lower(g.name) !in excluded ==> Header(Lower(g.name), g.value) in Keep(headers, excluded)
  {
    if headers != [] {
      KeptEverything(headers[1..], excluded);
      assert headers == [headers[0]] + headers[1..];
    }
  }

  lemma EmptyBody(b: seq<byte>)
    ensures ValidBody(Encode(b))
    ensures Encode(b) == "" <==> b == []
  {
    DecodeEncode(b);
    assert Encode([]) == "";
  }

  lemma RequestPart(config: Config, q: Request)
    ensures var r := Identity(config, q);
            && r.headers.Keys == (set name | name in config.matchHeaders)
            && (ImportableRequest(config, q) <==>
                  ValidRequest(r) && forall name, v :: name in r.headers && v in r.headers[name] ==> Octets(v))
  {
    DecodeEncode(q.body);
    var r := Identity(config, q);
    assert forall name :: name in config.matchHeaders ==> name in r.headers && r.headers[name] == ValuesOf(q.headers, name);
  }

  lemma KeptHeadersValid(headers: seq<Header>, excluded: set<string>)
    ensures (forall h :: h in Keep(headers, excluded) ==> Token(h.name) && Octets(h.value)) <==>
            (forall g :: g in headers && Lower(g.name) !in excluded ==> Token(g.name) && Octets(g.value))
  {
    KeptEverything(headers, excluded);
    forall g | g in headers
      ensures Token(Lower(g.name)) <==> Token(g.name)
    {
      LowerToken(g.name);
    }
  }

  lemma NothingUnreplayable(headers: seq<Header>, preserveLength: bool)
    ensures forall h :: h in ResponseHeaders(headers, preserveLength) ==> Lower(h.name) !in UNREPLAYABLE
  {
    KeptNamesAreLower(headers, Excluded(headers, preserveLength));
  }

  lemma LengthPart(verb: string, reply: Reply)
    ensures ValidLengths(verb, ValuesOf(Recorded(verb, reply).headers, LENGTH)) <==>
            (verb == "HEAD" && PlainEncoding(reply.headers) && LENGTH !in HopByHop(reply.headers) ==>
               ValidLengths(verb, ValuesOf(reply.headers, LENGTH)))
  {
    AlwaysExcluded(reply.headers, verb == "HEAD");
    KeptValues(reply.headers, Excluded(reply.headers, verb == "HEAD"), LENGTH);
  }

  lemma ReplyPart(verb: string, reply: Reply)
    ensures var d := Recorded(verb, reply);
            ImportableReply(verb, reply) <==>
            && ValidReply(d)
            && ValidLengths(verb, ValuesOf(d.headers, LENGTH))
            && (Bodiless(verb, d.status) ==> d.bodyB64 == "")
  {
    EmptyBody(reply.content);
    ValidReplyPart(verb, reply);
    LengthPart(verb, reply);
  }

  lemma ValidReplyPart(verb: string, reply: Reply)
    ensures ValidReply(Recorded(verb, reply)) <==>
            && 200 <= reply.status <= 599
            && (forall h :: h in reply.headers && Lower(h.name) !in Excluded(reply.headers, verb == "HEAD") ==>
                  Token(h.name) && Octets(h.value))
  {
    EmptyBody(reply.content);
    KeptHeadersValid(reply.headers, Excluded(reply.headers, verb == "HEAD"));
  }

  /**
   * An entry built by `save` passes the import validator of its own configuration exactly when the
   * request and the upstream reply were importable: nothing the recorder adds or keeps is at fault.
   */
  lemma SavedIsImportableIff(config: Config, hash: RequestData -> string, q: Request, reply: Reply)
    requires HexDigest(hash(Identity(config, q)))
    ensures ValidEntry(config, hash, EntryOf(hash, Identity(config, q), reply))
            <==> ImportableRequest(config, q) && ImportableReply(q.verb, reply)
  {
    RequestPart(config, q);
    ReplyPart(q.verb, reply);
    NothingUnreplayable(reply.headers, q.verb == "HEAD");
  }
}
