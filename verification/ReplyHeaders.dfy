/**
 * Which headers of an upstream reply reach a caller, live or replayed, said of the header list
 * itself: by name, by what `Connection` nominates, and by what describes a body the caller gets.
 */
module ReplyHeaders {
  import opened Base64
  import opened Http
  import opened Paths
  import opened Recordings

  // ---------------------------------------------------------------- what may pass

  /** Names that describe one connection, a body that has been decoded, or the recorder itself. */
  predicate Listed(name: string) {
    name in [
      "connection", "keep-alive", "proxy-authenticate", "proxy-authorization", "te", "trailer",
      "transfer-encoding", "upgrade", "content-encoding", "x-proxy-mock-recording"]
  }

  /** The name stands between commas in the text, apart from case and surrounding whitespace. */
  predicate Mentions(text: string, name: string) {
    exists i, j :: 0 <= i <= j <= |text| && Part(text, i, j) && Lower(Strip(text[i..j])) == name
  }

  /** A `Connection` header nominates the name; without one, the empty name counts as nominated. */
  predicate Nominated(headers: seq<Header>, name: string) {
    || (exists h :: h in headers && Named(h, "connection") && Mentions(h.value, name))
    || (name == "" && forall h :: h in headers ==> !Named(h, "connection"))
  }

  /** The representation was transferred as it is: no content coding, or a single blank or identity one. */
  predicate PlainCoding(headers: seq<Header>) {
    || (forall h :: h in headers ==> !Named(h, "content-encoding"))
    || exists i :: 0 <= i < |headers| && Named(headers[i], "content-encoding")
         && Lower(Strip(headers[i].value)) in {"", "identity"}
         && forall j :: 0 <= j < |headers| && j != i ==> !Named(headers[j], "content-encoding")
  }

  /** A header of this lower-case name reaches the caller. */
  predicate Passes(verb: string, headers: seq<Header>, name: string) {
    && !Listed(name) && !Nominated(headers, name)
    && (name == "content-length" ==> verb == "HEAD" && PlainCoding(headers))
  }

  // ---------------------------------------------------------------- parts of a text

  lemma MentionsIff(text: string, name: string)
    ensures Mentions(text, name) <==> exists p :: p in Split(text, ',') && Lower(Strip(p)) == name
  {
    forall p
      ensures p in Split(text, ',') <==> IsPart(text, p)
    {
      PartsOf(text, p);
    }
    if i, j :| 0 <= i <= j <= |text| && Part(text, i, j) && Lower(Strip(text[i..j])) == name {
      assert IsPart(text, text[i..j]);
    }
  }

  lemma LeadingSpace(s: string)
    ensures Strip(" " + s) == Strip(s)
  {
    assert (" " + s)[1..] == s;
  }

  /** Joining with a comma and a space only adds whitespace between the parts. */
  lemma {:induction false} JoinedMentions(values: seq<string>, name: string)
    requires values != []
    ensures Mentions(Join(values, ", "), name) <==> exists v :: v in values && Mentions(v, name)
  {
    if |values| == 1 {
      assert values == [values[0]];
    } else {
      var rest := Join(values[1..], ", ");
      JoinedMentions(values[1..], name);
      assert values == [values[0]] + values[1..];
      assert Join(values, ", ") == values[0] + [','] + (" " + rest);
      SplitAt(values[0], " " + rest, ',');
      MentionsIff(Join(values, ", "), name);
      MentionsIff(values[0], name);
      MentionsIff(rest, name);
      var tail := Split(rest, ',');
      assert (" " + rest)[1..] == rest;
      assert Split(" " + rest, ',') == [" " + tail[0]] + tail[1..];
      LeadingSpace(tail[0]);
      assert tail == [tail[0]] + tail[1..];
      SamePartsMention(values[0], tail, name);
    }
  }

  lemma SamePartsMention(first: string, tail: seq<string>, name: string)
    requires tail != [] && Strip(" " + tail[0]) == Strip(tail[0])
    ensures (exists p :: p in Split(first, ',') + ([" " + tail[0]] + tail[1..]) && Lower(Strip(p)) == name)
            <==> (exists p :: p in Split(first, ',') && Lower(Strip(p)) == name) || (exists p :: p in tail && Lower(Strip(p)) == name)
  {
    var spaced := [" " + tail[0]] + tail[1..];
    if p :| p in tail && Lower(Strip(p)) == name {
      if p == tail[0] {
        assert spaced[0] in spaced;
      } else {
        assert p in tail[1..];
        assert p in spaced;
      }
    }
    if p :| p in spaced && Lower(Strip(p)) == name {
      if p == spaced[0] {
        assert tail[0] in tail;
      } else {
        assert p in tail[1..];
      }
    }
  }

  lemma NominatedIff(headers: seq<Header>, name: string)
    ensures name in HopByHop(headers) <==> Nominated(headers, name)
  {
    var values := ValuesOf(headers, "connection");
    ValuesIff(headers, "connection");
    MentionsIff(Get(headers, "connection"), name);
    assert name in HopByHop(headers) <==> Mentions(Get(headers, "connection"), name);
    if values == [] {
      MentionsIff("", name);
      assert Split("", ',') == [""] && Lower(Strip("")) == "";
      assert forall h :: h in headers ==> !Named(h, "connection");
    } else {
      JoinedMentions(values, name);
      if v :| v in values && Mentions(v, name) {
        var h :| h in headers && Named(h, "connection") && h.value == v;
      }
    }
  }

  // ---------------------------------------------------------------- content coding

  lemma {:induction false} StripKeeps(s: string, c: char)
    requires !IsSpace(c) && c in s
    ensures c in Strip(s)
  {
    LeftKeeps(s, c);
    RightKeeps(StripLeft(s), c);
  }

  lemma {:induction false} LeftKeeps(s: string, c: char)
    requires !IsSpace(c) && c in s
    ensures c in StripLeft(s)
  {
    if IsSpace(s[0]) {
      LeftKeeps(s[1..], c);
    }
  }

  lemma {:induction false} RightKeeps(s: string, c: char)
    requires !IsSpace(c) && c in s
    ensures c in StripRight(s)
  {
    if IsSpace(s[|s| - 1]) {
      RightKeeps(s[..|s| - 1], c);
    }
  }

  /** Two values joined are neither blank nor identity: a comma stands between them. */
  lemma JoinedIsNotPlain(values: seq<string>)
    requires |values| > 1
    ensures Lower(Strip(Join(values, ", "))) !in {"", "identity"}
  {
    var s := Join(values, ", ");
    assert s == values[0] + ", " + Join(values[1..], ", ");
    assert s[|values[0]|] == ',';
    StripKeeps(s, ',');
    var k :| 0 <= k < |Strip(s)| && Strip(s)[k] == ',';
    assert Lower(Strip(s))[k] == ',';
    assert ',' !in "identity";
  }

  lemma {:induction false} OneValue(headers: seq<Header>, name: string)
    ensures |ValuesOf(headers, name)| == 1 <==>
            exists i :: 0 <= i < |headers| && OnlyAt(headers, name, i)
    ensures forall i :: 0 <= i < |headers| && OnlyAt(headers, name, i) ==> ValuesOf(headers, name) == [headers[i].value]
  {
    if headers != [] {
      var rest := headers[1..];
      OneValue(rest, name);
      ValuesIff(rest, name);
      if Named(headers[0], name) {
        assert forall i :: 0 < i < |headers| ==> headers[i] == rest[i - 1] && headers[i] in rest;
        if ValuesOf(rest, name) == [] {
          assert OnlyAt(headers, name, 0);
        }
      } else {
        forall i | 0 < i < |headers|
          ensures OnlyAt(headers, name, i) <==> OnlyAt(rest, name, i - 1)
        {
          LaterOnly(headers, name, i);
        }
        if i :| 0 <= i < |rest| && OnlyAt(rest, name, i) {
          assert OnlyAt(headers, name, i + 1);
        }
      }
    }
  }

  lemma LaterOnly(headers: seq<Header>, name: string, i: nat)
    requires 0 < i < |headers| && !Named(headers[0], name)
    ensures OnlyAt(headers, name, i) <==> OnlyAt(headers[1..], name, i - 1)
  {
    assert forall j :: 0 < j < |headers| ==> headers[j] == headers[1..][j - 1];
  }

  /** The header at this place is the only one of its name. */
  predicate OnlyAt(headers: seq<Header>, name: string, i: int)
    requires 0 <= i < |headers|
  {
    Named(headers[i], name) && forall j :: 0 <= j < |headers| && j != i ==> !Named(headers[j], name)
  }

  lemma PlainIff(headers: seq<Header>)
    ensures PlainEncoding(headers) <==> PlainCoding(headers)
  {
    var name := "content-encoding";
    var values := ValuesOf(headers, name);
    ValuesIff(headers, name);
    OneValue(headers, name);
    if values == [] {
      assert Lower(Strip("")) == "";
    } else if |values| == 1 {
      var i :| 0 <= i < |headers| && OnlyAt(headers, name, i);
      assert Get(headers, name) == headers[i].value;
    } else {
      JoinedIsNotPlain(values);
    }
  }

  // ---------------------------------------------------------------- what passes

  lemma ExcludedIff(verb: string, headers: seq<Header>, name: string)
    ensures name !in Excluded(headers, verb == "HEAD") <==> Passes(verb, headers, name)
  {
    NominatedIff(headers, name);
    PlainIff(headers);
  }

  /** Places in a list, in ascending order. */
  predicate Ascending(at: seq<nat>, n: nat) {
    (forall k :: 0 <= k < |at| ==> at[k] < n) && forall j, k :: 0 <= j < k < |at| ==> at[j] < at[k]
  }

  /** The kept headers are those at these places, under their lower-case names. */
  predicate TakenFrom(headers: seq<Header>, kept: seq<Header>, at: seq<nat>) {
    && |kept| == |at| && Ascending(at, |headers|)
    && forall k :: 0 <= k < |kept| ==> kept[k] == Header(Lower(headers[at[k]].name), headers[at[k]].value)
  }

  predicate ExactlyKept(headers: seq<Header>, excluded: set<string>, at: seq<nat>) {
    forall i :: 0 <= i < |headers| ==> (i in at <==> Lower(headers[i].name) !in excluded)
  }

  lemma KeptLonger(headers: seq<Header>, last: Header, excluded: set<string>, at: seq<nat>)
    requires ExactlyKept(headers, excluded, at) && forall k :: 0 <= k < |at| ==> at[k] < |headers|
    ensures ExactlyKept(headers + [last], excluded, if Lower(last.name) in excluded then at else at + [|headers|])
  {
    var all := headers + [last];
    assert forall i :: 0 <= i < |headers| ==> all[i] == headers[i];
    assert all[|headers|] == last;
  }

  lemma {:induction false} KeptPlaces(headers: seq<Header>, excluded: set<string>) returns (at: seq<nat>)
    ensures TakenFrom(headers, Keep(headers, excluded), at) && ExactlyKept(headers, excluded, at)
  {
    if headers == [] {
      at := [];
    } else {
      var front, last := headers[..|headers| - 1], headers[|headers| - 1];
      assert headers == front + [last];
      var before := KeptPlaces(front, excluded);
      KeepLast(front, last, excluded);
      TakenLonger(front, last, Keep(front, excluded), before);
      KeptLonger(front, last, excluded, before);
      at := if Lower(last.name) in excluded then before else before + [|front|];
    }
  }

  lemma {:induction false} KeepConcat(a: seq<Header>, b: seq<Header>, excluded: set<string>)
    ensures Keep(a + b, excluded) == Keep(a, excluded) + Keep(b, excluded)
  {
    if a == [] {
      assert a + b == b;
    } else {
      assert (a + b)[1..] == a[1..] + b && (a + b)[0] == a[0];
      KeepConcat(a[1..], b, excluded);
    }
  }

  lemma KeepOne(h: Header, excluded: set<string>)
    ensures Keep([h], excluded) == if Lower(h.name) in excluded then [] else [Header(Lower(h.name), h.value)]
  {
    assert [h][1..] == [];
  }

  lemma KeepLast(front: seq<Header>, last: Header, excluded: set<string>)
    ensures Keep(front + [last], excluded)
            == if Lower(last.name) in excluded then Keep(front, excluded)
               else Keep(front, excluded) + [Header(Lower(last.name), last.value)]
  {
    KeepConcat(front, [last], excluded);
    KeepOne(last, excluded);
    assert Keep(front, excluded) + [] == Keep(front, excluded);
  }

  lemma TakenLonger(headers: seq<Header>, last: Header, kept: seq<Header>, at: seq<nat>)
    requires TakenFrom(headers, kept, at)
    ensures TakenFrom(headers + [last], kept, at)
    ensures TakenFrom(headers + [last], kept + [Header(Lower(last.name), last.value)], at + [|headers|])
  {
    assert forall k :: 0 <= k < |at| ==> (headers + [last])[at[k]] == headers[at[k]];
  }

  /** What the framework puts in front: the length of the body, where there is to be one. */
  function Framing(verb: string, status: int, length: nat): seq<Header> {
    if verb == "HEAD" || status < 200 || status == 204 || status == 304 then []
    else [Header("content-length", Decimal(length))]
  }

  /**
   * What a caller receives, live and replayed: status and body of the upstream reply, the length of
   * that body where there is to be one, and then exactly the headers that pass, in the order in which
   * they came, with their values; a live response ends with the marker.
   */
  lemma ReplyHeadersIff(verb: string, reply: Reply, outcome: string) returns (kept: seq<Header>, at: seq<nat>)
    ensures TakenFrom(reply.headers, kept, at)
    ensures forall i :: 0 <= i < |reply.headers| ==> (i in at <==> Passes(verb, reply.headers, Lower(reply.headers[i].name)))
    ensures LiveResponse(verb, reply, outcome) == Response(
              reply.status,
              Framing(verb, reply.status, |reply.content|) + kept + [Header("x-proxy-mock-recording", outcome)],
              reply.content)
    ensures Decode(Recorded(verb, reply).bodyB64).Some?
    ensures ReplayedResponse(Recorded(verb, reply), verb)
            == Response(reply.status, Framing(verb, reply.status, |reply.content|) + kept, reply.content)
  {
    kept := ResponseHeaders(reply.headers, verb == "HEAD");
    at := KeptPlaces(reply.headers, Excluded(reply.headers, verb == "HEAD"));
    forall i | 0 <= i < |reply.headers|
      ensures i in at <==> Passes(verb, reply.headers, Lower(reply.headers[i].name))
    {
      ExcludedIff(verb, reply.headers, Lower(reply.headers[i].name));
    }
    AlwaysExcluded(reply.headers, verb == "HEAD");
    SetAbsentHeader(Start(verb, reply) + kept, MARKER, outcome);
    ReplayedHeaders(verb, reply);
  }

  /** The replay of any stored reply, imported ones included: nothing of it is left out or changed. */
  lemma ReplayOfAny(data: ReplyData, verb: string)
    requires Decode(data.bodyB64).Some?
    ensures var body := Decode(data.bodyB64).value;
            var framing := if exists h :: h in data.headers && Named(h, "content-length") then []
                           else Framing(verb, data.status, |body|);
            ReplayedResponse(data, verb) == Response(data.status, framing + data.headers, body)
  {
    var start := BaseHeaders(data.status, Decode(data.bodyB64).value);
    assert WithoutName(start, LENGTH) == [];
  }

  // ---------------------------------------------------------------- lengths

  /** The number that a decimal text denotes. */
  function ValueOf(s: string): int {
    if s == "" then 0 else ValueOf(s[..|s| - 1]) * 10 + (s[|s| - 1] as int - '0' as int)
  }

  /** A length is written in decimal digits, without leading zeros. */
  lemma {:induction false} DecimalDenotes(n: nat)
    ensures Digits(Decimal(n)) && ValueOf(Decimal(n)) == n && (n > 0 ==> Decimal(n)[0] != '0')
  {
    var last := [('0' as int + n % 10) as char];
    if n < 10 {
      assert Decimal(n)[..0] == "";
      assert ValueOf("") == 0;
    } else {
      DecimalDenotes(n / 10);
      assert (Decimal(n / 10) + last)[..|Decimal(n / 10)|] == Decimal(n / 10);
    }
  }
}
