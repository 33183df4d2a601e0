/**
 * The base64 used for recorded bodies and binary snapshot sections (sections 3.5 and 4 of
 * RFC 4648). `Decode` is the strict decoder of the standard library: it rejects foreign
 * characters and misplaced padding but ignores the unused bits of the last symbol. The
 * recording validator therefore re-encodes what it decoded to insist on the canonical form.
 */
module Base64 {
  import opened Wrappers

  type byte = bv8
  type sextet = bv6

  /** The alphabet of section 4, by position. */
  function Glyph(n: int): char
    requires 0 <= n < 64
  {
    if n < 26 then ('A' as int + n) as char
    else if n < 52 then ('a' as int + (n - 26)) as char
    else if n < 62 then ('0' as int + (n - 52)) as char
    else if n == 62 then '+'
    else '/'
  }

  function Position(c: char): (n: Option<int>)
    ensures n.Some? ==> 0 <= n.value < 64 && Glyph(n.value) == c
  {
    if 'A' <= c <= 'Z' then Some(c as int - 'A' as int)
    else if 'a' <= c <= 'z' then Some(c as int - 'a' as int + 26)
    else if '0' <= c <= '9' then Some(c as int - '0' as int + 52)
    else if c == '+' then Some(62)
    else if c == '/' then Some(63)
    else None
  }

  function Symbols(v: seq<sextet>): string {
    seq(|v|, i requires 0 <= i < |v| => Glyph(v[i] as int))
  }

  predicate AllSymbols(s: string) {
    forall i :: 0 <= i < |s| ==> Position(s[i]).Some?
  }

  function Values(s: string): seq<sextet>
    requires AllSymbols(s)
  {
    seq(|s|, i requires 0 <= i < |s| => Position(s[i]).value as sextet)
  }

  lemma GlyphPosition(n: int)
    requires 0 <= n < 64
    ensures Position(Glyph(n)) == Some(n) && Glyph(n) != '='
  {
  }

  lemma SextetOfInt(n: int)
    requires 0 <= n < 64
    ensures (n as sextet) as int == n
  {
  }

  lemma SymbolsThenValues(v: seq<sextet>)
    ensures AllSymbols(Symbols(v)) && Values(Symbols(v)) == v
  {
    forall i | 0 <= i < |v|
      ensures Position(Symbols(v)[i]) == Some(v[i] as int)
    {
      GlyphPosition(v[i] as int);
    }
  }

  lemma ValuesThenSymbols(s: string)
    requires AllSymbols(s)
    ensures Symbols(Values(s)) == s
  {
    forall i | 0 <= i < |s|
      ensures Symbols(Values(s))[i] == s[i]
    {
      SextetOfInt(Position(s[i]).value);
    }
  }

  /** Three bytes become four groups of six bits; a short last group is filled with zero bits. */
  function ToSextets(b: seq<byte>): seq<sextet> {
    if |b| == 0 then []
    else if |b| == 1 then [First(b[0]), Second(b[0], 0)]
    else if |b| == 2 then [First(b[0]), Second(b[0], b[1]), Third(b[1], 0)]
    else [First(b[0]), Second(b[0], b[1]), Third(b[1], b[2]), Fourth(b[2])] + ToSextets(b[3..])
  }

  function First(a: byte): sextet { (a >> 2) as sextet }
  function Second(a: byte, b: byte): sextet { (((a & 3) << 4) | (b >> 4)) as sextet }
  function Third(b: byte, c: byte): sextet { (((b & 15) << 2) | (c >> 6)) as sextet }
  function Fourth(c: byte): sextet { (c & 63) as sextet }

  function FromSextets(v: seq<sextet>): seq<byte> {
    if |v| < 2 then []
    else if |v| == 2 then [High(v[0], v[1])]
    else if |v| == 3 then [High(v[0], v[1]), Middle(v[1], v[2])]
    else [High(v[0], v[1]), Middle(v[1], v[2]), Low(v[2], v[3])] + FromSextets(v[4..])
  }

  function High(x: sextet, y: sextet): byte { ((x as byte) << 2) | ((y as byte) >> 4) }
  function Middle(y: sextet, z: sextet): byte { ((y as byte) << 4) | ((z as byte) >> 2) }
  function Low(z: sextet, w: sextet): byte { ((z as byte) << 6) | (w as byte) }

  /** The bits of a short last group that belong to no byte. */
  predicate SpareBitsZero(v: seq<sextet>) {
    if |v| >= 4 then SpareBitsZero(v[4..])
    else (|v| == 2 ==> v[1] & 15 == 0) && (|v| == 3 ==> v[2] & 3 == 0)
  }

  lemma BytesOfQuad(a: byte, b: byte, c: byte)
    ensures High(First(a), Second(a, b)) == a
    ensures Middle(Second(a, b), Third(b, c)) == b
    ensures Low(Third(b, c), Fourth(c)) == c
  {
  }

  lemma QuadOfBytes(x: sextet, y: sextet, z: sextet, w: sextet)
    ensures First(High(x, y)) == x && Second(High(x, y), Middle(y, z)) == y
    ensures Third(Middle(y, z), Low(z, w)) == z && Fourth(Low(z, w)) == w
    ensures Second(High(x, y), 0) == y <==> y & 15 == 0
    ensures Third(Middle(y, z), 0) == z <==> z & 3 == 0
  {
  }

  lemma {:induction false} SextetsRoundTrip(b: seq<byte>)
    ensures FromSextets(ToSextets(b)) == b
  {
    var v := ToSextets(b);
    if |b| == 0 {
    } else if |b| == 1 {
      BytesOfQuad(b[0], 0, 0);
    } else if |b| == 2 {
      BytesOfQuad(b[0], b[1], 0);
    } else {
      SextetsRoundTrip(b[3..]);
      BytesOfQuad(b[0], b[1], b[2]);
      assert v[4..] == ToSextets(b[3..]);
    }
  }

  lemma {:induction false} BytesRoundTrip(v: seq<sextet>)
    requires |v| % 4 != 1
    ensures ToSextets(FromSextets(v)) == v <==> SpareBitsZero(v)
  {
    if |v| == 0 {
    } else if |v| == 2 {
      QuadOfBytes(v[0], v[1], 0, 0);
      assert v == [v[0], v[1]];
    } else if |v| == 3 {
      QuadOfBytes(v[0], v[1], v[2], 0);
      assert v == [v[0], v[1], v[2]];
    } else {
      BytesRoundTrip(v[4..]);
      QuadRoundTrip(v);
      SameTail(v, ToSextets(FromSextets(v[4..])));
    }
  }

  lemma SameTail(v: seq<sextet>, tail: seq<sextet>)
    requires |v| >= 4
    ensures [v[0], v[1], v[2], v[3]] + tail == v <==> tail == v[4..]
  {
    assert v == [v[0], v[1], v[2], v[3]] + v[4..];
    assert ([v[0], v[1], v[2], v[3]] + tail)[4..] == tail;
  }

  lemma QuadRoundTrip(v: seq<sextet>)
    requires |v| >= 4
    ensures ToSextets(FromSextets(v)) == [v[0], v[1], v[2], v[3]] + ToSextets(FromSextets(v[4..]))
  {
    QuadOfBytes(v[0], v[1], v[2], v[3]);
    assert FromSextets(v)[3..] == FromSextets(v[4..]);
  }

  /** How many symbols hold the bytes after the last full group of three. */
  function SymbolsFor(bytes: nat): nat {
    if bytes == 0 then 0 else bytes + 1
  }

  lemma {:induction false} SextetsLength(b: seq<byte>)
    ensures |ToSextets(b)| % 4 == SymbolsFor(|b| % 3)
  {
    if |b| >= 3 {
      SextetsLength(b[3..]);
    }
  }

  lemma {:induction false} BytesLength(v: seq<sextet>)
    requires |v| % 4 != 1
    ensures SymbolsFor(|FromSextets(v)| % 3) == |v| % 4
  {
    if |v| >= 4 {
      BytesLength(v[4..]);
      assert |FromSextets(v)| == |FromSextets(v[4..])| + 3;
    }
  }

  /** `b64encode`: symbols, then the padding that completes the last quad. */
  function Encode(b: seq<byte>): string {
    Symbols(ToSextets(b)) + Padding(|b|)
  }

  function Padding(n: nat): string {
    if n % 3 == 1 then "==" else if n % 3 == 2 then "=" else ""
  }

  /** How many trailing characters of a string are padding; a third `=` is a foreign character. */
  function PadCount(s: string): nat {
    if |s| >= 2 && s[|s| - 1] == '=' && s[|s| - 2] == '=' then 2
    else if |s| >= 1 && s[|s| - 1] == '=' then 1
    else 0
  }

  function Payload(s: string): string {
    s[..|s| - PadCount(s)]
  }

  /** `b64decode` with validation. */
  function Decode(s: string): Option<seq<byte>> {
    if |s| % 4 == 0 && AllSymbols(Payload(s)) then Some(FromSextets(Values(Payload(s)))) else None
  }

  /** The check on recorded bodies: decodable, and equal to the re-encoded decoding. */
  predicate ValidBody(s: string) {
    var d := Decode(s);
    d.Some? && Encode(d.value) == s
  }

  /** Stripping the padding of text that does not end in padding gives the text back. */
  lemma PayloadOf(text: string, n: nat)
    requires AllSymbols(text)
    requires n % 3 != 0 ==> |text| > 0
    ensures Payload(text + Padding(n)) == text
  {
    if |text| > 0 {
      GlyphPosition(Position(text[|text| - 1]).value);
    }
  }

  /** Encoded text consists of whole quads. */
  lemma EncodedLength(b: seq<byte>)
    ensures |Encode(b)| % 4 == 0
  {
    SextetsLength(b);
  }

  lemma DecodeEncode(b: seq<byte>)
    ensures Decode(Encode(b)) == Some(b)
  {
    EncodedLength(b);
    SextetsLength(b);
    SymbolsThenValues(ToSextets(b));
    PayloadOf(Symbols(ToSextets(b)), |b|);
    SextetsRoundTrip(b);
  }

  /** Two byte strings never share an encoding. */
  lemma EncodeInjective(a: seq<byte>, b: seq<byte>)
    requires Encode(a) == Encode(b)
    ensures a == b
  {
    DecodeEncode(a);
    DecodeEncode(b);
  }

  /** `ValidBody` accepts exactly the encodings. */
  lemma ValidBodyIsImage(s: string)
    ensures ValidBody(s) <==> exists b: seq<byte> :: Encode(b) == s
  {
    if b: seq<byte> :| Encode(b) == s {
      DecodeEncode(b);
    }
  }

  /** A decodable string is its payload and the padding that its bytes call for. */
  lemma SplitPadding(s: string)
    requires Decode(s).Some?
    ensures |Payload(s)| % 4 != 1
    ensures s == Payload(s) + Padding(|Decode(s).value|)
  {
    var k, p := PadCount(s), Payload(s);
    assert |p| % 4 == (if k == 0 then 0 else 4 - k);
    BytesLength(Values(p));
    assert s[|p|..] == if k == 2 then "==" else if k == 1 then "=" else "";
    assert s == p + s[|p|..];
  }

  /** Section 3.5 of RFC 4648: a string the decoder takes is canonical iff its spare bits are zero. */
  lemma CanonicalIffSpareBitsZero(s: string)
    requires Decode(s).Some?
    ensures ValidBody(s) <==> SpareBitsZero(Values(Payload(s)))
  {
    var p := Payload(s);
    var v := Values(p);
    var b := FromSextets(v);
    SplitPadding(s);
    BytesRoundTrip(v);
    if ToSextets(b) == v {
      ValuesThenSymbols(p);
    } else if Encode(b) == s {
      SextetsLength(b);
      SymbolsThenValues(ToSextets(b));
      PayloadOf(Symbols(ToSextets(b)), |b|);
    }
  }

  // ---------------------------------------------------------------- the standard itself

  /** Table 1 of RFC 4648. */
  const LETTERS := "ABCDEFGHIJKLMNOPQRSTUVWXYZ"
  const SMALL_LETTERS := "abcdefghijklmnopqrstuvwxyz"
  const OTHERS := "0123456789+/"
  const ALPHABET := LETTERS + SMALL_LETTERS + OTHERS

  /** The 24 bits of a quad, from the left. */
  function Bits(v: seq<sextet>): bv24
    requires |v| == 4
  {
    (v[0] as bv24 << 18) | (v[1] as bv24 << 12) | (v[2] as bv24 << 6) | (v[3] as bv24)
  }

  function Joined(a: byte, b: byte, c: byte): bv24 {
    (a as bv24 << 16) | (b as bv24 << 8) | (c as bv24)
  }

  predicate IsSymbol(c: char, v: sextet) {
    |ALPHABET| == 64 && c == ALPHABET[v as int]
  }

  /** The first `n` characters are the symbols of these bits, which are zero after them. */
  ghost predicate Hold(s: string, n: nat, bits: bv24)
    requires n <= |s| && n <= 4
  {
    exists v: seq<sextet> ::
      && |v| == 4 && Bits(v) == bits && (forall i :: n <= i < 4 ==> v[i] == 0)
      && forall i :: 0 <= i < n ==> IsSymbol(s[i], v[i])
  }

  lemma GlyphsAreTheAlphabet(n: nat)
    requires n < 64
    ensures |ALPHABET| == 64 && Glyph(n) == ALPHABET[n]
  {
    assert |LETTERS| == |SMALL_LETTERS| == 26 && |OTHERS| == 12;
    if n < 26 {
      assert LETTERS[n] == ('A' as int + n) as char;
    } else if n < 52 {
      assert SMALL_LETTERS[n - 26] == ('a' as int + (n - 26)) as char;
    } else {
      assert OTHERS[n - 52] == Glyph(n);
    }
  }

  lemma GroupBits(a: byte, b: byte, c: byte)
    ensures Bits([First(a), Second(a, b), Third(b, c), Fourth(c)]) == Joined(a, b, c)
    ensures c == 0 ==> Fourth(c) == 0
    ensures b == 0 && c == 0 ==> Third(b, c) == 0
  {
  }

  lemma GroupHolds(s: string, n: nat, a: byte, b: byte, c: byte)
    requires 2 <= n <= 4 && |s| >= n && (n <= 3 ==> c == 0) && (n == 2 ==> b == 0)
    requires s[0] == Glyph(First(a) as int) && s[1] == Glyph(Second(a, b) as int)
    requires n > 2 ==> s[2] == Glyph(Third(b, c) as int)
    requires n > 3 ==> s[3] == Glyph(Fourth(c) as int)
    ensures Hold(s, n, Joined(a, b, c))
  {
    GroupBits(a, b, c);
    var v := [First(a), Second(a, b), Third(b, c), Fourth(c)];
    forall i | 0 <= i < n
      ensures IsSymbol(s[i], v[i])
    {
      GlyphsAreTheAlphabet(v[i] as int);
    }
    assert Bits(v) == Joined(a, b, c);
  }

  lemma FirstQuad(b: seq<byte>)
    requires |b| >= 3
    ensures var s := Encode(b);
            && |s| >= 4 && s[4..] == Encode(b[3..])
            && s[..4] == Symbols([First(b[0]), Second(b[0], b[1]), Third(b[1], b[2]), Fourth(b[2])])
  {
    var v := ToSextets(b);
    assert v[4..] == ToSextets(b[3..]);
    assert Symbols(v)[4..] == Symbols(v[4..]);
    assert Encode(b)[4..] == Symbols(v)[4..] + Padding(|b|);
  }

  lemma FirstQuadHolds(b: seq<byte>)
    requires |b| >= 3
    ensures |Encode(b)| >= 4 && Encode(b)[4..] == Encode(b[3..]) && Hold(Encode(b), 4, Joined(b[0], b[1], b[2]))
  {
    FirstQuad(b);
    var s := Encode(b);
    assert s[0] == s[..4][0] && s[1] == s[..4][1] && s[2] == s[..4][2] && s[3] == s[..4][3];
    GroupHolds(s, 4, b[0], b[1], b[2]);
  }

  lemma LastHolds(b: seq<byte>)
    requires 1 <= |b| <= 2
    ensures |b| == 1 ==> |Encode(b)| == 4 && Encode(b)[2..] == "==" && Hold(Encode(b), 2, Joined(b[0], 0, 0))
    ensures |b| == 2 ==> |Encode(b)| == 4 && Encode(b)[3..] == "=" && Hold(Encode(b), 3, Joined(b[0], b[1], 0))
  {
    if |b| == 1 {
      GroupHolds(Encode(b), 2, b[0], 0, 0);
    } else {
      GroupHolds(Encode(b), 3, b[0], b[1], 0);
    }
  }

  /**
   * Section 4 of RFC 4648, said of the bits: three bytes are the four symbols of their 24 bits, before
   * the encoding of what follows; one or two last bytes are filled with zero bits and padded to a quad.
   */
  lemma EncodeIsBitwise(b: seq<byte>)
    ensures var s := Encode(b);
            if b == [] then s == ""
            else if |b| == 1 then |s| == 4 && Hold(s, 2, Joined(b[0], 0, 0)) && s[2..] == "=="
            else if |b| == 2 then |s| == 4 && Hold(s, 3, Joined(b[0], b[1], 0)) && s[3..] == "="
            else |s| >= 4 && Hold(s, 4, Joined(b[0], b[1], b[2])) && s[4..] == Encode(b[3..])
  {
    if 1 <= |b| <= 2 {
      LastHolds(b);
    } else if |b| >= 3 {
      FirstQuadHolds(b);
    }
  }

  /** Accepted by the decoder, rejected by the recording validator. */
  lemma StrayBits()
    ensures Decode("AB==") == Some([0]) && !ValidBody("AB==")
  {
    assert Payload("AB==") == "AB";
    assert Values("AB") == [0, 1];
    CanonicalIffSpareBitsZero("AB==");
  }
}
