/**
 * Header lists as the server sees them. Names and values are the Latin-1 reading of the bytes on
 * the wire, so every character is below 256 and encoding them back is the identity.
 */
module Http {

  datatype Header = Header(name: string, value: string)

  /** `str.lower` on Latin-1 text. */
  function LowerChar(c: char): char {
    var n := c as int;
    if 'A' <= c <= 'Z' || (0xC0 <= n <= 0xDE && n != 0xD7) then (n + 32) as char else c
  }

  function Lower(s: string): string {
    seq(|s|, i requires 0 <= i < |s| => LowerChar(s[i]))
  }

  /** `str.upper` on method names, which are ASCII. */
  function Upper(s: string): string {
    seq(|s|, i requires 0 <= i < |s| => if 'a' <= s[i] <= 'z' then (s[i] as int - 32) as char else s[i])
  }

  lemma LowerIdempotent(s: string)
    ensures Lower(Lower(s)) == Lower(s)
  {
  }

  /** Every value of the header with this lower-case name, in order (`getlist`). */
  function ValuesOf(headers: seq<Header>, name: string): seq<string> {
    if headers == [] then []
    else (if Lower(headers[0].name) == name then [headers[0].value] else []) + ValuesOf(headers[1..], name)
  }

  lemma {:induction false} ValuesOfConcat(a: seq<Header>, b: seq<Header>, name: string)
    ensures ValuesOf(a + b, name) == ValuesOf(a, name) + ValuesOf(b, name)
  {
    if a == [] {
      assert a + b == b;
    } else {
      ValuesOfConcat(a[1..], b, name);
      assert (a + b)[1..] == a[1..] + b;
    }
  }

  function Join(items: seq<string>, separator: string): string {
    if items == [] then ""
    else if |items| == 1 then items[0]
    else items[0] + separator + Join(items[1..], separator)
  }

  /** `str.split` on one character: never empty, and "" gives [""]. */
  function Split(s: string, c: char): (parts: seq<string>)
    ensures |parts| >= 1
  {
    if s == "" then [""]
    else
      var rest := Split(s[1..], c);
      if s[0] == c then [""] + rest else [[s[0]] + rest[0]] + rest[1..]
  }

  /** The parts of a split contain no separator. */
  lemma {:induction false} SplitPartsClean(s: string, c: char)
    ensures forall p :: p in Split(s, c) ==> c !in p
  {
    if s != "" {
      SplitPartsClean(s[1..], c);
      var rest := Split(s[1..], c);
      assert rest[0] in rest;
    }
  }

  lemma {:induction false} SplitWord(w: string, c: char)
    requires c !in w
    ensures Split(w, c) == [w]
  {
    if w != "" {
      SplitWord(w[1..], c);
      assert w == [w[0]] + w[1..];
    }
  }

  lemma {:induction false} SplitPrefix(w: string, c: char, s: string)
    requires c !in w
    ensures Split(w + [c] + s, c) == [w] + Split(s, c)
  {
    if w == "" {
      assert w + [c] + s == [c] + s;
    } else {
      SplitPrefix(w[1..], c, s);
      assert (w + [c] + s)[1..] == w[1..] + [c] + s;
      assert w == [w[0]] + w[1..];
    }
  }

  lemma {:induction false} SplitJoin(items: seq<string>, c: char)
    requires items != []
    requires forall w :: w in items ==> c !in w
    ensures Split(Join(items, [c]), c) == items
  {
    if |items| == 1 {
      SplitWord(items[0], c);
    } else {
      SplitJoin(items[1..], c);
      assert items == [items[0]] + items[1..];
      SplitPrefix(items[0], c, Join(items[1..], [c]));
    }
  }

  // ---------------------------------------------------------------- parts of a text

  /** A longest stretch without a comma. */
  predicate Part(text: string, i: int, j: int)
    requires 0 <= i <= j <= |text|
  {
    (i == 0 || text[i - 1] == ',') && (j == |text| || text[j] == ',') && ',' !in text[i..j]
  }

  predicate IsPart(text: string, p: string) {
    exists i, j :: 0 <= i <= j <= |text| && Part(text, i, j) && text[i..j] == p
  }

  function FirstOf(text: string, c: char): (k: nat)
    ensures k <= |text| && c !in text[..k] && (k < |text| ==> text[k] == c)
  {
    if text == "" || text[0] == c then 0
    else
      var k := FirstOf(text[1..], c);
      assert text[..k + 1] == [text[0]] + text[1..][..k];
      k + 1
  }

  lemma Cons(x: string, xs: seq<string>, ys: seq<string>)
    ensures [x] + xs + ys == [x] + (xs + ys)
  {
  }

  lemma {:induction false} SplitAt(a: string, b: string, c: char)
    ensures Split(a + [c] + b, c) == Split(a, c) + Split(b, c)
    decreases |a|
  {
    var k := FirstOf(a, c);
    if k == |a| {
      SplitWord(a, c);
      SplitPrefix(a, c, b);
    } else {
      var word, rest := a[..k], a[k + 1..];
      SplitAt(rest, b, c);
      SplitPrefix(word, c, rest);
      SplitPrefix(word, c, rest + [c] + b);
      assert a == word + [c] + rest;
      assert a + [c] + b == word + [c] + (rest + [c] + b);
      Cons(word, Split(rest, c), Split(b, c));
    }
  }

  lemma PartOfWord(text: string, p: string)
    requires ',' !in text
    ensures IsPart(text, p) <==> p == text
  {
    assert text[0..|text|] == text && Part(text, 0, |text|);
    if i, j :| 0 <= i <= j <= |text| && Part(text, i, j) && text[i..j] == p {
      assert i == 0 && j == |text|;
    }
  }

  lemma PartShifted(word: string, rest: string, i: nat, j: nat)
    requires i <= j <= |rest|
    ensures var text, k := word + [','] + rest, |word| + 1;
            text[i + k..j + k] == rest[i..j] && (Part(text, i + k, j + k) <==> Part(rest, i, j))
  {
    var text, k := word + [','] + rest, |word| + 1;
    assert text[i + k..j + k] == rest[i..j];
    assert i > 0 ==> text[i + k - 1] == rest[i - 1];
    assert j < |rest| ==> text[j + k] == rest[j];
  }

  lemma FirstPart(word: string, rest: string, i: nat, j: nat)
    requires ',' !in word && i <= j <= |word| + 1 + |rest| && i <= |word|
    ensures var text := word + [','] + rest; Part(text, i, j) <==> i == 0 && j == |word|
  {
    var text := word + [','] + rest;
    assert text[|word|] == ',' && text[..|word|] == word;
    if i > 0 {
      assert text[i - 1] in word;
    }
    assert j > |word| ==> text[i..j][|word| - i] == ',';
    assert j < |word| ==> text[j] in word;
    if i == 0 && j == |word| {
      assert text[i..j] == word;
    }
  }

  lemma PartOfMore(word: string, rest: string, p: string)
    requires ',' !in word
    ensures IsPart(word + [','] + rest, p) <==> p == word || IsPart(rest, p)
  {
    var text, k := word + [','] + rest, |word| + 1;
    assert text[0..|word|] == word;
    FirstPart(word, rest, 0, |word|);
    if i, j :| 0 <= i <= j <= |rest| && Part(rest, i, j) && rest[i..j] == p {
      PartShifted(word, rest, i, j);
    }
    if i, j :| 0 <= i <= j <= |text| && Part(text, i, j) && text[i..j] == p {
      if i <= |word| {
        FirstPart(word, rest, i, j);
      } else {
        PartShifted(word, rest, i - k, j - k);
      }
    }
  }

  lemma {:induction false} PartsOf(text: string, p: string)
    ensures p in Split(text, ',') <==> IsPart(text, p)
  {
    var k := FirstOf(text, ',');
    if k == |text| {
      SplitWord(text, ',');
      PartOfWord(text, p);
    } else {
      assert text == text[..k] + [','] + text[k + 1..];
      SplitPrefix(text[..k], ',', text[k + 1..]);
      PartsOf(text[k + 1..], p);
      PartOfMore(text[..k], text[k + 1..], p);
    }
  }

  // ---------------------------------------------------------------- headers by name

  predicate Named(h: Header, name: string) {
    Lower(h.name) == name
  }

  lemma {:induction false} ValuesIff(headers: seq<Header>, name: string)
    ensures forall v :: v in ValuesOf(headers, name) <==> exists h :: h in headers && Named(h, name) && h.value == v
    ensures ValuesOf(headers, name) == [] <==> forall h :: h in headers ==> !Named(h, name)
  {
    if headers != [] {
      var rest := ValuesOf(headers[1..], name);
      ValuesIff(headers[1..], name);
      assert headers == [headers[0]] + headers[1..];
      if Named(headers[0], name) {
        assert ValuesOf(headers, name) == [headers[0].value] + rest;
        forall v
          ensures v in [headers[0].value] + rest <==> exists h :: h in headers && Named(h, name) && h.value == v
        {
        }
      } else {
        assert ValuesOf(headers, name) == rest;
      }
    }
  }

  /** The header at this place is the first of its name. */
  predicate FirstNamed(headers: seq<Header>, i: int, name: string) {
    0 <= i < |headers| && Named(headers[i], name) && forall j :: 0 <= j < i ==> !Named(headers[j], name)
  }

  lemma {:induction false} FirstValue(headers: seq<Header>, name: string)
    ensures ValuesOf(headers, name) != [] <==> exists i :: FirstNamed(headers, i, name)
    ensures forall i :: FirstNamed(headers, i, name) ==> ValuesOf(headers, name) != [] && ValuesOf(headers, name)[0] == headers[i].value
  {
    if headers != [] {
      FirstValue(headers[1..], name);
      assert forall i :: 0 < i < |headers| ==> headers[i] == headers[1..][i - 1];
      if Named(headers[0], name) {
        assert FirstNamed(headers, 0, name);
      } else {
        forall i
          ensures FirstNamed(headers, i, name) <==> FirstNamed(headers[1..], i - 1, name)
        {
        }
        if i :| FirstNamed(headers[1..], i, name) {
          assert FirstNamed(headers, i + 1, name);
        }
      }
    }
  }

  /** Lower and upper case of the letters of ASCII. */
  lemma Letters()
    ensures Lower("ABCDEFGHIJKLMNOPQRSTUVWXYZ") == "abcdefghijklmnopqrstuvwxyz"
    ensures Upper("abcdefghijklmnopqrstuvwxyz") == "ABCDEFGHIJKLMNOPQRSTUVWXYZ"
  {
  }

  /** Texts without letters of the other case stay as they are. */
  lemma NoLetters(s: string)
    ensures (forall c :: c in s ==> c < 'A' || 'Z' < c < '\U{80}') ==> Lower(s) == s
    ensures (forall c :: c in s ==> c < 'a' || 'z' < c) ==> Upper(s) == s
  {
    assert forall i :: 0 <= i < |s| ==> s[i] in s;
  }
}
