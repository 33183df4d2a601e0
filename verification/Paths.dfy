/**
 * Mock identity (proxy_mock/client/migration.py). Every layer normalizes a path again before
 * using it, so what matters is not one application but whether the result is a fixed point.
 */
module Paths {
  import opened Wrappers

  /** Characters removed by Python's `str.strip`. */
  predicate IsSpace(c: char) {
    var n := c as int;
    || 9 <= n <= 13 || 28 <= n <= 32 || n == 0x85 || n == 0xA0 || n == 0x1680
    || 0x2000 <= n <= 0x200A || n == 0x2028 || n == 0x2029 || n == 0x202F || n == 0x205F || n == 0x3000
  }

  function BeforeQuery(s: string): string {
    if s == "" || s[0] == '?' then "" else [s[0]] + BeforeQuery(s[1..])
  }

  function StripLeft(s: string): string {
    if s != "" && IsSpace(s[0]) then StripLeft(s[1..]) else s
  }

  function StripRight(s: string): string {
    if s != "" && IsSpace(s[|s| - 1]) then StripRight(s[..|s| - 1]) else s
  }

  function TrimSlashes(s: string): string {
    if s != "" && s[|s| - 1] == '/' then TrimSlashes(s[..|s| - 1]) else s
  }

  predicate StartsWith(s: string, prefix: string) {
    prefix <= s
  }

  function Absolute(s: string): string {
    if s != "" && s[0] == '/' then s else "/" + s
  }

  /** Absolute and free of a query: the shape of every normalized path. */
  predicate Rooted(path: string) {
    path != "" && path[0] == '/' && '?' !in path
  }

  type RootedPath = p: string | Rooted(p) witness "/"

  /** The query cut off and the rest stripped of surrounding whitespace. */
  function Stripped(path: string): string {
    StripRight(StripLeft(BeforeQuery(path)))
  }

  /** `normalize_mock_path`; `None` is its ValueError. */
  function Normalize(path: string): (r: Option<RootedPath>)
    ensures r.Some? ==> (r.value == "/" || r.value[|r.value| - 1] != '/')
  {
    StrippedShape(path);
    var p := Stripped(path);
    if p == "" then None
    else
      TrimSlashesShape(Absolute(p));
      var q := TrimSlashes(Absolute(p));
      assert forall c :: c in q ==> c in Absolute(p) && c != '?';
      Some(if q == "" then "/" else q)
  }

  /** Normalizing what was normalized before, as every later layer does. */
  function Renormalize(path: RootedPath): (p: RootedPath)
    ensures Normalize(path) == Some(p)
  {
    RootedNormalizes(path);
    Normalize(path).value
  }

  /** A path that further normalization leaves alone. */
  predicate Settled(path: string) {
    Rooted(path) && (path == "/" || (path[|path| - 1] != '/' && !IsSpace(path[|path| - 1])))
  }

  lemma {:induction false} BeforeQueryShape(s: string)
    ensures '?' !in BeforeQuery(s) && BeforeQuery(s) <= s
    ensures '?' !in s ==> BeforeQuery(s) == s
  {
    if s != "" && s[0] != '?' {
      BeforeQueryShape(s[1..]);
      assert s == [s[0]] + s[1..];
    }
  }

  lemma {:induction false} StripLeftShape(s: string)
    ensures exists k :: 0 <= k <= |s| && StripLeft(s) == s[k..]
    ensures StripLeft(s) == "" || !IsSpace(StripLeft(s)[0])
  {
    if s != "" && IsSpace(s[0]) {
      StripLeftShape(s[1..]);
      var k :| 0 <= k <= |s[1..]| && StripLeft(s[1..]) == s[1..][k..];
      assert s[1..][k..] == s[k + 1..];
    } else {
      assert s == s[0..];
    }
  }

  lemma {:induction false} StripRightShape(s: string)
    ensures StripRight(s) <= s
    ensures StripRight(s) == "" || !IsSpace(StripRight(s)[|StripRight(s)| - 1])
    ensures s != "" && !IsSpace(s[0]) ==> StripRight(s) != ""
  {
    if s != "" && IsSpace(s[|s| - 1]) {
      StripRightShape(s[..|s| - 1]);
    }
  }

  lemma {:induction false} TrimSlashesShape(s: string)
    ensures TrimSlashes(s) <= s
    ensures TrimSlashes(s) == "" || TrimSlashes(s)[|TrimSlashes(s)| - 1] != '/'
  {
    if s != "" && s[|s| - 1] == '/' {
      TrimSlashesShape(s[..|s| - 1]);
    }
  }

  lemma StrippedShape(path: string)
    ensures forall c :: c in Stripped(path) ==> c in path && c != '?'
    ensures Stripped(path) != "" ==> !IsSpace(Stripped(path)[|Stripped(path)| - 1])
  {
    var b := BeforeQuery(path);
    BeforeQueryShape(path);
    StripLeftShape(b);
    StripRightShape(StripLeft(b));
  }

  lemma RootedNormalizes(path: string)
    requires Rooted(path)
    ensures Normalize(path).Some? && Stripped(path) == StripRight(path) != "" && Stripped(path)[0] == '/'
  {
    BeforeQueryShape(path);
    StripRightShape(path);
  }

  /** The fixed points of normalization are exactly the settled paths. */
  lemma FixedIffSettled(path: string)
    ensures Normalize(path) == Some(path) <==> Settled(path)
  {
    if Rooted(path) {
      RootedNormalizes(path);
      StripRightShape(path);
      TrimSlashesShape(StripRight(path));
      assert path == "/" ==> path[..|path| - 1] == "";
    }
  }

  /** The text ends in slashes with whitespace right before them. */
  predicate SpaceThenSlashes(s: string) {
    && |s| > 1 && s[|s| - 1] == '/'
    && (IsSpace(s[|s| - 2]) || SpaceThenSlashes(s[..|s| - 1]))
  }

  /**
   * Normalizing twice is normalizing once exactly when the text before the query, stripped of
   * surrounding whitespace, has no whitespace right before its trailing slashes.
   */
  lemma IdempotentIff(path: string)
    requires Normalize(path).Some?
    ensures Renormalize(Normalize(path).value) == Normalize(path).value <==> !SpaceThenSlashes(Stripped(path))
  {
    var s, p := Stripped(path), Normalize(path).value;
    FixedIffSettled(p);
    StrippedShape(path);
    TrimmedEnd(Absolute(s));
    if s != "" && s[0] != '/' {
      SpaceBehindSlash(s);
    }
  }

  /** What trimming the slashes leaves at the end. */
  lemma {:induction false} TrimmedEnd(s: string)
    requires s != "" && s[0] == '/' && !IsSpace(s[|s| - 1])
    ensures var t := TrimSlashes(s); SpaceThenSlashes(s) <==> t != "" && IsSpace(t[|t| - 1])
  {
    if |s| > 1 && s[|s| - 1] == '/' {
      var before := s[..|s| - 1];
      if IsSpace(before[|before| - 1]) {
        assert TrimSlashes(before) == before;
      } else {
        TrimmedEnd(before);
      }
    }
  }

  /** A leading slash changes nothing unless everything behind it is slashes. */
  lemma {:induction false} SpaceBehindSlash(s: string)
    requires s != "" && s[0] != '/'
    ensures SpaceThenSlashes("/" + s) <==> SpaceThenSlashes(s)
  {
    var t := "/" + s;
    assert t[|t| - 1] == s[|s| - 1];
    if |s| > 1 {
      assert t[|t| - 2] == s[|s| - 2] && t[..|t| - 1] == "/" + s[..|s| - 1];
      SpaceBehindSlash(s[..|s| - 1]);
    }
  }

  /** Without whitespace in the input the result is settled. */
  lemma WhitespaceFreeIsSettled(path: string)
    requires Normalize(path).Some?
    requires forall c :: c in path ==> !IsSpace(c)
    ensures Settled(Normalize(path).value)
  {
    StrippedShape(path);
    TrimSlashesShape(Absolute(Stripped(path)));
  }

  /**
   * Each space and slash at the end costs another round of normalization: the documented
   * single identity fails for such paths.
   */
  lemma WhitespaceLayer(path: string)
    requires Rooted(path)
    ensures Normalize(path + " /") == Some(path + " ")
    ensures Normalize(path + " ") == Normalize(path)
  {
    RootedNormalizes(path);
    RootedNormalizes(path + " ");
    RootedNormalizes(path + " /");
    Chop(path + " /", path + " ");
    Chop(path + " ", path);
  }

  lemma WhitespaceBeforeSlash()
    ensures Normalize("/a / /") == Some("/a / ") && Normalize("/a / ") == Some("/a ") && Normalize("/a ") == Some("/a")
  {
    assert "/a" + " " == "/a " && "/a" + " /" == "/a /" && "/a /" + " /" == "/a / /" && "/a /" + " " == "/a / ";
    WhitespaceLayer("/a");
    WhitespaceLayer("/a /");
    assert Settled("/a");
    FixedIffSettled("/a");
  }

  lemma Chop(s: string, t: string)
    requires |s| > 0 && t == s[..|s| - 1]
    ensures TrimSlashes(s) == if s[|s| - 1] == '/' then TrimSlashes(t) else s
    ensures StripRight(s) == if IsSpace(s[|s| - 1]) then StripRight(t) else s
  {
  }

  /** The routes of a mock: its path and, except for the root, the trailing-slash variant. */
  function Candidates(path: RootedPath): set<string> {
    var p := Renormalize(path);
    if p == "/" then {p} else {p, p + "/"}
  }

  /** Mocks at settled paths never share a route, and no other path claims theirs. */
  lemma CandidatesDisjoint(p: string, q: string)
    requires Rooted(p) && Settled(q) && Renormalize(p) != q
    ensures Candidates(p) !! Candidates(q)
  {
    FixedIffSettled(q);
    var x: string := Renormalize(p);
    assert (x + "/")[..|x|] == x && (q + "/")[..|q|] == q;
    assert (x + "/")[|x|] == '/' && (q + "/")[|q|] == '/';
  }

  /** `validate_mock_path`: normalized, outside the administrative prefix, and a valid route. */
  function ValidatePath(prefix: string, compiles: string -> bool, path: string): Option<RootedPath> {
    var p := Normalize(path);
    if p.None? || Reserved(prefix, p.value) || !compiles(p.value) then None else p
  }

  predicate Reserved(prefix: string, path: string) {
    path == prefix || StartsWith(path, prefix + "/")
  }

  // ---------------------------------------------------------------- normalization, character by character

  /** The characters that count as whitespace. */
  const WHITESPACE := "\t\n\U{0B}\U{0C}\r\U{1C}\U{1D}\U{1E}\U{1F} \U{85}\U{A0}\U{1680}\U{2000}\U{2001}\U{2002}\U{2003}\U{2004}\U{2005}\U{2006}\U{2007}\U{2008}\U{2009}\U{200A}\U{2028}\U{2029}\U{202F}\U{205F}\U{3000}"

  predicate Blank(s: string) {
    forall c :: c in s ==> c in WHITESPACE
  }

  /** What stands before the query, between surrounding whitespace. */
  predicate IsCore(path: string, core: string) {
    exists i, j, k :: 0 <= i <= j <= k <= |path| && CoreAt(path, i, j, k) && path[i..j] == core
  }

  predicate CoreAt(path: string, i: int, j: int, k: int)
    requires 0 <= i <= j <= k <= |path|
  {
    && '?' !in path[..k] && (k == |path| || path[k] == '?')
    && Blank(path[..i]) && Blank(path[j..k])
    && (i < j ==> path[i] !in WHITESPACE && path[j - 1] !in WHITESPACE)
  }

  /** All slashes from the end on are gone, but one is left of slashes alone. */
  predicate Trims(s: string, p: string) {
    if forall c :: c in s ==> c == '/' then p == "/"
    else p != "" && p <= s && p[|p| - 1] != '/' && forall c :: c in s[|p|..] ==> c == '/'
  }

  lemma SpaceIff(c: char)
    ensures IsSpace(c) <==> c in WHITESPACE
  {
  }

  lemma {:induction false} BeforeQueryAt(s: string, k: nat)
    requires k <= |s| && '?' !in s[..k] && (k == |s| || s[k] == '?')
    ensures BeforeQuery(s) == s[..k]
  {
    if k > 0 {
      assert s[..k][0] == s[0] && s[0] in s[..k];
      assert s[..k] == [s[0]] + s[1..][..k - 1];
      BeforeQueryAt(s[1..], k - 1);
    }
  }

  lemma {:induction false} StripLeftAt(s: string, i: nat)
    requires i <= |s| && Blank(s[..i]) && (i == |s| || s[i] !in WHITESPACE)
    ensures StripLeft(s) == s[i..]
  {
    if i > 0 {
      assert s[..i][0] == s[0] && s[0] in s[..i];
      assert s[..i] == [s[0]] + s[1..][..i - 1];
      SpaceIff(s[0]);
      StripLeftAt(s[1..], i - 1);
      assert s[1..][i - 1..] == s[i..];
    } else if s != "" {
      SpaceIff(s[0]);
    }
  }

  lemma {:induction false} StripRightAt(s: string, j: nat)
    requires j <= |s| && Blank(s[j..]) && (j == 0 || s[j - 1] !in WHITESPACE)
    ensures StripRight(s) == s[..j]
  {
    if j < |s| {
      var n := |s| - 1;
      assert s[j..][n - j] == s[n] && s[n] in s[j..];
      assert s[j..] == s[..n][j..] + [s[n]];
      assert j > 0 ==> s[..n][j - 1] == s[j - 1];
      SpaceIff(s[n]);
      StripRightAt(s[..n], j);
      assert s[..n][..j] == s[..j];
    } else if s != "" {
      SpaceIff(s[|s| - 1]);
    }
  }

  lemma {:induction false} TrimSlashesAt(s: string, n: nat)
    requires n <= |s| && (forall c :: c in s[n..] ==> c == '/') && (n == 0 || s[n - 1] != '/')
    ensures TrimSlashes(s) == s[..n]
  {
    if n < |s| {
      var k := |s| - 1;
      assert s[n..][k - n] == s[k] && s[k] in s[n..];
      assert s[n..] == s[..k][n..] + [s[k]];
      assert n > 0 ==> s[..k][n - 1] == s[n - 1];
      assert forall c :: c in s[..k][n..] ==> c in s[n..];
      TrimSlashesAt(s[..k], n);
      assert s[..k][..n] == s[..n];
    }
  }

  lemma Slices(b: string, i: nat, j: nat)
    requires i < j <= |b|
    ensures b[i..][j - i..] == b[j..] && b[i..][..j - i] == b[i..j] && b[i..][j - i - 1] == b[j - 1]
  {
  }

  lemma RightPart(b: string, i: nat, j: nat)
    requires i < j <= |b| && Blank(b[j..]) && b[j - 1] !in WHITESPACE
    ensures StripRight(b[i..]) == b[i..j]
  {
    Slices(b, i, j);
    StripRightAt(b[i..], j - i);
  }

  lemma StrippedAt(b: string, i: nat, j: nat)
    requires i < j <= |b| && Blank(b[..i]) && Blank(b[j..]) && b[i] !in WHITESPACE && b[j - 1] !in WHITESPACE
    ensures StripRight(StripLeft(b)) == b[i..j]
  {
    RightPart(b, i, j);
    StripLeftAt(b, i);
  }

  lemma StrippedToNothing(b: string)
    requires Blank(b)
    ensures StripRight(StripLeft(b)) == ""
  {
    assert b[..|b|] == b && b[|b|..] == "";
    StripLeftAt(b, |b|);
  }

  /** The core of a path is unique. */
  lemma CoreIsStripped(path: string, core: string)
    requires IsCore(path, core)
    ensures Stripped(path) == core
  {
    var i, j, k :| 0 <= i <= j <= k <= |path| && CoreAt(path, i, j, k) && path[i..j] == core;
    var b := path[..k];
    BeforeQueryAt(path, k);
    assert b[..i] == path[..i] && b[j..] == path[j..k] && b[i..j] == core;
    if i < j {
      StrippedAt(b, i, j);
    } else {
      assert b == b[..i] + b[j..];
      StrippedToNothing(b);
    }
  }

  lemma TrimmedIff(s: string, p: string)
    requires s != "" && s[0] == '/'
    ensures Trims(s, p) <==> p == if TrimSlashes(s) == "" then "/" else TrimSlashes(s)
  {
    if forall c :: c in s ==> c == '/' {
      assert s[0..] == s;
      TrimSlashesAt(s, 0);
    } else {
      TrimSlashesShape(s);
      TrimmedRest(s);
      if Trims(s, p) {
        TrimSlashesAt(s, |p|);
      }
    }
  }

  lemma {:induction false} TrimmedRest(s: string)
    ensures TrimSlashes(s) <= s && forall c :: c in s[|TrimSlashes(s)|..] ==> c == '/'
    ensures TrimSlashes(s) == "" ==> forall c :: c in s ==> c == '/'
  {
    if s != "" && s[|s| - 1] == '/' {
      var k := |s| - 1;
      TrimmedRest(s[..k]);
      var n := |TrimSlashes(s)|;
      assert s[n..] == s[..k][n..] + [s[k]];
    }
  }

  /**
   * Normalization, said of the characters: nothing is left of a path without a core; otherwise the
   * core, with a slash in front if it has none, loses the slashes at its end.
   */
  lemma NormalizeIff(path: string, core: string, p: RootedPath)
    requires IsCore(path, core)
    ensures Normalize(path).None? <==> core == ""
    ensures Normalize(path) == Some(p) <==> core != "" && Trims(if core[0] == '/' then core else "/" + core, p)
  {
    CoreIsStripped(path, core);
    if core != "" {
      TrimmedIff(Absolute(core), p);
    }
  }

  /** A path may be mocked exactly if it compiles and is neither the prefix nor under it. */
  lemma ValidateIff(prefix: string, compiles: string -> bool, path: string, p: RootedPath)
    ensures ValidatePath(prefix, compiles, path) == Some(p) <==>
            Normalize(path) == Some(p) && compiles(p) && p != prefix && forall rest :: p != prefix + "/" + rest
  {
    if StartsWith(p, prefix + "/") {
      assert p == prefix + "/" + p[|prefix + "/"|..];
    }
  }

  // ---------------------------------------------------------------- layers

  /** One more layer of whitespace and slash behind a path. */
  function Layer(path: string): string {
    path + " /"
  }

  /** Each round of normalization removes one layer. */
  lemma LayerNormalizes(path: string)
    requires Rooted(path)
    ensures Rooted(Layer(path)) && Normalize(Layer(path)) == Some(path + " ")
    ensures Normalize(Layer(path) + " ") == Some(path + " ")
  {
    WhitespaceLayer(path);
    WhitespaceLayer(Layer(path));
  }

  lemma ReservedLayers(prefix: string)
    requires Settled(prefix)
    ensures Normalize(Layer(Layer(prefix))) == Some(Layer(prefix) + " ")
    ensures Normalize(Layer(prefix) + " ") == Some(prefix + " ")
    ensures Normalize(prefix + " ") == Some(prefix)
    ensures !Reserved(prefix, prefix + " ")
  {
    LayerNormalizes(prefix);
    LayerNormalizes(Layer(prefix));
    WhitespaceLayer(prefix);
    FixedIffSettled(prefix);
    assert (prefix + "/")[|prefix|] != (prefix + " ")[|prefix|];
  }

  /** Four layers are one too many for the four normalizations before runtime state is filed. */
  function Deep(path: string): string {
    Layer(Layer(Layer(Layer(path))))
  }

  lemma DeepNormalizes(path: string)
    requires Rooted(path)
    ensures Normalize(Deep(path)) == Some(Layer(Layer(Layer(path))) + " ")
    ensures Normalize(Layer(Layer(Layer(path))) + " ") == Some(Layer(Layer(path)) + " ")
    ensures Normalize(Layer(Layer(path)) + " ") == Some(Layer(path) + " ")
    ensures Normalize(Layer(path) + " ") == Some(path + " ")
  {
    LayerNormalizes(path);
    LayerNormalizes(Layer(path));
    LayerNormalizes(Layer(Layer(path)));
    LayerNormalizes(Layer(Layer(Layer(path))));
  }
}
