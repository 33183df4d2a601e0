/**
 * Rule selection (proxy_mock/services/rule_engine.py): the rules are sorted by descending
 * (priority, timestamp), keeping the submitted order of equals, and the first match decides.
 */
module Rules {
  import opened Wrappers
  import opened Http
  import opened Json
  import opened Recordings
  import opened Mocks

  // ---------------------------------------------------------------- matching

  /** Truth of a Python value. */
  predicate Truthy(v: Json) {
    match v
    case Null => false
    case Bool(b) => b
    case Int(n) => n != 0
    case Float(r) => r != 0.0
    case Str(s) => s != ""
    case Bytes(b) => b != []
    case Arr(items) => items != []
    case Dict(fields) => fields != map[]
  }

  /** A header list as a dictionary: the first value of a repeated name. */
  function HeaderDict(headers: seq<Header>): map<string, string> {
    if headers == [] then map[] else HeaderDict(headers[1..])[headers[0].name := headers[0].value]
  }

  /** Query parameters as a dictionary: the last value of a repeated name. */
  function QueryDict(pairs: seq<(string, string)>): map<string, string> {
    if pairs == [] then map[]
    else
      var last := pairs[|pairs| - 1];
      QueryDict(pairs[..|pairs| - 1])[last.0 := last.1]
  }

  predicate Contains(actual: map<string, string>, expected: map<string, string>) {
    forall k :: k in expected ==> k in actual && actual[k] == expected[k]
  }

  predicate MethodAllowed(methods: seq<string>, verb: string) {
    methods == [] || exists m :: m in methods && Upper(m) == Upper(verb)
  }

  predicate Matches(c: Condition, q: Request) {
    && MethodAllowed(c.methods.GetOr([]), q.verb)
    && (Truthy(c.body) ==> c.body == Bytes(q.body) || c.body == q.parsedBody)
    && Contains(HeaderDict(q.headers), c.headers)
    && Contains(QueryDict(q.query), c.query)
  }

  // ---------------------------------------------------------------- matching, over the raw lists

  /** Two letters that differ in case at most. */
  predicate SameLetter(a: char, b: char) {
    a == b || ('a' <= a <= 'z' && b as int + 32 == a as int) || ('a' <= b <= 'z' && a as int + 32 == b as int)
  }

  predicate SameMethod(a: string, b: string) {
    |a| == |b| && forall i :: 0 <= i < |a| ==> SameLetter(a[i], b[i])
  }

  /** Empty, or one of the methods is that of the request, in whatever case. */
  predicate NamesMethod(methods: seq<string>, verb: string) {
    |methods| > 0 ==> exists i :: 0 <= i < |methods| && SameMethod(methods[i], verb)
  }

  /** The values that ask nothing of a body. */
  predicate Falsy(v: Json) {
    v in {Null, Bool(false), Int(0), Float(0.0), Str(""), Bytes([]), Arr([]), Dict(map[])}
  }

  /** The first header of this name has the value. */
  predicate FirstHeader(headers: seq<Header>, name: string, value: string) {
    exists i :: 0 <= i < |headers| && headers[i] == Header(name, value) && forall j :: 0 <= j < i ==> headers[j].name != name
  }

  /** The last parameter of this name has the value. */
  predicate LastParameter(query: seq<(string, string)>, name: string, value: string) {
    exists i :: 0 <= i < |query| && query[i] == (name, value) && forall j :: i < j < |query| ==> query[j].0 != name
  }

  /** What a rule asks of a request: method, body, headers and query parameters. */
  predicate Asks(c: Condition, q: Request) {
    && NamesMethod(c.methods.GetOr([]), q.verb)
    && (Falsy(c.body) || c.body == Bytes(q.body) || c.body == q.parsedBody)
    && (forall k :: k in c.headers ==> FirstHeader(q.headers, k, c.headers[k]))
    && (forall k :: k in c.query ==> LastParameter(q.query, k, c.query[k]))
  }

  lemma UpperIff(a: string, b: string)
    ensures Upper(a) == Upper(b) <==> SameMethod(a, b)
  {
    if Upper(a) == Upper(b) {
      assert |Upper(a)| == |a| && |Upper(b)| == |b|;
      forall i | 0 <= i < |a|
        ensures SameLetter(a[i], b[i])
      {
        assert Upper(a)[i] == Upper(b)[i];
      }
    }
  }

  lemma MethodIff(methods: seq<string>, verb: string)
    ensures MethodAllowed(methods, verb) <==> NamesMethod(methods, verb)
  {
    forall m
      ensures Upper(m) == Upper(verb) <==> SameMethod(m, verb)
    {
      UpperIff(m, verb);
    }
  }

  lemma {:induction false} HeaderDictIff(headers: seq<Header>, name: string, value: string)
    ensures name in HeaderDict(headers) && HeaderDict(headers)[name] == value <==> FirstHeader(headers, name, value)
  {
    if headers != [] {
      var rest := headers[1..];
      HeaderDictIff(rest, name, value);
      if headers[0].name == name {
        assert headers[0] == Header(name, headers[0].value);
      } else if i :| 0 <= i < |rest| && rest[i] == Header(name, value) && forall j :: 0 <= j < i ==> rest[j].name != name {
        assert headers[i + 1] == Header(name, value);
        assert forall j :: 0 < j < i + 1 ==> headers[j] == rest[j - 1];
      }
    }
  }

  lemma {:induction false} QueryDictIff(query: seq<(string, string)>, name: string, value: string)
    ensures name in QueryDict(query) && QueryDict(query)[name] == value <==> LastParameter(query, name, value)
  {
    if query != [] {
      var n := |query| - 1;
      var before := query[..n];
      QueryDictIff(before, name, value);
      if query[n].0 == name {
        assert query[n] == (name, query[n].1);
      } else if i :| 0 <= i < |before| && before[i] == (name, value) && forall j :: i < j < |before| ==> before[j].0 != name {
        assert query[i] == (name, value) && forall j :: i < j < n ==> query[j] == before[j];
      }
    }
  }

  /** A rule matches exactly if the request is what it asks for. */
  lemma MatchesIff(c: Condition, q: Request)
    ensures Matches(c, q) <==> Asks(c, q)
  {
    MethodIff(c.methods.GetOr([]), q.verb);
    forall k | k in c.headers
      ensures k in HeaderDict(q.headers) && HeaderDict(q.headers)[k] == c.headers[k] <==> FirstHeader(q.headers, k, c.headers[k])
    {
      HeaderDictIff(q.headers, k, c.headers[k]);
    }
    forall k | k in c.query
      ensures k in QueryDict(q.query) && QueryDict(q.query)[k] == c.query[k] <==> LastParameter(q.query, k, c.query[k])
    {
      QueryDictIff(q.query, k, c.query[k]);
    }
  }

  // ---------------------------------------------------------------- the order of rules

  /** A rule with its submitted index, as `enumerate` pairs them. */
  datatype Item = Item(index: nat, rule: Rule)

  /** Strictly greater in the lexicographic order of (priority, timestamp). */
  predicate Above(a: Rule, b: Rule) {
    a.priority > b.priority || (a.priority == b.priority && a.timestamp > b.timestamp)
  }

  /** `a` decides before `b`: a greater key or, among equals, the lower submitted index. */
  predicate Outranks(a: Item, b: Item) {
    Above(a.rule, b.rule) || (!Above(b.rule, a.rule) && a.index < b.index)
  }

  function Enumerated(rules: seq<Rule>): seq<Item> {
    seq(|rules|, i requires 0 <= i < |rules| => Item(i, rules[i]))
  }

  /** Put an item behind everything that is not below it. */
  function Insert(order: seq<Item>, item: Item): seq<Item> {
    if order == [] then [item]
    else if Above(item.rule, order[0].rule) then [item] + order
    else [order[0]] + Insert(order[1..], item)
  }

  /** The stable descending sort. */
  function Sorted(items: seq<Item>): seq<Item> {
    if items == [] then [] else Insert(Sorted(items[..|items| - 1]), items[|items| - 1])
  }

  predicate Ranked(order: seq<Item>) {
    order != [] ==> Ranked(order[1..]) && forall x :: x in order[1..] ==> Outranks(order[0], x)
  }

  lemma {:induction false} InsertRanked(order: seq<Item>, item: Item)
    requires Ranked(order) && forall x :: x in order ==> x.index < item.index
    ensures Ranked(Insert(order, item))
    ensures multiset(Insert(order, item)) == multiset(order) + multiset{item}
    ensures forall x :: x in Insert(order, item) <==> x in order || x == item
  {
    if order == [] {
    } else {
      assert order == [order[0]] + order[1..];
      assert order[0] in order;
      if Above(item.rule, order[0].rule) {
        assert ([item] + order)[1..] == order;
      } else {
        InsertRanked(order[1..], item);
        assert ([order[0]] + Insert(order[1..], item))[1..] == Insert(order[1..], item);
      }
    }
  }

  /** Sorting permutes the items and ranks them, provided they come in submitted order. */
  lemma {:induction false} SortedRanked(items: seq<Item>)
    requires forall i, j :: 0 <= i < j < |items| ==> items[i].index < items[j].index
    ensures Ranked(Sorted(items))
    ensures multiset(Sorted(items)) == multiset(items)
    ensures forall x :: x in Sorted(items) <==> x in items
  {
    if items != [] {
      var before, last := items[..|items| - 1], items[|items| - 1];
      SortedRanked(before);
      assert items == before + [last];
      InsertRanked(Sorted(before), last);
    }
  }

  // ---------------------------------------------------------------- selection

  /** The greatest matching rule: every other matching rule is outranked. */
  predicate Wins(rules: seq<Rule>, q: Request, i: nat) {
    && i < |rules| && Matches(rules[i].input, q)
    && forall j: nat :: j < |rules| && j != i && Matches(rules[j].input, q) ==>
         Outranks(Item(i, rules[i]), Item(j, rules[j]))
  }

  function FirstMatch(order: seq<Item>, q: Request): Option<Item> {
    if order == [] then None
    else if Matches(order[0].rule.input, q) then Some(order[0])
    else FirstMatch(order[1..], q)
  }

  /** The rule that answers a request, with its submitted index. */
  function Select(rules: seq<Rule>, q: Request): Option<Item> {
    FirstMatch(Sorted(Enumerated(rules)), q)
  }

  /** Selection is the argmax: the first match in sorted order is the winner, if anything matches. */
  lemma SelectIsArgmax(rules: seq<Rule>, q: Request)
    ensures match Select(rules, q)
            case Some(x) => Wins(rules, q, x.index) && x.rule == rules[x.index]
            case None => forall j :: 0 <= j < |rules| ==> !Matches(rules[j].input, q)
  {
    var items := Enumerated(rules);
    SortedRanked(items);
    FirstMatchOutranks(Sorted(items), q);
    forall j | 0 <= j < |rules|
      ensures Item(j, rules[j]) in Sorted(items)
    {
      assert items[j] == Item(j, rules[j]);
    }
  }

  /** Both directions: a rule is selected exactly when it wins, so at most one rule wins. */
  lemma SelectedIffWins(rules: seq<Rule>, q: Request, i: nat)
    ensures Wins(rules, q, i) <==> Select(rules, q).Some? && Select(rules, q).value.index == i
  {
    SelectIsArgmax(rules, q);
  }

  /** The first in rank of all rules whose request this is: greatest priority, then timestamp, then lowest index. */
  predicate Decides(rules: seq<Rule>, q: Request, i: nat) {
    && i < |rules| && Asks(rules[i].input, q)
    && forall j: nat :: j < |rules| && j != i && Asks(rules[j].input, q) ==>
         || rules[i].priority > rules[j].priority
         || (rules[i].priority == rules[j].priority && rules[i].timestamp > rules[j].timestamp)
         || (rules[i].priority == rules[j].priority && rules[i].timestamp == rules[j].timestamp && i < j)
  }

  predicate NothingAsks(rules: seq<Rule>, q: Request) {
    forall j :: 0 <= j < |rules| ==> !Asks(rules[j].input, q)
  }

  /** Selection decides so, and finds nothing only if no rule asks for the request. */
  lemma SelectIff(rules: seq<Rule>, q: Request)
    ensures match Select(rules, q)
            case Some(x) => Decides(rules, q, x.index) && x.rule == rules[x.index]
            case None => NothingAsks(rules, q)
  {
    SelectIsArgmax(rules, q);
    forall j | 0 <= j < |rules|
      ensures Matches(rules[j].input, q) <==> Asks(rules[j].input, q)
    {
      MatchesIff(rules[j].input, q);
    }
  }

  lemma {:induction false} FirstMatchOutranks(order: seq<Item>, q: Request)
    requires Ranked(order)
    ensures match FirstMatch(order, q)
            case Some(x) =>
              && x in order && Matches(x.rule.input, q)
              && forall y :: y in order && y != x && Matches(y.rule.input, q) ==> Outranks(x, y)
            case None => forall y :: y in order ==> !Matches(y.rule.input, q)
  {
    if order != [] {
      assert order == [order[0]] + order[1..];
      FirstMatchOutranks(order[1..], q);
    }
  }

  /** The loop of `apply_rules`: skip rules that do not match, stop at the first that does. */
  method FindRule(rules: seq<Rule>, q: Request) returns (r: Option<Item>)
    ensures r == Select(rules, q)
    ensures r.Some? ==> Decides(rules, q, r.value.index) && r.value.rule == rules[r.value.index]
    ensures r.None? ==> NothingAsks(rules, q)
  {
    SelectIff(rules, q);
    var order := Sorted(Enumerated(rules));
    assert order[0..] == order;
    for k := 0 to |order|
      invariant FirstMatch(order[k..], q) == Select(rules, q)
    {
      assert order[k..][1..] == order[k + 1..];
      if !Matches(order[k].rule.input, q) {
        continue;
      }
      return Some(order[k]);
    }
    return None;
  }
}
