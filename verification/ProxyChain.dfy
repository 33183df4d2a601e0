/**
 * The loop guard (proxy_mock/services/proxy_service.py): every instance appends its id to a chain
 * header before it forwards a request and refuses a request whose chain already names it.
 */
module ProxyChain {
  import opened Http

  const CHAIN_HEADER := "x-proxy-mock-chain"

  function NonEmpty(items: seq<string>): seq<string> {
    if items == [] then []
    else (if items[0] == "" then [] else [items[0]]) + NonEmpty(items[1..])
  }

  function ParseChain(raw: string): seq<string> {
    NonEmpty(Split(raw, ','))
  }

  /** An id that survives the header: `uuid4().hex` has neither commas nor zero length. */
  predicate CleanId(id: string) {
    id != "" && ',' !in id
  }

  /** The chain a request carries; only its first header line is read. */
  function Chain(headers: seq<Header>): seq<string> {
    var lines := ValuesOf(headers, CHAIN_HEADER);
    ParseChain(if lines == [] then "" else lines[0])
  }

  predicate IsLoop(id: string, headers: seq<Header>) {
    id in Chain(headers)
  }

  const NOT_FORWARDED: set<string> := {"host", "content-length", "transfer-encoding", "connection"}

  /** The request headers as a dictionary without the framing ones: the last duplicate wins. */
  function Filtered(headers: seq<Header>): map<string, string> {
    if headers == [] then map[]
    else
      var last := headers[|headers| - 1];
      var others := Filtered(headers[..|headers| - 1]);
      if Lower(last.name) in NOT_FORWARDED then others else others[last.name := last.value]
  }

  /** The headers of the upstream call. */
  function Forward(id: string, headers: seq<Header>): map<string, string> {
    Filtered(headers)[CHAIN_HEADER := Join(Chain(headers) + [id], ",")]
  }

  /** What the next instance receives: the chain header of the upstream call, once. */
  predicate Received(sent: map<string, string>, headers: seq<Header>) {
    CHAIN_HEADER in sent && ValuesOf(headers, CHAIN_HEADER) == [sent[CHAIN_HEADER]]
  }

  lemma {:induction false} NonEmptyIdentity(items: seq<string>)
    requires forall w :: w in items ==> w != ""
    ensures NonEmpty(items) == items
  {
    if items != [] {
      assert forall w :: w in items[1..] ==> w in items;
      assert items[0] in items && items == [items[0]] + items[1..];
      NonEmptyIdentity(items[1..]);
    }
  }

  lemma {:induction false} NonEmptyItems(items: seq<string>)
    ensures forall w :: w in NonEmpty(items) <==> w in items && w != ""
  {
    if items != [] {
      NonEmptyItems(items[1..]);
    }
  }

  lemma ParsedIdsAreClean(raw: string)
    ensures forall id :: id in ParseChain(raw) ==> CleanId(id)
  {
    SplitPartsClean(raw, ',');
    NonEmptyItems(Split(raw, ','));
  }

  /** Parsing after joining is the identity on clean ids. */
  lemma ParseJoin(ids: seq<string>)
    requires forall id :: id in ids ==> CleanId(id)
    ensures ParseChain(Join(ids, ",")) == ids
  {
    if ids == [] {
    } else {
      SplitJoin(ids, ',');
      NonEmptyIdentity(ids);
    }
  }

  /** A request is refused exactly if its first chain header names the instance, between commas. */
  lemma IsLoopIff(id: string, headers: seq<Header>)
    requires CleanId(id)
    ensures IsLoop(id, headers) <==>
            exists i :: FirstNamed(headers, i, "x-proxy-mock-chain") && IsPart(headers[i].value, id)
  {
    var lines := ValuesOf(headers, CHAIN_HEADER);
    var raw := if lines == [] then "" else lines[0];
    FirstValue(headers, CHAIN_HEADER);
    NonEmptyItems(Split(raw, ','));
    PartsOf(raw, id);
    if lines == [] {
      PartOfWord("", id);
    } else {
      var i :| FirstNamed(headers, i, CHAIN_HEADER);
    }
  }

  lemma {:induction false} FilteredIff(headers: seq<Header>, name: string, value: string)
    ensures name in Filtered(headers) && Filtered(headers)[name] == value <==>
            && Lower(name) !in NOT_FORWARDED
            && exists i :: 0 <= i < |headers| && headers[i] == Header(name, value)
                 && forall j :: i < j < |headers| ==> headers[j].name != name
  {
    if headers != [] {
      var n := |headers| - 1;
      var front := headers[..n];
      FilteredIff(front, name, value);
      if headers[n].name == name {
        assert headers[n] == Header(name, headers[n].value);
      } else {
        assert forall j :: 0 <= j < n ==> front[j] == headers[j];
        if i :| 0 <= i < n && front[i] == Header(name, value) && forall j :: i < j < n ==> front[j].name != name {
          assert headers[i] == Header(name, value);
        }
        if i :| 0 <= i < n && headers[i] == Header(name, value) && forall j :: i < j < |headers| ==> headers[j].name != name {
          assert front[i] == Header(name, value);
        }
      }
    }
  }

  /** Of the other headers of a request, an upstream gets the last value of each, but none that frames a message. */
  lemma ForwardedIff(id: string, headers: seq<Header>, name: string, value: string)
    requires name != "x-proxy-mock-chain"
    ensures name in Forward(id, headers) && Forward(id, headers)[name] == value <==>
            && Lower(name) !in ["host", "content-length", "transfer-encoding", "connection"]
            && exists i :: 0 <= i < |headers| && headers[i] == Header(name, value)
                 && forall j :: i < j < |headers| ==> headers[j].name != name
  {
    FilteredIff(headers, name, value);
  }

  /** One forwarding step appends exactly the forwarding instance, whatever the chain header was. */
  lemma ForwardAppends(id: string, headers: seq<Header>, next: seq<Header>)
    requires CleanId(id) && Received(Forward(id, headers), next)
    ensures Chain(next) == Chain(headers) + [id]
  {
    var lines := ValuesOf(headers, CHAIN_HEADER);
    ParsedIdsAreClean(if lines == [] then "" else lines[0]);
    ParseJoin(Chain(headers) + [id]);
  }

  /** A request seen by one instance of the network. */
  datatype Hop = Hop(instance: nat, headers: seq<Header>)

  /** Instances with distinct, clean ids. */
  predicate Network(ids: seq<string>) {
    && (forall i :: 0 <= i < |ids| ==> CleanId(ids[i]))
    && (forall i, j :: 0 <= i < j < |ids| ==> ids[i] != ids[j])
  }

  /**
   * A journey through the network: at every hop but the last, the instance passed the guard and
   * forwarded to some instance. Which mock or rule forwards, and where to, is left arbitrary.
   */
  predicate Journey(ids: seq<string>, hops: seq<Hop>) {
    && Within(ids, hops)
    && (forall k :: 0 <= k < |hops| - 1 ==> Leaves(ids, hops, k))
  }

  predicate Leaves(ids: seq<string>, hops: seq<Hop>, k: nat)
    requires Within(ids, hops) && k < |hops| - 1
  {
    Forwards(ids[hops[k].instance], hops[k].headers, hops[k + 1].headers)
  }

  predicate Within(ids: seq<string>, hops: seq<Hop>) {
    forall k :: 0 <= k < |hops| ==> hops[k].instance < |ids|
  }

  /** The guard lets the request pass, and the next instance receives what this one sends. */
  predicate Forwards(id: string, headers: seq<Header>, next: seq<Header>) {
    !IsLoop(id, headers) && Received(Forward(id, headers), next)
  }

  function Visited(ids: seq<string>, hops: seq<Hop>): seq<string>
    requires Within(ids, hops)
  {
    seq(|hops|, k requires 0 <= k < |hops| => ids[hops[k].instance])
  }

  lemma VisitedStep(ids: seq<string>, hops: seq<Hop>, k: nat)
    requires Within(ids, hops)
    requires 0 < k <= |hops|
    ensures Visited(ids, hops[..k]) == Visited(ids, hops[..k - 1]) + [ids[hops[k - 1].instance]]
  {
  }

  /** One hop adds its instance. */
  lemma HopAppends(ids: seq<string>, hops: seq<Hop>, k: nat)
    requires Network(ids) && Journey(ids, hops) && 0 < k < |hops|
    ensures Chain(hops[k].headers) == Chain(hops[k - 1].headers) + [ids[hops[k - 1].instance]]
  {
    assert Leaves(ids, hops, k - 1);
    ForwardAppends(ids[hops[k - 1].instance], hops[k - 1].headers, hops[k].headers);
  }

  lemma {:induction false} ChainRecordsJourney(ids: seq<string>, hops: seq<Hop>, k: nat)
    requires Network(ids) && Journey(ids, hops) && k < |hops|
    ensures Chain(hops[k].headers) == Chain(hops[0].headers) + Visited(ids, hops[..k])
  {
    if k > 0 {
      ChainRecordsJourney(ids, hops, k - 1);
      HopAppends(ids, hops, k);
      VisitedStep(ids, hops, k);
    }
  }

  /** The guard refuses a request at an instance exactly if the initial chain named it or it was there before. */
  lemma LoopIffVisited(ids: seq<string>, hops: seq<Hop>, k: nat, i: nat)
    requires Network(ids) && Journey(ids, hops) && k < |hops| && i < |ids|
    ensures IsLoop(ids[i], hops[k].headers) <==>
            ids[i] in Chain(hops[0].headers) || exists j :: 0 <= j < k && hops[j].instance == i
  {
    ChainRecordsJourney(ids, hops, k);
    var visited := Visited(ids, hops[..k]);
    assert forall j :: 0 <= j < k ==> visited[j] == ids[hops[j].instance];
    if j :| 0 <= j < k && hops[j].instance == i {
      assert visited[j] in visited;
    }
  }

  /** No instance forwards the same request twice. */
  lemma ForwardsOncePerInstance(ids: seq<string>, hops: seq<Hop>, j: nat, k: nat)
    requires Network(ids) && Journey(ids, hops) && j < k < |hops| - 1
    ensures hops[j].instance != hops[k].instance
  {
    assert Leaves(ids, hops, k);
    ChainRecordsJourney(ids, hops, k);
    var v := Visited(ids, hops[..k]);
    assert v[j] == ids[hops[j].instance] && v[j] in v;
    assert v[j] in Chain(hops[k].headers);
  }

  function Below(n: nat): (s: set<nat>)
    ensures |s| == n
    ensures forall i: nat :: i in s <==> i < n
  {
    if n == 0 then {} else Below(n - 1) + {n - 1}
  }

  lemma {:induction false} Subset(a: set<nat>, b: set<nat>)
    requires a <= b
    ensures |a| <= |b|
  {
    if a != {} {
      var x :| x in a;
      Subset(a - {x}, b - {x});
    }
  }

  /** Instances that the chain does not name yet: the termination measure. */
  function Unnamed(ids: seq<string>, chain: seq<string>): (s: set<nat>)
    ensures |s| <= |ids|
  {
    var s := set i | i in Below(|ids|) && ids[i] !in chain;
    Subset(s, Below(|ids|));
    s
  }

  lemma NamingShrinks(ids: seq<string>, chain: seq<string>, i: nat)
    requires Network(ids) && i < |ids| && ids[i] !in chain
    ensures |Unnamed(ids, chain + [ids[i]])| + 1 == |Unnamed(ids, chain)|
  {
    assert Unnamed(ids, chain + [ids[i]]) == Unnamed(ids, chain) - {i};
    assert i in Unnamed(ids, chain);
  }

  /** How many instances the chain does not name at a hop. */
  function Left(ids: seq<string>, hops: seq<Hop>, k: nat): (n: nat)
    requires k < |hops|
    ensures n <= |ids|
  {
    |Unnamed(ids, Chain(hops[k].headers))|
  }

  lemma HopNames(ids: seq<string>, hops: seq<Hop>, k: nat)
    requires Network(ids) && Journey(ids, hops) && 0 < k < |hops|
    ensures Left(ids, hops, k) + 1 == Left(ids, hops, k - 1)
  {
    assert Leaves(ids, hops, k - 1);
    HopAppends(ids, hops, k);
    NamingShrinks(ids, Chain(hops[k - 1].headers), hops[k - 1].instance);
  }

  /** Each forwarding names one more instance. */
  predicate Countdown(ids: seq<string>, hops: seq<Hop>) {
    forall k :: 0 < k < |hops| ==> Left(ids, hops, k) + 1 == Left(ids, hops, k - 1)
  }

  lemma JourneyCountsDown(ids: seq<string>, hops: seq<Hop>)
    requires Network(ids) && Journey(ids, hops)
    ensures Countdown(ids, hops)
  {
    forall k | 0 < k < |hops|
      ensures Left(ids, hops, k) + 1 == Left(ids, hops, k - 1)
    {
      HopNames(ids, hops, k);
    }
  }

  lemma {:induction false} ForwardsSoFar(ids: seq<string>, hops: seq<Hop>, k: nat)
    requires Countdown(ids, hops) && k < |hops|
    ensures Left(ids, hops, k) + k <= |ids|
  {
    if k > 0 {
      ForwardsSoFar(ids, hops, k - 1);
    }
  }

  /**
   * Forwarding terminates in every network, for every proxy configuration and every initial chain
   * header: a request is forwarded at most once per instance, and an instance that the chain
   * already names answers it without forwarding.
   */
  lemma ForwardingTerminates(ids: seq<string>, hops: seq<Hop>)
    requires Network(ids) && Journey(ids, hops) && hops != []
    ensures |hops| - 1 <= |ids|
    ensures |hops| - 1 == |ids| ==> IsLoop(ids[hops[|hops| - 1].instance], hops[|hops| - 1].headers)
    ensures forall j, k :: 0 <= j < k < |hops| - 1 ==> hops[j].instance != hops[k].instance
  {
    var last := |hops| - 1;
    JourneyCountsDown(ids, hops);
    ForwardsSoFar(ids, hops, last);
    if last == |ids| {
      assert hops[last].instance !in Unnamed(ids, Chain(hops[last].headers));
    }
    forall j, k | 0 <= j < k < |hops| - 1
      ensures hops[j].instance != hops[k].instance
    {
      ForwardsOncePerInstance(ids, hops, j, k);
    }
  }
}
