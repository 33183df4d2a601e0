/**
 * The delays of a mock (proxy_mock/utils.py, proxy_mock/services/rule_engine.py), over whole runs: a
 * request sleeps exactly as often as its answer calls for, and every answer that is reserved, saved or
 * refused early is given without sleeping.
 */
module Delays {
  import opened Wrappers
  import opened Json
  import opened Recordings
  import opened Mocks
  import opened Rules
  import opened Lifecycle
  import opened Machine
  import opened Guards
  import opened Answers

  /** No sleep without a delay, or for a delay of zero. */
  function Sleeps(timeout: Option<real>): nat {
    match timeout
    case None => 0
    case Some(seconds) => if seconds == 0.0 then 0 else 1
  }

  /** How often a run wakes the request from a sleep. */
  function Slept(env: Env, labels: seq<Label>, r: nat): nat {
    if labels == [] then 0
    else
      var n := |labels| - 1;
      Slept(env, labels[..n], r) + if Wakes(At(env, INITIAL, labels, n), labels[n], r) then 1 else 0
  }

  predicate Wakes(s: System, l: Label, r: nat) {
    l == Resume(r, Continue) && r in s.requests && (s.requests[r].RuleDelay? || s.requests[r].Delay?)
  }

  /** A local answer calls for the delay of the mock, and for that of the rule that decides. */
  predicate Calls(h: Handler, q: Request, n: nat) {
    var rules := RulesOf(h.mock);
    || (exists i: nat :: i < |rules| && Decides(rules, q, i) && n == Sleeps(h.mock.timeout) + Sleeps(rules[i].input.timeout))
    || (NothingAsks(rules, q) && n == Sleeps(h.mock.timeout))
  }

  /** Forwarding by the mock is not delayed; forwarding by a rule is, as the mock says. */
  function BeforeForwarding(m: Mock): nat {
    if HasHost(m.proxyHost) then 0 else Sleeps(m.timeout)
  }

  /** The sleeps before an answer. */
  predicate AnsweredAfter(h: Handler, q: Request, answer: Answer, n: nat) {
    match answer
    case Served(_) => Calls(h, q, n)
    case Proxied(_) => n == BeforeForwarding(h.mock)
    case HostForbidden => n == BeforeForwarding(h.mock)
    case BadGateway => n == BeforeForwarding(h.mock) || (Replays(h.mock) && n == 0)
    case Cancelled => true
    case _ => n == 0
  }

  /** A suspended request has slept so often, and what lies before it fits. */
  predicate SleptSoFar(h: Handler, q: Request, p: Phase, n: nat) {
    match p
    case Accepted(g, u) => g == h && u == q && n == 0
    case Identifying(g, u, _, _) => g == h && u == q && n == 0
    case Upstream(g, u, _) => g == h && u == q && n == 0 && HasHost(h.mock.proxyHost)
    case Matching(g, u) => g == h && u == q && n == 0 && !HasHost(h.mock.proxyHost)
    case RuleDelay(m, u, rule, _) =>
      && m == h.mock && u == q && n == 0 && !HasHost(m.proxyHost) && Sleeps(m.timeout) == 1
      && exists i: nat :: i < |RulesOf(m)| && Decides(RulesOf(m), q, i) && RulesOf(m)[i] == rule
    case RuleUpstream(m, u, _) => m == h.mock && u == q && n == Sleeps(m.timeout) && !HasHost(m.proxyHost)
    case Delay(_) => Calls(h, q, n + 1)
    case Done(answer) => AnsweredAfter(h, q, answer, n)
  }

  lemma DefaultSleeps(a: App, h: Handler, q: Request)
    requires NothingAsks(RulesOf(h.mock), q)
    ensures SleptSoFar(h, q, ServeDefault(a, h).1, 0)
  {
    assert Calls(h, q, Sleeps(h.mock.timeout));
  }

  lemma AfterRuleSleeps(env: Env, h: Handler, q: Request, i: nat, data: Object)
    requires i < |RulesOf(h.mock)| && Decides(RulesOf(h.mock), q, i) && !HasHost(h.mock.proxyHost)
    ensures SleptSoFar(h, q, AfterRule(env, h.mock, q, RulesOf(h.mock)[i], data), Sleeps(h.mock.timeout))
  {
    assert Calls(h, q, Sleeps(h.mock.timeout) + Sleeps(RulesOf(h.mock)[i].input.timeout));
  }

  lemma RuleSleeps(env: Env, a: App, h: Handler, q: Request, item: Item)
    requires item.index < |RulesOf(h.mock)| && item.rule == RulesOf(h.mock)[item.index]
    requires Decides(RulesOf(h.mock), q, item.index) && !HasHost(h.mock.proxyHost)
    ensures SleptSoFar(h, q, ServeRule(env, a, h, q, item).1, 0)
  {
    forall data {:trigger AfterChoice(env, h.mock, q, item.rule, data)}
      ensures SleptSoFar(h, q, AfterChoice(env, h.mock, q, item.rule, data), 0)
    {
      AfterRuleSleeps(env, h, q, item.index, data);
    }
  }

  lemma MatchingSleeps(env: Env, a: App, h: Handler, q: Request)
    requires !HasHost(h.mock.proxyHost)
    ensures SleptSoFar(h, q, Advance(env, a, Matching(h, q), Continue).1, 0)
  {
    var item := Select(RulesOf(h.mock), q);
    SelectIff(RulesOf(h.mock), q);
    if item.Some? {
      RuleSleeps(env, a, h, q, item.value);
    } else {
      DefaultSleeps(a, h, q);
    }
  }

  lemma DispatchSleeps(env: Env, a: App, h: Handler, q: Request, ticket: Option<Ticket>)
    ensures SleptSoFar(h, q, Dispatch(env, a, h, q, ticket).1, 0)
  {
    if RulesOf(h.mock) == [] {
      DefaultSleeps(a, h, q);
    }
  }

  lemma AwakeStep(env: Env, a: App, h: Handler, q: Request, p: Phase, input: Input)
    requires SleptSoFar(h, q, p, 0) && !p.RuleDelay? && !p.Delay? && !p.RuleUpstream?
    ensures SleptSoFar(h, q, Advance(env, a, p, input).1, 0)
  {
    match p
    case Accepted(_, _) => DispatchSleeps(env, a, h, q, None);
    case Identifying(_, _, store, revision) =>
      if store < |a.stores| {
        var data := Identity(a.stores[store].config, q);
        DispatchSleeps(env, a, h, q, Some(Ticket(store, env.codec.hash(data), data, revision)));
      }
    case Matching(_, _) => MatchingSleeps(env, a, h, q);
    case _ =>
  }

  /** Resuming a request wakes it up at most once, and then from a sleep. */
  lemma SleepStep(env: Env, a: App, h: Handler, q: Request, p: Phase, input: Input, n: nat)
    requires SleptSoFar(h, q, p, n)
    ensures SleptSoFar(h, q, Advance(env, a, p, input).1, n + if input.Continue? && (p.RuleDelay? || p.Delay?) then 1 else 0)
  {
    match p
    case RuleDelay(m, _, rule, data) =>
      var i: nat :| i < |RulesOf(m)| && Decides(RulesOf(m), q, i) && RulesOf(m)[i] == rule;
      AfterRuleSleeps(env, h, q, i, data);
    case Accepted(_, _) => AwakeStep(env, a, h, q, p, input);
    case Identifying(_, _, _, _) => AwakeStep(env, a, h, q, p, input);
    case Upstream(_, _, _) => AwakeStep(env, a, h, q, p, input);
    case Matching(_, _) => AwakeStep(env, a, h, q, p, input);
    case _ =>
  }

  ghost predicate Kept(env: Env, labels: seq<Label>, t: System, r: nat, h: Handler, q: Request) {
    r in t.requests && Came(env, labels, r, h, q) && SleptSoFar(h, q, t.requests[r], Slept(env, labels, r))
  }

  ghost predicate AllKept(env: Env, labels: seq<Label>, t: System) {
    forall r :: r in t.requests ==> exists h, q :: Kept(env, labels, t, r, h, q)
  }

  /** A request that has not arrived has not slept. */
  lemma {:induction false} NotHereYet(env: Env, labels: seq<Label>, r: nat)
    requires r !in Run(env, INITIAL, labels).requests
    ensures Slept(env, labels, r) == 0
  {
    if labels != [] {
      var n := |labels| - 1;
      var s := At(env, INITIAL, labels, n);
      assert r !in s.requests by {
        if r in s.requests && !(labels[n].Resume? && labels[n].id == r) {
          WaitingStays(env, s, labels[n], r);
        }
      }
      NotHereYet(env, labels[..n], r);
    }
  }

  lemma OneMoreStep(env: Env, labels: seq<Label>, s: System, r: nat)
    requires Now(env, labels, s)
    ensures Slept(env, labels, r)
            == Slept(env, labels[..|labels| - 1], r) + if Wakes(s, labels[|labels| - 1], r) then 1 else 0
  {
  }

  lemma ResumedSleeps(env: Env, s: System, l: Label, r: nat, h: Handler, q: Request, n: nat)
    requires r in s.requests && l.Resume? && l.id == r && SleptSoFar(h, q, s.requests[r], n)
    ensures var t := Step(env, s, l);
            r in t.requests && SleptSoFar(h, q, t.requests[r], n + if Wakes(s, l, r) then 1 else 0)
  {
    SleepStep(env, s.app, h, q, s.requests[r], l.input, n);
  }

  lemma WaitingSleeps(env: Env, s: System, l: Label, r: nat, h: Handler, q: Request, n: nat)
    requires r in s.requests && !(l.Resume? && l.id == r) && SleptSoFar(h, q, s.requests[r], n)
    ensures r in Step(env, s, l).requests && SleptSoFar(h, q, Step(env, s, l).requests[r], n) && !Wakes(s, l, r)
  {
    WaitingStays(env, s, l, r);
  }

  lemma KeptStep(env: Env, labels: seq<Label>, s: System, t: System, r: nat, h: Handler, q: Request)
    requires Now(env, labels, s) && t == Step(env, s, labels[|labels| - 1])
    requires Kept(env, labels[..|labels| - 1], s, r, h, q)
    ensures Kept(env, labels, t, r, h, q)
  {
    var l, n := labels[|labels| - 1], Slept(env, labels[..|labels| - 1], r);
    CameLonger(env, labels, r, h, q);
    OneMoreStep(env, labels, s, r);
    if l.Resume? && l.id == r {
      ResumedSleeps(env, s, l, r, h, q, n);
    } else {
      WaitingSleeps(env, s, l, r, h, q, n);
    }
  }

  lemma KeptOnArrival(env: Env, labels: seq<Label>, s: System, t: System, r: nat)
    requires Now(env, labels, s) && t == Step(env, s, labels[|labels| - 1])
    requires r in t.requests && r !in s.requests
    ensures exists h, q :: Kept(env, labels, t, r, h, q)
  {
    var l := labels[|labels| - 1];
    var h, q := s.app.routes[l.route].handler, l.request;
    NotHereYet(env, labels[..|labels| - 1], r);
    assert ComesAt(s, l, r, h, q);
    assert Came(env, labels, r, h, q);
    assert Kept(env, labels, t, r, h, q);
  }

  lemma {:induction false} RunKept(env: Env, labels: seq<Label>)
    ensures AllKept(env, labels, Run(env, INITIAL, labels))
  {
    if labels != [] {
      var front := labels[..|labels| - 1];
      RunKept(env, front);
      KeptOn(env, labels, Run(env, INITIAL, front), Run(env, INITIAL, labels));
    }
  }

  lemma KeptOn(env: Env, labels: seq<Label>, s: System, t: System)
    requires Now(env, labels, s) && t == Step(env, s, labels[|labels| - 1]) && AllKept(env, labels[..|labels| - 1], s)
    ensures AllKept(env, labels, t)
  {
    forall r | r in t.requests
      ensures exists h, q :: Kept(env, labels, t, r, h, q)
    {
      if r in s.requests {
        var h, q :| Kept(env, labels[..|labels| - 1], s, r, h, q);
        KeptStep(env, labels, s, t, r, h, q);
      } else {
        KeptOnArrival(env, labels, s, t, r);
      }
    }
  }

  /**
   * Delays are kept: in every run, an answered request has slept exactly as often as its answer calls
   * for. A served response has waited for the delay of the mock and for that of the rule that decides,
   * zero delays apart; forwarding by a rule has waited for the mock's alone; any other has not waited.
   */
  lemma DelaysAreKept(env: Env, labels: seq<Label>, r: nat, answer: Answer) returns (h: Handler, q: Request)
    requires var t := Run(env, INITIAL, labels); r in t.requests && t.requests[r] == Done(answer)
    ensures Came(env, labels, r, h, q) && AnsweredAfter(h, q, answer, Slept(env, labels, r))
  {
    RunKept(env, labels);
    h, q :| Kept(env, labels, Run(env, INITIAL, labels), r, h, q);
  }

  lemma {:induction false} StaysHere(env: Env, labels: seq<Label>, m: nat, n: nat, r: nat)
    requires m <= n <= |labels| && r in At(env, INITIAL, labels, m).requests
    ensures r in At(env, INITIAL, labels, n).requests
    decreases n
  {
    if m < n {
      StaysHere(env, labels, m, n - 1, r);
      var s, l := At(env, INITIAL, labels, n - 1), labels[n - 1];
      assert labels[..n][..n - 1] == labels[..n - 1] && labels[..n][n - 1] == l;
      if !(l.Resume? && l.id == r) {
        WaitingStays(env, s, l, r);
      }
    }
  }

  /** A request comes once, so both explanations of an answer speak of the same handler and request. */
  lemma ComesOnce(env: Env, labels: seq<Label>, r: nat, h: Handler, q: Request, g: Handler, u: Request)
    requires Came(env, labels, r, h, q) && Came(env, labels, r, g, u)
    ensures h == g && q == u
  {
    var m: nat :| m < |labels| && ComesAt(At(env, INITIAL, labels, m), labels[m], r, h, q);
    var n: nat :| n < |labels| && ComesAt(At(env, INITIAL, labels, n), labels[n], r, g, u);
    NotTwice(env, labels, r, m, n);
    NotTwice(env, labels, r, n, m);
  }

  predicate Arrives(s: System, l: Label, r: nat) {
    l.Arrive? && l.id == r && r !in s.requests && l.route < |s.app.routes|
  }

  lemma NotTwice(env: Env, labels: seq<Label>, r: nat, m: nat, n: nat)
    requires m < |labels| && n < |labels|
    requires Arrives(At(env, INITIAL, labels, m), labels[m], r) && Arrives(At(env, INITIAL, labels, n), labels[n], r)
    ensures n <= m
  {
    if m < n {
      assert labels[..m + 1][..m] == labels[..m] && labels[..m + 1][m] == labels[m];
      assert r in At(env, INITIAL, labels, m + 1).requests;
      StaysHere(env, labels, m + 1, n, r);
    }
  }
}
