/**
 * What stands between a request and an upstream (proxy_mock/utils.py, proxy_mock/services/rule_engine.py):
 * the loop guard, the method filter, the replay mode and the allowlist, over whole runs.
 */
module Guards {
  import opened Wrappers
  import opened ProxyChain
  import opened Recordings
  import opened Mocks
  import opened Json
  import opened Rules
  import opened Sequences
  import opened Lifecycle
  import opened Machine
  import opened LateWrites
  import opened Reachable

  /** A handler has a store exactly if its configuration records or replays. */
  predicate HandlerOk(a: App, h: Handler) {
    && (h.recordings.Some? <==> h.mock.recording.Some?)
    && (h.recordings.Some? ==> h.recordings.value < |a.stores|)
  }

  predicate Replays(m: Mock) {
    m.recording.Some? && m.recording.value.mode.Replay?
  }

  /** The request has not been here before, and its method is one the mock answers. */
  predicate Admitted(env: Env, m: Mock, q: Request) {
    !IsLoop(env.instanceId, q.headers) && MethodAllowed(m.methods, q.verb)
  }

  predicate Allowed(env: Env, host: Option<string>) {
    HasHost(host) && env.hostAllowed(host.value)
  }

  /** The rule that wins for a request. */
  predicate Chosen(m: Mock, q: Request, rule: Rule) {
    exists i: nat :: i < |RulesOf(m)| && RulesOf(m)[i] == rule && Wins(RulesOf(m), q, i)
  }

  /** What every suspended request has passed. */
  predicate Guarded(env: Env, a: App, p: Phase) {
    match p
    case Accepted(h, q) => HandlerOk(a, h) && !IsLoop(env.instanceId, q.headers)
    case Identifying(h, q, store, _) => Admitted(env, h.mock, q) && h.mock.recording.Some? && store < |a.stores|
    case Upstream(h, q, ticket) =>
      && Admitted(env, h.mock, q) && Allowed(env, h.mock.proxyHost)
      && !Replays(h.mock) && (ticket.Some? <==> h.mock.recording.Some?)
      && (ticket.Some? ==> ticket.value.store < |a.stores|)
    case Matching(h, q) => Admitted(env, h.mock, q) && !HasHost(h.mock.proxyHost) && !Replays(h.mock)
    case RuleDelay(m, q, rule, _) => Admitted(env, m, q) && !Replays(m) && Chosen(m, q, rule)
    case RuleUpstream(m, q, host) =>
      && Admitted(env, m, q) && !Replays(m) && env.hostAllowed(host)
      && exists rule :: rule in RulesOf(m) && Chosen(m, q, rule) && rule.input.proxyHost == Some(host)
    case _ => true
  }

  lemma GuardedLater(env: Env, a: App, b: App, p: Phase)
    requires Guarded(env, a, p) && |a.stores| <= |b.stores|
    ensures Guarded(env, b, p)
  {
  }

  lemma DispatchGuarded(env: Env, a: App, h: Handler, q: Request, ticket: Option<Ticket>)
    requires Admitted(env, h.mock, q) && !Replays(h.mock) && (ticket.Some? <==> h.mock.recording.Some?)
    requires ticket.Some? ==> ticket.value.store < |a.stores|
    ensures Guarded(env, a, Dispatch(env, a, h, q, ticket).1)
  {
    ServeDefaultShape(a, h);
    var p := Dispatch(env, a, h, q, ticket).1;
    if HasHost(h.mock.proxyHost) {
      assert p == if Allowed(env, h.mock.proxyHost) then Upstream(h, q, ticket) else Done(HostForbidden);
    } else if RulesOf(h.mock) != [] {
      assert p == Matching(h, q);
    } else {
      assert p.Done? || p.Delay?;
    }
  }

  lemma AdvanceGuarded(env: Env, a: App, p: Phase, input: Input)
    requires Guarded(env, a, p)
    ensures Guarded(env, a, Advance(env, a, p, input).1)
  {
    match (p, input)
    case (Accepted(h, q), Continue) =>
      if MethodAllowed(h.mock.methods, q.verb) && h.recordings.None? {
        DispatchGuarded(env, a, h, q, None);
      }
    case (Identifying(h, q, store, revision), Continue) =>
      if !Replays(h.mock) {
        var data := Identity(a.stores[store].config, q);
        DispatchGuarded(env, a, h, q, Some(Ticket(store, env.codec.hash(data), data, revision)));
      }
    case (Matching(h, q), Continue) =>
      MatchGuarded(env, a, h, q);
    case (RuleDelay(m, q, rule, data), Continue) =>
      AfterRuleGuarded(env, a, m, q, rule, data);
    case _ =>
  }

  lemma MatchGuarded(env: Env, a: App, h: Handler, q: Request)
    requires Admitted(env, h.mock, q) && !Replays(h.mock)
    ensures Guarded(env, a, Advance(env, a, Matching(h, q), Continue).1)
  {
    var item := Select(RulesOf(h.mock), q);
    if item.Some? {
      SelectedIsChosen(h.mock, q);
      ServeRuleGuarded(env, a, h, q, item.value);
    } else {
      ServeDefaultShape(a, h);
    }
  }

  lemma SelectedIsChosen(m: Mock, q: Request)
    requires Select(RulesOf(m), q).Some?
    ensures Chosen(m, q, Select(RulesOf(m), q).value.rule)
  {
    SelectIsArgmax(RulesOf(m), q);
  }

  lemma ServeRuleGuarded(env: Env, a: App, h: Handler, q: Request, item: Item)
    requires Admitted(env, h.mock, q) && !Replays(h.mock) && Chosen(h.mock, q, item.rule)
    ensures Guarded(env, a, ServeRule(env, a, h, q, item).1)
  {
    if !ServeRule(env, a, h, q, item).1.Done? {
      var data := ServedData(env, a, h, q, item);
      ChoiceGuarded(env, a, h.mock, q, item.rule, data);
    }
  }

  lemma ServedData(env: Env, a: App, h: Handler, q: Request, item: Item) returns (data: Object)
    requires !ServeRule(env, a, h, q, item).1.Done?
    ensures ServeRule(env, a, h, q, item).1 == AfterChoice(env, h.mock, q, item.rule, data)
  {
    var id := CursorOf(a, h, OfRule(item.index));
    data := if id.None? || HasHost(item.rule.input.proxyHost) then item.rule.output else TakeResult(a.cursors[id.value]).data;
  }

  lemma ChoiceGuarded(env: Env, a: App, m: Mock, q: Request, rule: Rule, data: Object)
    requires Admitted(env, m, q) && !Replays(m) && Chosen(m, q, rule)
    ensures Guarded(env, a, AfterChoice(env, m, q, rule, data))
  {
    AfterRuleGuarded(env, a, m, q, rule, data);
  }

  /** A chosen rule is followed by an allowed upstream, a delay or an answer. */
  lemma AfterRuleGuarded(env: Env, a: App, m: Mock, q: Request, rule: Rule, data: Object)
    requires Admitted(env, m, q) && !Replays(m) && Chosen(m, q, rule)
    ensures Guarded(env, a, AfterRule(env, m, q, rule, data))
  {
    var p := AfterRule(env, m, q, rule, data);
    if p.RuleUpstream? {
      assert rule in RulesOf(m) && rule.input.proxyHost == Some(p.host);
    } else {
      assert p.Done? || p.Delay?;
    }
  }

  lemma ServeDefaultShape(a: App, h: Handler)
    ensures ServeDefault(a, h).1.Done? || ServeDefault(a, h).1.Delay?
  {
  }

  lemma RouteHandlerOk(env: Env, a: App, route: nat)
    requires AppOk(env, a) && route < |a.routes|
    ensures HandlerOk(a, a.routes[route].handler)
  {
    var r := a.routes[route];
    assert r in a.routes && RouteAgrees(a, PathsOf(a.storage), r);
    assert Agrees(a, Owner(r.path));
  }

  predicate AllGuarded(env: Env, s: System) {
    forall r :: r in s.requests ==> Guarded(env, s.app, s.requests[r])
  }

  lemma ResumedGuarded(env: Env, s: System, l: Label)
    requires l.Resume? && l.id in s.requests && Guarded(env, s.app, s.requests[l.id])
    ensures l.id in Step(env, s, l).requests && Guarded(env, Step(env, s, l).app, Step(env, s, l).requests[l.id])
  {
    AdvanceGuarded(env, s.app, s.requests[l.id], l.input);
    AdvanceLater(env, s.app, s.requests[l.id], l.input);
    var next := Advance(env, s.app, s.requests[l.id], l.input);
    GuardedLater(env, s.app, next.0, next.1);
  }

  lemma ArrivedGuarded(env: Env, s: System, l: Label, r: nat)
    requires AppOk(env, s.app) && r !in s.requests && r in Step(env, s, l).requests
    ensures Guarded(env, Step(env, s, l).app, Step(env, s, l).requests[r])
  {
    RouteHandlerOk(env, s.app, l.route);
  }

  lemma WaitingStays(env: Env, s: System, l: Label, r: nat)
    requires r in s.requests && !(l.Resume? && l.id == r)
    ensures r in Step(env, s, l).requests && Step(env, s, l).requests[r] in {s.requests[r], Done(Cancelled)}
  {
  }

  lemma WaitingGuarded(env: Env, s: System, l: Label, r: nat)
    requires r in s.requests && Guarded(env, s.app, s.requests[r]) && !(l.Resume? && l.id == r)
    ensures r in Step(env, s, l).requests && Guarded(env, Step(env, s, l).app, Step(env, s, l).requests[r])
  {
    WaitingStays(env, s, l, r);
    StepLater(env, s, l);
    GuardedLater(env, s.app, Step(env, s, l).app, s.requests[r]);
  }

  lemma StepGuarded(env: Env, s: System, l: Label, t: System)
    requires AppOk(env, s.app) && AllGuarded(env, s) && t == Step(env, s, l)
    ensures AllGuarded(env, t)
  {
    forall r | r in t.requests
      ensures Guarded(env, t.app, t.requests[r])
    {
      if r !in s.requests {
        ArrivedGuarded(env, s, l, r);
      } else if l.Resume? && l.id == r {
        ResumedGuarded(env, s, l);
      } else {
        WaitingGuarded(env, s, l, r);
      }
    }
  }

  /**
   * In every run, a request that waits for an upstream, of its mock or of a rule, has an allowed
   * method, has not passed through this instance before, goes to a host on the allowlist, and was
   * not taken by a replaying mock: replay never falls back to the network. An upstream of a rule is
   * that of the winning rule.
   */
  lemma {:induction false} UpstreamsAreGuarded(env: Env, labels: seq<Label>)
    requires SoundSchema(env.schema) && forall l :: l in labels ==> GoodLabel(env, l)
    ensures AllGuarded(env, Run(env, INITIAL, labels))
  {
    if labels != [] {
      var n := |labels| - 1;
      assert labels[n] in labels;
      UpstreamsAreGuarded(env, labels[..n]);
      InitialOk(env);
      RunOk(env, INITIAL, labels[..n]);
      StepGuarded(env, Run(env, INITIAL, labels[..n]), labels[n], Run(env, INITIAL, labels));
    }
  }
}
