/**
 * What the server answers (proxy_mock/utils.py, proxy_mock/services/rule_engine.py), over whole runs:
 * every answer is the one that the configuration of the mock, the rule that decides, the cursor that
 * is drawn from and the events of the run call for; and every request is answered.
 */
module Answers {
  import opened Wrappers
  import Base64
  import opened Json
  import opened ProxyChain
  import opened Recordings
  import opened Store
  import opened Mocks
  import opened Sequences
  import opened Rules
  import opened Lifecycle
  import opened Machine
  import opened LateWrites
  import opened Reachable
  import opened Guards

  // ---------------------------------------------------------------- handlers

  /** A handler has a cursor for each sequence of its mock and for nothing else, and a store if it records. */
  ghost predicate Equipped(a: App, h: Handler) {
    && HandlerOk(a, h) && ValidMock(h.mock)
    && (forall k :: SequenceOf(h.mock, k).Some? ==> k in h.sequences)
    && (forall k :: k in h.sequences ==>
          && h.sequences[k] < |a.cursors| && a.cursors[h.sequences[k]].Ok()
          && Some(a.cursors[h.sequences[k]].sequence) == SequenceOf(h.mock, k))
  }

  lemma EquippedLater(env: Env, a: App, b: App, h: Handler)
    requires Equipped(a, h) && Later(a, b) && HeapOk(env.codec, b)
    ensures Equipped(b, h)
  {
  }

  lemma RouteEquipped(env: Env, a: App, route: nat)
    requires AppOk(env, a) && route < |a.routes|
    ensures Equipped(a, a.routes[route].handler)
  {
    RouteHandlerOk(env, a, route);
    var r := a.routes[route];
    assert r in a.routes && RouteAgrees(a, PathsOf(a.storage), r);
    assert Agrees(a, Owner(r.path));
    var m := r.handler.mock;
    forall k | SequenceOf(m, k).Some?
      ensures k in r.handler.sequences
    {
      if k.OfRule? {
        assert RulesOf(m)[k.index].sequence.Some?;
      }
    }
  }

  // ---------------------------------------------------------------- configured responses

  /** The cursor stands at this response, or repeats the last one. */
  predicate Draws(a: App, id: nat, sequence: Sequence, data: Object) {
    && id < |a.cursors| && a.cursors[id].sequence == sequence
    && var k := a.cursors[id].position;
       || (k < |sequence.responses| && data == sequence.responses[k])
       || (k >= |sequence.responses| > 0 && sequence.onExhaustion.RepeatLast?
           && data == sequence.responses[|sequence.responses| - 1])
  }

  /** The cursor is past the last response of a sequence that then fails. */
  predicate Dry(a: App, id: nat, sequence: Sequence) {
    && id < |a.cursors| && a.cursors[id].sequence == sequence
    && a.cursors[id].position >= |sequence.responses| && sequence.onExhaustion.Fail?
  }

  /** What a key of a mock gives: its static response, or one from its cursor. */
  predicate Gives(a: App, h: Handler, k: Key, fixed: Object, data: Object) {
    match SequenceOf(h.mock, k)
    case None => data == fixed
    case Some(sequence) => k in h.sequences && Draws(a, h.sequences[k], sequence, data)
  }

  predicate RunsDry(a: App, h: Handler, k: Key) {
    SequenceOf(h.mock, k).Some? && k in h.sequences && Dry(a, h.sequences[k], SequenceOf(h.mock, k).value)
  }

  /** The rule that decides, if it does not proxy, gives these data. */
  predicate RuleGives(a: App, h: Handler, q: Request, i: nat, data: Object) {
    && Decides(RulesOf(h.mock), q, i) && !HasHost(RulesOf(h.mock)[i].input.proxyHost)
    && Gives(a, h, OfRule(i), RulesOf(h.mock)[i].output, data)
  }

  /** What a mock answers a request with: by the rule that decides, or by default if no rule asks for it. */
  predicate Configured(a: App, h: Handler, q: Request, data: Object) {
    || (exists i: nat :: i < |RulesOf(h.mock)| && RuleGives(a, h, q, i, data))
    || (NothingAsks(RulesOf(h.mock), q) && Gives(a, h, Default, h.mock.mockData, data))
  }

  predicate Exhausts(a: App, h: Handler, q: Request) {
    || (exists i: nat :: i < |RulesOf(h.mock)| && Decides(RulesOf(h.mock), q, i)
          && !HasHost(RulesOf(h.mock)[i].input.proxyHost) && RunsDry(a, h, OfRule(i)))
    || (NothingAsks(RulesOf(h.mock), q) && RunsDry(a, h, Default))
  }

  // ---------------------------------------------------------------- one step

  lemma DrawnOrDry(a: App, h: Handler, k: Key)
    requires Equipped(a, h) && SequenceOf(h.mock, k).Some?
    ensures CursorOf(a, h, k) == Some(h.sequences[k])
    ensures match TakeResult(a.cursors[h.sequences[k]])
            case Exhausted => RunsDry(a, h, k)
            case Response(data) => Draws(a, h.sequences[k], SequenceOf(h.mock, k).value, data)
  {
  }

  lemma NoCursor(a: App, h: Handler, k: Key)
    requires Equipped(a, h) && SequenceOf(h.mock, k).None?
    ensures CursorOf(a, h, k).None?
  {
  }

  /** Serving the default ends as exhausted, or goes on with what the default gives. */
  lemma DefaultServed(a: App, h: Handler) returns (data: Object)
    requires Equipped(a, h)
    ensures || (ServeDefault(a, h).1 == Done(SequenceExhausted) && RunsDry(a, h, Default))
            || (ServeDefault(a, h).1 == AfterLastDelay(h.mock.timeout, data) && Gives(a, h, Default, h.mock.mockData, data))
  {
    data := h.mock.mockData;
    if SequenceOf(h.mock, Default).Some? {
      DrawnOrDry(a, h, Default);
      var taken := TakeResult(a.cursors[h.sequences[Default]]);
      data := if taken.Response? then taken.data else data;
    } else {
      NoCursor(a, h, Default);
    }
  }

  /** So does the rule that decides; if it proxies, it draws nothing. */
  lemma RuleServed(env: Env, a: App, h: Handler, q: Request, item: Item) returns (data: Object)
    requires Equipped(a, h) && item.index < |RulesOf(h.mock)| && item.rule == RulesOf(h.mock)[item.index]
    ensures || (ServeRule(env, a, h, q, item).1 == Done(SequenceExhausted) && !HasHost(item.rule.input.proxyHost)
                && RunsDry(a, h, OfRule(item.index)))
            || (ServeRule(env, a, h, q, item).1 == AfterChoice(env, h.mock, q, item.rule, data)
                && (HasHost(item.rule.input.proxyHost) || Gives(a, h, OfRule(item.index), item.rule.output, data)))
  {
    var k := OfRule(item.index);
    data := item.rule.output;
    if SequenceOf(h.mock, k).Some? {
      DrawnOrDry(a, h, k);
      if !HasHost(item.rule.input.proxyHost) {
        var taken := TakeResult(a.cursors[h.sequences[k]]);
        data := if taken.Response? then taken.data else data;
      }
    } else {
      NoCursor(a, h, k);
    }
  }

  // ---------------------------------------------------------------- why an answer is given

  /** The host that a request is forwarded to: that of the mock, or else that of the rule that decides. */
  predicate Target(h: Handler, q: Request, host: string) {
    if HasHost(h.mock.proxyHost) then h.mock.proxyHost == Some(host)
    else host != "" && exists i: nat :: i < |RulesOf(h.mock)| && RuleTargets(h, q, i, host)
  }

  predicate RuleTargets(h: Handler, q: Request, i: nat, host: string)
    requires i < |RulesOf(h.mock)|
  {
    Decides(RulesOf(h.mock), q, i) && RulesOf(h.mock)[i].input.proxyHost == Some(host)
  }

  /** Step `m` of the run resumes the request so. */
  predicate ResumedAt(labels: seq<Label>, m: nat, r: nat, input: Input) {
    m < |labels| && labels[m] == Resume(r, input)
  }

  predicate ComesAt(s: System, l: Label, r: nat, h: Handler, q: Request) {
    && l.Arrive? && l.id == r && r !in s.requests && l.request == q
    && l.route < |s.app.routes| && s.app.routes[l.route].handler == h
  }

  /** The request has arrived in the run, on a route with this handler. */
  ghost predicate Came(env: Env, labels: seq<Label>, r: nat, h: Handler, q: Request) {
    exists m: nat :: m < |labels| && ComesAt(At(env, INITIAL, labels, m), labels[m], r, h, q)
  }

  /** Step `m` of the run draws or takes what the configuration gives in its state. */
  ghost predicate ServedAt(env: Env, labels: seq<Label>, m: nat, r: nat, h: Handler, q: Request, data: Object) {
    ResumedAt(labels, m, r, Continue) && Configured(At(env, INITIAL, labels, m).app, h, q, data)
  }

  ghost predicate ExhaustedAt(env: Env, labels: seq<Label>, m: nat, r: nat, h: Handler, q: Request) {
    ResumedAt(labels, m, r, Continue) && Exhausts(At(env, INITIAL, labels, m).app, h, q)
  }

  /** What the store of a handler holds for a request in some state. */
  predicate Finds(env: Env, a: App, h: Handler, q: Request, found: Option<Entry>) {
    && h.recordings.Some? && h.recordings.value < |a.stores|
    && var s := a.stores[h.recordings.value];
       found == LookUp(s.slots, env.codec.hash(Identity(s.config, q)))
  }

  /** Step `m` looks the recording of the request up, with this result. */
  ghost predicate LooksUpAt(env: Env, labels: seq<Label>, m: nat, r: nat, h: Handler, q: Request, found: Option<Entry>) {
    ResumedAt(labels, m, r, Continue) && Finds(env, At(env, INITIAL, labels, m).app, h, q, found)
  }

  ghost predicate Found(env: Env, labels: seq<Label>, r: nat, h: Handler, q: Request, e: Entry) {
    exists m: nat :: LooksUpAt(env, labels, m, r, h, q, Some(e))
  }

  predicate ReplayedBy(e: Entry, q: Request, response: Recordings.Response) {
    Base64.Decode(e.response.bodyB64).Some? && response == ReplayedResponse(e.response, q.verb)
  }

  predicate LiveBy(reply: Reply, outcome: string, q: Request, response: Recordings.Response) {
    outcome in {"stored", "superseded", "too_large"} && response == LiveResponse(q.verb, reply, outcome)
  }

  /** Step `m` ends the wait of the request for its upstream so. */
  ghost predicate RepliesAt(env: Env, labels: seq<Label>, m: nat, r: nat, input: Input) {
    && ResumedAt(labels, m, r, input)
    && var before := At(env, INITIAL, labels, m);
       r in before.requests && (before.requests[r].Upstream? || before.requests[r].RuleUpstream?)
  }

  ghost predicate Replies(env: Env, labels: seq<Label>, r: nat, input: Input) {
    exists m: nat :: RepliesAt(env, labels, m, r, input)
  }

  /** Every other answer is one that the mock, the decisive rule and the events of the run call for. */
  ghost predicate Because(env: Env, labels: seq<Label>, r: nat, h: Handler, q: Request, answer: Answer) {
    match answer
    case MethodNotAllowed => !NamesMethod(h.mock.methods, q.verb)
    case RecordingNotFound => Replays(h.mock) && exists m: nat :: LooksUpAt(env, labels, m, r, h, q, None)
    case Replayed(response) =>
      Replays(h.mock) && exists e :: Found(env, labels, r, h, q, e) && ReplayedBy(e, q, response)
    case HostForbidden => !Replays(h.mock) && exists host :: Target(h, q, host) && !env.hostAllowed(host)
    case BadGateway =>
      if Replays(h.mock) then exists e :: Found(env, labels, r, h, q, e) && Base64.Decode(e.response.bodyB64).None?
      else Replies(env, labels, r, Unreachable) && exists host :: Target(h, q, host) && env.hostAllowed(host)
    case Proxied(reply) =>
      && !Replays(h.mock) && h.mock.recording.None? && Replies(env, labels, r, Answered(reply))
      && exists host :: Target(h, q, host) && env.hostAllowed(host)
    case Live(response) =>
      && !Replays(h.mock) && h.mock.recording.Some?
      && (exists host :: Target(h, q, host) && env.hostAllowed(host))
      && exists reply, outcome :: Replies(env, labels, r, Answered(reply)) && LiveBy(reply, outcome, q, response)
    case SequenceExhausted =>
      !Replays(h.mock) && !HasHost(h.mock.proxyHost) && exists m: nat :: ExhaustedAt(env, labels, m, r, h, q)
    case Served(data) =>
      !Replays(h.mock) && !HasHost(h.mock.proxyHost) && exists m: nat :: ServedAt(env, labels, m, r, h, q, data)
    case _ => true
  }

  ghost predicate Explains(env: Env, labels: seq<Label>, r: nat, h: Handler, q: Request, answer: Answer) {
    if answer.LoopDetected? then IsLoop(env.instanceId, q.headers)
    else if answer.Cancelled? then Cancel(r) in labels
    else
      && !IsLoop(env.instanceId, q.headers)
      && (!answer.MethodNotAllowed? ==> NamesMethod(h.mock.methods, q.verb))
      && Because(env, labels, r, h, q, answer)
  }

  // ---------------------------------------------------------------- the story of a request

  /** Some rule decides and has drawn these data, or proxies. */
  ghost predicate ChosenAt(
    env: Env, labels: seq<Label>, m: nat, r: nat, h: Handler, q: Request, i: nat, data: Object)
    requires i < |RulesOf(h.mock)|
  {
    && Decides(RulesOf(h.mock), q, i) && ResumedAt(labels, m, r, Continue)
    && (HasHost(RulesOf(h.mock)[i].input.proxyHost) || RuleGives(At(env, INITIAL, labels, m).app, h, q, i, data))
  }

  ghost predicate Chose(env: Env, labels: seq<Label>, r: nat, h: Handler, q: Request, rule: Rule, data: Object) {
    exists i: nat, m: nat :: i < |RulesOf(h.mock)| && RulesOf(h.mock)[i] == rule && ChosenAt(env, labels, m, r, h, q, i, data)
  }

  /** How far a request has come, and why. */
  ghost predicate Story(env: Env, labels: seq<Label>, r: nat, h: Handler, q: Request, p: Phase) {
    match p
    case Done(answer) => Explains(env, labels, r, h, q, answer)
    case Accepted(g, u) => g == h && u == q && !IsLoop(env.instanceId, q.headers)
    case Identifying(g, u, store, _) => g == h && u == q && Through(env, h, q) && h.recordings == Some(store)
    case Upstream(g, u, ticket) =>
      && g == h && u == q && Through(env, h, q) && !Replays(h.mock) && (ticket.Some? <==> h.mock.recording.Some?)
      && HasHost(h.mock.proxyHost) && env.hostAllowed(h.mock.proxyHost.value)
    case Matching(g, u) => g == h && u == q && Through(env, h, q) && !Replays(h.mock) && !HasHost(h.mock.proxyHost)
    case RuleDelay(m, u, rule, data) =>
      && m == h.mock && u == q && Through(env, h, q) && !Replays(h.mock) && !HasHost(h.mock.proxyHost)
      && Chose(env, labels, r, h, q, rule, data)
    case RuleUpstream(m, u, host) =>
      && m == h.mock && u == q && Through(env, h, q) && !Replays(h.mock) && h.mock.recording.None?
      && Target(h, q, host) && env.hostAllowed(host)
    case Delay(data) => Through(env, h, q) && Because(env, labels, r, h, q, Answer.Served(data))
  }

  /** Past the loop guard and the method filter. */
  predicate Through(env: Env, h: Handler, q: Request) {
    !IsLoop(env.instanceId, q.headers) && NamesMethod(h.mock.methods, q.verb)
  }

  /** The state in which the last step of a run is taken. */
  ghost predicate Now(env: Env, labels: seq<Label>, s: System) {
    labels != [] && s == At(env, INITIAL, labels, |labels| - 1)
  }

  lemma AtPrefix(env: Env, labels: seq<Label>, m: nat)
    requires m < |labels|
    ensures At(env, INITIAL, labels[..|labels| - 1], m) == At(env, INITIAL, labels, m)
    ensures m < |labels| - 1 ==> labels[..|labels| - 1][m] == labels[m]
  {
    assert labels[..|labels| - 1][..m] == labels[..m];
  }

  lemma CameLonger(env: Env, labels: seq<Label>, r: nat, h: Handler, q: Request)
    requires labels != [] && Came(env, labels[..|labels| - 1], r, h, q)
    ensures Came(env, labels, r, h, q)
  {
    var front := labels[..|labels| - 1];
    var m: nat :| m < |front| && ComesAt(At(env, INITIAL, front, m), front[m], r, h, q);
    AtPrefix(env, labels, m);
  }

  lemma BecauseLonger(env: Env, labels: seq<Label>, r: nat, h: Handler, q: Request, answer: Answer)
    requires labels != [] && Because(env, labels[..|labels| - 1], r, h, q, answer)
    ensures Because(env, labels, r, h, q, answer)
  {
    var front := labels[..|labels| - 1];
    forall m: nat | m < |front|
      ensures At(env, INITIAL, front, m) == At(env, INITIAL, labels, m) && front[m] == labels[m]
    {
      AtPrefix(env, labels, m);
    }
    match answer
    case RecordingNotFound =>
      var m: nat :| LooksUpAt(env, front, m, r, h, q, None);
      assert LooksUpAt(env, labels, m, r, h, q, None);
    case Replayed(response) =>
      var e :| Found(env, front, r, h, q, e) && ReplayedBy(e, q, response);
      FoundLonger(env, labels, r, h, q, e);
    case BadGateway =>
      if Replays(h.mock) {
        var e :| Found(env, front, r, h, q, e) && Base64.Decode(e.response.bodyB64).None?;
        FoundLonger(env, labels, r, h, q, e);
      } else {
        RepliesLonger(env, labels, r, Unreachable);
      }
    case SequenceExhausted =>
      var m: nat :| ExhaustedAt(env, front, m, r, h, q);
      assert ExhaustedAt(env, labels, m, r, h, q);
    case Served(data) =>
      var m: nat :| ServedAt(env, front, m, r, h, q, data);
      assert ServedAt(env, labels, m, r, h, q, data);
    case Live(response) =>
      var reply, outcome :| Replies(env, front, r, Answered(reply)) && LiveBy(reply, outcome, q, response);
      RepliesLonger(env, labels, r, Answered(reply));
    case Proxied(reply) => RepliesLonger(env, labels, r, Answered(reply));
    case _ =>
  }

  lemma FoundLonger(env: Env, labels: seq<Label>, r: nat, h: Handler, q: Request, e: Entry)
    requires labels != [] && Found(env, labels[..|labels| - 1], r, h, q, e)
    ensures Found(env, labels, r, h, q, e)
  {
    var m: nat :| LooksUpAt(env, labels[..|labels| - 1], m, r, h, q, Some(e));
    AtPrefix(env, labels, m);
    assert LooksUpAt(env, labels, m, r, h, q, Some(e));
  }

  lemma RepliesLonger(env: Env, labels: seq<Label>, r: nat, input: Input)
    requires labels != [] && Replies(env, labels[..|labels| - 1], r, input)
    ensures Replies(env, labels, r, input)
  {
    var m: nat :| RepliesAt(env, labels[..|labels| - 1], m, r, input);
    AtPrefix(env, labels, m);
    assert RepliesAt(env, labels, m, r, input);
  }

  lemma ChoseLonger(env: Env, labels: seq<Label>, r: nat, h: Handler, q: Request, rule: Rule, data: Object)
    requires labels != [] && Chose(env, labels[..|labels| - 1], r, h, q, rule, data)
    ensures Chose(env, labels, r, h, q, rule, data)
  {
    var front := labels[..|labels| - 1];
    var i: nat, m: nat :| i < |RulesOf(h.mock)| && RulesOf(h.mock)[i] == rule && ChosenAt(env, front, m, r, h, q, i, data);
    AtPrefix(env, labels, m);
    assert ChosenAt(env, labels, m, r, h, q, i, data);
  }

  lemma StoryLonger(env: Env, labels: seq<Label>, r: nat, h: Handler, q: Request, p: Phase)
    requires labels != [] && Story(env, labels[..|labels| - 1], r, h, q, p)
    ensures Story(env, labels, r, h, q, p)
  {
    match p
    case Done(answer) =>
      if !answer.LoopDetected? && !answer.Cancelled? {
        BecauseLonger(env, labels, r, h, q, answer);
      }
    case RuleDelay(_, _, rule, data) => ChoseLonger(env, labels, r, h, q, rule, data);
    case Delay(data) => BecauseLonger(env, labels, r, h, q, Answer.Served(data));
    case _ =>
  }

  // ---------------------------------------------------------------- the next chapter

  /** The last step of the run resumes the request, with its handler as it should be. */
  ghost predicate Resuming(env: Env, labels: seq<Label>, s: System, r: nat, h: Handler, input: Input) {
    Now(env, labels, s) && labels[|labels| - 1] == Resume(r, input) && Equipped(s.app, h)
  }

  /** The request is neither replayed nor forwarded by its mock. */
  predicate Local(env: Env, h: Handler, q: Request) {
    Through(env, h, q) && !Replays(h.mock) && !HasHost(h.mock.proxyHost)
  }

  lemma LastDelayStory(env: Env, labels: seq<Label>, r: nat, h: Handler, q: Request, m: nat, timeout: Option<real>, data: Object)
    requires Local(env, h, q) && ServedAt(env, labels, m, r, h, q, data)
    ensures Story(env, labels, r, h, q, AfterLastDelay(timeout, data))
  {
  }

  lemma DefaultStory(env: Env, labels: seq<Label>, s: System, r: nat, h: Handler, q: Request)
    requires Resuming(env, labels, s, r, h, Continue) && Local(env, h, q) && NothingAsks(RulesOf(h.mock), q)
    ensures Story(env, labels, r, h, q, ServeDefault(s.app, h).1)
  {
    var n := |labels| - 1;
    var data := DefaultServed(s.app, h);
    if ServeDefault(s.app, h).1 == Done(SequenceExhausted) {
      if RunsDry(s.app, h, Default) {
        assert ExhaustedAt(env, labels, n, r, h, q);
      }
    } else {
      assert ServedAt(env, labels, n, r, h, q, data);
      LastDelayStory(env, labels, r, h, q, n, h.mock.timeout, data);
    }
  }

  lemma AfterRuleStory(env: Env, labels: seq<Label>, r: nat, h: Handler, q: Request, rule: Rule, data: Object)
    requires Local(env, h, q) && ValidMock(h.mock) && Chose(env, labels, r, h, q, rule, data)
    ensures Story(env, labels, r, h, q, AfterRule(env, h.mock, q, rule, data))
  {
    var i: nat, m: nat :| i < |RulesOf(h.mock)| && RulesOf(h.mock)[i] == rule && ChosenAt(env, labels, m, r, h, q, i, data);
    if HasHost(rule.input.proxyHost) {
      assert RuleTargets(h, q, i, rule.input.proxyHost.value);
      assert Target(h, q, rule.input.proxyHost.value);
    } else {
      assert ServedAt(env, labels, m, r, h, q, data);
      LastDelayStory(env, labels, r, h, q, m, rule.input.timeout, data);
    }
  }

  lemma ChoiceStory(env: Env, labels: seq<Label>, r: nat, h: Handler, q: Request, rule: Rule, data: Object)
    requires Local(env, h, q) && ValidMock(h.mock) && Chose(env, labels, r, h, q, rule, data)
    ensures Story(env, labels, r, h, q, AfterChoice(env, h.mock, q, rule, data))
  {
    AfterRuleStory(env, labels, r, h, q, rule, data);
  }

  lemma RuleStory(env: Env, labels: seq<Label>, s: System, r: nat, h: Handler, q: Request, item: Item)
    requires Resuming(env, labels, s, r, h, Continue) && Local(env, h, q)
    requires Decides(RulesOf(h.mock), q, item.index) && item.rule == RulesOf(h.mock)[item.index]
    ensures Story(env, labels, r, h, q, ServeRule(env, s.app, h, q, item).1)
  {
    var n, i := |labels| - 1, item.index;
    var data := RuleServed(env, s.app, h, q, item);
    if ServeRule(env, s.app, h, q, item).1 == Done(SequenceExhausted) && !HasHost(item.rule.input.proxyHost)
       && RunsDry(s.app, h, OfRule(i)) {
      assert ExhaustedAt(env, labels, n, r, h, q);
    } else {
      assert ChosenAt(env, labels, n, r, h, q, i, data);
      ChoiceStory(env, labels, r, h, q, item.rule, data);
    }
  }

  lemma MatchingStory(env: Env, labels: seq<Label>, s: System, r: nat, h: Handler, q: Request)
    requires Resuming(env, labels, s, r, h, Continue) && Local(env, h, q)
    ensures Story(env, labels, r, h, q, Advance(env, s.app, Matching(h, q), Continue).1)
  {
    var item := Select(RulesOf(h.mock), q);
    SelectIff(RulesOf(h.mock), q);
    if item.Some? {
      RuleStory(env, labels, s, r, h, q, item.value);
    } else {
      DefaultStory(env, labels, s, r, h, q);
    }
  }

  lemma DispatchStory(env: Env, labels: seq<Label>, s: System, r: nat, h: Handler, q: Request, ticket: Option<Ticket>)
    requires Resuming(env, labels, s, r, h, Continue) && Through(env, h, q) && !Replays(h.mock)
    requires ticket.Some? <==> h.mock.recording.Some?
    ensures Story(env, labels, r, h, q, Dispatch(env, s.app, h, q, ticket).1)
  {
    if HasHost(h.mock.proxyHost) {
      assert Target(h, q, h.mock.proxyHost.value);
    } else if RulesOf(h.mock) == [] {
      DefaultStory(env, labels, s, r, h, q);
    }
  }

  lemma AcceptedStory(env: Env, labels: seq<Label>, s: System, r: nat, h: Handler, q: Request)
    requires Resuming(env, labels, s, r, h, Continue) && !IsLoop(env.instanceId, q.headers)
    ensures Story(env, labels, r, h, q, Advance(env, s.app, Accepted(h, q), Continue).1)
  {
    MethodIff(h.mock.methods, q.verb);
    if NamesMethod(h.mock.methods, q.verb) && h.recordings.None? {
      DispatchStory(env, labels, s, r, h, q, None);
    }
  }

  lemma IdentifyingStory(env: Env, labels: seq<Label>, s: System, r: nat, h: Handler, q: Request, store: nat, revision: nat)
    requires Resuming(env, labels, s, r, h, Continue) && Through(env, h, q) && h.recordings == Some(store)
    ensures Story(env, labels, r, h, q, Advance(env, s.app, Identifying(h, q, store, revision), Continue).1)
  {
    var a := s.app;
    var data := Identity(a.stores[store].config, q);
    if Replays(h.mock) {
      var found := LookUp(a.stores[store].slots, env.codec.hash(data));
      assert LooksUpAt(env, labels, |labels| - 1, r, h, q, found);
      if found.Some? {
        assert Found(env, labels, r, h, q, found.value);
      }
    } else {
      DispatchStory(env, labels, s, r, h, q, Some(Ticket(store, env.codec.hash(data), data, revision)));
    }
  }

  /** A reply that is recorded: whatever becomes of it, the client gets the reply. */
  lemma RecordedStory(
    env: Env, labels: seq<Label>, s: System, r: nat, h: Handler, q: Request, ticket: Ticket, reply: Reply)
    requires Through(env, h, q) && !Replays(h.mock) && h.mock.recording.Some? && ticket.store < |s.app.stores|
    requires HasHost(h.mock.proxyHost) && Target(h, q, h.mock.proxyHost.value) && env.hostAllowed(h.mock.proxyHost.value)
    requires Replies(env, labels, r, Answered(reply))
    ensures Story(env, labels, r, h, q, Machine.Recorded(env, s.app, q, ticket, reply).1)
  {
    var size := SizeOf(env, ticket, reply);
    var outcome := OutcomeText(SaveOutcome(s.app.stores[ticket.store], size, ticket.revision));
    assert LiveBy(reply, outcome, q, LiveResponse(q.verb, reply, outcome));
  }

  lemma UpstreamStory(
    env: Env, labels: seq<Label>, s: System, r: nat, h: Handler, q: Request, ticket: Option<Ticket>, input: Input)
    requires Resuming(env, labels, s, r, h, input) && Story(env, labels, r, h, q, Upstream(h, q, ticket))
    requires ticket.Some? ==> ticket.value.store < |s.app.stores|
    requires r in s.requests && s.requests[r] == Upstream(h, q, ticket)
    ensures Story(env, labels, r, h, q, Advance(env, s.app, Upstream(h, q, ticket), input).1)
  {
    assert Target(h, q, h.mock.proxyHost.value);
    assert RepliesAt(env, labels, |labels| - 1, r, input);
    if input.Answered? && ticket.Some? {
      RecordedStory(env, labels, s, r, h, q, ticket.value, input.reply);
    }
  }

  lemma RuleUpstreamStory(
    env: Env, labels: seq<Label>, s: System, r: nat, h: Handler, q: Request, host: string, input: Input)
    requires Resuming(env, labels, s, r, h, input) && Story(env, labels, r, h, q, RuleUpstream(h.mock, q, host))
    requires r in s.requests && s.requests[r] == RuleUpstream(h.mock, q, host)
    ensures Story(env, labels, r, h, q, Advance(env, s.app, RuleUpstream(h.mock, q, host), input).1)
  {
    assert RepliesAt(env, labels, |labels| - 1, r, input);
  }

  /** Whatever resumes a request, its story goes on. */
  lemma StoryGoesOn(env: Env, labels: seq<Label>, s: System, r: nat, h: Handler, q: Request, p: Phase, input: Input)
    requires Resuming(env, labels, s, r, h, input) && Story(env, labels, r, h, q, p) && PhaseOk(env, s.app, p)
    requires r in s.requests && s.requests[r] == p
    ensures Story(env, labels, r, h, q, Advance(env, s.app, p, input).1)
  {
    match (p, input)
    case (Accepted(_, _), Continue) => AcceptedStory(env, labels, s, r, h, q);
    case (Identifying(_, _, store, revision), Continue) => IdentifyingStory(env, labels, s, r, h, q, store, revision);
    case (Upstream(_, _, ticket), _) => UpstreamStory(env, labels, s, r, h, q, ticket, input);
    case (Matching(_, _), Continue) => MatchingStory(env, labels, s, r, h, q);
    case (RuleDelay(_, _, rule, data), Continue) => AfterRuleStory(env, labels, r, h, q, rule, data);
    case (RuleUpstream(_, _, host), _) => RuleUpstreamStory(env, labels, s, r, h, q, host, input);
    case _ =>
  }

  // ---------------------------------------------------------------- whole runs

  ghost predicate HasStory(env: Env, labels: seq<Label>, t: System, r: nat, h: Handler, q: Request) {
    r in t.requests && Came(env, labels, r, h, q) && Equipped(t.app, h) && Story(env, labels, r, h, q, t.requests[r])
  }

  ghost predicate AllHaveStories(env: Env, labels: seq<Label>, t: System) {
    forall r :: r in t.requests ==> exists h, q :: HasStory(env, labels, t, r, h, q)
  }

  lemma ArrivalStory(env: Env, labels: seq<Label>, s: System, t: System, r: nat)
    requires Now(env, labels, s) && t == Step(env, s, labels[|labels| - 1]) && AppOk(env, s.app)
    requires r in t.requests && r !in s.requests
    ensures exists h, q :: HasStory(env, labels, t, r, h, q)
  {
    var l := labels[|labels| - 1];
    var h, q := s.app.routes[l.route].handler, l.request;
    RouteEquipped(env, s.app, l.route);
    assert ComesAt(s, l, r, h, q);
    assert Came(env, labels, r, h, q);
    assert HasStory(env, labels, t, r, h, q);
  }

  lemma StoryStep(env: Env, labels: seq<Label>, s: System, t: System, r: nat, h: Handler, q: Request)
    requires Now(env, labels, s) && t == Step(env, s, labels[|labels| - 1])
    requires SystemOk(env, s) && AppOk(env, t.app) && HasStory(env, labels[..|labels| - 1], s, r, h, q)
    ensures HasStory(env, labels, t, r, h, q)
  {
    var l := labels[|labels| - 1];
    CameLonger(env, labels, r, h, q);
    StoryLonger(env, labels, r, h, q, s.requests[r]);
    StepLater(env, s, l);
    EquippedLater(env, s.app, t.app, h);
    if l.Resume? && l.id == r {
      assert PhaseOk(env, s.app, s.requests[r]);
      StoryGoesOn(env, labels, s, r, h, q, s.requests[r], l.input);
    } else {
      WaitingStays(env, s, l, r);
      if t.requests[r] != s.requests[r] {
        CancelledBy(env, s, l, r);
        assert Explains(env, labels, r, h, q, Cancelled);
      }
    }
  }

  lemma CancelledBy(env: Env, s: System, l: Label, r: nat)
    requires r in s.requests && !(l.Resume? && l.id == r) && r in Step(env, s, l).requests
    requires Step(env, s, l).requests[r] != s.requests[r]
    ensures l == Cancel(r) && Step(env, s, l).requests[r] == Done(Cancelled)
  {
  }

  lemma {:induction false} RunHasStories(env: Env, labels: seq<Label>)
    requires SoundSchema(env.schema) && forall l :: l in labels ==> GoodLabel(env, l)
    ensures AllHaveStories(env, labels, Run(env, INITIAL, labels))
  {
    if labels != [] {
      var n := |labels| - 1;
      var front := labels[..n];
      assert labels[n] in labels && forall l :: l in front ==> l in labels;
      RunHasStories(env, front);
      InitialOk(env);
      RunOk(env, INITIAL, front);
      RunOk(env, INITIAL, labels);
      StoriesGoOn(env, labels, Run(env, INITIAL, front), Run(env, INITIAL, labels));
    }
  }

  lemma StoriesGoOn(env: Env, labels: seq<Label>, s: System, t: System)
    requires Now(env, labels, s) && t == Step(env, s, labels[|labels| - 1])
    requires SystemOk(env, s) && AppOk(env, t.app) && AllHaveStories(env, labels[..|labels| - 1], s)
    ensures AllHaveStories(env, labels, t)
  {
    forall r | r in t.requests
      ensures exists h, q :: HasStory(env, labels, t, r, h, q)
    {
      if r in s.requests {
        var h, q :| HasStory(env, labels[..|labels| - 1], s, r, h, q);
        StoryStep(env, labels, s, t, r, h, q);
      } else {
        ArrivalStory(env, labels, s, t, r);
      }
    }
  }

  /**
   * Every answer is explained. In every run of the server, a request that has been answered came on a
   * route with some handler, and its answer is the one called for by the loop guard, the methods of
   * the mock, its recordings in the state of the look-up, the allowlist, the upstream reply that
   * resumed it, or its configuration: the response of the rule that decides, or of the default if no
   * rule asks for the request, from the cursor in the state of the draw where there is a sequence.
   */
  lemma AnswerExplained(env: Env, labels: seq<Label>, r: nat, answer: Answer) returns (h: Handler, q: Request)
    requires SoundSchema(env.schema) && forall l :: l in labels ==> GoodLabel(env, l)
    requires var t := Run(env, INITIAL, labels); r in t.requests && t.requests[r] == Done(answer)
    ensures Came(env, labels, r, h, q) && Explains(env, labels, r, h, q, answer)
  {
    RunHasStories(env, labels);
    h, q :| HasStory(env, labels, Run(env, INITIAL, labels), r, h, q);
  }

  /** Whether an answer comes from local data. */
  predicate IsLocal(answer: Answer) {
    answer.Served? || answer.SequenceExhausted?
  }

  predicate IsForwarded(answer: Answer) {
    answer.Live? || answer.Proxied?
  }

  /** What answers with replies alone, what never records, and what may be forwarded. */
  ghost predicate Unmixed(h: Handler, q: Request, answer: Answer) {
    && (h.mock.recording.Some? ==> !IsLocal(answer) && !answer.Proxied? && (Replays(h.mock) ==> !answer.Live?))
    && (h.mock.recording.None? ==> !answer.Live? && !answer.Replayed? && !answer.RecordingNotFound?)
    && (IsForwarded(answer) ==>
          if HasHost(h.mock.proxyHost) then forall k :: SequenceOf(h.mock, k).None?
          else exists i: nat :: i < |RulesOf(h.mock)| && Decides(RulesOf(h.mock), q, i) && RulesOf(h.mock)[i].sequence.None?)
  }

  lemma ForwarderHasNoSequence(h: Handler, q: Request, host: string)
    requires ValidMock(h.mock) && Target(h, q, host)
    ensures if HasHost(h.mock.proxyHost) then forall k :: SequenceOf(h.mock, k).None?
            else exists i: nat :: i < |RulesOf(h.mock)| && Decides(RulesOf(h.mock), q, i) && RulesOf(h.mock)[i].sequence.None?
  {
    var rules := RulesOf(h.mock);
    if !HasHost(h.mock.proxyHost) {
      var i: nat :| i < |rules| && RuleTargets(h, q, i, host);
      assert rules[i] in rules;
    }
  }

  lemma NothingMixed(env: Env, labels: seq<Label>, r: nat, h: Handler, q: Request, answer: Answer)
    requires ValidMock(h.mock) && Explains(env, labels, r, h, q, answer)
    ensures Unmixed(h, q, answer)
  {
    if IsForwarded(answer) {
      var host :| Target(h, q, host);
      ForwarderHasNoSequence(h, q, host);
    }
  }

  /**
   * Modes do not mix: in every run a mock that records answers with replies of its upstream alone, live
   * or replayed as its mode says, others never do so, and what forwards a request has no sequence.
   */
  lemma ModesDoNotMix(env: Env, labels: seq<Label>, r: nat, answer: Answer) returns (h: Handler, q: Request)
    requires SoundSchema(env.schema) && forall l :: l in labels ==> GoodLabel(env, l)
    requires var t := Run(env, INITIAL, labels); r in t.requests && t.requests[r] == Done(answer)
    ensures Came(env, labels, r, h, q) && Unmixed(h, q, answer)
  {
    RunHasStories(env, labels);
    h, q :| HasStory(env, labels, Run(env, INITIAL, labels), r, h, q);
    NothingMixed(env, labels, r, h, q, answer);
  }

  // ---------------------------------------------------------------- every request is answered

  /** How many suspensions may still lie before a request. */
  function Rank(p: Phase): nat {
    match p
    case Accepted(_, _) => 5
    case Identifying(_, _, _, _) => 4
    case Matching(_, _) => 3
    case RuleDelay(_, _, _, _) => 2
    case Upstream(_, _, _) => 1
    case RuleUpstream(_, _, _) => 1
    case Delay(_) => 1
    case Done(_) => 0
  }

  /** The input ends this suspension. */
  predicate Suits(p: Phase, input: Input) {
    !p.Done? && if p.Upstream? || p.RuleUpstream? then !input.Continue? else input.Continue?
  }

  lemma RankFalls(env: Env, a: App, p: Phase, input: Input)
    requires PhaseOk(env, a, p)
    ensures Rank(Advance(env, a, p, input).1) + (if Suits(p, input) then 1 else 0) <= Rank(p)
  {
    if p.Accepted? || p.Identifying? || p.Matching? {
      ServeDefaultRank(a, p.handler);
    }
    if p.Matching? {
      var item := Select(RulesOf(p.handler.mock), p.request);
      if item.Some? {
        ServeRuleRank(env, a, p.handler, p.request, item.value);
      }
    }
  }

  lemma ServeDefaultRank(a: App, h: Handler)
    ensures Rank(ServeDefault(a, h).1) <= 1
  {
  }

  lemma ServeRuleRank(env: Env, a: App, h: Handler, q: Request, item: Item)
    ensures Rank(ServeRule(env, a, h, q, item).1) <= 2
  {
  }

  /** How often a run resumes the request as its suspension needs it. */
  function Progress(env: Env, s: System, labels: seq<Label>, r: nat): nat {
    if labels == [] then 0
    else
      var n := |labels| - 1;
      var before, l := Run(env, s, labels[..n]), labels[n];
      Progress(env, s, labels[..n], r)
      + if l.Resume? && l.id == r && r in before.requests && Suits(before.requests[r], l.input) then 1 else 0
  }

  /**
   * Every request is answered: whatever else runs, at most five suitable resumptions lie between its
   * arrival and its answer, and as long as it is not answered some input suits its suspension.
   */
  lemma {:induction false} EveryRequestIsAnswered(env: Env, s: System, labels: seq<Label>, r: nat)
    requires TicketsOk(env, s) && r in s.requests
    ensures r in Run(env, s, labels).requests
    ensures Progress(env, s, labels, r) + Rank(Run(env, s, labels).requests[r]) <= Rank(s.requests[r]) <= 5
    ensures !Run(env, s, labels).requests[r].Done? ==> exists input :: Suits(Run(env, s, labels).requests[r], input)
  {
    var p := Run(env, s, labels).requests;
    if labels != [] {
      var n := |labels| - 1;
      EveryRequestIsAnswered(env, s, labels[..n], r);
      RunTicketsOk(env, s, labels[..n]);
      RankStep(env, Run(env, s, labels[..n]), labels[n], r);
    }
    assert Suits(p[r], Continue) || Suits(p[r], Unreachable) || p[r].Done?;
  }

  lemma RankStep(env: Env, s: System, l: Label, r: nat)
    requires TicketsOk(env, s) && r in s.requests
    ensures r in Step(env, s, l).requests
    ensures Rank(Step(env, s, l).requests[r])
            + (if l.Resume? && l.id == r && Suits(s.requests[r], l.input) then 1 else 0) <= Rank(s.requests[r])
  {
    if l.Resume? && l.id == r {
      RankFalls(env, s.app, s.requests[r], l.input);
    } else {
      WaitingStays(env, s, l, r);
    }
  }
}
