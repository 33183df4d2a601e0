/**
 * The whole server as a state machine. A request to a mock (proxy_mock/utils.py, `apply_mocks`)
 * suspends while its body arrives, while a configured delay passes and while an upstream answers;
 * administrative operations and other requests run between its steps. Labels resolve every choice
 * the environment has, so a run is a list of labels and every list of labels is a run.
 */
module Machine {
  import opened Wrappers
  import Base64
  import opened Json
  import opened ProxyChain
  import opened Recordings
  import opened Store
  import opened Mocks
  import opened Sequences
  import opened Rules
  import opened Lifecycle
  import opened Admin
  import opened Snapshot

  /** What `identify` gave a request: a store, a key, the identity behind it, and a revision. */
  datatype Ticket = Ticket(store: nat, key: string, data: RequestData, revision: nat)

  datatype Answer =
    | LoopDetected | MethodNotAllowed | RecordingNotFound | HostForbidden | BadGateway | SequenceExhausted | Cancelled
    | Replayed(response: Response)
    | Live(response: Response)
    | Proxied(reply: Reply)
    | Served(data: Object)

  /** Where a request is suspended, or its answer. */
  datatype Phase =
    | Accepted(handler: Handler, request: Request)                            // recording traffic
    | Identifying(handler: Handler, request: Request, store: nat, revision: nat)  // body, inside identify
    | Upstream(handler: Handler, request: Request, ticket: Option<Ticket>)    // mock-level proxying
    | Matching(handler: Handler, request: Request)                            // body, inside apply_rules
    | RuleDelay(mock: Mock, request: Request, rule: Rule, data: Object)       // the mock's delay, rule chosen
    | RuleUpstream(mock: Mock, request: Request, host: string)                // rule-level proxying
    | Delay(data: Object)                                                     // the last delay
    | Done(answer: Answer)

  /** What ends a suspension. */
  datatype Input = Continue | Answered(reply: Reply) | Unreachable

  // ---------------------------------------------------------------- one request

  function OutcomeText(o: Outcome): string {
    match o
    case Stored => "stored"
    case Superseded => "superseded"
    case TooLarge => "too_large"
  }

  function Reserve(a: App, id: nat): App
    requires id < |a.cursors|
  {
    a.(cursors := a.cursors[id := AfterTake(a.cursors[id])])
  }

  function CursorOf(a: App, h: Handler, key: Key): Option<nat> {
    if key in h.sequences && h.sequences[key] < |a.cursors| && a.cursors[h.sequences[key]].Ok()
    then Some(h.sequences[key]) else None
  }

  function AfterLastDelay(timeout: Option<real>, data: Object): Phase {
    if HasDelay(timeout) then Delay(data) else Done(Served(data))
  }

  /** No rule has matched: the default cursor, or the static response. */
  function ServeDefault(a: App, h: Handler): (App, Phase) {
    var id := CursorOf(a, h, Default);
    if id.None? then (a, AfterLastDelay(h.mock.timeout, h.mock.mockData))
    else
      match TakeResult(a.cursors[id.value])
      case Exhausted => (Reserve(a, id.value), Done(SequenceExhausted))
      case Response(data) => (Reserve(a, id.value), AfterLastDelay(h.mock.timeout, data))
  }

  /** A chosen rule after the mock's delay: proxy, or wait for its own delay. */
  function AfterRule(env: Env, m: Mock, q: Request, rule: Rule, data: Object): Phase {
    if HasHost(rule.input.proxyHost) then
      if env.hostAllowed(rule.input.proxyHost.value) then RuleUpstream(m, q, rule.input.proxyHost.value) else Done(HostForbidden)
    else AfterLastDelay(rule.input.timeout, data)
  }

  /** A chosen rule: first the delay of the mock. */
  function AfterChoice(env: Env, m: Mock, q: Request, rule: Rule, data: Object): Phase {
    if HasDelay(m.timeout) then RuleDelay(m, q, rule, data) else AfterRule(env, m, q, rule, data)
  }

  /** A chosen rule: its cursor is reserved before any delay, and never when it is proxied. */
  function ServeRule(env: Env, a: App, h: Handler, q: Request, item: Item): (App, Phase) {
    var id := CursorOf(a, h, OfRule(item.index));
    if id.None? || HasHost(item.rule.input.proxyHost) then
      (a, AfterChoice(env, h.mock, q, item.rule, item.rule.output))
    else
      match TakeResult(a.cursors[id.value])
      case Exhausted => (Reserve(a, id.value), Done(SequenceExhausted))
      case Response(data) => (Reserve(a, id.value), AfterChoice(env, h.mock, q, item.rule, data))
  }

  /** After the record/replay branch: proxy, match rules, or serve the default. */
  function Dispatch(env: Env, a: App, h: Handler, q: Request, ticket: Option<Ticket>): (App, Phase) {
    if HasHost(h.mock.proxyHost) then
      (a, if env.hostAllowed(h.mock.proxyHost.value) then Upstream(h, q, ticket) else Done(HostForbidden))
    else if RulesOf(h.mock) != [] then (a, Matching(h, q))
    else ServeDefault(a, h)
  }

  /** The body has arrived: replay, or go on to record. */
  function Identified(env: Env, a: App, h: Handler, q: Request, store: nat, revision: nat): (App, Phase)
    requires store < |a.stores|
  {
    var data := Identity(a.stores[store].config, q);
    var key := env.codec.hash(data);
    if h.mock.recording.Some? && h.mock.recording.value.mode.Replay? then
      var found := LookUp(a.stores[store].slots, key);
      (a, if found.None? then Done(RecordingNotFound)
          else if Base64.Decode(found.value.response.bodyB64).None? then Done(BadGateway)
          else Done(Replayed(ReplayedResponse(found.value.response, q.verb))))
    else Dispatch(env, a, h, q, Some(Ticket(store, key, data, revision)))
  }

  /** The upstream has answered: save, and pass the reply on. */
  function Recorded(env: Env, a: App, q: Request, t: Ticket, reply: Reply): (App, Phase)
    requires t.store < |a.stores|
  {
    var s := a.stores[t.store];
    var e := EntryOf(env.codec.hash, t.data, reply);
    var slot := Slot(e, env.codec.size(e));
    (a.(stores := a.stores[t.store := Saved(s, slot, t.revision)]),
     Done(Live(LiveResponse(q.verb, reply, OutcomeText(SaveOutcome(s, slot.size, t.revision))))))
  }

  /** One step of a request: it runs until it is suspended again. */
  function Advance(env: Env, a: App, p: Phase, input: Input): (App, Phase) {
    match (p, input)
    case (Accepted(h, q), Continue) =>
      if !MethodAllowed(h.mock.methods, q.verb) then (a, Done(MethodNotAllowed))
      else if h.recordings.Some? && h.recordings.value < |a.stores| then
        (a, Identifying(h, q, h.recordings.value, a.stores[h.recordings.value].revision))
      else Dispatch(env, a, h, q, None)
    case (Identifying(h, q, store, revision), Continue) =>
      if store < |a.stores| then Identified(env, a, h, q, store, revision) else (a, p)
    case (Upstream(_, q, ticket), Answered(reply)) =>
      if ticket.Some? && ticket.value.store < |a.stores| then Recorded(env, a, q, ticket.value, reply)
      else (a, Done(Proxied(reply)))
    case (Upstream(_, _, _), Unreachable) => (a, Done(BadGateway))
    case (Matching(h, q), Continue) =>
      var item := Select(RulesOf(h.mock), q);
      if item.Some? then ServeRule(env, a, h, q, item.value) else ServeDefault(a, h)
    case (RuleDelay(m, q, rule, data), Continue) => (a, AfterRule(env, m, q, rule, data))
    case (RuleUpstream(_, _, _), Answered(reply)) => (a, Done(Proxied(reply)))
    case (RuleUpstream(_, _, _), Unreachable) => (a, Done(BadGateway))
    case (Delay(data), Continue) => (a, Done(Served(data)))
    case _ => (a, p)
  }

  // ---------------------------------------------------------------- the system

  datatype System = System(app: App, requests: map<nat, Phase>)

  const INITIAL := System(EMPTY, map[])

  datatype Label =
    | Put(raw: string, body: Object)
    | Patch(raw: string, changes: Object)
    | Delete(raw: string)
    | Clear
    | ImportSnapshot(doc: Document, replace: bool)
    | DeleteRecording(raw: string, key: Option<string>)
    | ResetCursor(raw: string, slot: Key)
    | Arrive(id: nat, route: nat, request: Request)
    | Resume(id: nat, input: Input)
    | Cancel(id: nat)

  predicate IsAdmin(l: Label) {
    !l.Arrive? && !l.Resume? && !l.Cancel?
  }

  function AdminStep(env: Env, a: App, l: Label): App {
    match l
    case Put(raw, body) => PutMock(env, a, raw, body).0
    case Patch(raw, changes) => PatchMock(env, a, raw, changes).0
    case Delete(raw) => DeleteMock(a, raw).0
    case Clear => Cleanup(a)
    case ImportSnapshot(doc, replace) => Import(env, a, doc, replace).0
    case DeleteRecording(raw, key) => DeleteRecordings(a, raw, key).0
    case ResetCursor(raw, key) => ResetSequence(a, raw, key).0
    case _ => a
  }

  /** A request may be dispatched to any route; ids are never reused. */
  function Arrived(env: Env, s: System, r: nat, route: nat, q: Request): System {
    if r in s.requests || route >= |s.app.routes| then s
    else
      var p := if IsLoop(env.instanceId, q.headers) then Done(LoopDetected)
               else Accepted(s.app.routes[route].handler, q);
      s.(requests := s.requests[r := p])
  }

  function Resumed(env: Env, s: System, r: nat, input: Input): System {
    if r !in s.requests then s
    else
      var next := Advance(env, s.app, s.requests[r], input);
      System(next.0, s.requests[r := next.1])
  }

  /** A cancelled request stays answered. */
  function Abandoned(s: System, r: nat): System {
    if r in s.requests && !s.requests[r].Done? then s.(requests := s.requests[r := Done(Cancelled)]) else s
  }

  /** One step of the server. */
  function Step(env: Env, s: System, l: Label): System {
    match l
    case Arrive(r, route, q) => Arrived(env, s, r, route, q)
    case Resume(r, input) => Resumed(env, s, r, input)
    case Cancel(r) => Abandoned(s, r)
    case _ => s.(app := AdminStep(env, s.app, l))
  }

  function Run(env: Env, s: System, labels: seq<Label>): System {
    if labels == [] then s else Step(env, Run(env, s, labels[..|labels| - 1]), labels[|labels| - 1])
  }

  /** The state in which label `m` of a run is taken. */
  function At(env: Env, s: System, labels: seq<Label>, m: nat): System
    requires m <= |labels|
  {
    Run(env, s, labels[..m])
  }
}
