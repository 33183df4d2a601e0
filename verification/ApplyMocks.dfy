/**
 * The request handler (proxy_mock/utils.py, `apply_mocks`; proxy_mock/services/rule_engine.py,
 * `apply_rules`) on a running application: one method for each stretch of code between two
 * suspensions, holding its handler, store and cursors by reference. Resuming a request is proved
 * to do what `Advance` does to the value of the application.
 */
module ApplyMocks {
  import opened Wrappers
  import Base64
  import opened Json
  import opened Recordings
  import opened Store
  import opened Mocks
  import opened Sequences
  import opened Rules
  import opened Lifecycle
  import Machine
  import opened Runtime

  datatype LiveTicket = LiveTicket(store: RecordingStore, key: string, data: RequestData, revision: nat)

  /** Where a request is suspended, or its answer. */
  datatype LivePhase =
    | Accepted(handler: Closure, request: Request)
    | Identifying(handler: Closure, request: Request, store: RecordingStore, revision: nat)
    | Upstream(handler: Closure, request: Request, ticket: Option<LiveTicket>)
    | Matching(handler: Closure, request: Request)
    | RuleDelay(mock: Mock, request: Request, rule: Rule, data: Object)
    | RuleUpstream(mock: Mock, request: Request, host: string)
    | Delay(data: Object)
    | Done(answer: Machine.Answer)

  ghost function TicketView(t: LiveTicket): Machine.Ticket {
    Machine.Ticket(t.store.id, t.key, t.data, t.revision)
  }

  ghost function PhaseView(p: LivePhase): Machine.Phase {
    match p
    case Accepted(h, q) => Machine.Accepted(HandlerView(h), q)
    case Identifying(h, q, store, revision) => Machine.Identifying(HandlerView(h), q, store.id, revision)
    case Upstream(h, q, ticket) =>
      Machine.Upstream(HandlerView(h), q, if ticket.Some? then Some(TicketView(ticket.value)) else None)
    case Matching(h, q) => Machine.Matching(HandlerView(h), q)
    case RuleDelay(m, q, rule, data) => Machine.RuleDelay(m, q, rule, data)
    case RuleUpstream(m, q, host) => Machine.RuleUpstream(m, q, host)
    case Delay(data) => Machine.Delay(data)
    case Done(answer) => Machine.Done(answer)
  }

  /** What a suspended request refers to exists, and its key is that of its identity. */
  ghost predicate Known(env: Env, cursors: seq<ResponseSequence>, stores: seq<RecordingStore>, p: LivePhase) {
    match p
    case Accepted(h, _) => KnownHandler(cursors, stores, h)
    case Identifying(h, _, store, _) => KnownHandler(cursors, stores, h) && KnownStore(stores, store)
    case Upstream(h, _, ticket) =>
      && KnownHandler(cursors, stores, h)
      && (ticket.Some? ==> KnownStore(stores, ticket.value.store) && ticket.value.key == env.codec.hash(ticket.value.data))
    case Matching(h, _) => KnownHandler(cursors, stores, h)
    case _ => true
  }

  ghost predicate KnownIn(app: MockApp, p: LivePhase)
    reads app
  {
    Known(app.env, app.cursorHeap, app.storeHeap, p)
  }

  function AfterLastDelay(timeout: Option<real>, data: Object): (p: LivePhase)
    ensures PhaseView(p) == Machine.AfterLastDelay(timeout, data)
    ensures !p.Accepted? && !p.Identifying? && !p.Upstream? && !p.Matching?
  {
    if HasDelay(timeout) then Delay(data) else Done(Machine.Served(data))
  }

  /** No rule has matched: reserve from the default cursor, or answer with the static response. */
  method ServeDefault(app: MockApp, h: Closure) returns (next: LivePhase)
    requires app.Valid() && KnownHandler(app.cursorHeap, app.storeHeap, h)
    modifies app.cursorHeap
    ensures app.Valid() && KnownIn(app, next)
    ensures (app.View(), PhaseView(next)) == Machine.ServeDefault(old(app.View()), HandlerView(h))
  {
    if Default !in h.sequences {
      return AfterLastDelay(h.mock.timeout, h.mock.mockData);
    }
    var taken := app.TakeFrom(h.sequences[Default]);
    match taken
    case Exhausted => return Done(Machine.SequenceExhausted);
    case Response(data) => return AfterLastDelay(h.mock.timeout, data);
  }

  function AfterRule(env: Env, m: Mock, q: Request, rule: Rule, data: Object): (p: LivePhase)
    ensures PhaseView(p) == Machine.AfterRule(env, m, q, rule, data)
    ensures !p.Accepted? && !p.Identifying? && !p.Upstream? && !p.Matching?
  {
    var host := rule.input.proxyHost;
    if HasHost(host) then
      if env.hostAllowed(host.value) then RuleUpstream(m, q, host.value) else Done(Machine.HostForbidden)
    else AfterLastDelay(rule.input.timeout, data)
  }

  function AfterChoice(env: Env, m: Mock, q: Request, rule: Rule, data: Object): (p: LivePhase)
    ensures PhaseView(p) == Machine.AfterChoice(env, m, q, rule, data)
    ensures !p.Accepted? && !p.Identifying? && !p.Upstream? && !p.Matching?
  {
    if HasDelay(m.timeout) then RuleDelay(m, q, rule, data) else AfterRule(env, m, q, rule, data)
  }

  /** The first matching rule has been found: reserve from its cursor, unless it is proxied. */
  method ServeRule(app: MockApp, h: Closure, q: Request, item: Item) returns (next: LivePhase)
    requires app.Valid() && KnownHandler(app.cursorHeap, app.storeHeap, h)
    modifies app.cursorHeap
    ensures app.Valid() && KnownIn(app, next)
    ensures (app.View(), PhaseView(next)) == Machine.ServeRule(app.env, old(app.View()), HandlerView(h), q, item)
  {
    var key := OfRule(item.index);
    if HasHost(item.rule.input.proxyHost) || key !in h.sequences {
      return AfterChoice(app.env, h.mock, q, item.rule, item.rule.output);
    }
    var taken := app.TakeFrom(h.sequences[key]);
    match taken
    case Exhausted => return Done(Machine.SequenceExhausted);
    case Response(data) => return AfterChoice(app.env, h.mock, q, item.rule, data);
  }

  /** After the record/replay branch: proxy, match rules, or serve the default. */
  method Dispatch(app: MockApp, h: Closure, q: Request, ticket: Option<LiveTicket>) returns (next: LivePhase)
    requires app.Valid() && KnownIn(app, Upstream(h, q, ticket))
    modifies app.cursorHeap
    ensures app.Valid() && KnownIn(app, next)
    ensures (app.View(), PhaseView(next)) == Machine.Dispatch(
              app.env, old(app.View()), HandlerView(h), q, if ticket.Some? then Some(TicketView(ticket.value)) else None)
  {
    if HasHost(h.mock.proxyHost) {
      return if app.env.hostAllowed(h.mock.proxyHost.value) then Upstream(h, q, ticket) else Done(Machine.HostForbidden);
    }
    if RulesOf(h.mock) != [] {
      return Matching(h, q);
    }
    next := ServeDefault(app, h);
  }

  /** The body has arrived: replay, or go on to record. */
  method Identified(app: MockApp, h: Closure, q: Request, store: RecordingStore, revision: nat) returns (next: LivePhase)
    requires app.Valid() && KnownIn(app, Identifying(h, q, store, revision))
    modifies app.cursorHeap
    ensures app.Valid() && KnownIn(app, next)
    ensures (app.View(), PhaseView(next))
            == Machine.Identified(app.env, old(app.View()), HandlerView(h), q, store.id, revision)
  {
    assert store.View() == app.View().stores[store.id];
    var key, data := store.FinishIdentify(app.env.codec, q);
    if h.mock.recording.Some? && h.mock.recording.value.mode.Replay? {
      var entry := store.ReadOne(key);
      if entry.None? {
        return Done(Machine.RecordingNotFound);
      }
      if Base64.Decode(entry.value.response.bodyB64).None? {
        return Done(Machine.BadGateway);
      }
      return Done(Machine.Replayed(ReplayedResponse(entry.value.response, q.verb)));
    }
    next := Dispatch(app, h, q, Some(LiveTicket(store, key, data, revision)));
  }

  /** The upstream has answered: save the exchange, and pass the reply on. */
  method Answered(app: MockApp, q: Request, t: LiveTicket, reply: Reply) returns (next: LivePhase)
    requires app.Valid() && KnownStore(app.storeHeap, t.store) && t.key == app.env.codec.hash(t.data)
    modifies app.storeHeap
    ensures app.Valid() && KnownIn(app, next)
    ensures (app.View(), PhaseView(next)) == Machine.Recorded(app.env, old(app.View()), q, TicketView(t), reply)
  {
    assert t.store.View() == app.View().stores[t.store.id];
    var outcome := app.SaveInto(t.store, t.key, t.data, reply, t.revision);
    return Done(Machine.Live(LiveResponse(q.verb, reply, Machine.OutcomeText(outcome))));
  }

  /** Traffic has been recorded: check the method, then start identifying or dispatch. */
  method Begin(app: MockApp, h: Closure, q: Request) returns (next: LivePhase)
    requires app.Valid() && KnownIn(app, Accepted(h, q))
    modifies app.cursorHeap
    ensures app.Valid() && KnownIn(app, next)
    ensures (app.View(), PhaseView(next))
            == Machine.Advance(app.env, old(app.View()), PhaseView(Accepted(h, q)), Machine.Continue)
  {
    if !MethodAllowed(h.mock.methods, q.verb) {
      return Done(Machine.MethodNotAllowed);
    }
    if h.recordings.Some? {
      var store := h.recordings.value;
      var revision := store.BeginIdentify();
      return Identifying(h, q, store, revision);
    }
    next := Dispatch(app, h, q, None);
  }

  /** The body has arrived: serve the first matching rule, or fall through to the default. */
  method ApplyRules(app: MockApp, h: Closure, q: Request) returns (next: LivePhase)
    requires app.Valid() && KnownIn(app, Matching(h, q))
    modifies app.cursorHeap
    ensures app.Valid() && KnownIn(app, next)
    ensures (app.View(), PhaseView(next))
            == Machine.Advance(app.env, old(app.View()), PhaseView(Matching(h, q)), Machine.Continue)
  {
    var item := FindRule(RulesOf(h.mock), q);
    if item.Some? {
      next := ServeRule(app, h, q, item.value);
    } else {
      next := ServeDefault(app, h);
    }
  }

  /** Resume a request: it runs until it is suspended again. */
  method Resume(app: MockApp, p: LivePhase, input: Machine.Input) returns (next: LivePhase)
    requires app.Valid() && KnownIn(app, p)
    modifies app.storeHeap, app.cursorHeap
    ensures app.Valid() && KnownIn(app, next)
    ensures (app.View(), PhaseView(next)) == Machine.Advance(app.env, old(app.View()), PhaseView(p), input)
  {
    match (p, input) {
      case (Accepted(h, q), Continue) =>
        next := Begin(app, h, q);
      case (Identifying(h, q, store, revision), Continue) =>
        next := Identified(app, h, q, store, revision);
      case (Upstream(_, q, ticket), Answered(reply)) =>
        if ticket.None? {
          return Done(Machine.Proxied(reply));
        }
        next := Answered(app, q, ticket.value, reply);
      case (Upstream(_, _, _), Unreachable) =>
        return Done(Machine.BadGateway);
      case (Matching(h, q), Continue) =>
        next := ApplyRules(app, h, q);
      case (RuleDelay(m, q, rule, data), Continue) =>
        return AfterRule(app.env, m, q, rule, data);
      case (RuleUpstream(_, _, _), Answered(reply)) =>
        return Done(Machine.Proxied(reply));
      case (RuleUpstream(_, _, _), Unreachable) =>
        return Done(Machine.BadGateway);
      case (Delay(data), Continue) =>
        return Done(Machine.Served(data));
      case _ =>
        return p;
    }
  }
}
