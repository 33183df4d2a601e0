/**
 * Late-write safety over whole runs. Stores and cursors are only ever added; a store never changes
 * its configuration, its revision never falls, and retirement is permanent. So a save whose
 * identification preceded a deletion or a retirement is superseded, whatever ran in between.
 */
module LateWrites {
  import opened Wrappers
  import opened Json
  import opened Paths
  import opened Recordings
  import opened Store
  import opened Mocks
  import opened Sequences
  import opened Rules
  import opened Lifecycle
  import opened LifecycleProofs
  import opened Admin
  import opened AdminEffects
  import opened Snapshot
  import opened SnapshotProofs
  import opened Machine

  // ---------------------------------------------------------------- the heap only grows

  predicate LaterStore(s: StoreState, t: StoreState) {
    t.config == s.config && s.revision <= t.revision && (t.active ==> s.active)
  }

  /** `b` is a later heap than `a`. */
  predicate Later(a: App, b: App) {
    && |a.stores| <= |b.stores| && |a.cursors| <= |b.cursors|
    && (forall i :: 0 <= i < |a.stores| ==> LaterStore(a.stores[i], b.stores[i]))
    && (forall i :: 0 <= i < |a.cursors| ==> b.cursors[i].sequence == a.cursors[i].sequence)
  }

  lemma LaterTransitive(a: App, b: App, c: App)
    requires Later(a, b) && Later(b, c)
    ensures Later(a, c)
  {
  }

  lemma RemoveLater(a: App, path: RootedPath)
    ensures Later(a, RemoveRuntime(a, path))
  {
  }

  lemma GenerationLater(
    env: Env, a: App, m: Mock, preserve: set<Key>, keepRecordings: bool, imported: Option<seq<Entry>>)
    ensures Later(a, Generation(env, a, m, preserve, keepRecordings, imported))
  {
    GenerationHeap(env, a, m, preserve, keepRecordings, imported);
  }

  lemma MockInitLater(
    env: Env, a: App, m: Mock, preserve: set<Key>, keepRecordings: bool, imported: Option<seq<Entry>>)
    ensures var r := MockInit(env, a, m, preserve, keepRecordings, imported); r.Some? ==> Later(a, r.value)
  {
    MockInitLands(env, a, m, preserve, keepRecordings, imported);
    GenerationLater(env, a, m.(path := Lands(m.path)), preserve, keepRecordings, imported);
  }

  lemma {:induction false} RemoveAllLater(a: App, mocks: seq<Mock>)
    ensures Later(a, RemoveAll(a, mocks))
    decreases |mocks|
  {
    if mocks != [] {
      RemoveLater(a, mocks[0].path);
      RemoveAllLater(RemoveRuntime(a, mocks[0].path), mocks[1..]);
    }
  }

  lemma {:induction false} InstallAllLater(env: Env, a: App, parsed: seq<Parsed>)
    ensures Later(a, InstallAll(env, a, parsed))
    decreases |parsed|
  {
    if parsed != [] {
      var b := Next(env, a, parsed[0]);
      GenerationLater(env, a, parsed[0].mock, {}, false, parsed[0].entries);
      InstallAllLater(env, b, parsed[1..]);
      LaterTransitive(a, b, InstallAll(env, a, parsed));
    }
  }

  lemma PutLater(env: Env, a: App, raw: string, body: Object)
    ensures Later(a, PutMock(env, a, raw, body).0)
  {
    var identity := Normalize(raw);
    if identity.Some? && env.schema(WithPath(body, identity.value)).Some? {
      var m := env.schema(WithPath(body, identity.value)).value;
      MockInitLater(env, a, m.(path := Addressed(raw)), {}, false, None);
    }
  }

  lemma DeleteLater(a: App, raw: string)
    ensures Later(a, DeleteMock(a, raw).0)
  {
    var identity := Normalize(raw);
    if identity.Some? {
      RemoveLater(a.(storage := RemoveMock(a.storage, Renormalize(identity.value))), identity.value);
    }
  }

  lemma ImportLater(env: Env, a: App, doc: Document, replace: bool)
    ensures Later(a, Import(env, a, doc, replace).0)
  {
    ImportInstalls(env, a, doc, replace);
    RemoveAllLater(a, a.storage);
    InstallAllLater(env, StartOf(a, replace), Installed(env, doc));
    LaterTransitive(a, StartOf(a, replace), InstallAll(env, StartOf(a, replace), Installed(env, doc)));
  }

  lemma AdminLater(env: Env, a: App, l: Label)
    ensures Later(a, AdminStep(env, a, l))
  {
    match l
    case Put(raw, body) => PutLater(env, a, raw, body);
    case Patch(raw, c) => PatchLater(env, a, raw, c);
    case Delete(raw) => DeleteLater(a, raw);
    case Clear => RemoveAllLater(a, a.storage);
    case ImportSnapshot(doc, replace) => ImportLater(env, a, doc, replace);
    case _ =>
  }

  lemma PatchLater(env: Env, a: App, raw: string, changes: Object)
    ensures Later(a, PatchMock(env, a, raw, changes).0)
  {
    var status := PatchMock(env, a, raw, changes).1;
    if !status.Invalid? && !status.NotFound? {
      PatchInstalls(env, a, raw, changes);
      var saved, mock := MockAt(a.storage, Addressed(raw)).value, Patched(env, a, raw, changes);
      MockInitLater(env, a, mock, PreservedKeys(changes, mock), KeepsRecordings(saved, mock), None);
    }
  }

  lemma ReserveLater(a: App, id: nat)
    requires id < |a.cursors|
    ensures Later(a, Reserve(a, id))
  {
  }

  lemma SaveLater(a: App, id: nat, slot: Slot, revision: nat)
    requires id < |a.stores|
    ensures Later(a, a.(stores := a.stores[id := Saved(a.stores[id], slot, revision)]))
  {
  }

  /** A step of a request saves into one store, or reserves from one cursor, or changes nothing. */
  lemma AdvanceLater(env: Env, a: App, p: Phase, input: Input)
    ensures Later(a, Advance(env, a, p, input).0)
  {
    var b := Advance(env, a, p, input).0;
    if p.Upstream? && input.Answered? && p.ticket.Some? && p.ticket.value.store < |a.stores| {
      var t := p.ticket.value;
      var e := EntryOf(env.codec.hash, t.data, input.reply);
      SaveLater(a, t.store, Slot(e, env.codec.size(e)), t.revision);
    } else if b != a {
      var id := AdvanceReserves(env, a, p, input);
      ReserveLater(a, id);
    }
  }

  lemma AdvanceReserves(env: Env, a: App, p: Phase, input: Input) returns (id: nat)
    requires !(p.Upstream? && input.Answered? && p.ticket.Some? && p.ticket.value.store < |a.stores|)
    requires Advance(env, a, p, input).0 != a
    ensures id < |a.cursors| && Advance(env, a, p, input).0 == Reserve(a, id)
  {
    var h := p.handler;
    var item := Select(RulesOf(h.mock), p.request);
    if p.Matching? && item.Some? {
      id := CursorOf(a, h, OfRule(item.value.index)).value;
    } else {
      id := CursorOf(a, h, Default).value;
    }
  }

  lemma StepLater(env: Env, s: System, l: Label)
    ensures Later(s.app, Step(env, s, l).app)
  {
    match l
    case Arrive(_, _, _) =>
    case Resume(r, input) =>
      if r in s.requests {
        AdvanceLater(env, s.app, s.requests[r], input);
      }
    case Cancel(_) =>
    case _ => AdminLater(env, s.app, l);
  }

  // ---------------------------------------------------------------- runs

  lemma AtNext(env: Env, s: System, labels: seq<Label>, m: nat)
    requires m < |labels|
    ensures At(env, s, labels, m + 1) == Step(env, At(env, s, labels, m), labels[m])
  {
    assert labels[..m + 1][..m] == labels[..m];
  }

  lemma AtEnd(env: Env, s: System, labels: seq<Label>)
    ensures At(env, s, labels, |labels|) == Run(env, s, labels)
  {
    assert labels[..|labels|] == labels;
  }

  lemma NextLater(env: Env, s: System, labels: seq<Label>, j: nat)
    requires j < |labels|
    ensures Later(At(env, s, labels, j).app, At(env, s, labels, j + 1).app)
  {
    AtNext(env, s, labels, j);
    StepLater(env, At(env, s, labels, j), labels[j]);
  }

  lemma {:induction false} RunLater(env: Env, s: System, labels: seq<Label>, i: nat, j: nat)
    requires i <= j <= |labels|
    ensures Later(At(env, s, labels, i).app, At(env, s, labels, j).app)
  {
    if i < j {
      RunLater(env, s, labels, i, j - 1);
      NextLater(env, s, labels, j - 1);
      LaterTransitive(At(env, s, labels, i).app, At(env, s, labels, j - 1).app, At(env, s, labels, j).app);
    }
  }

  // ---------------------------------------------------------------- tickets

  /** The store and revision that a request has captured but not used yet. */
  datatype Capture = Capture(store: nat, revision: nat)

  function CaptureOf(p: Phase): Option<Capture> {
    match p
    case Identifying(_, _, store, revision) => Some(Capture(store, revision))
    case Upstream(_, _, Some(t)) => Some(Capture(t.store, t.revision))
    case _ => None
  }

  /** A captured revision is one the store has had, and a ticket identifies its own request. */
  predicate PhaseOk(env: Env, a: App, p: Phase) {
    match p
    case Identifying(_, _, store, revision) => store < |a.stores| && revision <= a.stores[store].revision
    case Upstream(_, q, Some(t)) =>
      && t.store < |a.stores| && t.revision <= a.stores[t.store].revision
      && t.data == Identity(a.stores[t.store].config, q) && t.key == env.codec.hash(t.data)
    case _ => true
  }

  predicate TicketsOk(env: Env, s: System) {
    forall r :: r in s.requests ==> PhaseOk(env, s.app, s.requests[r])
  }

  lemma PhaseOkLater(env: Env, a: App, b: App, p: Phase)
    requires PhaseOk(env, a, p) && Later(a, b)
    ensures PhaseOk(env, b, p)
  {
  }

  lemma AdvancePhaseOk(env: Env, a: App, p: Phase, input: Input)
    requires PhaseOk(env, a, p)
    ensures PhaseOk(env, Advance(env, a, p, input).0, Advance(env, a, p, input).1)
    ensures var c := CaptureOf(p);
            c.Some? ==> CaptureOf(Advance(env, a, p, input).1) in {None, c}
  {
    AdvanceLater(env, a, p, input);
  }

  lemma StepTicketsOk(env: Env, s: System, l: Label)
    requires TicketsOk(env, s)
    ensures TicketsOk(env, Step(env, s, l))
  {
    var t := Step(env, s, l);
    StepLater(env, s, l);
    forall r | r in t.requests
      ensures PhaseOk(env, t.app, t.requests[r])
    {
      if r in s.requests {
        PhaseOkLater(env, s.app, t.app, s.requests[r]);
        if l.Resume? && l.id == r {
          AdvancePhaseOk(env, s.app, s.requests[r], l.input);
        }
      }
    }
  }

  lemma {:induction false} RunTicketsOk(env: Env, s: System, labels: seq<Label>)
    requires TicketsOk(env, s)
    ensures TicketsOk(env, Run(env, s, labels))
  {
    if labels != [] {
      RunTicketsOk(env, s, labels[..|labels| - 1]);
      StepTicketsOk(env, Run(env, s, labels[..|labels| - 1]), labels[|labels| - 1]);
    }
  }

  /** A request keeps what it has captured until it uses it or ends. */
  lemma StepKeepsCapture(env: Env, s: System, l: Label, r: nat)
    requires TicketsOk(env, s) && r in s.requests
    ensures r in Step(env, s, l).requests
    ensures CaptureOf(s.requests[r]).Some? ==>
              CaptureOf(Step(env, s, l).requests[r]) in {None, CaptureOf(s.requests[r])}
    ensures !CanIdentify(s.requests[r]) && CaptureOf(s.requests[r]).None? ==> CaptureOf(Step(env, s, l).requests[r]).None?
    ensures !CanIdentify(s.requests[r]) ==> !CanIdentify(Step(env, s, l).requests[r])
  {
    if l.Resume? && l.id == r {
      AdvancePhaseOk(env, s.app, s.requests[r], l.input);
      if !CanIdentify(s.requests[r]) {
        AdvanceNeverReturns(env, s.app, s.requests[r], l.input);
      }
    }
  }

  /** Once past its identification a request never comes back to it. */
  lemma AdvanceNeverReturns(env: Env, a: App, p: Phase, input: Input)
    requires !CanIdentify(p)
    ensures !CanIdentify(Advance(env, a, p, input).1)
    ensures CaptureOf(p).None? ==> CaptureOf(Advance(env, a, p, input).1).None?
  {
  }

  /** Only a request that has just been accepted still has its identification before it. */
  predicate CanIdentify(p: Phase) {
    p.Accepted?
  }

  lemma {:induction false} RunKeepsCapture(env: Env, s: System, labels: seq<Label>, r: nat)
    requires TicketsOk(env, s) && r in s.requests && CaptureOf(s.requests[r]).Some?
    ensures var t := Run(env, s, labels);
            r in t.requests && !CanIdentify(t.requests[r]) && CaptureOf(t.requests[r]) in {None, CaptureOf(s.requests[r])}
  {
    if labels != [] {
      var before := labels[..|labels| - 1];
      RunKeepsCapture(env, s, before, r);
      RunTicketsOk(env, s, before);
      StepKeepsCapture(env, Run(env, s, before), labels[|labels| - 1], r);
    }
  }

  /** A step after which no earlier identification on a store may save: a deletion or retirement. */
  predicate Invalidates(env: Env, s: System, l: Label, store: nat) {
    var t := Step(env, s, l);
    && store < |s.app.stores| && store < |t.app.stores|
    && (t.app.stores[store].revision > s.app.stores[store].revision || !t.app.stores[store].active)
  }

  /**
   * Late-write safety. Take any state in which a request has captured a revision and any run after
   * it, with a step in which that store loses an entry to a deletion or is retired. If at the end
   * the request is still waiting for its upstream, the late reply reaches the caller marked
   * "superseded" and leaves the whole application as it is.
   */
  lemma LateWriteIsSuperseded(env: Env, s: System, labels: seq<Label>, r: nat, m: nat, reply: Reply)
    requires TicketsOk(env, s) && r in s.requests && CaptureOf(s.requests[r]).Some?
    requires m < |labels| && Invalidates(env, At(env, s, labels, m), labels[m], CaptureOf(s.requests[r]).value.store)
    requires var t := Run(env, s, labels);
             r in t.requests && t.requests[r].Upstream? && t.requests[r].ticket.Some?
    ensures var t := Run(env, s, labels);
            var next := Step(env, t, Resume(r, Answered(reply)));
            && next.app == t.app
            && next.requests[r] == Done(Live(LiveResponse(t.requests[r].request.verb, reply, "superseded")))
  {
    var t := Run(env, s, labels);
    var c := CaptureOf(s.requests[r]).value;
    RunKeepsCapture(env, s, labels, r);
    RunTicketsOk(env, s, labels);
    assert labels[..0] == [];
    RunLater(env, s, labels, 0, m);
    AtNext(env, s, labels, m);
    RunLater(env, s, labels, m + 1, |labels|);
    AtEnd(env, s, labels);
    StaleTicket(env, t, r, reply, c);
  }

  lemma StaleTicket(env: Env, t: System, r: nat, reply: Reply, c: Capture)
    requires r in t.requests && t.requests[r].Upstream? && CaptureOf(t.requests[r]) == Some(c)
    requires c.store < |t.app.stores|
    requires c.revision < t.app.stores[c.store].revision || !t.app.stores[c.store].active
    ensures var next := Step(env, t, Resume(r, Answered(reply)));
            && next.app == t.app
            && next.requests[r] == Done(Live(LiveResponse(t.requests[r].request.verb, reply, "superseded")))
  {
    var s := t.app.stores[c.store];
    assert t.app.stores[c.store := s] == t.app.stores;
  }

  // ---------------------------------------------------------------- what invalidates

  /** A step of the run invalidates what the store has given out before it. */
  predicate CutOff(env: Env, s: System, labels: seq<Label>, store: nat) {
    exists m :: 0 <= m < |labels| && Invalidates(env, At(env, s, labels, m), labels[m], store)
  }

  lemma StoreAtSteps(env: Env, s: System, labels: seq<Label>, m: nat, store: nat)
    requires store < |s.app.stores| && m < |labels|
    ensures store < |At(env, s, labels, m).app.stores| && store < |At(env, s, labels, m + 1).app.stores|
    ensures LaterStore(At(env, s, labels, m).app.stores[store], At(env, s, labels, m + 1).app.stores[store])
    ensures At(env, s, labels, m + 1) == Step(env, At(env, s, labels, m), labels[m])
  {
    assert labels[..0] == [];
    RunLater(env, s, labels, 0, m);
    NextLater(env, s, labels, m);
    AtNext(env, s, labels, m);
  }

  lemma {:induction false} UndisturbedStays(env: Env, s: System, labels: seq<Label>, n: nat, store: nat)
    requires n <= |labels| && store < |s.app.stores| && s.app.stores[store].active
    requires !CutOff(env, s, labels, store)
    ensures store < |At(env, s, labels, n).app.stores|
    ensures var t := At(env, s, labels, n).app.stores[store];
            t.active && t.revision == s.app.stores[store].revision && t.config == s.app.stores[store].config
  {
    if n == 0 {
      assert labels[..0] == [];
    } else {
      UndisturbedStays(env, s, labels, n - 1, store);
      StoreAtSteps(env, s, labels, n - 1, store);
      assert !Invalidates(env, At(env, s, labels, n - 1), labels[n - 1], store);
    }
  }

  /** What the caller is told about the recording of a reply. */
  predicate Told(env: Env, t: System, r: nat, reply: Reply, text: string) {
    var next := Step(env, t, Resume(r, Answered(reply)));
    && r in t.requests && t.requests[r].Upstream? && r in next.requests
    && next.requests[r] == Done(Live(LiveResponse(t.requests[r].request.verb, reply, text)))
  }

  /** The size a recorded reply is charged for. */
  function SizeOf(env: Env, t: Ticket, reply: Reply): nat {
    env.codec.size(EntryOf(env.codec.hash, t.data, reply))
  }

  lemma ToldByTicket(env: Env, t: System, r: nat, reply: Reply)
    requires r in t.requests && t.requests[r].Upstream? && t.requests[r].ticket.Some?
    requires t.requests[r].ticket.value.store < |t.app.stores|
    ensures var k := t.requests[r].ticket.value;
            var s := t.app.stores[k.store];
            Told(env, t, r, reply,
                 if !s.active || k.revision != s.revision then "superseded"
                 else if SizeOf(env, k, reply) > s.config.maxBytes then "too_large"
                 else "stored")
  {
  }

  /** A store has lost its activity or its revision exactly if it was retired before or a step has cut it off. */
  lemma CutOffIff(env: Env, s: System, labels: seq<Label>, after: App, store: nat)
    requires TicketsOk(env, s) && store < |s.app.stores| && after == Run(env, s, labels).app
    ensures store < |after.stores|
    ensures after.stores[store].config == s.app.stores[store].config
    ensures !s.app.stores[store].active || CutOff(env, s, labels, store) <==>
            !after.stores[store].active || after.stores[store].revision != s.app.stores[store].revision
  {
    AtEnd(env, s, labels);
    assert labels[..0] == [];
    RunLater(env, s, labels, 0, |labels|);
    if s.app.stores[store].active {
      if CutOff(env, s, labels, store) {
        var m :| 0 <= m < |labels| && Invalidates(env, At(env, s, labels, m), labels[m], store);
        AtNext(env, s, labels, m);
        RunLater(env, s, labels, 0, m);
        RunLater(env, s, labels, m + 1, |labels|);
      } else {
        UndisturbedStays(env, s, labels, |labels|, store);
      }
    }
  }

  /**
   * What becomes of a recording, in every interleaving. Take the state in which a request has just
   * captured the revision of its store, and any run after it. The upstream reply is then answered as
   * superseded exactly if the store was retired already or a step in between has deleted from it or
   * retired it, as too large exactly if its entry alone exceeds the limit, and as stored otherwise.
   */
  lemma OutcomeIff(env: Env, s: System, labels: seq<Label>, t: System, r: nat, c: Capture, reply: Reply)
    requires TicketsOk(env, s) && r in s.requests && CaptureOf(s.requests[r]) == Some(c)
    requires c.store < |s.app.stores| && c.revision == s.app.stores[c.store].revision
    requires t == Run(env, s, labels) && r in t.requests && t.requests[r].Upstream? && t.requests[r].ticket.Some?
    ensures Told(env, t, r, reply,
                 if !s.app.stores[c.store].active || CutOff(env, s, labels, c.store) then "superseded"
                 else if SizeOf(env, t.requests[r].ticket.value, reply) > s.app.stores[c.store].config.maxBytes then "too_large"
                 else "stored")
  {
    RunKeepsCapture(env, s, labels, r);
    CutOffIff(env, s, labels, t.app, c.store);
    ToldByTicket(env, t, r, reply);
  }

  /** A successful deletion of recordings. */
  lemma DeletionInvalidates(env: Env, s: System, raw: string, key: Option<string>)
    requires DeleteRecordings(s.app, raw, key).1.Success?
    ensures Invalidates(env, s, DeleteRecording(raw, key), s.app.recordings[Normalize(raw).value])
  {
  }

  predicate RetiredBetween(a: App, b: App, store: nat) {
    store < |a.stores| <= |b.stores| && !b.stores[store].active
  }

  lemma OwnedStore(env: Env, a: App, p: string)
    requires AppOk(env, a) && p in a.recordings
    ensures a.recordings[p] < |a.stores|
  {
    assert Agrees(a, p);
  }

  lemma PutRetires(env: Env, a: App, raw: string, body: Object, path: string)
    requires PutSucceeds(env, raw, body) && path == Renormalize(Landing(raw))
    requires path in a.recordings && a.recordings[path] < |a.stores|
    ensures RetiredBetween(a, PutMock(env, a, raw, body).0, a.recordings[path])
  {
    PutInstalls(env, a, raw, body);
    var m := Submitted(env, raw, body).(path := Addressed(raw));
    MockInitLands(env, a, m, {}, false, None);
    GenerationHeap(env, a, m.(path := Lands(m.path)), {}, false, None);
  }

  lemma PatchRetires(env: Env, a: App, raw: string, changes: Object)
    requires AppOk(env, a) && SoundSchema(env.schema) && PatchMock(env, a, raw, changes).1.Success?
    requires Normalize(raw).Some? && Addressed(raw) in a.recordings
    ensures RetiredBetween(a, PatchMock(env, a, raw, changes).0, a.recordings[Addressed(raw)])
  {
    OwnedStore(env, a, Addressed(raw));
    PatchEffect(env, a, raw, changes);
    SettledFacts(Addressed(raw));
    var saved, m := MockAt(a.storage, Addressed(raw)).value, Patched(env, a, raw, changes);
    GenerationHeap(env, a, m, PreservedKeys(changes, m), KeepsRecordings(saved, m), None);
  }

  lemma DeleteRetires(env: Env, a: App, raw: string)
    requires AppOk(env, a) && DeleteMock(a, raw).1.Success?
    requires Normalize(raw).Some? && Addressed(raw) in a.recordings
    ensures RetiredBetween(a, DeleteMock(a, raw).0, a.recordings[Addressed(raw)])
  {
    DeleteEffect(env, a, raw);
    OwnedStore(env, a, Addressed(raw));
    RemovalRetires(a, Addressed(raw));
  }

  lemma RemovalRetires(a: App, p: RootedPath)
    requires var path: string := p; path in a.recordings && a.recordings[path] < |a.stores| && Settled(path)
    ensures var path: string := p; RetiredBetween(a, RemoveRuntime(a, p), a.recordings[path])
  {
    RemoveFrame(a, p);
  }

  lemma ClearRetires(env: Env, a: App, store: nat)
    requires AppOk(env, a) && store < |a.stores|
    ensures RetiredBetween(a, Cleanup(a), store)
  {
    CleanupOk(env, a);
    RemoveAllLater(a, a.storage);
  }

  /** One of the mocks is filed under the path. */
  predicate FiledAt(parsed: seq<Parsed>, path: string) {
    exists p :: p in parsed && Renormalize(p.mock.path) == path
  }

  lemma ImportRetires(env: Env, a: App, doc: Document, replace: bool, path: string)
    requires AppOk(env, a) && path in a.recordings && Validated(env, doc).Some?
    requires replace || FiledAt(Installed(env, doc), path)
    ensures RetiredBetween(a, Import(env, a, doc, replace).0, a.recordings[path])
  {
    ImportInstalls(env, a, doc, replace);
    OwnedStore(env, a, path);
    if replace {
      ClearRetires(env, a, a.recordings[path]);
      InstallAllLater(env, Cleanup(a), Installed(env, doc));
    } else {
      OwnersSettle(env, a, path);
      MergeRetires(env, a, Installed(env, doc), path);
    }
  }

  /** The label updates the mock at a path, and succeeds; an import counts even if it breaks later. */
  predicate Updates(env: Env, a: App, l: Label, path: string) {
    match l
    case Put(raw, body) =>
      PutSucceeds(env, raw, body) && Renormalize(Landing(raw)) == path
    case Patch(raw, c) => Normalize(raw).Some? && Addressed(raw) == path && PatchMock(env, a, raw, c).1.Success?
    case Delete(raw) => Normalize(raw).Some? && Addressed(raw) == path && DeleteMock(a, raw).1.Success?
    case Clear => true
    case ImportSnapshot(doc, replace) =>
      Validated(env, doc).Some? && (replace || FiledAt(Installed(env, doc), path))
    case _ => false
  }

  lemma UpdateRetires(env: Env, a: App, l: Label, path: string)
    requires AppOk(env, a) && SoundSchema(env.schema) && path in a.recordings && Updates(env, a, l, path)
    ensures RetiredBetween(a, AdminStep(env, a, l), a.recordings[path])
  {
    if l.Put? {
      OwnedStore(env, a, path);
      PutRetires(env, a, l.raw, l.body, path);
    } else if l.Patch? {
      PatchRetires(env, a, l.raw, l.changes);
    } else if l.Delete? {
      DeleteRetires(env, a, l.raw);
    } else if l.Clear? {
      OwnedStore(env, a, path);
      ClearRetires(env, a, a.recordings[path]);
    } else {
      ImportRetires(env, a, l.doc, l.replace, path);
    }
  }

  /** Every successful update of a recording mock, however it is made, invalidates what its store gave out. */
  lemma UpdateInvalidates(env: Env, s: System, l: Label, path: string)
    requires AppOk(env, s.app) && SoundSchema(env.schema) && path in s.app.recordings
    requires IsAdmin(l) && Updates(env, s.app, l, path)
    ensures Invalidates(env, s, l, s.app.recordings[path])
  {
    UpdateRetires(env, s.app, l, path);
    AdminOnly(env, s, l);
  }

  lemma AdminOnly(env: Env, s: System, l: Label)
    requires IsAdmin(l)
    ensures Step(env, s, l) == s.(app := AdminStep(env, s.app, l))
  {
  }

  /** One imported mock retires its own store and leaves the other mocks theirs. */
  lemma NextRetires(env: Env, a: App, p: Parsed, path: string)
    requires Settled(path) && path in a.recordings && a.recordings[path] < |a.stores|
    ensures var c := Next(env, a, p);
            && |a.stores| <= |c.stores|
            && if Renormalize(p.mock.path) == path then !c.stores[a.recordings[path]].active
               else path in c.recordings && c.recordings[path] == a.recordings[path]
  {
    GenerationHeap(env, a, p.mock, {}, false, p.entries);
    if Renormalize(p.mock.path) != path {
      LandsElsewhere(p.mock, path);
      GenerationMaps(env, a, p.mock, {}, false, p.entries, path);
    }
  }

  lemma {:induction false} MergeRetires(env: Env, a: App, parsed: seq<Parsed>, path: string)
    requires Settled(path) && path in a.recordings && a.recordings[path] < |a.stores| && FiledAt(parsed, path)
    ensures RetiredBetween(a, InstallAll(env, a, parsed), a.recordings[path])
    decreases |parsed|
  {
    var first, rest := parsed[0], parsed[1..];
    var c := Next(env, a, first);
    NextRetires(env, a, first, path);
    if Renormalize(first.mock.path) == path {
      InstallAllLater(env, c, rest);
    } else {
      assert parsed == [first] + rest;
      MergeRetires(env, c, rest, path);
    }
  }
}
