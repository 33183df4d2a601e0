/**
 * The invariant of every reachable state, and what follows for snapshots: under well-formed
 * traffic everything a server has recorded can be exported and imported again.
 */
module Reachable {
  import opened Wrappers
  import opened Json
  import opened Paths
  import opened Recordings
  import opened Store
  import opened Mocks
  import opened Sequences
  import opened Lifecycle
  import opened LifecycleProofs
  import opened Admin
  import opened AdminEffects
  import opened Snapshot
  import opened SnapshotProofs
  import opened RoundTrip
  import opened Machine
  import opened LateWrites
  import opened CursorRuns

  /**
   * New configurations land on settled paths that may be mocked; all other operations and requests
   * are unrestricted.
   */
  predicate GoodLabel(env: Env, l: Label) {
    match l
    case Put(raw, body) => GoodPut(env, raw, body)
    case ImportSnapshot(doc, _) => GoodDocument(env, doc)
    case _ => true
  }

  /** The four structures agree, and every suspended request holds a sound ticket. */
  predicate SystemOk(env: Env, s: System) {
    AppOk(env, s.app) && TicketsOk(env, s)
  }

  lemma InitialOk(env: Env)
    ensures SystemOk(env, INITIAL)
  {
  }

  /** Saving under a sound ticket keeps a store well. */
  lemma SavedWell(codec: Codec, s: StoreState, q: Request, reply: Reply, revision: nat)
    requires StoreWell(codec, s)
    ensures var e := EntryOf(codec.hash, Identity(s.config, q), reply);
            StoreWell(codec, Saved(s, Slot(e, codec.size(e)), revision))
  {
    var e := EntryOf(codec.hash, Identity(s.config, q), reply);
    var slot := Slot(e, codec.size(e));
    SavedOk(s, slot, revision);
    NewSlotOk(codec, s.config, q, reply);
    SavedSlots(s, slot, revision);
  }

  lemma NewSlotOk(codec: Codec, config: Config, q: Request, reply: Reply)
    ensures var e := EntryOf(codec.hash, Identity(config, q), reply); SlotOk(codec, config, Slot(e, codec.size(e)))
  {
    EmptyBody(reply.content);
    RequestPart(config, q);
  }

  /** What a save leaves in the store was there before, or is the saved entry. */
  lemma SavedSlots(s: StoreState, slot: Slot, revision: nat)
    ensures forall x :: x in Saved(s, slot, revision).slots ==> x in s.slots || x == slot
  {
    WithoutShape(s.slots, slot.entry.id);
    var all := Without(s.slots, slot.entry.id) + [slot];
    TrimmedIsLongest(all, s.config.maxItems, s.config.maxBytes);
  }

  lemma RequestStepOk(env: Env, a: App, p: Phase, input: Input)
    requires AppOk(env, a) && PhaseOk(env, a, p)
    ensures AppOk(env, Advance(env, a, p, input).0)
  {
    if p.Upstream? && input.Answered? && p.ticket.Some? {
      var t := p.ticket.value;
      SavedWell(env.codec, a.stores[t.store], p.request, input.reply, t.revision);
      var e := EntryOf(env.codec.hash, t.data, input.reply);
      StoreChangeOk(env, a, t.store, Saved(a.stores[t.store], Slot(e, env.codec.size(e)), t.revision));
    } else {
      CursorMoved(env, a, p, input);
    }
  }

  lemma CursorMoved(env: Env, a: App, p: Phase, input: Input)
    requires AppOk(env, a)
    requires !(p.Upstream? && input.Answered? && p.ticket.Some?)
    ensures AppOk(env, Advance(env, a, p, input).0)
  {
    StepChangesOnlyItsCursor(env, a, p, input);
    var id := ReservedBy(a, p, input);
    if id.Some? {
      CursorChangeOk(env, a, id.value, AfterTake(a.cursors[id.value]));
    }
  }

  lemma AdminStepOk(env: Env, a: App, l: Label)
    requires AppOk(env, a) && SoundSchema(env.schema) && GoodLabel(env, l)
    ensures AppOk(env, AdminStep(env, a, l))
  {
    match l
    case Put(raw, body) => PutOk(env, a, raw, body);
    case Patch(raw, c) => PatchOk(env, a, raw, c);
    case Delete(raw) => DeleteOk(env, a, raw);
    case Clear => CleanupOk(env, a);
    case ImportSnapshot(doc, replace) => ImportKeepsAgreementIff(env, a, doc, replace);
    case DeleteRecording(raw, key) => DeleteRecordingsOk(env, a, raw, key);
    case ResetCursor(raw, key) => ResetOk(env, a, raw, key);
    case _ =>
  }

  lemma StepOk(env: Env, s: System, l: Label)
    requires SystemOk(env, s) && SoundSchema(env.schema) && GoodLabel(env, l)
    ensures SystemOk(env, Step(env, s, l))
  {
    StepTicketsOk(env, s, l);
    if IsAdmin(l) {
      AdminStepOk(env, s.app, l);
      AdminOnly(env, s, l);
    } else if l.Resume? && l.id in s.requests {
      RequestStepOk(env, s.app, s.requests[l.id], l.input);
    }
  }

  /** The invariant holds in every reachable state. */
  lemma {:induction false} RunOk(env: Env, s: System, labels: seq<Label>)
    requires SystemOk(env, s) && SoundSchema(env.schema) && forall l :: l in labels ==> GoodLabel(env, l)
    ensures SystemOk(env, Run(env, s, labels))
  {
    if labels != [] {
      var n := |labels| - 1;
      assert labels[n] in labels;
      RunOk(env, s, labels[..n]);
      StepOk(env, Run(env, s, labels[..n]), labels[n]);
    }
  }

  /** A label that is not good breaks the invariant at once. */
  lemma BadLabelBreaks(env: Env, s: System, l: Label)
    requires SystemOk(env, s) && SoundSchema(env.schema) && !GoodLabel(env, l)
    ensures !SystemOk(env, Step(env, s, l))
  {
    AdminOnly(env, s, l);
    match l
    case Put(raw, body) => PutKeepsAgreementIff(env, s.app, raw, body);
    case ImportSnapshot(doc, replace) => ImportKeepsAgreementIff(env, s.app, doc, replace);
  }

  /** The invariant holds all along a run exactly if each of its labels is good. */
  lemma {:induction false} RunOkIff(env: Env, s: System, labels: seq<Label>)
    requires SystemOk(env, s) && SoundSchema(env.schema)
    ensures (forall m :: 0 <= m <= |labels| ==> SystemOk(env, At(env, s, labels, m)))
            <==> forall l :: l in labels ==> GoodLabel(env, l)
  {
    if forall l :: l in labels ==> GoodLabel(env, l) {
      forall m | 0 <= m <= |labels|
        ensures SystemOk(env, At(env, s, labels, m))
      {
        RunOk(env, s, labels[..m]);
      }
    } else {
      var m :| 0 <= m < |labels| && !GoodLabel(env, labels[m]);
      AtNext(env, s, labels, m);
      if SystemOk(env, At(env, s, labels, m)) {
        BadLabelBreaks(env, At(env, s, labels, m), labels[m]);
        assert !SystemOk(env, At(env, s, labels, m + 1));
      }
    }
  }

  /**
   * The agreement of the four structures, spelled out for every state reachable from an empty
   * server: the stored paths are the paths with cursors; the paths with a recording store are
   * those whose configuration records; each stored path has exactly its own routes, answered by
   * its current generation, and no other route exists; a store is active exactly when a mock owns
   * it; and export never misses a store.
   */
  lemma ReachableAgreement(env: Env, labels: seq<Label>, version: string)
    requires SoundSchema(env.schema) && forall l :: l in labels ==> GoodLabel(env, l)
    ensures var a := Run(env, INITIAL, labels).app;
            && a.sequences.Keys == PathsOf(a.storage)
            && (forall p :: p in a.recordings <==> MockAt(a.storage, p).Some? && MockAt(a.storage, p).value.recording.Some?)
            && (forall r :: r in a.routes ==> exists p :: p in PathsOf(a.storage) && RouteOf(a, r, p))
            && (forall p :: p in PathsOf(a.storage) ==> HasRoute(a.routes, p) && (p != "/" ==> HasRoute(a.routes, p + "/")))
            && DistinctRoutes(a.routes)
            && (forall i :: 0 <= i < |a.stores| ==>
                  (a.stores[i].active <==> exists p :: p in a.recordings && a.recordings[p] == i))
            && Export(a, version).Some?
  {
    InitialOk(env);
    RunOk(env, INITIAL, labels);
    AgreementSpelledOut(env, Run(env, INITIAL, labels).app, version);
  }

  /** The route is that of the mock at a path, or its trailing-slash variant, and runs its current generation. */
  predicate RouteOf(a: App, r: Route, p: string) {
    && (r.path == p || (p != "/" && r.path == p + "/"))
    && MockAt(a.storage, p) == Some(r.handler.mock) && p in a.sequences && r.handler.sequences == a.sequences[p]
    && r.handler.recordings == if p in a.recordings then Some(a.recordings[p]) else None
  }

  lemma RoutePathIs(a: App, live: set<string>, r: Route)
    requires RouteAgrees(a, live, r) && Settled(Owner(r.path))
    ensures var p := Owner(r.path); r.path == p || (p != "/" && r.path == p + "/")
  {
    SettledFacts(Owner(r.path));
  }

  lemma OwnerSettles(env: Env, a: App, p: string)
    requires AppOk(env, a) && p in PathsOf(a.storage)
    ensures Settled(p)
  {
    assert Agrees(a, p);
  }

  lemma RouteIsOf(env: Env, a: App, r: Route)
    requires AppOk(env, a) && r in a.routes
    ensures Owner(r.path) in PathsOf(a.storage) && RouteOf(a, r, Owner(r.path))
  {
    assert RouteAgrees(a, PathsOf(a.storage), r);
    OwnerSettles(env, a, Owner(r.path));
    RoutePathIs(a, PathsOf(a.storage), r);
  }

  lemma HasOwnRoutes(env: Env, a: App, p: string)
    requires AppOk(env, a) && p in PathsOf(a.storage)
    ensures HasRoute(a.routes, p) && (p != "/" ==> HasRoute(a.routes, p + "/"))
  {
    assert Agrees(a, p);
    SettledFacts(p);
    assert forall c :: c in Candidates(p) ==> HasRoute(a.routes, c);
  }

  /** Nothing that a good run installs answers under the administrative prefix. */
  lemma NoRouteUnderPrefix(env: Env, labels: seq<Label>, r: Route, rest: string)
    requires SoundSchema(env.schema) && Settled(env.prefix) && env.prefix != "/" && forall l :: l in labels ==> GoodLabel(env, l)
    requires r in Run(env, INITIAL, labels).app.routes
    ensures r.path != env.prefix && r.path != env.prefix + "/" + rest
  {
    InitialOk(env);
    RunOk(env, INITIAL, labels);
    OutsidePrefix(env, Run(env, INITIAL, labels).app, r, rest);
  }

  lemma OutsidePrefix(env: Env, a: App, r: Route, rest: string)
    requires AppOk(env, a) && Settled(env.prefix) && env.prefix != "/" && r in a.routes
    ensures r.path != env.prefix && r.path != env.prefix + "/" + rest
  {
    RouteIsOf(env, a, r);
    var p: string := Owner(r.path);
    MockAtIff(a.storage, p);
    var m := MockAt(a.storage, p).value;
    assert Admissible(env, m.path);
    ValidateIff(env.prefix, env.compiles, p, p);
    SlashesApart(env.prefix, p, rest);
  }

  lemma SlashesApart(prefix: string, p: string, rest: string)
    requires prefix != "" && prefix[|prefix| - 1] != '/' && p != prefix && forall x :: p != prefix + "/" + x
    ensures p + "/" != prefix && p + "/" != prefix + "/" + rest
  {
    var u := prefix + "/" + rest;
    assert (p + "/")[|p|] == '/' && (p + "/")[..|p|] == p;
    assert u[..|u| - 1] == if rest == "" then prefix else prefix + "/" + rest[..|rest| - 1];
  }

  lemma AgreementSpelledOut(env: Env, a: App, version: string)
    requires AppOk(env, a)
    ensures a.sequences.Keys == PathsOf(a.storage)
    ensures forall p :: p in a.recordings <==> MockAt(a.storage, p).Some? && MockAt(a.storage, p).value.recording.Some?
    ensures forall r :: r in a.routes ==> exists p :: p in PathsOf(a.storage) && RouteOf(a, r, p)
    ensures forall p :: p in PathsOf(a.storage) ==> HasRoute(a.routes, p) && (p != "/" ==> HasRoute(a.routes, p + "/"))
    ensures DistinctRoutes(a.routes)
    ensures forall i :: 0 <= i < |a.stores| ==>
              (a.stores[i].active <==> exists p :: p in a.recordings && a.recordings[p] == i)
    ensures Export(a, version).Some?
  {
    ExportNeverFails(env, a, version);
    forall p
      ensures p in a.recordings <==> MockAt(a.storage, p).Some? && MockAt(a.storage, p).value.recording.Some?
    {
      MockAtIff(a.storage, p);
      if p in PathsOf(a.storage) {
        assert Agrees(a, p);
      }
    }
    forall r | r in a.routes
      ensures exists p :: p in PathsOf(a.storage) && RouteOf(a, r, p)
    {
      RouteIsOf(env, a, r);
    }
    forall p | p in PathsOf(a.storage)
      ensures HasRoute(a.routes, p) && (p != "/" ==> HasRoute(a.routes, p + "/"))
    {
      HasOwnRoutes(env, a, p);
    }
    forall p | p in a.recordings
      ensures a.recordings[p] < |a.stores| && a.stores[a.recordings[p]].active
    {
      assert Agrees(a, p);
    }
  }

  // ---------------------------------------------------------------- recorded data is importable

  /** Digests have the form that snapshots require. */
  ghost predicate HexIds(env: Env) {
    forall r :: HexDigest(env.codec.hash(r))
  }

  /** The upstream replies that are saved, and the requests they answer, are well-formed. */
  predicate WellFormedTraffic(s: System, l: Label) {
    l.Resume? && l.input.Answered? && l.id in s.requests && s.requests[l.id].Upstream? && s.requests[l.id].ticket.Some?
    && s.requests[l.id].ticket.value.store < |s.app.stores| ==>
      var p := s.requests[l.id];
      && ImportableRequest(s.app.stores[p.ticket.value.store].config, p.request)
      && ImportableReply(p.request.verb, l.input.reply)
  }

  predicate StoreValid(codec: Codec, s: StoreState) {
    forall x :: x in s.slots ==> ValidEntry(s.config, codec.hash, x.entry)
  }

  /** Every retained entry, of live and retired stores, passes the import validator. */
  predicate EntriesValid(codec: Codec, a: App) {
    forall i :: 0 <= i < |a.stores| ==> StoreValid(codec, a.stores[i])
  }

  lemma NewStoreValid(
    codec: Codec, config: Config, prior: Option<StoreState>, imported: Option<seq<Entry>>)
    requires prior.Some? ==> StoreValid(codec, prior.value) && prior.value.config.matchHeaders == config.matchHeaders
    requires imported.Some? ==> forall e :: e in imported.value ==> ValidEntry(config, codec.hash, e)
    ensures StoreValid(codec, NewStore(codec, config, prior, imported))
  {
    var start := if imported.Some? then FromEntries(codec, imported.value) else if prior.Some? then prior.value.slots else [];
    if imported.Some? {
      FromEntriesDistinct(codec, imported.value);
    }
    TrimmedIsLongest(start, config.maxItems, config.maxBytes);
  }

  lemma GenerationValid(
    env: Env, a: App, m: Mock, preserve: set<Key>, keepRecordings: bool, imported: Option<seq<Entry>>)
    requires EntriesValid(env.codec, a)
    requires m.recording.Some? && keepRecordings && StoreAt(a, m.path).Some? ==>
               StoreAt(a, m.path).value.config.matchHeaders == m.recording.value.matchHeaders
    requires m.recording.Some? && imported.Some? ==>
               forall e :: e in imported.value ==> ValidEntry(m.recording.value, env.codec.hash, e)
    ensures EntriesValid(env.codec, Generation(env, a, m, preserve, keepRecordings, imported))
  {
    GenerationHeap(env, a, m, preserve, keepRecordings, imported);
    if m.recording.Some? {
      NewStoreValid(env.codec, m.recording.value, if keepRecordings then StoreAt(a, m.path) else None, imported);
    }
  }

  lemma {:induction false} RemoveAllValid(codec: Codec, a: App, mocks: seq<Mock>)
    requires EntriesValid(codec, a)
    ensures EntriesValid(codec, RemoveAll(a, mocks))
    decreases |mocks|
  {
    if mocks != [] {
      RemoveAllValid(codec, RemoveRuntime(a, mocks[0].path), mocks[1..]);
    }
  }

  lemma {:induction false} InstallAllValid(env: Env, a: App, parsed: seq<Parsed>)
    requires EntriesValid(env.codec, a) && AllWell(env, parsed)
    ensures EntriesValid(env.codec, InstallAll(env, a, parsed))
    decreases |parsed|
  {
    if parsed != [] {
      var p := parsed[0];
      assert p in parsed && forall x :: x in parsed[1..] ==> x in parsed;
      assert ParsedWell(env, p);
      GenerationValid(env, a, p.mock, {}, false, p.entries);
      InstallAllValid(env, Next(env, a, p), parsed[1..]);
    }
  }

  lemma PatchValid(env: Env, a: App, raw: string, changes: Object)
    requires AppOk(env, a) && EntriesValid(env.codec, a) && SoundSchema(env.schema)
    ensures EntriesValid(env.codec, PatchMock(env, a, raw, changes).0)
  {
    PatchEffect(env, a, raw, changes);
    if PatchMock(env, a, raw, changes).1.Success? {
      var saved, m := MockAt(a.storage, Addressed(raw)).value, Patched(env, a, raw, changes);
      MockAtIff(a.storage, m.path);
      assert Agrees(a, m.path);
      GenerationValid(env, a, m, PreservedKeys(changes, m), KeepsRecordings(saved, m), None);
    }
  }

  lemma ImportValid(env: Env, a: App, doc: Document, replace: bool)
    requires EntriesValid(env.codec, a) && SoundSchema(env.schema)
    ensures EntriesValid(env.codec, Import(env, a, doc, replace).0)
  {
    ImportInstalls(env, a, doc, replace);
    InstalledWell(env, doc);
    RemoveAllValid(env.codec, a, a.storage);
    InstallAllValid(env, StartOf(a, replace), Installed(env, doc));
  }

  lemma PutValid(env: Env, a: App, raw: string, body: Object)
    requires EntriesValid(env.codec, a) && SoundSchema(env.schema)
    ensures EntriesValid(env.codec, PutMock(env, a, raw, body).0)
  {
    PutEffect(env, a, raw, body);
    if PutSucceeds(env, raw, body) {
      GenerationValid(env, a, Submitted(env, raw, body), {}, false, None);
    }
  }

  lemma DeletionValid(codec: Codec, a: App, raw: string, key: Option<string>)
    requires EntriesValid(codec, a)
    ensures EntriesValid(codec, DeleteRecordings(a, raw, key).0)
  {
    if DeleteRecordings(a, raw, key).1.Success? && key.Some? {
      WithoutShape(a.stores[a.recordings[Normalize(raw).value]].slots, key.value);
    }
  }

  lemma AdminValid(env: Env, a: App, l: Label)
    requires AppOk(env, a) && EntriesValid(env.codec, a) && SoundSchema(env.schema) && GoodLabel(env, l)
    ensures EntriesValid(env.codec, AdminStep(env, a, l))
  {
    match l
    case Put(raw, body) => PutValid(env, a, raw, body);
    case Patch(raw, c) => PatchValid(env, a, raw, c);
    case Clear => RemoveAllValid(env.codec, a, a.storage);
    case ImportSnapshot(doc, replace) => ImportValid(env, a, doc, replace);
    case DeleteRecording(raw, key) => DeletionValid(env.codec, a, raw, key);
    case _ =>
  }

  lemma RequestValid(env: Env, s: System, l: Label)
    requires SystemOk(env, s) && EntriesValid(env.codec, s.app) && HexIds(env) && WellFormedTraffic(s, l)
    requires l.Resume? && l.id in s.requests
    ensures EntriesValid(env.codec, Step(env, s, l).app)
  {
    var p, input := s.requests[l.id], l.input;
    if p.Upstream? && input.Answered? && p.ticket.Some? {
      var t := p.ticket.value;
      assert PhaseOk(env, s.app, p);
      var st := s.app.stores[t.store];
      SavedIsImportableIff(st.config, env.codec.hash, p.request, input.reply);
      var e := EntryOf(env.codec.hash, t.data, input.reply);
      SavedSlots(st, Slot(e, env.codec.size(e)), t.revision);
    } else {
      StoresUnchanged(env, s.app, p, input);
    }
  }

  lemma StoresUnchanged(env: Env, a: App, p: Phase, input: Input)
    requires !(p.Upstream? && input.Answered? && p.ticket.Some?)
    ensures Advance(env, a, p, input).0.stores == a.stores
  {
  }

  lemma StepValid(env: Env, s: System, l: Label)
    requires SystemOk(env, s) && EntriesValid(env.codec, s.app) && HexIds(env)
    requires SoundSchema(env.schema) && GoodLabel(env, l) && WellFormedTraffic(s, l)
    ensures EntriesValid(env.codec, Step(env, s, l).app)
  {
    if IsAdmin(l) {
      AdminValid(env, s.app, l);
      AdminOnly(env, s, l);
    } else if l.Resume? && l.id in s.requests {
      RequestValid(env, s, l);
    }
  }

  /** A run whose labels are good and whose saved traffic is well-formed. */
  predicate GoodRun(env: Env, labels: seq<Label>) {
    forall m :: 0 <= m < |labels| ==> GoodLabel(env, labels[m]) && WellFormedTraffic(At(env, INITIAL, labels, m), labels[m])
  }

  lemma GoodRunPrefix(env: Env, labels: seq<Label>)
    requires labels != [] && GoodRun(env, labels)
    ensures GoodRun(env, labels[..|labels| - 1])
    ensures GoodLabel(env, labels[|labels| - 1])
    ensures WellFormedTraffic(Run(env, INITIAL, labels[..|labels| - 1]), labels[|labels| - 1])
  {
    var n := |labels| - 1;
    forall m | 0 <= m < n
      ensures GoodLabel(env, labels[..n][m]) && WellFormedTraffic(At(env, INITIAL, labels[..n], m), labels[..n][m])
    {
      assert labels[..n][..m] == labels[..m];
      assert WellFormedTraffic(At(env, INITIAL, labels, m), labels[m]);
    }
    assert WellFormedTraffic(At(env, INITIAL, labels, n), labels[n]);
  }

  lemma {:induction false} RunValid(env: Env, labels: seq<Label>)
    requires SoundSchema(env.schema) && HexIds(env) && GoodRun(env, labels)
    ensures var s := Run(env, INITIAL, labels); SystemOk(env, s) && EntriesValid(env.codec, s.app)
  {
    if labels == [] {
      InitialOk(env);
    } else {
      var n := |labels| - 1;
      GoodRunPrefix(env, labels);
      RunValid(env, labels[..n]);
      StepOk(env, Run(env, INITIAL, labels[..n]), labels[n]);
      StepValid(env, Run(env, INITIAL, labels[..n]), labels[n]);
    }
  }

  lemma {:induction false} TotalOfEntries(codec: Codec, slots: seq<Slot>)
    requires forall x :: x in slots ==> x.size == codec.size(x.entry)
    ensures TotalSize(codec.size, Store.Entries(slots)) == Store.Total(slots)
  {
    if slots == [] {
      assert Store.Entries(slots) == [];
    } else {
      var before, last := slots[..|slots| - 1], slots[|slots| - 1];
      TotalOfEntries(codec, before);
      assert Store.Entries(slots)[..|slots| - 1] == Store.Entries(before);
      TotalSplit(slots, |slots| - 1);
      assert slots[|slots| - 1..] == [last] && Store.Total([last]) == last.size;
      assert last in slots;
    }
  }

  lemma {:induction false} DistinctKeysAreDistinctIds(slots: seq<Slot>)
    requires DistinctKeys(slots)
    ensures DistinctIds(Store.Entries(slots))
  {
    if slots != [] {
      DistinctKeysAreDistinctIds(slots[1..]);
      HasKeyIff(slots[1..], slots[0].entry.id);
      var es, rest := Store.Entries(slots), Store.Entries(slots[1..]);
      forall i, j | 0 <= i < j < |es|
        ensures es[i].id != es[j].id
      {
        assert slots[j] == slots[1..][j - 1] && slots[1..][j - 1] in slots[1..];
        if i > 0 {
          assert rest[i - 1].id != rest[j - 1].id;
        }
      }
    }
  }

  /** A well-kept store with valid entries holds an importable collection. */
  lemma StoreIsImportable(codec: Codec, s: StoreState)
    requires StoreWell(codec, s) && StoreValid(codec, s)
    ensures Importable(s.config, codec.hash, codec.size, Store.Entries(s.slots))
  {
    TotalOfEntries(codec, s.slots);
    DistinctKeysAreDistinctIds(s.slots);
    var es := Store.Entries(s.slots);
    forall e | e in es
      ensures ValidEntry(s.config, codec.hash, e)
    {
      var i :| 0 <= i < |es| && es[i] == e;
      assert s.slots[i] in s.slots;
    }
  }

  lemma ReachableExports(env: Env, a: App)
    requires AppOk(env, a) && EntriesValid(env.codec, a)
    ensures ExportsImportable(env, a)
  {
    forall m | m in a.storage && m.recording.Some? && StoreAt(a, m.path).Some?
      ensures Importable(m.recording.value, env.codec.hash, env.codec.size, Store.Entries(StoreAt(a, m.path).value.slots))
    {
      StoredFacts(env, a, m);
      StoreIsImportable(env.codec, StoreAt(a, m.path).value);
    }
  }

  // ---------------------------------------------------------------- stored configurations are read back

  /** The parser reads the configuration back wherever it is installed. */
  ghost predicate Readable(env: Env, m: Mock) {
    forall p: RootedPath :: ReadsBack(env.schema, m.(path := p))
  }

  lemma MockInitAccepted(
    env: Env, a: App, m: Mock, preserve: set<Key>, keepRecordings: bool, imported: Option<seq<Entry>>)
    requires StorageAccepted(env, a) && Readable(env, m)
    ensures var r := MockInit(env, a, m, preserve, keepRecordings, imported); r.Some? ==> StorageAccepted(env, r.value)
  {
    var r := MockInit(env, a, m, preserve, keepRecordings, imported);
    if r.Some? {
      var filed := m.(path := Renormalize(Renormalize(Renormalize(m.path))));
      SetMockShape(a.storage, filed);
      assert r.value.storage == SetMock(a.storage, filed);
    }
  }

  lemma StableIsReadable(env: Env, o: Object, p: RootedPath)
    requires StableSchema(env.schema) && env.schema(o).Some?
    ensures Readable(env, env.schema(o).value.(path := p))
  {
    var m := env.schema(o).value;
    forall q: RootedPath
      ensures ReadsBack(env.schema, m.(path := p).(path := q))
    {
      assert m.(path := p).(path := q) == m.(path := q);
    }
  }

  lemma PutAccepted(env: Env, a: App, raw: string, body: Object)
    requires StorageAccepted(env, a) && StableSchema(env.schema)
    ensures StorageAccepted(env, PutMock(env, a, raw, body).0)
  {
    PutInstalls(env, a, raw, body);
    if PutSucceeds(env, raw, body) {
      StableIsReadable(env, WithPath(body, Normalize(raw).value), Landing(raw));
      ReadableElsewhere(env, Submitted(env, raw, body), Addressed(raw));
      MockInitAccepted(env, a, Submitted(env, raw, body).(path := Addressed(raw)), {}, false, None);
    }
  }

  lemma PatchAccepted(env: Env, a: App, raw: string, changes: Object)
    requires StorageAccepted(env, a) && StableSchema(env.schema)
    ensures StorageAccepted(env, PatchMock(env, a, raw, changes).0)
  {
    var status := PatchMock(env, a, raw, changes).1;
    if !status.Invalid? && !status.NotFound? {
      PatchInstalls(env, a, raw, changes);
      var saved, mock := MockAt(a.storage, Addressed(raw)).value, Patched(env, a, raw, changes);
      var fields := MergedFields(Dump(saved), WithPath(changes, Normalize(raw).value)).value;
      StableIsReadable(env, fields, Addressed(raw));
      MockInitAccepted(env, a, mock, PreservedKeys(changes, mock), KeepsRecordings(saved, mock), None);
    }
  }

  ghost predicate AllReadable(env: Env, parsed: seq<Parsed>) {
    forall p :: p in parsed ==> Readable(env, p.mock)
  }

  lemma ParserReadable(env: Env, format: int)
    requires StableSchema(env.schema)
    ensures forall raw, seen :: MockParser(env, format)(raw, seen).Ok? ==>
              Readable(env, MockParser(env, format)(raw, seen).value.mock)
  {
    forall raw, seen | MockParser(env, format)(raw, seen).Ok?
      ensures Readable(env, MockParser(env, format)(raw, seen).value.mock)
    {
      var data := ParsedConfiguration(env, format, raw, seen);
      StableIsReadable(env, data, ParseMock(env, format, raw, seen).value.mock.path);
    }
  }

  lemma {:induction false} ParseEachReadable(env: Env, parse: Parser, raws: seq<RawMock>, n: nat)
    requires forall raw, seen :: parse(raw, seen).Ok? ==> Readable(env, parse(raw, seen).value.mock)
    requires n <= |raws| && ParseEach(parse, raws, n).Ok?
    ensures AllReadable(env, ParseEach(parse, raws, n).value)
  {
    if n > 0 {
      ParseEachReadable(env, parse, raws, n - 1);
    }
  }

  lemma {:induction false} RevalidatedReadable(env: Env, parsed: seq<Parsed>)
    requires AllReadable(env, parsed) && Revalidated(env, parsed).Some?
    ensures AllReadable(env, Revalidated(env, parsed).value)
  {
    if parsed != [] {
      assert parsed[0] in parsed && forall p :: p in parsed[1..] ==> p in parsed;
      RevalidatedReadable(env, parsed[1..]);
      ReadableElsewhere(env, parsed[0].mock, ValidatePath(env.prefix, env.compiles, parsed[0].mock.path).value);
    }
  }

  lemma ReadableElsewhere(env: Env, m: Mock, p: RootedPath)
    requires Readable(env, m)
    ensures Readable(env, m.(path := p))
  {
    forall q: RootedPath
      ensures ReadsBack(env.schema, m.(path := p).(path := q))
    {
      assert m.(path := p).(path := q) == m.(path := q);
    }
  }

  lemma {:induction false} ImportMocksAccepted(env: Env, a: App, parsed: seq<Parsed>)
    requires StorageAccepted(env, a) && AllReadable(env, parsed)
    ensures StorageAccepted(env, ImportMocks(env, a, parsed).0)
    decreases |parsed|
  {
    if parsed != [] {
      assert parsed[0] in parsed && forall p :: p in parsed[1..] ==> p in parsed;
      MockInitAccepted(env, a, parsed[0].mock, {}, false, parsed[0].entries);
      var r := MockInit(env, a, parsed[0].mock, {}, false, parsed[0].entries);
      if r.Some? {
        ImportMocksAccepted(env, r.value, parsed[1..]);
      }
    }
  }

  lemma ImportAccepted(env: Env, a: App, doc: Document, replace: bool)
    requires StorageAccepted(env, a) && StableSchema(env.schema)
    ensures StorageAccepted(env, Import(env, a, doc, replace).0)
  {
    if Validated(env, doc).Some? {
      ParserReadable(env, doc.format.number);
      ParseEachReadable(env, MockParser(env, doc.format.number), doc.mocks.value, |doc.mocks.value|);
      RevalidatedReadable(env, ParseSnapshot(env, doc).value);
      ImportMocksAccepted(env, StartOf(a, replace), Validated(env, doc).value);
    }
  }

  lemma StepAccepted(env: Env, s: System, l: Label)
    requires StorageAccepted(env, s.app) && StableSchema(env.schema)
    ensures StorageAccepted(env, Step(env, s, l).app)
  {
    match l
    case Put(raw, body) => PutAccepted(env, s.app, raw, body);
    case Patch(raw, changes) => PatchAccepted(env, s.app, raw, changes);
    case Delete(raw) =>
      if Normalize(raw).Some? {
        RemoveMockShape(s.app.storage, Addressed(raw));
      }
    case ImportSnapshot(doc, replace) => ImportAccepted(env, s.app, doc, replace);
    case Resume(r, input) =>
      if r in s.requests {
        StorageStays(env, s.app, s.requests[r], input);
      }
    case _ =>
  }

  lemma StorageStays(env: Env, a: App, p: Phase, input: Input)
    ensures Advance(env, a, p, input).0.storage == a.storage
  {
    StepReserves(env, a, p, input);
  }

  /** In every run, whatever the operations, storage holds only what the parser reads back. */
  lemma {:induction false} RunAccepted(env: Env, labels: seq<Label>)
    requires StableSchema(env.schema)
    ensures StorageAccepted(env, Run(env, INITIAL, labels).app)
  {
    if labels != [] {
      var n := |labels| - 1;
      RunAccepted(env, labels[..n]);
      StepAccepted(env, Run(env, INITIAL, labels[..n]), labels[n]);
    }
  }

  /**
   * Backup and restore of any server. After any run that keeps agreement and records well-formed
   * traffic, the state can be exported, and a replacing import of the export into any other
   * reachable server restores every configuration and every recording list in order, with cursors
   * at zero, and exports to an equal document.
   */
  lemma AnyServerCanBeRestored(env: Env, labels: seq<Label>, others: seq<Label>, version: string)
    requires SoundSchema(env.schema) && StableSchema(env.schema) && HexIds(env) && GoodRun(env, labels)
    requires forall l :: l in others ==> GoodLabel(env, l)
    ensures var a, target := Run(env, INITIAL, labels).app, Run(env, INITIAL, others).app;
            && Export(a, version).Some?
            && var (b, r) := Import(env, target, Export(a, version).value, true);
               r.Imported? && Restored(a, b) && Export(b, version) == Export(a, version)
  {
    RunValid(env, labels);
    InitialOk(env);
    RunOk(env, INITIAL, others);
    var a, target := Run(env, INITIAL, labels).app, Run(env, INITIAL, others).app;
    RunAccepted(env, labels);
    ReachableExports(env, a);
    SnapshotRoundTrip(env, a, version, target);
  }
}
