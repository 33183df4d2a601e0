/**
 * Record/replay transparency over runs of the server. A reply is recorded by one generation of a
 * mock and replayed by another: switching modes is a PATCH that hands recordings over, and a backup
 * is an import that brings them back.
 */
module Transparency {
  import opened Wrappers
  import opened Base64
  import opened Json
  import opened Paths
  import opened Recordings
  import opened Store
  import opened Mocks
  import opened Sequences
  import opened Lifecycle
  import opened LifecycleProofs
  import opened Admin
  import opened AdminEffects
  import opened Snapshot
  import opened SnapshotProofs
  import opened ImportEffects
  import opened RoundTrip
  import opened Machine
  import opened LateWrites
  import opened CursorRuns
  import opened Reachable
  import opened Provenance
  import opened StoreHistory
  import opened StoreProjection
  import opened Deletions
  import Guards
  import Single = StoreRuns

  /** Under the key of the entry there is nothing but the entry. */
  predicate Only(slots: seq<Slot>, e: Entry) {
    forall x :: x in slots && x.entry.id == e.id ==> x.entry == e
  }

  /** The mock at a path matches by these headers, and has nothing else recorded under the key of the entry. */
  predicate Remembers(a: App, p: string, headers: seq<string>, e: Entry) {
    && StoreAt(a, p).Some?
    && StoreAt(a, p).value.config.matchHeaders == headers && Only(StoreAt(a, p).value.slots, e)
  }

  /** The same of one store, which the mock at the path owns unless it has been retired. */
  predicate Keeps(a: App, id: nat, p: string, headers: seq<string>, e: Entry) {
    && id < |a.stores|
    && a.stores[id].config.matchHeaders == headers && Only(a.stores[id].slots, e)
    && (a.stores[id].active ==> p in a.recordings && a.recordings[p] == id)
  }

  /** Whatever is imported for the path records by the same headers and agrees on the entry. */
  predicate Carries(parsed: seq<Parsed>, p: string, headers: seq<string>, e: Entry) {
    forall x :: x in parsed && x.mock.path == p ==>
      && x.mock.recording.Some? && x.mock.recording.value.matchHeaders == headers && x.entries.Some?
      && forall f :: f in x.entries.value && f.id == e.id ==> f == e
  }

  /**
   * The step does not make the mock at the path forget: it does not replace or remove it except by a
   * PATCH that keeps recordings or an import that carries the entry, and stores no other reply under
   * the key. Deletions and evictions are allowed.
   */
  predicate Spares(env: Env, s: System, l: Label, p: string, headers: seq<string>, e: Entry) {
    match l
    case Put(raw, body) => PutSucceeds(env, raw, body) ==> Landing(raw) != p
    case Patch(raw, changes) =>
      PatchMock(env, s.app, raw, changes).1.Success? ==>
        Patchable(env, s.app, raw, changes)
        && (Addressed(raw) == p ==> KeepsRecordings(MockAt(s.app.storage, p).value, Patched(env, s.app, raw, changes)))
    case Delete(raw) => DeleteMock(s.app, raw).1.Success? ==> Normalize(raw).Some? && Addressed(raw) != p
    case Clear => false
    case ImportSnapshot(doc, replace) =>
      Validated(env, doc).Some? ==>
        Carries(Installed(env, doc), p, headers, e) && (replace ==> p in ParsedPaths(Installed(env, doc)))
    case Resume(r, _) =>
      p in s.app.recordings && s.app.recordings[p] < |s.app.stores| && SavesTo(s, l, s.app.recordings[p])
      && SaveOutcome(
           s.app.stores[s.app.recordings[p]], SlotOf(env, s, l, s.app.recordings[p]).size,
           s.requests[r].ticket.value.revision).Stored?
      && SlotOf(env, s, l, s.app.recordings[p]).entry.id == e.id ==>
        SlotOf(env, s, l, s.app.recordings[p]).entry == e
    case _ => true
  }

  // ---------------------------------------------------------------- one step, the current generation

  lemma OnlySaved(st: StoreState, slot: Slot, revision: nat, e: Entry)
    requires Only(st.slots, e)
    requires SaveOutcome(st, slot.size, revision).Stored? && slot.entry.id == e.id ==> slot.entry == e
    ensures Only(Saved(st, slot, revision).slots, e)
  {
    SavedSlots(st, slot, revision);
  }

  lemma OnlyDeleted(st: StoreState, key: Option<string>, e: Entry)
    requires Only(st.slots, e)
    ensures Only(Deleted(st, key).slots, e)
  {
    if key.Some? {
      WithoutShape(st.slots, key.value);
    }
  }

  lemma PutElsewhere(env: Env, a: App, raw: string, body: Object, p: string)
    requires AppOk(env, a) && SoundSchema(env.schema) && GoodPut(env, raw, body)
    requires PutSucceeds(env, raw, body) ==> Landing(raw) != p
    ensures StoreAt(PutMock(env, a, raw, body).0, p) == StoreAt(a, p)
  {
    PutEffect(env, a, raw, body);
    if PutSucceeds(env, raw, body) {
      GenerationElsewhere(env, a, Submitted(env, raw, body), {}, false, None, p);
    }
  }

  lemma HandedOn(env: Env, a: App, saved: Mock, m: Mock, preserve: set<Key>, headers: seq<string>, e: Entry)
    requires AppOk(env, a) && Settled(m.path) && MockAt(a.storage, m.path) == Some(saved) && KeepsRecordings(saved, m)
    requires Remembers(a, m.path, headers, e)
    ensures Remembers(Generation(env, a, m, preserve, true, None), m.path, headers, e)
  {
    NextStore(env, a, saved, m, preserve);
    MockAtIff(a.storage, m.path);
    HandedStore(env, a, saved);
    var config := m.recording.value;
    Single.TrimmedIsSubset(StoreAt(a, m.path).value.slots, config.maxItems, config.maxBytes);
  }

  lemma PatchRemembers(env: Env, s: System, raw: string, changes: Object, p: string, headers: seq<string>, e: Entry)
    requires AppOk(env, s.app) && SoundSchema(env.schema)
    requires Remembers(s.app, p, headers, e) && Spares(env, s, Patch(raw, changes), p, headers, e)
    ensures Remembers(PatchMock(env, s.app, raw, changes).0, p, headers, e)
  {
    PatchEffect(env, s.app, raw, changes);
    if PatchMock(env, s.app, raw, changes).1.Success? {
      var saved, mock := MockAt(s.app.storage, Addressed(raw)).value, Patched(env, s.app, raw, changes);
      if mock.path == p {
        HandedOn(env, s.app, saved, mock, PreservedKeys(changes, mock), headers, e);
      } else {
        GenerationElsewhere(
          env, s.app, mock, PreservedKeys(changes, mock), KeepsRecordings(saved, mock), None, p);
      }
    }
  }

  lemma RemoveElsewhere(a: App, q: string, p: string)
    requires OneStoreEach(a.recordings) && Settled(q) && p != q && StoreAt(a, p).Some?
    ensures StoreAt(RemoveRuntime(a, q), p) == StoreAt(a, p)
  {
    RemoveFrame(a, q);
  }

  lemma DeleteElsewhere(env: Env, a: App, raw: string, p: string)
    requires AppOk(env, a) && StoreAt(a, p).Some? && DeleteMock(a, raw).1.Success?
    requires Normalize(raw).Some? && Addressed(raw) != p
    ensures StoreAt(DeleteMock(a, raw).0, p) == StoreAt(a, p)
  {
    DeleteEffect(env, a, raw);
    RemoveElsewhere(a, Addressed(raw), p);
  }

  lemma DeleteRemembers(env: Env, s: System, raw: string, p: string, headers: seq<string>, e: Entry)
    requires AppOk(env, s.app) && Remembers(s.app, p, headers, e) && Spares(env, s, Delete(raw), p, headers, e)
    ensures Remembers(DeleteMock(s.app, raw).0, p, headers, e)
  {
    if DeleteMock(s.app, raw).1.Success? {
      DeleteElsewhere(env, s.app, raw, p);
    }
  }

  /** Installing mocks that carry the entry to the path leaves it remembered there, whatever was there before. */
  lemma InstalledRemembers(env: Env, a: App, parsed: seq<Parsed>, p: string, headers: seq<string>, e: Entry)
    requires AppOk(env, a) && AllReady(env, parsed)
    requires Carries(parsed, p, headers, e) && (p in ParsedPaths(parsed) || Remembers(a, p, headers, e))
    ensures Remembers(InstallAll(env, a, parsed), p, headers, e)
  {
    var b := InstallAll(env, a, parsed);
    InstallAllEffect(env, a, parsed);
    InstallAllOk(env, a, parsed);
    LastAtIff(parsed, p);
    assert EffectAt(a, b, parsed, p);
    if p in ParsedPaths(parsed) {
      HeldIsRemembered(env, b, LastAt(parsed, p).value, headers, e);
    } else {
      assert Agrees(a, p);
    }
  }

  lemma OnlyAmongEntries(slots: seq<Slot>, e: Entry)
    requires forall f :: f in Store.Entries(slots) && f.id == e.id ==> f == e
    ensures Only(slots, e)
  {
    forall y | y in slots && y.entry.id == e.id
      ensures y.entry == e
    {
      var i :| 0 <= i < |slots| && slots[i] == y;
      assert Store.Entries(slots)[i] == y.entry;
    }
  }

  lemma HeldIsRemembered(env: Env, b: App, x: Parsed, headers: seq<string>, e: Entry)
    requires AppOk(env, b) && Holds(b, x)
    requires x.mock.recording.Some? && x.mock.recording.value.matchHeaders == headers && x.entries.Some?
    requires forall f :: f in x.entries.value && f.id == e.id ==> f == e
    ensures Remembers(b, x.mock.path, headers, e)
  {
    assert Agrees(b, x.mock.path);
    OnlyAmongEntries(StoreAt(b, x.mock.path).value.slots, e);
  }

  lemma ImportRemembers(env: Env, a: App, doc: Document, replace: bool, p: string, headers: seq<string>, e: Entry)
    requires AppOk(env, a) && SoundSchema(env.schema) && GoodDocument(env, doc) && Validated(env, doc).Some?
    requires Carries(Installed(env, doc), p, headers, e)
    requires p in ParsedPaths(Installed(env, doc)) || (!replace && Remembers(a, p, headers, e))
    ensures Remembers(Import(env, a, doc, replace).0, p, headers, e)
  {
    ImportInstalls(env, a, doc, replace);
    InstalledWell(env, doc);
    StartOk(env, a, replace);
    InstalledRemembers(env, StartOf(a, replace), Installed(env, doc), p, headers, e);
  }

  lemma DeletionElsewhere(a: App, raw: string, key: Option<string>, p: string)
    requires OneStoreEach(a.recordings) && StoreAt(a, p).Some?
    ensures var b := DeleteRecordings(a, raw, key).0;
            StoreAt(b, p) == StoreAt(a, p) || StoreAt(b, p) == Some(Deleted(StoreAt(a, p).value, key))
  {
  }

  lemma DeletionRemembers(env: Env, a: App, raw: string, key: Option<string>, p: string, headers: seq<string>, e: Entry)
    requires AppOk(env, a) && Remembers(a, p, headers, e)
    ensures Remembers(DeleteRecordings(a, raw, key).0, p, headers, e)
  {
    DeletionElsewhere(a, raw, key, p);
    OnlyDeleted(StoreAt(a, p).value, key, e);
  }

  lemma OnlyAfterResume(env: Env, s: System, l: Label, p: string, headers: seq<string>, e: Entry, after: StoreState)
    requires TicketsOk(env, s) && l.Resume? && l.id in s.requests
    requires Remembers(s.app, p, headers, e) && Spares(env, s, l, p, headers, e)
    requires var id := s.app.recordings[p];
             after == if SavesTo(s, l, id)
                      then Saved(s.app.stores[id], SlotOf(env, s, l, id), s.requests[l.id].ticket.value.revision)
                      else s.app.stores[id]
    ensures after.config.matchHeaders == headers && Only(after.slots, e)
  {
    var id := s.app.recordings[p];
    if SavesTo(s, l, id) {
      OnlySaved(s.app.stores[id], SlotOf(env, s, l, id), s.requests[l.id].ticket.value.revision, e);
    }
  }

  lemma ResumeKeepsOwner(env: Env, s: System, l: Label, p: string)
    requires TicketsOk(env, s) && l.Resume? && l.id in s.requests && StoreAt(s.app, p).Some?
    ensures var id := s.app.recordings[p];
            StoreAt(Step(env, s, l).app, p) == Some(
              if SavesTo(s, l, id)
              then Saved(s.app.stores[id], SlotOf(env, s, l, id), s.requests[l.id].ticket.value.revision)
              else s.app.stores[id])
  {
    StepReserves(env, s.app, s.requests[l.id], l.input);
    StoreAfterResume(env, s, l, s.app.recordings[p]);
  }

  lemma ResumeRemembers(env: Env, s: System, l: Label, p: string, headers: seq<string>, e: Entry)
    requires TicketsOk(env, s) && l.Resume? && l.id in s.requests
    requires Remembers(s.app, p, headers, e) && Spares(env, s, l, p, headers, e)
    ensures Remembers(Step(env, s, l).app, p, headers, e)
  {
    ResumeKeepsOwner(env, s, l, p);
    OnlyAfterResume(env, s, l, p, headers, e, StoreAt(Step(env, s, l).app, p).value);
  }

  lemma AfterPut(env: Env, s: System, l: Label, p: string, headers: seq<string>, e: Entry)
    requires l.Put? && AppOk(env, s.app) && SoundSchema(env.schema) && GoodLabel(env, l)
    requires Remembers(s.app, p, headers, e) && Spares(env, s, l, p, headers, e)
    ensures Remembers(AdminStep(env, s.app, l), p, headers, e)
  {
    PutElsewhere(env, s.app, l.raw, l.body, p);
  }

  lemma AfterPatch(env: Env, s: System, l: Label, p: string, headers: seq<string>, e: Entry)
    requires l.Patch? && AppOk(env, s.app) && SoundSchema(env.schema) && GoodLabel(env, l)
    requires Remembers(s.app, p, headers, e) && Spares(env, s, l, p, headers, e)
    ensures Remembers(AdminStep(env, s.app, l), p, headers, e)
  {
    PatchRemembers(env, s, l.raw, l.changes, p, headers, e);
  }

  lemma AfterDelete(env: Env, s: System, l: Label, p: string, headers: seq<string>, e: Entry)
    requires l.Delete? && AppOk(env, s.app) && SoundSchema(env.schema) && GoodLabel(env, l)
    requires Remembers(s.app, p, headers, e) && Spares(env, s, l, p, headers, e)
    ensures Remembers(AdminStep(env, s.app, l), p, headers, e)
  {
    DeleteRemembers(env, s, l.raw, p, headers, e);
  }

  lemma AfterImport(env: Env, s: System, l: Label, p: string, headers: seq<string>, e: Entry)
    requires l.ImportSnapshot? && AppOk(env, s.app) && SoundSchema(env.schema) && GoodLabel(env, l)
    requires Remembers(s.app, p, headers, e) && Spares(env, s, l, p, headers, e)
    ensures Remembers(AdminStep(env, s.app, l), p, headers, e)
  {
    if Validated(env, l.doc).Some? {
      ImportRemembers(env, s.app, l.doc, l.replace, p, headers, e);
    }
  }

  lemma AfterDeletion(env: Env, s: System, l: Label, p: string, headers: seq<string>, e: Entry)
    requires l.DeleteRecording? && AppOk(env, s.app) && SoundSchema(env.schema) && GoodLabel(env, l)
    requires Remembers(s.app, p, headers, e) && Spares(env, s, l, p, headers, e)
    ensures Remembers(AdminStep(env, s.app, l), p, headers, e)
  {
    DeletionRemembers(env, s.app, l.raw, l.key, p, headers, e);
  }

  lemma AfterReset(env: Env, s: System, l: Label, p: string, headers: seq<string>, e: Entry)
    requires l.ResetCursor? && Remembers(s.app, p, headers, e)
    ensures Remembers(AdminStep(env, s.app, l), p, headers, e)
  {
    ResetLeavesStores(s.app, l.raw, l.slot, p);
  }

  lemma ResetLeavesStores(a: App, raw: string, key: Key, p: string)
    ensures StoreAt(ResetSequence(a, raw, key).0, p) == StoreAt(a, p)
  {
  }

  lemma AdminRemembers(env: Env, s: System, l: Label, p: string, headers: seq<string>, e: Entry)
    requires AppOk(env, s.app) && SoundSchema(env.schema) && GoodLabel(env, l) && IsAdmin(l)
    requires Remembers(s.app, p, headers, e) && Spares(env, s, l, p, headers, e)
    ensures Remembers(AdminStep(env, s.app, l), p, headers, e)
  {
    match l
    case Put(_, _) => AfterPut(env, s, l, p, headers, e);
    case Patch(_, _) => AfterPatch(env, s, l, p, headers, e);
    case Delete(_) => AfterDelete(env, s, l, p, headers, e);
    case ImportSnapshot(_, _) => AfterImport(env, s, l, p, headers, e);
    case DeleteRecording(_, _) => AfterDeletion(env, s, l, p, headers, e);
    case ResetCursor(_, _) => AfterReset(env, s, l, p, headers, e);
  }

  /** A mock goes on remembering through every step that spares it. */
  lemma StepRemembers(env: Env, s: System, l: Label, p: string, headers: seq<string>, e: Entry)
    requires SystemOk(env, s) && SoundSchema(env.schema) && GoodLabel(env, l)
    requires Remembers(s.app, p, headers, e) && Spares(env, s, l, p, headers, e)
    ensures Remembers(Step(env, s, l).app, p, headers, e)
  {
    if IsAdmin(l) {
      AdminOnly(env, s, l);
      AdminRemembers(env, s, l, p, headers, e);
    } else if l.Resume? && l.id in s.requests {
      ResumeRemembers(env, s, l, p, headers, e);
    } else {
      AppStays(env, s, l);
    }
  }

  lemma AppStays(env: Env, s: System, l: Label)
    requires !IsAdmin(l) && !(l.Resume? && l.id in s.requests)
    ensures Step(env, s, l).app == s.app
  {
  }

  // ---------------------------------------------------------------- one step, any generation

  lemma OwnerStays(a: App, b: App, id: nat, p: string)
    requires Descends(a, b) && OneStoreEach(a.recordings) && OnlyOwnedActive(b) && id < |a.stores|
    requires p in a.recordings && a.recordings[p] == id && b.stores[id].active
    ensures p in b.recordings && b.recordings[p] == id
  {
    var q :| q in b.recordings && b.recordings[q] == id;
    assert q in a.recordings && a.recordings[q] == id;
  }

  lemma DeletionKeeps(
    a: App, raw: string, key: Option<string>, id: nat, p: string, headers: seq<string>, e: Entry)
    requires Keeps(a, id, p, headers, e)
    ensures Keeps(DeleteRecordings(a, raw, key).0, id, p, headers, e)
  {
    OnlyDeleted(a.stores[id], key, e);
    if DeleteRecordings(a, raw, key).0 != a {
      var target := DeletionEffect(a, raw, key);
    }
  }

  lemma AdminKeeps(env: Env, s: System, l: Label, id: nat, p: string, headers: seq<string>, e: Entry)
    requires AppOk(env, s.app) && IsAdmin(l) && Keeps(s.app, id, p, headers, e)
    requires AppOk(env, AdminStep(env, s.app, l))
    ensures Keeps(AdminStep(env, s.app, l), id, p, headers, e)
  {
    if l.DeleteRecording? {
      DeletionKeeps(s.app, l.raw, l.key, id, p, headers, e);
    } else {
      AdminDescends(env, s.app, l);
      KeepsAsOwned(s.app, AdminStep(env, s.app, l), id, p, headers, e);
    }
  }

  lemma KeepsAsOwned(a: App, b: App, id: nat, p: string, headers: seq<string>, e: Entry)
    requires Keeps(a, id, p, headers, e) && Descends(a, b) && OneStoreEach(a.recordings) && OnlyOwnedActive(b)
    ensures Keeps(b, id, p, headers, e)
  {
    if b.stores[id].active {
      OwnerStays(a, b, id, p);
    }
  }

  lemma ResumeKeeps(env: Env, s: System, l: Label, id: nat, p: string, headers: seq<string>, e: Entry)
    requires TicketsOk(env, s) && l.Resume? && l.id in s.requests
    requires Keeps(s.app, id, p, headers, e) && Spares(env, s, l, p, headers, e)
    ensures Keeps(Step(env, s, l).app, id, p, headers, e)
  {
    StepReserves(env, s.app, s.requests[l.id], l.input);
    StoreAfterResume(env, s, l, id);
    if SavesTo(s, l, id) {
      OnlySaved(s.app.stores[id], SlotOf(env, s, l, id), s.requests[l.id].ticket.value.revision, e);
    }
  }

  /** So does every store it has owned: a retired one is never written to again. */
  lemma StepKeeps(env: Env, s: System, l: Label, id: nat, p: string, headers: seq<string>, e: Entry)
    requires SystemOk(env, s) && SoundSchema(env.schema) && GoodLabel(env, l)
    requires Keeps(s.app, id, p, headers, e) && Spares(env, s, l, p, headers, e)
    ensures Keeps(Step(env, s, l).app, id, p, headers, e)
  {
    if IsAdmin(l) {
      AdminOnly(env, s, l);
      StepOk(env, s, l);
      AdminKeeps(env, s, l, id, p, headers, e);
    } else if l.Resume? && l.id in s.requests {
      ResumeKeeps(env, s, l, id, p, headers, e);
    }
  }

  // ---------------------------------------------------------------- whole runs

  /** Every step of the run is good and spares the mock. */
  predicate SparingRun(env: Env, s: System, labels: seq<Label>, p: string, headers: seq<string>, e: Entry) {
    forall m :: 0 <= m < |labels| ==> GoodLabel(env, labels[m]) && Spares(env, At(env, s, labels, m), labels[m], p, headers, e)
  }

  lemma SparingPrefix(env: Env, s: System, labels: seq<Label>, p: string, headers: seq<string>, e: Entry)
    requires labels != [] && SparingRun(env, s, labels, p, headers, e)
    ensures var n := |labels| - 1;
            && SparingRun(env, s, labels[..n], p, headers, e)
            && GoodLabel(env, labels[n]) && Spares(env, Run(env, s, labels[..n]), labels[n], p, headers, e)
  {
    var n := |labels| - 1;
    forall m | 0 <= m < n
      ensures GoodLabel(env, labels[..n][m]) && Spares(env, At(env, s, labels[..n], m), labels[..n][m], p, headers, e)
    {
      assert labels[..n][..m] == labels[..m];
      assert Spares(env, At(env, s, labels, m), labels[m], p, headers, e);
    }
    assert Spares(env, At(env, s, labels, n), labels[n], p, headers, e);
  }

  lemma {:induction false} SparingOk(env: Env, s: System, labels: seq<Label>, p: string, headers: seq<string>, e: Entry)
    requires SystemOk(env, s) && SoundSchema(env.schema) && SparingRun(env, s, labels, p, headers, e)
    ensures SystemOk(env, Run(env, s, labels))
  {
    if labels != [] {
      SparingPrefix(env, s, labels, p, headers, e);
      SparingOk(env, s, labels[..|labels| - 1], p, headers, e);
      StepOk(env, Run(env, s, labels[..|labels| - 1]), labels[|labels| - 1]);
    }
  }

  /** Through a sparing run the mock remembers, in whatever generation it is. */
  lemma {:induction false} RunRemembers(env: Env, s: System, labels: seq<Label>, p: string, headers: seq<string>, e: Entry)
    requires SystemOk(env, s) && SoundSchema(env.schema) && SparingRun(env, s, labels, p, headers, e)
    requires Remembers(s.app, p, headers, e)
    ensures Remembers(Run(env, s, labels).app, p, headers, e)
  {
    if labels != [] {
      var before := labels[..|labels| - 1];
      SparingPrefix(env, s, labels, p, headers, e);
      SparingOk(env, s, before, p, headers, e);
      RunRemembers(env, s, before, p, headers, e);
      StepRemembers(env, Run(env, s, before), labels[|labels| - 1], p, headers, e);
    }
  }

  lemma SparingPart(env: Env, s: System, labels: seq<Label>, j: nat, p: string, headers: seq<string>, e: Entry)
    requires j <= |labels| && SparingRun(env, s, labels, p, headers, e)
    ensures SparingRun(env, s, labels[..j], p, headers, e)
  {
    forall m | 0 <= m < j
      ensures GoodLabel(env, labels[..j][m]) && Spares(env, At(env, s, labels[..j], m), labels[..j][m], p, headers, e)
    {
      assert labels[..j][..m] == labels[..m];
      assert Spares(env, At(env, s, labels, m), labels[m], p, headers, e);
    }
  }

  lemma {:induction false} KeepsFrom(
    env: Env, s: System, labels: seq<Label>, j: nat, id: nat, p: string, headers: seq<string>, e: Entry)
    requires SystemOk(env, s) && SoundSchema(env.schema) && SparingRun(env, s, labels, p, headers, e)
    requires j <= |labels| && Keeps(Run(env, s, labels[..j]).app, id, p, headers, e)
    ensures Keeps(Run(env, s, labels).app, id, p, headers, e)
  {
    if j == |labels| {
      assert labels[..j] == labels;
    } else {
      var before := labels[..|labels| - 1];
      SparingPrefix(env, s, labels, p, headers, e);
      SparingOk(env, s, before, p, headers, e);
      assert before[..j] == labels[..j];
      KeepsFrom(env, s, before, j, id, p, headers, e);
      StepKeeps(env, Run(env, s, before), labels[|labels| - 1], id, p, headers, e);
    }
  }

  /** Every store the path has owned in the course of the run keeps the entry to the end. */
  lemma LineageKeeps(env: Env, s: System, labels: seq<Label>, j: nat, p: string, headers: seq<string>, e: Entry)
    requires SystemOk(env, s) && SoundSchema(env.schema) && SparingRun(env, s, labels, p, headers, e)
    requires Remembers(s.app, p, headers, e) && j <= |labels|
    ensures Remembers(At(env, s, labels, j).app, p, headers, e)
    ensures Keeps(Run(env, s, labels).app, At(env, s, labels, j).app.recordings[p], p, headers, e)
  {
    SparingPart(env, s, labels, j, p, headers, e);
    RunRemembers(env, s, labels[..j], p, headers, e);
    KeepsFrom(env, s, labels, j, At(env, s, labels, j).app.recordings[p], p, headers, e);
  }

  // ---------------------------------------------------------------- the replay

  lemma OnlyIsFound(slots: seq<Slot>, e: Entry)
    requires Only(slots, e)
    ensures LookUp(slots, e.id) == if HasKey(slots, e.id) then Some(e) else None
  {
    HasKeyIff(slots, e.id);
  }

  /** The request arrived in replay mode and waits for its body, bound for this store. */
  predicate AwaitsReplay(t: System, r: nat, id: nat) {
    && r in t.requests && t.requests[r].Identifying? && Guards.Replays(t.requests[r].handler.mock)
    && t.requests[r].store == id && id < |t.app.stores|
  }

  /** When its body arrives, the request is answered so. */
  predicate AnswersWith(env: Env, t: System, r: nat, answer: Answer) {
    var next := Step(env, t, Resume(r, Continue)); r in next.requests && next.requests[r] == Done(answer)
  }

  /** How a replay by a store that keeps an entry ends. */
  function ReplayOf(t: System, id: nat, key: string, response: Response): Answer
    requires id < |t.app.stores|
  {
    if HasKey(t.app.stores[id].slots, key) then Replayed(response) else RecordingNotFound
  }

  /** A request whose body arrives is answered from a store that keeps the entry: with it, or not found. */
  lemma ReplayAnswers(env: Env, t: System, r: nat, id: nat, p: string, headers: seq<string>, e: Entry)
    requires AwaitsReplay(t, r, id) && Keeps(t.app, id, p, headers, e) && Decode(e.response.bodyB64).Some?
    requires e.id == env.codec.hash(Identity(t.app.stores[id].config, t.requests[r].request))
    ensures AnswersWith(env, t, r, ReplayOf(t, id, e.id, ReplayedResponse(e.response, t.requests[r].request.verb)))
  {
    OnlyIsFound(t.app.stores[id].slots, e);
    var ph := t.requests[r];
    assert Advance(env, t.app, ph, Continue) == Identified(env, t.app, ph.handler, ph.request, id, ph.revision);
  }

  /** After a save that counts, the mock remembers exactly the saved entry. */
  lemma RecordingIsRemembered(env: Env, s: System, l: Label, p: string, e: Entry)
    requires SystemOk(env, s) && RecordedInto(env, s, l, p, e)
    ensures s.app.recordings[p] < |s.app.stores|
    ensures var headers := s.app.stores[s.app.recordings[p]].config.matchHeaders;
            Remembers(Step(env, s, l).app, p, headers, e) && LookUp(StoreAt(Step(env, s, l).app, p).value.slots, e.id) == Some(e)
  {
    var id := s.app.recordings[p];
    assert Agrees(s.app, p);
    var st := s.app.stores[id];
    var slot, revision := SlotOf(env, s, l, id), s.requests[l.id].ticket.value.revision;
    ResumeKeepsOwner(env, s, l, p);
    SavedAlone(st, slot, revision);
    Single.StoredIsFound(st, slot, revision);
  }

  lemma SavedAlone(st: StoreState, slot: Slot, revision: nat)
    requires StoreOk(st) && SaveOutcome(st, slot.size, revision).Stored?
    ensures Only(Saved(st, slot, revision).slots, slot.entry)
  {
    WithoutShape(st.slots, slot.entry.id);
    Single.TrimmedIsSubset(Without(st.slots, slot.entry.id) + [slot], st.config.maxItems, st.config.maxBytes);
  }

  /** A save that counts goes into a store that some mock owns. */
  lemma RecordingHasOwner(env: Env, s: System, l: Label, e: Entry) returns (p: string)
    requires SystemOk(env, s) && RecordedBy(env, s, l, e)
    ensures RecordedInto(env, s, l, p, e)
  {
    var id := s.requests[l.id].ticket.value.store;
    assert OnlyOwnedActive(s.app);
    p :| p in s.app.recordings && s.app.recordings[p] == id;
  }

  /** What is saved is the exchange of the waiting request, under its identity. */
  lemma RecordedExchange(env: Env, s: System, l: Label, p: string, e: Entry)
    requires SystemOk(env, s) && RecordedInto(env, s, l, p, e)
    ensures s.app.recordings[p] < |s.app.stores|
    ensures e == EntryOf(
              env.codec.hash, Identity(s.app.stores[s.app.recordings[p]].config, s.requests[l.id].request), l.input.reply)
  {
    assert PhaseOk(env, s.app, s.requests[l.id]);
  }

  /** ... and its caller gets the reply marked as stored. */
  lemma RecordedAnswer(env: Env, s: System, l: Label, e: Entry)
    requires RecordedBy(env, s, l, e)
    ensures Step(env, s, l).requests[l.id]
            == Done(Live(LiveResponse(s.requests[l.id].request.verb, l.input.reply, "stored")))
  {
    var p, t := s.requests[l.id], s.requests[l.id].ticket.value;
    assert Advance(env, s.app, p, l.input) == Machine.Recorded(env, s.app, p.request, t, l.input.reply);
  }

  /**
   * Record/replay transparency, over runs of the server. Once a reply has been recorded for a mock,
   * take any run that spares it: other operations and requests at will, patches that keep recordings
   * (switching to replay, changing limits), imports that carry the entry, deletions and evictions.
   * Then a request with the same method, raw target, body and selected headers that arrived in
   * replay mode, in whatever generation, is answered with the unmarked form of the live response -
   * or, if the entry has been evicted or deleted by then, with "not found".
   */
  lemma ReplayServesTheLiveReply(
    env: Env, s: System, l: Label, p: string, e: Entry, headers: seq<string>, after: System, labels: seq<Label>, t: System,
    j: nat, id: nat, r: nat)
    requires SystemOk(env, s) && SoundSchema(env.schema) && GoodLabel(env, l) && RecordedInto(env, s, l, p, e)
    requires StoreAt(s.app, p).Some? && headers == StoreAt(s.app, p).value.config.matchHeaders
    requires after == Step(env, s, l) && t == Run(env, after, labels) && SparingRun(env, after, labels, p, headers, e)
    requires j <= |labels| && p in At(env, after, labels, j).app.recordings && At(env, after, labels, j).app.recordings[p] == id
    requires AwaitsReplay(t, r, id) && SameRequest(headers, s.requests[l.id].request, t.requests[r].request)
    ensures var live := LiveResponse(s.requests[l.id].request.verb, l.input.reply, "stored");
            && l.id in after.requests && after.requests[l.id] == Done(Live(live))
            && AnswersWith(env, t, r, ReplayOf(t, id, e.id, Unmarked(live)))
  {
    var q0, config := s.requests[l.id].request, StoreAt(s.app, p).value.config;
    RecordedExchange(env, s, l, p, e);
    RecordedAnswer(env, s, l, e);
    RecordingIsRemembered(env, s, l, p, e);
    StepOk(env, s, l);
    LineageKeeps(env, after, labels, j, p, headers, e);
    SameKey(env, config, t.app.stores[id].config, q0, t.requests[r].request);
    ReplayIsLive(q0.verb, l.input.reply, "stored");
    ReplayFromMemory(env, after, labels, t, p, headers, e, j, id, r);
  }

  lemma SameKey(env: Env, c: Config, d: Config, q: Request, r: Request)
    requires c.matchHeaders == d.matchHeaders && SameRequest(c.matchHeaders, q, r)
    ensures env.codec.hash(Identity(c, q)) == env.codec.hash(Identity(d, r)) && q.verb == r.verb
  {
    SameIdentityIff(c, q, r);
    SameIdentity(c, d);
  }

  // ---------------------------------------------------------------- through a backup

  /** The export mentions each path once, with what is stored there. */
  lemma ExportedAt(a: App, p: string)
    requires DistinctPaths(a.storage) && MockAt(a.storage, p).Some?
    ensures p in ParsedPaths(AllParsedOf(a, a.storage))
    ensures forall x :: x in AllParsedOf(a, a.storage) && x.mock.path == p ==> x == ParsedOf(a, MockAt(a.storage, p).value)
  {
    MockAtIff(a.storage, p);
    var parsed := AllParsedOf(a, a.storage);
    var i :| 0 <= i < |a.storage| && a.storage[i] == MockAt(a.storage, p).value;
    assert parsed[i] in parsed && parsed[i].mock.path == p;
    forall x | x in parsed && x.mock.path == p
      ensures x == ParsedOf(a, MockAt(a.storage, p).value)
    {
      var k :| 0 <= k < |parsed| && parsed[k] == x;
      MockAtOfMember(a.storage, a.storage[k]);
    }
  }

  /** The export of an application carries whatever its mocks remember. */
  lemma BackupCarries(env: Env, a: App, p: string, headers: seq<string>, e: Entry)
    requires AppOk(env, a) && Remembers(a, p, headers, e)
    ensures Carries(AllParsedOf(a, a.storage), p, headers, e) && p in ParsedPaths(AllParsedOf(a, a.storage))
  {
    assert Agrees(a, p);
    ExportedAt(a, p);
    EntriesOnly(StoreAt(a, p).value.slots, e);
  }

  lemma EntriesOnly(slots: seq<Slot>, e: Entry)
    requires Only(slots, e)
    ensures forall f :: f in Store.Entries(slots) && f.id == e.id ==> f == e
  {
    forall f | f in Store.Entries(slots) && f.id == e.id
      ensures f == e
    {
      var i :| 0 <= i < |slots| && Store.Entries(slots)[i] == f;
      assert slots[i] in slots;
    }
  }

  lemma ExportedIsInstalled(env: Env, a: App, version: string)
    requires AppOk(env, a) && StorageAccepted(env, a) && ExportsImportable(env, a)
    ensures Export(a, version).Some? && Validated(env, Export(a, version).value).Some?
    ensures Installed(env, Export(a, version).value) == AllParsedOf(a, a.storage)
    ensures AllReady(env, AllParsedOf(a, a.storage))
  {
    ImportOfExport(env, a, version, a, true);
    ImportInstalls(env, a, Export(a, version).value, true);
  }

  /** Importing that export anywhere, in either mode, makes the mock there remember the same. */
  lemma RestoredRemembers(
    env: Env, a: App, version: string, target: App, replace: bool, p: string, headers: seq<string>, e: Entry)
    requires AppOk(env, a) && StorageAccepted(env, a) && ExportsImportable(env, a) && Remembers(a, p, headers, e)
    requires AppOk(env, target)
    ensures Export(a, version).Some?
    ensures Remembers(Import(env, target, Export(a, version).value, replace).0, p, headers, e)
  {
    BackupCarries(env, a, p, headers, e);
    ImportOfExport(env, a, version, target, replace);
    StartOk(env, target, replace);
    InstalledRemembers(env, StartOf(target, replace), AllParsedOf(a, a.storage), p, headers, e);
  }

  /** So an import of an export that remembers the entry spares the mock. */
  lemma BackupSpares(env: Env, a: App, version: string, s: System, replace: bool, p: string, headers: seq<string>, e: Entry)
    requires AppOk(env, a) && StorageAccepted(env, a) && ExportsImportable(env, a) && Remembers(a, p, headers, e)
    ensures Export(a, version).Some? && GoodLabel(env, ImportSnapshot(Export(a, version).value, replace))
    ensures Spares(env, s, ImportSnapshot(Export(a, version).value, replace), p, headers, e)
  {
    ExportedIsInstalled(env, a, version);
    BackupCarries(env, a, p, headers, e);
  }

  /** From any state in which a mock remembers an entry, requests of its identity are answered with it. */
  lemma ReplayFromMemory(
    env: Env, s: System, labels: seq<Label>, t: System, p: string, headers: seq<string>, e: Entry, j: nat, id: nat, r: nat)
    requires j <= |labels| && p in At(env, s, labels, j).app.recordings && At(env, s, labels, j).app.recordings[p] == id
    requires AwaitsReplay(t, r, id) && Decode(e.response.bodyB64).Some?
    requires e.id == env.codec.hash(Identity(t.app.stores[id].config, t.requests[r].request))
    requires t == Run(env, s, labels) && SparingRun(env, s, labels, p, headers, e)
    requires SystemOk(env, s) && SoundSchema(env.schema) && Remembers(s.app, p, headers, e)
    ensures AnswersWith(env, t, r, ReplayOf(t, id, e.id, ReplayedResponse(e.response, t.requests[r].request.verb)))
  {
    LineageKeeps(env, s, labels, j, p, headers, e);
    ReplayAnswers(env, t, r, id, p, headers, e);
  }

  /**
   * Replay through backup and restore: what a mock remembers when it is exported answers requests of
   * the same identity on any server that has imported the export, through every run that spares the
   * mock there.
   */
  lemma ReplayAfterRestore(
    env: Env, a: App, version: string, s: System, l: Label, p: string, headers: seq<string>, e: Entry,
    labels: seq<Label>, t: System, j: nat, id: nat, r: nat)
    requires l.ImportSnapshot? && j <= |labels| && AwaitsReplay(t, r, id) && Decode(e.response.bodyB64).Some?
    requires var owners := At(env, Step(env, s, l), labels, j).app.recordings; p in owners && owners[p] == id
    requires e.id == env.codec.hash(Identity(t.app.stores[id].config, t.requests[r].request))
    requires t == Run(env, Step(env, s, l), labels) && SparingRun(env, Step(env, s, l), labels, p, headers, e)
    requires Exportable(env, a) && Remembers(a, p, headers, e) && Export(a, version) == Some(l.doc)
    requires SystemOk(env, s) && SoundSchema(env.schema)
    ensures AnswersWith(env, t, r, ReplayOf(t, id, e.id, ReplayedResponse(e.response, t.requests[r].request.verb)))
  {
    RestoredRemembers(env, a, version, s.app, l.replace, p, headers, e);
    BackupSpares(env, a, version, s, l.replace, p, headers, e);
    AdminOnly(env, s, l);
    StepOk(env, s, l);
    ReplayFromMemory(env, Step(env, s, l), labels, t, p, headers, e, j, id, r);
  }
}
