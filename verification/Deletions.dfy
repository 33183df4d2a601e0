/**
 * Deleted recordings stay deleted, across every generation of a mock: whatever an owned store holds
 * was installed for this mock by an import after the last deletion of its key, or was saved by a
 * request that began to identify after that deletion.
 */
module Deletions {
  import opened Wrappers
  import opened Json
  import opened Paths
  import opened Recordings
  import opened Store
  import opened Mocks
  import opened Sequences
  import opened Lifecycle
  import opened LifecycleProofs
  import opened Admin
  import opened AdminEffects
  import opened Snapshot
  import opened SnapshotProofs
  import opened Machine
  import opened LateWrites
  import opened CursorRuns
  import opened Reachable
  import opened Provenance
  import opened StoreHistory
  import opened StoreProjection

  /** The mock at a path owns a store that holds the entry. */
  predicate OwnerHolds(a: App, p: string, e: Entry) {
    StoreAt(a, p).Some? && HeldBy(StoreAt(a, p).value, e)
  }

  /** The label deletes recordings of the mock at a path, and succeeds. */
  predicate DeletesFrom(s: System, l: Label, p: string) {
    l.DeleteRecording? && Normalize(l.raw).Some? && Normalize(l.raw).value == p
    && StoreAt(s.app, p).Some? && DeletionSucceeds(StoreAt(s.app, p).value, l.key)
  }

  /** ... and the given key is among them. */
  predicate DeletesKeyFrom(s: System, l: Label, p: string, key: string) {
    DeletesFrom(s, l, p) && (l.key.None? || l.key.value == key)
  }

  /** The label saves the entry into the store that the path owns. */
  predicate RecordedInto(env: Env, s: System, l: Label, p: string, e: Entry) {
    && RecordedBy(env, s, l, e)
    && p in s.app.recordings && s.requests[l.id].ticket.value.store == s.app.recordings[p]
  }

  // ---------------------------------------------------------------- one step

  lemma NewStoreHeld(codec: Codec, config: Config, prior: Option<StoreState>, imported: Option<seq<Entry>>, e: Entry)
    requires HeldBy(NewStore(codec, config, prior, imported), e)
    ensures if imported.Some? then e in imported.value else prior.Some? && HeldBy(prior.value, e)
  {
    NewStoreHolds(codec, config, prior, imported, e);
  }

  /** What the mocks hold after a new generation at one path. */
  lemma GenerationHeld(
    env: Env, a: App, m: Mock, preserve: set<Key>, keepRecordings: bool, imported: Option<seq<Entry>>, p: string, e: Entry)
    requires AppOk(env, a) && Settled(m.path)
    requires OwnerHolds(Generation(env, a, m, preserve, keepRecordings, imported), p, e)
    ensures OwnerHolds(a, p, e) || (p == m.path && imported.Some? && e in imported.value)
    ensures p == m.path && !keepRecordings ==> imported.Some? && e in imported.value
  {
    if p == m.path {
      OwnGeneration(env, a, m, preserve, keepRecordings, imported);
      NewStoreHeld(env.codec, m.recording.value, if keepRecordings then StoreAt(a, p) else None, imported, e);
    } else {
      GenerationElsewhere(env, a, m, preserve, keepRecordings, imported, p);
    }
  }

  lemma GenerationElsewhere(
    env: Env, a: App, m: Mock, preserve: set<Key>, keepRecordings: bool, imported: Option<seq<Entry>>, p: string)
    requires AppOk(env, a) && Settled(m.path) && p != m.path
    ensures StoreAt(Generation(env, a, m, preserve, keepRecordings, imported), p) == StoreAt(a, p)
  {
    SettledFacts(m.path);
    StoredIsThere(env, a, p);
    StoreElsewhere(env, a, m, preserve, keepRecordings, imported, p);
  }

  /** The entry comes with one of the mocks, which is installed at the path. */
  predicate BringsTo(parsed: seq<Parsed>, p: string, e: Entry) {
    exists x :: x in parsed && x.mock.path == p && x.entries.Some? && e in x.entries.value
  }

  /** The label imports the entry for the mock at the path. */
  predicate ImportedInto(env: Env, l: Label, p: string, e: Entry) {
    l.ImportSnapshot? && BringsTo(Installed(env, l.doc), p, e)
  }

  lemma {:induction false} InstallAllOwnerHolds(env: Env, a: App, parsed: seq<Parsed>, p: string, e: Entry)
    requires AppOk(env, a) && AllReady(env, parsed) && OwnerHolds(InstallAll(env, a, parsed), p, e)
    ensures OwnerHolds(a, p, e) || BringsTo(parsed, p, e)
    decreases |parsed|
  {
    if parsed != [] {
      ReadyParts(env, parsed);
      var first := parsed[0];
      assert forall x :: x in parsed[1..] ==> x in parsed;
      NextOk(env, a, first);
      InstallAllOwnerHolds(env, Next(env, a, first), parsed[1..], p, e);
      if OwnerHolds(Next(env, a, first), p, e) {
        GenerationHeld(env, a, first.mock, {}, false, first.entries, p, e);
      }
    }
  }

  lemma ImportOwnerHolds(env: Env, a: App, doc: Document, replace: bool, p: string, e: Entry)
    requires AppOk(env, a) && SoundSchema(env.schema) && GoodDocument(env, doc)
    requires OwnerHolds(Import(env, a, doc, replace).0, p, e)
    ensures OwnerHolds(a, p, e) || BringsTo(Installed(env, doc), p, e)
  {
    ImportInstalls(env, a, doc, replace);
    InstalledWell(env, doc);
    if Validated(env, doc).Some? {
      CleanupOk(env, a);
      InstallAllOwnerHolds(env, StartOf(a, replace), Installed(env, doc), p, e);
    }
  }

  lemma PutOwnerHolds(env: Env, a: App, raw: string, body: Object, p: string, e: Entry)
    requires AppOk(env, a) && SoundSchema(env.schema) && GoodPut(env, raw, body)
    requires OwnerHolds(PutMock(env, a, raw, body).0, p, e)
    ensures OwnerHolds(a, p, e)
  {
    PutEffect(env, a, raw, body);
    if PutSucceeds(env, raw, body) {
      GenerationHeld(env, a, Submitted(env, raw, body), {}, false, None, p, e);
    }
  }

  lemma PatchOwnerHolds(env: Env, a: App, raw: string, changes: Object, p: string, e: Entry)
    requires AppOk(env, a) && SoundSchema(env.schema)
    requires OwnerHolds(PatchMock(env, a, raw, changes).0, p, e)
    ensures OwnerHolds(a, p, e)
  {
    PatchEffect(env, a, raw, changes);
    if PatchMock(env, a, raw, changes).1.Success? {
      var saved, mock := MockAt(a.storage, Addressed(raw)).value, Patched(env, a, raw, changes);
      GenerationHeld(env, a, mock, PreservedKeys(changes, mock), KeepsRecordings(saved, mock), None, p, e);
    }
  }

  lemma DeleteOwnerHolds(env: Env, a: App, raw: string, p: string, e: Entry)
    requires AppOk(env, a) && OwnerHolds(DeleteMock(a, raw).0, p, e)
    ensures OwnerHolds(a, p, e)
  {
    if DeleteMock(a, raw).1.Success? {
      DeleteEffect(env, a, raw);
      RemoveFrame(a, Addressed(raw));
    }
  }

  /** Deleting recordings of one mock leaves no deleted entry behind, and touches no other mock. */
  lemma DeletionOwnerHolds(env: Env, s: System, l: Label, p: string, e: Entry)
    requires AppOk(env, s.app) && l.DeleteRecording? && OwnerHolds(DeleteRecordings(s.app, l.raw, l.key).0, p, e)
    ensures OwnerHolds(s.app, p, e) && !DeletesKeyFrom(s, l, p, e.id)
  {
    var a, b := s.app, DeleteRecordings(s.app, l.raw, l.key).0;
    if b != a {
      var q: string := Normalize(l.raw).value;
      assert Agrees(a, p) && Agrees(a, q);
      if l.key.Some? {
        WithoutShape(StoreAt(a, q).value.slots, l.key.value);
      }
      assert p != q ==> a.recordings[p] != a.recordings[q];
    }
  }

  lemma SavedHolds(st: StoreState, slot: Slot, revision: nat, e: Entry)
    requires HeldBy(Saved(st, slot, revision), e)
    ensures HeldBy(st, e) || (e == slot.entry && SaveOutcome(st, slot.size, revision).Stored?)
  {
    SavedSlots(st, slot, revision);
  }

  lemma SavedIntoOwn(env: Env, s: System, l: Label, p: string)
    requires TicketsOk(env, s) && p in s.app.recordings && SavesTo(s, l, s.app.recordings[p])
    requires s.app.recordings[p] < |s.app.stores|
    requires var slot := SlotOf(env, s, l, s.app.recordings[p]);
             SaveOutcome(s.app.stores[s.app.recordings[p]], slot.size, s.requests[l.id].ticket.value.revision).Stored?
    ensures RecordedInto(env, s, l, p, SlotOf(env, s, l, s.app.recordings[p]).entry)
  {
  }

  lemma StoreOfAfterResume(env: Env, s: System, l: Label, p: string)
    requires SystemOk(env, s) && l.Resume? && l.id in s.requests && StoreAt(Step(env, s, l).app, p).Some?
    ensures p in s.app.recordings && s.app.recordings[p] < |s.app.stores|
    ensures StoreAt(Step(env, s, l).app, p).value ==
            if SavesTo(s, l, s.app.recordings[p])
            then Saved(
              s.app.stores[s.app.recordings[p]], SlotOf(env, s, l, s.app.recordings[p]),
              s.requests[l.id].ticket.value.revision)
            else s.app.stores[s.app.recordings[p]]
  {
    StepReserves(env, s.app, s.requests[l.id], l.input);
    assert Agrees(s.app, p);
    StoreAfterResume(env, s, l, s.app.recordings[p]);
  }

  lemma HeldAfterSave(env: Env, s: System, l: Label, p: string, after: StoreState, e: Entry)
    requires TicketsOk(env, s) && l.Resume? && StoreAt(s.app, p).Some? && HeldBy(after, e)
    requires var id := s.app.recordings[p];
             after == if SavesTo(s, l, id)
                      then Saved(s.app.stores[id], SlotOf(env, s, l, id), s.requests[l.id].ticket.value.revision)
                      else s.app.stores[id]
    ensures OwnerHolds(s.app, p, e) || RecordedInto(env, s, l, p, e)
  {
    var id := s.app.recordings[p];
    if SavesTo(s, l, id) && !HeldBy(s.app.stores[id], e) {
      SavedHolds(s.app.stores[id], SlotOf(env, s, l, id), s.requests[l.id].ticket.value.revision, e);
      SavedIntoOwn(env, s, l, p);
    }
  }

  lemma SaveOwnerHolds(env: Env, s: System, l: Label, p: string, e: Entry)
    requires SystemOk(env, s) && l.Resume? && l.id in s.requests && OwnerHolds(Step(env, s, l).app, p, e)
    ensures OwnerHolds(s.app, p, e) || RecordedInto(env, s, l, p, e)
  {
    StoreOfAfterResume(env, s, l, p);
    HeldAfterSave(env, s, l, p, StoreAt(Step(env, s, l).app, p).value, e);
  }

  /** Every owned entry was owned before the step and not deleted by it, or was saved or imported by it. */
  lemma OwnedEntryOrigin(env: Env, s: System, l: Label, p: string, e: Entry)
    requires SystemOk(env, s) && SoundSchema(env.schema) && GoodLabel(env, l) && OwnerHolds(Step(env, s, l).app, p, e)
    ensures || (OwnerHolds(s.app, p, e) && !DeletesKeyFrom(s, l, p, e.id))
            || RecordedInto(env, s, l, p, e) || ImportedInto(env, l, p, e)
  {
    if IsAdmin(l) {
      AdminOnly(env, s, l);
      AdminOwnerHolds(env, s, l, p, e);
    } else if l.Resume? && l.id in s.requests {
      SaveOwnerHolds(env, s, l, p, e);
    }
  }

  lemma AdminOwnerHolds(env: Env, s: System, l: Label, p: string, e: Entry)
    requires AppOk(env, s.app) && SoundSchema(env.schema) && GoodLabel(env, l) && IsAdmin(l)
    requires OwnerHolds(AdminStep(env, s.app, l), p, e)
    ensures (OwnerHolds(s.app, p, e) && !DeletesKeyFrom(s, l, p, e.id)) || ImportedInto(env, l, p, e)
  {
    var a := s.app;
    match l
    case Put(raw, body) => PutOwnerHolds(env, a, raw, body, p, e);
    case Patch(raw, changes) => PatchOwnerHolds(env, a, raw, changes, p, e);
    case Delete(raw) => DeleteOwnerHolds(env, a, raw, p, e);
    case Clear => CleanupOk(env, a);
    case ImportSnapshot(doc, replace) => ImportOwnerHolds(env, a, doc, replace, p, e);
    case DeleteRecording(_, _) => DeletionOwnerHolds(env, s, l, p, e);
    case ResetCursor(_, _) =>
  }

  // ---------------------------------------------------------------- whole runs

  /** No step from `i` on deletes the key from the mock at the path. */
  predicate NotDeletedSince(env: Env, labels: seq<Label>, i: nat, p: string, key: string) {
    forall n :: i <= n < |labels| ==> !DeletesKeyFrom(At(env, INITIAL, labels, n), labels[n], p, key)
  }

  /**
   * The entry was saved in step `m` for a request that began to identify in step `i`, on the store
   * the path owned all the while; nothing was deleted from the mock between the two, nor the key
   * after them.
   */
  predicate RecordedSince(env: Env, labels: seq<Label>, p: string, e: Entry, i: nat, m: nat) {
    && i < m < |labels| && RecordedInto(env, At(env, INITIAL, labels, m), labels[m], p, e)
    && Identifies(At(env, INITIAL, labels, i), labels[i], labels[m].id, At(env, INITIAL, labels, m).app.recordings[p])
    && (forall n :: i <= n < m ==> !DeletesFrom(At(env, INITIAL, labels, n), labels[n], p))
    && NotDeletedSince(env, labels, i, p, e.id)
  }

  predicate ImportedSince(env: Env, labels: seq<Label>, p: string, e: Entry, m: nat) {
    m < |labels| && ImportedInto(env, labels[m], p, e) && NotDeletedSince(env, labels, m, p, e.id)
  }

  ghost predicate Accounted(env: Env, labels: seq<Label>, p: string, e: Entry) {
    (exists m: nat :: ImportedSince(env, labels, p, e, m)) || (exists i: nat, m: nat :: RecordedSince(env, labels, p, e, i, m))
  }

  /** A save that counts was identified after every earlier deletion from its mock. */
  lemma SavedIsUndeleted(env: Env, labels: seq<Label>, n: nat, p: string, e: Entry) returns (i: nat)
    requires n < |labels| && RecordedInto(env, At(env, INITIAL, labels, n), labels[n], p, e)
    ensures i < n
    ensures Identifies(At(env, INITIAL, labels, i), labels[i], labels[n].id, At(env, INITIAL, labels, n).app.recordings[p])
    ensures forall k :: i <= k < n ==> !DeletesFrom(At(env, INITIAL, labels, k), labels[k], p)
  {
    var r := labels[n].id;
    i := CaptureOrigin(env, labels, n, r);
    var id := At(env, INITIAL, labels, n).app.recordings[p];
    forall k | i <= k < n
      ensures !DeletesFrom(At(env, INITIAL, labels, k), labels[k], p)
    {
      if DeletesFrom(At(env, INITIAL, labels, k), labels[k], p) {
        RevisionMoves(env, labels, i, k, n, p, id);
      }
    }
  }

  /** A deletion from the mock at a path moves the revision of the store it owns, for good. */
  lemma RevisionMoves(env: Env, labels: seq<Label>, i: nat, k: nat, n: nat, p: string, id: nat)
    requires i <= k < n <= |labels| && DeletesFrom(At(env, INITIAL, labels, k), labels[k], p)
    requires id < |At(env, INITIAL, labels, i).app.stores|
    requires p in At(env, INITIAL, labels, n).app.recordings && At(env, INITIAL, labels, n).app.recordings[p] == id
    ensures id < |At(env, INITIAL, labels, n).app.stores|
    ensures At(env, INITIAL, labels, i).app.stores[id].revision < At(env, INITIAL, labels, n).app.stores[id].revision
  {
    RunLater(env, INITIAL, labels, i, k);
    OwnedSince(env, INITIAL, labels, k, n, p);
    DeletionMoves(env, At(env, INITIAL, labels, k), labels[k], p);
    AtNext(env, INITIAL, labels, k);
    RunLater(env, INITIAL, labels, k + 1, n);
  }

  lemma DeletionMoves(env: Env, s: System, l: Label, p: string)
    requires DeletesFrom(s, l, p)
    ensures p in s.app.recordings && s.app.recordings[p] < |s.app.stores| <= |Step(env, s, l).app.stores|
    ensures s.app.stores[s.app.recordings[p]].revision < Step(env, s, l).app.stores[s.app.recordings[p]].revision
  {
  }

  lemma UndeletedNow(env: Env, labels: seq<Label>, i: nat, p: string, key: string)
    requires i < |labels| && labels[|labels| - 1].Resume?
    requires forall k :: i <= k < |labels| - 1 ==> !DeletesFrom(At(env, INITIAL, labels, k), labels[k], p)
    ensures NotDeletedSince(env, labels, i, p, key)
  {
    forall k | i <= k < |labels|
      ensures !DeletesKeyFrom(At(env, INITIAL, labels, k), labels[k], p, key)
    {
      assert k < |labels| - 1 ==> !DeletesFrom(At(env, INITIAL, labels, k), labels[k], p);
    }
  }

  lemma JustRecorded(env: Env, labels: seq<Label>, p: string, e: Entry) returns (i: nat)
    requires labels != [] && RecordedInto(env, At(env, INITIAL, labels, |labels| - 1), labels[|labels| - 1], p, e)
    ensures RecordedSince(env, labels, p, e, i, |labels| - 1)
  {
    i := SavedIsUndeleted(env, labels, |labels| - 1, p, e);
    UndeletedNow(env, labels, i, p, e.id);
  }

  lemma JustImported(env: Env, labels: seq<Label>, p: string, e: Entry)
    requires labels != [] && ImportedInto(env, labels[|labels| - 1], p, e)
    ensures ImportedSince(env, labels, p, e, |labels| - 1)
  {
  }

  /**
   * No entry that a mock owns was identified before the last deletion of its key. In every run of
   * the server, through every handover between generations, each entry of an owned store was saved
   * for a request that began to identify after every deletion of that key from the mock, with no
   * deletion at all between its identification and its save - or an accepted import installed it for
   * this mock after them.
   */
  lemma {:induction false} DeletedStaysDeleted(env: Env, labels: seq<Label>, p: string, e: Entry)
    requires SoundSchema(env.schema) && forall l :: l in labels ==> GoodLabel(env, l)
    requires OwnerHolds(Run(env, INITIAL, labels).app, p, e)
    ensures Accounted(env, labels, p, e)
  {
    var n := |labels| - 1;
    assert labels != [];
    var before := labels[..n];
    assert labels[n] in labels && forall l :: l in before ==> l in labels;
    InitialOk(env);
    RunOk(env, INITIAL, before);
    OwnedEntryOrigin(env, Run(env, INITIAL, before), labels[n], p, e);
    if OwnerHolds(Run(env, INITIAL, before).app, p, e) && !DeletesKeyFrom(Run(env, INITIAL, before), labels[n], p, e.id) {
      DeletedStaysDeleted(env, before, p, e);
      AccountedLonger(env, labels, p, e);
    } else if ImportedInto(env, labels[n], p, e) {
      JustImported(env, labels, p, e);
    } else {
      var i := JustRecorded(env, labels, p, e);
    }
  }

  lemma SamePrefix(env: Env, labels: seq<Label>, k: nat)
    requires k < |labels|
    ensures At(env, INITIAL, labels[..|labels| - 1], k) == At(env, INITIAL, labels, k)
    ensures k < |labels| - 1 ==> labels[..|labels| - 1][k] == labels[k]
  {
    assert labels[..|labels| - 1][..k] == labels[..k];
  }

  lemma ImportedLonger(env: Env, labels: seq<Label>, p: string, e: Entry, m: nat)
    requires labels != [] && ImportedSince(env, labels[..|labels| - 1], p, e, m)
    requires !DeletesKeyFrom(At(env, INITIAL, labels, |labels| - 1), labels[|labels| - 1], p, e.id)
    ensures ImportedSince(env, labels, p, e, m)
  {
    LongerUndeleted(env, labels, m, p, e.id);
  }

  lemma RecordedLonger(env: Env, labels: seq<Label>, p: string, e: Entry, i: nat, m: nat)
    requires labels != [] && RecordedSince(env, labels[..|labels| - 1], p, e, i, m)
    requires !DeletesKeyFrom(At(env, INITIAL, labels, |labels| - 1), labels[|labels| - 1], p, e.id)
    ensures RecordedSince(env, labels, p, e, i, m)
  {
    var before := labels[..|labels| - 1];
    LongerUndeleted(env, labels, i, p, e.id);
    SamePrefix(env, labels, i);
    SamePrefix(env, labels, m);
    forall n | i <= n < m
      ensures !DeletesFrom(At(env, INITIAL, labels, n), labels[n], p)
    {
      SamePrefix(env, labels, n);
      assert !DeletesFrom(At(env, INITIAL, before, n), before[n], p);
    }
  }

  lemma AccountedLonger(env: Env, labels: seq<Label>, p: string, e: Entry)
    requires labels != [] && Accounted(env, labels[..|labels| - 1], p, e)
    requires !DeletesKeyFrom(At(env, INITIAL, labels, |labels| - 1), labels[|labels| - 1], p, e.id)
    ensures Accounted(env, labels, p, e)
  {
    var before := labels[..|labels| - 1];
    if m: nat :| ImportedSince(env, before, p, e, m) {
      ImportedLonger(env, labels, p, e, m);
    } else {
      var i: nat, m: nat :| RecordedSince(env, before, p, e, i, m);
      RecordedLonger(env, labels, p, e, i, m);
    }
  }

  lemma LongerUndeleted(env: Env, labels: seq<Label>, i: nat, p: string, key: string)
    requires labels != [] && NotDeletedSince(env, labels[..|labels| - 1], i, p, key)
    requires !DeletesKeyFrom(At(env, INITIAL, labels, |labels| - 1), labels[|labels| - 1], p, key)
    ensures NotDeletedSince(env, labels, i, p, key)
  {
    var before := labels[..|labels| - 1];
    forall n | i <= n < |labels|
      ensures !DeletesKeyFrom(At(env, INITIAL, labels, n), labels[n], p, key)
    {
      if n < |before| {
        assert before[..n] == labels[..n];
        assert !DeletesKeyFrom(At(env, INITIAL, before, n), before[n], p, key);
      }
    }
  }
}
