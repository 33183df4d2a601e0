/**
 * How administrative requests end (proxy_mock/api/routes/admin.py), said of the request and of what
 * the server holds: which of them are refused, which find nothing, and what the others do.
 */
module Outcomes {
  import opened Wrappers
  import opened Json
  import opened Paths
  import opened Store
  import opened Mocks
  import opened Sequences
  import opened Lifecycle
  import opened Admin

  /** A body that gives a path gives one that means the path of the request. */
  predicate Agreeing(body: Object, raw: string) {
    "path" in body ==> body["path"].Str? && Normalize(body["path"].text) == Normalize(raw)
  }

  predicate Stored(a: App, path: string) {
    exists m :: m in a.storage && m.path == path
  }

  /** The path compiles and is neither the prefix of the administration nor under it. */
  ghost predicate MayBeMocked(env: Env, path: string) {
    && Normalize(path).Some?
    && var p := Normalize(path).value;
       env.compiles(p) && p != env.prefix && forall rest :: p != env.prefix + "/" + rest
  }

  lemma MountIff(env: Env, path: string)
    ensures ValidatePath(env.prefix, env.compiles, path).Some? <==> MayBeMocked(env, path)
  {
    if Normalize(path).Some? {
      ValidateIff(env.prefix, env.compiles, path, Normalize(path).value);
    }
  }

  /**
   * `PUT /mocks`: refused unless the body agrees with the path of the request, is a configuration under
   * it, and the path may be mocked; it fails late if only what the path normalizes to may not be.
   */
  lemma PutOutcomeIff(env: Env, a: App, raw: string, body: Object)
    ensures Normalize(raw).None? ==> PutMock(env, a, raw, body) == (a, Invalid)
    ensures Normalize(raw).Some? ==>
              var identity := Normalize(raw).value;
              PutMock(env, a, raw, body).1 ==
              if !Agreeing(body, raw) || env.schema(body["path" := Str(identity)]).None? || !MayBeMocked(env, identity) then Invalid
              else if !MayBeMocked(env, Renormalize(identity)) then Crashed
              else if Stored(a, Renormalize(identity)) then Success
              else Created
  {
    if Normalize(raw).Some? {
      var identity := Normalize(raw).value;
      MountIff(env, identity);
      MountIff(env, Renormalize(identity));
      MockAtIff(a.storage, Renormalize(identity));
    }
  }

  /** A configuration that the patch asks for, field by field, is a valid one. */
  ghost predicate AsksForValid(env: Env, saved: Mock, changes: Object) {
    exists after :: Patches(Dump(saved), changes, after) && env.schema(after).Some?
  }

  lemma MergedIff(env: Env, saved: Mock, changes: Object)
    ensures Merged(env, saved, changes).Some? <==> AsksForValid(env, saved, changes)
  {
    var fields := MergedFields(Dump(saved), changes);
    if fields.Some? {
      MergeIff(Dump(saved), changes, fields.value);
    }
    if after :| Patches(Dump(saved), changes, after) && env.schema(after).Some? {
      MergeIff(Dump(saved), changes, after);
    }
  }

  /** `PATCH /mocks`: it never fails late, and finds only what is stored. */
  lemma PatchOutcome(env: Env, a: App, raw: string, changes: Object)
    requires AppOk(env, a)
    ensures Normalize(raw).None? ==> PatchMock(env, a, raw, changes) == (a, Invalid)
    ensures Normalize(raw).Some? ==>
              var identity := Normalize(raw).value;
              && (PatchMock(env, a, raw, changes).1 in {Success, NotFound, Invalid})
              && (PatchMock(env, a, raw, changes).1.NotFound? <==> Agreeing(changes, raw) && !Stored(a, Renormalize(identity)))
              && (PatchMock(env, a, raw, changes).1.Success? <==>
                    && Agreeing(changes, raw)
                    && exists m :: m in a.storage && m.path == Renormalize(identity)
                                   && AsksForValid(env, m, changes["path" := Str(identity)]))
  {
    PatchOutcomeIff(env, a, raw, changes);
    if Normalize(raw).Some? {
      var identity := Normalize(raw).value;
      MockAtIff(a.storage, Renormalize(identity));
      var saved := MockAt(a.storage, Renormalize(identity));
      if saved.Some? {
        MergedIff(env, saved.value, changes["path" := Str(identity)]);
        TheOnlyOne(a.storage, saved.value);
      }
    }
  }

  lemma TheOnlyOne(storage: seq<Mock>, saved: Mock)
    requires DistinctPaths(storage) && saved in storage
    ensures forall m :: m in storage && m.path == saved.path ==> m == saved
  {
    MockAtOfMember(storage, saved);
    forall m | m in storage && m.path == saved.path
      ensures m == saved
    {
      MockAtOfMember(storage, m);
    }
  }

  /** `DELETE /mocks`: it succeeds exactly for stored mocks. */
  lemma DeleteOutcome(a: App, raw: string)
    ensures DeleteMock(a, raw).1 ==
            if Normalize(raw).None? then Invalid
            else if Stored(a, Renormalize(Normalize(raw).value)) then Success else NotFound
  {
    if Normalize(raw).Some? {
      MockAtIff(a.storage, Renormalize(Normalize(raw).value));
    }
  }

  /** A mock with this path records. */
  predicate Records(a: App, path: string) {
    exists m :: m in a.storage && m.path == path && m.recording.Some?
  }

  predicate HoldsRecording(a: App, path: string, key: string) {
    && path in a.recordings && a.recordings[path] < |a.stores|
    && exists x :: x in a.stores[a.recordings[path]].slots && x.entry.id == key
  }

  lemma RecordsIff(env: Env, a: App, path: string)
    requires AppOk(env, a)
    ensures Records(a, path) <==> StoreAt(a, path).Some?
  {
    MockAtIff(a.storage, path);
    if MockAt(a.storage, path).Some? {
      TheOnlyOne(a.storage, MockAt(a.storage, path).value);
      assert Agrees(a, path);
    }
    assert path in a.recordings ==> Agrees(a, path);
  }

  lemma HoldsIff(a: App, path: string, key: string)
    requires StoreAt(a, path).Some?
    ensures HoldsRecording(a, path, key) <==> DeletionSucceeds(StoreAt(a, path).value, Some(key))
  {
    HasKeyIff(StoreAt(a, path).value.slots, key);
  }

  lemma DeletionStatus(a: App, raw: string, key: Option<string>)
    requires Normalize(raw).Some?
    ensures var store := StoreAt(a, Normalize(raw).value);
            DeleteRecordings(a, raw, key).1 ==
            if store.Some? && DeletionSucceeds(store.value, key) then Success else NotFound
  {
  }

  /** `DELETE /recordings`: all of them for any mock that records, one only if it is held. */
  lemma DeleteRecordingsOutcome(env: Env, a: App, raw: string, key: Option<string>)
    requires AppOk(env, a)
    ensures Normalize(raw).None? ==> DeleteRecordings(a, raw, key) == (a, Invalid)
    ensures Normalize(raw).Some? ==>
              var p := Normalize(raw).value;
              DeleteRecordings(a, raw, key).1 ==
              if Records(a, p) && (key.None? || HoldsRecording(a, p, key.value)) then Success else NotFound
  {
    if Normalize(raw).Some? {
      var p := Normalize(raw).value;
      DeletionStatus(a, raw, key);
      RecordsIff(env, a, p);
      if StoreAt(a, p).Some? && key.Some? {
        HoldsIff(a, p, key.value);
      }
    }
  }

  /** The mock itself, or one of its rules, answers with a sequence. */
  predicate HasSequence(m: Mock, key: Key) {
    match key
    case Default => m.sequence.Some?
    case OfRule(i) => m.rules.Some? && i < |m.rules.value| && m.rules.value[i].sequence.Some?
  }

  /** All cursors stay but one, which starts again. */
  predicate Restarts(before: seq<Cursor>, after: seq<Cursor>, id: nat) {
    && |after| == |before| && id < |before|
    && (forall i :: 0 <= i < |before| && i != id ==> after[i] == before[i])
    && after[id].position == 0 && after[id].sequence == before[id].sequence
  }

  predicate Sequenced(a: App, path: string, key: Key) {
    exists m :: m in a.storage && m.path == path && HasSequence(m, key)
  }

  lemma CursorIff(a: App, path: string, key: Key, m: Mock)
    requires Agrees(a, path) && MockAt(a.storage, path) == Some(m)
    ensures HasSequence(m, key) <==>
            path in a.sequences && key in a.sequences[path] && a.sequences[path][key] < |a.cursors|
  {
    assert CursorsAgree(a, m, a.sequences[path]);
  }

  lemma SequencedIff(env: Env, a: App, path: string, key: Key)
    requires AppOk(env, a)
    ensures Sequenced(a, path, key) <==>
            path in a.sequences && key in a.sequences[path] && a.sequences[path][key] < |a.cursors|
  {
    MockAtIff(a.storage, path);
    var m := MockAt(a.storage, path);
    if m.Some? {
      TheOnlyOne(a.storage, m.value);
      CursorIff(a, path, key, m.value);
    }
  }

  /** `PATCH /sequence-state`: it succeeds exactly for a configured sequence, and restarts only its cursor. */
  lemma ResetOutcome(env: Env, a: App, raw: string, key: Key)
    requires AppOk(env, a)
    ensures Normalize(raw).None? ==> ResetSequence(a, raw, key) == (a, Invalid)
    ensures Normalize(raw).Some? ==>
              var p := Normalize(raw).value;
              var (b, status) := ResetSequence(a, raw, key);
              && status == (if Sequenced(a, p, key) then Success else NotFound)
              && (status.NotFound? ==> b == a)
              && (status.Success? ==>
                    && p in a.sequences && key in a.sequences[p]
                    && b == a.(cursors := b.cursors) && Restarts(a.cursors, b.cursors, a.sequences[p][key]))
  {
    if Normalize(raw).Some? {
      SequencedIff(env, a, Normalize(raw).value, key);
    }
  }
}
