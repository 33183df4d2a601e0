/**
 * The administrative handlers (proxy_mock/api/routes/admin.py) and the snapshot import
 * (proxy_mock/services/snapshot.py) on a running application. Each is proved to do to the objects
 * what the function of the same name does to the value, and to answer alike.
 */
module AdminHandlers {
  import opened Wrappers
  import opened Json
  import opened Paths
  import opened Mocks
  import opened Sequences
  import opened Lifecycle
  import Admin
  import SnapshotCodec
  import opened Snapshot
  import SnapshotProofs
  import opened Runtime

  type Status = Admin.Status

  method PutMock(app: MockApp, raw: string, body: Object) returns (status: Status)
    requires app.Valid() && SoundSchema(app.env.schema)
    modifies app, app.storeHeap
    ensures app.Valid() && old(app.cursorHeap) <= app.cursorHeap && old(app.storeHeap) <= app.storeHeap
    ensures forall j :: |old(app.cursorHeap)| <= j < |app.cursorHeap| ==> fresh(app.cursorHeap[j])
    ensures forall j :: |old(app.storeHeap)| <= j < |app.storeHeap| ==> fresh(app.storeHeap[j])
    ensures (app.View(), status) == Admin.PutMock(app.env, old(app.View()), raw, body)
  {
    var identity := Normalize(raw);
    if identity.None? || !Admin.NamesPath(body, identity.value) {
      return Admin.Invalid;
    }
    var m := app.env.schema(Admin.WithPath(body, identity.value));
    var valid := ValidatePath(app.env.prefix, app.env.compiles, identity.value);
    if m.None? || valid.None? {
      return Admin.Invalid;
    }
    var existed := MockAt(app.storage, Renormalize(identity.value)).Some?;
    ValidWithPath(m.value, valid.value);
    var ok := app.MockInitialization(m.value.(path := valid.value), {}, false, None);
    return if !ok then Admin.Crashed else if existed then Admin.Success else Admin.Created;
  }

  method KeysToPreserve(changes: Object, m: Mock) returns (preserve: set<Key>)
    ensures preserve == Admin.PreservedKeys(changes, m)
  {
    preserve := {};
    if "sequence" !in changes {
      preserve := preserve + {Default};
    }
    if "rules" !in changes {
      preserve := preserve + set i | 0 <= i < |RulesOf(m)| :: OfRule(i);
    }
  }

  /** The last part of a patch: replace the generation, keeping what the patch does not mention. */
  method Reconfigure(app: MockApp, saved: Mock, m: Mock, changes: Object) returns (status: Status)
    requires app.Valid() && ValidMock(m)
    modifies app, app.storeHeap
    ensures app.Valid() && old(app.cursorHeap) <= app.cursorHeap && old(app.storeHeap) <= app.storeHeap
    ensures forall j :: |old(app.cursorHeap)| <= j < |app.cursorHeap| ==> fresh(app.cursorHeap[j])
    ensures forall j :: |old(app.storeHeap)| <= j < |app.storeHeap| ==> fresh(app.storeHeap[j])
    ensures var r := MockInit(
              app.env, old(app.View()), m, Admin.PreservedKeys(changes, m), Admin.KeepsRecordings(saved, m), None);
            status == (if r.None? then Admin.Crashed else Admin.Success) && app.View() == r.GetOr(old(app.View()))
  {
    var preserve := KeysToPreserve(changes, m);
    var ok := app.MockInitialization(m, preserve, Admin.KeepsRecordings(saved, m), None);
    return if ok then Admin.Success else Admin.Crashed;
  }

  method PatchMock(app: MockApp, raw: string, changes: Object) returns (status: Status)
    requires app.Valid() && SoundSchema(app.env.schema)
    modifies app, app.storeHeap
    ensures app.Valid() && old(app.cursorHeap) <= app.cursorHeap && old(app.storeHeap) <= app.storeHeap
    ensures forall j :: |old(app.cursorHeap)| <= j < |app.cursorHeap| ==> fresh(app.cursorHeap[j])
    ensures forall j :: |old(app.storeHeap)| <= j < |app.storeHeap| ==> fresh(app.storeHeap[j])
    ensures (app.View(), status) == Admin.PatchMock(app.env, old(app.View()), raw, changes)
  {
    var identity := Normalize(raw);
    if identity.None? || !Admin.NamesPath(changes, identity.value) {
      return Admin.Invalid;
    }
    var saved := MockAt(app.storage, Renormalize(identity.value));
    if saved.None? {
      return Admin.NotFound;
    }
    var m := Admin.Merged(app.env, saved.value, Admin.WithPath(changes, identity.value));
    var valid := ValidatePath(app.env.prefix, app.env.compiles, identity.value);
    if m.None? || valid.None? {
      return Admin.Invalid;
    }
    Admin.PathIsIrrelevant(saved.value, m.value, changes, valid.value);
    status := Reconfigure(app, saved.value, m.value.(path := valid.value), changes);
  }

  method DeleteMock(app: MockApp, raw: string) returns (status: Status)
    requires app.Valid()
    modifies app, app.storeHeap
    ensures app.Valid() && old(app.cursorHeap) <= app.cursorHeap && old(app.storeHeap) <= app.storeHeap
    ensures forall j :: |old(app.cursorHeap)| <= j < |app.cursorHeap| ==> fresh(app.cursorHeap[j])
    ensures forall j :: |old(app.storeHeap)| <= j < |app.storeHeap| ==> fresh(app.storeHeap[j])
    ensures (app.View(), status) == Admin.DeleteMock(old(app.View()), raw)
  {
    var identity := Normalize(raw);
    if identity.None? {
      return Admin.Invalid;
    }
    var key := Renormalize(identity.value);
    if MockAt(app.storage, key).None? {
      return Admin.NotFound;
    }
    app.SetStorage(RemoveMock(app.storage, key));
    app.RemoveRuntimeRoutes(identity.value);
    return Admin.Success;
  }

  lemma RemoveAllStep(a: App, mocks: seq<Mock>, i: nat)
    requires i < |mocks|
    ensures RemoveAll(a, mocks[i..]) == RemoveAll(RemoveRuntime(a, mocks[i].path), mocks[i + 1..])
  {
    assert mocks[i..] == [mocks[i]] + mocks[i + 1..];
  }

  method RemoveOne(app: MockApp, mocks: seq<Mock>, i: nat)
    requires app.Valid() && i < |mocks|
    modifies app`sequences, app`recordings, app`routes, app.storeHeap
    ensures app.Valid() && RemoveAll(app.View(), mocks[i + 1..]) == RemoveAll(old(app.View()), mocks[i..])
  {
    RemoveAllStep(app.View(), mocks, i);
    app.RemoveRuntimeRoutes(mocks[i].path);
  }

  /** The loop of `cleanup_storage` over the paths that are stored when it begins. */
  method RemoveEach(app: MockApp, mocks: seq<Mock>)
    requires app.Valid()
    modifies app`sequences, app`recordings, app`routes, app.storeHeap
    ensures app.Valid() && app.View() == RemoveAll(old(app.View()), mocks)
  {
    ghost var a := app.View();
    assert mocks[0..] == mocks;
    for i := 0 to |mocks|
      invariant app.Valid()
      invariant RemoveAll(app.View(), mocks[i..]) == RemoveAll(a, mocks)
    {
      RemoveOne(app, mocks, i);
    }
  }

  /** `cleanup_storage`. */
  method CleanupStorage(app: MockApp)
    requires app.Valid()
    modifies app`storage, app`sequences, app`recordings, app`routes, app.storeHeap
    ensures app.Valid() && app.View() == Cleanup(old(app.View()))
  {
    RemoveEach(app, app.storage);
    app.SetStorage([]);
  }

  /** `DELETE /recordings`. */
  method DeleteRecordings(app: MockApp, raw: string, key: Option<string>) returns (status: Status)
    requires app.Valid()
    modifies app.storeHeap
    ensures app.Valid()
    ensures (app.View(), status) == Admin.DeleteRecordings(old(app.View()), raw, key)
  {
    var identity := Normalize(raw);
    if identity.None? {
      return Admin.Invalid;
    }
    if identity.value !in app.recordings {
      return Admin.NotFound;
    }
    var store := app.recordings[identity.value];
    assert store.View() == app.View().stores[store.id];
    var ok := app.DeleteFrom(store, key);
    return if ok then Admin.Success else Admin.NotFound;
  }

  /** `PATCH /sequence-state`. */
  method ResetSequence(app: MockApp, raw: string, key: Key) returns (status: Status)
    requires app.Valid()
    modifies app.cursorHeap
    ensures app.Valid()
    ensures (app.View(), status) == Admin.ResetSequence(old(app.View()), raw, key)
  {
    var identity := Normalize(raw);
    if identity.None? {
      return Admin.Invalid;
    }
    if identity.value !in app.sequences || key !in app.sequences[identity.value] {
      return Admin.NotFound;
    }
    var _ := app.StateOf(app.sequences[identity.value][key], true);
    return Admin.Success;
  }

  // ---------------------------------------------------------------- snapshots

  ghost predicate ParsesValid(parse: Parser) {
    forall raw, seen :: parse(raw, seen).Ok? ==> ValidMock(parse(raw, seen).value.mock)
  }

  lemma {:induction false} ParsedValid(parse: Parser, raws: seq<RawMock>, n: nat)
    requires ParsesValid(parse) && n <= |raws| && ParseEach(parse, raws, n).Ok?
    ensures AllValid(ParseEach(parse, raws, n).value)
  {
    if n > 0 {
      ParsedValid(parse, raws, n - 1);
    }
  }

  lemma MockParserValid(env: Env, format: int)
    requires SoundSchema(env.schema)
    ensures ParsesValid(MockParser(env, format))
  {
    forall raw, seen | MockParser(env, format)(raw, seen).Ok?
      ensures ValidMock(MockParser(env, format)(raw, seen).value.mock)
    {
      MockParsedValid(env, format, raw, seen);
    }
  }

  lemma MockParsedValid(env: Env, format: int, raw: RawMock, seen: set<string>)
    requires SoundSchema(env.schema) && ParseMock(env, format, raw, seen).Ok?
    ensures ValidMock(ParseMock(env, format, raw, seen).value.mock)
  {
    var data := SnapshotProofs.ParsedConfiguration(env, format, raw, seen);
    ValidWithPath(env.schema(data).value, ParseMock(env, format, raw, seen).value.mock.path);
  }

  predicate AllValid(parsed: seq<Parsed>) {
    forall p :: p in parsed ==> ValidMock(p.mock)
  }

  /** The list comprehension around a step that may fail, seen from the front. */
  function Prepended<T>(first: seq<T>, rest: Option<seq<T>>): Option<seq<T>> {
    if rest.None? then None else Some(first + rest.value)
  }

  lemma PrependNothing<T>(rest: Option<seq<T>>)
    ensures Prepended([], rest) == rest
  {
    if rest.Some? {
      assert [] + rest.value == rest.value;
    }
  }

  lemma PrependOne<T>(first: seq<T>, x: T, rest: Option<seq<T>>)
    ensures Prepended(first, Prepended([x], rest)) == Prepended(first + [x], rest)
  {
    if rest.Some? {
      assert first + ([x] + rest.value) == first + [x] + rest.value;
    }
  }

  lemma PrependTo<T>(first: seq<T>)
    ensures Prepended(first, Some([])) == Some(first)
  {
    assert first + [] == first;
  }

  lemma RevalidatedStep(env: Env, parsed: seq<Parsed>, i: nat)
    requires i < |parsed|
    ensures var p := parsed[i];
            var path := ValidatePath(env.prefix, env.compiles, p.mock.path);
            Revalidated(env, parsed[i..]) ==
            if path.None? then None
            else Prepended([Parsed(p.mock.(path := path.value), p.entries)], Revalidated(env, parsed[i + 1..]))
  {
    assert parsed[i..] == [parsed[i]] + parsed[i + 1..];
  }

  /** The second check of all paths, before anything is changed. */
  method Revalidate(env: Env, parsed: seq<Parsed>) returns (mocks: Option<seq<Parsed>>)
    requires AllValid(parsed)
    ensures mocks == Revalidated(env, parsed)
    ensures mocks.Some? ==> AllValid(mocks.value)
  {
    var checked := [];
    assert parsed[0..] == parsed;
    PrependNothing(Revalidated(env, parsed));
    for i := 0 to |parsed|
      invariant Revalidated(env, parsed) == Prepended(checked, Revalidated(env, parsed[i..]))
      invariant AllValid(checked)
    {
      var p := parsed[i];
      RevalidatedStep(env, parsed, i);
      var path := ValidatePath(env.prefix, env.compiles, p.mock.path);
      if path.None? {
        return None;
      }
      ValidWithPath(p.mock, path.value);
      var next := Parsed(p.mock.(path := path.value), p.entries);
      PrependOne(checked, next, Revalidated(env, parsed[i + 1..]));
      checked := checked + [next];
    }
    PrependTo(checked);
    return Some(checked);
  }

  method ImportOne(app: MockApp, mocks: seq<Parsed>, i: nat) returns (ok: bool)
    requires app.Valid() && i < |mocks| && AllValid(mocks)
    modifies app, app.storeHeap
    ensures app.Valid() && old(app.cursorHeap) <= app.cursorHeap && old(app.storeHeap) <= app.storeHeap
    ensures forall j :: |old(app.cursorHeap)| <= j < |app.cursorHeap| ==> fresh(app.cursorHeap[j])
    ensures forall j :: |old(app.storeHeap)| <= j < |app.storeHeap| ==> fresh(app.storeHeap[j])
    ensures ImportMocks(app.env, old(app.View()), mocks[i..])
            == if ok then ImportMocks(app.env, app.View(), mocks[i + 1..]) else (app.View(), Broken)
  {
    assert mocks[i..] == [mocks[i]] + mocks[i + 1..];
    ok := app.MockInitialization(mocks[i].mock, {}, false, mocks[i].entries);
  }

  /** The mutation loop of `import_snapshot`. */
  method ImportEach(app: MockApp, mocks: seq<Parsed>) returns (result: ImportResult)
    requires app.Valid() && AllValid(mocks)
    modifies app, app.storeHeap
    ensures app.Valid() && old(app.cursorHeap) <= app.cursorHeap && old(app.storeHeap) <= app.storeHeap
    ensures forall j :: |old(app.cursorHeap)| <= j < |app.cursorHeap| ==> fresh(app.cursorHeap[j])
    ensures forall j :: |old(app.storeHeap)| <= j < |app.storeHeap| ==> fresh(app.storeHeap[j])
    ensures (app.View(), result) == ImportMocks(app.env, old(app.View()), mocks)
  {
    ghost var start, cursors, stores := app.View(), app.cursorHeap, app.storeHeap;
    assert mocks[0..] == mocks;
    result := Imported;
    for i := 0 to |mocks|
      invariant app.Valid() && result == Imported
      invariant cursors <= app.cursorHeap && stores <= app.storeHeap
      invariant forall j :: |cursors| <= j < |app.cursorHeap| ==> fresh(app.cursorHeap[j])
      invariant forall j :: |stores| <= j < |app.storeHeap| ==> fresh(app.storeHeap[j])
      invariant ImportMocks(app.env, app.View(), mocks[i..]) == ImportMocks(app.env, start, mocks)
    {
      var ok := ImportOne(app, mocks, i);
      if !ok {
        result := Broken;
        break;
      }
    }
    assert result.Imported? ==> mocks[|mocks|..] == [];
  }

  /** Everything that is checked before anything is changed. */
  method ValidateSnapshot(env: Env, doc: Document) returns (mocks: Option<seq<Parsed>>)
    requires SoundSchema(env.schema)
    ensures mocks == Validated(env, doc)
    ensures mocks.Some? ==> AllValid(mocks.value)
  {
    var parsed := ParseDocument(env, doc);
    if parsed.Err? {
      return None;
    }
    MockParserValid(env, doc.format.number);
    ParsedValid(MockParser(env, doc.format.number), doc.mocks.value, |doc.mocks.value|);
    mocks := Revalidate(env, parsed.value);
  }

  /** `import_snapshot`: validate everything, then mutate. */
  method ImportSnapshot(app: MockApp, doc: Document, replace: bool) returns (result: ImportResult)
    requires app.Valid() && SoundSchema(app.env.schema)
    modifies app, app.storeHeap
    ensures app.Valid() && old(app.cursorHeap) <= app.cursorHeap && old(app.storeHeap) <= app.storeHeap
    ensures forall j :: |old(app.cursorHeap)| <= j < |app.cursorHeap| ==> fresh(app.cursorHeap[j])
    ensures forall j :: |old(app.storeHeap)| <= j < |app.storeHeap| ==> fresh(app.storeHeap[j])
    ensures (app.View(), result) == Import(app.env, old(app.View()), doc, replace)
  {
    var mocks := ValidateSnapshot(app.env, doc);
    if mocks.None? {
      return Rejected;
    }
    if replace {
      CleanupStorage(app);
    }
    result := ImportEach(app, mocks.value);
  }

  /** `export_snapshot`; `None` is the KeyError of a recording mock that has no store. */
  method ExportSnapshot(app: MockApp, version: string) returns (doc: Option<Document>)
    requires app.Valid()
    ensures doc == Export(app.View(), version)
  {
    var mocks := [];
    var storage := app.storage;
    assert storage[0..] == storage;
    ghost var a := app.View();
    PrependNothing(ExportMocks(a, storage));
    for i := 0 to |storage|
      invariant ExportMocks(a, storage) == Prepended(mocks, ExportMocks(a, storage[i..]))
    {
      var m := storage[i];
      assert storage[i..] == [m] + storage[i + 1..];
      var raw := ExportOne(app, m);
      if raw.None? {
        return None;
      }
      PrependOne(mocks, raw.value, ExportMocks(a, storage[i + 1..]));
      mocks := mocks + [raw.value];
    }
    PrependTo(mocks);
    return Some(Envelope(version, mocks));
  }

  method ExportOne(app: MockApp, m: Mock) returns (raw: Option<RawMock>)
    requires app.Valid()
    ensures raw == ExportMock(app.View(), m)
  {
    var fields := SnapshotCodec.EncodeMock(Dump(m));
    if m.recording.None? {
      return Some(RawMock(fields, None));
    }
    if m.path !in app.recordings {
      return None;
    }
    var store := app.recordings[m.path];
    assert store.View() == app.View().stores[store.id];
    var entries := store.ReadAll();
    return Some(RawMock(fields, Some(Entries(entries))));
  }
}
