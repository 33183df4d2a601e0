/**
 * The administrative operations on mocks (proxy_mock/api/routes/admin.py). Each runs under one
 * lock and is one step with respect to the others.
 */
module Admin {
  import opened Wrappers
  import opened Json
  import opened Paths
  import opened Recordings
  import opened Store
  import opened Mocks
  import opened Sequences
  import opened Lifecycle
  import opened LifecycleProofs

  /** The outcome of a request: 200, 201, 404, 422, or a ValueError that no handler expects. */
  datatype Status = Success | Created | NotFound | Invalid | Crashed

  /** A body may repeat the path of its resource, but not contradict it. */
  predicate NamesPath(body: Object, identity: RootedPath) {
    "path" in body ==> body["path"].Str? && Normalize(body["path"].text) == Some(identity)
  }

  function WithPath(body: Object, identity: RootedPath): Object {
    body["path" := Str(identity)]
  }

  /** `PUT /mocks`: replace the whole configuration; every cursor and recording starts afresh. */
  function PutMock(env: Env, a: App, raw: string, body: Object): (App, Status) {
    var identity := Normalize(raw);
    if identity.None? || !NamesPath(body, identity.value) then (a, Invalid)
    else
      var m := env.schema(WithPath(body, identity.value));
      var valid := ValidatePath(env.prefix, env.compiles, identity.value);
      if m.None? || valid.None? then (a, Invalid)
      else
        var existed := MockAt(a.storage, Renormalize(identity.value)).Some?;
        var r := MockInit(env, a, m.value.(path := valid.value), {}, false, None);
        if r.None? then (a, Crashed) else (r.value, if existed then Success else Created)
  }

  /**
   * A patch replaces the fields it mentions, `null` included; only `mock_data` is merged field by
   * field, and must be an object.
   */
  function MergedFields(saved: Object, changes: Object): Option<Object> {
    if "mock_data" !in changes then Some(saved + changes)
    else if !changes["mock_data"].Dict? then None
    else
      Some((saved + changes)["mock_data" := Dict(DataOf(saved) + DataOf(changes))])
  }

  function DataOf(o: Object): Object {
    if "mock_data" in o && o["mock_data"].Dict? then o["mock_data"].fields else map[]
  }

  /** The configuration that a patch asks for, if it is a valid one. */
  function Merged(env: Env, saved: Mock, changes: Object): Option<Mock> {
    var fields := MergedFields(Dump(saved), changes);
    if fields.None? then None else env.schema(fields.value)
  }

  /** A patch keeps the cursors of what it does not mention. */
  function PreservedKeys(changes: Object, m: Mock): set<Key> {
    (if "sequence" !in changes then {Default} else {})
    + (if "rules" !in changes then set i | 0 <= i < |RulesOf(m)| :: OfRule(i) else {})
  }

  /** Recordings survive a patch that leaves upstream and matching headers as they were. */
  predicate KeepsRecordings(saved: Mock, m: Mock) {
    && saved.recording.Some? && m.recording.Some?
    && saved.recording.value.matchHeaders == m.recording.value.matchHeaders
    && saved.proxyHost == m.proxyHost
  }

  /** `PATCH /mocks`. */
  function PatchMock(env: Env, a: App, raw: string, changes: Object): (App, Status) {
    var identity := Normalize(raw);
    if identity.None? || !NamesPath(changes, identity.value) then (a, Invalid)
    else
      var saved := MockAt(a.storage, Renormalize(identity.value));
      if saved.None? then (a, NotFound)
      else
        var m := Merged(env, saved.value, WithPath(changes, identity.value));
        var valid := ValidatePath(env.prefix, env.compiles, identity.value);
        if m.None? || valid.None? then (a, Invalid)
        else
          var r := MockInit(
            env, a, m.value.(path := valid.value), PreservedKeys(changes, m.value), KeepsRecordings(saved.value, m.value),
            None);
          if r.None? then (a, Crashed) else (r.value, Success)
  }

  /** `DELETE /mocks?path=`. */
  function DeleteMock(a: App, raw: string): (App, Status) {
    var identity := Normalize(raw);
    if identity.None? then (a, Invalid)
    else
      var key := Renormalize(identity.value);
      if MockAt(a.storage, key).None? then (a, NotFound)
      else (RemoveRuntime(a.(storage := RemoveMock(a.storage, key)), identity.value), Success)
  }

  /** `DELETE /recordings`. */
  function DeleteRecordings(a: App, raw: string, key: Option<string>): (App, Status) {
    var identity := Normalize(raw);
    if identity.None? then (a, Invalid)
    else
      var store := StoreAt(a, identity.value);
      if store.None? || !DeletionSucceeds(store.value, key) then (a, NotFound)
      else (a.(stores := a.stores[a.recordings[identity.value] := Deleted(store.value, key)]), Success)
  }

  /** The deletion addresses the mock that owns the store. */
  predicate Targets(a: App, raw: string, id: nat) {
    Normalize(raw).Some? && Normalize(raw).value in a.recordings && a.recordings[Normalize(raw).value] == id
  }

  /** `PATCH /sequence-state`: restart one cursor. */
  function ResetSequence(a: App, raw: string, key: Key): (App, Status) {
    var identity := Normalize(raw);
    if identity.None? then (a, Invalid)
    else if identity.value !in a.sequences || key !in a.sequences[identity.value]
            || a.sequences[identity.value][key] >= |a.cursors| then (a, NotFound)
    else
      var id := a.sequences[identity.value][key];
      (a.(cursors := a.cursors[id := AfterReset(a.cursors[id])]), Success)
  }

  // ---------------------------------------------------------------- the invariant

  /** The stored path that a path parameter addresses: reading storage normalizes once more. */
  function Addressed(raw: string): RootedPath
    requires Normalize(raw).Some?
  {
    Renormalize(Normalize(raw).value)
  }

  /** The path under which a PUT or an import installs: validated twice before `mock_initialization`. */
  function Landing(raw: string): RootedPath
    requires Normalize(raw).Some?
  {
    Lands(Addressed(raw))
  }

  /** A path that can hold a mock in agreement: it has settled and may be mocked. */
  predicate Mountable(env: Env, path: string) {
    Settled(path) && Admissible(env, path)
  }

  /** A path parameter that is refused or lands where a mock can be: in particular any without whitespace. */
  predicate GoodPath(env: Env, raw: string) {
    Normalize(raw).Some? && ValidatePath(env.prefix, env.compiles, Addressed(raw)).Some? ==> Mountable(env, Landing(raw))
  }

  lemma SettledIsLanding(raw: string)
    requires Normalize(raw).Some? && Settled(Normalize(raw).value)
    ensures Addressed(raw) == Landing(raw) == Normalize(raw).value
  {
    SettledFacts(Normalize(raw).value);
  }

  lemma WhitespaceFreeIsGood(env: Env, raw: string)
    requires forall c :: c in raw ==> !IsSpace(c)
    ensures GoodPath(env, raw)
    ensures Normalize(raw).Some? ==> Addressed(raw) == Landing(raw) == Normalize(raw).value
  {
    if Normalize(raw).Some? {
      WhitespaceFreeIsSettled(raw);
      SettledIsLanding(raw);
      FixedIffSettled(Normalize(raw).value);
    }
  }

  /** What a new generation needs apart from its path: a valid configuration and suitable recordings. */
  predicate Installable(env: Env, a: App, m: Mock, keepRecordings: bool, imported: Option<seq<Entry>>) {
    && ValidMock(m)
    && (m.recording.Some? && keepRecordings && m.path in a.recordings && a.recordings[m.path] < |a.stores| ==>
          a.stores[a.recordings[m.path]].config.matchHeaders == m.recording.value.matchHeaders)
    && (m.recording.Some? && imported.Some? ==>
          forall e :: e in imported.value ==> SlotOk(env.codec, m.recording.value, Slot(e, env.codec.size(e))))
  }

  /** What `mock_initialization` needs of its caller. */
  predicate InitOk(env: Env, a: App, m: Mock, keepRecordings: bool, imported: Option<seq<Entry>>) {
    AppOk(env, a) && Mountable(env, m.path) && Installable(env, a, m, keepRecordings, imported)
  }

  /** The configuration as storage files it, one normalization further. */
  function Filed(m: Mock): Mock {
    m.(path := Renormalize(m.path))
  }

  lemma FiledIsSame(m: Mock)
    requires Settled(m.path)
    ensures Filed(m) == m
  {
    SettledFacts(m.path);
    assert m.(path := m.path) == m;
  }

  /** What `mock_initialization` makes of an application: a new generation at the path of a configuration. */
  function Generation(
    env: Env, a: App, m: Mock, preserve: set<Key>, keepRecordings: bool, imported: Option<seq<Entry>>): App
  {
    var p: string := m.path;
    Install(
      env, RemoveRuntime(a, m.path).(storage := SetMock(a.storage, Filed(m))), p, m,
      if p in a.sequences then a.sequences[p] else map[], preserve,
      if keepRecordings then StoreAt(a, p) else None, imported)
  }

  /** `mock_initialization` either refuses the path or installs one new generation where the path lands. */
  lemma MockInitLands(
    env: Env, a: App, m: Mock, preserve: set<Key>, keepRecordings: bool, imported: Option<seq<Entry>>)
    ensures MockInit(env, a, m, preserve, keepRecordings, imported) ==
            if ValidatePath(env.prefix, env.compiles, m.path).None? then None
            else Some(Generation(env, a, m.(path := Lands(m.path)), preserve, keepRecordings, imported))
  {
    var p := Lands(m.path);
    var filed := m.(path := Renormalize(p));
    assert Filed(m.(path := p)) == filed;
    assert RemoveRuntime(a.(storage := SetMock(a.storage, filed)), p)
        == RemoveRuntime(a, p).(storage := SetMock(a.storage, filed));
  }

  lemma MockInitOnSettled(
    env: Env, a: App, m: Mock, preserve: set<Key>, keepRecordings: bool, imported: Option<seq<Entry>>)
    requires Settled(m.path)
    ensures MockInit(env, a, m, preserve, keepRecordings, imported) ==
            if ValidatePath(env.prefix, env.compiles, m.path).None? then None
            else Some(Generation(env, a, m, preserve, keepRecordings, imported))
  {
    SettledFacts(m.path);
    assert m.(path := m.path) == m;
    MockInitLands(env, a, m, preserve, keepRecordings, imported);
  }

  /** The cursors a path had are nobody's once the path has been removed. */
  lemma RemovedCursorsAreSpare(a: App, live: set<string>, p: string, storage: seq<Mock>)
    requires Consistent(a, live) && Settled(p)
    ensures Spare(RemoveRuntime(a, p).(storage := storage), if p in a.sequences then a.sequences[p] else map[])
  {
    RemoveFrame(a, p);
    if p in a.sequences {
      assert Agrees(a, p);
    }
  }

  lemma RemovedIsConsistent(env: Env, a: App, m: Mock)
    requires AppOk(env, a) && Settled(m.path)
    ensures var c := RemoveRuntime(a, m.path).(storage := SetMock(a.storage, m));
            Consistent(c, PathsOf(a.storage) - {m.path}) && HeapOk(env.codec, c)
            && MockAt(c.storage, m.path) == Some(m) && DistinctPaths(c.storage)
  {
    var p, live := m.path, PathsOf(a.storage);
    SetMockShape(a.storage, m);
    RemoveConsistent(a, live, p);
    RemoveHeapOk(env.codec, a, p);
    RemoveFrame(a, p);
    StorageElsewhere(RemoveRuntime(a, p), live - {p}, SetMock(a.storage, m));
  }

  lemma CanInstallNext(env: Env, a: App, m: Mock, keepRecordings: bool, imported: Option<seq<Entry>>)
    requires InitOk(env, a, m, keepRecordings, imported)
    ensures CanInstall(
      env, RemoveRuntime(a, m.path).(storage := SetMock(a.storage, m)), PathsOf(a.storage) - {m.path}, m.path, m,
      if m.path in a.sequences then a.sequences[m.path] else map[],
      if keepRecordings then StoreAt(a, m.path) else None, imported)
  {
    RemovedIsConsistent(env, a, m);
    RemovedCursorsAreSpare(a, PathsOf(a.storage), m.path, SetMock(a.storage, m));
    if m.recording.Some? {
      PriorSuits(env, a, m, keepRecordings, imported);
    }
  }

  lemma PriorSuits(env: Env, a: App, m: Mock, keepRecordings: bool, imported: Option<seq<Entry>>)
    requires InitOk(env, a, m, keepRecordings, imported) && m.recording.Some?
    ensures Suitable(env.codec, m.recording.value, if keepRecordings then StoreAt(a, m.path) else None, imported)
  {
    var prior := if keepRecordings then StoreAt(a, m.path) else None;
    assert prior.Some? ==> StoreWell(env.codec, prior.value);
  }

  /** Installing a generation keeps the invariant, and stores exactly the given configuration. */
  lemma GenerationOk(
    env: Env, a: App, m: Mock, preserve: set<Key>, keepRecordings: bool, imported: Option<seq<Entry>>)
    requires InitOk(env, a, m, keepRecordings, imported)
    ensures var b := Generation(env, a, m, preserve, keepRecordings, imported);
            AppOk(env, b) && b.storage == SetMock(a.storage, m)
  {
    GenerationConsistent(env, a, m, preserve, keepRecordings, imported);
    StoredWell(env, a.storage, m);
  }

  lemma StoredWell(env: Env, storage: seq<Mock>, m: Mock)
    requires DistinctPaths(storage) && Admissible(env, m.path) && forall x :: x in storage ==> Admissible(env, x.path)
    ensures var s := SetMock(storage, m);
            && DistinctPaths(s) && (forall x :: x in s ==> Admissible(env, x.path))
            && PathsOf(storage) - {m.path} + {m.path} == PathsOf(s)
  {
    SetMockShape(storage, m);
    StoredPaths(storage, m, m.path);
  }

  lemma GenerationConsistent(
    env: Env, a: App, m: Mock, preserve: set<Key>, keepRecordings: bool, imported: Option<seq<Entry>>)
    requires InitOk(env, a, m, keepRecordings, imported)
    ensures var b := Generation(env, a, m, preserve, keepRecordings, imported);
            && Consistent(b, PathsOf(a.storage) - {m.path} + {m.path}) && HeapOk(env.codec, b)
            && b.storage == SetMock(a.storage, m)
  {
    FiledIsSame(m);
    CanInstallNext(env, a, m, keepRecordings, imported);
    InstallConsistent(
      env, RemoveRuntime(a, m.path).(storage := SetMock(a.storage, m)), PathsOf(a.storage) - {m.path}, m.path, m,
      if m.path in a.sequences then a.sequences[m.path] else map[], preserve,
      if keepRecordings then StoreAt(a, m.path) else None, imported);
  }

  /** What decides a PUT: the body names its resource and is a configuration, and the path passes both checks. */
  predicate PutSucceeds(env: Env, raw: string, body: Object) {
    && Normalize(raw).Some? && NamesPath(body, Normalize(raw).value)
    && env.schema(WithPath(body, Normalize(raw).value)).Some?
    && ValidatePath(env.prefix, env.compiles, Normalize(raw).value).Some?
    && ValidatePath(env.prefix, env.compiles, Addressed(raw)).Some?
  }

  /** The configuration a successful PUT submits, at the path where it is installed. */
  function Submitted(env: Env, raw: string, body: Object): Mock
    requires PutSucceeds(env, raw, body)
  {
    env.schema(WithPath(body, Normalize(raw).value)).value.(path := Landing(raw))
  }

  /** A PUT that fails or lands where a mock can be. */
  predicate GoodPut(env: Env, raw: string, body: Object) {
    PutSucceeds(env, raw, body) ==> Mountable(env, Landing(raw))
  }

  lemma PutInstalls(env: Env, a: App, raw: string, body: Object)
    ensures PutMock(env, a, raw, body).1 in {Success, Created} <==> PutSucceeds(env, raw, body)
    ensures !PutSucceeds(env, raw, body) ==> PutMock(env, a, raw, body).0 == a
    ensures PutSucceeds(env, raw, body) ==>
              var m := Submitted(env, raw, body).(path := Addressed(raw));
              MockInit(env, a, m, {}, false, None) == Some(PutMock(env, a, raw, body).0)
  {
    if PutSucceeds(env, raw, body) {
      var m := env.schema(WithPath(body, Normalize(raw).value)).value;
      assert m.(path := Landing(raw)).(path := Addressed(raw)) == m.(path := Addressed(raw));
    }
  }

  /**
   * A PUT succeeds exactly if its body and path pass every check, whatever the state. It then
   * installs the submitted configuration afresh where its path lands; any other outcome changes nothing.
   */
  lemma PutEffect(env: Env, a: App, raw: string, body: Object)
    requires SoundSchema(env.schema)
    ensures PutMock(env, a, raw, body).1 in {Success, Created} <==> PutSucceeds(env, raw, body)
    ensures !PutSucceeds(env, raw, body) ==> PutMock(env, a, raw, body).0 == a
    ensures PutSucceeds(env, raw, body) ==> ValidMock(Submitted(env, raw, body))
    ensures PutSucceeds(env, raw, body) ==>
              PutMock(env, a, raw, body).0 == Generation(env, a, Submitted(env, raw, body), {}, false, None)
  {
    PutInstalls(env, a, raw, body);
    if PutSucceeds(env, raw, body) {
      var mock := Submitted(env, raw, body);
      ValidWithPath(env.schema(WithPath(body, Normalize(raw).value)).value, Landing(raw));
      MockInitLands(env, a, mock.(path := Addressed(raw)), {}, false, None);
      assert mock.(path := Addressed(raw)).(path := Landing(raw)) == mock;
    }
  }

  lemma PutOk(env: Env, a: App, raw: string, body: Object)
    requires AppOk(env, a) && SoundSchema(env.schema) && GoodPut(env, raw, body)
    ensures AppOk(env, PutMock(env, a, raw, body).0)
  {
    PutEffect(env, a, raw, body);
    if PutSucceeds(env, raw, body) {
      GenerationOk(env, a, Submitted(env, raw, body), {}, false, None);
    }
  }

  /** A patch hands recordings over only to a configuration with the same matching headers. */
  lemma PatchInitOk(env: Env, a: App, p: string, saved: Mock, merged: Mock)
    requires AppOk(env, a) && Settled(p) && MockAt(a.storage, p) == Some(saved) && ValidMock(merged)
    requires Admissible(env, p)
    ensures InitOk(env, a, merged.(path := p), KeepsRecordings(saved, merged), None)
  {
    MockAtIff(a.storage, p);
    assert Agrees(a, p);
    assert ValidMock(merged.(path := p));
  }

  /** The fields of `after` are those of `before`, replaced or extended by those of `changes`. */
  predicate Overlays(before: Object, changes: Object, after: Object) {
    && after.Keys == before.Keys + changes.Keys
    && forall k :: k in after ==> after[k] == if k in changes then changes[k] else before[k]
  }

  /**
   * What a patch asks for, field by field: what it mentions has the new value, everything else the
   * saved one, and within `mock_data` likewise.
   */
  predicate Patches(saved: Object, changes: Object, after: Object) {
    && after.Keys == saved.Keys + changes.Keys
    && (forall k :: k in after && k != "mock_data" ==> after[k] == if k in changes then changes[k] else saved[k])
    && ("mock_data" in after && "mock_data" !in changes ==> after["mock_data"] == saved["mock_data"])
    && ("mock_data" in changes ==>
          && changes["mock_data"].Dict? && after["mock_data"].Dict?
          && Overlays(
               if "mock_data" in saved && saved["mock_data"].Dict? then saved["mock_data"].fields else map[],
               changes["mock_data"].fields, after["mock_data"].fields))
  }

  /** Merging gives exactly that, and fails exactly if `mock_data` is mentioned as something else than an object. */
  lemma MergeIff(saved: Object, changes: Object, after: Object)
    ensures MergedFields(saved, changes) == Some(after) <==> Patches(saved, changes, after)
    ensures MergedFields(saved, changes).None? <==> "mock_data" in changes && !changes["mock_data"].Dict?
  {
    if Patches(saved, changes, after) {
      if "mock_data" in changes {
        var data := DataOf(saved) + DataOf(changes);
        assert after["mock_data"].fields == data;
        assert after == (saved + changes)["mock_data" := Dict(data)];
      } else {
        assert after == saved + changes;
      }
    }
  }

  /**
   * Merging is associative: two patches in turn ask for what the second patch merged into the first
   * asks for, one level deeper for `mock_data`.
   */
  lemma MergesCompose(saved: Object, first: Object, second: Object)
    requires MergedFields(saved, first).Some? && MergedFields(first, second).Some?
    ensures MergedFields(MergedFields(saved, first).value, second) == MergedFields(saved, MergedFields(first, second).value)
  {
    var once, both := MergedFields(saved, first).value, MergedFields(first, second).value;
    UnionAssociative(saved, first, second);
    UnionAssociative(DataOf(saved), DataOf(first), DataOf(second));
    DataMerges(saved, first);
    DataMerges(first, second);
    var data := Dict(DataOf(once) + DataOf(second));
    assert data == Dict(DataOf(saved) + DataOf(both));
    if "mock_data" in second {
      assert (once + second)["mock_data" := data] == (saved + both)["mock_data" := data];
    } else if "mock_data" in first {
      assert DataOf(once) + DataOf(second) == DataOf(once);
      assert once + second == (saved + both)["mock_data" := data];
    }
  }

  lemma DataMerges(saved: Object, changes: Object)
    requires MergedFields(saved, changes).Some?
    ensures DataOf(MergedFields(saved, changes).value) == DataOf(saved) + DataOf(changes)
  {
    assert DataOf(saved) + map[] == DataOf(saved);
  }

  lemma UnionAssociative(x: Object, y: Object, z: Object)
    ensures x + y + z == x + (y + z)
  {
  }

  /** A patch that mentions nothing asks for the stored configuration. */
  lemma EmptyPatchAsksForTheSame(env: Env, saved: Mock)
    requires ReadsBack(env.schema, saved)
    ensures var m := Merged(env, saved, WithPath(map[], saved.path)); m.Some? && m.value.(path := saved.path) == saved
  {
    assert Dump(saved) + WithPath(map[], saved.path) == Dump(saved);
  }

  lemma PathIsIrrelevant(saved: Mock, merged: Mock, changes: Object, p: RootedPath)
    ensures var m := merged.(path := p);
            && (ValidMock(m) <==> ValidMock(merged)) && PreservedKeys(changes, m) == PreservedKeys(changes, merged)
            && (KeepsRecordings(saved, m) <==> KeepsRecordings(saved, merged))
  {
    ValidWithPath(merged, p);
    assert RulesOf(merged.(path := p)) == RulesOf(merged);
  }

  /** What storage holds is settled and may be mocked, so a parameter that addresses it has settled too. */
  lemma AddressedIsStored(env: Env, a: App, raw: string)
    requires AppOk(env, a) && Normalize(raw).Some? && MockAt(a.storage, Addressed(raw)).Some?
    ensures var p := Addressed(raw);
            Settled(p) && Landing(raw) == p && Admissible(env, p) && p in PathsOf(a.storage)
  {
    var p: string := Addressed(raw);
    MockAtIff(a.storage, p);
    assert Agrees(a, p);
    SettledFacts(p);
  }

  /** The mock that a parameter addresses, the configuration a patch asks for there, and that it may be had. */
  predicate Patchable(env: Env, a: App, raw: string, changes: Object) {
    && Normalize(raw).Some? && MockAt(a.storage, Addressed(raw)).Some?
    && Merged(env, MockAt(a.storage, Addressed(raw)).value, WithPath(changes, Normalize(raw).value)).Some?
  }

  /** The configuration that a successful patch installs. */
  function Patched(env: Env, a: App, raw: string, changes: Object): Mock
    requires Patchable(env, a, raw, changes)
  {
    Merged(env, MockAt(a.storage, Addressed(raw)).value, WithPath(changes, Normalize(raw).value)).value.(path := Addressed(raw))
  }

  lemma PatchInstalls(env: Env, a: App, raw: string, changes: Object)
    requires !PatchMock(env, a, raw, changes).1.Invalid? && !PatchMock(env, a, raw, changes).1.NotFound?
    ensures Patchable(env, a, raw, changes)
    ensures var saved, mock := MockAt(a.storage, Addressed(raw)).value, Patched(env, a, raw, changes);
            var r := MockInit(env, a, mock, PreservedKeys(changes, mock), KeepsRecordings(saved, mock), None);
            PatchMock(env, a, raw, changes) == if r.None? then (a, Crashed) else (r.value, Success)
  {
    var saved := MockAt(a.storage, Addressed(raw)).value;
    var m := Merged(env, saved, WithPath(changes, Normalize(raw).value)).value;
    PathIsIrrelevant(saved, m, changes, Addressed(raw));
  }

  /** The merged configuration has passed the parser. */
  lemma PatchedIsValid(env: Env, a: App, raw: string, changes: Object)
    requires SoundSchema(env.schema) && Patchable(env, a, raw, changes)
    ensures ValidMock(Patched(env, a, raw, changes))
  {
    var m := Merged(env, MockAt(a.storage, Addressed(raw)).value, WithPath(changes, Normalize(raw).value)).value;
    ValidWithPath(m, Addressed(raw));
  }

  /**
   * A successful patch installs the merged configuration: cursors of unmentioned sequences and,
   * where upstream and matching headers stay, the recordings are handed over. Any other outcome
   * leaves the application as it was.
   */
  lemma PatchEffect(env: Env, a: App, raw: string, changes: Object)
    requires AppOk(env, a) && SoundSchema(env.schema)
    ensures var (b, status) := PatchMock(env, a, raw, changes);
            if status.Success? then
              && Patchable(env, a, raw, changes)
              && var saved, mock := MockAt(a.storage, Addressed(raw)).value, Patched(env, a, raw, changes);
                 && Settled(mock.path) && Admissible(env, mock.path) && ValidMock(mock)
                 && b == Generation(env, a, mock, PreservedKeys(changes, mock), KeepsRecordings(saved, mock), None)
            else b == a && !status.Crashed?
  {
    var status := PatchMock(env, a, raw, changes).1;
    if !status.Invalid? && !status.NotFound? {
      PatchInstalls(env, a, raw, changes);
      AddressedIsStored(env, a, raw);
      PatchedIsValid(env, a, raw, changes);
      var saved, mock := MockAt(a.storage, Addressed(raw)).value, Patched(env, a, raw, changes);
      MockInitOnSettled(env, a, mock, PreservedKeys(changes, mock), KeepsRecordings(saved, mock), None);
    }
  }

  lemma PatchOk(env: Env, a: App, raw: string, changes: Object)
    requires AppOk(env, a) && SoundSchema(env.schema)
    ensures AppOk(env, PatchMock(env, a, raw, changes).0)
  {
    PatchEffect(env, a, raw, changes);
    if PatchMock(env, a, raw, changes).1.Success? {
      var saved, mock := MockAt(a.storage, Addressed(raw)).value, Patched(env, a, raw, changes);
      PatchInitOk(env, a, Addressed(raw), saved, mock);
      GenerationOk(env, a, mock, PreservedKeys(changes, mock), KeepsRecordings(saved, mock), None);
    }
  }

  lemma StoredMayBePatched(env: Env, a: App, raw: string)
    requires AppOk(env, a) && Normalize(raw).Some? && MockAt(a.storage, Addressed(raw)).Some?
    ensures ValidatePath(env.prefix, env.compiles, Normalize(raw).value) == Some(Addressed(raw))
  {
    AddressedIsStored(env, a, raw);
  }

  /**
   * How a patch ends: it succeeds exactly if its path is that of a stored mock, its body does not name
   * another one, and the merged configuration is valid; without such a mock nothing is found.
   */
  lemma PatchOutcomeIff(env: Env, a: App, raw: string, changes: Object)
    requires AppOk(env, a)
    ensures var named := Normalize(raw).Some? && NamesPath(changes, Normalize(raw).value);
            var stored := named && MockAt(a.storage, Addressed(raw)).Some?;
            PatchMock(env, a, raw, changes).1 ==
            if !named then Invalid
            else if !stored then NotFound
            else if Merged(env, MockAt(a.storage, Addressed(raw)).value, WithPath(changes, Normalize(raw).value)).None? then Invalid
            else Success
  {
    if Normalize(raw).Some? && MockAt(a.storage, Addressed(raw)).Some? {
      StoredMayBePatched(env, a, raw);
      AddressedIsStored(env, a, raw);
      var status := PatchMock(env, a, raw, changes).1;
      if !status.Invalid? && !status.NotFound? {
        PatchInstalls(env, a, raw, changes);
      }
    }
  }

  /**
   * Through the parser: if a configuration that it reads back differs from the stored one as the patch
   * says, field by field, then the patch succeeds and exactly that configuration is stored.
   */
  lemma PatchSetsFields(env: Env, a: App, raw: string, changes: Object, m: Mock)
    requires AppOk(env, a) && SoundSchema(env.schema) && ReadsBack(env.schema, m)
    requires Normalize(raw) == Some(m.path) && NamesPath(changes, m.path) && MockAt(a.storage, Addressed(raw)).Some?
    requires Patches(Dump(MockAt(a.storage, Addressed(raw)).value), WithPath(changes, m.path), Dump(m))
    ensures var (b, status) := PatchMock(env, a, raw, changes);
            status.Success? && MockAt(b.storage, Addressed(raw)) == Some(m.(path := Addressed(raw)))
  {
    var saved := MockAt(a.storage, Addressed(raw)).value;
    MergeIff(Dump(saved), WithPath(changes, m.path), Dump(m));
    var merged := Merged(env, saved, WithPath(changes, m.path)).value;
    assert merged.(path := Addressed(raw)) == merged.(path := m.path).(path := Addressed(raw));
    PatchOutcomeIff(env, a, raw, changes);
    PatchEffect(env, a, raw, changes);
    var mock := Patched(env, a, raw, changes);
    assert mock == m.(path := Addressed(raw));
    FiledIsSame(mock);
    SetMockShape(a.storage, mock);
  }

  lemma WholeIsPatch(saved: Object, changes: Object)
    requires saved.Keys == changes.Keys && "mock_data" in changes && changes["mock_data"].Dict?
    requires DataOf(saved).Keys <= DataOf(changes).Keys
    ensures Patches(saved, changes, changes)
  {
  }

  lemma DumpedParts(m: Mock)
    ensures Dump(m).Keys == {
              "path", "methods", "mock_data", "extra_info", "proxy_host", "timeout", "rules", "sequence", "recording"}
    ensures Dump(m)["mock_data"] == Dict(m.mockData) && DataOf(Dump(m)) == m.mockData
    ensures WithPath(Dump(m), m.path) == Dump(m) && NamesPath(Dump(m), m.path) == (Normalize(m.path) == Some(m.path))
  {
  }

  /** So a patch with the whole dictionary of a configuration stores just this configuration. */
  lemma WholePatchReplaces(env: Env, a: App, raw: string, m: Mock)
    requires AppOk(env, a) && SoundSchema(env.schema) && ReadsBack(env.schema, m)
    requires Normalize(raw) == Some(m.path) && Normalize(m.path) == Some(m.path)
    requires MockAt(a.storage, m.path).Some? && MockAt(a.storage, m.path).value.mockData.Keys <= m.mockData.Keys
    ensures var (b, status) := PatchMock(env, a, raw, Dump(m)); status.Success? && MockAt(b.storage, m.path) == Some(m)
  {
    var saved := MockAt(a.storage, m.path).value;
    DumpedParts(saved);
    DumpedParts(m);
    WholeIsPatch(Dump(saved), Dump(m));
    assert m.(path := m.path) == m;
    PatchSetsFields(env, a, raw, Dump(m), m);
  }

  /** A successful DELETE removes exactly the mock that its parameter addresses. */
  lemma DeleteEffect(env: Env, a: App, raw: string)
    requires AppOk(env, a) && DeleteMock(a, raw).1.Success?
    ensures Normalize(raw).Some? && Settled(Addressed(raw)) && MockAt(a.storage, Addressed(raw)).Some?
    ensures DeleteMock(a, raw).0
            == RemoveRuntime(a, Addressed(raw)).(storage := RemoveMock(a.storage, Addressed(raw)))
  {
    AddressedIsStored(env, a, raw);
    SettledFacts(Addressed(raw));
  }

  lemma DeleteOk(env: Env, a: App, raw: string)
    requires AppOk(env, a)
    ensures AppOk(env, DeleteMock(a, raw).0)
  {
    if DeleteMock(a, raw).1.Success? {
      DeleteEffect(env, a, raw);
      var p := Addressed(raw);
      var live := PathsOf(a.storage);
      RemoveMockShape(a.storage, p);
      StoredPaths(a.storage, MockAt(a.storage, p).value, p);
      RemoveOneOk(env, a, live, p);
      StorageElsewhere(RemoveRuntime(a, p), live - {p}, RemoveMock(a.storage, p));
    }
  }

  lemma RemoveOneOk(env: Env, a: App, live: set<string>, p: RootedPath)
    requires Consistent(a, live) && HeapOk(env.codec, a) && Settled(p)
    ensures var b := RemoveRuntime(a, p);
            Consistent(b, live - {p}) && HeapOk(env.codec, b) && b.storage == a.storage
  {
    RemoveConsistent(a, live, p);
    RemoveHeapOk(env.codec, a, p);
    RemoveFrame(a, p);
  }

  lemma PathsOfFirst(mocks: seq<Mock>)
    requires mocks != []
    ensures PathsOf(mocks) == {mocks[0].path} + PathsOf(mocks[1..])
  {
    assert mocks == [mocks[0]] + mocks[1..];
  }

  lemma {:induction false} RemoveAllOk(env: Env, a: App, live: set<string>, mocks: seq<Mock>)
    requires Consistent(a, live) && HeapOk(env.codec, a) && forall m :: m in mocks ==> Settled(m.path)
    ensures var b := RemoveAll(a, mocks);
            Consistent(b, live - PathsOf(mocks)) && HeapOk(env.codec, b) && b.storage == a.storage
    decreases |mocks|
  {
    if mocks == [] {
      assert live - PathsOf(mocks) == live;
    } else {
      var p := mocks[0].path;
      assert mocks[0] in mocks;
      RemoveOneOk(env, a, live, p);
      RemoveAllOk(env, RemoveRuntime(a, p), live - {p}, mocks[1..]);
      PathsOfFirst(mocks);
      assert live - {p} - PathsOf(mocks[1..]) == live - PathsOf(mocks);
    }
  }

  lemma NoMembers<T(!new)>(s: seq<T>)
    ensures (forall x :: x !in s) ==> s == []
  {
    if s != [] {
      assert s[0] in s;
    }
  }

  /** Clearing leaves nothing behind: no mock, cursor, store or route is reachable. */
  lemma CleanupOk(env: Env, a: App)
    requires AppOk(env, a)
    ensures var b := Cleanup(a);
            && AppOk(env, b) && b.storage == [] && b.sequences == map[] && b.recordings == map[] && b.routes == []
            && forall i :: 0 <= i < |b.stores| ==> !b.stores[i].active
  {
    forall m | m in a.storage
      ensures Settled(m.path)
    {
      assert m.path in PathsOf(a.storage);
      assert Agrees(a, m.path);
    }
    RemoveAllOk(env, a, PathsOf(a.storage), a.storage);
    var c := RemoveAll(a, a.storage);
    assert PathsOf(a.storage) - PathsOf(a.storage) == {};
    StorageElsewhere(c, {}, []);
    var b := Cleanup(a);
    NoMembers(b.routes);
    assert PathsOf([]) == {};
  }

  /** Changing the content of a store, but not its configuration or activity. */
  lemma StoreChangeOk(env: Env, a: App, id: nat, s: StoreState)
    requires AppOk(env, a) && id < |a.stores|
    requires s.config == a.stores[id].config && s.active == a.stores[id].active && StoreWell(env.codec, s)
    ensures AppOk(env, a.(stores := a.stores[id := s]))
  {
    StoreChangeConsistent(a, PathsOf(a.storage), id, s);
  }

  lemma StoreChangeAgrees(a: App, live: set<string>, id: nat, s: StoreState, p: string)
    requires Consistent(a, live) && id < |a.stores| && p in live
    requires s.config == a.stores[id].config && s.active == a.stores[id].active
    ensures Agrees(a.(stores := a.stores[id := s]), p)
  {
    assert Agrees(a, p);
  }

  lemma StoreChangeConsistent(a: App, live: set<string>, id: nat, s: StoreState)
    requires Consistent(a, live) && id < |a.stores|
    requires s.config == a.stores[id].config && s.active == a.stores[id].active
    ensures Consistent(a.(stores := a.stores[id := s]), live)
  {
    var b := a.(stores := a.stores[id := s]);
    forall p | p in live
      ensures Agrees(b, p)
    {
      StoreChangeAgrees(a, live, id, s, p);
    }
    SameRoutes(a, b, live);
    assert OnlyOwnedActive(b) by {
      assert forall i :: 0 <= i < |b.stores| ==> b.stores[i].active == a.stores[i].active;
    }
  }

  /** Moving a cursor within its sequence. */
  lemma CursorChangeOk(env: Env, a: App, id: nat, c: Cursor)
    requires AppOk(env, a) && id < |a.cursors| && c.sequence == a.cursors[id].sequence && c.Ok()
    ensures AppOk(env, a.(cursors := a.cursors[id := c]))
  {
    CursorChangeConsistent(a, PathsOf(a.storage), id, c);
  }

  lemma CursorChangeConsistent(a: App, live: set<string>, id: nat, c: Cursor)
    requires Consistent(a, live) && id < |a.cursors| && c.sequence == a.cursors[id].sequence
    ensures Consistent(a.(cursors := a.cursors[id := c]), live)
  {
    var b := a.(cursors := a.cursors[id := c]);
    forall p | p in live
      ensures Agrees(b, p)
    {
      assert Agrees(a, p);
    }
    SameRoutes(a, b, live);
    assert OnlyOwnedActive(b) by {
      assert OnlyOwnedActive(a);
    }
  }

  lemma SameRoutes(a: App, b: App, live: set<string>)
    requires RoutesAgree(a, live)
    requires b.routes == a.routes && b.storage == a.storage && b.sequences == a.sequences && b.recordings == a.recordings
    ensures RoutesAgree(b, live)
  {
    forall r | r in b.routes
      ensures RouteAgrees(b, live, r)
    {
      assert RouteAgrees(a, live, r);
    }
  }

  lemma DeletedWell(codec: Codec, s: StoreState, key: Option<string>)
    requires StoreWell(codec, s)
    ensures StoreWell(codec, Deleted(s, key))
  {
    DeletedOk(s, key);
    if key.Some? {
      WithoutShape(s.slots, key.value);
    }
  }

  lemma DeletionOk(env: Env, a: App, id: nat, key: Option<string>)
    requires AppOk(env, a) && id < |a.stores|
    ensures AppOk(env, a.(stores := a.stores[id := Deleted(a.stores[id], key)]))
  {
    DeletedWell(env.codec, a.stores[id], key);
    StoreChangeOk(env, a, id, Deleted(a.stores[id], key));
  }

  lemma DeletionEffect(a: App, raw: string, key: Option<string>) returns (id: nat)
    requires DeleteRecordings(a, raw, key).0 != a
    ensures id < |a.stores| && DeleteRecordings(a, raw, key).0 == a.(stores := a.stores[id := Deleted(a.stores[id], key)])
  {
    id := a.recordings[Normalize(raw).value];
  }

  lemma DeleteRecordingsOk(env: Env, a: App, raw: string, key: Option<string>)
    requires AppOk(env, a)
    ensures AppOk(env, DeleteRecordings(a, raw, key).0)
  {
    if DeleteRecordings(a, raw, key).0 != a {
      var id := DeletionEffect(a, raw, key);
      DeletionOk(env, a, id, key);
    }
  }

  lemma ResetOk(env: Env, a: App, raw: string, key: Key)
    requires AppOk(env, a)
    ensures AppOk(env, ResetSequence(a, raw, key).0)
  {
    if ResetSequence(a, raw, key).1.Success? {
      var id := a.sequences[Normalize(raw).value][key];
      CursorChangeOk(env, a, id, AfterReset(a.cursors[id]));
    }
  }
}
