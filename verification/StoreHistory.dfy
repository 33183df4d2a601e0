/**
 * The life of one recording store inside a running server: who owns it, what administrative
 * operations do to it, and which events of its own every step of the server amounts to.
 */
module StoreHistory {
  import opened Wrappers
  import opened Json
  import opened Paths
  import opened Recordings
  import opened Store
  import opened Mocks
  import opened Sequences
  import opened Rules
  import opened Lifecycle
  import opened Admin
  import opened Snapshot
  import opened SnapshotProofs
  import opened Machine
  import opened LateWrites
  import opened CursorRuns

  // ---------------------------------------------------------------- stores under administration

  /** Old stores are kept or retired, and a path is never given an old store. */
  predicate Descends(a: App, b: App) {
    && |a.stores| <= |b.stores|
    && (forall i :: 0 <= i < |a.stores| ==> b.stores[i] == a.stores[i] || b.stores[i] == Retired(a.stores[i]))
    && (forall q :: q in b.recordings ==>
          b.recordings[q] >= |a.stores| || (q in a.recordings && a.recordings[q] == b.recordings[q]))
  }

  lemma DescendsTransitive(a: App, b: App, c: App)
    requires Descends(a, b) && Descends(b, c)
    ensures Descends(a, c)
  {
  }

  lemma RemoveDescends(a: App, path: RootedPath)
    ensures Descends(a, RemoveRuntime(a, path))
  {
  }

  lemma {:induction false} RemoveAllDescends(a: App, mocks: seq<Mock>)
    ensures Descends(a, RemoveAll(a, mocks))
    decreases |mocks|
  {
    if mocks != [] {
      var b := RemoveRuntime(a, mocks[0].path);
      RemoveDescends(a, mocks[0].path);
      RemoveAllDescends(b, mocks[1..]);
      DescendsTransitive(a, b, RemoveAll(a, mocks));
    }
  }

  lemma GenerationDescends(
    env: Env, a: App, m: Mock, preserve: set<Key>, keepRecordings: bool, imported: Option<seq<Entry>>)
    ensures Descends(a, Generation(env, a, m, preserve, keepRecordings, imported))
  {
    RemoveDescends(a, m.path);
  }

  lemma MockInitDescends(
    env: Env, a: App, m: Mock, preserve: set<Key>, keepRecordings: bool, imported: Option<seq<Entry>>)
    ensures var r := MockInit(env, a, m, preserve, keepRecordings, imported); r.Some? ==> Descends(a, r.value)
  {
    MockInitLands(env, a, m, preserve, keepRecordings, imported);
    GenerationDescends(env, a, m.(path := Lands(m.path)), preserve, keepRecordings, imported);
  }

  lemma {:induction false} InstallAllDescends(env: Env, a: App, parsed: seq<Parsed>)
    ensures Descends(a, InstallAll(env, a, parsed))
    decreases |parsed|
  {
    if parsed != [] {
      var b := Next(env, a, parsed[0]);
      GenerationDescends(env, a, parsed[0].mock, {}, false, parsed[0].entries);
      InstallAllDescends(env, b, parsed[1..]);
      DescendsTransitive(a, b, InstallAll(env, a, parsed));
    }
  }

  lemma PutDescends(env: Env, a: App, raw: string, body: Object)
    ensures Descends(a, PutMock(env, a, raw, body).0)
  {
    var identity := Normalize(raw);
    if identity.Some? && env.schema(WithPath(body, identity.value)).Some? {
      MockInitDescends(
        env, a, env.schema(WithPath(body, identity.value)).value.(path := Addressed(raw)), {}, false, None);
    }
  }

  lemma PatchDescends(env: Env, a: App, raw: string, changes: Object)
    ensures Descends(a, PatchMock(env, a, raw, changes).0)
  {
    var status := PatchMock(env, a, raw, changes).1;
    if !status.Invalid? && !status.NotFound? {
      PatchInstalls(env, a, raw, changes);
      var saved, mock := MockAt(a.storage, Addressed(raw)).value, Patched(env, a, raw, changes);
      MockInitDescends(env, a, mock, PreservedKeys(changes, mock), KeepsRecordings(saved, mock), None);
    }
  }

  lemma DeleteDescends(a: App, raw: string)
    ensures Descends(a, DeleteMock(a, raw).0)
  {
    if DeleteMock(a, raw).1.Success? {
      RemoveDescends(a.(storage := RemoveMock(a.storage, Addressed(raw))), Normalize(raw).value);
    }
  }

  lemma ImportDescends(env: Env, a: App, doc: Document, replace: bool)
    ensures Descends(a, Import(env, a, doc, replace).0)
  {
    ImportInstalls(env, a, doc, replace);
    RemoveAllDescends(a, a.storage);
    var start := StartOf(a, replace);
    InstallAllDescends(env, start, Installed(env, doc));
    DescendsTransitive(a, start, InstallAll(env, start, Installed(env, doc)));
  }

  lemma AdminDescends(env: Env, a: App, l: Label)
    requires !l.DeleteRecording?
    ensures Descends(a, AdminStep(env, a, l))
  {
    match l
    case Put(raw, body) => PutDescends(env, a, raw, body);
    case Patch(raw, changes) => PatchDescends(env, a, raw, changes);
    case Delete(raw) => DeleteDescends(a, raw);
    case Clear => RemoveAllDescends(a, a.storage);
    case ImportSnapshot(doc, replace) => ImportDescends(env, a, doc, replace);
    case _ =>
  }

  // ---------------------------------------------------------------- owners

  /** Over any step, a path that owns an old store owned it before. */
  lemma OwnedBeforeStep(env: Env, s: System, l: Label, p: string)
    requires var t := Step(env, s, l).app; p in t.recordings && t.recordings[p] < |s.app.stores|
    ensures p in s.app.recordings && s.app.recordings[p] == Step(env, s, l).app.recordings[p]
  {
    if IsAdmin(l) {
      AdminOnly(env, s, l);
      if !l.DeleteRecording? {
        AdminDescends(env, s.app, l);
      }
    } else if l.Resume? && l.id in s.requests {
      StepReserves(env, s.app, s.requests[l.id], l.input);
    }
  }

  /** The path owns a store that exists already in an earlier state. */
  predicate OwnsOld(early: App, late: App, p: string) {
    p in late.recordings && late.recordings[p] < |early.stores|
  }

  lemma OwnedOneBefore(env: Env, early: App, s: System, l: Label, t: System, p: string)
    requires t == Step(env, s, l) && |early.stores| <= |s.app.stores| && OwnsOld(early, t.app, p)
    ensures OwnsOld(early, s.app, p) && s.app.recordings[p] == t.app.recordings[p]
  {
    OwnedBeforeStep(env, s, l, p);
  }

  lemma StepToFrom(env: Env, s: System, labels: seq<Label>, k: nat, m: nat)
    requires k < m <= |labels|
    ensures At(env, s, labels, m) == Step(env, At(env, s, labels, m - 1), labels[m - 1])
    ensures |At(env, s, labels, k).app.stores| <= |At(env, s, labels, m - 1).app.stores|
  {
    AtNext(env, s, labels, m - 1);
    RunLater(env, s, labels, k, m - 1);
  }

  /** Over any run, a path that owns a store has owned it since the store exists. */
  lemma {:induction false} OwnedSince(env: Env, s: System, labels: seq<Label>, k: nat, m: nat, p: string)
    requires k <= m <= |labels| && OwnsOld(At(env, s, labels, k).app, At(env, s, labels, m).app, p)
    ensures p in At(env, s, labels, k).app.recordings
    ensures At(env, s, labels, k).app.recordings[p] == At(env, s, labels, m).app.recordings[p]
    decreases m - k
  {
    if k < m {
      StepToFrom(env, s, labels, k, m);
      OwnedOneBefore(
        env, At(env, s, labels, k).app, At(env, s, labels, m - 1), labels[m - 1], At(env, s, labels, m), p);
      OwnedSince(env, s, labels, k, m - 1, p);
    }
  }

  // ---------------------------------------------------------------- captures

  /** A request starts to identify: its handler's store and the revision are captured. */
  predicate Identifies(s: System, l: Label, r: nat, store: nat) {
    && l == Resume(r, Continue) && r in s.requests && s.requests[r].Accepted?
    && MethodAllowed(s.requests[r].handler.mock.methods, s.requests[r].request.verb)
    && s.requests[r].handler.recordings == Some(store) && store < |s.app.stores|
  }

  /** A capture is made by identifying, or was there before the step. */
  lemma CaptureStep(env: Env, s: System, l: Label, r: nat)
    requires TicketsOk(env, s) && r in Step(env, s, l).requests && CaptureOf(Step(env, s, l).requests[r]).Some?
    ensures var c := CaptureOf(Step(env, s, l).requests[r]).value;
            || (r in s.requests && CaptureOf(s.requests[r]) == Some(c))
            || (Identifies(s, l, r, c.store) && c.revision == s.app.stores[c.store].revision)
  {
    if r in s.requests {
      StepKeepsCapture(env, s, l, r);
      if l.Resume? && l.id == r && s.requests[r].Accepted? {
        AcceptedCapture(env, s.app, s.requests[r], l.input);
      }
    }
  }

  lemma AcceptedCapture(env: Env, a: App, p: Phase, input: Input)
    requires p.Accepted? && CaptureOf(Advance(env, a, p, input).1).Some?
    ensures var c := CaptureOf(Advance(env, a, p, input).1).value;
            && input.Continue? && MethodAllowed(p.handler.mock.methods, p.request.verb)
            && p.handler.recordings == Some(c.store) && c.store < |a.stores| && c.revision == a.stores[c.store].revision
  {
  }

  /**
   * The revision a request carries is the one its store had when the request began to identify,
   * before its body was awaited.
   */
  lemma {:induction false} CaptureOrigin(env: Env, labels: seq<Label>, n: nat, r: nat) returns (i: nat)
    requires n <= |labels| && r in At(env, INITIAL, labels, n).requests
    requires CaptureOf(At(env, INITIAL, labels, n).requests[r]).Some?
    ensures i < n && var c := CaptureOf(At(env, INITIAL, labels, n).requests[r]).value;
            && Identifies(At(env, INITIAL, labels, i), labels[i], r, c.store)
            && c.revision == At(env, INITIAL, labels, i).app.stores[c.store].revision
  {
    assert labels[..0] == [];
    var m := n - 1;
    AtNext(env, INITIAL, labels, m);
    RunTicketsOk(env, INITIAL, labels[..m]);
    CaptureStep(env, At(env, INITIAL, labels, m), labels[m], r);
    var c := CaptureOf(At(env, INITIAL, labels, n).requests[r]).value;
    if Identifies(At(env, INITIAL, labels, m), labels[m], r, c.store)
       && c.revision == At(env, INITIAL, labels, m).app.stores[c.store].revision {
      i := m;
    } else {
      i := CaptureOrigin(env, labels, m, r);
    }
  }
}
