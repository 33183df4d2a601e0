/**
 * Where replayed replies come from. Every entry any store holds was saved by a request of the run
 * or installed by an accepted import; so a replay repeats, up to a collision of digests, a live
 * reply that the run has already given to the same request, or what an import has installed.
 */
module Provenance {
  import opened Wrappers
  import opened Json
  import opened Base64
  import opened Paths
  import opened Recordings
  import opened Store
  import opened Mocks
  import opened Sequences
  import opened Lifecycle
  import opened Admin
  import opened AdminEffects
  import opened Snapshot
  import opened SnapshotProofs
  import opened Machine
  import opened LateWrites
  import opened Reachable

  predicate HeldBy(s: StoreState, e: Entry) {
    exists x :: x in s.slots && x.entry == e
  }

  /** Some store, live or retired, holds the entry. */
  predicate Held(a: App, e: Entry) {
    exists i :: 0 <= i < |a.stores| && HeldBy(a.stores[i], e)
  }

  /** The label saves the entry: an upstream reply arrives, and `save` answers "stored". */
  predicate RecordedBy(env: Env, s: System, l: Label, e: Entry) {
    && l.Resume? && l.input.Answered? && l.id in s.requests
    && s.requests[l.id].Upstream? && s.requests[l.id].ticket.Some?
    && var t := s.requests[l.id].ticket.value;
       && t.store < |s.app.stores|
       && e == EntryOf(env.codec.hash, t.data, l.input.reply)
       && SaveOutcome(s.app.stores[t.store], env.codec.size(e), t.revision).Stored?
  }

  /** The entry comes with one of the mocks that an import of the document installs. */
  predicate Brings(parsed: seq<Parsed>, e: Entry) {
    exists x :: x in parsed && x.entries.Some? && e in x.entries.value
  }

  /** The label imports the entry: its document is accepted, and a mock with the entry is installed. */
  predicate ImportedBy(env: Env, l: Label, e: Entry) {
    l.ImportSnapshot? && Brings(Installed(env, l.doc), e)
  }

  lemma NewStoreHolds(codec: Codec, config: Config, prior: Option<StoreState>, imported: Option<seq<Entry>>, e: Entry)
    requires HeldBy(NewStore(codec, config, prior, imported), e)
    ensures if imported.Some? then e in imported.value else prior.Some? && HeldBy(prior.value, e)
  {
    var start := if imported.Some? then FromEntries(codec, imported.value) else if prior.Some? then prior.value.slots else [];
    if imported.Some? {
      FromEntriesDistinct(codec, imported.value);
    }
    TrimmedIsLongest(start, config.maxItems, config.maxBytes);
    var x :| x in NewStore(codec, config, prior, imported).slots && x.entry == e;
    assert x in start;
  }

  lemma HeldAt(a: App, i: nat, e: Entry)
    requires i < |a.stores| && HeldBy(a.stores[i], e)
    ensures Held(a, e)
  {
  }

  lemma SameSlotsHeld(a: App, b: App, e: Entry)
    requires |b.stores| <= |a.stores| && forall i :: 0 <= i < |b.stores| ==> b.stores[i].slots == a.stores[i].slots
    requires Held(b, e)
    ensures Held(a, e)
  {
    var i :| 0 <= i < |b.stores| && HeldBy(b.stores[i], e);
    assert HeldBy(a.stores[i], e);
  }

  lemma GenerationHolds(
    env: Env, a: App, m: Mock, preserve: set<Key>, keepRecordings: bool, imported: Option<seq<Entry>>, e: Entry)
    requires Held(Generation(env, a, m, preserve, keepRecordings, imported), e)
    ensures Held(a, e) || (imported.Some? && e in imported.value)
  {
    var b := Generation(env, a, m, preserve, keepRecordings, imported);
    var i :| 0 <= i < |b.stores| && HeldBy(b.stores[i], e);
    if i < |a.stores| {
      GenerationHeap(env, a, m, preserve, keepRecordings, imported);
      assert HeldBy(a.stores[i], e);
    } else {
      var prior := if keepRecordings then StoreAt(a, m.path) else None;
      NewStoreHolds(env.codec, m.recording.value, prior, imported, e);
      if imported.None? {
        HeldAt(a, a.recordings[m.path], e);
      }
    }
  }

  lemma MockInitHeld(env: Env, a: App, m: Mock, preserve: set<Key>, keepRecordings: bool, e: Entry)
    requires var r := MockInit(env, a, m, preserve, keepRecordings, None); r.Some? && Held(r.value, e)
    ensures Held(a, e)
  {
    MockInitLands(env, a, m, preserve, keepRecordings, None);
    GenerationHolds(env, a, m.(path := Lands(m.path)), preserve, keepRecordings, None, e);
  }

  lemma {:induction false} InstallAllHeld(env: Env, a: App, parsed: seq<Parsed>, e: Entry)
    requires Held(InstallAll(env, a, parsed), e)
    ensures Held(a, e) || Brings(parsed, e)
    decreases |parsed|
  {
    if parsed != [] {
      var p := parsed[0];
      assert p in parsed && forall x :: x in parsed[1..] ==> x in parsed;
      InstallAllHeld(env, Next(env, a, p), parsed[1..], e);
      if Held(Next(env, a, p), e) {
        GenerationHolds(env, a, p.mock, {}, false, p.entries, e);
      }
    }
  }

  lemma {:induction false} RemoveAllSlots(a: App, mocks: seq<Mock>)
    ensures var b := RemoveAll(a, mocks);
            |b.stores| == |a.stores| && forall i :: 0 <= i < |a.stores| ==> b.stores[i].slots == a.stores[i].slots
    decreases |mocks|
  {
    if mocks != [] {
      RemoveAllSlots(RemoveRuntime(a, mocks[0].path), mocks[1..]);
    }
  }

  lemma ImportHeld(env: Env, a: App, doc: Document, replace: bool, e: Entry)
    requires Held(Import(env, a, doc, replace).0, e)
    ensures Held(a, e) || Brings(Installed(env, doc), e)
  {
    ImportInstalls(env, a, doc, replace);
    if Validated(env, doc).Some? {
      RemoveAllSlots(a, a.storage);
      InstallAllHeld(env, StartOf(a, replace), Installed(env, doc), e);
      if Held(StartOf(a, replace), e) {
        SameSlotsHeld(a, StartOf(a, replace), e);
      }
    }
  }

  /** An imported entry is listed in the document, with a path that lands where the entry is installed. */
  lemma ImportedIsListed(env: Env, l: Label, e: Entry) returns (x: Parsed, raw: RawMock)
    requires SoundSchema(env.schema) && ImportedBy(env, l, e)
    ensures x in Installed(env, l.doc) && x.entries.Some? && e in x.entries.value
    ensures raw in l.doc.mocks.value && raw.RawMock? && raw.recordings == Some(Entries(x.entries.value))
    ensures Field(raw.fields, "path").Str? && Normalize(Field(raw.fields, "path").text).Some?
    ensures Landing(Field(raw.fields, "path").text) == x.mock.path
  {
    x :| x in Installed(env, l.doc) && x.entries.Some? && e in x.entries.value;
    raw := InstalledFrom(env, l.doc, x);
  }

  lemma PatchHeld(env: Env, a: App, raw: string, changes: Object, e: Entry)
    requires Held(PatchMock(env, a, raw, changes).0, e)
    ensures Held(a, e)
  {
    if PatchMock(env, a, raw, changes).1.Success? {
      PatchInstalls(env, a, raw, changes);
      var saved, mock := MockAt(a.storage, Addressed(raw)).value, Patched(env, a, raw, changes);
      MockInitHeld(env, a, mock, PreservedKeys(changes, mock), KeepsRecordings(saved, mock), e);
    }
  }

  lemma PutHeld(env: Env, a: App, raw: string, body: Object, e: Entry)
    requires Held(PutMock(env, a, raw, body).0, e)
    ensures Held(a, e)
  {
    PutInstalls(env, a, raw, body);
    if PutSucceeds(env, raw, body) {
      MockInitHeld(env, a, Submitted(env, raw, body).(path := Addressed(raw)), {}, false, e);
    }
  }

  lemma DeleteRecordingHeld(a: App, raw: string, key: Option<string>, e: Entry)
    requires Held(DeleteRecordings(a, raw, key).0, e)
    ensures Held(a, e)
  {
    var b := DeleteRecordings(a, raw, key).0;
    var i :| 0 <= i < |b.stores| && HeldBy(b.stores[i], e);
    if key.Some? {
      WithoutShape(a.stores[i].slots, key.value);
    }
    assert HeldBy(a.stores[i], e);
  }

  lemma AdminHeld(env: Env, a: App, l: Label, e: Entry)
    requires Held(AdminStep(env, a, l), e)
    ensures Held(a, e) || ImportedBy(env, l, e)
  {
    match l
    case Put(raw, m) => PutHeld(env, a, raw, m, e);
    case Patch(raw, c) => PatchHeld(env, a, raw, c, e);
    case Delete(raw) => SameSlotsHeld(a, DeleteMock(a, raw).0, e);
    case Clear =>
      RemoveAllSlots(a, a.storage);
      SameSlotsHeld(a, Cleanup(a), e);
    case ImportSnapshot(doc, replace) => ImportHeld(env, a, doc, replace, e);
    case DeleteRecording(raw, key) => DeleteRecordingHeld(a, raw, key, e);
    case ResetCursor(raw, key) => SameSlotsHeld(a, ResetSequence(a, raw, key).0, e);
    case _ =>
  }

  lemma RequestHeld(env: Env, s: System, l: Label, e: Entry)
    requires l.Resume? && l.id in s.requests && Held(Step(env, s, l).app, e)
    ensures Held(s.app, e) || RecordedBy(env, s, l, e)
  {
    var p, input := s.requests[l.id], l.input;
    if p.Upstream? && input.Answered? && p.ticket.Some? {
      var t := p.ticket.value;
      if t.store < |s.app.stores| {
        var st := s.app.stores[t.store];
        var saved := EntryOf(env.codec.hash, t.data, input.reply);
        SavedSlots(st, Slot(saved, env.codec.size(saved)), t.revision);
        var b := Step(env, s, l).app;
        var i :| 0 <= i < |b.stores| && HeldBy(b.stores[i], e);
        var x :| x in b.stores[i].slots && x.entry == e;
        if i != t.store || x in st.slots {
          assert x in s.app.stores[i].slots;
          assert HeldBy(s.app.stores[i], e);
        }
      }
    } else {
      StoresUnchanged(env, s.app, p, input);
      SameSlotsHeld(s.app, Step(env, s, l).app, e);
    }
  }

  lemma StepHeld(env: Env, s: System, l: Label, e: Entry)
    requires Held(Step(env, s, l).app, e)
    ensures Held(s.app, e) || RecordedBy(env, s, l, e) || ImportedBy(env, l, e)
  {
    if IsAdmin(l) {
      AdminOnly(env, s, l);
      AdminHeld(env, s.app, l, e);
    } else if l.Resume? && l.id in s.requests {
      RequestHeld(env, s, l, e);
    }
  }

  /** Step `m` of the run brought the entry in. */
  predicate BroughtBy(env: Env, s: System, labels: seq<Label>, m: nat, e: Entry) {
    && m < |labels|
    && (RecordedBy(env, At(env, s, labels, m), labels[m], e) || ImportedBy(env, labels[m], e))
  }

  /** Every entry held at the end of a run was saved in it, imported in it, or there at the start. */
  lemma {:induction false} EntriesHaveOrigins(env: Env, s: System, labels: seq<Label>, e: Entry)
    requires Held(Run(env, s, labels).app, e)
    ensures Held(s.app, e) || exists m :: 0 <= m < |labels| && BroughtBy(env, s, labels, m, e)
  {
    if labels != [] {
      var n := |labels| - 1;
      StepHeld(env, Run(env, s, labels[..n]), labels[n], e);
      if Held(Run(env, s, labels[..n]).app, e) {
        EntriesHaveOrigins(env, s, labels[..n], e);
        if !Held(s.app, e) {
          var m :| 0 <= m < n && BroughtBy(env, s, labels[..n], m, e);
          assert labels[..n][..m] == labels[..m];
          assert BroughtBy(env, s, labels, m, e);
        }
      } else {
        assert BroughtBy(env, s, labels, n, e);
      }
    }
  }

  // ---------------------------------------------------------------- replay

  /** Step `m` of the run answered a request live with this reply, and stored it under this identity. */
  predicate AnsweredLive(env: Env, labels: seq<Label>, m: nat, data: RequestData, live: Response) {
    && m < |labels| && labels[m].Resume?
    && var s, t := At(env, INITIAL, labels, m), At(env, INITIAL, labels, m + 1);
       && labels[m].id in s.requests && labels[m].id in t.requests
       && s.requests[labels[m].id].Upstream? && s.requests[labels[m].id].ticket.Some?
       && s.requests[labels[m].id].ticket.value.data == data
       && t.requests[labels[m].id] == Done(Live(live))
  }

  lemma RecordingAnswers(env: Env, labels: seq<Label>, m: nat, e: Entry)
    requires m < |labels| && RecordedBy(env, At(env, INITIAL, labels, m), labels[m], e)
    ensures exists live :: AnsweredLive(env, labels, m, e.request, live)
              && live == LiveResponse(At(env, INITIAL, labels, m).requests[labels[m].id].request.verb, labels[m].input.reply, "stored")
  {
    var s := At(env, INITIAL, labels, m);
    AtNext(env, INITIAL, labels, m);
    var live := LiveResponse(s.requests[labels[m].id].request.verb, labels[m].input.reply, "stored");
    assert AnsweredLive(env, labels, m, e.request, live);
  }

  lemma IdentifiedReplay(env: Env, a: App, h: Handler, q: Request, store: nat, revision: nat, resp: Response)
    requires store < |a.stores| && Identified(env, a, h, q, store, revision).1 == Done(Replayed(resp))
    ensures var found := LookUp(a.stores[store].slots, env.codec.hash(Identity(a.stores[store].config, q)));
            found.Some? && Decode(found.value.response.bodyB64).Some?
            && resp == ReplayedResponse(found.value.response, q.verb)
  {
    // The other branch never answers with a replay.
    var r := Dispatch(env, a, h, q, None);
    assert !r.1.Done? || !r.1.answer.Replayed?;
  }

  lemma FoundEntry(codec: Codec, config: Config, slots: seq<Slot>, key: string)
    requires LookUp(slots, key).Some? && forall x :: x in slots ==> SlotOk(codec, config, x)
    ensures codec.hash(LookUp(slots, key).value.request) == key
    ensures exists x :: x in slots && x.entry == LookUp(slots, key).value
  {
    HasKeyIff(slots, key);
    assert SlotOk(codec, config, Find(slots, key).value);
  }

  /** A replayed response comes from an entry filed under the digest of the request's identity. */
  lemma ReplayedEntry(env: Env, s: System, r: nat, resp: Response) returns (e: Entry)
    requires SystemOk(env, s) && r in s.requests && s.requests[r].Identifying?
    requires Step(env, s, Resume(r, Continue)).requests[r] == Done(Replayed(resp))
    ensures Held(s.app, e) && Decode(e.response.bodyB64).Some?
    ensures resp == ReplayedResponse(e.response, s.requests[r].request.verb)
    ensures env.codec.hash(e.request) == env.codec.hash(Identity(s.app.stores[s.requests[r].store].config, s.requests[r].request))
  {
    var p := s.requests[r];
    assert PhaseOk(env, s.app, p);
    var st := s.app.stores[p.store];
    IdentifiedReplay(env, s.app, p.handler, p.request, p.store, p.revision, resp);
    var key := env.codec.hash(Identity(st.config, p.request));
    FoundEntry(env.codec, st.config, st.slots, key);
    e := LookUp(st.slots, key).value;
    assert HeldBy(st, e);
  }

  /** The run imported an entry with this request digest and this replay. */
  predicate BroughtByImport(env: Env, labels: seq<Label>, m: nat, e: Entry, mine: RequestData, verb: string, resp: Response) {
    && m < |labels| && ImportedBy(env, labels[m], e) && Decode(e.response.bodyB64).Some?
    && env.codec.hash(e.request) == env.codec.hash(mine) && resp == ReplayedResponse(e.response, verb)
  }

  /** The run gave this response live, unmarked, to a request with this digest; with this identity it is the same. */
  predicate GivenLive(env: Env, labels: seq<Label>, m: nat, data: RequestData, live: Response, mine: RequestData, resp: Response) {
    && AnsweredLive(env, labels, m, data, live)
    && env.codec.hash(data) == env.codec.hash(mine) && (data == mine ==> resp == Unmarked(live))
  }

  /**
   * Replay never invents a reply. In every run, a replayed response is the unmarked form of a live
   * response that an earlier step gave to a request with the same identity - unless two different
   * identities share a digest - or was installed by an import in an earlier step.
   */
  lemma ReplayRepeatsALiveReply(env: Env, labels: seq<Label>, r: nat, resp: Response)
    requires SoundSchema(env.schema) && forall l :: l in labels ==> GoodLabel(env, l)
    requires var s := Run(env, INITIAL, labels);
             && r in s.requests && s.requests[r].Identifying? && s.requests[r].store < |s.app.stores|
             && Step(env, s, Resume(r, Continue)).requests[r] == Done(Replayed(resp))
    ensures var s := Run(env, INITIAL, labels);
            var mine, verb := Identity(s.app.stores[s.requests[r].store].config, s.requests[r].request), s.requests[r].request.verb;
            || (exists m, e :: BroughtByImport(env, labels, m, e, mine, verb, resp))
            || (exists m, data, live :: GivenLive(env, labels, m, data, live, mine, resp))
  {
    InitialOk(env);
    RunOk(env, INITIAL, labels);
    var s := Run(env, INITIAL, labels);
    var mine, verb := Identity(s.app.stores[s.requests[r].store].config, s.requests[r].request), s.requests[r].request.verb;
    var e := ReplayedEntry(env, s, r, resp);
    EntriesHaveOrigins(env, INITIAL, labels, e);
    var m :| 0 <= m < |labels| && BroughtBy(env, INITIAL, labels, m, e);
    if ImportedBy(env, labels[m], e) {
      assert BroughtByImport(env, labels, m, e, mine, verb, resp);
    } else {
      var live := RecordedReplay(env, labels, m, e, mine, verb, resp);
      assert GivenLive(env, labels, m, e.request, live, mine, resp);
    }
  }

  lemma RecordedReplay(
    env: Env, labels: seq<Label>, m: nat, e: Entry, mine: RequestData, verb: string, resp: Response) returns (live: Response)
    requires m < |labels| && RecordedBy(env, At(env, INITIAL, labels, m), labels[m], e)
    requires Decode(e.response.bodyB64).Some? && resp == ReplayedResponse(e.response, verb)
    requires env.codec.hash(e.request) == env.codec.hash(mine) && mine.verb == verb
    ensures GivenLive(env, labels, m, e.request, live, mine, resp)
  {
    RecordingAnswers(env, labels, m, e);
    var q0 := At(env, INITIAL, labels, m).requests[labels[m].id].request;
    live := LiveResponse(q0.verb, labels[m].input.reply, "stored");
    OriginVerb(env, labels, m);
    if e.request == mine {
      ReplayIsLive(q0.verb, labels[m].input.reply, "stored");
    }
  }

  /** The ticket of a waiting request identifies that request, so it has the same method. */
  lemma OriginVerb(env: Env, labels: seq<Label>, m: nat)
    requires m < |labels| && labels[m].Resume?
    requires var s := At(env, INITIAL, labels, m);
             labels[m].id in s.requests && s.requests[labels[m].id].Upstream? && s.requests[labels[m].id].ticket.Some?
    ensures var p := At(env, INITIAL, labels, m).requests[labels[m].id]; p.ticket.value.data.verb == p.request.verb
  {
    RunTicketsOk(env, INITIAL, labels[..m]);
    assert PhaseOk(env, At(env, INITIAL, labels, m).app, At(env, INITIAL, labels, m).requests[labels[m].id]);
  }
}
