/**
 * The server as an object: a running application and the requests suspended in it. Its steps are
 * proved to be the steps of the state machine, hence its runs are runs of the machine.
 */
module Server {
  import opened Mocks
  import opened Sequences
  import opened Store
  import opened Lifecycle
  import opened ProxyChain
  import opened Runtime
  import AdminHandlers
  import opened ApplyMocks
  import opened Machine

  ghost function PhasesView(requests: map<nat, LivePhase>): map<nat, Phase> {
    map r | r in requests :: PhaseView(requests[r])
  }

  ghost predicate AllKnown(
    env: Env, cursors: seq<ResponseSequence>, stores: seq<RecordingStore>, requests: map<nat, LivePhase>) {
    forall r :: r in requests ==> Known(env, cursors, stores, requests[r])
  }

  /** What a request refers to stays known, whatever is allocated. */
  lemma KnownGrows(
    env: Env, cursors: seq<ResponseSequence>, stores: seq<RecordingStore>, cursors': seq<ResponseSequence>,
    stores': seq<RecordingStore>, requests: map<nat, LivePhase>)
    requires cursors <= cursors' && stores <= stores' && AllKnown(env, cursors, stores, requests)
    ensures AllKnown(env, cursors', stores', requests)
  {
    forall r | r in requests
      ensures Known(env, cursors', stores', requests[r])
    {
      assert Known(env, cursors, stores, requests[r]);
    }
  }

  /** One administrative operation. */
  method Administer(app: MockApp, l: Label)
    requires app.Valid() && IsAdmin(l) && SoundSchema(app.env.schema)
    modifies app, app.storeHeap, app.cursorHeap
    ensures app.Valid() && old(app.cursorHeap) <= app.cursorHeap && old(app.storeHeap) <= app.storeHeap
    ensures forall j :: |old(app.cursorHeap)| <= j < |app.cursorHeap| ==> fresh(app.cursorHeap[j])
    ensures forall j :: |old(app.storeHeap)| <= j < |app.storeHeap| ==> fresh(app.storeHeap[j])
    ensures app.View() == AdminStep(app.env, old(app.View()), l)
  {
    match l {
      case Put(raw, m) =>
        var _ := AdminHandlers.PutMock(app, raw, m);
      case Patch(raw, c) =>
        var _ := AdminHandlers.PatchMock(app, raw, c);
      case Delete(raw) =>
        var _ := AdminHandlers.DeleteMock(app, raw);
      case Clear =>
        AdminHandlers.CleanupStorage(app);
      case ImportSnapshot(doc, replace) =>
        var _ := AdminHandlers.ImportSnapshot(app, doc, replace);
      case DeleteRecording(raw, key) =>
        var _ := AdminHandlers.DeleteRecordings(app, raw, key);
      case ResetCursor(raw, key) =>
        var _ := AdminHandlers.ResetSequence(app, raw, key);
    }
  }

  class MockServer {
    const app: MockApp
    var requests: map<nat, LivePhase>

    ghost predicate Valid()
      reads this, app, app.cursorHeap, app.storeHeap
    {
      app.Valid() && AllKnown(app.env, app.cursorHeap, app.storeHeap, requests)
    }

    ghost function View(): System
      reads this, app, app.cursorHeap, app.storeHeap
    {
      System(app.View(), PhasesView(requests))
    }

    constructor (env: Env)
      ensures Valid() && View() == INITIAL && app.env == env && fresh(app)
      ensures app.cursorHeap == [] && app.storeHeap == []
    {
      app := new MockApp(env);
      requests := map[];
    }

    /** A request arrives at a route. */
    method Arriving(r: nat, route: nat, q: Recordings.Request)
      requires Valid()
      modifies this`requests
      ensures Valid() && View() == Arrived(app.env, old(View()), r, route, q)
    {
      if r in requests || route >= |app.routes| {
        return;
      }
      var handler := app.routes[route].handler;
      assert app.routes[route] in app.routes;
      var p := if IsLoop(app.env.instanceId, q.headers) then LivePhase.Done(LoopDetected)
               else LivePhase.Accepted(handler, q);
      Suspend(r, p);
    }

    /** A request is suspended anew, or done. */
    method Suspend(r: nat, next: LivePhase)
      requires Valid() && Known(app.env, app.cursorHeap, app.storeHeap, next)
      modifies this`requests
      ensures Valid() && View() == old(View()).(requests := old(View()).requests[r := PhaseView(next)])
    {
      requests := requests[r := next];
      assert PhasesView(requests) == old(PhasesView(requests))[r := PhaseView(next)];
    }

    /** A suspended request goes on. */
    method Resuming(r: nat, input: Input)
      requires Valid()
      modifies this`requests, app.storeHeap, app.cursorHeap
      ensures Valid() && View() == Resumed(app.env, old(View()), r, input)
    {
      if r !in requests {
        return;
      }
      var next := ApplyMocks.Resume(app, requests[r], input);
      Suspend(r, next);
    }

    /** The client goes away. */
    method Cancelling(r: nat)
      requires Valid()
      modifies this`requests
      ensures Valid() && View() == Abandoned(old(View()), r)
    {
      if r in requests && !requests[r].Done? {
        Suspend(r, LivePhase.Done(Cancelled));
      }
    }

    /** An administrative operation, while requests are suspended. */
    method Administering(l: Label)
      requires Valid() && IsAdmin(l) && SoundSchema(app.env.schema)
      modifies app, app.storeHeap, app.cursorHeap
      ensures Valid() && View() == old(View()).(app := AdminStep(app.env, old(app.View()), l))
      ensures old(app.cursorHeap) <= app.cursorHeap && old(app.storeHeap) <= app.storeHeap
      ensures forall j :: |old(app.cursorHeap)| <= j < |app.cursorHeap| ==> fresh(app.cursorHeap[j])
      ensures forall j :: |old(app.storeHeap)| <= j < |app.storeHeap| ==> fresh(app.storeHeap[j])
    {
      ghost var cursors, stores := app.cursorHeap, app.storeHeap;
      Administer(app, l);
      KnownGrows(app.env, cursors, stores, app.cursorHeap, app.storeHeap, requests);
    }

    /** One step of the server, whatever it is. */
    method Take(l: Label)
      requires Valid() && SoundSchema(app.env.schema)
      modifies this`requests, app, app.storeHeap, app.cursorHeap
      ensures Valid() && View() == Step(app.env, old(View()), l)
      ensures old(app.cursorHeap) <= app.cursorHeap && old(app.storeHeap) <= app.storeHeap
      ensures forall j :: |old(app.cursorHeap)| <= j < |app.cursorHeap| ==> fresh(app.cursorHeap[j])
      ensures forall j :: |old(app.storeHeap)| <= j < |app.storeHeap| ==> fresh(app.storeHeap[j])
    {
      match l {
        case Arrive(r, route, q) => Arriving(r, route, q);
        case Resume(r, input) => Resuming(r, input);
        case Cancel(r) => Cancelling(r);
        case _ => Administering(l);
      }
    }

    /** A whole run, from whatever state. */
    method Serve(labels: seq<Label>)
      requires Valid() && SoundSchema(app.env.schema)
      modifies this`requests, app, app.storeHeap, app.cursorHeap
      ensures Valid() && View() == Run(app.env, old(View()), labels)
    {
      ghost var s, cursors, stores := View(), app.cursorHeap, app.storeHeap;
      assert labels[..0] == [];
      for i := 0 to |labels|
        invariant Valid() && View() == Run(app.env, s, labels[..i])
        invariant cursors <= app.cursorHeap && stores <= app.storeHeap
        invariant forall j :: |cursors| <= j < |app.cursorHeap| ==> fresh(app.cursorHeap[j])
        invariant forall j :: |stores| <= j < |app.storeHeap| ==> fresh(app.storeHeap[j])
      {
        RunOneMore(app.env, s, labels, i);
        Take(labels[i]);
      }
      assert labels[..|labels|] == labels;
    }
  }

  lemma RunOneMore(env: Env, s: System, labels: seq<Label>, i: nat)
    requires i < |labels|
    ensures Run(env, s, labels[..i + 1]) == Step(env, Run(env, s, labels[..i]), labels[i])
  {
    assert labels[..i + 1][..i] == labels[..i];
  }
}
