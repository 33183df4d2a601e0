/**
 * Runs of the server seen from one store. Every run of the server projects to a run of each store
 * it has, so what is proved of all runs of one store holds of every store of every server.
 */
module StoreProjection {
  import opened Wrappers
  import opened Recordings
  import opened Store
  import opened Lifecycle
  import opened Admin
  import opened Machine
  import opened LateWrites
  import opened Reachable
  import opened StoreHistory
  import Single = StoreRuns

  /** The label delivers an upstream reply to a request with a ticket for the store. */
  predicate SavesTo(s: System, l: Label, id: nat) {
    && l.Resume? && l.input.Answered? && l.id in s.requests
    && s.requests[l.id].Upstream? && s.requests[l.id].ticket.Some? && s.requests[l.id].ticket.value.store == id
  }

  /** The exchange that is saved then. */
  function SlotOf(env: Env, s: System, l: Label, id: nat): Slot
    requires SavesTo(s, l, id)
  {
    var e := EntryOf(env.codec.hash, s.requests[l.id].ticket.value.data, l.input.reply);
    Slot(e, env.codec.size(e))
  }

  /** What a step of the server is to one store: an event of that store, or nothing. */
  function EventsOf(env: Env, s: System, l: Label, id: nat): seq<Single.Event>
    requires id < |s.app.stores|
  {
    if l.Resume? then
      if Identifies(s, l, l.id, id) then [Single.Identify(l.id)]
      else if SavesTo(s, l, id) then [Single.Save(l.id, SlotOf(env, s, l, id))]
      else []
    else if l.DeleteRecording? then
      if Targets(s.app, l.raw, id) then [Single.Delete(l.key)] else []
    else if IsAdmin(l) then
      var b := AdminStep(env, s.app, l);
      if id < |b.stores| && s.app.stores[id].active && !b.stores[id].active then [Single.Retire] else []
    else []
  }

  function Projected(env: Env, s: System, labels: seq<Label>, id: nat): seq<Single.Event>
    requires id < |s.app.stores|
  {
    if labels == [] then []
    else
      var n := |labels| - 1;
      var before := Run(env, s, labels[..n]);
      Projected(env, s, labels[..n], id) + (if id < |before.app.stores| then EventsOf(env, before, labels[n], id) else [])
  }

  /** The tickets that waiting requests hold for the store. */
  function TicketsFor(requests: map<nat, Phase>, id: nat): map<nat, nat> {
    map r | r in requests && CaptureOf(requests[r]).Some? && CaptureOf(requests[r]).value.store == id ::
      CaptureOf(requests[r]).value.revision
  }

  /** The run of the store is where the server is: same store, and no waiting request is missing. */
  predicate Follows(s: System, id: nat, r: Single.Run) {
    && id < |s.app.stores| && s.app.stores[id] == r.store
    && forall q :: q in TicketsFor(s.requests, id) ==> q in r.tickets && r.tickets[q] == TicketsFor(s.requests, id)[q]
  }

  lemma AfterOne(r: Single.Run, e: Single.Event)
    ensures Single.After(r, [e]) == Single.Apply(r, e)
  {
    assert [e][..0] == [];
  }

  /** No step invents a ticket: what waits afterwards waited before, or has just identified. */
  lemma TicketsStay(env: Env, s: System, l: Label, id: nat, q: nat)
    requires TicketsOk(env, s) && q in TicketsFor(Step(env, s, l).requests, id)
    ensures || (q in TicketsFor(s.requests, id) && TicketsFor(s.requests, id)[q] == TicketsFor(Step(env, s, l).requests, id)[q])
            || (Identifies(s, l, q, id) && TicketsFor(Step(env, s, l).requests, id)[q] == s.app.stores[id].revision)
  {
    CaptureStep(env, s, l, q);
  }

  lemma AdminEvent(env: Env, s: System, l: Label, id: nat, r: Single.Run)
    requires id < |s.app.stores| && s.app.stores[id] == r.store && IsAdmin(l)
    ensures var t := Single.After(r, EventsOf(env, s, l, id));
            && t.tickets == r.tickets
            && id < |AdminStep(env, s.app, l).stores| && AdminStep(env, s.app, l).stores[id] == t.store
  {
    StoreAfterAdmin(env, s.app, l, id);
    if l.DeleteRecording? {
      AfterOne(r, Single.Delete(l.key));
    } else {
      AfterOne(r, Single.Retire);
    }
  }

  lemma AdminFollows(env: Env, s: System, l: Label, id: nat, r: Single.Run)
    requires TicketsOk(env, s) && Follows(s, id, r) && IsAdmin(l)
    ensures Follows(Step(env, s, l), id, Single.After(r, EventsOf(env, s, l, id)))
  {
    AdminOnly(env, s, l);
    AdminEvent(env, s, l, id, r);
  }

  lemma StoreAfterAdmin(env: Env, a: App, l: Label, id: nat)
    requires id < |a.stores| && IsAdmin(l)
    ensures var b := AdminStep(env, a, l);
            && id < |b.stores|
            && b.stores[id] == if l.DeleteRecording? then
                                 if Targets(a, l.raw, id) then Deleted(a.stores[id], l.key) else a.stores[id]
                               else if a.stores[id].active && !b.stores[id].active then Retired(a.stores[id])
                               else a.stores[id]
  {
    if !l.DeleteRecording? {
      AdminDescends(env, a, l);
    }
  }

  lemma ResumeFollows(env: Env, s: System, l: Label, id: nat, r: Single.Run)
    requires TicketsOk(env, s) && Follows(s, id, r) && l.Resume? && l.id in s.requests
    ensures Follows(Step(env, s, l), id, Single.After(r, EventsOf(env, s, l, id)))
  {
    var events := EventsOf(env, s, l, id);
    if events != [] {
      AfterOne(r, events[0]);
    }
    StoreAfterResume(env, s, l, id);
    if SavesTo(s, l, id) {
      assert l.id in TicketsFor(s.requests, id);
    }
    forall q | q in TicketsFor(Step(env, s, l).requests, id)
      ensures q in Single.After(r, events).tickets && Single.After(r, events).tickets[q] == TicketsFor(Step(env, s, l).requests, id)[q]
    {
      TicketsStay(env, s, l, id, q);
    }
  }

  lemma StoreAfterResume(env: Env, s: System, l: Label, id: nat)
    requires TicketsOk(env, s) && id < |s.app.stores| && l.Resume? && l.id in s.requests
    ensures id < |Step(env, s, l).app.stores|
    ensures Step(env, s, l).app.stores[id] ==
            if SavesTo(s, l, id)
            then Saved(s.app.stores[id], SlotOf(env, s, l, id), s.requests[l.id].ticket.value.revision)
            else s.app.stores[id]
  {
    var p := s.requests[l.id];
    if !(p.Upstream? && l.input.Answered? && p.ticket.Some?) {
      StoresUnchanged(env, s.app, p, l.input);
    }
  }

  lemma StepFollows(env: Env, s: System, l: Label, id: nat, r: Single.Run)
    requires TicketsOk(env, s) && Follows(s, id, r)
    ensures Follows(Step(env, s, l), id, Single.After(r, EventsOf(env, s, l, id)))
  {
    if IsAdmin(l) {
      AdminFollows(env, s, l, id, r);
    } else if l.Resume? && l.id in s.requests {
      ResumeFollows(env, s, l, id, r);
    } else {
      forall q | q in TicketsFor(Step(env, s, l).requests, id)
        ensures q in r.tickets && r.tickets[q] == TicketsFor(Step(env, s, l).requests, id)[q]
      {
        TicketsStay(env, s, l, id, q);
      }
    }
  }

  /** Every run of the server is, for each store it starts with, a run of that store. */
  lemma {:induction false} ServerRunsProject(env: Env, s: System, labels: seq<Label>, id: nat)
    requires TicketsOk(env, s) && id < |s.app.stores|
    ensures Follows(
              Run(env, s, labels), id,
              Single.After(Single.Run(s.app.stores[id], TicketsFor(s.requests, id)), Projected(env, s, labels, id)))
  {
    if labels != [] {
      var n := |labels| - 1;
      var start := Single.Run(s.app.stores[id], TicketsFor(s.requests, id));
      ServerRunsProject(env, s, labels[..n], id);
      RunTicketsOk(env, s, labels[..n]);
      var before := Run(env, s, labels[..n]);
      var events := EventsOf(env, before, labels[n], id);
      StepFollows(env, before, labels[n], id, Single.After(start, Projected(env, s, labels[..n], id)));
      AfterConcat(start, Projected(env, s, labels[..n], id), events);
    }
  }

  lemma {:induction false} AfterConcat(r: Single.Run, a: seq<Single.Event>, b: seq<Single.Event>)
    ensures Single.After(r, a + b) == Single.After(Single.After(r, a), b)
  {
    if b == [] {
      assert a + b == a;
    } else {
      var n := |b| - 1;
      AfterConcat(r, a, b[..n]);
      assert (a + b)[..|a + b| - 1] == a + b[..n] && (a + b)[|a + b| - 1] == b[n];
    }
  }

  /** So a store of a server retains the newest of what an unbounded one would hold. */
  lemma ServerRetainsTheNewest(env: Env, s: System, labels: seq<Label>, id: nat)
    requires TicketsOk(env, s) && id < |s.app.stores|
    ensures id < |Run(env, s, labels).app.stores|
    ensures Single.IsSuffix(
              Run(env, s, labels).app.stores[id].slots,
              Single.Live(Single.Run(s.app.stores[id], TicketsFor(s.requests, id)), Projected(env, s, labels, id)))
  {
    ServerRunsProject(env, s, labels, id);
    Single.RetainedAreTheNewest(Single.Run(s.app.stores[id], TicketsFor(s.requests, id)), Projected(env, s, labels, id));
  }

  /**
   * So an entry of a store of a server stays what it was until its key is saved again, and is gone
   * exactly if the run has deleted it or evicted it.
   */
  lemma ServerEntryIsStable(env: Env, s: System, labels: seq<Label>, id: nat, key: string)
    requires TicketsOk(env, s) && id < |s.app.stores| && StoreOk(s.app.stores[id])
    requires Single.NeverOverwrites(
               Single.Run(s.app.stores[id], TicketsFor(s.requests, id)), Projected(env, s, labels, id), key)
    ensures id < |Run(env, s, labels).app.stores|
    ensures var start := Single.Run(s.app.stores[id], TicketsFor(s.requests, id));
            LookUp(Run(env, s, labels).app.stores[id].slots, key)
            == if Single.EverTakes(start, Projected(env, s, labels, id), key) then None
               else LookUp(s.app.stores[id].slots, key)
  {
    ServerRunsProject(env, s, labels, id);
    Single.EntryIsStable(
      Single.Run(s.app.stores[id], TicketsFor(s.requests, id)), Projected(env, s, labels, id), key);
  }
}
