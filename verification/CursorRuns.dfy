/**
 * Cursors over whole runs. A request reserves at most one response, before any delay; and on each
 * cursor, between two resets, the i-th reservation made by anybody gets the i-th response, also
 * when handlers of several generations share the cursor; and what is reserved is what is served.
 */
module CursorRuns {
  import opened Wrappers
  import opened Json
  import opened Paths
  import opened Recordings
  import opened Mocks
  import opened Sequences
  import opened Rules
  import opened Lifecycle
  import opened Admin
  import opened AdminEffects
  import opened Snapshot
  import opened SnapshotProofs
  import opened Machine
  import opened LateWrites

  // ---------------------------------------------------------------- one step

  /** The cursor that serving the default response moves. */
  function DefaultCursor(a: App, h: Handler): Option<nat> {
    CursorOf(a, h, Default)
  }

  /** The cursor that a request reserves in its next step, decided by configuration alone. */
  function ReservedBy(a: App, p: Phase, input: Input): Option<nat> {
    match (p, input)
    case (Accepted(h, q), Continue) =>
      if MethodAllowed(h.mock.methods, q.verb) && (h.recordings.None? || h.recordings.value >= |a.stores|)
         && !HasHost(h.mock.proxyHost) && RulesOf(h.mock) == []
      then DefaultCursor(a, h) else None
    case (Identifying(h, q, store, revision), Continue) =>
      if store < |a.stores| && !(h.mock.recording.Some? && h.mock.recording.value.mode.Replay?)
         && !HasHost(h.mock.proxyHost) && RulesOf(h.mock) == []
      then DefaultCursor(a, h) else None
    case (Matching(h, q), Continue) =>
      var item := Select(RulesOf(h.mock), q);
      if item.None? then DefaultCursor(a, h)
      else if HasHost(item.value.rule.input.proxyHost) then None
      else CursorOf(a, h, OfRule(item.value.index))
    case _ => None
  }

  /** What a request will answer with, once its response has been chosen. */
  predicate Carries(p: Phase, data: Object) {
    match p
    case RuleDelay(_, _, _, d) => d == data
    case Delay(d) => d == data
    case Done(Served(d)) => d == data
    case _ => false
  }

  /** A response has been chosen, or none will be: nothing can be reserved any more. */
  predicate Committed(p: Phase) {
    !p.Accepted? && !p.Identifying? && !p.Matching?
  }

  /**
   * One step of a request: it moves the cursor it reserves by exactly one reservation, carries the
   * reserved response (or ends as exhausted, without trying another rule or the default), and
   * moves nothing else.
   */
  lemma StepReserves(env: Env, a: App, p: Phase, input: Input)
    ensures var (b, next) := Advance(env, a, p, input);
            var id := ReservedBy(a, p, input);
            if id.None? then b.cursors == a.cursors
            else
              && id.value < |a.cursors| && a.cursors[id.value].Ok()
              && b.cursors == a.cursors[id.value := AfterTake(a.cursors[id.value])]
              && b.stores == a.stores && Committed(next)
              && match TakeResult(a.cursors[id.value])
                 case Exhausted => next == Done(SequenceExhausted)
                 case Response(data) => Carries(next, data)
    ensures Committed(p) ==> Committed(Advance(env, a, p, input).1) && ReservedBy(a, p, input).None?
    ensures Advance(env, a, p, input).0.storage == a.storage && Advance(env, a, p, input).0.routes == a.routes
    ensures Advance(env, a, p, input).0.sequences == a.sequences && Advance(env, a, p, input).0.recordings == a.recordings
  {
    if !(p.Upstream? && input.Answered? && p.ticket.Some?) {
      StepChangesOnlyItsCursor(env, a, p, input);
      if ReservedBy(a, p, input).Some? {
        ReservationCarries(env, a, p, input);
      }
    }
    if Committed(p) {
      CommittedStays(env, a, p, input);
    }
  }

  lemma ReservationCarries(env: Env, a: App, p: Phase, input: Input)
    requires var id := ReservedBy(a, p, input); id.Some? && id.value < |a.cursors| && a.cursors[id.value].Ok()
    ensures var next := Advance(env, a, p, input).1;
            Committed(next) && match TakeResult(a.cursors[ReservedBy(a, p, input).value])
                               case Exhausted => next == Done(SequenceExhausted)
                               case Response(data) => Carries(next, data)
  {
  }

  lemma CommittedStays(env: Env, a: App, p: Phase, input: Input)
    requires Committed(p)
    ensures Committed(Advance(env, a, p, input).1) && ReservedBy(a, p, input).None?
  {
  }

  /** Apart from a save, a step changes nothing but the cursor it reserves. */
  lemma StepChangesOnlyItsCursor(env: Env, a: App, p: Phase, input: Input)
    requires !(p.Upstream? && input.Answered? && p.ticket.Some?)
    ensures var id := ReservedBy(a, p, input);
            if id.None? then Advance(env, a, p, input).0 == a
            else id.value < |a.cursors| && a.cursors[id.value].Ok() && Advance(env, a, p, input).0 == Reserve(a, id.value)
  {
  }

  // ---------------------------------------------------------------- at most one reservation per request

  /** The cursor a label reserves, in the state it is taken in. */
  function Reserved(s: System, l: Label): Option<nat> {
    if l.Resume? && l.id in s.requests then ReservedBy(s.app, s.requests[l.id], l.input) else None
  }

  /** How often a request reserves in a run. */
  function ReservationsOf(env: Env, s: System, labels: seq<Label>, r: nat): nat {
    if labels == [] then 0
    else
      var n := |labels| - 1;
      ReservationsOf(env, s, labels[..n], r)
      + if labels[n].Resume? && labels[n].id == r && Reserved(Run(env, s, labels[..n]), labels[n]).Some? then 1 else 0
  }

  lemma StepSettles(env: Env, s: System, l: Label, r: nat)
    requires r in s.requests
    ensures r in Step(env, s, l).requests
    ensures Committed(s.requests[r]) ==>
              Committed(Step(env, s, l).requests[r]) && (l.Resume? && l.id == r ==> Reserved(s, l).None?)
    ensures l.Resume? && l.id == r && Reserved(s, l).Some? ==> Committed(Step(env, s, l).requests[r])
  {
    if l.Resume? {
      if l.id == r {
        StepReserves(env, s.app, s.requests[r], l.input);
      }
    }
  }

  /** In every run, a request reserves at most one response in all. */
  lemma {:induction false} AtMostOneReservation(env: Env, s: System, labels: seq<Label>, r: nat)
    ensures ReservationsOf(env, s, labels, r) <= 1
    ensures var t := Run(env, s, labels);
            ReservationsOf(env, s, labels, r) == 1 ==> r in t.requests && Committed(t.requests[r])
    ensures r in s.requests && Committed(s.requests[r]) ==>
              ReservationsOf(env, s, labels, r) == 0
              && r in Run(env, s, labels).requests && Committed(Run(env, s, labels).requests[r])
  {
    if labels != [] {
      var n := |labels| - 1;
      AtMostOneReservation(env, s, labels[..n], r);
      var t := Run(env, s, labels[..n]);
      if r in t.requests {
        StepSettles(env, t, labels[n], r);
      }
    }
  }

  // ---------------------------------------------------------------- the i-th reservation gets the i-th response

  /** The label restarts this cursor. */
  predicate Restarts(s: System, l: Label, id: nat) {
    l.ResetCursor? && ResetSequence(s.app, l.raw, l.slot).1.Success?
    && s.app.sequences[Normalize(l.raw).value][l.slot] == id
  }

  /** How often a cursor is reserved in a run, by whomever. */
  function ReservationsOn(env: Env, s: System, labels: seq<Label>, id: nat): nat {
    if labels == [] then 0
    else
      var n := |labels| - 1;
      ReservationsOn(env, s, labels[..n], id) + if Reserved(Run(env, s, labels[..n]), labels[n]) == Some(id) then 1 else 0
  }

  lemma GenerationKeepsCursors(
    env: Env, a: App, m: Mock, preserve: set<Key>, keepRecordings: bool, imported: Option<seq<Entry>>)
    ensures KeepsCursors(a, Generation(env, a, m, preserve, keepRecordings, imported))
  {
    GenerationHeap(env, a, m, preserve, keepRecordings, imported);
  }

  lemma MockInitKeepsCursors(
    env: Env, a: App, m: Mock, preserve: set<Key>, keepRecordings: bool, imported: Option<seq<Entry>>)
    ensures var r := MockInit(env, a, m, preserve, keepRecordings, imported); r.Some? ==> KeepsCursors(a, r.value)
  {
    MockInitLands(env, a, m, preserve, keepRecordings, imported);
    GenerationKeepsCursors(env, a, m.(path := Lands(m.path)), preserve, keepRecordings, imported);
  }

  /** Cursors that exist keep their position. */
  predicate KeepsCursors(a: App, b: App) {
    |a.cursors| <= |b.cursors| && forall i :: 0 <= i < |a.cursors| ==> b.cursors[i] == a.cursors[i]
  }

  lemma {:induction false} RemoveAllKeepsCursors(a: App, mocks: seq<Mock>)
    ensures RemoveAll(a, mocks).cursors == a.cursors
    decreases |mocks|
  {
    if mocks != [] {
      RemoveAllKeepsCursors(RemoveRuntime(a, mocks[0].path), mocks[1..]);
    }
  }

  lemma {:induction false} InstallAllKeepsCursors(env: Env, a: App, parsed: seq<Parsed>)
    ensures KeepsCursors(a, InstallAll(env, a, parsed))
    decreases |parsed|
  {
    if parsed != [] {
      GenerationKeepsCursors(env, a, parsed[0].mock, {}, false, parsed[0].entries);
      InstallAllKeepsCursors(env, Next(env, a, parsed[0]), parsed[1..]);
    }
  }

  lemma ImportKeepsCursors(env: Env, a: App, doc: Document, replace: bool)
    ensures KeepsCursors(a, Import(env, a, doc, replace).0)
  {
    ImportInstalls(env, a, doc, replace);
    RemoveAllKeepsCursors(a, a.storage);
    InstallAllKeepsCursors(env, StartOf(a, replace), Installed(env, doc));
  }

  /** No administrative operation other than a reset moves a cursor that exists. */
  lemma AdminKeepsCursors(env: Env, a: App, l: Label)
    requires !l.ResetCursor?
    ensures KeepsCursors(a, AdminStep(env, a, l))
  {
    match l
    case Put(raw, body) => PutKeepsCursors(env, a, raw, body);
    case Patch(raw, c) => PatchKeepsCursors(env, a, raw, c);
    case Clear => RemoveAllKeepsCursors(a, a.storage);
    case ImportSnapshot(doc, replace) => ImportKeepsCursors(env, a, doc, replace);
    case _ =>
  }

  lemma PutKeepsCursors(env: Env, a: App, raw: string, body: Object)
    ensures KeepsCursors(a, PutMock(env, a, raw, body).0)
  {
    var identity := Normalize(raw);
    if identity.Some? && env.schema(WithPath(body, identity.value)).Some? {
      var m := env.schema(WithPath(body, identity.value)).value;
      MockInitKeepsCursors(env, a, m.(path := Addressed(raw)), {}, false, None);
    }
  }

  lemma PatchKeepsCursors(env: Env, a: App, raw: string, changes: Object)
    ensures KeepsCursors(a, PatchMock(env, a, raw, changes).0)
  {
    var status := PatchMock(env, a, raw, changes).1;
    if !status.Invalid? && !status.NotFound? {
      PatchInstalls(env, a, raw, changes);
      var saved, mock := MockAt(a.storage, Addressed(raw)).value, Patched(env, a, raw, changes);
      MockInitKeepsCursors(env, a, mock, PreservedKeys(changes, mock), KeepsRecordings(saved, mock), None);
    }
  }

  /** Every step but a reservation on this cursor or its reset leaves it where it is. */
  lemma StepOnCursor(env: Env, s: System, l: Label, id: nat)
    requires id < |s.app.cursors| && !Restarts(s, l, id)
    ensures id < |Step(env, s, l).app.cursors|
    ensures Step(env, s, l).app.cursors[id] ==
            if Reserved(s, l) == Some(id) then AfterTake(s.app.cursors[id]) else s.app.cursors[id]
  {
    StepLater(env, s, l);
    if l.Resume? {
      if l.id in s.requests {
        StepReserves(env, s.app, s.requests[l.id], l.input);
      }
    } else if IsAdmin(l) && !l.ResetCursor? {
      AdminKeepsCursors(env, s.app, l);
      AdminOnly(env, s, l);
    }
  }

  /** A cursor that has seen `k` reservations since its last reset. */
  predicate HasSeen(a: App, id: nat, sequence: Sequence, k: nat) {
    && id < |a.cursors| && a.cursors[id].Ok() && a.cursors[id].sequence == sequence
    && a.cursors[id].position == PositionAfter(sequence, k)
  }

  /** The run does not reset this cursor. */
  predicate NeverRestarts(env: Env, s: System, labels: seq<Label>, id: nat) {
    forall m :: 0 <= m < |labels| ==> !Restarts(At(env, s, labels, m), labels[m], id)
  }

  lemma NeverRestartsSplit(env: Env, s: System, labels: seq<Label>, id: nat)
    requires labels != [] && NeverRestarts(env, s, labels, id)
    ensures NeverRestarts(env, s, labels[..|labels| - 1], id)
    ensures !Restarts(Run(env, s, labels[..|labels| - 1]), labels[|labels| - 1], id)
  {
    var n := |labels| - 1;
    forall m | 0 <= m < n
      ensures !Restarts(At(env, s, labels[..n], m), labels[..n][m], id)
    {
      assert labels[..n][..m] == labels[..m];
      assert !Restarts(At(env, s, labels, m), labels[m], id);
    }
    assert !Restarts(At(env, s, labels, n), labels[n], id);
  }

  lemma StepCounts(env: Env, s: System, l: Label, id: nat, sequence: Sequence, k: nat)
    requires HasSeen(s.app, id, sequence, k) && !Restarts(s, l, id)
    ensures HasSeen(Step(env, s, l).app, id, sequence, if Reserved(s, l) == Some(id) then k + 1 else k)
  {
    StepOnCursor(env, s, l, id);
    TakeIsReservation(s.app.cursors[id], k);
  }

  /**
   * Cursor safety over whole runs: a cursor that has seen `k` reservations since its last reset
   * has, after any run without a reset of that cursor, seen as many more as the run makes on it.
   */
  lemma {:induction false} CursorCountsReservations(
    env: Env, s: System, labels: seq<Label>, id: nat, sequence: Sequence, k: nat)
    requires HasSeen(s.app, id, sequence, k) && NeverRestarts(env, s, labels, id)
    ensures HasSeen(Run(env, s, labels).app, id, sequence, k + ReservationsOn(env, s, labels, id))
  {
    if labels != [] {
      var n := |labels| - 1;
      NeverRestartsSplit(env, s, labels, id);
      CursorCountsReservations(env, s, labels[..n], id, sequence, k);
      StepCounts(env, Run(env, s, labels[..n]), labels[n], id, sequence, k + ReservationsOn(env, s, labels[..n], id));
    }
  }

  /** What the request of a reserving label holds after the step. */
  predicate Receives(env: Env, s: System, l: Label, taken: Taken) {
    var t := Step(env, s, l);
    && l.Resume? && l.id in t.requests
    && match taken
       case Exhausted => t.requests[l.id] == Done(SequenceExhausted)
       case Response(data) => Carries(t.requests[l.id], data)
  }

  lemma StepReceives(env: Env, s: System, l: Label, id: nat, sequence: Sequence, k: nat)
    requires HasSeen(s.app, id, sequence, k) && Reserved(s, l) == Some(id)
    ensures Receives(env, s, l, Reservation(sequence, k))
  {
    TakeIsReservation(s.app.cursors[id], k);
    StepReserves(env, s.app, s.requests[l.id], l.input);
  }

  /**
   * The i-th reservation gets response i: right after a reset (`k == 0`), whichever requests and
   * handlers reserve on the cursor and whatever happens in between, the next reservation after `i`
   * others receives the i-th response while there is one, and then the last response or the
   * exhausted error by policy.
   */
  lemma ReservationInOrder(
    env: Env, s: System, labels: seq<Label>, id: nat, sequence: Sequence, k: nat, next: Label)
    requires HasSeen(s.app, id, sequence, k) && NeverRestarts(env, s, labels, id)
    requires Reserved(Run(env, s, labels), next) == Some(id)
    ensures Receives(env, Run(env, s, labels), next, Reservation(sequence, k + ReservationsOn(env, s, labels, id)))
  {
    CursorCountsReservations(env, s, labels, id, sequence, k);
    StepReceives(env, Run(env, s, labels), next, id, sequence, k + ReservationsOn(env, s, labels, id));
  }

  lemma ResetRestarts(env: Env, s: System, l: Label, id: nat)
    requires Restarts(s, l, id) && id < |s.app.cursors| && s.app.cursors[id].Ok()
    ensures HasSeen(Step(env, s, l).app, id, s.app.cursors[id].sequence, 0)
  {
  }

  /**
   * After a reset the count starts again: whatever ran before it, the next reservation after `i`
   * others gets response i of the sequence.
   */
  lemma ReservationAfterReset(env: Env, s: System, reset: Label, labels: seq<Label>, id: nat, next: Label)
    requires Restarts(s, reset, id) && id < |s.app.cursors| && s.app.cursors[id].Ok()
    requires NeverRestarts(env, Step(env, s, reset), labels, id)
    requires Reserved(Run(env, Step(env, s, reset), labels), next) == Some(id)
    ensures var after := Step(env, s, reset);
            Receives(
              env, Run(env, after, labels), next,
              Reservation(s.app.cursors[id].sequence, ReservationsOn(env, after, labels, id)))
  {
    ResetRestarts(env, s, reset, id);
    ReservationInOrder(env, Step(env, s, reset), labels, id, s.app.cursors[id].sequence, 0, next);
  }

  // ---------------------------------------------------------------- what is reserved is served

  /** If the request is ever answered with configured data, then with what it has reserved. */
  predicate ServesOnly(p: Phase, taken: Taken) {
    match taken
    case Exhausted => p == Done(SequenceExhausted)
    case Response(data) => Carries(p, data) || p.RuleUpstream? || (p.Done? && !p.answer.Served?)
  }

  lemma StepServesOnly(env: Env, s: System, l: Label, r: nat, taken: Taken)
    requires r in s.requests && ServesOnly(s.requests[r], taken)
    ensures r in Step(env, s, l).requests && ServesOnly(Step(env, s, l).requests[r], taken)
  {
    if l.Resume? && l.id == r {
      AdvanceServesOnly(env, s.app, s.requests[r], l.input, taken);
    }
  }

  lemma AdvanceServesOnly(env: Env, a: App, p: Phase, input: Input, taken: Taken)
    requires ServesOnly(p, taken)
    ensures ServesOnly(Advance(env, a, p, input).1, taken)
  {
  }

  lemma {:induction false} RunServesOnly(env: Env, s: System, labels: seq<Label>, r: nat, taken: Taken)
    requires r in s.requests && ServesOnly(s.requests[r], taken)
    ensures r in Run(env, s, labels).requests && ServesOnly(Run(env, s, labels).requests[r], taken)
  {
    if labels != [] {
      var n := |labels| - 1;
      RunServesOnly(env, s, labels[..n], r, taken);
      StepServesOnly(env, Run(env, s, labels[..n]), labels[n], r, taken);
    }
  }

  lemma ReceivedIsServed(env: Env, s: System, next: Label, taken: Taken, later: seq<Label>, data: Object)
    requires next.Resume? && Receives(env, s, next, taken)
    requires AnsweredWith(Run(env, Step(env, s, next), later), next.id, data)
    ensures taken == Taken.Response(data)
  {
    RunServesOnly(env, Step(env, s, next), later, next.id, taken);
  }

  lemma NextIsServed(env: Env, t: System, id: nat, sequence: Sequence, n: nat, next: Label, later: seq<Label>, data: Object)
    requires next.Resume? && Reserved(t, next) == Some(id) && HasSeen(t.app, id, sequence, n)
    requires AnsweredWith(Run(env, Step(env, t, next), later), next.id, data)
    ensures Reservation(sequence, n) == Taken.Response(data)
  {
    StepReceives(env, t, next, id, sequence, n);
    ReceivedIsServed(env, t, next, Reservation(sequence, n), later, data);
  }

  /** The request has been answered with this configured response. */
  predicate AnsweredWith(t: System, r: nat, data: Object) {
    r in t.requests && t.requests[r] == Done(Served(data))
  }

  /**
   * What is reserved is served. In every interleaving, if the request that made the i-th reservation
   * on a cursor is answered with configured data at last, then with response i, whatever delays it
   * went through and whatever was reserved, updated or reset meanwhile.
   */
  lemma ServedInOrder(
    env: Env, s: System, labels: seq<Label>, id: nat, sequence: Sequence, k: nat, t: System, i: nat, next: Label,
    later: seq<Label>, data: Object)
    requires HasSeen(s.app, id, sequence, k) && NeverRestarts(env, s, labels, id)
    requires t == Run(env, s, labels) && i == k + ReservationsOn(env, s, labels, id)
    requires next.Resume? && Reserved(t, next) == Some(id)
    requires AnsweredWith(Run(env, Step(env, t, next), later), next.id, data)
    ensures Reservation(sequence, i) == Taken.Response(data)
  {
    CursorCountsReservations(env, s, labels, id, sequence, k);
    NextIsServed(env, t, id, sequence, i, next, later, data);
  }

  /** A handler that keeps a replaced cursor never moves the one that replaced it. */
  lemma ReplacedCursorIsIndependent(env: Env, s: System, l: Label, mine: nat, other: nat)
    requires Reserved(s, l) == Some(mine) && mine != other && other < |s.app.cursors|
    ensures other < |Step(env, s, l).app.cursors| && Step(env, s, l).app.cursors[other] == s.app.cursors[other]
  {
    StepOnCursor(env, s, l, other);
  }
}
