/**
 * Response sequences (proxy_mock/services/sequences.py): cursors that live beside the serializable
 * configuration and may be shared by the handlers of several generations of a mock.
 */
module Sequences {
  import opened Wrappers
  import opened Json
  import opened Mocks

  /** The state of one cursor. */
  datatype Cursor = Cursor(sequence: Sequence, position: nat) {
    predicate Ok() {
      sequence.responses != [] && position <= |sequence.responses|
    }
  }

  /** What a reservation yields: a response, or `SequenceExhausted`. */
  datatype Taken = Response(data: Object) | Exhausted

  /** The result of the `k`-th reservation after a reset, counting from zero. */
  function Reservation(s: Sequence, k: nat): Taken
    requires s.responses != []
  {
    if k < |s.responses| then Response(s.responses[k])
    else if s.onExhaustion.Fail? then Exhausted
    else Response(s.responses[|s.responses| - 1])
  }

  /** The cursor position after `k` reservations. */
  function PositionAfter(s: Sequence, k: nat): nat {
    if k < |s.responses| then k else |s.responses|
  }

  function TakeResult(c: Cursor): Taken
    requires c.Ok()
  {
    if c.position == |c.sequence.responses| then
      if c.sequence.onExhaustion.Fail? then Exhausted else Response(c.sequence.responses[|c.sequence.responses| - 1])
    else Response(c.sequence.responses[c.position])
  }

  function AfterTake(c: Cursor): Cursor {
    if c.position < |c.sequence.responses| then c.(position := c.position + 1) else c
  }

  function AfterReset(c: Cursor): Cursor {
    c.(position := 0)
  }

  /** A reservation at the position reached by `k` reservations is the `k`-th one. */
  lemma TakeIsReservation(c: Cursor, k: nat)
    requires c.Ok() && c.position == PositionAfter(c.sequence, k)
    ensures TakeResult(c) == Reservation(c.sequence, k)
    ensures AfterTake(c).Ok() && AfterTake(c).position == PositionAfter(c.sequence, k + 1)
  {
  }

  /** What `state` reports. */
  datatype Report = Report(position: nat, length: nat, exhausted: bool, onExhaustion: OnExhaustion)

  function ReportOf(c: Cursor): Report {
    var n := |c.sequence.responses|;
    Report(c.position, n, c.position == n, c.sequence.onExhaustion)
  }

  /** After `k` reservations the report says how many are left, and whether the next one fails. */
  lemma ReportTells(c: Cursor, k: nat)
    requires c.Ok() && c.position == PositionAfter(c.sequence, k)
    ensures var r, n := ReportOf(c), |c.sequence.responses|;
            && r.length == n && r.position == (if k < n then k else n) && (r.exhausted <==> k >= n)
            && (TakeResult(c).Exhausted? <==> r.exhausted && r.onExhaustion.Fail?)
  {
  }

  // ---------------------------------------------------------------- the cursors of a mock

  /** The default cursor of a mock, or the cursor of a rule by its submitted index. */
  datatype Key = Default | OfRule(index: nat)

  function SequenceOf(m: Mock, key: Key): Option<Sequence> {
    match key
    case Default => m.sequence
    case OfRule(i) => if i < |RulesOf(m)| then RulesOf(m)[i].sequence else None
  }

  /** The keys in the order in which `build_sequences` visits them. */
  function AllKeys(m: Mock): seq<Key> {
    [Default] + seq(|RulesOf(m)|, i requires 0 <= i < |RulesOf(m)| => OfRule(i))
  }

  /** Cursor names for a mock and the heap they point into. */
  datatype Built = Built(states: map<Key, nat>, cursors: seq<Cursor>)

  /** May the cursor of a key be carried over from the previous generation? */
  predicate Preserves(m: Mock, previous: map<Key, nat>, preserve: set<Key>, cursors: seq<Cursor>, key: Key) {
    && key in preserve && key in previous && previous[key] < |cursors|
    && Some(cursors[previous[key]].sequence) == SequenceOf(m, key)
  }

  /** `build_sequences` up to its `n`-th key: keep a cursor or allocate a fresh one at zero. */
  function Build(m: Mock, previous: map<Key, nat>, preserve: set<Key>, cursors: seq<Cursor>, n: nat): Built
    requires n <= |AllKeys(m)|
  {
    if n == 0 then Built(map[], cursors)
    else
      var b := Build(m, previous, preserve, cursors, n - 1);
      var key := AllKeys(m)[n - 1];
      var sequence := SequenceOf(m, key);
      if sequence.None? then b
      else if Preserves(m, previous, preserve, cursors, key) then b.(states := b.states[key := previous[key]])
      else Built(b.states[key := |b.cursors|], b.cursors + [Cursor(sequence.value, 0)])
  }

  function BuildAll(m: Mock, previous: map<Key, nat>, preserve: set<Key>, cursors: seq<Cursor>): Built {
    Build(m, previous, preserve, cursors, |AllKeys(m)|)
  }

  /** A key is visited at its position, and only there. */
  function KeyPosition(key: Key): nat {
    match key
    case Default => 0
    case OfRule(i) => i + 1
  }

  lemma KeyAtPosition(m: Mock, n: nat)
    requires n < |AllKeys(m)|
    ensures KeyPosition(AllKeys(m)[n]) == n
  {
  }

  lemma SequenceKeyIsListed(m: Mock, key: Key)
    requires SequenceOf(m, key).Some?
    ensures KeyPosition(key) < |AllKeys(m)| && AllKeys(m)[KeyPosition(key)] == key
  {
  }

  /** What one key receives: its old cursor, or a new one at position zero that nobody else has. */
  predicate Assigned(m: Mock, previous: map<Key, nat>, preserve: set<Key>, cursors: seq<Cursor>, b: Built, key: Key) {
    && key in b.states && b.states[key] < |b.cursors|
    && Some(b.cursors[b.states[key]].sequence) == SequenceOf(m, key)
    && if Preserves(m, previous, preserve, cursors, key) then b.states[key] == previous[key]
       else b.states[key] >= |cursors| && b.cursors[b.states[key]].position == 0
  }

  /** Exactly the keys with a sequence get a cursor; old cursors are left alone. */
  lemma {:induction false} BuildShape(m: Mock, previous: map<Key, nat>, preserve: set<Key>, cursors: seq<Cursor>, n: nat)
    requires n <= |AllKeys(m)|
    ensures var b := Build(m, previous, preserve, cursors, n);
            && |cursors| <= |b.cursors| && b.cursors[..|cursors|] == cursors
            && (forall i :: |cursors| <= i < |b.cursors| ==> b.cursors[i].position == 0)
            && (forall key :: key in b.states <==> SequenceOf(m, key).Some? && KeyPosition(key) < n)
            && (forall key :: key in b.states ==> Assigned(m, previous, preserve, cursors, b, key))
  {
    if n > 0 {
      BuildShape(m, previous, preserve, cursors, n - 1);
      KeyAtPosition(m, n - 1);
      forall key | SequenceOf(m, key).Some?
        ensures KeyPosition(key) == n - 1 <==> key == AllKeys(m)[n - 1]
      {
        SequenceKeyIsListed(m, key);
      }
    }
  }

  /** No two keys share a cursor, given that the preserved ones did not. */
  lemma {:induction false} BuildInjective(m: Mock, previous: map<Key, nat>, preserve: set<Key>, cursors: seq<Cursor>, n: nat)
    requires n <= |AllKeys(m)|
    requires forall k, l :: k in previous && l in previous && previous[k] == previous[l] ==> k == l
    ensures var b := Build(m, previous, preserve, cursors, n);
            forall k, l :: k in b.states && l in b.states && b.states[k] == b.states[l] ==> k == l
  {
    if n > 0 {
      BuildInjective(m, previous, preserve, cursors, n - 1);
      BuildShape(m, previous, preserve, cursors, n - 1);
      var before, b := Build(m, previous, preserve, cursors, n - 1), Build(m, previous, preserve, cursors, n);
      forall k, l | k in b.states && l in b.states && b.states[k] == b.states[l]
        ensures k == l
      {
        assert k in before.states ==> Assigned(m, previous, preserve, cursors, before, k);
        assert l in before.states ==> Assigned(m, previous, preserve, cursors, before, l);
      }
    }
  }

  // ---------------------------------------------------------------- the class

  class ResponseSequence {
    const configuration: Sequence
    var position: nat
    /** A name for the object in ghost reasoning about whole applications. */
    ghost const id: nat

    ghost predicate Valid()
      reads this
    {
      View().Ok()
    }

    ghost function View(): Cursor
      reads this
    {
      Cursor(configuration, position)
    }

    constructor (ghost id: nat, configuration: Sequence)
      requires configuration.responses != []
      ensures Valid() && this.id == id && View() == Cursor(configuration, 0)
    {
      this.id := id;
      this.configuration := configuration;
      position := 0;
    }

    /** Reserve a response; what happens after it, even cancellation, does not give it back. */
    method Take() returns (r: Taken)
      requires Valid()
      modifies this`position
      ensures Valid()
      ensures r == TakeResult(old(View())) && View() == AfterTake(old(View()))
    {
      var responses := configuration.responses;
      if position == |responses| {
        if configuration.onExhaustion.Fail? {
          return Exhausted;
        }
        return Response(responses[|responses| - 1]);
      }
      r := Response(responses[position]);
      position := position + 1;
    }

    method State(reset: bool) returns (report: Report)
      requires Valid()
      modifies this`position
      ensures Valid()
      ensures View() == if reset then AfterReset(old(View())) else old(View())
      ensures report == ReportOf(View())
      ensures report.position + (|configuration.responses| - position) == report.length == |configuration.responses|
      ensures report.exhausted <==> position >= |configuration.responses|
    {
      if reset {
        position := 0;
      }
      var length := |configuration.responses|;
      report := Report(position, length, position == length, configuration.onExhaustion);
    }
  }

  /** The objects of a heap are the cursors of its value, in order of allocation. */
  ghost predicate CursorHeap(heap: seq<ResponseSequence>, cursors: seq<Cursor>)
    reads heap
  {
    && |heap| == |cursors|
    && forall i :: 0 <= i < |heap| ==> heap[i].id == i && heap[i].View() == cursors[i] && heap[i].Valid()
  }

  /** A map of objects is named by a map of cursor numbers. */
  ghost predicate Named(heap: seq<ResponseSequence>, states: map<Key, ResponseSequence>, ids: map<Key, nat>) {
    && states.Keys == ids.Keys
    && forall k :: k in states ==> ids[k] < |heap| && states[k] == heap[ids[k]]
  }

  method NewCursor(configuration: Sequence, ghost heap: seq<ResponseSequence>, ghost cursors: seq<Cursor>)
    returns (cursor: ResponseSequence, ghost heap': seq<ResponseSequence>)
    requires configuration.responses != [] && CursorHeap(heap, cursors)
    ensures fresh(cursor) && cursor.id == |heap| && heap' == heap + [cursor]
    ensures CursorHeap(heap', cursors + [Cursor(configuration, 0)])
  {
    cursor := new ResponseSequence(|heap|, configuration);
    heap' := heap + [cursor];
  }

  lemma NamedNext(
    heap: seq<ResponseSequence>, heap': seq<ResponseSequence>, states: map<Key, ResponseSequence>, ids: map<Key, nat>,
    key: Key, cursor: ResponseSequence, id: nat)
    requires Named(heap, states, ids) && heap <= heap' && id < |heap'| && heap'[id] == cursor
    ensures Named(heap', states[key := cursor], ids[key := id])
  {
  }

  /**
   * `build_sequences`: one pass over the submitted positions, keeping the cursor objects whose key
   * is preserved and whose configuration is unchanged and creating the others.
   */
  method BuildSequences(
    m: Mock, previous: map<Key, ResponseSequence>, preserve: set<Key>,
    ghost heap: seq<ResponseSequence>, ghost cursors: seq<Cursor>, ghost previousIds: map<Key, nat>)
    returns (states: map<Key, ResponseSequence>, ghost heap': seq<ResponseSequence>)
    requires ValidMock(m) && CursorHeap(heap, cursors) && Named(heap, previous, previousIds)
    ensures var b := BuildAll(m, previousIds, preserve, cursors);
            CursorHeap(heap', b.cursors) && Named(heap', states, b.states)
    ensures heap <= heap' && forall i :: |heap| <= i < |heap'| ==> fresh(heap'[i])
  {
    var keys := AllKeys(m);
    states, heap' := map[], heap;
    for n := 0 to |keys|
      invariant var b := Build(m, previousIds, preserve, cursors, n);
                CursorHeap(heap', b.cursors) && Named(heap', states, b.states)
      invariant heap <= heap' && forall i :: |heap| <= i < |heap'| ==> fresh(heap'[i])
    {
      var key := keys[n];
      var configuration := SequenceOf(m, key);
      if configuration.None? {
        continue;
      }
      if key in preserve && key in previous && Some(previous[key].configuration) == configuration {
        NamedNext(
          heap', heap', states, Build(m, previousIds, preserve, cursors, n).states, key, previous[key], previousIds[key]);
        states := states[key := previous[key]];
      } else {
        SequencesAreNotEmpty(m, key);
        var cursor;
        ghost var before := heap';
        cursor, heap' := NewCursor(configuration.value, heap', Build(m, previousIds, preserve, cursors, n).cursors);
        NamedNext(before, heap', states, Build(m, previousIds, preserve, cursors, n).states, key, cursor, |before|);
        states := states[key := cursor];
      }
    }
  }

  lemma SequencesAreNotEmpty(m: Mock, key: Key)
    requires ValidMock(m) && SequenceOf(m, key).Some?
    ensures SequenceOf(m, key).value.responses != []
  {
    match key
    case Default =>
    case OfRule(i) =>
      assert RulesOf(m)[i] in RulesOf(m);
  }
}
