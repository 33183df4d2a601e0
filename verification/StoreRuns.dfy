/**
 * Whole runs of one recording store: identifications, late saves, deletions and retirement in any
 * order, as the suspension points of concurrent requests allow.
 */
module StoreRuns {
  import opened Wrappers
  import opened Recordings
  import opened Store

  /** One locked section of the store; a ticket names a request between identify and save. */
  datatype Event =
    | Identify(ticket: nat)
    | Save(ticket: nat, slot: Slot)
    | Delete(key: Option<string>)
    | Retire

  /** The store and the revision captured by each request that has been identified. */
  datatype Run = Run(store: StoreState, tickets: map<nat, nat>)

  function Apply(r: Run, e: Event): Run {
    match e
    case Identify(t) => r.(tickets := r.tickets[t := r.store.revision])
    case Save(t, slot) => if t in r.tickets then r.(store := Saved(r.store, slot, r.tickets[t])) else r
    case Delete(key) => r.(store := Deleted(r.store, key))
    case Retire => r.(store := Retired(r.store))
  }

  function After(r: Run, events: seq<Event>): Run {
    if events == [] then r else Apply(After(r, events[..|events| - 1]), events[|events| - 1])
  }

  /** The state in which event `m` happens. */
  function Before(r: Run, events: seq<Event>, m: nat): Run
    requires m <= |events|
  {
    After(r, events[..m])
  }

  predicate Stores(r: Run, e: Event) {
    e.Save? && e.ticket in r.tickets && SaveOutcome(r.store, e.slot.size, r.tickets[e.ticket]).Stored?
  }

  /** A deletion that succeeds, of one entry or of the collection. */
  predicate Deletes(r: Run, e: Event) {
    e.Delete? && DeletionSucceeds(r.store, e.key)
  }

  predicate DeletesKey(r: Run, e: Event, key: string) {
    Deletes(r, e) && (e.key.None? || e.key.value == key)
  }

  lemma BeforeOfPrefix(r: Run, events: seq<Event>, n: nat, m: nat)
    requires m <= n <= |events|
    ensures Before(r, events[..n], m) == Before(r, events, m)
  {
    assert events[..n][..m] == events[..m];
  }

  lemma BeforeNext(r: Run, events: seq<Event>, m: nat)
    requires m < |events|
    ensures Before(r, events, m + 1) == Apply(Before(r, events, m), events[m])
  {
    assert events[..m + 1][..m] == events[..m];
  }

  lemma BeforeEnd(r: Run, events: seq<Event>)
    ensures Before(r, events, |events|) == After(r, events)
  {
    assert events[..|events|] == events;
  }

  /** Between two moments the revision grows, strictly if anything was deleted in between. */
  lemma {:induction false} RevisionGrows(r: Run, events: seq<Event>, i: nat, j: nat)
    requires i <= j <= |events|
    ensures Before(r, events, i).store.revision <= Before(r, events, j).store.revision
    ensures forall m :: i <= m < j && Deletes(Before(r, events, m), events[m]) ==>
              Before(r, events, i).store.revision < Before(r, events, j).store.revision
  {
    if i < j {
      RevisionGrows(r, events, i, j - 1);
      BeforeNext(r, events, j - 1);
    }
  }

  /** Retirement is permanent. */
  lemma {:induction false} StaysRetired(r: Run, events: seq<Event>, i: nat, j: nat)
    requires i <= j <= |events|
    requires !Before(r, events, i).store.active
    ensures !Before(r, events, j).store.active
  {
    if i < j {
      StaysRetired(r, events, i, j - 1);
      BeforeNext(r, events, j - 1);
    }
  }

  /** A captured revision was the revision of the store at the last identification. */
  lemma {:induction false} TicketOrigin(r: Run, events: seq<Event>, t: nat, n: nat) returns (i: nat)
    requires n <= |events| && t !in r.tickets && t in Before(r, events, n).tickets
    ensures i < n && events[i] == Identify(t)
    ensures Before(r, events, n).tickets[t] == Before(r, events, i).store.revision
  {
    assert n > 0;
    BeforeNext(r, events, n - 1);
    if events[n - 1] == Identify(t) {
      i := n - 1;
    } else {
      i := TicketOrigin(r, events, t, n - 1);
    }
  }

  /**
   * A save whose identification preceded a successful deletion, or that comes after retirement,
   * is superseded and leaves the store as it is, whatever else happened in between.
   */
  lemma LateWriteIsSuperseded(r: Run, events: seq<Event>, i: nat, m: nat, t: nat, slot: Slot)
    requires i <= m < |events|
    requires t in After(r, events).tickets
    requires After(r, events).tickets[t] == Before(r, events, i).store.revision
    requires Deletes(Before(r, events, m), events[m]) || events[m].Retire?
    ensures SaveOutcome(After(r, events).store, slot.size, After(r, events).tickets[t]).Superseded?
    ensures Apply(After(r, events), Save(t, slot)) == After(r, events)
  {
    BeforeEnd(r, events);
    RevisionGrows(r, events, i, |events|);
    if events[m].Retire? {
      BeforeNext(r, events, m);
      StaysRetired(r, events, m + 1, |events|);
    }
  }

  /** Why a slot is present: it was saved at `j` by a request identified at `i`. */
  predicate SavedBy(r: Run, events: seq<Event>, slot: Slot, i: nat, j: nat) {
    && i < j < |events|
    && events[j].Save? && events[j].slot == slot && events[i] == Identify(events[j].ticket)
    && Stores(Before(r, events, j), events[j])
    && (forall m :: i <= m < |events| ==> !DeletesKey(Before(r, events, m), events[m], slot.entry.id))
    && (forall m :: i <= m < j ==> !Deletes(Before(r, events, m), events[m]))
  }

  /** Why a slot is present: it was there from the start and never deleted. */
  predicate KeptFromStart(r: Run, events: seq<Event>, slot: Slot) {
    && slot in r.store.slots
    && forall m :: 0 <= m < |events| ==> !DeletesKey(Before(r, events, m), events[m], slot.entry.id)
  }

  lemma ExtendSavedBy(r: Run, events: seq<Event>, slot: Slot, i: nat, j: nat)
    requires events != [] && SavedBy(r, events[..|events| - 1], slot, i, j)
    requires !DeletesKey(After(r, events[..|events| - 1]), events[|events| - 1], slot.entry.id)
    ensures SavedBy(r, events, slot, i, j)
  {
    var n := |events| - 1;
    BeforeOfPrefix(r, events, n, j);
    forall m | i <= m < |events|
      ensures !DeletesKey(Before(r, events, m), events[m], slot.entry.id)
      ensures m < j ==> !Deletes(Before(r, events, m), events[m])
    {
      if m < n {
        BeforeOfPrefix(r, events, n, m);
        assert events[..n][m] == events[m];
        assert !DeletesKey(Before(r, events[..n], m), events[..n][m], slot.entry.id);
      }
    }
  }

  ghost predicate Justified(r: Run, events: seq<Event>, slot: Slot) {
    KeptFromStart(r, events, slot) || exists i, j :: SavedBy(r, events, slot, i, j)
  }

  lemma ExtendPresence(r: Run, events: seq<Event>, slot: Slot)
    requires events != [] && Justified(r, events[..|events| - 1], slot)
    requires !DeletesKey(After(r, events[..|events| - 1]), events[|events| - 1], slot.entry.id)
    ensures Justified(r, events, slot)
  {
    var n := |events| - 1;
    forall m | 0 <= m <= n
      ensures Before(r, events[..n], m) == Before(r, events, m)
    {
      BeforeOfPrefix(r, events, n, m);
    }
    if KeptFromStart(r, events[..n], slot) {
      assert KeptFromStart(r, events, slot);
    } else {
      var i, j :| SavedBy(r, events[..n], slot, i, j);
      ExtendSavedBy(r, events, slot, i, j);
    }
  }

  lemma FreshlySaved(r: Run, events: seq<Event>, slot: Slot) returns (i: nat)
    requires events != [] && r.tickets == map[]
    requires Stores(After(r, events[..|events| - 1]), events[|events| - 1])
    requires events[|events| - 1].slot == slot
    ensures SavedBy(r, events, slot, i, |events| - 1)
  {
    var n := |events| - 1;
    i := TicketOrigin(r, events, events[n].ticket, n);
    RevisionGrows(r, events, i, n);
  }

  /**
   * No present entry was identified before the last deletion of its key: each entry of a store was
   * there from the start or was saved by a request identified after every deletion of that key,
   * with no deletion at all between the two.
   */
  lemma {:induction false} NoEntryOutlivesItsDeletion(r: Run, events: seq<Event>, slot: Slot)
    requires r.tickets == map[] && slot in After(r, events).store.slots
    ensures Justified(r, events, slot)
  {
    if events != [] {
      var n := |events| - 1;
      var s, e := After(r, events[..n]), events[n];
      if Stores(s, e) && e.slot == slot {
        var i := FreshlySaved(r, events, slot);
      } else {
        PresentBefore(s, e, slot);
        NoEntryOutlivesItsDeletion(r, events[..n], slot);
        ExtendPresence(r, events, slot);
      }
    }
  }

  /** A slot that the last event did not write was there before it and was not deleted by it. */
  lemma PresentBefore(r: Run, e: Event, slot: Slot)
    requires slot in Apply(r, e).store.slots
    requires !(Stores(r, e) && e.slot == slot)
    ensures slot in r.store.slots
    ensures !DeletesKey(r, e, slot.entry.id)
  {
    if Stores(r, e) {
      WithoutShape(r.store.slots, e.slot.entry.id);
      TrimmedIsSubset(Without(r.store.slots, e.slot.entry.id) + [e.slot], r.store.config.maxItems, r.store.config.maxBytes);
    } else if e.Delete? && e.key.Some? {
      WithoutShape(r.store.slots, e.key.value);
    }
  }

  lemma {:induction false} TrimmedIsSubset(slots: seq<Slot>, maxItems: nat, maxBytes: nat)
    ensures forall x :: x in Trimmed(slots, maxItems, maxBytes) ==> x in slots
  {
    if !Fits(slots, maxItems, maxBytes) {
      TrimmedIsSubset(slots[1..], maxItems, maxBytes);
    }
  }

  // ---------------------------------------------------------------- what is retained

  /** An unbounded store fed with the same stored writes and deletions. */
  function Live(r: Run, events: seq<Event>): seq<Slot> {
    if events == [] then r.store.slots
    else
      var n := |events| - 1;
      var live, e := Live(r, events[..n]), events[n];
      if Stores(After(r, events[..n]), e) then Without(live, e.slot.entry.id) + [e.slot]
      else if e.Delete? then (if e.key.None? then [] else Without(live, e.key.value))
      else live
  }

  predicate IsSuffix(a: seq<Slot>, b: seq<Slot>) {
    |a| <= |b| && a == b[|b| - |a|..]
  }

  lemma {:induction false} WithoutOfConcat(a: seq<Slot>, b: seq<Slot>, key: string)
    ensures Without(a + b, key) == Without(a, key) + Without(b, key)
  {
    if a == [] {
      assert a + b == b;
    } else {
      var rest := Without(a[1..], key);
      assert (a + b)[1..] == a[1..] + b && (a + b)[0] == a[0];
      WithoutOfConcat(a[1..], b, key);
      assert [a[0]] + (rest + Without(b, key)) == [a[0]] + rest + Without(b, key);
    }
  }

  lemma WithoutKeepsSuffix(a: seq<Slot>, b: seq<Slot>, key: string)
    requires IsSuffix(a, b)
    ensures IsSuffix(Without(a, key), Without(b, key))
  {
    var front := b[..|b| - |a|];
    assert b == front + a;
    WithoutOfConcat(front, a, key);
  }

  lemma SuffixTrans(a: seq<Slot>, b: seq<Slot>, c: seq<Slot>)
    requires IsSuffix(a, b) && IsSuffix(b, c)
    ensures IsSuffix(a, c)
  {
  }

  /**
   * Eviction only ever takes the oldest writes: in every run, what a bounded store retains is a
   * suffix of what an unbounded one would hold, in the order of the last writes.
   */
  lemma {:induction false} RetainedAreTheNewest(r: Run, events: seq<Event>)
    ensures IsSuffix(After(r, events).store.slots, Live(r, events))
  {
    if events != [] {
      var n := |events| - 1;
      RetainedAreTheNewest(r, events[..n]);
      var s, live, e := After(r, events[..n]), Live(r, events[..n]), events[n];
      if Stores(s, e) {
        var key := e.slot.entry.id;
        WithoutKeepsSuffix(s.store.slots, live, key);
        var all := Without(s.store.slots, key) + [e.slot];
        assert IsSuffix(all, Without(live, key) + [e.slot]);
        TrimmedIsLongest(all, s.store.config.maxItems, s.store.config.maxBytes);
        SuffixTrans(After(r, events).store.slots, all, Live(r, events));
      } else if e.Delete? && e.key.Some? {
        WithoutKeepsSuffix(s.store.slots, live, e.key.value);
        WithoutShape(s.store.slots, e.key.value);
      }
    }
  }

  /** A log of completed writes with nothing in between. */
  function SaveAll(s: StoreState, log: seq<Slot>): StoreState {
    if log == [] then s else Saved(SaveAll(s, log[..|log| - 1]), log[|log| - 1], s.revision)
  }

  /** Writes that are not refused for their own size. */
  function Admitted(log: seq<Slot>, maxBytes: nat): seq<Slot> {
    if log == [] then []
    else
      var before, last := Admitted(log[..|log| - 1], maxBytes), log[|log| - 1];
      if last.size > maxBytes then before else before + [last]
  }

  predicate DistinctWrites(log: seq<Slot>) {
    forall i, j :: 0 <= i < j < |log| ==> log[i].entry.id != log[j].entry.id
  }

  /**
   * Maximal retention over whole logs: with distinct keys and no deletions an initially empty
   * store holds the longest suffix of all admitted writes that fits.
   */
  lemma {:induction false} DistinctWritesRetainMaximally(s: StoreState, log: seq<Slot>)
    requires s.slots == [] && s.active && DistinctWrites(log)
    ensures var t := SaveAll(s, log);
            && t == s.(slots := Trimmed(Admitted(log, s.config.maxBytes), s.config.maxItems, s.config.maxBytes))
            && forall x :: x in t.slots ==> x in log
  {
    var items, bytes := s.config.maxItems, s.config.maxBytes;
    if log != [] {
      var before, last := log[..|log| - 1], log[|log| - 1];
      DistinctWritesRetainMaximally(s, before);
      var t := SaveAll(s, before);
      var admitted := Admitted(before, bytes);
      if last.size <= bytes {
        HasKeyIff(t.slots, last.entry.id);
        assert forall x :: x in before ==> x.entry.id != last.entry.id;
        WithoutShape(t.slots, last.entry.id);
        TrimThenAppend(admitted, last, items, bytes);
        TrimmedIsSubset(t.slots + [last], items, bytes);
      }
    }
  }

  /** Appending to trimmed content and trimming again is trimming the whole. */
  lemma {:induction false} TrimThenAppend(slots: seq<Slot>, last: Slot, maxItems: nat, maxBytes: nat)
    ensures Trimmed(Trimmed(slots, maxItems, maxBytes) + [last], maxItems, maxBytes)
            == Trimmed(slots + [last], maxItems, maxBytes)
  {
    if !Fits(slots, maxItems, maxBytes) {
      TrimThenAppend(slots[1..], last, maxItems, maxBytes);
      assert (slots + [last])[1..] == slots[1..] + [last];
      TotalSplit(slots + [last], |slots|);
      assert (slots + [last])[..|slots|] == slots;
    }
  }

  /**
   * With overwrites the maximality claim holds per step only: shrinking an entry does not bring
   * back what its larger version had evicted.
   */
  lemma OverwriteDoesNotRestore(a: Entry, b: Entry, c: Entry)
    requires a.id != b.id && b.id != c.id && a.id != c.id
    ensures var s := StoreState(Config(Record, [], 3, 10), [], 0, true);
            var log := [Slot(a, 4), Slot(b, 5), Slot(c, 5), Slot(c, 1)];
            && SaveAll(s, log).slots == [Slot(b, 5), Slot(c, 1)]
            && Fits([Slot(a, 4), Slot(b, 5), Slot(c, 1)], 3, 10)
  {
    var s := StoreState(Config(Record, [], 3, 10), [], 0, true);
    var xa, xb, xc, xd := Slot(a, 4), Slot(b, 5), Slot(c, 5), Slot(c, 1);
    One(xa);
    Two(xa, xb);
    Two(xb, xc);
    Two(xb, xd);
    WithoutOne(xa, b.id);
    WithoutTwo(xa, xb, c.id);
    WithoutTwo(xb, xc, c.id);
    assert [xa, xb, xc][1..] == [xb, xc];
    assert Total([xa, xb, xc]) == xa.size + Total([xb, xc]);
    assert [] + [xa] == [xa] && [xa] + [xb] == [xa, xb] && [xa, xb] + [xc] == [xa, xb, xc] && [xb] + [xd] == [xb, xd];
    assert Saved(s, xa, 0) == s.(slots := [xa]);
    assert Saved(s.(slots := [xa]), xb, 0) == s.(slots := [xa, xb]);
    assert Trimmed([xa, xb, xc], 3, 10) == [xb, xc];
    assert Saved(s.(slots := [xa, xb]), xc, 0) == s.(slots := [xb, xc]);
    assert Saved(s.(slots := [xb, xc]), xd, 0) == s.(slots := [xb, xd]);
    FourWrites(s, xa, xb, xc, xd);
    ThreeFit(xa, xb, xd);
  }

  lemma FourWrites(s: StoreState, x: Slot, y: Slot, z: Slot, w: Slot)
    ensures SaveAll(s, [x, y, z, w]) ==
            Saved(Saved(Saved(Saved(s, x, s.revision), y, s.revision), z, s.revision), w, s.revision)
  {
    assert [x, y, z, w][..3] == [x, y, z] && [x, y, z][..2] == [x, y] && [x, y][..1] == [x] && [x][..0] == [];
    assert SaveAll(s, [x]) == Saved(s, x, s.revision);
    assert SaveAll(s, [x, y]) == Saved(SaveAll(s, [x]), y, s.revision);
    assert SaveAll(s, [x, y, z]) == Saved(SaveAll(s, [x, y]), z, s.revision);
  }

  lemma ThreeFit(x: Slot, y: Slot, z: Slot)
    ensures Total([x, y, z]) == x.size + y.size + z.size
  {
    Two(y, z);
    assert [x, y, z][1..] == [y, z];
  }

  lemma One(x: Slot)
    ensures Total([x]) == x.size
  {
    assert [x][1..] == [];
  }

  lemma Two(x: Slot, y: Slot)
    ensures Total([x, y]) == x.size + y.size
  {
    One(y);
    assert [x, y][1..] == [y];
  }

  lemma WithoutOne(x: Slot, key: string)
    ensures Without([x], key) == if x.entry.id == key then [] else [x]
  {
    assert [x][1..] == [];
  }

  lemma WithoutTwo(x: Slot, y: Slot, key: string)
    requires x.entry.id != key
    ensures Without([x, y], key) == if y.entry.id == key then [x] else [x, y]
  {
    WithoutOne(y, key);
    assert [x, y][1..] == [y];
  }

  // ---------------------------------------------------------------- what stays

  predicate Overwrites(r: Run, e: Event, key: string) {
    Stores(r, e) && e.slot.entry.id == key
  }

  lemma {:induction false} FindAppended(slots: seq<Slot>, slot: Slot, key: string)
    ensures Find(slots + [slot], key) ==
            if Find(slots, key).Some? then Find(slots, key) else if slot.entry.id == key then Some(slot) else None
  {
    if slots != [] {
      FindAppended(slots[1..], slot, key);
      assert (slots + [slot])[1..] == slots[1..] + [slot];
    }
  }

  /** What a stored write leaves before trimming: the other entries, and its own last. */
  function Written(s: StoreState, slot: Slot): seq<Slot> {
    Without(s.slots, slot.entry.id) + [slot]
  }

  /** From the entry of the key on, the list exceeds the limits. */
  predicate CrowdedOut(all: seq<Slot>, maxItems: nat, maxBytes: nat, key: string) {
    exists i :: 0 <= i < |all| && all[i].entry.id == key && !Fits(all[i..], maxItems, maxBytes)
  }

  /** A stored write of another key pushes the entry out: from it on, too much would be kept. */
  predicate Evicts(r: Run, e: Event, key: string) {
    && Stores(r, e) && e.slot.entry.id != key
    && CrowdedOut(Written(r.store, e.slot), r.store.config.maxItems, r.store.config.maxBytes, key)
  }

  /** The event takes the entry of a key away. */
  predicate Takes(r: Run, e: Event, key: string) {
    DeletesKey(r, e, key) || Evicts(r, e, key)
  }

  lemma {:induction false} FoundAt(slots: seq<Slot>, i: nat)
    requires DistinctKeys(slots) && i < |slots|
    ensures Find(slots, slots[i].entry.id) == Some(slots[i])
    ensures forall j :: 0 <= j < |slots| && slots[j].entry.id == slots[i].entry.id ==> j == i
  {
    if i > 0 {
      FoundAt(slots[1..], i - 1);
      HasKeyIff(slots[1..], slots[0].entry.id);
      assert forall j :: 0 < j < |slots| ==> slots[j] == slots[1..][j - 1];
      assert slots[i] in slots[1..];
    } else {
      HasKeyIff(slots[1..], slots[0].entry.id);
      assert forall j :: 0 < j < |slots| ==> slots[j] in slots[1..];
    }
  }

  /** Whoever is in a suffix is looked up there as before; nobody else is. */
  lemma {:induction false} FindInSuffix(slots: seq<Slot>, k: nat, i: nat)
    requires k <= |slots| && i < |slots| && DistinctKeys(slots)
    ensures DistinctKeys(slots[k..])
    ensures Find(slots[k..], slots[i].entry.id) == if i < k then None else Some(slots[i])
  {
    if k > 0 {
      assert slots[1..][k - 1..] == slots[k..];
      if i > 0 {
        FindInSuffix(slots[1..], k - 1, i - 1);
      } else {
        KeyGone(slots[1..], k - 1, slots[0].entry.id);
      }
    } else {
      FoundAt(slots, i);
      assert slots[0..] == slots;
    }
  }

  lemma {:induction false} KeyGone(slots: seq<Slot>, k: nat, key: string)
    requires k <= |slots| && !HasKey(slots, key) && DistinctKeys(slots)
    ensures Find(slots[k..], key).None? && DistinctKeys(slots[k..])
  {
    if k > 0 {
      KeyGone(slots[1..], k - 1, key);
      assert slots[1..][k - 1..] == slots[k..];
    } else {
      HasKeyIff(slots, key);
      assert slots[0..] == slots;
    }
  }

  lemma WrittenShape(s: StoreState, slot: Slot, key: string)
    requires StoreOk(s) && slot.entry.id != key
    ensures DistinctKeys(Written(s, slot)) && Find(Written(s, slot), key) == Find(s.slots, key)
  {
    WithoutShape(s.slots, slot.entry.id);
    AppendNewKey(Without(s.slots, slot.entry.id), slot);
    FindWithout(s.slots, slot.entry.id, key);
    FindAppended(Without(s.slots, slot.entry.id), slot, key);
  }

  lemma {:induction false} FoundSomewhere(slots: seq<Slot>, key: string) returns (i: nat)
    requires Find(slots, key).Some?
    ensures i < |slots| && slots[i] == Find(slots, key).value && slots[i].entry.id == key
  {
    if slots[0].entry.id == key {
      i := 0;
    } else {
      i := FoundSomewhere(slots[1..], key);
      i := i + 1;
    }
  }

  lemma FoundWhenKept(all: seq<Slot>, kept: seq<Slot>, maxItems: nat, maxBytes: nat, i: nat)
    requires DistinctKeys(all) && KeepsNewest(all, kept, maxItems, maxBytes) && i < |all|
    ensures CrowdedOut(all, maxItems, maxBytes, all[i].entry.id) <==> i < |all| - |kept|
    ensures Find(kept, all[i].entry.id) == if i < |all| - |kept| then None else Some(all[i])
  {
    FoundAt(all, i);
    FindInSuffix(all, |all| - |kept|, i);
    if i >= |all| - |kept| {
      SuffixFits(kept, i - (|all| - |kept|), maxItems, maxBytes);
      assert kept[i - (|all| - |kept|)..] == all[i..];
    }
  }

  lemma FindKept(all: seq<Slot>, kept: seq<Slot>, maxItems: nat, maxBytes: nat, key: string)
    requires DistinctKeys(all) && KeepsNewest(all, kept, maxItems, maxBytes)
    ensures Find(kept, key) == if CrowdedOut(all, maxItems, maxBytes, key) then None else Find(all, key)
  {
    if Find(all, key).Some? {
      var i := FoundSomewhere(all, key);
      FoundWhenKept(all, kept, maxItems, maxBytes, i);
    } else {
      HasKeyIff(all, key);
      KeyGone(all, |all| - |kept|, key);
      assert forall i :: 0 <= i < |all| ==> all[i] in all;
    }
  }

  /** A stored write keeps exactly those other entries that it does not evict. */
  lemma OtherWrite(r: Run, e: Event, key: string)
    requires StoreOk(r.store) && Stores(r, e) && e.slot.entry.id != key
    ensures Find(Apply(r, e).store.slots, key) == if Evicts(r, e, key) then None else Find(r.store.slots, key)
  {
    var all, items, bytes := Written(r.store, e.slot), r.store.config.maxItems, r.store.config.maxBytes;
    WrittenShape(r.store, e.slot, key);
    TrimmedIsLongest(all, items, bytes);
    FindKept(all, Trimmed(all, items, bytes), items, bytes, key);
  }

  /** One event that does not overwrite a key leaves its entry alone or takes it away. */
  lemma EventOnKey(r: Run, e: Event, key: string)
    requires StoreOk(r.store) && !Overwrites(r, e, key)
    ensures StoreOk(Apply(r, e).store)
    ensures LookUp(Apply(r, e).store.slots, key) == if Takes(r, e, key) then None else LookUp(r.store.slots, key)
  {
    match e
    case Save(t, slot) =>
      if Stores(r, e) {
        SavedOk(r.store, slot, r.tickets[t]);
        OtherWrite(r, e, key);
      }
    case Delete(k) =>
      DeletedOk(r.store, k);
      if k.Some? {
        DeletionPops(r.store, k.value);
        HasKeyIff(r.store.slots, key);
      }
    case _ =>
  }

  predicate NeverOverwrites(r: Run, events: seq<Event>, key: string) {
    forall m :: 0 <= m < |events| ==> !Overwrites(Before(r, events, m), events[m], key)
  }

  predicate EverTakes(r: Run, events: seq<Event>, key: string) {
    exists m :: 0 <= m < |events| && Takes(Before(r, events, m), events[m], key)
  }

  lemma PrefixOfRun(r: Run, events: seq<Event>, key: string)
    requires events != [] && NeverOverwrites(r, events, key)
    ensures var n := |events| - 1;
            && NeverOverwrites(r, events[..n], key) && !Overwrites(After(r, events[..n]), events[n], key)
            && (EverTakes(r, events, key) <==> EverTakes(r, events[..n], key) || Takes(After(r, events[..n]), events[n], key))
  {
    var n := |events| - 1;
    forall m | 0 <= m < n
      ensures Before(r, events[..n], m) == Before(r, events, m) && events[..n][m] == events[m]
    {
      BeforeOfPrefix(r, events, n, m);
    }
    forall m | 0 <= m < n
      ensures !Overwrites(Before(r, events[..n], m), events[..n][m], key)
    {
      assert !Overwrites(Before(r, events, m), events[m], key);
    }
    assert !Overwrites(Before(r, events, n), events[n], key);
    if m :| 0 <= m < n && Takes(Before(r, events[..n], m), events[..n][m], key) {
      assert Takes(Before(r, events, m), events[m], key);
    }
    if Takes(After(r, events[..n]), events[n], key) {
      assert Takes(Before(r, events, n), events[n], key);
    }
  }

  /**
   * Over any run without overwrites of a key its entry stays what it was, and is gone exactly if the
   * run has deleted it or evicted it by a write that needed the room.
   */
  lemma {:induction false} EntryIsStable(r: Run, events: seq<Event>, key: string)
    requires StoreOk(r.store) && NeverOverwrites(r, events, key)
    ensures StoreOk(After(r, events).store)
    ensures LookUp(After(r, events).store.slots, key)
            == if EverTakes(r, events, key) then None else LookUp(r.store.slots, key)
  {
    if events != [] {
      var n := |events| - 1;
      PrefixOfRun(r, events, key);
      EntryIsStable(r, events[..n], key);
      EventOnKey(After(r, events[..n]), events[n], key);
    }
  }

  /** Every stored write of the run fits beside all other entries. */
  predicate WritesFit(r: Run, events: seq<Event>) {
    forall m :: 0 <= m < |events| && Stores(Before(r, events, m), events[m]) ==>
      var s := Before(r, events, m).store; Fits(Written(s, events[m].slot), s.config.maxItems, s.config.maxBytes)
  }

  /** Where everything fits, only a deletion of its own key takes an entry away. */
  lemma OnlyDeletionTakes(r: Run, events: seq<Event>, key: string)
    requires StoreOk(r.store) && NeverOverwrites(r, events, key) && WritesFit(r, events)
    ensures LookUp(After(r, events).store.slots, key)
            == if exists m :: 0 <= m < |events| && DeletesKey(Before(r, events, m), events[m], key) then None
               else LookUp(r.store.slots, key)
  {
    EntryIsStable(r, events, key);
    forall m | 0 <= m < |events|
      ensures Takes(Before(r, events, m), events[m], key) <==> DeletesKey(Before(r, events, m), events[m], key)
    {
      if Evicts(Before(r, events, m), events[m], key) {
        var s := Before(r, events, m).store;
        var all := Written(s, events[m].slot);
        var i :| 0 <= i < |all| && all[i].entry.id == key && !Fits(all[i..], s.config.maxItems, s.config.maxBytes);
        SuffixFits(all, i, s.config.maxItems, s.config.maxBytes);
      }
    }
  }

  // ---------------------------------------------------------------- what is stored

  /** Since the `i`-th event a deletion has succeeded or the store has been retired. */
  predicate CutOff(r: Run, events: seq<Event>, i: nat) {
    exists m :: i <= m < |events| && (Deletes(Before(r, events, m), events[m]) || events[m].Retire?)
  }

  lemma {:induction false} UndisturbedStays(r: Run, events: seq<Event>, i: nat, j: nat)
    requires i <= j <= |events|
    requires forall m :: i <= m < j ==> !Deletes(Before(r, events, m), events[m]) && !events[m].Retire?
    ensures Before(r, events, j).store.revision == Before(r, events, i).store.revision
    ensures Before(r, events, j).store.active == Before(r, events, i).store.active
  {
    if i < j {
      UndisturbedStays(r, events, i, j - 1);
      BeforeNext(r, events, j - 1);
    }
  }

  lemma {:induction false} TicketStays(r: Run, events: seq<Event>, i: nat, j: nat, t: nat)
    requires i < j <= |events| && events[i] == Identify(t)
    requires forall m :: i < m < j ==> events[m] != Identify(t)
    ensures t in Before(r, events, j).tickets
    ensures Before(r, events, j).tickets[t] == Before(r, events, i).store.revision
  {
    BeforeNext(r, events, j - 1);
    if i < j - 1 {
      TicketStays(r, events, i, j - 1, t);
    }
  }

  lemma {:induction false} ConfigStays(r: Run, events: seq<Event>)
    ensures After(r, events).store.config == r.store.config
  {
    if events != [] {
      ConfigStays(r, events[..|events| - 1]);
    }
  }

  /**
   * What becomes of a save, in every run of one store: superseded exactly if the store was retired
   * when the request was identified or has been cut off since, too large exactly if the entry alone
   * exceeds the limit, and stored otherwise.
   */
  lemma SaveOutcomeIff(r: Run, events: seq<Event>, i: nat, t: nat, slot: Slot)
    requires i < |events| && events[i] == Identify(t) && forall m :: i < m < |events| ==> events[m] != Identify(t)
    ensures t in After(r, events).tickets
    ensures SaveOutcome(After(r, events).store, slot.size, After(r, events).tickets[t])
            == if !Before(r, events, i).store.active || CutOff(r, events, i) then Superseded
               else if slot.size > r.store.config.maxBytes then TooLarge
               else Stored
  {
    BeforeEnd(r, events);
    TicketStays(r, events, i, |events|, t);
    ConfigStays(r, events);
    if CutOff(r, events, i) {
      var m :| i <= m < |events| && (Deletes(Before(r, events, m), events[m]) || events[m].Retire?);
      LateWriteIsSuperseded(r, events, i, m, t, slot);
    } else if Before(r, events, i).store.active {
      UndisturbedStays(r, events, i, |events|);
    } else {
      StaysRetired(r, events, i, |events|);
    }
  }

  /** After a stored write the store answers the key with that entry. */
  lemma StoredIsFound(s: StoreState, slot: Slot, revision: nat)
    requires StoreOk(s) && s.config.maxItems > 0 && SaveOutcome(s, slot.size, revision).Stored?
    ensures LookUp(Saved(s, slot, revision).slots, slot.entry.id) == Some(slot.entry)
  {
    SaveRetainsMaximally(s, slot, revision);
    SavedOk(s, slot, revision);
    LastIsFound(Saved(s, slot, revision).slots);
  }

  lemma {:induction false} LastIsFound(slots: seq<Slot>)
    requires slots != [] && DistinctKeys(slots)
    ensures Find(slots, slots[|slots| - 1].entry.id) == Some(slots[|slots| - 1])
  {
    if |slots| > 1 {
      LastIsFound(slots[1..]);
      HasKeyIff(slots[1..], slots[0].entry.id);
      assert slots[|slots| - 1] in slots[1..];
    }
  }
}
