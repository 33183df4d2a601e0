/**
 * The recording store (proxy_mock/services/recordings.py): an insertion-ordered cache bounded by
 * entry count and total bytes, owned by one generation of a mock. Pure functions give the effect
 * of each locked section; the class `RecordingStore` performs it on mutable fields.
 */
module Store {
  import opened Wrappers
  import opened Recordings

  /** One cached entry with the size it was charged for; its key is the entry's id. */
  datatype Slot = Slot(entry: Entry, size: nat)

  datatype StoreState = StoreState(config: Config, slots: seq<Slot>, revision: nat, active: bool)

  datatype Outcome = Stored | Superseded | TooLarge

  // ---------------------------------------------------------------- trimming

  function Total(slots: seq<Slot>): nat {
    if slots == [] then 0 else slots[0].size + Total(slots[1..])
  }

  predicate Fits(slots: seq<Slot>, maxItems: nat, maxBytes: nat) {
    |slots| <= maxItems && Total(slots) <= maxBytes
  }

  /** Drop the oldest writes until the rest fits. */
  function Trimmed(slots: seq<Slot>, maxItems: nat, maxBytes: nat): (r: seq<Slot>)
    ensures Fits(r, maxItems, maxBytes)
  {
    if Fits(slots, maxItems, maxBytes) then slots else Trimmed(slots[1..], maxItems, maxBytes)
  }

  function Min(a: nat, b: nat): nat {
    if a < b then a else b
  }

  lemma {:induction false} TotalSplit(slots: seq<Slot>, k: nat)
    requires k <= |slots|
    ensures Total(slots) == Total(slots[..k]) + Total(slots[k..])
  {
    if k > 0 {
      TotalSplit(slots[1..], k - 1);
      assert slots[..k][1..] == slots[1..][..k - 1] && slots[1..][k - 1..] == slots[k..];
    }
  }

  /** The trimmed content is the longest suffix that fits: every longer one does not. */
  lemma {:induction false} TrimmedIsLongest(slots: seq<Slot>, maxItems: nat, maxBytes: nat)
    ensures var r := Trimmed(slots, maxItems, maxBytes);
            && |r| <= |slots| && r == slots[|slots| - |r|..]
            && forall j :: 0 <= j < |slots| - |r| ==> !Fits(slots[j..], maxItems, maxBytes)
  {
    if !Fits(slots, maxItems, maxBytes) {
      TrimmedIsLongest(slots[1..], maxItems, maxBytes);
      var r := Trimmed(slots, maxItems, maxBytes);
      forall j | 0 <= j < |slots| - |r|
        ensures !Fits(slots[j..], maxItems, maxBytes)
      {
        if j == 0 {
          assert slots[0..] == slots;
        } else {
          assert slots[1..][j - 1..] == slots[j..];
        }
      }
    }
  }

  /** Shorter suffixes need less room. */
  lemma SuffixFits(slots: seq<Slot>, k: nat, maxItems: nat, maxBytes: nat)
    requires k <= |slots| && Fits(slots, maxItems, maxBytes)
    ensures Fits(slots[k..], maxItems, maxBytes)
  {
    TotalSplit(slots, k);
  }

  /** Trimming to looser limits first makes no difference. */
  lemma {:induction false} TrimmedTwice(slots: seq<Slot>, items1: nat, bytes1: nat, items: nat, bytes: nat)
    requires items <= items1 && bytes <= bytes1
    ensures Trimmed(Trimmed(slots, items1, bytes1), items, bytes) == Trimmed(slots, items, bytes)
  {
    if !Fits(slots, items1, bytes1) {
      TrimmedTwice(slots[1..], items1, bytes1, items, bytes);
    }
  }

  /** Trimming under one pair of limits and then another is trimming under the pointwise minimum. */
  lemma {:induction false} TrimComposition(slots: seq<Slot>, items1: nat, bytes1: nat, items2: nat, bytes2: nat)
    ensures Trimmed(Trimmed(slots, items1, bytes1), items2, bytes2)
            == Trimmed(slots, Min(items1, items2), Min(bytes1, bytes2))
  {
    TrimmedTwice(slots, items1, bytes1, Min(items1, items2), Min(bytes1, bytes2));
    SameTrim(Trimmed(slots, items1, bytes1), items1, bytes1, items2, bytes2);
  }

  lemma {:induction false} SameTrim(r: seq<Slot>, items1: nat, bytes1: nat, items2: nat, bytes2: nat)
    requires Fits(r, items1, bytes1)
    ensures Trimmed(r, items2, bytes2) == Trimmed(r, Min(items1, items2), Min(bytes1, bytes2))
  {
    if !Fits(r, items2, bytes2) {
      SuffixFits(r, 1, items1, bytes1);
      SameTrim(r[1..], items1, bytes1, items2, bytes2);
    }
  }

  // ---------------------------------------------------------------- the locked sections

  predicate HasKey(slots: seq<Slot>, key: string) {
    slots != [] && (slots[0].entry.id == key || HasKey(slots[1..], key))
  }

  function Without(slots: seq<Slot>, key: string): seq<Slot> {
    if slots == [] then []
    else if slots[0].entry.id == key then Without(slots[1..], key)
    else [slots[0]] + Without(slots[1..], key)
  }

  function LookUp(slots: seq<Slot>, key: string): Option<Entry> {
    var slot := Find(slots, key);
    if slot.Some? then Some(slot.value.entry) else None
  }

  function Find(slots: seq<Slot>, key: string): Option<Slot> {
    if slots == [] then None
    else if slots[0].entry.id == key then Some(slots[0])
    else Find(slots[1..], key)
  }

  predicate DistinctKeys(slots: seq<Slot>) {
    slots != [] ==> !HasKey(slots[1..], slots[0].entry.id) && DistinctKeys(slots[1..])
  }

  /** Assignment to an ordered dictionary: an existing key keeps its place. */
  function Assign(slots: seq<Slot>, slot: Slot): seq<Slot> {
    if slots == [] then [slot]
    else if slots[0].entry.id == slot.entry.id then [slot] + slots[1..]
    else [slots[0]] + Assign(slots[1..], slot)
  }

  /** The dictionary built from an imported list. */
  function FromEntries(codec: Codec, entries: seq<Entry>): seq<Slot> {
    if entries == [] then []
    else
      var last := entries[|entries| - 1];
      Assign(FromEntries(codec, entries[..|entries| - 1]), Slot(last, codec.size(last)))
  }

  /** `__init__`: the predecessor's entries or the imported ones, trimmed to the new limits. */
  function NewStore(
    codec: Codec, config: Config, previous: Option<StoreState>, imported: Option<seq<Entry>>): StoreState
  {
    var start :=
      if imported.Some? then FromEntries(codec, imported.value)
      else if previous.Some? then previous.value.slots
      else [];
    StoreState(config, Trimmed(start, config.maxItems, config.maxBytes), 0, true)
  }

  function Retired(s: StoreState): StoreState {
    s.(active := false)
  }

  function SaveOutcome(s: StoreState, size: nat, revision: nat): Outcome {
    if !s.active || revision != s.revision then Superseded
    else if size > s.config.maxBytes then TooLarge
    else Stored
  }

  /** `save`: replace the entry of this key and trim, unless superseded or too large. */
  function Saved(s: StoreState, slot: Slot, revision: nat): StoreState {
    if SaveOutcome(s, slot.size, revision).Stored? then
      s.(slots := Trimmed(Without(s.slots, slot.entry.id) + [slot], s.config.maxItems, s.config.maxBytes))
    else s
  }

  /** `delete` finds something to delete; clearing a collection always does. */
  predicate DeletionSucceeds(s: StoreState, key: Option<string>) {
    key.Some? ==> HasKey(s.slots, key.value)
  }

  function Deleted(s: StoreState, key: Option<string>): StoreState {
    if !DeletionSucceeds(s, key) then s
    else if key.None? then s.(slots := [], revision := s.revision + 1)
    else s.(slots := Without(s.slots, key.value), revision := s.revision + 1)
  }

  function Entries(slots: seq<Slot>): seq<Entry> {
    seq(|slots|, i requires 0 <= i < |slots| => slots[i].entry)
  }

  /** Both limits hold and no key occurs twice: true of every store in every reachable state. */
  predicate StoreOk(s: StoreState) {
    Fits(s.slots, s.config.maxItems, s.config.maxBytes) && DistinctKeys(s.slots)
  }

  lemma {:induction false} HasKeyIff(slots: seq<Slot>, key: string)
    ensures HasKey(slots, key) <==> exists x :: x in slots && x.entry.id == key
    ensures HasKey(slots, key) <==> Find(slots, key).Some?
    ensures HasKey(slots, key) ==> Find(slots, key).value in slots && Find(slots, key).value.entry.id == key
  {
    if slots != [] {
      HasKeyIff(slots[1..], key);
      assert forall x :: x in slots <==> x == slots[0] || x in slots[1..];
    }
  }

  /** A store answers a key with exactly the entry it holds under it. */
  lemma LookUpIff(slots: seq<Slot>, key: string, e: Entry)
    requires DistinctKeys(slots)
    ensures LookUp(slots, key) == Some(e) <==> e.id == key && exists x :: x in slots && x.entry == e
  {
    HasKeyIff(slots, key);
    if e.id == key && exists x :: x in slots && x.entry == e {
      var x :| x in slots && x.entry == e;
      FoundIsUnique(slots, x);
    }
  }

  lemma {:induction false} FoundIsUnique(slots: seq<Slot>, x: Slot)
    requires DistinctKeys(slots) && x in slots
    ensures Find(slots, x.entry.id) == Some(x)
  {
    HasKeyIff(slots[1..], slots[0].entry.id);
    if slots[0] != x {
      assert x in slots[1..];
      FoundIsUnique(slots[1..], x);
    }
  }

  lemma {:induction false} WithoutShape(slots: seq<Slot>, key: string)
    ensures forall k :: HasKey(Without(slots, key), k) <==> HasKey(slots, k) && k != key
    ensures forall x :: x in Without(slots, key) <==> x in slots && x.entry.id != key
    ensures |Without(slots, key)| <= |slots|
    ensures !HasKey(slots, key) ==> Without(slots, key) == slots
    ensures DistinctKeys(slots) ==> DistinctKeys(Without(slots, key))
  {
    if slots != [] {
      WithoutShape(slots[1..], key);
      assert slots == [slots[0]] + slots[1..];
      assert ([slots[0]] + Without(slots[1..], key))[1..] == Without(slots[1..], key);
    }
  }

  /** Popping a key from an ordered dictionary: its one slot goes and all others keep their order. */
  predicate Pops(before: seq<Slot>, after: seq<Slot>, key: string) {
    if exists i :: 0 <= i < |before| && before[i].entry.id == key
    then exists i :: 0 <= i < |before| && before[i].entry.id == key && after == before[..i] + before[i + 1..]
    else after == before
  }

  lemma PopsAt(before: seq<Slot>, after: seq<Slot>, key: string, i: nat)
    requires i < |before| && before[i].entry.id == key && after == before[..i] + before[i + 1..]
    ensures Pops(before, after, key)
  {
  }

  lemma PopsLater(x: Slot, before: seq<Slot>, after: seq<Slot>, key: string)
    requires Pops(before, after, key) && x.entry.id != key
    ensures Pops([x] + before, [x] + after, key)
  {
    var all := [x] + before;
    if i :| 0 <= i < |before| && before[i].entry.id == key && after == before[..i] + before[i + 1..] {
      assert all[..i + 1] == [x] + before[..i] && all[i + 2..] == before[i + 1..];
      PopsAt(all, [x] + after, key, i + 1);
    } else {
      assert forall i :: 0 < i < |all| ==> all[i] == before[i - 1];
    }
  }

  lemma {:induction false} WithoutPops(slots: seq<Slot>, key: string)
    requires DistinctKeys(slots)
    ensures Pops(slots, Without(slots, key), key)
  {
    if slots != [] {
      assert slots == [slots[0]] + slots[1..];
      if slots[0].entry.id == key {
        WithoutShape(slots[1..], key);
        PopsAt(slots, Without(slots, key), key, 0);
      } else {
        WithoutPops(slots[1..], key);
        PopsLater(slots[0], slots[1..], Without(slots[1..], key), key);
      }
    }
  }

  lemma {:induction false} FindWithout(slots: seq<Slot>, other: string, key: string)
    ensures Find(Without(slots, other), key) == if key == other then None else Find(slots, key)
  {
    if slots != [] {
      FindWithout(slots[1..], other, key);
    }
  }

  /** Deleting one recording pops its slot, moves the revision, and no other key is looked up differently. */
  lemma DeletionPops(s: StoreState, key: string)
    requires StoreOk(s)
    ensures var t := Deleted(s, Some(key));
            && Pops(s.slots, t.slots, key) && t.config == s.config && t.active == s.active
            && t.revision == s.revision + (if exists x :: x in s.slots && x.entry.id == key then 1 else 0)
            && forall k :: LookUp(t.slots, k) == if k == key then None else LookUp(s.slots, k)
  {
    WithoutPops(s.slots, key);
    HasKeyIff(s.slots, key);
    forall k
      ensures LookUp(Deleted(s, Some(key)).slots, k) == if k == key then None else LookUp(s.slots, k)
    {
      FindWithout(s.slots, key, k);
    }
    if !HasKey(s.slots, key) {
      WithoutShape(s.slots, key);
    }
  }

  /** Popping a key frees exactly the size its entry was charged for. */
  lemma {:induction false} TotalWithout(slots: seq<Slot>, key: string)
    requires DistinctKeys(slots)
    ensures Find(slots, key).Some? <==> HasKey(slots, key)
    ensures Total(slots) ==
            Total(Without(slots, key)) + (if Find(slots, key).Some? then Find(slots, key).value.size else 0)
  {
    if slots != [] {
      TotalWithout(slots[1..], key);
      WithoutShape(slots[1..], key);
      assert ([slots[0]] + Without(slots[1..], key))[1..] == Without(slots[1..], key);
    }
  }

  lemma {:induction false} AppendNewKey(slots: seq<Slot>, slot: Slot)
    requires !HasKey(slots, slot.entry.id)
    ensures Assign(slots, slot) == slots + [slot]
    ensures DistinctKeys(slots) ==> DistinctKeys(slots + [slot])
    ensures forall k :: HasKey(slots + [slot], k) <==> HasKey(slots, k) || k == slot.entry.id
    ensures Total(slots + [slot]) == Total(slots) + slot.size
  {
    if slots != [] {
      AppendNewKey(slots[1..], slot);
      assert (slots + [slot])[1..] == slots[1..] + [slot];
    }
  }

  lemma {:induction false} AssignKeepsDistinct(slots: seq<Slot>, slot: Slot)
    requires DistinctKeys(slots)
    ensures DistinctKeys(Assign(slots, slot))
    ensures forall k :: HasKey(Assign(slots, slot), k) <==> HasKey(slots, k) || k == slot.entry.id
    ensures forall x :: x in Assign(slots, slot) ==> x == slot || x in slots
  {
    if slots != [] {
      AssignKeepsDistinct(slots[1..], slot);
      assert ([slots[0]] + Assign(slots[1..], slot))[1..] == Assign(slots[1..], slot);
      assert ([slot] + slots[1..])[1..] == slots[1..];
    }
  }

  lemma {:induction false} FromEntriesDistinct(codec: Codec, entries: seq<Entry>)
    ensures DistinctKeys(FromEntries(codec, entries))
    ensures forall x :: x in FromEntries(codec, entries) ==> x.entry in entries && x.size == codec.size(x.entry)
  {
    if entries != [] {
      var last := entries[|entries| - 1];
      FromEntriesDistinct(codec, entries[..|entries| - 1]);
      AssignKeepsDistinct(FromEntries(codec, entries[..|entries| - 1]), Slot(last, codec.size(last)));
    }
  }

  lemma {:induction false} TrimmedKeepsDistinct(slots: seq<Slot>, maxItems: nat, maxBytes: nat)
    requires DistinctKeys(slots)
    ensures DistinctKeys(Trimmed(slots, maxItems, maxBytes))
    ensures forall x :: x in Trimmed(slots, maxItems, maxBytes) ==> x in slots
  {
    if !Fits(slots, maxItems, maxBytes) {
      TrimmedKeepsDistinct(slots[1..], maxItems, maxBytes);
    }
  }

  lemma NewStoreOk(codec: Codec, config: Config, previous: Option<StoreState>, imported: Option<seq<Entry>>)
    requires previous.Some? ==> StoreOk(previous.value)
    ensures StoreOk(NewStore(codec, config, previous, imported))
  {
    if imported.Some? {
      FromEntriesDistinct(codec, imported.value);
      TrimmedKeepsDistinct(FromEntries(codec, imported.value), config.maxItems, config.maxBytes);
    } else if previous.Some? {
      TrimmedKeepsDistinct(previous.value.slots, config.maxItems, config.maxBytes);
    }
  }

  lemma SavedOk(s: StoreState, slot: Slot, revision: nat)
    requires StoreOk(s)
    ensures StoreOk(Saved(s, slot, revision))
  {
    WithoutShape(s.slots, slot.entry.id);
    AppendNewKey(Without(s.slots, slot.entry.id), slot);
    TrimmedKeepsDistinct(Without(s.slots, slot.entry.id) + [slot], s.config.maxItems, s.config.maxBytes);
  }

  lemma DeletedOk(s: StoreState, key: Option<string>)
    requires StoreOk(s)
    ensures StoreOk(Deleted(s, key))
  {
    if key.Some? {
      WithoutShape(s.slots, key.value);
      TotalWithout(s.slots, key.value);
    }
  }

  /** What is kept of a list under two limits: its longest suffix that fits. */
  predicate KeepsNewest(all: seq<Slot>, kept: seq<Slot>, maxItems: nat, maxBytes: nat) {
    && |kept| <= |all| && kept == all[|all| - |kept|..] && Fits(kept, maxItems, maxBytes)
    && forall j :: 0 <= j < |all| - |kept| ==> !Fits(all[j..], maxItems, maxBytes)
  }

  lemma NewestIsKept(others: seq<Slot>, slot: Slot, maxItems: nat, maxBytes: nat)
    requires maxItems > 0 && slot.size <= maxBytes
    ensures var kept := Trimmed(others + [slot], maxItems, maxBytes);
            && kept != [] && kept[|kept| - 1] == slot
            && KeepsNewest(others + [slot], kept, maxItems, maxBytes)
  {
    TrimmedIsLongest(others + [slot], maxItems, maxBytes);
    assert (others + [slot])[|others|..] == [slot];
  }

  /**
   * One write. It is stored exactly if the store is active, has the captured revision, and the entry
   * fits alone: the new entry is then the last one and survives its own trim, and what else remains
   * is the longest suffix of the other entries that still fits beside it. Otherwise nothing changes,
   * so the earlier entry of its key stays.
   */
  lemma SaveRetainsMaximally(s: StoreState, slot: Slot, revision: nat)
    requires StoreOk(s) && s.config.maxItems > 0
    ensures var t := Saved(s, slot, revision);
            if s.active && s.revision == revision && slot.size <= s.config.maxBytes then
              && t == s.(slots := t.slots) && t.slots != [] && t.slots[|t.slots| - 1] == slot
              && exists others :: Pops(s.slots, others, slot.entry.id)
                   && KeepsNewest(others + [slot], t.slots, s.config.maxItems, s.config.maxBytes)
            else t == s
  {
    if SaveOutcome(s, slot.size, revision).Stored? {
      WithoutPops(s.slots, slot.entry.id);
      NewestIsKept(Without(s.slots, slot.entry.id), slot, s.config.maxItems, s.config.maxBytes);
    }
  }

  /** An importable collection is taken over as it is: nothing is evicted and the order is kept. */
  lemma ImportedIsNeverEvicted(codec: Codec, config: Config, previous: Option<StoreState>, entries: seq<Entry>)
    requires Importable(config, codec.hash, codec.size, entries)
    ensures Entries(NewStore(codec, config, previous, Some(entries)).slots) == entries
  {
    DistinctEntries(codec, entries);
    assert |FromEntries(codec, entries)| == |Entries(FromEntries(codec, entries))|;
  }

  lemma EntriesSnoc(slots: seq<Slot>, x: Slot)
    ensures Entries(slots + [x]) == Entries(slots) + [x.entry]
  {
  }

  lemma {:induction false} DistinctEntries(codec: Codec, entries: seq<Entry>)
    requires DistinctIds(entries)
    ensures Entries(FromEntries(codec, entries)) == entries
    ensures Total(FromEntries(codec, entries)) == TotalSize(codec.size, entries)
  {
    if entries != [] {
      var before, last := entries[..|entries| - 1], entries[|entries| - 1];
      DistinctEntries(codec, before);
      var slots := FromEntries(codec, before);
      DistinctIdsStep(entries);
      FromEntriesDistinct(codec, before);
      HasKeyIff(slots, last.id);
      assert forall x :: x in slots ==> x.entry.id in Ids(before);
      AppendNewKey(slots, Slot(last, codec.size(last)));
      EntriesSnoc(slots, Slot(last, codec.size(last)));
      assert before + [last] == entries;
    }
  }

  // ---------------------------------------------------------------- the class

  class RecordingStore {
    const config: Config
    var entries: seq<Slot>
    var bytes: int
    var revision: nat
    var active: bool
    /** A name for the object in ghost reasoning about whole applications. */
    ghost const id: nat

    /** The byte counter agrees with the entries, and both limits hold. */
    ghost predicate Valid()
      reads this
    {
      bytes == Total(entries) && StoreOk(View())
    }

    ghost function View(): StoreState
      reads this
    {
      StoreState(config, entries, revision, active)
    }

    constructor (ghost id: nat, codec: Codec, config: Config, previous: RecordingStore?, imported: Option<seq<Entry>>)
      requires previous != null ==> previous.Valid()
      ensures Valid() && this.id == id
      ensures View() == NewStore(codec, config, if previous == null then None else Some(previous.View()), imported)
    {
      this.id := id;
      this.config := config;
      var start := if previous != null then previous.entries else [];
      if imported.Some? {
        start := FromEntries(codec, imported.value);
      }
      entries := start;
      bytes := Total(start);
      revision := 0;
      active := true;
      new;
      NewStoreOk(codec, config, if previous == null then None else Some(previous.View()), imported);
      Trim();
    }

    /** Detach this generation: nothing is saved from now on. */
    method Retire()
      modifies this`active
      ensures View() == Retired(old(View()))
    {
      active := false;
    }

    /** Never pops an empty dictionary and terminates: an empty store fits any limits. */
    method Trim()
      requires bytes == Total(entries)
      modifies this`entries, this`bytes
      ensures entries == Trimmed(old(entries), config.maxItems, config.maxBytes)
      ensures bytes == Total(entries)
    {
      while |entries| > config.maxItems || bytes > config.maxBytes
        invariant bytes == Total(entries)
        invariant Trimmed(entries, config.maxItems, config.maxBytes)
                  == Trimmed(old(entries), config.maxItems, config.maxBytes)
        decreases |entries|
      {
        var oldest := entries[0];
        entries := entries[1..];
        bytes := bytes - oldest.size;
      }
    }

    /** The first half of `identify`: capture the revision, before the body is awaited. */
    method BeginIdentify() returns (captured: nat)
      ensures captured == View().revision
    {
      captured := revision;
    }

    /** The second half of `identify`, once the body has arrived. */
    method FinishIdentify(codec: Codec, request: Request) returns (key: string, data: RequestData)
      ensures data == Identity(View().config, request) && key == codec.hash(data)
    {
      data := Identity(config, request);
      key := codec.hash(data);
    }

    method Save(codec: Codec, key: string, request: RequestData, reply: Reply, captured: nat) returns (outcome: Outcome)
      requires Valid() && key == codec.hash(request)
      modifies this`entries, this`bytes
      ensures Valid()
      ensures var e := EntryOf(codec.hash, request, reply);
              && outcome == SaveOutcome(old(View()), codec.size(e), captured)
              && View() == Saved(old(View()), Slot(e, codec.size(e)), captured)
    {
      var entry := Entry(key, request, Recorded(request.verb, reply));
      outcome := Put(Slot(entry, codec.size(entry)), captured);
    }

    /** The locked section of `save`. */
    method Put(slot: Slot, captured: nat) returns (outcome: Outcome)
      requires Valid()
      modifies this`entries, this`bytes
      ensures Valid()
      ensures outcome == SaveOutcome(old(View()), slot.size, captured)
      ensures View() == Saved(old(View()), slot, captured)
    {
      SavedOk(View(), slot, captured);
      if !active || captured != revision {
        return Superseded;
      }
      if slot.size > config.maxBytes {
        return TooLarge;
      }
      var key := slot.entry.id;
      TotalWithout(entries, key);
      WithoutShape(entries, key);
      AppendNewKey(Without(entries, key), slot);
      var popped := Find(entries, key);
      entries := Without(entries, key);
      if popped.Some? {
        bytes := bytes - popped.value.size;
      }
      entries := entries + [slot];
      bytes := bytes + slot.size;
      Trim();
      return Stored;
    }

    method ReadOne(key: string) returns (entry: Option<Entry>)
      ensures entry == LookUp(View().slots, key)
    {
      entry := LookUp(entries, key);
    }

    method ReadAll() returns (all: seq<Entry>)
      ensures all == Entries(View().slots)
    {
      all := Entries(entries);
    }

    /** A successful deletion moves the revision, so writes identified before it are superseded. */
    method Delete(key: Option<string>) returns (ok: bool)
      requires Valid()
      modifies this`entries, this`bytes, this`revision
      ensures Valid()
      ensures ok == DeletionSucceeds(old(View()), key)
      ensures View() == Deleted(old(View()), key)
      ensures key.None? ==> ok && entries == []
      ensures key.Some? ==> Pops(old(entries), entries, key.value) && (ok <==> exists x :: x in old(entries) && x.entry.id == key.value)
    {
      DeletedOk(View(), key);
      if key.Some? {
        HasKeyIff(entries, key.value);
        DeletionPops(View(), key.value);
      }
      if key.Some? && !HasKey(entries, key.value) {
        return false;
      }
      revision := revision + 1;
      if key.None? {
        entries := [];
        bytes := 0;
      } else {
        TotalWithout(entries, key.value);
        var popped := Find(entries, key.value);
        entries := Without(entries, key.value);
        bytes := bytes - popped.value.size;
      }
      return true;
    }
  }
}
