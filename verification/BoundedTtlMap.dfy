/**
 A map whose entries expire and whose size is bounded: compared with the same map without a bound, which is
 given by the history of everything ever written to it.
 */
module BoundedTtlMap {
  import opened Wrappers

  type Key = string
  type Time = int

  datatype Entry<V> = Entry(key: Key, value: V, expiresAt: Time)

  /** What was ever done to the map; `Wipe` clears it. */
  datatype Event<V> = Put(entry: Entry<V>) | Drop(key: Key) | Wipe

  // ----- The unbounded map

  predicate Touches<V>(event: Event<V>, key: Key) {
    match event
    case Put(entry) => entry.key == key
    case Drop(k) => k == key
    case Wipe => true
  }

  /** The entry an unbounded map would hold for this key, expired or not. */
  function Held<V>(history: seq<Event<V>>, key: Key): Option<Entry<V>> {
    if history == [] then None else
      var last := history[|history| - 1];
      if Touches(last, key) then (if last.Put? then Some(last.entry) else None)
      else Held(history[..|history| - 1], key)
  }

  function Lookup<V>(history: seq<Event<V>>, key: Key, now: Time): Option<V> {
    var held := Held(history, key);
    if held.Some? && held.value.expiresAt > now then Some(held.value.value) else None
  }

  /** The distinct other keys set since this key was last touched. */
  function SetSince<V>(history: seq<Event<V>>, key: Key): set<Key> {
    if history == [] then {} else
      var last := history[|history| - 1];
      if Touches(last, key) then {}
      else SetSince(history[..|history| - 1], key) + if last.Put? then {last.entry.key} else {}
  }

  lemma {:induction false} NotAmongOthers<V>(history: seq<Event<V>>, key: Key)
    ensures key !in SetSince(history, key)
  {
    if history != [] { NotAmongOthers(history[..|history| - 1], key); }
  }

  // ----- The bounded map

  function KeysOf<V>(entries: seq<Entry<V>>): set<Key> {
    set i | 0 <= i < |entries| :: entries[i].key
  }

  predicate Distinct<V>(entries: seq<Entry<V>>) {
    forall i, j :: 0 <= i < j < |entries| ==> entries[i].key != entries[j].key
  }

  /** Every entry is what the unbounded map holds. */
  ghost predicate Agrees<V>(entries: seq<Entry<V>>, history: seq<Event<V>>) {
    forall i :: 0 <= i < |entries| ==> Held(history, entries[i].key) == Some(entries[i])
  }

  /** Entries stand in the order in which their keys were last set. */
  ghost predicate InSetOrder<V>(entries: seq<Entry<V>>, history: seq<Event<V>>) {
    forall i, j :: 0 <= i < j < |entries| ==> entries[j].key in SetSince(history, entries[i].key)
  }

  /** An entry the unbounded map holds is missing only if it has expired or enough other keys were set since. */
  ghost predicate Accounted<V>(entries: seq<Entry<V>>, history: seq<Event<V>>, maxEntries: nat, now: Time, key: Key) {
    var held := Held(history, key);
    held.Some? ==> held.value in entries || held.value.expiresAt <= now || |SetSince(history, key)| >= maxEntries
  }

  ghost predicate AllAccounted<V>(entries: seq<Entry<V>>, history: seq<Event<V>>, maxEntries: nat, now: Time) {
    forall key :: Accounted(entries, history, maxEntries, now, key)
  }

  ghost predicate Orderly<V>(entries: seq<Entry<V>>, history: seq<Event<V>>) {
    Distinct(entries) && Agrees(entries, history) && InSetOrder(entries, history)
  }

  function Without<V>(entries: seq<Entry<V>>, i: nat): seq<Entry<V>>
    requires i < |entries|
  {
    entries[..i] + entries[i + 1..]
  }

  lemma WithoutKeeps<V>(entries: seq<Entry<V>>, history: seq<Event<V>>, i: nat)
    requires Orderly(entries, history) && i < |entries|
    ensures Orderly(Without(entries, i), history)
    ensures forall e :: e in Without(entries, i) <==> e in entries && e != entries[i]
  {
    var rest := Without(entries, i);
    assert forall k :: 0 <= k < |rest| ==> rest[k] == entries[if k < i then k else k + 1];
    forall e ensures e in rest <==> e in entries && e != entries[i] {
      if e in entries && e != entries[i] {
        var k :| 0 <= k < |entries| && entries[k] == e;
        assert rest[if k < i then k else k - 1] == e;
      }
    }
  }

  function Unexpired<V>(entries: seq<Entry<V>>, now: Time): seq<Entry<V>> {
    if entries == [] then [] else
      var last := entries[|entries| - 1];
      Unexpired(entries[..|entries| - 1], now) + if last.expiresAt <= now then [] else [last]
  }

  lemma {:induction false} UnexpiredHolds<V>(entries: seq<Entry<V>>, now: Time)
    ensures forall e :: e in Unexpired(entries, now) <==> e in entries && e.expiresAt > now
    ensures |Unexpired(entries, now)| <= |entries|
  {
    if entries != [] { UnexpiredHolds(entries[..|entries| - 1], now); }
  }

  lemma {:induction false} UnexpiredFrom<V>(entries: seq<Entry<V>>, now: Time, i: nat) returns (k: nat)
    requires i < |Unexpired(entries, now)|
    ensures k < |entries| && entries[k] == Unexpired(entries, now)[i]
  {
    var init := entries[..|entries| - 1];
    if i < |Unexpired(init, now)| { k := UnexpiredFrom(init, now, i); } else { k := |init|; }
  }

  lemma NothingSeen<V>(before: seq<Entry<V>>, now: Time)
    ensures Unexpired(before[..0], now) == [] && before[0..] == before
  {
  }

  /** The loop of the sweep looks at one more entry, and keeps or removes it. */
  lemma SweepStep<V>(before: seq<Entry<V>>, seen: nat, now: Time)
    requires seen < |before|
    ensures var kept, entries := Unexpired(before[..seen], now), Unexpired(before[..seen], now) + before[seen..];
      && entries[|kept|] == before[seen]
      && if before[seen].expiresAt <= now then
           Without(entries, |kept|) == Unexpired(before[..seen + 1], now) + before[seen + 1..]
             && kept == Unexpired(before[..seen + 1], now)
         else
           entries == Unexpired(before[..seen + 1], now) + before[seen + 1..]
             && |kept| + 1 == |Unexpired(before[..seen + 1], now)|
  {
    assert before[..seen + 1][..seen] == before[..seen];
  }

  lemma {:induction false} UnexpiredKeeps<V>(entries: seq<Entry<V>>, history: seq<Event<V>>, now: Time)
    requires Orderly(entries, history)
    ensures Orderly(Unexpired(entries, now), history)
  {
    if entries != [] {
      var init, last := entries[..|entries| - 1], entries[|entries| - 1];
      UnexpiredKeeps(init, history, now);
      var kept := Unexpired(init, now);
      forall i | 0 <= i < |kept| ensures kept[i].key != last.key && last.key in SetSince(history, kept[i].key) {
        var k := UnexpiredFrom(init, now, i);
        assert entries[k] == kept[i];
      }
    }
  }

  /** Writing a key that is not in the map: the bound evicts the oldest entry only after maxEntries other keys. */
  lemma EvictedWasOld<V>(entries: seq<Entry<V>>, history: seq<Event<V>>, entry: Entry<V>, maxEntries: nat)
    requires Orderly(entries, history) && |entries| >= maxEntries >= 1
    requires forall i :: 0 <= i < |entries| ==> entries[i].key != entry.key
    ensures |SetSince(history + [Put(entry)], entries[0].key)| >= maxEntries
  {
    var after := history + [Put(entry)];
    assert after[..|history|] == history;
    var others := KeysOf(entries[1..]);
    assert others <= SetSince(history, entries[0].key) by {
      forall k | k in others ensures k in SetSince(history, entries[0].key) {
        var i :| 0 <= i < |entries[1..]| && entries[1..][i].key == k;
        assert entries[i + 1].key == k;
      }
    }
    assert Distinct(entries[1..]);
    KeysCount(entries[1..]);
    assert entry.key !in others;
    var newer := others + {entry.key};
    assert |newer| == |entries|;
    assert newer <= SetSince(after, entries[0].key);
    SubsetSize(newer, SetSince(after, entries[0].key));
  }

  lemma {:induction false} KeysCount<V>(entries: seq<Entry<V>>)
    requires Distinct(entries)
    ensures |KeysOf(entries)| == |entries|
  {
    if entries != [] {
      var init := entries[..|entries| - 1];
      KeysCount(init);
      assert KeysOf(entries) == KeysOf(init) + {entries[|entries| - 1].key} by {
        forall k | k in KeysOf(entries) ensures k in KeysOf(init) + {entries[|entries| - 1].key} {
          var i :| 0 <= i < |entries| && entries[i].key == k;
          if i < |init| { assert init[i].key == k; }
        }
        forall k | k in KeysOf(init) ensures k in KeysOf(entries) {
          var i :| 0 <= i < |init| && init[i].key == k;
          assert entries[i].key == k;
        }
      }
      assert entries[|entries| - 1].key !in KeysOf(init);
    }
  }

  lemma SubsetSize<T>(a: set<T>, b: set<T>)
    requires a <= b
    ensures |a| <= |b|
  {
    assert b == a + (b - a);
  }

  /** While a key is being rewritten: every other entry is present, expired, or older than enough others. */
  ghost predicate OthersAccounted<V>(entries: seq<Entry<V>>, history: seq<Event<V>>, entry: Entry<V>, maxEntries: nat,
      now: Time) {
    forall key :: key != entry.key && Held(history, key).Some? ==>
      || Held(history, key).value in entries || Held(history, key).value.expiresAt <= now
      || |SetSince(history + [Put(entry)], key)| >= maxEntries
  }

  lemma BeginPut<V>(entries: seq<Entry<V>>, history: seq<Event<V>>, entry: Entry<V>, maxEntries: nat, now: Time,
      rest: seq<Entry<V>>)
    requires AllAccounted(entries, history, maxEntries, now)
    requires forall e :: e in entries && e.key != entry.key ==> e in rest
    requires Agrees(entries, history)
    ensures OthersAccounted(rest, history, entry, maxEntries, now)
  {
    var after := history + [Put(entry)];
    assert after[..|history|] == history;
    forall key | key != entry.key && Held(history, key).Some?
      ensures Held(history, key).value in rest || Held(history, key).value.expiresAt <= now
        || |SetSince(after, key)| >= maxEntries
    {
      assert Accounted(entries, history, maxEntries, now, key);
      HeldHasKey(history, key);
      SubsetSize(SetSince(history, key), SetSince(after, key));
    }
  }

  lemma {:induction false} HeldHasKey<V>(history: seq<Event<V>>, key: Key)
    ensures Held(history, key).Some? ==> Held(history, key).value.key == key
  {
    if history != [] { HeldHasKey(history[..|history| - 1], key); }
  }

  lemma EndPut<V>(entries: seq<Entry<V>>, history: seq<Event<V>>, entry: Entry<V>, maxEntries: nat, now: Time)
    requires Orderly(entries, history) && OthersAccounted(entries, history, entry, maxEntries, now)
    requires forall i :: 0 <= i < |entries| ==> entries[i].key != entry.key
    ensures Orderly(entries + [entry], history + [Put(entry)])
    ensures AllAccounted(entries + [entry], history + [Put(entry)], maxEntries, now)
  {
    var after := history + [Put(entry)];
    assert after[..|history|] == history;
    assert entry in entries + [entry];
    forall key ensures Accounted(entries + [entry], after, maxEntries, now, key) {
    }
  }

  /** The oldest entry leaves the map. */
  lemma EvictKeeps<V>(entries: seq<Entry<V>>, history: seq<Event<V>>, entry: Entry<V>, maxEntries: nat, now: Time)
    requires Orderly(entries, history) && OthersAccounted(entries, history, entry, maxEntries, now)
    requires |entries| >= maxEntries >= 1 && forall i :: 0 <= i < |entries| ==> entries[i].key != entry.key
    ensures OthersAccounted(Without(entries, 0), history, entry, maxEntries, now)
  {
    EvictedWasOld(entries, history, entry, maxEntries);
    WithoutKeeps(entries, history, 0);
    forall key | key != entry.key && Held(history, key).Some?
      ensures Held(history, key).value in Without(entries, 0) || Held(history, key).value.expiresAt <= now
           || |SetSince(history + [Put(entry)], key)| >= maxEntries
    {
      if Held(history, key).value == entries[0] { HeldHasKey(history, key); }
    }
  }

  lemma ExpiryKeeps<V>(entries: seq<Entry<V>>, history: seq<Event<V>>, maxEntries: nat, now: Time, rest: seq<Entry<V>>)
    requires AllAccounted(entries, history, maxEntries, now)
    requires forall e :: e in entries && e.expiresAt > now ==> e in rest
    ensures AllAccounted(rest, history, maxEntries, now)
  {
    forall key ensures Accounted(rest, history, maxEntries, now, key) {
      assert Accounted(entries, history, maxEntries, now, key);
    }
  }

  lemma LaterKeeps<V>(entries: seq<Entry<V>>, history: seq<Event<V>>, maxEntries: nat, earlier: Time, now: Time)
    requires AllAccounted(entries, history, maxEntries, earlier) && earlier <= now
    ensures AllAccounted(entries, history, maxEntries, now)
  {
    forall key ensures Accounted(entries, history, maxEntries, now, key) {
      assert Accounted(entries, history, maxEntries, earlier, key);
    }
  }

  lemma DropKeeps<V>(entries: seq<Entry<V>>, history: seq<Event<V>>, maxEntries: nat, now: Time, key: Key,
      rest: seq<Entry<V>>)
    requires AllAccounted(entries, history, maxEntries, now) && Orderly(rest, history)
    requires forall e :: e in rest <==> e in entries && e.key != key
    ensures Orderly(rest, history + [Drop(key)]) && AllAccounted(rest, history + [Drop(key)], maxEntries, now)
  {
    var after := history + [Drop(key)];
    assert after[..|history|] == history;
    forall i | 0 <= i < |rest| ensures rest[i].key != key { assert rest[i] in rest; }
    forall k ensures Accounted(rest, after, maxEntries, now, k) {
      assert Accounted(entries, history, maxEntries, now, k);
      HeldHasKey(history, k);
    }
  }

  function KeyPosition<V>(entries: seq<Entry<V>>, key: Key): (at: Option<nat>)
    ensures at.Some? ==> at.value < |entries| && entries[at.value].key == key
    ensures at.None? ==> forall i :: 0 <= i < |entries| ==> entries[i].key != key
  {
    if entries == [] then None
    else if entries[|entries| - 1].key == key then Some(|entries| - 1)
    else KeyPosition(entries[..|entries| - 1], key)
  }

  /** Taking out the entry of a key leaves exactly the entries of the other keys. */
  lemma OnlyThatKey<V>(entries: seq<Entry<V>>, history: seq<Event<V>>, key: Key, rest: seq<Entry<V>>)
    requires Orderly(entries, history)
    requires var at := KeyPosition(entries, key); rest == if at.Some? then Without(entries, at.value) else entries
    ensures Agrees(entries, history) && Orderly(rest, history) && |rest| <= |entries| && key !in KeysOf(rest)
    ensures forall e :: e in rest <==> e in entries && e.key != key
    ensures forall i :: 0 <= i < |rest| ==> rest[i].key != key
  {
    hide KeyPosition;
    var at := KeyPosition(entries, key);
    if at.Some? { WithoutKeeps(entries, history, at.value); }
    forall e ensures e in rest <==> e in entries && e.key != key {
      if e in entries && e.key == key && at.Some? {
        var k :| 0 <= k < |entries| && entries[k] == e;
        assert k == at.value;
      }
    }
    forall i | 0 <= i < |rest| ensures rest[i].key != key { assert rest[i] in rest; }
  }

  lemma SweepKeeps<V>(entries: seq<Entry<V>>, history: seq<Event<V>>, maxEntries: nat, earlier: Time, now: Time)
    ensures |Unexpired(entries, now)| <= |entries|
    ensures Orderly(entries, history) ==> Orderly(Unexpired(entries, now), history)
    ensures AllAccounted(entries, history, maxEntries, earlier) && earlier <= now ==>
              AllAccounted(Unexpired(entries, now), history, maxEntries, now)
  {
    hide Orderly, AllAccounted;
    UnexpiredHolds(entries, now);
    if Orderly(entries, history) { UnexpiredKeeps(entries, history, now); }
    if AllAccounted(entries, history, maxEntries, earlier) && earlier <= now {
      LaterKeeps(entries, history, maxEntries, earlier, now);
      ExpiryKeeps(entries, history, maxEntries, now, Unexpired(entries, now));
    }
  }

  lemma SweepKeepsOthers<V>(entries: seq<Entry<V>>, history: seq<Event<V>>, entry: Entry<V>, maxEntries: nat,
      sweptAt: Time, now: Time)
    requires Orderly(entries, history) && OthersAccounted(entries, history, entry, maxEntries, now) && sweptAt <= now
    requires forall i :: 0 <= i < |entries| ==> entries[i].key != entry.key
    ensures var rest := Unexpired(entries, sweptAt);
      && Orderly(rest, history) && |rest| <= |entries| && OthersAccounted(rest, history, entry, maxEntries, now)
      && forall i :: 0 <= i < |rest| ==> rest[i].key != entry.key
  {
    hide Orderly;
    UnexpiredHolds(entries, sweptAt);
    UnexpiredKeeps(entries, history, sweptAt);
    var rest := Unexpired(entries, sweptAt);
    forall i | 0 <= i < |rest| ensures rest[i].key != entry.key { var k := UnexpiredFrom(entries, sweptAt, i); }
  }

  /** What a lookup in the bounded map answers, compared with the unbounded one. */
  lemma AnswerAgrees<V>(entries: seq<Entry<V>>, history: seq<Event<V>>, maxEntries: nat, now: Time, key: Key)
    requires Orderly(entries, history) && AllAccounted(entries, history, maxEntries, now)
    ensures var at := KeyPosition(entries, key);
      if at.Some? then Lookup(history, key, now) ==
        if entries[at.value].expiresAt > now then Some(entries[at.value].value) else None
      else Lookup(history, key, now).Some? ==> |SetSince(history, key)| >= maxEntries
  {
    assert Accounted(entries, history, maxEntries, now, key);
    HeldHasKey(history, key);
  }

  /** The entries of the other keys, in order. */
  function Others<V>(entries: seq<Entry<V>>, key: Key): seq<Entry<V>> {
    var at := KeyPosition(entries, key);
    if at.Some? then Without(entries, at.value) else entries
  }

  /** Only a full map is swept, and only one still full afterwards gives up its oldest entry. */
  function MadeRoom<V>(others: seq<Entry<V>>, maxEntries: nat, sweptAt: Time): seq<Entry<V>>
    requires maxEntries >= 1
  {
    if |others| < maxEntries then others else
      var live := Unexpired(others, sweptAt);
      if |live| < maxEntries then live else Without(live, 0)
  }

  lemma WithoutSize<V>(entries: seq<Entry<V>>, i: nat, key: Key)
    requires i < |entries|
    ensures |Without(entries, i)| == |entries| - 1
    ensures (forall k :: 0 <= k < |entries| ==> entries[k].key != key) ==>
              forall k :: 0 <= k < |entries| - 1 ==> Without(entries, i)[k].key != key
  {
  }

  lemma FullOrNot<V>(others: seq<Entry<V>>, maxEntries: nat, sweptAt: Time)
    requires 1 <= maxEntries && |others| <= maxEntries
    ensures |Unexpired(others, sweptAt)| <= maxEntries
  {
    UnexpiredHolds(others, sweptAt);
  }

  /** An entry that had not expired is given up only from a map full of such entries, and then only the oldest. */
  lemma LiveEntriesStay<V>(others: seq<Entry<V>>, maxEntries: nat, sweptAt: Time, e: Entry<V>)
    requires maxEntries >= 1 && |others| <= maxEntries
    requires e in others && e.expiresAt > sweptAt && e !in MadeRoom(others, maxEntries, sweptAt)
    ensures |others| == maxEntries && others[0] == e
    ensures forall o :: o in others ==> o.expiresAt > sweptAt
  {
    UnexpiredHolds(others, sweptAt);
    var live := Unexpired(others, sweptAt);
    AllUnexpired(others, sweptAt);
    assert live == [live[0]] + Without(live, 0);
  }

  lemma {:induction false} AllUnexpired<V>(entries: seq<Entry<V>>, now: Time)
    ensures |Unexpired(entries, now)| == |entries| ==> Unexpired(entries, now) == entries
  {
    if entries != [] {
      var init := entries[..|entries| - 1];
      assert |Unexpired(init, now)| <= |init| by { UnexpiredHolds(init, now); }
      AllUnexpired(init, now);
      assert entries == init + [entries[|entries| - 1]];
    }
  }

  class BoundedTtlMap<V> {
    const maxEntries: nat
    var entries: seq<Entry<V>>
    ghost var history: seq<Event<V>>
    /** The latest time read so far; the clock never runs backwards. */
    ghost var clock: Time

    ghost predicate Valid()
      reads this
    {
      && maxEntries >= 1 && |entries| <= maxEntries
      && Orderly(entries, history) && AllAccounted(entries, history, maxEntries, clock)
    }

    constructor (maxEntries: nat, now: Time)
      requires maxEntries >= 1
      ensures Valid() && history == [] && clock == now && this.maxEntries == maxEntries
    {
      this.maxEntries := maxEntries;
      entries, history, clock := [], [], now;
    }

    /** Never another value than the unbounded map's, and the same one unless maxEntries other keys were set since. */
    method Get(key: Key, now: Time) returns (answer: Option<V>)
      requires Valid() && now >= clock
      modifies this
      ensures Valid() && history == old(history) && clock == now
      ensures answer.Some? ==> answer == Lookup(history, key, now)
      ensures |SetSince(history, key)| < maxEntries ==> answer == Lookup(history, key, now)
    {
      hide Orderly, KeyPosition, AllAccounted;
      LaterKeeps(entries, history, maxEntries, clock, now);
      clock := now;
      AnswerAgrees(entries, history, maxEntries, now, key);
      var at := KeyPosition(entries, key);
      if at.None? {
        return None;
      }
      if entries[at.value].expiresAt <= now {
        WithoutKeeps(entries, history, at.value);
        ExpiryKeeps(entries, history, maxEntries, now, Without(entries, at.value));
        entries := Without(entries, at.value);
        return None;
      }
      return Some(entries[at.value].value);
    }

    /** Removes exactly the entries that have expired, and keeps the order of the rest. */
    method SweepExpired(now: Time)
      modifies this`entries, this`clock
      ensures entries == Unexpired(old(entries), now) && clock == now
      ensures old(Valid()) && now >= old(clock) ==> Valid()
    {
      hide Orderly, AllAccounted, Unexpired, Without;
      ghost var before, earlier := entries, clock;
      ghost var seen := 0;
      var index := 0;
      NothingSeen(before, now);
      while index < |entries|
        invariant 0 <= seen <= |before| && index == |Unexpired(before[..seen], now)|
        invariant entries == Unexpired(before[..seen], now) + before[seen..]
        modifies this`entries
        decreases |before| - seen
      {
        SweepStep(before, seen, now);
        if entries[index].expiresAt <= now {
          entries := Without(entries, index);
        } else {
          index := index + 1;
        }
        seen := seen + 1;
      }
      assert before[..seen] == before;
      clock := now;
      SweepKeeps(before, history, maxEntries, earlier, now);
    }

    /** Reports whether the key had an entry; it has none afterwards, as in the unbounded map. */
    method Delete(key: Key) returns (found: bool)
      requires Valid()
      modifies this`entries, this`history
      ensures Valid() && history == old(history) + [Drop(key)]
      ensures found == (key in KeysOf(old(entries)))
      ensures key !in KeysOf(entries)
    {
      hide Orderly, AllAccounted;
      ghost var before := entries;
      var at := KeyPosition(entries, key);
      found := at.Some?;
      if found {
        assert entries[at.value].key == key;
        WithoutKeeps(entries, history, at.value);
        entries := Without(entries, at.value);
      }
      OnlyThatKey(before, history, key, entries);
      DropKeeps(before, history, maxEntries, clock, key, entries);
      history := history + [Drop(key)];
    }

    method Clear()
      requires Valid()
      modifies this`entries, this`history
      ensures Valid() && entries == [] && history == old(history) + [Wipe]
    {
      entries := [];
      history := history + [Wipe];
    }

    /** Refuses a non-positive lifetime; otherwise this key now holds the value, as in the unbounded map. */
    method Set(key: Key, value: V, ttl: int, sweptAt: Time, now: Time) returns (accepted: bool)
      requires Valid() && clock <= sweptAt <= now
      modifies this
      ensures Valid() && accepted == (ttl > 0)
      ensures !accepted ==> entries == old(entries) && history == old(history)
      ensures accepted ==> history == old(history) + [Put(Entry(key, value, now + ttl))] && clock == now
      ensures accepted ==> entries != [] && entries[|entries| - 1] == Entry(key, value, now + ttl)
      ensures accepted ==>
                entries == MadeRoom(Others(old(entries), key), maxEntries, sweptAt) + [Entry(key, value, now + ttl)]
    {
      hide Orderly, KeyPosition, AllAccounted, OthersAccounted, Unexpired, KeysOf, Without;
      if ttl <= 0 {
        return false;
      }
      ghost var entry := Entry(key, value, now + ttl);
      LaterKeeps(entries, history, maxEntries, clock, now);
      ghost var before := entries;
      var at := KeyPosition(entries, key);
      if at.Some? {
        WithoutKeeps(entries, history, at.value);
        entries := Without(entries, at.value);
      }
      OnlyThatKey(before, history, key, entries);
      BeginPut(before, history, entry, maxEntries, now, entries);
      if |entries| >= maxEntries {
        SweepKeepsOthers(entries, history, entry, maxEntries, sweptAt, now);
        SweepExpired(sweptAt);
      }
      ghost var swept := entries;
      FullOrNot(Others(before, key), maxEntries, sweptAt);
      while |entries| >= maxEntries
        invariant |entries| <= maxEntries && Orderly(entries, history)
        invariant entries == swept || (|swept| == maxEntries && entries == Without(swept, 0) && |entries| < maxEntries)
        invariant OthersAccounted(entries, history, entry, maxEntries, now)
        invariant forall i :: 0 <= i < |entries| ==> entries[i].key != key
        modifies this`entries
        decreases |entries|
      {
        EvictKeeps(entries, history, entry, maxEntries, now);
        WithoutKeeps(entries, history, 0);
        WithoutSize(entries, 0, key);
        entries := Without(entries, 0);
      }
      EndPut(entries, history, entry, maxEntries, now);
      entries := entries + [Entry(key, value, now + ttl)];
      history := history + [Put(entry)];
      clock := now;
      return true;
    }
  }

  // ----- What the unbounded map answers

  /** A value can be read from its writing until it expires, and no longer; other keys are not affected. */
  lemma WrittenUntilExpired<V>(history: seq<Event<V>>, entry: Entry<V>, key: Key, now: Time)
    ensures var after := history + [Put(entry)];
      Lookup(after, key, now) == if key != entry.key then Lookup(history, key, now)
                                 else if now < entry.expiresAt then Some(entry.value) else None
  {
    assert (history + [Put(entry)])[..|history|] == history;
  }

  lemma DroppedIsGone<V>(history: seq<Event<V>>, dropped: Key, key: Key, now: Time)
    ensures Lookup(history + [Drop(dropped)], key, now) == if key == dropped then None else Lookup(history, key, now)
    ensures Lookup(history + [Wipe], key, now).None?
  {
    assert (history + [Drop(dropped)])[..|history|] == history;
  }
}
