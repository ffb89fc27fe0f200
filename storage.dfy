/** The browser-side offline store (lib/offline/storage.ts): records
    `{timestamp, synced, data}` kept in localStorage under keys prefixed with
    "sb_", encrypted with a per-device key that is itself stored under
    "sb_device_key". localStorage is a table of entries in key order;
    encryption is a round trip, so an encrypted value is the record it seals. */
module OfflineStore {
  import opened Wrappers
  import opened Strings
  import opened JsonValue

  const STORAGE_PREFIX := "sb_"
  const DEVICE_KEY := "sb_device_key"

  /** `StorageData`. */
  datatype StorageData = StorageData(timestamp: int, synced: bool, data: Json)

  /** A localStorage value: the ciphertext of a record, or any other text
      (the device key, or a value some other code stored), which does not decrypt. */
  datatype Stored = Sealed(record: StorageData) | Plain(text: string)

  datatype Entry = Entry(key: string, value: Stored)

  /** An item of `getUnsyncedItems`. */
  datatype Pending = Pending(key: string, data: Json)

  /** localStorage never holds two entries under one key. */
  predicate KeysUnique(es: seq<Entry>) {
    forall i, j :: 0 <= i < j < |es| ==> es[i].key != es[j].key
  }

  /** Position of the entry stored under `k`, if any. */
  function IndexOf(es: seq<Entry>, k: string): (r: Option<nat>)
    ensures r.Some? ==> r.value < |es| && es[r.value].key == k
    ensures r.Some? ==> forall j :: 0 <= j < r.value ==> es[j].key != k
    ensures r.None? ==> forall j :: 0 <= j < |es| ==> es[j].key != k
  {
    if |es| == 0 then None
    else if es[0].key == k then Some(0)
    else match IndexOf(es[1..], k)
      case None => None
      case Some(i) => Some(i + 1)
  }

  /** `localStorage.getItem(k)`. */
  function Lookup(es: seq<Entry>, k: string): Option<Stored> {
    match IndexOf(es, k)
    case None => None
    case Some(i) => Some(es[i].value)
  }

  /** `localStorage.setItem(k, v)`: overwrites in place, or adds a new entry at the end. */
  function Put(es: seq<Entry>, k: string, v: Stored): (r: seq<Entry>)
    ensures Lookup(r, k) == Some(v)
    ensures forall k' :: k' != k ==> Lookup(r, k') == Lookup(es, k')
    ensures KeysUnique(es) ==> KeysUnique(r)
  {
    match IndexOf(es, k)
    case Some(i) =>
      var r := es[i := Entry(k, v)];
      assert IndexOf(r, k) == Some(i) by { IndexOfSame(es, r, k, i); }
      forall k' | k' != k ensures Lookup(r, k') == Lookup(es, k') {
        IndexOfOther(es, r, k', i);
      }
      r
    case None =>
      var r := es + [Entry(k, v)];
      assert IndexOf(r, k) == Some(|es|) by { IndexOfAppended(es, Entry(k, v)); }
      forall k' | k' != k ensures Lookup(r, k') == Lookup(es, k') {
        IndexOfPrefix(es, Entry(k, v), k');
      }
      r
  }

  lemma IndexOfSame(es: seq<Entry>, r: seq<Entry>, k: string, i: nat)
    requires IndexOf(es, k) == Some(i) && |r| == |es| && r[i].key == k
    requires forall j :: 0 <= j < |es| && j != i ==> r[j] == es[j]
    ensures IndexOf(r, k) == Some(i)
  {
    match IndexOf(r, k)
    case None =>
    case Some(m) =>
  }

  lemma IndexOfOther(es: seq<Entry>, r: seq<Entry>, k': string, i: nat)
    requires i < |es| && |r| == |es| && r[i].key == es[i].key && r[i].key != k'
    requires forall j :: 0 <= j < |es| && j != i ==> r[j] == es[j]
    ensures IndexOf(r, k') == IndexOf(es, k')
    ensures Lookup(r, k') == Lookup(es, k')
  {
    match IndexOf(r, k')
    case None =>
    case Some(m) =>
      match IndexOf(es, k')
      case None =>
      case Some(m') =>
  }

  lemma {:induction false} IndexOfAppended(es: seq<Entry>, e: Entry)
    requires IndexOf(es, e.key).None?
    ensures IndexOf(es + [e], e.key) == Some(|es|)
  {
    if |es| > 0 {
      assert (es + [e])[1..] == es[1..] + [e];
      IndexOfAppended(es[1..], e);
    }
  }

  /** Appending an entry under another key does not move a lookup. */
  lemma {:induction false} IndexOfPrefix(es: seq<Entry>, e: Entry, k': string)
    requires e.key != k'
    ensures IndexOf(es + [e], k') == IndexOf(es, k')
    ensures Lookup(es + [e], k') == Lookup(es, k')
  {
    if |es| > 0 {
      assert (es + [e])[1..] == es[1..] + [e];
      IndexOfPrefix(es[1..], e, k');
    }
  }

  /** The entries whose keys are not listed in `ks`, in order. */
  function Without(es: seq<Entry>, ks: seq<string>): (r: seq<Entry>)
    ensures |r| <= |es|
  {
    if |es| == 0 then []
    else Without(es[..|es| - 1], ks) + (if es[|es| - 1].key in ks then [] else [es[|es| - 1]])
  }

  /** `localStorage.removeItem(k)`. */
  function Delete(es: seq<Entry>, k: string): seq<Entry> {
    Without(es, [k])
  }

  /** Removing the keys of `ks`, then those of `ks'`, removes the keys of both. */
  lemma {:induction false} WithoutTwice(es: seq<Entry>, ks: seq<string>, ks': seq<string>)
    ensures Without(Without(es, ks), ks') == Without(es, ks + ks')
    decreases |es|
  {
    if |es| > 0 {
      var p, e := es[..|es| - 1], es[|es| - 1];
      WithoutTwice(p, ks, ks');
      var a := Without(p, ks);
      if e.key !in ks {
        assert Without(es, ks) == a + [e];
        assert (a + [e])[..|a + [e]| - 1] == a;
      } else {
        assert Without(es, ks) == a;
      }
    }
  }

  /** An entry is kept by `Without` exactly when its key is not listed. */
  lemma {:induction false} WithoutMembers(es: seq<Entry>, ks: seq<string>, e: Entry)
    ensures e in Without(es, ks) <==> e in es && e.key !in ks
    decreases |es|
  {
    if |es| > 0 {
      WithoutMembers(es[..|es| - 1], ks, e);
      assert es == es[..|es| - 1] + [es[|es| - 1]];
    }
  }

  /** Entries after a removal still have distinct keys and the removed keys are gone. */
  lemma WithoutKeys(es: seq<Entry>, ks: seq<string>, k: string)
    requires KeysUnique(es)
    ensures KeysUnique(Without(es, ks))
    ensures Lookup(Without(es, ks), k) == (if k in ks then None else Lookup(es, k))
  {
    var r := Without(es, ks);
    forall i, j | 0 <= i < j < |r| ensures r[i].key != r[j].key {
      SubseqOrder(es, ks, i, j);
    }
    LookupMembers(es, k);
    LookupMembers(r, k);
    forall x | x in r ensures x in es && x.key !in ks {
      WithoutMembers(es, ks, x);
    }
    forall x | x in es && x.key !in ks ensures x in r {
      WithoutMembers(es, ks, x);
    }
  }

  /** Entries kept by `Without` keep their relative order. */
  lemma {:induction false} SubseqOrder(es: seq<Entry>, ks: seq<string>, i: nat, j: nat)
    requires KeysUnique(es) && i < j < |Without(es, ks)|
    ensures Without(es, ks)[i].key != Without(es, ks)[j].key
    decreases |es|
  {
    var p, e := es[..|es| - 1], es[|es| - 1];
    var a := Without(p, ks);
    assert KeysUnique(p);
    if j < |a| {
      assert Without(es, ks)[i] == a[i] && Without(es, ks)[j] == a[j];
      SubseqOrder(p, ks, i, j);
    } else {
      assert Without(es, ks)[j] == e && Without(es, ks)[i] == a[i];
      WithoutMembers(p, ks, a[i]);
      var m :| 0 <= m < |p| && p[m] == a[i];
      assert es[m] == a[i];
    }
  }

  /** With distinct keys, a lookup finds an entry exactly when one is stored. */
  lemma LookupMembers(es: seq<Entry>, k: string)
    requires KeysUnique(es)
    ensures forall v :: Lookup(es, k) == Some(v) <==> Entry(k, v) in es
  {
    forall v ensures Lookup(es, k) == Some(v) <==> Entry(k, v) in es {
      if Entry(k, v) in es {
        var m :| 0 <= m < |es| && es[m] == Entry(k, v);
        match IndexOf(es, k)
        case None =>
        case Some(i) =>
      }
    }
  }

  /** JavaScript truthiness of a stored text: ciphertexts are never empty. */
  predicate StoredTruthy(v: Stored) {
    v.Sealed? || v.text != ""
  }

  /** `this.get(key)`: the data of the record under "sb_" + key; a missing
      entry, or one that does not decrypt, reads as null. */
  function DataAt(es: seq<Entry>, key: string): Json {
    match Lookup(es, STORAGE_PREFIX + key)
    case Some(Sealed(d)) => d.data
    case _ => JNull
  }

  /** `getEncryptionKey`: a present, non-empty device key is kept; otherwise
      `newKey` (the random key) is stored. */
  function WithDeviceKey(es: seq<Entry>, newKey: string): (r: seq<Entry>)
    ensures Lookup(r, DEVICE_KEY).Some?
    ensures forall k :: k != DEVICE_KEY ==> Lookup(r, k) == Lookup(es, k)
    ensures KeysUnique(es) ==> KeysUnique(r)
  {
    match Lookup(es, DEVICE_KEY)
    case Some(v) => if StoredTruthy(v) then es else Put(es, DEVICE_KEY, Plain(newKey))
    case None => Put(es, DEVICE_KEY, Plain(newKey))
  }

  /** The table after `set(key, value, synced)` at time `now`. */
  function AfterSet(es: seq<Entry>, key: string, value: Json, synced: bool, now: int, newKey: string): seq<Entry> {
    Put(WithDeviceKey(es, newKey), STORAGE_PREFIX + key, Sealed(StorageData(now, synced, value)))
  }

  /** `get(k)` after `set(k, v)` returns `v`. */
  lemma GetAfterSet(es: seq<Entry>, key: string, value: Json, synced: bool, now: int, newKey: string)
    ensures DataAt(AfterSet(es, key, value, synced, now, newKey), key) == value
    ensures Lookup(AfterSet(es, key, value, synced, now, newKey), STORAGE_PREFIX + key)
            == Some(Sealed(StorageData(now, synced, value)))
  {
  }

  lemma PrefixInjective(a: string, b: string)
    requires a != b
    ensures STORAGE_PREFIX + a != STORAGE_PREFIX + b
  {
    assert (STORAGE_PREFIX + a)[|STORAGE_PREFIX|..] == a && (STORAGE_PREFIX + b)[|STORAGE_PREFIX|..] == b;
  }

  /** Storing the device key never changes the data read under any key. */
  lemma DeviceKeyInvisible(es: seq<Entry>, key: string, newKey: string)
    ensures DataAt(WithDeviceKey(es, newKey), key) == DataAt(es, key)
  {
    if STORAGE_PREFIX + key == DEVICE_KEY {
      match Lookup(es, DEVICE_KEY) {
        case Some(v) =>
        case None =>
      }
    }
  }

  /** `set(k, ...)` leaves the data of every other key as it was. */
  lemma SetLeavesOthers(es: seq<Entry>, key: string, other: string, value: Json, synced: bool, now: int, newKey: string)
    requires other != key
    ensures DataAt(AfterSet(es, key, value, synced, now, newKey), other) == DataAt(es, other)
  {
    PrefixInjective(other, key);
    DeviceKeyInvisible(es, other, newKey);
  }

  /** The table after `markAsSynced(key)` at time `now`: a truthy record is
      written again as synced (with a new timestamp); otherwise nothing changes. */
  function AfterMark(es: seq<Entry>, key: string, now: int, newKey: string): seq<Entry> {
    var data := DataAt(es, key);
    if JsTruthy(data) then AfterSet(es, key, data, true, now, newKey) else es
  }

  /** Marking keeps the data; a truthy record becomes synced, a falsy one stays as it was. */
  lemma MarkKeepsData(es: seq<Entry>, key: string, now: int, newKey: string)
    ensures DataAt(AfterMark(es, key, now, newKey), key) == DataAt(es, key)
    ensures JsTruthy(DataAt(es, key)) ==>
              Lookup(AfterMark(es, key, now, newKey), STORAGE_PREFIX + key)
              == Some(Sealed(StorageData(now, true, DataAt(es, key))))
    ensures !JsTruthy(DataAt(es, key)) ==> AfterMark(es, key, now, newKey) == es
  {
  }

  /** Pending item of one entry, if it is an unsynced record under the prefix. */
  function PendingOf(e: Entry): seq<Pending> {
    if StartsWith(e.key, STORAGE_PREFIX) && e.value.Sealed? && !e.value.record.synced
    then [Pending(e.key[|STORAGE_PREFIX|..], e.value.record.data)]
    else []
  }

  /** What `getUnsyncedItems` returns: every unsynced record under "sb_", in
      table order, with the prefix removed from its key. */
  function UnsyncedOf(es: seq<Entry>): seq<Pending> {
    if |es| == 0 then [] else UnsyncedOf(es[..|es| - 1]) + PendingOf(es[|es| - 1])
  }

  lemma PendingOfEntry(e: Entry, k: string, d: Json)
    ensures Pending(k, d) in PendingOf(e) <==>
            e.key == STORAGE_PREFIX + k && e.value.Sealed? && !e.value.record.synced && e.value.record.data == d
  {
    if e.key == STORAGE_PREFIX + k {
      assert e.key[..|STORAGE_PREFIX|] == STORAGE_PREFIX && e.key[|STORAGE_PREFIX|..] == k;
    }
    if Pending(k, d) in PendingOf(e) {
      assert e.key == STORAGE_PREFIX + e.key[|STORAGE_PREFIX|..];
    }
  }

  lemma {:induction false} UnsyncedFrom(es: seq<Entry>, x: Pending)
    ensures x in UnsyncedOf(es) <==> exists i :: 0 <= i < |es| && x in PendingOf(es[i])
    decreases |es|
  {
    if |es| > 0 {
      var p := es[..|es| - 1];
      UnsyncedFrom(p, x);
      if x in UnsyncedOf(p) {
        var i :| 0 <= i < |p| && x in PendingOf(p[i]);
        assert es[i] == p[i];
      }
      if exists i :: 0 <= i < |es| && x in PendingOf(es[i]) {
        var i :| 0 <= i < |es| && x in PendingOf(es[i]);
        if i < |p| {
          assert es[i] == p[i];
        }
      }
    }
  }

  /** An item is pending exactly when its key holds an unsynced record with that data. */
  lemma UnsyncedMembers(es: seq<Entry>, k: string, d: Json)
    requires KeysUnique(es)
    ensures Pending(k, d) in UnsyncedOf(es) <==>
            exists t :: Lookup(es, STORAGE_PREFIX + k) == Some(Sealed(StorageData(t, false, d)))
  {
    UnsyncedFrom(es, Pending(k, d));
    LookupMembers(es, STORAGE_PREFIX + k);
    if Pending(k, d) in UnsyncedOf(es) {
      var i :| 0 <= i < |es| && Pending(k, d) in PendingOf(es[i]);
      PendingOfEntry(es[i], k, d);
      assert Entry(STORAGE_PREFIX + k, es[i].value) in es;
      assert Lookup(es, STORAGE_PREFIX + k) == Some(Sealed(StorageData(es[i].value.record.timestamp, false, d)));
    }
    forall t | Lookup(es, STORAGE_PREFIX + k) == Some(Sealed(StorageData(t, false, d)))
      ensures Pending(k, d) in UnsyncedOf(es)
    {
      var x := Entry(STORAGE_PREFIX + k, Sealed(StorageData(t, false, d)));
      var i :| 0 <= i < |es| && es[i] == x;
      PendingOfEntry(es[i], k, d);
    }
  }

  /** Once a truthy record is marked, its key is no longer pending. */
  lemma MarkedNotPending(es: seq<Entry>, key: string, now: int, newKey: string, d: Json)
    requires KeysUnique(es) && JsTruthy(DataAt(es, key))
    ensures Pending(key, d) !in UnsyncedOf(AfterMark(es, key, now, newKey))
  {
    UnsyncedMembers(AfterMark(es, key, now, newKey), key, d);
  }

  /** Marking one key leaves whether every other key is pending, and with what data. */
  lemma MarkLeavesOthersPending(es: seq<Entry>, key: string, now: int, newKey: string, other: string, d: Json)
    requires KeysUnique(es) && other != key
    ensures Pending(other, d) in UnsyncedOf(AfterMark(es, key, now, newKey)) <==> Pending(other, d) in UnsyncedOf(es)
  {
    var after := AfterMark(es, key, now, newKey);
    MarkKeepsUnique(es, key, now, newKey);
    UnsyncedMembers(after, other, d);
    UnsyncedMembers(es, other, d);
    PrefixInjective(other, key);
    SealedAfterMark(es, key, now, newKey, STORAGE_PREFIX + other);
  }

  lemma MarkKeepsUnique(es: seq<Entry>, key: string, now: int, newKey: string)
    requires KeysUnique(es)
    ensures KeysUnique(AfterMark(es, key, now, newKey))
  {
  }

  /** Marking one key leaves every record stored under any other key. */
  lemma SealedAfterMark(es: seq<Entry>, key: string, now: int, newKey: string, k: string)
    requires k != STORAGE_PREFIX + key
    ensures forall sd :: Lookup(AfterMark(es, key, now, newKey), k) == Some(Sealed(sd)) <==> Lookup(es, k) == Some(Sealed(sd))
  {
    if JsTruthy(DataAt(es, key)) {
      var w := WithDeviceKey(es, newKey);
      assert Lookup(AfterMark(es, key, now, newKey), k) == Lookup(w, k);
      if k == DEVICE_KEY {
        match Lookup(es, DEVICE_KEY) {
          case Some(v) =>
          case None =>
        }
      }
    }
  }

  /** `remove(k)` deletes "sb_" + k and nothing else. */
  lemma RemoveDeletesOnly(es: seq<Entry>, key: string, k: string)
    requires KeysUnique(es)
    ensures Lookup(Delete(es, STORAGE_PREFIX + key), k) == (if k == STORAGE_PREFIX + key then None else Lookup(es, k))
  {
    WithoutKeys(es, [STORAGE_PREFIX + key], k);
  }

  /** Data of one entry for `getAll`, if it lies under `full` and is truthy. */
  function ItemOf(e: Entry, full: string): seq<Json> {
    if StartsWith(e.key, full) && e.value.Sealed? && JsTruthy(e.value.record.data)
    then [e.value.record.data] else []
  }

  /** What `getAll(prefix)` returns: the truthy data of the records whose keys
      start with "sb_" + prefix, in table order. */
  function AllUnder(es: seq<Entry>, full: string): seq<Json> {
    if |es| == 0 then [] else AllUnder(es[..|es| - 1], full) + ItemOf(es[|es| - 1], full)
  }

  /** Every result of `getAll` is truthy. */
  lemma {:induction false} AllUnderTruthy(es: seq<Entry>, full: string)
    ensures forall j :: 0 <= j < |AllUnder(es, full)| ==> JsTruthy(AllUnder(es, full)[j])
    decreases |es|
  {
    if |es| > 0 {
      AllUnderTruthy(es[..|es| - 1], full);
    }
  }

  /** Every result of `getAll` is the data of a record stored under the full prefix. */
  lemma {:induction false} AllUnderFrom(es: seq<Entry>, full: string, x: Json)
    requires x in AllUnder(es, full)
    ensures exists i :: 0 <= i < |es| && StartsWith(es[i].key, full) && es[i].value.Sealed? && es[i].value.record.data == x
    decreases |es|
  {
    var p := es[..|es| - 1];
    if x in AllUnder(p, full) {
      AllUnderFrom(p, full, x);
      var i :| 0 <= i < |p| && StartsWith(p[i].key, full) && p[i].value.Sealed? && p[i].value.record.data == x;
      assert es[i] == p[i];
    } else {
      assert x in ItemOf(es[|es| - 1], full);
    }
  }

  /** Keys of an entry prefix collected by the first loop of `clear`. */
  function PrefixedKeys(es: seq<Entry>): (r: seq<string>)
    ensures forall k :: k in r ==> StartsWith(k, STORAGE_PREFIX)
    ensures forall e :: e in es && StartsWith(e.key, STORAGE_PREFIX) ==> e.key in r
    ensures forall k :: k in r ==> exists e :: e in es && e.key == k
  {
    if |es| == 0 then []
    else
      var p, e := es[..|es| - 1], es[|es| - 1];
      assert es == p + [e];
      PrefixedKeys(p) + (if StartsWith(e.key, STORAGE_PREFIX) then [e.key] else [])
  }

  /** What `clear` leaves: exactly the entries whose keys do not start with "sb_". */
  function Unprefixed(es: seq<Entry>): seq<Entry> {
    if |es| == 0 then []
    else Unprefixed(es[..|es| - 1]) + (if StartsWith(es[|es| - 1].key, STORAGE_PREFIX) then [] else [es[|es| - 1]])
  }

  lemma {:induction false} WithoutPrefixed(es: seq<Entry>, ks: seq<string>)
    requires forall e :: e in es ==> (e.key in ks <==> StartsWith(e.key, STORAGE_PREFIX))
    ensures Without(es, ks) == Unprefixed(es)
    decreases |es|
  {
    if |es| > 0 {
      assert es == es[..|es| - 1] + [es[|es| - 1]];
      WithoutPrefixed(es[..|es| - 1], ks);
    }
  }

  /** After `clear`, a key is present exactly when it does not start with "sb_"
      and was present before; in particular the device key is gone. */
  lemma ClearRemovesPrefixed(es: seq<Entry>, k: string)
    requires KeysUnique(es)
    ensures Lookup(Unprefixed(es), k) == (if StartsWith(k, STORAGE_PREFIX) then None else Lookup(es, k))
    ensures Lookup(Unprefixed(es), DEVICE_KEY) == None
  {
    var ks := PrefixedKeys(es);
    forall e | e in es ensures e.key in ks <==> StartsWith(e.key, STORAGE_PREFIX) {
    }
    WithoutPrefixed(es, ks);
    WithoutKeys(es, ks, k);
    WithoutKeys(es, ks, DEVICE_KEY);
    if k !in ks && StartsWith(k, STORAGE_PREFIX) {
      LookupMembers(es, k);
    }
    if DEVICE_KEY !in ks {
      LookupMembers(es, DEVICE_KEY);
      assert DEVICE_KEY[..3] == STORAGE_PREFIX;
    }
  }

  /** `OfflineStorage`, over the localStorage table it changes in place. */
  class OfflineStorage {
    var entries: seq<Entry>

    ghost predicate Valid()
      reads this
    {
      KeysUnique(entries)
    }

    constructor (initial: seq<Entry>)
      requires KeysUnique(initial)
      ensures Valid() && entries == initial
    {
      entries := initial;
    }

    method SetItem(k: string, v: Stored)
      requires Valid()
      modifies this
      ensures Valid() && entries == Put(old(entries), k, v)
    {
      entries := Put(entries, k, v);
    }

    /** `getEncryptionKey`, for the key it may store; the key text itself only
        parameterises the encryption, which is a round trip here. */
    method EnsureDeviceKey(newKey: string)
      requires Valid()
      modifies this
      ensures Valid() && entries == WithDeviceKey(old(entries), newKey)
    {
      var existing := Lookup(entries, DEVICE_KEY);
      if existing.Some? && StoredTruthy(existing.value) {
        return;
      }
      SetItem(DEVICE_KEY, Plain(newKey));
    }

    /** `set(key, value, synced)`; `now` is `Date.now()`, `newKey` the random
        device key used if none is stored. */
    method Set(key: string, value: Json, synced: bool, now: int, newKey: string)
      requires Valid()
      modifies this
      ensures Valid() && entries == AfterSet(old(entries), key, value, synced, now, newKey)
    {
      var storageData := StorageData(now, synced, value);
      EnsureDeviceKey(newKey);
      SetItem(STORAGE_PREFIX + key, Sealed(storageData));
    }

    /** `get(key)`. */
    function Get(key: string): (r: Json)
      reads this
      ensures var v := Lookup(entries, STORAGE_PREFIX + key);
              (v.Some? && v.value.Sealed? ==> r == v.value.record.data)
              && (!(v.Some? && v.value.Sealed?) ==> r == JNull)
    {
      DataAt(entries, key)
    }

    /** `getAll(prefix)`: index loop over the table. */
    method GetAll(prefix: string) returns (items: seq<Json>)
      requires Valid()
      ensures items == AllUnder(entries, STORAGE_PREFIX + prefix)
    {
      items := [];
      var i := 0;
      while i < |entries|
        invariant 0 <= i <= |entries|
        invariant items == AllUnder(entries[..i], STORAGE_PREFIX + prefix)
      {
        var key := entries[i].key;
        assert entries[..i + 1][..i] == entries[..i];
        if StartsWith(key, STORAGE_PREFIX + prefix) {
          var data := Get(key[|STORAGE_PREFIX|..]);
          assert data == (if entries[i].value.Sealed? then entries[i].value.record.data else JNull) by {
            assert STORAGE_PREFIX + key[3..] == key;
            LookupMembers(entries, key);
          }
          if JsTruthy(data) {
            items := items + [data];
          }
        }
        i := i + 1;
      }
      assert entries[..|entries|] == entries;
    }

    /** `remove(key)`. */
    method Remove(key: string)
      requires Valid()
      modifies this
      ensures Valid() && entries == Delete(old(entries), STORAGE_PREFIX + key)
    {
      WithoutKeys(entries, [STORAGE_PREFIX + key], "");
      entries := Delete(entries, STORAGE_PREFIX + key);
    }

    /** The first loop of `clear`: the keys starting with "sb_", in table order. */
    method PrefixedKeysOf() returns (keys: seq<string>)
      ensures keys == PrefixedKeys(entries)
    {
      keys := [];
      var i := 0;
      while i < |entries|
        invariant 0 <= i <= |entries|
        invariant keys == PrefixedKeys(entries[..i])
      {
        assert entries[..i + 1][..i] == entries[..i];
        if StartsWith(entries[i].key, STORAGE_PREFIX) {
          keys := keys + [entries[i].key];
        }
        i := i + 1;
      }
      assert entries[..|entries|] == entries;
    }

    /** `keys.forEach((key) => localStorage.removeItem(key))`. */
    method RemoveAll(keys: seq<string>)
      requires Valid()
      modifies this
      ensures Valid() && entries == Without(old(entries), keys)
    {
      ghost var initial := entries;
      var j := 0;
      WithoutNothing(initial);
      assert keys[..0] == [];
      while j < |keys|
        invariant 0 <= j <= |keys|
        invariant entries == Without(initial, keys[..j])
      {
        ghost var done := keys[..j];
        WithoutTwice(initial, done, [keys[j]]);
        assert done + [keys[j]] == keys[..j + 1];
        entries := Delete(entries, keys[j]);
        assert entries == Without(initial, keys[..j + 1]);
        j := j + 1;
      }
      assert keys[..|keys|] == keys;
      WithoutKeys(initial, keys, "");
    }

    /** `clear`: collects the prefixed keys, then removes them one by one. */
    method Clear()
      requires Valid()
      modifies this
      ensures Valid() && entries == Unprefixed(old(entries))
    {
      var keys := PrefixedKeysOf();
      forall e | e in entries ensures e.key in keys <==> StartsWith(e.key, STORAGE_PREFIX) {
      }
      WithoutPrefixed(entries, keys);
      RemoveAll(keys);
    }

    /** `getUnsyncedItems`: index loop over the table. */
    method GetUnsyncedItems() returns (unsynced: seq<Pending>)
      requires Valid()
      ensures unsynced == UnsyncedOf(entries)
    {
      unsynced := [];
      var i := 0;
      while i < |entries|
        invariant 0 <= i <= |entries|
        invariant unsynced == UnsyncedOf(entries[..i])
      {
        var key := entries[i].key;
        assert entries[..i + 1][..i] == entries[..i];
        if StartsWith(key, STORAGE_PREFIX) {
          var encrypted := Lookup(entries, key);
          assert encrypted == Some(entries[i].value) by { LookupMembers(entries, key); }
          if encrypted.Some? && StoredTruthy(encrypted.value) {
            match encrypted.value
            case Sealed(storageData) =>
              if !storageData.synced {
                unsynced := unsynced + [Pending(key[|STORAGE_PREFIX|..], storageData.data)];
              }
            case Plain(_) =>
          }
        }
        i := i + 1;
      }
      assert entries[..|entries|] == entries;
    }

    /** `markAsSynced(key)`. */
    method MarkAsSynced(key: string, now: int, newKey: string)
      requires Valid()
      modifies this
      ensures Valid() && entries == AfterMark(old(entries), key, now, newKey)
    {
      var data := Get(key);
      if JsTruthy(data) {
        Set(key, data, true, now, newKey);
      }
    }
  }

  lemma {:induction false} WithoutNothing(es: seq<Entry>)
    ensures Without(es, []) == es
    decreases |es|
  {
    if |es| > 0 {
      WithoutNothing(es[..|es| - 1]);
      assert es == es[..|es| - 1] + [es[|es| - 1]];
    }
  }
}
