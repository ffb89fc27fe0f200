/** The offline sync queue (lib/offline/sync-manager.ts): a manager with an
    online flag, a re-entrancy guard and a list of subscribers, which walks the
    unsynced records of the offline store, posts each one, and marks those the
    server accepted. The HTTP layer is an oracle telling whether a POST answered ok. */
module SyncManagement {
  import opened Wrappers
  import opened JsonValue
  import opened SeqUtil
  import opened OfflineStore

  /** `SyncStatus`. */
  datatype SyncStatus = SyncStatus(isOnline: bool, lastSyncTime: Json, pendingItems: nat, syncing: bool)

  /** A subscriber's callback, compared by identity. */
  type CallbackId = nat

  /** One call `cb(status)` made to a subscriber. */
  datatype Delivery = Delivery(callback: CallbackId, status: SyncStatus)

  datatype Request = Request(endpoint: string, body: Json)

  /** Whether the POST of a request answered with an ok status. */
  type Http = Request -> bool

  const LAST_SYNC_TIME := "last_sync_time"

  /** The endpoint each item type is posted to; other types have none. */
  function Endpoint(t: Json): Option<string> {
    if t == JStr("symptom_check") then Some("/api/symptom-check")
    else if t == JStr("emergency") then Some("/api/emergency")
    else if t == JStr("consultation") then Some("/api/consultations")
    else None
  }

  /** What one `syncItem` call does: the request it sends, if any, and whether it succeeds. */
  datatype Attempt = Attempt(request: Option<Request>, ok: bool)

  /** `syncItem(key, data)`. Reading `data.type` throws when the data is null;
      data without a truthy type, or with a type that has no endpoint, counts
      as synced without any request. */
  function SyncItem(data: Json, http: Http): (r: Attempt)
    ensures data == JNull ==> r == Attempt(None, false)
    ensures data != JNull && !JsTruthy(Prop(data, "type")) ==> r == Attempt(None, true)
    ensures r.request.Some? <==> data != JNull && Endpoint(Prop(data, "type")).Some?
    ensures r.request.None? ==> (r.ok <==> data != JNull)
    ensures r.request.Some? ==> r.request.value == Request(Endpoint(Prop(data, "type")).value, Prop(data, "data"))
                                && r.ok == http(r.request.value)
  {
    if data == JNull then Attempt(None, false)
    else
      var t := Prop(data, "type");
      if !JsTruthy(t) then Attempt(None, true)
      else match Endpoint(t)
        case None => Attempt(None, true)
        case Some(endpoint) =>
          var req := Request(endpoint, Prop(data, "data"));
          Attempt(Some(req), http(req))
  }

  /** The table after the loop of `syncNow` over `items`: every item whose
      `syncItem` succeeded is marked synced, in order. */
  function MarkAll(es: seq<Entry>, items: seq<Pending>, http: Http, now: int, newKey: string): seq<Entry> {
    if |items| == 0 then es
    else
      var prev := MarkAll(es, items[..|items| - 1], http, now, newKey);
      var item := items[|items| - 1];
      if SyncItem(item.data, http).ok then AfterMark(prev, item.key, now, newKey) else prev
  }

  /** The table after a whole `syncNow`: the loop, then `last_sync_time`
      written as synced. */
  function AfterSync(es: seq<Entry>, http: Http, now: int, newKey: string): seq<Entry> {
    AfterSet(MarkAll(es, UnsyncedOf(es), http, now, newKey), LAST_SYNC_TIME, JNum(now as real), true, now, newKey)
  }

  predicate KeysDistinct(items: seq<Pending>) {
    forall i, j :: 0 <= i < j < |items| ==> items[i].key != items[j].key
  }

  /** The unsynced items of a table name distinct keys. */
  lemma {:induction false} UnsyncedKeysDistinct(es: seq<Entry>)
    requires KeysUnique(es)
    ensures KeysDistinct(UnsyncedOf(es))
    decreases |es|
  {
    if |es| > 0 {
      var p, e := es[..|es| - 1], es[|es| - 1];
      assert KeysUnique(p);
      UnsyncedKeysDistinct(p);
      var a := UnsyncedOf(p);
      if |PendingOf(e)| == 1 {
        var x := PendingOf(e)[0];
        forall i | 0 <= i < |a| ensures a[i].key != x.key {
          UnsyncedFrom(p, a[i]);
          var m :| 0 <= m < |p| && a[i] in PendingOf(p[m]);
          PendingOfEntry(p[m], a[i].key, a[i].data);
          PendingOfEntry(e, x.key, x.data);
          assert es[m] == p[m] && es[|es| - 1] == e;
        }
      }
    }
  }

  lemma {:induction false} MarkAllUnique(es: seq<Entry>, items: seq<Pending>, http: Http, now: int, newKey: string)
    requires KeysUnique(es)
    ensures KeysUnique(MarkAll(es, items, http, now, newKey))
    decreases |items|
  {
    if |items| > 0 {
      MarkAllUnique(es, items[..|items| - 1], http, now, newKey);
    }
  }

  /** The loop leaves whether a key it never visits is pending. */
  lemma {:induction false} MarkAllOthers(es: seq<Entry>, items: seq<Pending>, http: Http, now: int, newKey: string,
                                         k: string, d: Json)
    requires KeysUnique(es)
    requires forall i :: 0 <= i < |items| ==> items[i].key != k
    ensures Pending(k, d) in UnsyncedOf(MarkAll(es, items, http, now, newKey)) <==> Pending(k, d) in UnsyncedOf(es)
    decreases |items|
  {
    if |items| > 0 {
      var init := items[..|items| - 1];
      MarkAllOthers(es, init, http, now, newKey, k, d);
      MarkAllUnique(es, init, http, now, newKey);
      MarkLeavesOthersPending(MarkAll(es, init, http, now, newKey), items[|items| - 1].key, now, newKey, k, d);
    }
  }

  /** The data read under a pending key is the pending data. */
  lemma PendingData(es: seq<Entry>, x: Pending)
    requires KeysUnique(es) && x in UnsyncedOf(es)
    ensures DataAt(es, x.key) == x.data
  {
    UnsyncedMembers(es, x.key, x.data);
  }

  /** Over a loop on distinct keys: an item whose sync fails, or succeeds on
      falsy data that cannot be marked, is still pending with its data; one
      whose sync succeeds on truthy data is no longer pending. */
  lemma {:induction false} MarkAllItem(es: seq<Entry>, items: seq<Pending>, http: Http, now: int, newKey: string, j: nat)
    requires KeysUnique(es) && KeysDistinct(items) && j < |items| && items[j] in UnsyncedOf(es)
    ensures var x := items[j];
            var after := UnsyncedOf(MarkAll(es, items, http, now, newKey));
            (!SyncItem(x.data, http).ok || !JsTruthy(x.data) ==> x in after) &&
            (SyncItem(x.data, http).ok && JsTruthy(x.data) ==> forall d :: Pending(x.key, d) !in after)
    decreases |items|
  {
    var x := items[j];
    var init := items[..|items| - 1];
    var prev := MarkAll(es, init, http, now, newKey);
    var last := items[|items| - 1];
    MarkAllUnique(es, init, http, now, newKey);
    if j == |items| - 1 {
      MarkAllOthers(es, init, http, now, newKey, x.key, x.data);
      assert x in UnsyncedOf(prev);
      PendingData(prev, x);
      if SyncItem(x.data, http).ok && JsTruthy(x.data) {
        forall d ensures Pending(x.key, d) !in UnsyncedOf(MarkAll(es, items, http, now, newKey)) {
          MarkedNotPending(prev, x.key, now, newKey, d);
        }
      }
    } else {
      assert KeysDistinct(init) && init[j] == x;
      MarkAllItem(es, init, http, now, newKey, j);
      assert last.key != x.key;
      if SyncItem(last.data, http).ok {
        forall d {
          MarkLeavesOthersPending(prev, last.key, now, newKey, x.key, d);
        }
      }
    }
  }

  /** Writing `last_sync_time` leaves every other key's pending status. */
  lemma SetLeavesOthersPending(es: seq<Entry>, key: string, value: Json, now: int, newKey: string, other: string, d: Json)
    requires KeysUnique(es) && other != key
    ensures Pending(other, d) in UnsyncedOf(AfterSet(es, key, value, true, now, newKey)) <==> Pending(other, d) in UnsyncedOf(es)
  {
    var after := AfterSet(es, key, value, true, now, newKey);
    UnsyncedMembers(after, other, d);
    UnsyncedMembers(es, other, d);
    PrefixInjective(other, key);
    if STORAGE_PREFIX + other == DEVICE_KEY {
      match Lookup(es, DEVICE_KEY) {
        case Some(v) =>
        case None =>
      }
    }
  }

  /** After a sync, an unsynced item whose `syncItem` failed is still unsynced,
      with the same data. */
  lemma FailedItemStaysPending(es: seq<Entry>, http: Http, now: int, newKey: string, x: Pending)
    requires KeysUnique(es) && x in UnsyncedOf(es) && x.key != LAST_SYNC_TIME
    requires !SyncItem(x.data, http).ok
    ensures x in UnsyncedOf(AfterSync(es, http, now, newKey))
  {
    var items := UnsyncedOf(es);
    UnsyncedKeysDistinct(es);
    var j :| 0 <= j < |items| && items[j] == x;
    MarkAllItem(es, items, http, now, newKey, j);
    MarkAllUnique(es, items, http, now, newKey);
    SetLeavesOthersPending(MarkAll(es, items, http, now, newKey), LAST_SYNC_TIME, JNum(now as real), now, newKey, x.key, x.data);
  }

  /** After a sync, an item the server accepted is no longer pending, unless
      its data is falsy (0, "", false): `markAsSynced` ignores such a record,
      so it is sent again on every sync. */
  lemma AcceptedItemLeaves(es: seq<Entry>, http: Http, now: int, newKey: string, x: Pending)
    requires KeysUnique(es) && x in UnsyncedOf(es) && x.key != LAST_SYNC_TIME
    requires SyncItem(x.data, http).ok
    ensures JsTruthy(x.data) ==> forall d :: Pending(x.key, d) !in UnsyncedOf(AfterSync(es, http, now, newKey))
    ensures !JsTruthy(x.data) ==> x in UnsyncedOf(AfterSync(es, http, now, newKey))
  {
    var items := UnsyncedOf(es);
    UnsyncedKeysDistinct(es);
    var j :| 0 <= j < |items| && items[j] == x;
    MarkAllItem(es, items, http, now, newKey, j);
    MarkAllUnique(es, items, http, now, newKey);
    forall d {
      SetLeavesOthersPending(MarkAll(es, items, http, now, newKey), LAST_SYNC_TIME, JNum(now as real), now, newKey, x.key, d);
    }
  }

  /** `last_sync_time` is written as synced, so it never counts as pending. */
  lemma LastSyncNeverPending(es: seq<Entry>, http: Http, now: int, newKey: string, d: Json)
    requires KeysUnique(es)
    ensures Pending(LAST_SYNC_TIME, d) !in UnsyncedOf(AfterSync(es, http, now, newKey))
    ensures DataAt(AfterSync(es, http, now, newKey), LAST_SYNC_TIME) == JNum(now as real)
  {
    var marked := MarkAll(es, UnsyncedOf(es), http, now, newKey);
    MarkAllUnique(es, UnsyncedOf(es), http, now, newKey);
    GetAfterSet(marked, LAST_SYNC_TIME, JNum(now as real), true, now, newKey);
    UnsyncedMembers(AfterSync(es, http, now, newKey), LAST_SYNC_TIME, d);
  }

  /** `subscribe`'s returned function: drops the callback, every registration of it. */
  function Unsubscribed(callbacks: seq<CallbackId>, cb: CallbackId): (r: seq<CallbackId>)
    ensures cb !in r && IsSubseq(r, callbacks)
    ensures forall c :: c in callbacks && c != cb ==> c in r
  {
    FilterIsSubseq(callbacks, c => c != cb);
    Filter(callbacks, c => c != cb)
  }

  /** Subscribing and then unsubscribing a callback that was not registered
      restores the subscriber list. */
  lemma SubscribeThenUnsubscribe(callbacks: seq<CallbackId>, cb: CallbackId)
    requires cb !in callbacks
    ensures Unsubscribed(callbacks + [cb], cb) == callbacks
  {
    var p := (c: CallbackId) => c != cb;
    FilterAll(callbacks, p);
    FilterAppend(callbacks, [cb], p);
  }

  lemma {:induction false} FilterAppend<T>(a: seq<T>, b: seq<T>, p: T -> bool)
    ensures Filter(a + b, p) == Filter(a, p) + Filter(b, p)
  {
    if |a| > 0 {
      assert (a + b)[1..] == a[1..] + b;
      FilterAppend(a[1..], b, p);
    } else {
      assert a + b == b;
    }
  }

  /** The calls `notifyListeners` makes: each subscriber, in order, with one status. */
  function Notices(callbacks: seq<CallbackId>, status: SyncStatus): (r: seq<Delivery>)
    ensures |r| == |callbacks|
    ensures forall i :: 0 <= i < |r| ==> r[i] == Delivery(callbacks[i], status)
  {
    seq(|callbacks|, i requires 0 <= i < |callbacks| => Delivery(callbacks[i], status))
  }

  /** `SyncManager`. `delivered` records the callback calls made so far. */
  class SyncManager {
    var isOnline: bool
    var syncing: bool
    var callbacks: seq<CallbackId>
    var delivered: seq<Delivery>
    const storage: OfflineStorage

    ghost predicate Valid()
      reads this, storage
    {
      storage.Valid()
    }

    /** The constructor, with `navigator.onLine` given. */
    constructor (storage: OfflineStorage, online: bool)
      requires storage.Valid()
      ensures Valid() && this.storage == storage
      ensures isOnline == online && !syncing && callbacks == [] && delivered == []
    {
      this.storage := storage;
      isOnline := online;
      syncing := false;
      callbacks := [];
      delivered := [];
    }

    /** `getStatus`. */
    function GetStatus(): (r: SyncStatus)
      reads this, storage
      ensures r.isOnline == isOnline && r.syncing == syncing
      ensures r.pendingItems == |UnsyncedOf(storage.entries)|
      ensures r.lastSyncTime == DataAt(storage.entries, LAST_SYNC_TIME)
    {
      SyncStatus(isOnline, storage.Get(LAST_SYNC_TIME), |UnsyncedOf(storage.entries)|, syncing)
    }

    /** `notifyListeners`. */
    method NotifyListeners()
      modifies this
      ensures delivered == old(delivered) + Notices(callbacks, old(GetStatus()))
      ensures isOnline == old(isOnline) && syncing == old(syncing) && callbacks == old(callbacks)
    {
      var status := GetStatus();
      var i := 0;
      ghost var before := delivered;
      while i < |callbacks|
        invariant 0 <= i <= |callbacks|
        invariant delivered == before + Notices(callbacks[..i], status)
        invariant isOnline == old(isOnline) && syncing == old(syncing) && callbacks == old(callbacks)
      {
        assert Notices(callbacks[..i + 1], status) == Notices(callbacks[..i], status) + [Delivery(callbacks[i], status)];
        delivered := delivered + [Delivery(callbacks[i], status)];
        i := i + 1;
      }
      assert callbacks[..|callbacks|] == callbacks;
    }

    /** `subscribe(callback)`: registers it and calls it once at once. */
    method Subscribe(cb: CallbackId)
      modifies this
      ensures callbacks == old(callbacks) + [cb]
      ensures delivered == old(delivered) + [Delivery(cb, old(GetStatus()))]
      ensures isOnline == old(isOnline) && syncing == old(syncing)
    {
      callbacks := callbacks + [cb];
      delivered := delivered + [Delivery(cb, GetStatus())];
    }

    /** The function `subscribe` returns. */
    method Unsubscribe(cb: CallbackId)
      modifies this
      ensures callbacks == Unsubscribed(old(callbacks), cb)
      ensures delivered == old(delivered) && isOnline == old(isOnline) && syncing == old(syncing)
    {
      callbacks := Filter(callbacks, c => c != cb);
    }

    /** The loop of `syncNow`. */
    method SyncItems(items: seq<Pending>, http: Http, now: int, newKey: string)
      requires Valid()
      modifies storage
      ensures Valid() && storage.entries == MarkAll(old(storage.entries), items, http, now, newKey)
    {
      ghost var initial := storage.entries;
      var i := 0;
      while i < |items|
        invariant 0 <= i <= |items|
        invariant Valid() && storage.entries == MarkAll(initial, items[..i], http, now, newKey)
      {
        assert items[..i + 1][..i] == items[..i];
        var attempt := SyncItem(items[i].data, http);
        if attempt.ok {
          storage.MarkAsSynced(items[i].key, now, newKey);
        }
        i := i + 1;
      }
      assert items[..|items|] == items;
    }

    /** `syncNow`: nothing when offline or already syncing; otherwise the flag
        is raised and announced, every unsynced item is tried, `last_sync_time`
        is written, and the flag is lowered and announced again. */
    method SyncNow(http: Http, now: int, newKey: string)
      requires Valid()
      modifies this, storage
      ensures Valid() && isOnline == old(isOnline) && callbacks == old(callbacks)
      ensures old(!isOnline || syncing) ==>
                syncing == old(syncing) && storage.entries == old(storage.entries) && delivered == old(delivered)
      ensures old(isOnline && !syncing) ==>
                !syncing
                && storage.entries == AfterSync(old(storage.entries), http, now, newKey)
                && delivered == old(delivered)
                   + Notices(callbacks, SyncStatus(true, DataAt(old(storage.entries), LAST_SYNC_TIME),
                                                   |UnsyncedOf(old(storage.entries))|, true))
                   + Notices(callbacks, GetStatus())
    {
      if !isOnline || syncing {
        return;
      }
      syncing := true;
      NotifyListeners();
      var unsyncedItems := storage.GetUnsyncedItems();
      SyncItems(unsyncedItems, http, now, newKey);
      storage.Set(LAST_SYNC_TIME, JNum(now as real), true, now, newKey);
      syncing := false;
      NotifyListeners();
    }

    /** `handleOnline`: the flag is raised and announced, then a sync runs. */
    method HandleOnline(http: Http, now: int, newKey: string)
      requires Valid()
      modifies this, storage
      ensures Valid() && isOnline && callbacks == old(callbacks)
      ensures old(syncing) ==>
                syncing && storage.entries == old(storage.entries)
                && delivered == old(delivered) + Notices(callbacks, old(GetStatus()).(isOnline := true))
      ensures !old(syncing) ==>
                !syncing
                && storage.entries == AfterSync(old(storage.entries), http, now, newKey)
                && delivered == old(delivered)
                   + Notices(callbacks, old(GetStatus()).(isOnline := true))
                   + Notices(callbacks, old(GetStatus()).(isOnline := true, syncing := true))
                   + Notices(callbacks, GetStatus())
    {
      isOnline := true;
      NotifyListeners();
      SyncNow(http, now, newKey);
    }

    /** `handleOffline`: only the flag changes, and it is announced. */
    method HandleOffline()
      modifies this
      ensures !isOnline && syncing == old(syncing) && callbacks == old(callbacks)
      ensures delivered == old(delivered) + Notices(callbacks, old(GetStatus()).(isOnline := false))
    {
      isOnline := false;
      NotifyListeners();
    }
  }
}
