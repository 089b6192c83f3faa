/**
 * The service-worker manager of the frontend: a registry of callbacks per
 * event, the online flag, and the queue of requests waiting to be replayed,
 * kept in browser storage under one key. Callbacks are named by an opaque
 * identity; the browser's registration outcome, the clock, the item ids and
 * the replies of the replayed requests are parameters.
 */
module ServiceWorker {
  import opened Common

  datatype Event = Update | OfflineEvent | OnlineEvent | Install

  /** The four keys of `this.callbacks`; any other name has no list. */
  function EventOf(name: string): (e: Option<Event>)
    ensures e.Some? <==> name in {"update", "offline", "online", "install"}
  {
    if name == "update" then Some(Update)
    else if name == "offline" then Some(OfflineEvent)
    else if name == "online" then Some(OnlineEvent)
    else if name == "install" then Some(Install)
    else None
  }

  /** A callback, compared by identity as `indexOf` does. */
  type Callback = nat

  datatype EventData = NoData | InstallResult(success: bool) | UpdateAvailable

  /** One call of a callback during a notification; `threw` says whether the callback raised. */
  datatype Invocation = Invocation(callback: Callback, data: EventData, threw: bool)

  /** `indexOf`: the first position of `x`, or the length when it is absent. */
  function IndexOf(s: seq<Callback>, x: Callback): (k: nat)
    ensures k <= |s| && x !in s[..k]
    ensures k < |s| <==> x in s
    ensures k < |s| ==> s[k] == x
  {
    if s == [] then 0
    else if s[0] == x then 0
    else
      var k := IndexOf(s[1..], x) + 1;
      assert s[..k] == [s[0]] + s[1..][..k - 1];
      k
  }

  /** `list.splice(list.indexOf(x), 1)` when `x` is present, the list itself when not. */
  function RemoveFirst(s: seq<Callback>, x: Callback): (r: seq<Callback>)
    ensures x !in s ==> r == s
    ensures x in s ==> r == s[..IndexOf(s, x)] + s[IndexOf(s, x) + 1..]
    ensures multiset(r) == multiset(s) - multiset{x}
  {
    var k := IndexOf(s, x);
    if k == |s| then s
    else
      assert s == s[..k] + [x] + s[k + 1..];
      s[..k] + s[k + 1..]
  }

  /** Registering a new callback and then removing it leaves the list as it was. */
  lemma OffUndoesOn(s: seq<Callback>, x: Callback)
    requires x !in s
    ensures RemoveFirst(s + [x], x) == s
  {
    var k := IndexOf(s + [x], x);
    assert k == |s|;
    assert (s + [x])[..k] == s;
  }

  /** A queued request. `data` stands for the JSON body; `timestamp` is the ISO text of the clock. */
  datatype PendingItem = PendingItem(id: real, kind: string, data: nat, timestamp: string, retries: nat)

  /** The storage entry `preac_pending_sync`: absent, text that does not parse, or a parsed list. */
  datatype Stored = Absent | Corrupt | Queue(items: seq<PendingItem>)

  /** `getPendingData`: a missing or unparsable entry reads as an empty queue. */
  function PendingOf(s: Stored): (r: seq<PendingItem>)
    ensures s.Queue? ==> r == s.items
    ensures !s.Queue? ==> r == []
  {
    if s.Queue? then s.items else []
  }

  /** `pending.filter(item => !ids.includes(item.id))`. */
  function WithoutIds(items: seq<PendingItem>, ids: seq<real>): (r: seq<PendingItem>)
    ensures |r| <= |items|
    ensures forall x :: x in r <==> x in items && x.id !in ids
  {
    if items == [] then []
    else if items[0].id in ids then WithoutIds(items[1..], ids)
    else [items[0]] + WithoutIds(items[1..], ids)
  }

  /** The filter keeps the order: with no id to remove, it is the identity, and it distributes over concatenation. */
  lemma {:induction false} WithoutIdsConcat(a: seq<PendingItem>, b: seq<PendingItem>, ids: seq<real>)
    ensures WithoutIds(a + b, ids) == WithoutIds(a, ids) + WithoutIds(b, ids)
  {
    if a != [] {
      assert (a + b)[1..] == a[1..] + b;
      WithoutIdsConcat(a[1..], b, ids);
    } else {
      assert a + b == b;
    }
  }

  lemma {:induction false} WithoutNoIds(items: seq<PendingItem>)
    ensures WithoutIds(items, []) == items
  {
    if items != [] {
      WithoutNoIds(items[1..]);
    }
  }

  /** The request kinds `processPendingItem` knows; any other makes it throw. */
  predicate Supported(kind: string)
  {
    kind == "notification" || kind == "calculation" || kind == "user_data"
  }

  /** Whether replaying an item is fulfilled: its kind is supported and the server answered `ok`. */
  predicate Fulfilled(item: PendingItem, answered: (string, nat) -> bool)
  {
    Supported(item.kind) && answered(item.kind, item.data)
  }

  /** The ids of the fulfilled items, in queue order. */
  function SuccessfulIds(items: seq<PendingItem>, answered: (string, nat) -> bool): (ids: seq<real>)
    ensures |ids| <= |items|
    ensures forall i :: 0 <= i < |items| && Fulfilled(items[i], answered) ==> items[i].id in ids
    ensures forall id :: id in ids ==> exists i :: 0 <= i < |items| && items[i].id == id && Fulfilled(items[i], answered)
  {
    if items == [] then []
    else
      var rest := SuccessfulIds(items[1..], answered);
      var ids := if Fulfilled(items[0], answered) then [items[0].id] + rest else rest;
      assert forall id :: id in ids ==> exists i :: 0 <= i < |items| && items[i].id == id && Fulfilled(items[i], answered) by {
        forall id | id in ids
          ensures exists i :: 0 <= i < |items| && items[i].id == id && Fulfilled(items[i], answered)
        {
          if id in rest {
            var j :| 0 <= j < |items[1..]| && items[1..][j].id == id && Fulfilled(items[1..][j], answered);
            assert items[j + 1] == items[1..][j];
          }
        }
      }
      ids
  }

  /** Ids being unique, a sync keeps exactly the items that were not fulfilled; an unsupported kind always stays. */
  lemma SyncKeepsFailures(items: seq<PendingItem>, answered: (string, nat) -> bool, x: PendingItem)
    requires forall i, j :: 0 <= i < j < |items| ==> items[i].id != items[j].id
    requires x in items
    ensures x in WithoutIds(items, SuccessfulIds(items, answered)) <==> !Fulfilled(x, answered)
    ensures !Supported(x.kind) ==> x in WithoutIds(items, SuccessfulIds(items, answered))
  {
  }

  datatype Status = Status(isRegistered: bool, isOnline: bool, pendingItems: nat, version: Option<string>)

  class Manager {
    var isRegistered: bool
    var isOnline: bool
    var callbacks: map<Event, seq<Callback>>
    var storage: Stored
    /** `registration.active.scriptURL`, when there is an active worker. */
    var version: Option<string>

    /** Every event has its list. */
    predicate Valid()
      reads this
    {
      Update in callbacks && OfflineEvent in callbacks && OnlineEvent in callbacks && Install in callbacks
    }

    function Pending(): seq<PendingItem>
      reads this
    {
      PendingOf(storage)
    }

    function Listeners(name: string): (r: seq<Callback>)
      reads this
      requires Valid()
      ensures EventOf(name).None? ==> r == []
    {
      if EventOf(name).Some? then callbacks[EventOf(name).value] else []
    }

    /** `new ServiceWorkerManager()` before `init` runs: four empty lists and the browser's connectivity. */
    constructor (online: bool, stored: Stored)
      ensures Valid() && !isRegistered && isOnline == online && storage == stored && version.None?
      ensures callbacks[Update] == [] && callbacks[OfflineEvent] == [] && callbacks[OnlineEvent] == [] && callbacks[Install] == []
    {
      isRegistered := false;
      isOnline := online;
      callbacks := map[Update := [], OfflineEvent := [], OnlineEvent := [], Install := []];
      storage := stored;
      version := None;
    }

    /** `on(event, callback)`: appended to a known event's list; an unknown event is ignored. */
    method On(name: string, cb: Callback)
      requires Valid()
      modifies this
      ensures Valid()
      ensures EventOf(name).Some? ==> callbacks == old(callbacks)[EventOf(name).value := old(callbacks)[EventOf(name).value] + [cb]]
      ensures EventOf(name).None? ==> callbacks == old(callbacks)
      ensures isRegistered == old(isRegistered) && isOnline == old(isOnline)
      ensures storage == old(storage) && version == old(version)
    {
      var e := EventOf(name);
      if e.Some? {
        callbacks := callbacks[e.value := callbacks[e.value] + [cb]];
      }
    }

    /** `off(event, callback)`: the first registration of the callback is removed. */
    method Off(name: string, cb: Callback)
      requires Valid()
      modifies this
      ensures Valid()
      ensures EventOf(name).Some? ==> callbacks == old(callbacks)[EventOf(name).value := RemoveFirst(old(callbacks)[EventOf(name).value], cb)]
      ensures EventOf(name).None? ==> callbacks == old(callbacks)
      ensures isRegistered == old(isRegistered) && isOnline == old(isOnline)
      ensures storage == old(storage) && version == old(version)
    {
      var e := EventOf(name);
      if e.Some? {
        callbacks := callbacks[e.value := RemoveFirst(callbacks[e.value], cb)];
      }
    }

    /**
     * `notifyCallbacks(event, data)`: every registered callback is called in
     * registration order; one that throws is logged and the rest still run.
     */
    method Notify(name: string, data: EventData, throws: Callback -> bool) returns (calls: seq<Invocation>)
      requires Valid()
      ensures |calls| == |Listeners(name)|
      ensures forall i :: 0 <= i < |calls| ==> calls[i] == Invocation(Listeners(name)[i], data, throws(Listeners(name)[i]))
    {
      var list := Listeners(name);
      calls := [];
      var i := 0;
      while i < |list|
        invariant 0 <= i <= |list| && |calls| == i
        invariant forall k :: 0 <= k < i ==> calls[k] == Invocation(list[k], data, throws(list[k]))
      {
        calls := calls + [Invocation(list[i], data, throws(list[i]))];
        i := i + 1;
      }
    }

    /**
     * `init()` with the registration's outcome: without service-worker support
     * nothing happens; otherwise the install callbacks hear whether it worked.
     */
    method Init(supported: bool, registered: bool, activeScript: Option<string>, throws: Callback -> bool)
      returns (calls: seq<Invocation>)
      requires Valid()
      modifies this
      ensures Valid() && callbacks == old(callbacks) && storage == old(storage) && isOnline == old(isOnline)
      ensures !supported ==> calls == [] && isRegistered == old(isRegistered) && version == old(version)
      ensures supported ==> isRegistered == (registered || old(isRegistered))
      ensures supported && registered ==> version == activeScript
      ensures supported ==>
        (|calls| == |callbacks[Install]| && forall i :: 0 <= i < |calls| ==> calls[i].data == InstallResult(registered))
    {
      if !supported {
        return [];
      }
      if registered {
        version := activeScript;
        isRegistered := true;
      }
      calls := Notify("install", InstallResult(registered), throws);
    }

    /** `addPendingData(type, data)` with the id and timestamp given: one item appended; a sync is due when online. */
    method AddPending(kind: string, data: nat, id: real, timestamp: string) returns (syncScheduled: bool)
      modifies this
      ensures storage == Queue(old(Pending()) + [PendingItem(id, kind, data, timestamp, 0)])
      ensures syncScheduled == isOnline
      ensures isRegistered == old(isRegistered) && isOnline == old(isOnline)
      ensures callbacks == old(callbacks) && version == old(version)
    {
      var pending := Pending();
      storage := Queue(pending + [PendingItem(id, kind, data, timestamp, 0)]);
      syncScheduled := isOnline;
    }

    /** `removePendingData(ids)`: the items whose id is listed are dropped, the rest stay in order. */
    method RemovePending(ids: seq<real>)
      modifies this
      ensures storage == Queue(WithoutIds(old(Pending()), ids))
      ensures isRegistered == old(isRegistered) && isOnline == old(isOnline)
      ensures callbacks == old(callbacks) && version == old(version)
    {
      storage := Queue(WithoutIds(Pending(), ids));
    }

    /**
     * `syncPendingData()` with the server's answers: the fulfilled items are
     * removed; the others, unsupported kinds included, stay queued. An empty
     * queue leaves the storage untouched.
     */
    method Sync(answered: (string, nat) -> bool) returns (synced: nat)
      modifies this
      ensures old(Pending()) == [] ==> storage == old(storage) && synced == 0
      ensures old(Pending()) != [] ==>
        storage == Queue(WithoutIds(old(Pending()), SuccessfulIds(old(Pending()), answered)))
      ensures synced == |SuccessfulIds(old(Pending()), answered)|
      ensures isRegistered == old(isRegistered) && isOnline == old(isOnline)
      ensures callbacks == old(callbacks) && version == old(version)
    {
      var pending := Pending();
      if |pending| == 0 {
        return 0;
      }
      var ids := SuccessfulIds(pending, answered);
      RemovePending(ids);
      synced := |ids|;
    }

    /**
     * The browser's `online` event: the flag is set, the online callbacks run,
     * then the queue is replayed. The listener exists only once a registration
     * has succeeded, so before that the event changes nothing.
     */
    method GoOnline(throws: Callback -> bool, answered: (string, nat) -> bool) returns (calls: seq<Invocation>)
      requires Valid()
      modifies this
      ensures Valid() && callbacks == old(callbacks) && isRegistered == old(isRegistered) && version == old(version)
      ensures !old(isRegistered) ==> calls == [] && isOnline == old(isOnline) && storage == old(storage)
      ensures old(isRegistered) ==> isOnline && |calls| == |callbacks[OnlineEvent]|
      ensures old(isRegistered) ==> forall i :: 0 <= i < |calls| ==>
        calls[i] == Invocation(callbacks[OnlineEvent][i], NoData, throws(callbacks[OnlineEvent][i]))
      ensures old(isRegistered) && old(Pending()) != [] ==>
        storage == Queue(WithoutIds(old(Pending()), SuccessfulIds(old(Pending()), answered)))
      ensures old(isRegistered) && old(Pending()) == [] ==> storage == old(storage)
    {
      if !isRegistered {
        return [];
      }
      isOnline := true;
      calls := Notify("online", NoData, throws);
      var _ := Sync(answered);
    }

    /** The browser's `offline` event: the flag is cleared and the offline callbacks run, once registered. */
    method GoOffline(throws: Callback -> bool) returns (calls: seq<Invocation>)
      requires Valid()
      modifies this
      ensures Valid() && callbacks == old(callbacks) && storage == old(storage)
      ensures isRegistered == old(isRegistered) && version == old(version)
      ensures !old(isRegistered) ==> calls == [] && isOnline == old(isOnline)
      ensures old(isRegistered) ==> !isOnline && |calls| == |callbacks[OfflineEvent]|
      ensures old(isRegistered) ==> forall i :: 0 <= i < |calls| ==>
        calls[i] == Invocation(callbacks[OfflineEvent][i], NoData, throws(callbacks[OfflineEvent][i]))
    {
      if !isRegistered {
        return [];
      }
      isOnline := false;
      calls := Notify("offline", NoData, throws);
    }

    /**
     * `handleServiceWorkerMessage`: only a background-sync request to sync
     * pending data replays the queue, and only once the message listener has
     * been attached by a successful registration.
     */
    method HandleMessage(kind: string, action: string, answered: (string, nat) -> bool)
      modifies this
      ensures !(old(isRegistered) && kind == "BACKGROUND_SYNC" && action == "sync_pending_data") ==>
        storage == old(storage)
      ensures old(isRegistered) && kind == "BACKGROUND_SYNC" && action == "sync_pending_data" && old(Pending()) != [] ==>
        storage == Queue(WithoutIds(old(Pending()), SuccessfulIds(old(Pending()), answered)))
      ensures callbacks == old(callbacks) && isOnline == old(isOnline)
      ensures isRegistered == old(isRegistered) && version == old(version)
    {
      if isRegistered && kind == "BACKGROUND_SYNC" && action == "sync_pending_data" {
        var _ := Sync(answered);
      }
    }

    /** `getStatus()`: the two flags, the queue length and the active script. */
    function GetStatus(): (s: Status)
      reads this
      ensures s.pendingItems == |Pending()|
      ensures s.isRegistered == isRegistered && s.isOnline == isOnline && s.version == version
    {
      Status(isRegistered, isOnline, |Pending()|, version)
    }
  }

  /** Adding an item and then removing its id restores the queue, when the id was new. */
  lemma AddThenRemove(items: seq<PendingItem>, item: PendingItem)
    requires forall i :: 0 <= i < |items| ==> items[i].id != item.id
    ensures WithoutIds(items + [item], [item.id]) == items
  {
    WithoutIdsConcat(items, [item], [item.id]);
    KeepAllOthers(items, item.id);
    assert WithoutIds([item], [item.id]) == [] by {
      assert [item][1..] == [];
    }
  }

  lemma {:induction false} KeepAllOthers(items: seq<PendingItem>, id: real)
    requires forall i :: 0 <= i < |items| ==> items[i].id != id
    ensures WithoutIds(items, [id]) == items
  {
    if items != [] {
      KeepAllOthers(items[1..], id);
    }
  }
}
