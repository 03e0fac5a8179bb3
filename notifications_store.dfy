/**
 * The local notification store of src/stores/NotificationsStore.ts: a list
 * seeded with two unread notifications and a `markAsRead` action that
 * replaces the list with a copy in which the matching entries are read.
 */
module NotificationsStore {

  /** A store entry; `timestamp` is the creation time in milliseconds. */
  datatype StoreNotification = StoreNotification(id: string, title: string, timestamp: int, read: bool)

  /** The seed list; both entries are stamped with the store's creation time. */
  function InitialNotifications(now: int): (r: seq<StoreNotification>)
    ensures |r| == 2 && r[0].id == "1" && r[1].id == "2"
    ensures forall i :: 0 <= i < |r| ==> !r[i].read && r[i].timestamp == now
  {
    [ StoreNotification("1", "Nivel bajo en Tinaco Casa", now, false),
      StoreNotification("2", "Batería baja en Tanque Jardín", now, false) ]
  }

  /** The list `markAsRead(id)` stores. */
  function MarkedRead(list: seq<StoreNotification>, id: string): (r: seq<StoreNotification>)
    ensures |r| == |list|
    ensures forall i :: 0 <= i < |list| && list[i].id == id ==> r[i].read
    ensures forall i :: 0 <= i < |list| && list[i].id != id ==> r[i] == list[i]
    ensures forall i :: 0 <= i < |list| ==>
      r[i].id == list[i].id && r[i].title == list[i].title && r[i].timestamp == list[i].timestamp
  {
    if list == [] then []
    else [if list[0].id == id then list[0].(read := true) else list[0]] + MarkedRead(list[1..], id)
  }

  /** Marking the same id twice is marking it once. */
  lemma {:induction false} MarkedReadIdempotent(list: seq<StoreNotification>, id: string)
    ensures MarkedRead(MarkedRead(list, id), id) == MarkedRead(list, id)
  {
    if list != [] {
      MarkedReadIdempotent(list[1..], id);
      assert MarkedRead(list, id)[1..] == MarkedRead(list[1..], id);
    }
  }

  /** An id that no entry carries leaves the list as it is. */
  lemma {:induction false} MarkedReadAbsentId(list: seq<StoreNotification>, id: string)
    requires forall i :: 0 <= i < |list| ==> list[i].id != id
    ensures MarkedRead(list, id) == list
  {
    if list != [] {
      MarkedReadAbsentId(list[1..], id);
    }
  }

  /** Marking two ids commutes. */
  lemma {:induction false} MarkedReadCommutes(list: seq<StoreNotification>, a: string, b: string)
    ensures MarkedRead(MarkedRead(list, a), b) == MarkedRead(MarkedRead(list, b), a)
  {
    if list != [] {
      MarkedReadCommutes(list[1..], a, b);
      assert MarkedRead(list, a)[1..] == MarkedRead(list[1..], a);
      assert MarkedRead(list, b)[1..] == MarkedRead(list[1..], b);
    }
  }

  /** The zustand store. */
  class Store {
    var notifications: seq<StoreNotification>

    /** The store as created at time `now`. */
    constructor (now: int)
      ensures notifications == InitialNotifications(now)
    {
      notifications := InitialNotifications(now);
    }

    /** `markAsRead(id)` */
    method MarkAsRead(id: string)
      modifies this
      ensures notifications == MarkedRead(old(notifications), id)
    {
      notifications := MarkedRead(notifications, id);
    }
  }
}
