/**
 * The optimistic cache updates of src/pages/notifications.tsx. The query
 * cache holds three entries, the notification list, the unread count and the
 * last-unread notification; the two click handlers rewrite them before the
 * request is sent, and the request's error callback writes back the list
 * snapshot (and only the list) taken when the handler ran.
 */
module NotificationsPage {
  import opened Js

  datatype ThresholdType = WaterLevel | Disconnection

  /** A notification as the page reads it (its type module does not define it). */
  datatype Notification = Notification(
    id: string,
    read: bool,
    kind: ThresholdType,
    createdAt: string,
    currentValue: real,
    thresholdValue: real,
    sensorName: string)

  /** The three cache entries; `None` is an entry that is unset (or null). */
  datatype CacheState = CacheState(
    list: Option<seq<Notification>>,
    unreadCount: Option<int>,
    lastUnread: Option<Notification>)

  /** A request in flight, with the list snapshot its error callback restores. */
  datatype Request =
    | MarkOneRequest(id: string, previous: Option<seq<Notification>>)
    | MarkAllRequest(previous: Option<seq<Notification>>)

  /** The list with every entry whose id is `id` marked read. */
  function MarkOne(list: seq<Notification>, id: string): (r: seq<Notification>)
    ensures |r| == |list|
    ensures forall i :: 0 <= i < |list| ==> r[i].read == (list[i].read || list[i].id == id)
    ensures forall i :: 0 <= i < |list| ==> r[i].(read := list[i].read) == list[i]
    ensures forall i :: 0 <= i < |list| && list[i].id != id ==> r[i] == list[i]
  {
    seq(|list|, i requires 0 <= i < |list| => if list[i].id == id then list[i].(read := true) else list[i])
  }

  /** The list with every entry marked read. */
  function MarkAll(list: seq<Notification>): (r: seq<Notification>)
    ensures |r| == |list|
    ensures forall i :: 0 <= i < |list| ==> r[i].read && r[i].(read := list[i].read) == list[i]
  {
    seq(|list|, i requires 0 <= i < |list| => list[i].(read := true))
  }

  /** `old?.map(f)`: an unset list stays unset. */
  function MapList(list: Option<seq<Notification>>, markAll: bool, id: string): (r: Option<seq<Notification>>)
    ensures r.None? <==> list.None?
    ensures list.Some? ==> r.value == if markAll then MarkAll(list.value) else MarkOne(list.value, id)
  {
    match list
    case None => None
    case Some(l) => Some(if markAll then MarkAll(l) else MarkOne(l, id))
  }

  /** The number of unread notifications. */
  function CountUnread(list: seq<Notification>): (n: nat)
    ensures n <= |list|
  {
    if list == [] then 0 else (if list[0].read then 0 else 1) + CountUnread(list[1..])
  }

  /** The first unread notification, in list order. */
  function FirstUnread(list: seq<Notification>): (r: Option<Notification>)
    ensures r.None? <==> forall i :: 0 <= i < |list| ==> list[i].read
    ensures r.Some? ==> exists k :: 0 <= k < |list| && list[k] == r.value && !list[k].read
                          && forall j :: 0 <= j < k ==> list[j].read
  {
    if list == [] then None
    else if !list[0].read then Some(list[0])
    else
      var r := FirstUnread(list[1..]);
      assert r.Some? ==> exists k :: 0 <= k < |list[1..]| && list[1..][k] == r.value && !list[1..][k].read
                          && forall j :: 0 <= j < k ==> list[1..][j].read;
      assert r.Some? ==> exists k :: 1 <= k < |list| && list[k] == r.value && !list[k].read
                          && forall j :: 0 <= j < k ==> list[j].read by {
        if r.Some? {
          var k :| 0 <= k < |list[1..]| && list[1..][k] == r.value && !list[1..][k].read
                   && forall j :: 0 <= j < k ==> list[1..][j].read;
          assert forall j :: 0 <= j < k + 1 ==> list[j].read by {
            forall j | 0 <= j < k + 1 ensures list[j].read {
              if j > 0 { assert list[j] == list[1..][j - 1]; }
            }
          }
        }
      }
      r
  }

  /** `notifications.find(n => !n.read && n.id !== id)` */
  function FindUnreadExcept(list: seq<Notification>, id: string): (r: Option<Notification>)
    ensures r.None? <==> forall i :: 0 <= i < |list| ==> list[i].read || list[i].id == id
    ensures r.Some? ==> exists k :: 0 <= k < |list| && list[k] == r.value && !list[k].read && list[k].id != id
                          && forall j :: 0 <= j < k ==> list[j].read || list[j].id == id
  {
    if list == [] then None
    else if !list[0].read && list[0].id != id then Some(list[0])
    else
      var r := FindUnreadExcept(list[1..], id);
      assert r.Some? ==> exists k :: 1 <= k < |list| && list[k] == r.value && !list[k].read && list[k].id != id
                          && forall j :: 0 <= j < k ==> list[j].read || list[j].id == id by {
        if r.Some? {
          var k :| 0 <= k < |list[1..]| && list[1..][k] == r.value && !list[1..][k].read && list[1..][k].id != id
                   && forall j :: 0 <= j < k ==> list[1..][j].read || list[1..][j].id == id;
          forall j | 0 <= j < k + 1 ensures list[j].read || list[j].id == id {
            if j > 0 { assert list[j] == list[1..][j - 1]; }
          }
        }
      }
      r
  }

  /** The count after marking one notification: one less, never below 0. */
  function DecrementCount(count: Option<int>): (r: Option<int>)
    ensures count.Some? && count.value > 0 ==> r == Some(count.value - 1)
    ensures !(count.Some? && count.value > 0) ==> r == count
    ensures (count.None? || count.value >= 0) ==> (r.None? || r.value >= 0)
  {
    var currentCount := count.GetOr(0);
    if currentCount > 0 then Some(currentCount - 1) else count
  }

  /** The pointer after marking `id`: recomputed only when it pointed at `id`. */
  function UpdatedLastUnread(last: Option<Notification>, rendered: seq<Notification>, id: string): (r: Option<Notification>)
    ensures (last.None? || last.value.id != id) ==> r == last
    ensures last.Some? && last.value.id == id ==> r == FindUnreadExcept(rendered, id)
  {
    if last.Some? && last.value.id == id then FindUnreadExcept(rendered, id) else last
  }

  /** The cache after the optimistic part of `handleMarkAsRead` for an unread item. */
  function AfterMarkAsRead(s: CacheState, rendered: seq<Notification>, id: string): CacheState {
    CacheState(MapList(s.list, false, id), DecrementCount(s.unreadCount), UpdatedLastUnread(s.lastUnread, rendered, id))
  }

  /** The cache after the optimistic part of `handleMarkAllAsRead`. */
  function AfterMarkAll(s: CacheState): (r: CacheState)
    ensures r.unreadCount == Some(0) && r.lastUnread == None
    ensures r.list.None? <==> s.list.None?
    ensures r.list.Some? ==> forall i :: 0 <= i < |r.list.value| ==> r.list.value[i].read
  {
    CacheState(MapList(s.list, true, ""), Some(0), None)
  }

  /**
   * The cache after a request's error callback: the list snapshot is written
   * back. Writing `undefined` leaves a query-cache entry as it is, so without a
   * snapshot the list keeps its current value.
   */
  function AfterFailure(s: CacheState, request: Request): (r: CacheState)
    ensures request.previous.Some? ==> r.list == request.previous
    ensures request.previous.None? ==> r.list == s.list
    ensures r.unreadCount == s.unreadCount && r.lastUnread == s.lastUnread
  {
    if request.previous.Some? then s.(list := request.previous) else s
  }

  /**
   * The three entries agree: the count is the number of unread notifications
   * and the pointer is the first unread one (the list is in recency order).
   */
  predicate Consistent(s: CacheState) {
    s.list.Some? && s.unreadCount == Some(CountUnread(s.list.value)) && s.lastUnread == FirstUnread(s.list.value)
  }

  predicate UniqueIds(list: seq<Notification>) {
    forall i, j :: 0 <= i < j < |list| ==> list[i].id != list[j].id
  }

  /** The disabled state of the "mark all" button: enabled iff something is unread. */
  function MarkAllEnabled(rendered: seq<Notification>): (enabled: bool)
    ensures enabled <==> CountUnread(rendered) > 0
    ensures enabled <==> FirstUnread(rendered).Some?
  {
    UnreadCountPositive(rendered);
    exists i :: 0 <= i < |rendered| && !rendered[i].read
  }

  lemma {:induction false} UnreadCountPositive(list: seq<Notification>)
    ensures CountUnread(list) > 0 <==> exists i :: 0 <= i < |list| && !list[i].read
  {
    if list != [] {
      UnreadCountPositive(list[1..]);
      if exists i :: 0 <= i < |list[1..]| && !list[1..][i].read {
        var i :| 0 <= i < |list[1..]| && !list[1..][i].read;
        assert !list[i + 1].read;
      }
      if exists i :: 0 <= i < |list| && !list[i].read {
        var i :| 0 <= i < |list| && !list[i].read;
        if i > 0 { assert !list[1..][i - 1].read; }
      }
    }
  }

  /** The unread entries carrying `id`. */
  function CountUnreadWithId(list: seq<Notification>, id: string): nat {
    if list == [] then 0 else (if !list[0].read && list[0].id == id then 1 else 0) + CountUnreadWithId(list[1..], id)
  }

  lemma {:induction false} CountAfterMarkOne(list: seq<Notification>, id: string)
    ensures CountUnread(MarkOne(list, id)) == CountUnread(list) - CountUnreadWithId(list, id)
  {
    if list != [] {
      CountAfterMarkOne(list[1..], id);
      assert MarkOne(list, id)[1..] == MarkOne(list[1..], id);
    }
  }

  lemma {:induction false} SingleUnreadWithId(list: seq<Notification>, k: nat)
    requires UniqueIds(list) && k < |list| && !list[k].read
    ensures CountUnreadWithId(list, list[k].id) == 1
  {
    if k == 0 {
      NoneWithId(list[1..], list[0].id);
    } else {
      assert UniqueIds(list[1..]);
      SingleUnreadWithId(list[1..], k - 1);
      assert list[1..][k - 1] == list[k];
    }
  }

  lemma {:induction false} NoneWithId(list: seq<Notification>, id: string)
    requires forall i :: 0 <= i < |list| ==> list[i].id != id
    ensures CountUnreadWithId(list, id) == 0
  {
    if list != [] {
      NoneWithId(list[1..], id);
    }
  }

  /** In the marked list, the first unread entry is the source's `find` result. */
  lemma {:induction false} FirstUnreadAfterMarkOne(list: seq<Notification>, id: string)
    ensures FirstUnread(MarkOne(list, id)) == FindUnreadExcept(list, id)
  {
    if list != [] {
      FirstUnreadAfterMarkOne(list[1..], id);
      assert MarkOne(list, id)[1..] == MarkOne(list[1..], id);
    }
  }

  /** When the first unread entry does not carry `id`, skipping `id` finds it too. */
  lemma {:induction false} FindSkipsOtherId(list: seq<Notification>, id: string)
    requires FirstUnread(list).None? || FirstUnread(list).value.id != id
    ensures FindUnreadExcept(list, id) == FirstUnread(list)
  {
    if list != [] && list[0].read {
      FindSkipsOtherId(list[1..], id);
    }
  }

  lemma {:induction false} AllReadCountsZero(list: seq<Notification>)
    requires forall i :: 0 <= i < |list| ==> list[i].read
    ensures CountUnread(list) == 0
  {
    if list != [] {
      AllReadCountsZero(list[1..]);
    }
  }

  /**
   * Marking an unread notification of a consistent cache, with the rendered
   * list equal to the cached one and ids unique, keeps the three entries
   * consistent: the count drops by exactly one and the pointer moves on.
   */
  lemma MarkAsReadPreservesConsistency(s: CacheState, k: nat)
    requires Consistent(s) && UniqueIds(s.list.value)
    requires k < |s.list.value| && !s.list.value[k].read
    ensures Consistent(AfterMarkAsRead(s, s.list.value, s.list.value[k].id))
    ensures AfterMarkAsRead(s, s.list.value, s.list.value[k].id).unreadCount == Some(s.unreadCount.value - 1)
  {
    var l, id := s.list.value, s.list.value[k].id;
    CountAfterMarkOne(l, id);
    SingleUnreadWithId(l, k);
    FirstUnreadAfterMarkOne(l, id);
    if s.lastUnread.None? || s.lastUnread.value.id != id {
      FindSkipsOtherId(l, id);
    }
  }

  /** Marking everything read leaves any cache with a list consistent. */
  lemma MarkAllMakesConsistent(s: CacheState)
    requires s.list.Some?
    ensures Consistent(AfterMarkAll(s))
  {
    AllReadCountsZero(AfterMarkAll(s).list.value);
  }

  /**
   * The error callback restores the list only: after a failed mark-as-read
   * the list is back as it was but the count stays one lower, so the cache is
   * no longer consistent until the entries are fetched again.
   */
  lemma FailedMarkAsReadLeavesCountStale(s: CacheState, k: nat)
    requires Consistent(s) && UniqueIds(s.list.value)
    requires k < |s.list.value| && !s.list.value[k].read
    ensures var id := s.list.value[k].id;
            var r := AfterFailure(AfterMarkAsRead(s, s.list.value, id), MarkOneRequest(id, s.list));
            r.list == s.list && r.unreadCount == Some(s.unreadCount.value - 1) && !Consistent(r)
  {
    MarkAsReadPreservesConsistency(s, k);
  }

  /** The query cache the page reads and writes, with its three entries. */
  class NotificationCache {
    var list: Option<seq<Notification>>
    var unreadCount: Option<int>
    var lastUnread: Option<Notification>

    function State(): CacheState
      reads this
    {
      CacheState(list, unreadCount, lastUnread)
    }

    constructor (initial: CacheState)
      ensures State() == initial
    {
      list, unreadCount, lastUnread := initial.list, initial.unreadCount, initial.lastUnread;
    }

    /**
     * `handleMarkAsRead(notification)`, with `rendered` the list the page
     * rendered. An item already read changes nothing and sends nothing.
     */
    method HandleMarkAsRead(rendered: seq<Notification>, notification: Notification) returns (request: Option<Request>)
      modifies this
      ensures notification.read ==> request == None && State() == old(State())
      ensures !notification.read ==> request == Some(MarkOneRequest(notification.id, old(list)))
      ensures !notification.read ==> State() == AfterMarkAsRead(old(State()), rendered, notification.id)
    {
      if notification.read {
        return None;
      }
      var previousNotifications := list;
      list := MapList(list, false, notification.id);
      var currentCount := unreadCount.GetOr(0);
      if currentCount > 0 {
        unreadCount := Some(currentCount - 1);
      }
      if lastUnread.Some? && lastUnread.value.id == notification.id {
        lastUnread := FindUnreadExcept(rendered, notification.id);
      }
      request := Some(MarkOneRequest(notification.id, previousNotifications));
    }

    /** `handleMarkAllAsRead()` */
    method HandleMarkAllAsRead() returns (request: Request)
      modifies this
      ensures request == MarkAllRequest(old(list))
      ensures State() == AfterMarkAll(old(State()))
    {
      var previousNotifications := list;
      list := MapList(list, true, "");
      unreadCount := Some(0);
      lastUnread := None;
      request := MarkAllRequest(previousNotifications);
    }

    /** The `onError` callback of either request. */
    method Fail(request: Request)
      modifies this
      ensures request.previous.Some? ==> list == request.previous
      ensures request.previous.None? ==> list == old(list)
      ensures unreadCount == old(unreadCount) && lastUnread == old(lastUnread)
      ensures State() == AfterFailure(old(State()), request)
    {
      if request.previous.Some? {
        list := request.previous;
      }
    }
  }
}
