/**
 * The mobile app's notification service: an in-memory list, newest first,
 * capped at 100 entries, with read flags. Notifications are values here;
 * the service object owns the list and its methods update it in place.
 */
module Notifications {
  import opened Common

  const CAPACITY: nat := 100

  datatype NotificationType = TransferType | TransactionType | AccountType | SecurityType

  /** The optional `data` payload the simulators attach. */
  datatype NoteData = NoData | TransferData(amount: real, toAccount: string) | TransactionData(txType: string, amount: real)

  datatype Notification = Notification(id: string, title: string, message: string, noteType: NotificationType,
                                       timestamp: int, read: bool, data: NoteData)

  predicate IsUnread(n: Notification) {
    !n.read
  }

  /** `getUnreadCount()`. */
  function UnreadCount(list: seq<Notification>): nat {
    |Filter(list, IsUnread)|
  }

  /** A new notification: its id is the clock's millisecond value as a decimal string, and it is unread. */
  function NewNotification(title: string, message: string, noteType: NotificationType, data: NoteData,
                           now: nat): (n: Notification)
    ensures !n.read && n.timestamp == now && n.id == NatToString(now)
  {
    Notification(NatToString(now), title, message, noteType, now, false, data)
  }

  /** `unshift` then keep the first 100. */
  function Added(list: seq<Notification>, n: Notification): (r: seq<Notification>)
    ensures |r| == Min(|list| + 1, CAPACITY)
    ensures r[0] == n
    ensures forall i :: 1 <= i < |r| ==> r[i] == list[i - 1]
  {
    var l := [n] + list;
    if |l| > CAPACITY then l[..CAPACITY] else l
  }

  /** The index `find` stops at: the first notification with the id. */
  function FirstWithId(list: seq<Notification>, id: string): (k: Option<nat>)
    ensures k.Some? ==> (k.value < |list| && list[k.value].id == id
                         && forall j :: 0 <= j < k.value ==> list[j].id != id)
    ensures k.None? <==> forall j :: 0 <= j < |list| ==> list[j].id != id
  {
    if |list| == 0 then None
    else if list[0].id == id then Some(0)
    else match FirstWithId(list[1..], id)
      case None => None
      case Some(k) => Some(k + 1)
  }

  /** `markAsRead(id)`: only the first notification with that id is marked. */
  function MarkedRead(list: seq<Notification>, id: string): (r: seq<Notification>)
    ensures |r| == |list|
    ensures forall j :: 0 <= j < |list| ==>
      r[j] == (if FirstWithId(list, id) == Some(j) then list[j].(read := true) else list[j])
    ensures forall j :: 0 <= j < |list| && list[j].id == id && (forall i :: 0 <= i < j ==> list[i].id != id) ==>
      r[j].read
  {
    match FirstWithId(list, id)
    case None => list
    case Some(k) => list[k := list[k].(read := true)]
  }

  function AllRead(list: seq<Notification>): (r: seq<Notification>)
    ensures |r| == |list|
    ensures forall j :: 0 <= j < |list| ==> r[j].read && r[j].(read := list[j].read) == list[j]
  {
    seq(|list|, i requires 0 <= i < |list| => list[i].(read := true))
  }

  function WithoutId(list: seq<Notification>, id: string): (r: seq<Notification>)
    ensures |r| <= |list|
    ensures forall n :: n in r <==> n in list && n.id != id
  {
    Filter(list, (n: Notification) => n.id != id)
  }

  class NotificationService {
    var notifications: seq<Notification>

    constructor()
      ensures notifications == []
    {
      notifications := [];
    }

    /** `add(notification)`. */
    method Add(title: string, message: string, noteType: NotificationType, data: NoteData, now: nat)
      returns (n: Notification)
      modifies this
      ensures n == NewNotification(title, message, noteType, data, now)
      ensures notifications == Added(old(notifications), n)
    {
      n := NewNotification(title, message, noteType, data, now);
      notifications := [n] + notifications;
      if |notifications| > CAPACITY {
        notifications := notifications[..CAPACITY];
      }
    }

    method MarkAsRead(id: string)
      modifies this
      ensures notifications == MarkedRead(old(notifications), id)
    {
      var i := 0;
      while i < |notifications| && notifications[i].id != id
        invariant 0 <= i <= |notifications|
        invariant forall j :: 0 <= j < i ==> notifications[j].id != id
      {
        i := i + 1;
      }
      if i < |notifications| {
        notifications := notifications[i := notifications[i].(read := true)];
      }
    }

    method MarkAllAsRead()
      modifies this
      ensures notifications == AllRead(old(notifications))
    {
      var i := 0;
      while i < |notifications|
        invariant 0 <= i <= |notifications| == |old(notifications)|
        invariant forall j :: 0 <= j < i ==> notifications[j] == old(notifications)[j].(read := true)
        invariant forall j :: i <= j < |notifications| ==> notifications[j] == old(notifications)[j]
      {
        notifications := notifications[i := notifications[i].(read := true)];
        i := i + 1;
      }
    }

    /** `getAll()`: a copy of the list. */
    function GetAll(): (r: seq<Notification>)
      reads this
      ensures r == notifications
    {
      notifications
    }

    function GetUnreadCount(): (c: nat)
      reads this
      ensures c == UnreadCount(notifications)
    {
      |Filter(notifications, IsUnread)|
    }

    /** `delete(id)`: every notification with that id goes. */
    method Delete(id: string)
      modifies this
      ensures notifications == WithoutId(old(notifications), id)
    {
      notifications := WithoutId(notifications, id);
    }

    method Clear()
      modifies this
      ensures notifications == []
    {
      notifications := [];
    }

    /** `formattedAmount` is the amount as `toLocaleString('tr-TR', TRY)` renders it. */
    method SimulateTransferNotification(amount: real, formattedAmount: string, toAccount: string, now: nat)
      modifies this
      ensures notifications == Added(old(notifications), NewNotification("Transfer Tamamlandı",
        formattedAmount + " tutarında transfer işlemi tamamlandı.", TransferType, TransferData(amount, toAccount), now))
    {
      var _ := Add("Transfer Tamamlandı", formattedAmount + " tutarında transfer işlemi tamamlandı.", TransferType,
                   TransferData(amount, toAccount), now);
    }

    method SimulateTransactionNotification(txType: string, amount: real, formattedAmount: string, now: nat)
      modifies this
      ensures notifications == Added(old(notifications), NewNotification("Yeni İşlem",
        txType + " işlemi: " + formattedAmount, TransactionType, TransactionData(txType, amount), now))
    {
      var _ := Add("Yeni İşlem", txType + " işlemi: " + formattedAmount, TransactionType,
                   TransactionData(txType, amount), now);
    }

    method SimulateSecurityNotification(message: string, now: nat)
      modifies this
      ensures notifications == Added(old(notifications), NewNotification("Güvenlik Uyarısı", message, SecurityType,
                                                                           NoData, now))
    {
      var _ := Add("Güvenlik Uyarısı", message, SecurityType, NoData, now);
    }
  }

  lemma {:induction false} UnreadCountAppend(a: seq<Notification>, b: seq<Notification>)
    ensures UnreadCount(a + b) == UnreadCount(a) + UnreadCount(b)
  {
    FilterAppend(a, b, IsUnread);
  }

  /** A new notification is unread: below the cap it adds exactly one to the unread count. */
  lemma AddedCountsOneMore(list: seq<Notification>, n: Notification)
    requires !n.read && |list| < CAPACITY
    ensures UnreadCount(Added(list, n)) == UnreadCount(list) + 1
  {
    assert Added(list, n) == [n] + list;
    UnreadCountAppend([n], list);
  }

  /** At the cap the oldest notification is dropped. */
  lemma AddedAtCapacityDropsOldest(list: seq<Notification>, n: Notification)
    requires |list| == CAPACITY
    ensures Added(list, n) == [n] + list[..CAPACITY - 1]
  {
  }

  /** Marking keeps length and every id, changes at most one entry, and only ever sets a flag. */
  lemma MarkedReadChangesOne(list: seq<Notification>, id: string)
    ensures var r := MarkedRead(list, id);
      |r| == |list| && (forall i :: 0 <= i < |r| ==> r[i].id == list[i].id && (list[i].read ==> r[i].read))
      && forall i, j :: 0 <= i < j < |r| && r[i] != list[i] ==> r[j] == list[j]
  {
  }

  /** An unknown id changes nothing. */
  lemma MarkUnknownIdIsNoop(list: seq<Notification>, id: string)
    requires forall i :: 0 <= i < |list| ==> list[i].id != id
    ensures MarkedRead(list, id) == list
  {
  }

  lemma {:induction false} UnreadCountUpdate(list: seq<Notification>, k: nat, n: Notification)
    requires k < |list|
    ensures UnreadCount(list[k := n]) + (if list[k].read then 0 else 1) == UnreadCount(list) + (if n.read then 0 else 1)
  {
    assert list == list[..k] + [list[k]] + list[k + 1..];
    assert list[k := n] == list[..k] + [n] + list[k + 1..];
    UnreadCountAppend(list[..k] + [list[k]], list[k + 1..]);
    UnreadCountAppend(list[..k], [list[k]]);
    UnreadCountAppend(list[..k] + [n], list[k + 1..]);
    UnreadCountAppend(list[..k], [n]);
  }

  /** Marking an unread notification lowers the unread count by one; anything else keeps it. */
  lemma MarkedReadCount(list: seq<Notification>, id: string)
    ensures var k := FirstWithId(list, id);
      UnreadCount(MarkedRead(list, id)) == UnreadCount(list) - (if k.Some? && !list[k.value].read then 1 else 0)
  {
    var k := FirstWithId(list, id);
    if k.Some? {
      UnreadCountUpdate(list, k.value, list[k.value].(read := true));
    }
  }

  lemma {:induction false} AllReadNoneUnread(list: seq<Notification>)
    ensures UnreadCount(AllRead(list)) == 0
    decreases |list|
  {
    if |list| > 0 {
      var r := AllRead(list);
      assert r == [r[0]] + AllRead(list[1..]);
      UnreadCountAppend([r[0]], AllRead(list[1..]));
      AllReadNoneUnread(list[1..]);
    }
  }

  /** After marking all, nothing is unread, and length and ids in order are kept. */
  lemma MarkAllLeavesNoneUnread(list: seq<Notification>)
    ensures UnreadCount(AllRead(list)) == 0
    ensures |AllRead(list)| == |list| && forall i :: 0 <= i < |list| ==> AllRead(list)[i].id == list[i].id
  {
    AllReadNoneUnread(list);
  }

  /** After deleting, no notification has the id, and every other one is kept. */
  lemma DeleteRemovesAll(list: seq<Notification>, id: string)
    ensures forall n :: n in WithoutId(list, id) ==> n.id != id && n in list
    ensures forall n :: n in list && n.id != id ==> n in WithoutId(list, id)
  {
  }

  /**
   * Ids are millisecond timestamps, so two notifications added in the same
   * millisecond share an id: marking that id marks only the newer one,
   * while deleting it removes both.
   */
  lemma SameMillisecondIdsCollide(list: seq<Notification>, a: Notification, b: Notification)
    requires |list| < CAPACITY - 1 && !a.read && !b.read && a.id == b.id
    ensures var l := Added(Added(list, a), b);
      MarkedRead(l, b.id)[0].read && !MarkedRead(l, b.id)[1].read && b !in WithoutId(l, b.id)
      && a !in WithoutId(l, b.id)
  {
    var l := Added(Added(list, a), b);
    assert l[0] == b && l[1] == a;
  }
}
