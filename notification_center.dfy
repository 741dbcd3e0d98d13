/**
 * The notification centre: the notifications a user sees, newest first, the
 * "all"/"unread" filter, and marking one or all of them as read in the page's
 * local copy.
 */
module NotificationCenter {
  import opened Wrappers
  import opened Types
  import opened Lists
  import opened Sorting
  import opened MockData

  /** The "Show:" selector. */
  datatype ReadFilter = All | UnreadOnly

  const ALL_CAUGHT_UP := "You're all caught up! No new notifications right now."

  /** Addressed to the user, or a tip or welcome addressed to everyone. */
  function VisibleTo(userId: string): Notification -> bool {
    (n: Notification) => n.userId == userId || n.kind == SystemTip || n.kind == Welcome
  }

  function Time(n: Notification): int { n.timestamp }

  /** The notifications the page loads for a user, newest first. */
  function VisibleFor(table: seq<Notification>, userId: string): (r: seq<Notification>)
    ensures forall n :: n in r <==> n in table && (n.userId == userId || n.kind == SystemTip || n.kind == Welcome)
    ensures multiset(r) == multiset(Filter(table, VisibleTo(userId)))
    ensures SortedDesc(r, Time)
  {
    var mine := Filter(table, VisibleTo(userId));
    var r := SortDesc(mine, Time);
    SameElements(r, mine);
    r
  }

  /** `n.id === id ? { ...n, read: true } : n` over the whole list. */
  function MarkRead(ns: seq<Notification>, id: string): (r: seq<Notification>)
    ensures |r| == |ns|
    ensures forall i :: 0 <= i < |r| ==> r[i] == if ns[i].id == id then ns[i].(read := true) else ns[i]
  {
    if ns == [] then []
    else [if ns[0].id == id then ns[0].(read := true) else ns[0]] + MarkRead(ns[1..], id)
  }

  /** Every notification with `read` set. */
  function MarkAll(ns: seq<Notification>): (r: seq<Notification>)
    ensures |r| == |ns|
    ensures forall i :: 0 <= i < |r| ==> r[i] == ns[i].(read := true)
  {
    if ns == [] then [] else [ns[0].(read := true)] + MarkAll(ns[1..])
  }

  function IsUnread(): Notification -> bool {
    (n: Notification) => !n.read
  }

  /** The rows the selector lets through. */
  function Filtered(ns: seq<Notification>, f: ReadFilter): (r: seq<Notification>)
    ensures f == All ==> r == ns
    ensures f == UnreadOnly ==> forall n :: n in r <==> n in ns && !n.read
    ensures IsSubseq(r, ns)
  {
    match f
    case All => IsSubseqRefl(ns); ns
    case UnreadOnly => Filter(ns, IsUnread())
  }

  /** "Mark All as Read" is offered while something is unread. */
  predicate OffersMarkAll(ns: seq<Notification>) {
    exists n :: n in ns && !n.read
  }

  /** A row offers its own "Mark as Read" button while it is unread. */
  predicate OffersMarkOne(n: Notification) {
    !n.read
  }

  /** The text shown instead of an empty list. */
  function EmptyText(shown: seq<Notification>): (r: Option<string>)
    ensures r.Some? <==> shown == []
  {
    if shown == [] then Some(ALL_CAUGHT_UP) else None
  }

  class NotificationCenterView {
    const user: Option<User>
    var notifications: seq<Notification>
    var loading: bool
    var filter: ReadFilter

    constructor (user: Option<User>)
      ensures this.user == user && notifications == [] && loading && filter == All
    {
      this.user := user;
      notifications := [];
      loading := true;
      filter := All;
    }

    /** The rows currently listed. */
    function Shown(): seq<Notification>
      reads this
    {
      Filtered(notifications, filter)
    }

    /** The load effect: the user's visible notifications; nothing without a user. */
    method Load(db: Db)
      modifies this`notifications, this`loading
      ensures user.Some? ==> notifications == VisibleFor(db.notifications, user.value.id)
      ensures user.None? ==> notifications == old(notifications)
      ensures !loading
    {
      if user.Some? {
        notifications := VisibleFor(db.notifications, user.value.id);
      }
      loading := false;
    }

    /** `markAsRead`: only the page's local copy changes. */
    method MarkAsRead(id: string)
      modifies this`notifications
      ensures notifications == MarkRead(old(notifications), id)
    {
      notifications := MarkRead(notifications, id);
    }

    /** `markAllAsRead`. */
    method MarkAllAsRead()
      modifies this`notifications
      ensures notifications == MarkAll(old(notifications))
      ensures !OffersMarkAll(notifications) && Filtered(notifications, UnreadOnly) == []
    {
      notifications := MarkAll(notifications);
      MarkAllClearsUnread(old(notifications));
    }

    method SetFilter(f: ReadFilter)
      modifies this`filter
      ensures filter == f
    {
      filter := f;
    }
  }

  /** Marking one notification read changes nothing but the `read` flag of the rows with that id. */
  lemma MarkReadOnlyTouchesId(ns: seq<Notification>, id: string)
    ensures forall i :: 0 <= i < |ns| ==>
      var m := MarkRead(ns, id)[i];
      m.(read := ns[i].read) == ns[i] && (m.read <==> ns[i].read || ns[i].id == id)
  {
  }

  /** After marking one notification, the unread rows are the old unread rows without that id. */
  lemma {:induction false} MarkReadUnread(ns: seq<Notification>, id: string)
    ensures Filter(MarkRead(ns, id), IsUnread()) == Filter(Filter(ns, IsUnread()), (n: Notification) => n.id != id)
  {
    if ns != [] {
      var r := MarkRead(ns, id);
      assert r == [r[0]] + MarkRead(ns[1..], id);
      assert ns == [ns[0]] + ns[1..];
      FilterConcat([r[0]], MarkRead(ns[1..], id), IsUnread());
      FilterConcat([ns[0]], ns[1..], IsUnread());
      FilterConcat(Filter([ns[0]], IsUnread()), Filter(ns[1..], IsUnread()), (n: Notification) => n.id != id);
      MarkReadUnread(ns[1..], id);
    }
  }

  /** Marking the same notification twice is the same as marking it once. */
  lemma MarkReadIdempotent(ns: seq<Notification>, id: string)
    ensures MarkRead(MarkRead(ns, id), id) == MarkRead(ns, id)
  {
  }

  /** "Mark All as Read" leaves nothing unread, so the button and the unread rows disappear. */
  lemma MarkAllClearsUnread(ns: seq<Notification>)
    ensures !OffersMarkAll(MarkAll(ns))
    ensures Filtered(MarkAll(ns), UnreadOnly) == []
  {
    var r := MarkAll(ns);
    forall n | n in r ensures n.read {
      var i :| 0 <= i < |r| && r[i] == n;
    }
    var u := Filtered(r, UnreadOnly);
    assert forall n :: n !in u;
  }

  /** Marking everything read twice is the same as once. */
  lemma MarkAllIdempotent(ns: seq<Notification>)
    ensures MarkAll(MarkAll(ns)) == MarkAll(ns)
  {
  }

  /** The "Mark All" button shows exactly when the unread filter would list something. */
  lemma MarkAllOfferedIffUnreadShown(ns: seq<Notification>)
    ensures OffersMarkAll(ns) <==> Filtered(ns, UnreadOnly) != []
  {
    var u := Filtered(ns, UnreadOnly);
    if u != [] {
      assert u[0] in u;
    }
  }

  /** After marking a notification, no row with its id still offers "Mark as Read". */
  lemma MarkedRowOffersNoButton(ns: seq<Notification>, id: string)
    ensures forall n :: n in MarkRead(ns, id) && n.id == id ==> !OffersMarkOne(n)
  {
    var r := MarkRead(ns, id);
    forall n | n in r && n.id == id ensures n.read {
      var i :| 0 <= i < |r| && r[i] == n;
    }
  }
}
