// notifications: which notifications a user sees (`NotificationListView.get`)
// and `mark_all_read`, which records a `NotificationRead` row for every
// visible notification the user has not read. Times are timestamps and
// `now` is passed in.
module Notifications {
  import opened Common

  const AudienceAll: string := "all"
  const AudienceCustom: string := "custom"

  /** A `Notification` row; `recipients` are user ids (used with the 'custom' audience). */
  datatype Notification = Notification(
    id: int,
    title: string,
    message: string,
    audience: string,
    recipients: set<int>,
    isActive: bool,
    createdAt: int,
    expiresAt: Option<int>)

  /** A `NotificationRead` row. */
  datatype ReadRow = ReadRow(user: int, notification: int)

  /** A listed notification with its `is_read` annotation. */
  datatype Listed = Listed(note: Notification, isRead: bool)

  /** A notification created with the model's defaults: audience 'all', active, no recipients, no expiry. */
  function NewNotification(id: int, title: string, message: string, createdAt: int): Notification
  {
    Notification(id, title, message, AudienceAll, {}, true, createdAt, None)
  }

  /** `is_expired`: only with an expiry, and only strictly after it (a null expiry is falsy). */
  predicate IsExpired(n: Notification, now: int)
  {
    n.expiresAt.Some? && now > n.expiresAt.value
  }

  /** The shared filter of both views: active, not past its expiry, and addressed to the user. */
  predicate Visible(n: Notification, uid: int, now: int)
  {
    n.isActive
    && !(n.expiresAt.Some? && n.expiresAt.value < now)
    && (n.audience == AudienceAll || (n.audience == AudienceCustom && uid in n.recipients))
  }

  /**
   * The view's filter agrees with `is_expired`: visible means active, not
   * expired and addressed to the user. A notification is still visible at
   * its exact expiry instant, and one without expiry never expires.
   */
  lemma VisibleMeansNotExpired(n: Notification, uid: int, now: int)
    ensures Visible(n, uid, now)
        <==> n.isActive && !IsExpired(n, now) && (n.audience == AudienceAll || (n.audience == AudienceCustom && uid in n.recipients))
    ensures n.expiresAt.None? ==> !IsExpired(n, now)
    ensures n.expiresAt == Some(now) ==> !IsExpired(n, now)
  {
  }

  /** A notification with the defaults is visible to every user until further changes. */
  lemma DefaultsVisible(id: int, title: string, message: string, createdAt: int, uid: int, now: int)
    ensures Visible(NewNotification(id, title, message, createdAt), uid, now)
  {
  }

  predicate IsRead(readRows: seq<ReadRow>, uid: int, nid: int)
  {
    ReadRow(uid, nid) in readRows
  }

  /**
   * The notifications `notes` (in the table's order, newest first) that the
   * list keeps: visible ones, and with `unreadOnly` only those not read.
   */
  function Kept(notes: seq<Notification>, readRows: seq<ReadRow>, uid: int, unreadOnly: bool, now: int): (r: seq<Listed>)
    ensures |r| <= |notes|
    ensures forall k :: 0 <= k < |r| ==>
      r[k].note in notes && Visible(r[k].note, uid, now) && r[k].isRead == IsRead(readRows, uid, r[k].note.id)
      && (unreadOnly ==> !r[k].isRead)
    ensures forall n :: n in notes && Visible(n, uid, now) && (unreadOnly ==> !IsRead(readRows, uid, n.id)) ==>
      Listed(n, IsRead(readRows, uid, n.id)) in r
  {
    if notes == [] then []
    else
      var init := Kept(notes[..|notes| - 1], readRows, uid, unreadOnly, now);
      var n := notes[|notes| - 1];
      assert forall m :: m in notes ==> m in notes[..|notes| - 1] || m == n;
      if Visible(n, uid, now) && (unreadOnly ==> !IsRead(readRows, uid, n.id))
      then init + [Listed(n, IsRead(readRows, uid, n.id))]
      else init
  }

  const ListCap: int := 50

  /** `NotificationListView.get`: the kept notifications, at most 50 of them. */
  function ListFor(notes: seq<Notification>, readRows: seq<ReadRow>, uid: int, status: string, now: int): seq<Listed>
  {
    var kept := Kept(notes, readRows, uid, status == "unread", now);
    kept[..Min(ListCap, |kept|)]
  }

  /**
   * The list holds at most 50 visible notifications, the first ones kept;
   * 'unread' shows only unread ones, and any other status ('active',
   * 'all' or an unknown value) behaves like 'active'.
   */
  lemma ListRules(notes: seq<Notification>, readRows: seq<ReadRow>, uid: int, status: string, now: int)
    ensures var r := ListFor(notes, readRows, uid, status, now);
      |r| <= ListCap && r == Kept(notes, readRows, uid, status == "unread", now)[..|r|]
      && (forall k :: 0 <= k < |r| ==> Visible(r[k].note, uid, now) && (status == "unread" ==> !r[k].isRead))
    ensures status != "unread" ==> ListFor(notes, readRows, uid, status, now) == ListFor(notes, readRows, uid, "active", now)
    ensures |Kept(notes, readRows, uid, status == "unread", now)| <= ListCap ==>
      ListFor(notes, readRows, uid, status, now) == Kept(notes, readRows, uid, status == "unread", now)
  {
    var kept := Kept(notes, readRows, uid, status == "unread", now);
    var r := ListFor(notes, readRows, uid, status, now);
    forall k | 0 <= k < |r|
      ensures Visible(r[k].note, uid, now) && (status == "unread" ==> !r[k].isRead)
    {
      assert r[k] == kept[k];
    }
  }

  /** The ids of the visible notifications, in order (the `visible` queryset of `mark_all_read`). */
  function VisibleIds(notes: seq<Notification>, uid: int, now: int): (r: seq<int>)
    ensures forall id :: id in r <==> exists k :: 0 <= k < |notes| && notes[k].id == id && Visible(notes[k], uid, now)
  {
    if notes == [] then []
    else
      var init := VisibleIds(notes[..|notes| - 1], uid, now);
      var n := notes[|notes| - 1];
      assert forall k :: 0 <= k < |notes| - 1 ==> notes[..|notes| - 1][k] == notes[k];
      if Visible(n, uid, now) then init + [n.id] else init
  }

  /** Notification ids are unique. */
  predicate IdsDistinct(notes: seq<Notification>)
  {
    forall i, j :: 0 <= i < j < |notes| ==> notes[i].id != notes[j].id
  }

  lemma {:induction false} VisibleIdsDistinct(notes: seq<Notification>, uid: int, now: int)
    requires IdsDistinct(notes)
    ensures Distinct(VisibleIds(notes, uid, now))
  {
    if notes != [] {
      var init := notes[..|notes| - 1];
      VisibleIdsDistinct(init, uid, now);
      var n := notes[|notes| - 1];
      assert forall k :: 0 <= k < |init| ==> init[k] == notes[k] && init[k].id != n.id;
      assert n.id !in VisibleIds(init, uid, now);
    }
  }

  /** The ids of `ids` not in `existing`, in order: `mark_all_read`'s `to_create`. */
  function NewIds(ids: seq<int>, existing: set<int>): seq<int>
  {
    if ids == [] then []
    else NewIds(ids[..|ids| - 1], existing) + (if ids[|ids| - 1] in existing then [] else [ids[|ids| - 1]])
  }

  lemma {:induction false} NewIdsMembers(ids: seq<int>, existing: set<int>, id: int)
    ensures id in NewIds(ids, existing) <==> id in ids && id !in existing
  {
    if ids != [] {
      NewIdsMembers(ids[..|ids| - 1], existing, id);
      assert ids == ids[..|ids| - 1] + [ids[|ids| - 1]];
    }
  }

  lemma {:induction false} NewIdsNone(ids: seq<int>, existing: set<int>)
    requires forall k :: 0 <= k < |ids| ==> ids[k] in existing
    ensures NewIds(ids, existing) == []
  {
    if ids != [] {
      NewIdsNone(ids[..|ids| - 1], existing);
    }
  }

  lemma {:induction false} NewIdsDistinct(ids: seq<int>, existing: set<int>)
    requires Distinct(ids)
    ensures Distinct(NewIds(ids, existing))
  {
    if ids != [] {
      var init := ids[..|ids| - 1];
      NewIdsDistinct(init, existing);
      NewIdsMembers(init, existing, ids[|ids| - 1]);
    }
  }

  /** The notification ids this user has read. */
  function ReadIds(readRows: seq<ReadRow>, uid: int): set<int>
  {
    set r | r in readRows && r.user == uid :: r.notification
  }

  /** One read row for the user per id. */
  function RowsFor(uid: int, ids: seq<int>): (r: seq<ReadRow>)
    ensures |r| == |ids| && forall k :: 0 <= k < |r| ==> r[k] == ReadRow(uid, ids[k])
  {
    seq(|ids|, k requires 0 <= k < |ids| => ReadRow(uid, ids[k]))
  }

  /** The rows `mark_all_read` adds for `uid`. */
  function MarkRows(notes: seq<Notification>, readRows: seq<ReadRow>, uid: int, now: int): seq<ReadRow>
  {
    RowsFor(uid, NewIds(VisibleIds(notes, uid, now), ReadIds(readRows, uid)))
  }

  /**
   * After `mark_all_read` every visible notification is read by the user,
   * and each added row is the user's, for a visible notification the user
   * had not read: other users and invisible notifications are untouched.
   */
  lemma MarkAllReadEffect(notes: seq<Notification>, readRows: seq<ReadRow>, uid: int, now: int)
    ensures forall k :: 0 <= k < |notes| && Visible(notes[k], uid, now) ==>
      IsRead(readRows + MarkRows(notes, readRows, uid, now), uid, notes[k].id)
    ensures forall r :: r in MarkRows(notes, readRows, uid, now) ==>
      r.user == uid && r !in readRows
      && exists k :: 0 <= k < |notes| && notes[k].id == r.notification && Visible(notes[k], uid, now)
  {
    var visible := VisibleIds(notes, uid, now);
    var existing := ReadIds(readRows, uid);
    var added := MarkRows(notes, readRows, uid, now);
    forall k | 0 <= k < |notes| && Visible(notes[k], uid, now)
      ensures IsRead(readRows + added, uid, notes[k].id)
    {
      var id := notes[k].id;
      NewIdsMembers(visible, existing, id);
      if id !in existing {
        var j :| 0 <= j < |NewIds(visible, existing)| && NewIds(visible, existing)[j] == id;
        assert added[j] == ReadRow(uid, id);
      }
    }
    forall r | r in added
      ensures r.user == uid && r !in readRows
      && exists k :: 0 <= k < |notes| && notes[k].id == r.notification && Visible(notes[k], uid, now)
    {
      var j :| 0 <= j < |added| && added[j] == r;
      NewIdsMembers(visible, existing, NewIds(visible, existing)[j]);
    }
  }

  /** A second `mark_all_read` adds nothing. */
  lemma MarkAllReadIdempotent(notes: seq<Notification>, readRows: seq<ReadRow>, uid: int, now: int)
    ensures MarkRows(notes, readRows + MarkRows(notes, readRows, uid, now), uid, now) == []
  {
    var after := readRows + MarkRows(notes, readRows, uid, now);
    MarkAllReadEffect(notes, readRows, uid, now);
    var visible := VisibleIds(notes, uid, now);
    var again := NewIds(visible, ReadIds(after, uid));
    forall i | 0 <= i < |visible|
      ensures visible[i] in ReadIds(after, uid)
    {
      assert visible[i] in visible;
      var k :| 0 <= k < |notes| && notes[k].id == visible[i] && Visible(notes[k], uid, now);
      assert ReadRow(uid, visible[i]) in after;
    }
    NewIdsNone(visible, ReadIds(after, uid));
  }

  /** The added rows keep read rows unique per (user, notification). */
  lemma MarkAllReadKeepsUnique(notes: seq<Notification>, readRows: seq<ReadRow>, uid: int, now: int)
    requires IdsDistinct(notes) && Distinct(readRows)
    ensures Distinct(readRows + MarkRows(notes, readRows, uid, now))
  {
    var visible := VisibleIds(notes, uid, now);
    var ids := NewIds(visible, ReadIds(readRows, uid));
    var added := MarkRows(notes, readRows, uid, now);
    VisibleIdsDistinct(notes, uid, now);
    NewIdsDistinct(visible, ReadIds(readRows, uid));
    MarkAllReadEffect(notes, readRows, uid, now);
    var all := readRows + added;
    forall i, j | 0 <= i < j < |all|
      ensures all[i] != all[j]
    {
      if i >= |readRows| {
        assert all[i] == added[i - |readRows|] && all[j] == added[j - |readRows|];
        assert ids[i - |readRows|] != ids[j - |readRows|];
      } else if j >= |readRows| {
        assert all[j] in added;
      }
    }
  }

  /** The `Notification` and `NotificationRead` tables. */
  class NotificationBoard {
    var notes: seq<Notification>
    var readRows: seq<ReadRow>

    /** Ids are unique and there is at most one read row per (user, notification). */
    ghost predicate Valid()
      reads this
    {
      IdsDistinct(notes) && Distinct(readRows)
    }

    constructor (notes: seq<Notification>)
      requires IdsDistinct(notes)
      ensures Valid() && this.notes == notes && readRows == []
    {
      this.notes := notes;
      readRows := [];
    }

    /** `mark_all_read`: builds `to_create` from the visible ids not yet read, then inserts it. */
    method MarkAllRead(uid: int, now: int)
      requires Valid()
      modifies this
      ensures Valid()
      ensures notes == old(notes)
      ensures readRows == old(readRows) + MarkRows(notes, old(readRows), uid, now)
    {
      var visible := VisibleIds(notes, uid, now);
      var existing := set r | r in readRows && r.user == uid && r.notification in visible :: r.notification;
      ghost var readIds := ReadIds(readRows, uid);
      var toCreate: seq<ReadRow> := [];
      for i := 0 to |visible|
        invariant toCreate == RowsFor(uid, NewIds(visible[..i], readIds))
      {
        assert visible[..i + 1][..i] == visible[..i];
        assert visible[i] in existing <==> visible[i] in readIds;
        if visible[i] !in existing {
          toCreate := toCreate + [ReadRow(uid, visible[i])];
        }
      }
      assert visible[..|visible|] == visible;
      MarkAllReadKeepsUnique(notes, readRows, uid, now);
      if toCreate != [] {
        // bulk_create(ignore_conflicts=True): none of the rows exists yet.
        readRows := readRows + toCreate;
      }
    }
  }
}
