// universities/serializers.py: the payment prompt shown on the dashboard,
// the case-insensitive username check at registration, and the admin's
// edit of a user's subscription fields, both as written (the nested
// payload never reaches `update`) and as intended.
module DashboardSerializers {
  import opened Common
  import opened Text
  import opened Subscription
  import opened PaymentLedger

  /** Superusers, staff and members of the 'admin' group. */
  predicate IsAdmin(u: User)
  {
    u.isSuperuser || u.isStaff || "admin" in u.groups
  }

  /**
   * `get_should_prompt_payment`. `verified` is None for a dashboard read
   * before the `is_verified` column existed; dates are day numbers.
   */
  function ShouldPromptPayment(u: User, verified: Option<bool>, endDate: Option<int>, today: int): bool
  {
    if IsAdmin(u) then false
    else if verified.None? then endDate.None?
    else if verified.value && endDate.Some? && endDate.value >= today then false
    else if endDate.Some? && endDate.value >= today then false
    else true
  }

  /** Admins are never prompted. */
  lemma AdminsNotPrompted(u: User, verified: Option<bool>, endDate: Option<int>, today: int)
    requires IsAdmin(u)
    ensures !ShouldPromptPayment(u, verified, endDate, today)
  {
  }

  /**
   * For everyone else the prompt depends only on the end date: with the
   * flag known, prompt iff there is no end date or it is before today,
   * whatever the flag says; with the flag None, prompt iff there is no end date.
   */
  lemma PromptRule(u: User, verified: Option<bool>, endDate: Option<int>, today: int)
    requires !IsAdmin(u)
    ensures verified.Some? ==>
      (ShouldPromptPayment(u, verified, endDate, today) <==> endDate.None? || endDate.value < today)
    ensures verified.None? ==> (ShouldPromptPayment(u, verified, endDate, today) <==> endDate.None?)
  {
  }

  /** A dashboard that runs to today or later is not prompted, whatever its flag. */
  lemma CurrentNotPrompted(u: User, verified: Option<bool>, end: int, today: int)
    requires end >= today
    ensures !ShouldPromptPayment(u, verified, Some(end), today)
  {
  }

  /** Two names equal when case is ignored (`username__iexact`). */
  predicate SameIgnoringCase(a: string, b: string)
  {
    Lower(a) == Lower(b)
  }

  /** `UserSerializer.validate_username`: taken names are refused, free ones stored lowercased. */
  function ValidateUsername(existing: seq<string>, value: string): (r: Result<string, string>)
    ensures r.Err? <==> exists k :: 0 <= k < |existing| && SameIgnoringCase(existing[k], value)
    ensures r.Err? ==> r.error == "Username taken"
    ensures r.Ok? ==> r.value == Lower(value) && Lower(r.value) == r.value
  {
    LowerIdempotent(value);
    if exists k :: 0 <= k < |existing| && SameIgnoringCase(existing[k], value) then Err("Username taken")
    else Ok(Lower(value))
  }

  /** No two names that clash ignoring case. */
  predicate UniqueIgnoringCase(names: seq<string>)
  {
    forall i, j :: 0 <= i < j < |names| ==> !SameIgnoringCase(names[i], names[j])
  }

  /** Registering only validated names keeps usernames unique ignoring case. */
  lemma ValidatedKeepsUnique(existing: seq<string>, value: string)
    requires UniqueIgnoringCase(existing) && ValidateUsername(existing, value).Ok?
    ensures UniqueIgnoringCase(existing + [ValidateUsername(existing, value).value])
  {
    var v := ValidateUsername(existing, value).value;
    LowerIdempotent(value);
    var all := existing + [v];
    forall i, j | 0 <= i < j < |all|
      ensures !SameIgnoringCase(all[i], all[j])
    {
      if j == |existing| {
        assert all[j] == v && all[i] == existing[i];
        assert !SameIgnoringCase(existing[i], value);
      }
    }
  }

  /**
   * The nested `dashboard` payload of `UserDetailSerializer.update`: None
   * when it is missing or an empty dict; otherwise the two keys it may
   * hold (an end date key present with a null value is `Some(None)`).
   */
  datatype AdminPayload = AdminPayload(status: Option<string>, endDate: Option<Option<int>>)

  /** The dashboard fields after the admin's edit: missing keys keep their values. */
  function AdminEdited(sub: Snapshot, p: AdminPayload): Snapshot
  {
    sub.(status := if p.status.Some? then p.status.value else sub.status,
         endDate := if p.endDate.Some? then p.endDate.value else sub.endDate)
  }

  /**
   * The intended effect of the update on the ledger: with a payload, the
   * dashboard is got or created and the named fields overwritten.
   */
  function AfterAdminUpdate(s: LedgerState, uid: int, payload: Option<AdminPayload>): LedgerState
  {
    if payload.None? then s
    else
      var w := WithDash(s, uid);
      WithSub(w, uid, AdminEdited(w.subs[uid], payload.value))
  }

  /** The intended edit stores the payload's keys on the user's dashboard. */
  lemma AdminUpdateSets(s: LedgerState, uid: int, p: AdminPayload)
    ensures var r := AfterAdminUpdate(s, uid, Some(p));
      uid in r.subs
      && r.subs[uid].status == (if p.status.Some? then p.status.value else SubOr(s.subs, uid).status)
      && r.subs[uid].endDate == (if p.endDate.Some? then p.endDate.value else SubOr(s.subs, uid).endDate)
  {
  }

  /**
   * Where DRF's `set_value` stores a field's validated value: under its
   * source name, or, for `source='*'`, merged key by key into
   * `validated_data` itself.
   */
  datatype FieldSource = Star | Named(name: string)

  /** The declared source of `UserDetailSerializer.dashboard`. */
  const DashboardSource: FieldSource := Star

  /** `validated_data.pop('dashboard', None)`: the payload only when it was stored under 'dashboard'. */
  function PoppedDashboard(src: FieldSource, payload: Option<AdminPayload>): Option<AdminPayload>
  {
    if src == Named("dashboard") then payload else None
  }

  /**
   * `UserDetailSerializer.update` as written, on the ledger: the dashboard
   * part acts on what `pop` returned. The payload's keys were set on the
   * `User` instance instead, where they change nothing the ledger holds.
   */
  function AfterUserUpdate(s: LedgerState, uid: int, payload: Option<AdminPayload>): LedgerState
  {
    AfterAdminUpdate(s, uid, PoppedDashboard(DashboardSource, payload))
  }

  /** As written, no payload changes the ledger. */
  lemma UserUpdateIgnoresPayload(s: LedgerState, uid: int, payload: Option<AdminPayload>)
    ensures AfterUserUpdate(s, uid, payload) == s
  {
  }

  /** So an admin activating an inactive dashboard sees nothing happen, where the intended edit activates it. */
  lemma UserUpdateLosesEdit(s: LedgerState, uid: int)
    requires uid in s.subs && s.subs[uid].status != StatusActive
    ensures AfterUserUpdate(s, uid, Some(AdminPayload(Some(StatusActive), None))).subs[uid].status != StatusActive
    ensures AfterAdminUpdate(s, uid, Some(AdminPayload(Some(StatusActive), None))).subs[uid].status == StatusActive
  {
    UserUpdateIgnoresPayload(s, uid, Some(AdminPayload(Some(StatusActive), None)));
    AdminUpdateSets(s, uid, AdminPayload(Some(StatusActive), None));
  }

  /** A payload naming neither key leaves the subscription as it was (the dashboard is still created). */
  lemma EmptyEditKeeps(sub: Snapshot)
    ensures AdminEdited(sub, AdminPayload(None, None)) == sub
  {
  }

  /** The edit changes nothing but status and end date, for this user only. */
  lemma AdminUpdateIsLocal(s: LedgerState, uid: int, payload: Option<AdminPayload>, v: int)
    requires v != uid
    ensures AfterAdminUpdate(s, uid, payload).payments == s.payments
    ensures AfterAdminUpdate(s, uid, payload).credits == s.credits
    ensures v in s.subs ==> v in AfterAdminUpdate(s, uid, payload).subs
                            && AfterAdminUpdate(s, uid, payload).subs[v] == s.subs[v]
    ensures payload.Some? ==>
      (var r := AfterAdminUpdate(s, uid, payload);
       uid in r.subs && r.subs[uid].(status := SubOr(s.subs, uid).status, endDate := SubOr(s.subs, uid).endDate)
                        == SubOr(s.subs, uid))
  {
  }

  /**
   * The dashboard part of `UserDetailSerializer.update` as intended, with
   * the payload reaching `update` (the user's own fields are left out).
   */
  method AdminUpdate(l: Ledger, uid: int, payload: Option<AdminPayload>)
    requires l.Valid()
    modifies l, l.dashboards.Values
    ensures l.Valid()
    ensures l.State() == AfterAdminUpdate(old(l.State()), uid, payload)
    ensures l.users == old(l.users) && l.drafts == old(l.drafts)
  {
    if payload.Some? {
      var d := l.GetOrCreateDashboard(uid);
      var p := payload.value;
      var status := if p.status.Some? then p.status.value else d.status;
      var endDate := if p.endDate.Some? then p.endDate.value else d.endDate;
      l.SetStatusAndEnd(uid, status, endDate);
    }
  }
}
