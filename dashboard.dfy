// `DashboardView` (universities/views.py:252-501): the reconciliation that
// runs when a user opens the dashboard, and the list edits of `post` and
// `delete`. `now` is the request time in seconds, `today` its day number.
module DashboardView {
  import opened Common
  import opened Subscription
  import opened PaymentLedger

  /** 48 hours in seconds. */
  const RecentWindow: int := 172800
  /** The days a superuser without an end date is granted. */
  const SuperuserGrantDays: int := 365
  /** How many of the user's latest drafts are scanned for a tx_ref. */
  const DraftsScanned: int := 5

  /** The user's payments with status 'success'. */
  function SuccessOf(ps: map<TxRef, Payment>, uid: int): set<TxRef>
  {
    set t | t in ps && ps[t].user == uid && ps[t].status == Success
  }

  /** The user's payments dated within the last 48 hours (or later). */
  function RecentOf(ps: map<TxRef, Payment>, uid: int, now: int): set<TxRef>
  {
    set t | t in ps && ps[t].user == uid && ps[t].paidAt >= now - RecentWindow
  }

  /** The email of the payment's owner, if the owner exists. */
  function OwnerEmail(users: seq<User>, id: int): Option<string>
  {
    match FindById(users, id)
    case Some(u) => Some(u.email)
    case None => None
  }

  /** Anyone's payments within the last 48 hours whose owner has the given email. */
  function SameEmailRecent(ps: map<TxRef, Payment>, users: seq<User>, email: string, now: int): set<TxRef>
  {
    set t | t in ps && ps[t].paidAt >= now - RecentWindow && OwnerEmail(users, ps[t].user) == Some(email)
  }

  /** `tx` is a latest member of `c` by `payment_date` (the first row under the ordering `-payment_date`). */
  predicate Latest(ps: map<TxRef, Payment>, c: set<TxRef>, tx: TxRef)
  {
    c <= ps.Keys && tx in c && forall t :: t in c ==> ps[t].paidAt <= ps[tx].paidAt
  }

  /** The first row of `c` ordered by `-payment_date`; rows with equal dates may come in any order. */
  method LatestOf(ps: map<TxRef, Payment>, c: set<TxRef>) returns (r: Option<TxRef>)
    requires c <= ps.Keys
    ensures r.None? <==> c == {}
    ensures r.Some? ==> Latest(ps, c, r.value)
  {
    r := None;
    var rest := c;
    while rest != {}
      invariant rest <= c
      invariant r.None? ==> rest == c
      invariant r.Some? ==> r.value in c && forall t :: t in c - rest ==> ps[t].paidAt <= ps[r.value].paidAt
      decreases rest
    {
      var t :| t in rest;
      if r.None? || ps[t].paidAt > ps[r.value].paidAt {
        r := Some(t);
      }
      rest := rest - {t};
    }
  }

  /** The drafts with this email, newest first (drafts are kept in creation order). */
  function NewestFirst(ds: seq<Draft>, email: string): (r: seq<Draft>)
    ensures |r| <= |ds|
    ensures forall k :: 0 <= k < |r| ==> r[k].email == email
  {
    if ds == [] then []
    else (if ds[|ds| - 1].email == email then [ds[|ds| - 1]] else []) + NewestFirst(ds[..|ds| - 1], email)
  }

  /** `ApplicationDraft.objects.filter(email=email).order_by('-created_at')[:5]`. */
  function RecentDrafts(ds: seq<Draft>, email: string): seq<Draft>
  {
    var m := NewestFirst(ds, email);
    if |m| <= DraftsScanned then m else m[..DraftsScanned]
  }

  /** The first non-empty `payment_tx_ref` of the drafts, in order. */
  function FirstTxRef(ds: seq<Draft>): (r: Option<string>)
    ensures r.Some? ==> r.value != "" && exists k :: 0 <= k < |ds| && ds[k].txRef == r.value
    ensures r.None? <==> forall k :: 0 <= k < |ds| ==> ds[k].txRef == ""
  {
    if ds == [] then None
    else if ds[0].txRef != "" then Some(ds[0].txRef)
    else FirstTxRef(ds[1..])
  }

  lemma {:induction false} NewestFirstSplit(ds: seq<Draft>, email: string, i: nat)
    requires i <= |ds|
    ensures NewestFirst(ds, email) == NewestFirst(ds[i..], email) + NewestFirst(ds[..i], email)
    decreases |ds|
  {
    if i == |ds| {
      assert ds[i..] == [] && ds[..i] == ds;
    } else {
      var front := ds[..|ds| - 1];
      NewestFirstSplit(front, email, i);
      assert front[..i] == ds[..i];
      assert ds[i..][..|ds[i..]| - 1] == front[i..];
    }
  }

  lemma {:induction false} FirstTxRefAfter(p: seq<Draft>, d: Draft, rest: seq<Draft>)
    requires FirstTxRef(p) == None && d.txRef != ""
    ensures FirstTxRef(p + [d] + rest) == Some(d.txRef)
  {
    if p != [] {
      assert (p + [d] + rest)[1..] == p[1..] + [d] + rest;
      FirstTxRefAfter(p[1..], d, rest);
    }
  }

  /** One more, older, draft scanned. */
  lemma NewestFirstStep(drafts: seq<Draft>, email: string, i: nat)
    requires 0 < i <= |drafts|
    ensures NewestFirst(drafts[i - 1..], email)
      == NewestFirst(drafts[i..], email) + (if drafts[i - 1].email == email then [drafts[i - 1]] else [])
  {
    NewestFirstSplit(drafts[i - 1..], email, 1);
    assert drafts[i - 1..][1..] == drafts[i..] && drafts[i - 1..][..1] == [drafts[i - 1]];
    assert NewestFirst([drafts[i - 1]][..0], email) == [];
  }

  /** The loop found its draft within the first five. */
  lemma FoundInRecent(drafts: seq<Draft>, email: string, i: nat)
    requires 0 < i <= |drafts| && drafts[i - 1].email == email && drafts[i - 1].txRef != ""
    requires |NewestFirst(drafts[i..], email)| < DraftsScanned
    requires FirstTxRef(NewestFirst(drafts[i..], email)) == None
    ensures FirstTxRef(RecentDrafts(drafts, email)) == Some(drafts[i - 1].txRef)
  {
    var d := drafts[i - 1];
    var p := NewestFirst(drafts[i..], email);
    NewestFirstStep(drafts, email, i);
    NewestFirstSplit(drafts, email, i - 1);
    var m := NewestFirst(drafts, email);
    assert m == p + [d] + NewestFirst(drafts[..i - 1], email);
    var r := RecentDrafts(drafts, email);
    assert r == p + [d] + r[|p| + 1..];
    FirstTxRefAfter(p, d, r[|p| + 1..]);
  }

  /** The loop ran out of drafts, or scanned five, without a tx_ref. */
  lemma NoneInRecent(drafts: seq<Draft>, email: string, i: nat)
    requires i <= |drafts|
    requires i == 0 || |NewestFirst(drafts[i..], email)| == DraftsScanned
    requires FirstTxRef(NewestFirst(drafts[i..], email)) == None
    ensures FirstTxRef(RecentDrafts(drafts, email)) == None
  {
    NewestFirstSplit(drafts, email, i);
    if i == 0 {
      assert drafts[i..] == drafts;
    } else {
      assert RecentDrafts(drafts, email) == NewestFirst(drafts[i..], email);
    }
  }

  /**
   * The draft loop (universities/views.py:335-361): among the user's five
   * latest drafts, newest first, the first with a non-empty tx_ref.
   */
  method FindDraftTxRef(drafts: seq<Draft>, email: string) returns (r: Option<string>)
    ensures r == FirstTxRef(RecentDrafts(drafts, email))
  {
    var i := |drafts|;
    var seen := 0;
    while i > 0 && seen < DraftsScanned
      invariant 0 <= i <= |drafts|
      invariant seen == |NewestFirst(drafts[i..], email)| <= DraftsScanned
      invariant FirstTxRef(NewestFirst(drafts[i..], email)) == None
    {
      var d := drafts[i - 1];
      if d.email == email && d.txRef != "" {
        FoundInRecent(drafts, email, i);
        return Some(d.txRef);
      }
      NewestFirstStep(drafts, email, i);
      i := i - 1;
      if d.email == email {
        seen := seen + 1;
      }
    }
    NoneInRecent(drafts, email, i);
    return None;
  }

  /** The payment `get` reconciles, and where it came from. */
  datatype Pick = NoPick | Paid(tx: TxRef) | Recent(tx: TxRef) | FromDraft(tx: TxRef)

  /**
   * The choice of `payment_to_use` (universities/views.py:275-361) given the
   * dashboard's status: the latest successful payment; else the latest
   * recent one, or else the latest recent payment of anyone with the same
   * email; else, for a dashboard with status 'none', the drafts' tx_ref.
   */
  predicate Picked(ps: map<TxRef, Payment>, users: seq<User>, drafts: seq<Draft>, user: User,
                   status: string, now: int, pick: Pick)
  {
    var paid := SuccessOf(ps, user.id);
    var recent := RecentOf(ps, user.id, now);
    var byEmail := SameEmailRecent(ps, users, user.email, now);
    match pick
    case Paid(tx) => Latest(ps, paid, tx)
    case Recent(tx) =>
      paid == {} && (if recent != {} then Latest(ps, recent, tx) else Latest(ps, byEmail, tx))
    case FromDraft(tx) =>
      paid == {} && recent == {} && byEmail == {}
      && status == StatusNone && FirstTxRef(RecentDrafts(drafts, user.email)) == Some(tx)
    case NoPick =>
      paid == {} && recent == {} && byEmail == {}
      && (status != StatusNone || FirstTxRef(RecentDrafts(drafts, user.email)).None?)
  }

  method ChoosePayment(ps: map<TxRef, Payment>, users: seq<User>, drafts: seq<Draft>, user: User,
                       status: string, now: int) returns (pick: Pick)
    ensures Picked(ps, users, drafts, user, status, now, pick)
  {
    var paid := LatestOf(ps, SuccessOf(ps, user.id));
    if paid.Some? {
      return Paid(paid.value);
    }
    var recent := LatestOf(ps, RecentOf(ps, user.id, now));
    if recent.Some? {
      return Recent(recent.value);
    }
    var byEmail := LatestOf(ps, SameEmailRecent(ps, users, user.email, now));
    if byEmail.Some? {
      return Recent(byEmail.value);
    }
    if status == StatusNone {
      var t := FindDraftTxRef(drafts, user.email);
      if t.Some? {
        return FromDraft(t.value);
      }
    }
    return NoPick;
  }

  /** A picked successful or recent payment is an existing row. */
  lemma PickedIsRow(ps: map<TxRef, Payment>, users: seq<User>, drafts: seq<Draft>, user: User,
                    status: string, now: int, pick: Pick)
    requires Picked(ps, users, drafts, user, status, now, pick)
    ensures (pick.Paid? || pick.Recent?) ==> pick.tx in ps
  {
  }

  /** A 'success' payment is always preferred over a merely recent one. */
  lemma SuccessPreferred(ps: map<TxRef, Payment>, users: seq<User>, drafts: seq<Draft>, user: User,
                         status: string, now: int, pick: Pick)
    requires Picked(ps, users, drafts, user, status, now, pick)
    ensures pick.Paid? <==> exists t :: t in ps && ps[t].user == user.id && ps[t].status == Success
    ensures pick.Paid? ==> ps[pick.tx].status == Success && ps[pick.tx].user == user.id
  {
    if pick.Paid? {
      assert pick.tx in SuccessOf(ps, user.id);
    } else {
      assert SuccessOf(ps, user.id) == {};
      forall t | t in ps && ps[t].user == user.id
        ensures ps[t].status != Success
      {
        assert t !in SuccessOf(ps, user.id);
      }
    }
  }

  /** The 48-hour promotion of a merely recent payment (universities/views.py:323-328). */
  function Promoted(s: LedgerState, tx: TxRef, now: int): (r: LedgerState)
    requires tx in s.payments
    ensures r.subs == s.subs && r.lists == s.lists && r.credits == s.credits
    ensures r.payments.Keys == s.payments.Keys
    ensures r.payments[tx].subscriptionUpdated == s.payments[tx].subscriptionUpdated
    ensures r.payments[tx].amount == s.payments[tx].amount
    ensures r.payments[tx].status == Success
      <==> s.payments[tx].status == Success || now - s.payments[tx].paidAt < RecentWindow
  {
    var p := s.payments[tx];
    if now - p.paidAt < RecentWindow && p.status != Success then WithStatus(s, tx, Success) else s
  }

  /** The row the draft branch uses: the existing one, or a new 500 'success' row (universities/views.py:344-361). */
  function WithDraftPayment(s: LedgerState, uid: int, tx: TxRef, now: int): (r: LedgerState)
    ensures tx in r.payments && r.subs == s.subs && r.lists == s.lists && r.credits == s.credits
    ensures tx in s.payments ==> r == s
    ensures tx !in s.payments ==> !r.payments[tx].subscriptionUpdated
  {
    if tx in s.payments then s
    else Inserted(s, tx, Payment(uid, MonthlyPrice, Success, now, "", false))
  }

  /**
   * The apply stage (universities/views.py:369-421): an unapplied payment is
   * credited, through `update_subscription` or, for a row the draft branch
   * has just created with a float amount, through the fallback; an applied
   * one only repairs a dashboard that is not active.
   */
  function Reconciled(s: LedgerState, uid: int, tx: TxRef, fallback: bool, today: int): LedgerState
    requires tx in s.payments && uid in s.subs
  {
    var p := s.payments[tx];
    var sub := s.subs[uid];
    if !p.subscriptionUpdated then
      if fallback then Settled(s, tx, uid, MonthlyPrice, AfterFallback(sub, MonthlyPrice, today))
      else Settled(s, tx, uid, p.amount, AfterUpdate(sub, p.amount, MonthlyPrice, today).0)
    else if sub.status != StatusActive then WithSub(s, uid, Reactivated(sub, today, DaysPerMonth))
    else s
  }

  /** The state after the pick is applied to a dashboard that exists. */
  function AfterPick(s: LedgerState, uid: int, pick: Pick, now: int, today: int): LedgerState
    requires uid in s.subs
    requires (pick.Paid? || pick.Recent?) ==> pick.tx in s.payments
  {
    match pick
    case NoPick => s
    case Paid(tx) => Reconciled(s, uid, tx, false, today)
    case Recent(tx) => Reconciled(Promoted(s, tx, now), uid, tx, false, today)
    case FromDraft(tx) => Reconciled(WithDraftPayment(s, uid, tx, now), uid, tx, tx !in s.payments, today)
  }

  /** The state after a non-superuser's `get`, given the pick. */
  function AfterLoad(s: LedgerState, user: User, pick: Pick, now: int, today: int): LedgerState
    requires (pick.Paid? || pick.Recent?) ==> pick.tx in s.payments
  {
    AfterPick(WithDash(s, user.id), user.id, pick, now, today)
  }

  /** The state after a superuser's `get` (universities/views.py:260-269). */
  function AfterSuperuserLoad(s: LedgerState, uid: int, today: int): LedgerState
  {
    var s1 := WithDash(s, uid);
    var sub := s1.subs[uid];
    if sub.status != StatusActive || !sub.verified then WithSub(s1, uid, Reactivated(sub, today, SuperuserGrantDays))
    else s1
  }

  /** `DashboardView.get` up to the serializer. */
  method Load(l: Ledger, user: User, now: int, today: int) returns (pick: Pick)
    requires l.Valid()
    modifies l, l.dashboards.Values
    ensures l.Valid()
    ensures l.users == old(l.users) && l.drafts == old(l.drafts)
    ensures user.isSuperuser ==> pick == NoPick && l.State() == AfterSuperuserLoad(old(l.State()), user.id, today)
    ensures !user.isSuperuser ==>
      Picked(old(l.payments), old(l.users), old(l.drafts), user, SubOr(old(l.subs), user.id).status, now, pick)
      && l.State() == AfterLoad(old(l.State()), user, pick, now, today)
  {
    if user.isSuperuser {
      LoadSuperuser(l, user.id, today);
      return NoPick;
    }
    var d := l.GetOrCreateDashboard(user.id);
    pick := ChoosePayment(l.payments, l.users, l.drafts, user, d.status, now);
    PickedIsRow(l.payments, l.users, l.drafts, user, d.status, now, pick);
    ApplyPick(l, user.id, pick, now, today);
  }

  method LoadSuperuser(l: Ledger, uid: int, today: int)
    requires l.Valid()
    modifies l, l.dashboards.Values
    ensures l.Valid()
    ensures l.users == old(l.users) && l.drafts == old(l.drafts)
    ensures l.State() == AfterSuperuserLoad(old(l.State()), uid, today)
  {
    var d := l.GetOrCreateDashboard(uid);
    if d.status != StatusActive || !d.isVerified {
      l.Repair(uid, today, SuperuserGrantDays);
    }
  }

  method ApplyPick(l: Ledger, uid: int, pick: Pick, now: int, today: int)
    requires l.Valid() && uid in l.dashboards
    requires (pick.Paid? || pick.Recent?) ==> pick.tx in l.payments
    modifies l, l.dashboards.Values
    ensures l.Valid()
    ensures l.users == old(l.users) && l.drafts == old(l.drafts)
    ensures uid in old(l.subs) && l.State() == AfterPick(old(l.State()), uid, pick, now, today)
  {
    match pick {
      case NoPick =>
      case Paid(tx) =>
        Reconcile(l, uid, tx, false, today);
      case Recent(tx) =>
        Promote(l, tx, now);
        Reconcile(l, uid, tx, false, today);
      case FromDraft(tx) =>
        var created := tx !in l.payments;
        if created {
          l.AddPayment(tx, Payment(uid, MonthlyPrice, Success, now, "", false));
        }
        Reconcile(l, uid, tx, created, today);
    }
  }

  method Promote(l: Ledger, tx: TxRef, now: int)
    requires l.Valid() && tx in l.payments
    modifies l
    ensures l.Valid()
    ensures l.dashboards == old(l.dashboards) && l.users == old(l.users) && l.drafts == old(l.drafts)
    ensures l.State() == Promoted(old(l.State()), tx, now)
  {
    var p := l.payments[tx];
    if now - p.paidAt < RecentWindow && p.status != Success {
      l.SetStatus(tx, Success);
    }
  }

  method Reconcile(l: Ledger, uid: int, tx: TxRef, fallback: bool, today: int)
    requires l.Valid() && uid in l.dashboards && tx in l.payments
    modifies l, l.dashboards.Values
    ensures l.Valid()
    ensures l.users == old(l.users) && l.drafts == old(l.drafts)
    ensures uid in old(l.subs) && l.State() == Reconciled(old(l.State()), uid, tx, fallback, today)
  {
    var p := l.payments[tx];
    var d := l.dashboards[uid];
    if !p.subscriptionUpdated {
      if fallback {
        l.CreditByFallback(tx, uid, MonthlyPrice, today);
      } else {
        var _ := l.CreditByUpdate(tx, uid, p.amount, today);
      }
    } else if d.status != StatusActive {
      l.Repair(uid, today, DaysPerMonth);
    }
  }

  /** The apply stage sets the flag, and a second apply of the same payment credits nothing. */
  lemma ReconcileOnce(s: LedgerState, uid: int, tx: TxRef, fallback: bool, today: int)
    requires tx in s.payments && uid in s.subs
    ensures var r := Reconciled(s, uid, tx, fallback, today);
      tx in r.payments && r.payments[tx].subscriptionUpdated && uid in r.subs
      && Reconciled(r, uid, tx, fallback, today).credits == r.credits
      && Reconciled(r, uid, tx, fallback, today).subs[uid].totalPaid == r.subs[uid].totalPaid
  {
  }

  /** Loading one user's dashboard changes no other user's subscription fields or lists. */
  lemma LoadIsLocal(s: LedgerState, user: User, pick: Pick, now: int, today: int, v: int)
    requires (pick.Paid? || pick.Recent?) ==> pick.tx in s.payments
    requires v != user.id && v in s.subs && v in s.lists
    ensures v in AfterLoad(s, user, pick, now, today).subs
    ensures AfterLoad(s, user, pick, now, today).subs[v] == s.subs[v]
    ensures AfterLoad(s, user, pick, now, today).lists[v] == s.lists[v]
  {
  }

  /** The body of a list edit: `university_id` and `list_name`, None when absent. */
  datatype ListEdit = ListEdit(universityId: Option<int>, listName: Option<string>)

  const FieldsRequired: string := "university_id and list_name are required"
  const UniversityNotFound: string := "University not found"
  const InvalidListPrefix: string := "Invalid list name: "

  /**
   * The checks of `post` and `delete` in the source's order
   * (universities/views.py:455-467, 483-495): both fields truthy, the
   * university exists, the list name is one of the five.
   */
  function EditTarget(universities: set<int>, req: ListEdit): (r: Result<(int, ListName), Reply>)
    ensures r == Err(Reply(400, FieldsRequired))
      <==> req.universityId.None? || req.universityId.value == 0 || !Truthy(req.listName)
    ensures r == Err(Reply(404, UniversityNotFound))
      <==> req.universityId.Some? && req.universityId.value != 0 && Truthy(req.listName)
           && req.universityId.value !in universities
    ensures r.Ok? <==>
      (req.universityId.Some? && req.universityId.value in universities - {0}
       && Truthy(req.listName) && ListNamed(req.listName.value).Some?)
    ensures r.Ok? ==> r.value == (req.universityId.value, ListNamed(req.listName.value).value)
    ensures r.Err? && r.error.code == 400 && r.error.text != FieldsRequired ==>
      r.error.text == InvalidListPrefix + req.listName.value && ListNamed(req.listName.value).None?
  {
    if req.universityId.None? || req.universityId.value == 0 || !Truthy(req.listName) then
      Err(Reply(400, FieldsRequired))
    else if req.universityId.value !in universities then
      Err(Reply(404, UniversityNotFound))
    else
      match ListNamed(req.listName.value)
      case None =>
        assert (InvalidListPrefix + req.listName.value)[0] != FieldsRequired[0];
        Err(Reply(400, InvalidListPrefix + req.listName.value))
      case Some(name) => Ok((req.universityId.value, name))
  }

  /** `getattr(dashboard, list_name).add(university)` or `.remove(university)`. */
  function ListEdited(s: LedgerState, uid: int, name: ListName, id: int, add: bool): LedgerState
    requires uid in s.lists
  {
    var old_ := s.lists[uid].Get(name);
    WithLists(s, uid, s.lists[uid].Set(name, if add then old_ + {id} else old_ - {id}))
  }

  /** `DashboardView.post` (`add`) and `DashboardView.delete` (not `add`) for the user `uid`. */
  method EditList(l: Ledger, uid: int, universities: set<int>, req: ListEdit, add: bool) returns (reply: Reply)
    requires l.Valid()
    modifies l, l.dashboards.Values
    ensures l.Valid()
    ensures l.users == old(l.users) && l.drafts == old(l.drafts)
    ensures EditTarget(universities, req).Err? ==>
      reply == EditTarget(universities, req).error && l.State() == WithDash(old(l.State()), uid)
    ensures EditTarget(universities, req).Ok? ==>
      var (id, name) := EditTarget(universities, req).value;
      reply == Reply(200, "") && l.State() == ListEdited(WithDash(old(l.State()), uid), uid, name, id, add)
  {
    var d := l.GetOrCreateDashboard(uid);
    var target := EditTarget(universities, req);
    if target.Err? {
      return target.error;
    }
    var (id, name) := target.value;
    var current := d.AllLists().Get(name);
    l.SetList(uid, name, if add then current + {id} else current - {id});
    return Reply(200, "");
  }

  /** An edit changes one list of one user: the university is then in it (add) or not (remove). */
  lemma EditIsLocal(s: LedgerState, uid: int, name: ListName, id: int, add: bool)
    requires uid in s.lists
    ensures var r := ListEdited(s, uid, name, id, add);
      r.subs == s.subs && r.payments == s.payments && r.credits == s.credits
      && r.lists.Keys == s.lists.Keys
      && (forall v :: v in s.lists && v != uid ==> r.lists[v] == s.lists[v])
      && (forall other :: other != name ==> r.lists[uid].Get(other) == s.lists[uid].Get(other))
      && (id in r.lists[uid].Get(name) <==> add)
      && r.lists[uid].Get(name) - {id} == s.lists[uid].Get(name) - {id}
  {
  }

  /** Removing a university that an add has just put in restores the lists, if it was not there before. */
  lemma {:induction false} AddThenRemove(s: LedgerState, uid: int, name: ListName, id: int)
    requires uid in s.lists && id !in s.lists[uid].Get(name)
    ensures ListEdited(ListEdited(s, uid, name, id, true), uid, name, id, false) == s
  {
    var ls := s.lists[uid];
    var back := ListEdited(ListEdited(s, uid, name, id, true), uid, name, id, false);
    assert (ls.Get(name) + {id}) - {id} == ls.Get(name);
    ls.SetSame(name);
    assert back.lists[uid] == ls;
    assert back.lists == s.lists;
  }

  /** Adding twice is adding once; removing twice is removing once. */
  lemma EditIdempotent(s: LedgerState, uid: int, name: ListName, id: int, add: bool)
    requires uid in s.lists
    ensures ListEdited(ListEdited(s, uid, name, id, add), uid, name, id, add) == ListEdited(s, uid, name, id, add)
  {
    var once := ListEdited(s, uid, name, id, add);
    var x := once.lists[uid].Get(name);
    assert (if add then x + {id} else x - {id}) == x;
    once.lists[uid].SetSame(name);
    assert once.lists[uid := once.lists[uid]] == once.lists;
  }
}
