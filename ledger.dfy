// The payment ledger behind the subscription routes: users, their
// dashboards, and the `Payment` rows keyed by the unique `tx_ref`
// (payments/models.py:5-16). Every route that credits a payment to a
// dashboard does so through `Ledger.CreditByUpdate` or
// `Ledger.CreditByFallback`, which record the credit in a ghost log; the
// ledger's invariant says that each tx_ref is credited at most once and
// that every dashboard's `total_paid` is the sum of its credits.
module PaymentLedger {
  import opened Common
  import opened Subscription

  type TxRef = string

  const Success: string := "success"
  const Pending: string := "pending"

  /** The fields of Django's `User` that the routes read; `groups` are group names. */
  datatype User = User(
    id: int,
    username: string,
    email: string,
    firstName: string,
    lastName: string,
    isSuperuser: bool,
    isStaff: bool,
    groups: set<string>)

  /** A `Payment` row without its key; `paidAt` is `payment_date` in seconds. */
  datatype Payment = Payment(
    user: int,
    amount: int,
    status: string,
    paidAt: int,
    reference: string,
    subscriptionUpdated: bool)

  /** An `ApplicationDraft` as far as the dashboard reads it. */
  datatype Draft = Draft(email: string, txRef: string)

  /** One application of a payment to a user's `total_paid`. */
  datatype Credit = Credit(tx: TxRef, user: int, amount: int)

  /** The sum of the amounts credited to user `u`. */
  function Credited(log: seq<Credit>, u: int): int
  {
    if log == [] then 0
    else Credited(log[..|log| - 1], u) + (if log[|log| - 1].user == u then log[|log| - 1].amount else 0)
  }

  lemma CreditedAppend(log: seq<Credit>, c: Credit, u: int)
    ensures Credited(log + [c], u) == Credited(log, u) + (if c.user == u then c.amount else 0)
  {
    assert (log + [c])[..|log|] == log;
  }

  lemma {:induction false} CreditedNone(log: seq<Credit>, u: int)
    requires forall i :: 0 <= i < |log| ==> log[i].user != u
    ensures Credited(log, u) == 0
  {
    if log != [] {
      CreditedNone(log[..|log| - 1], u);
    }
  }

  /** No tx_ref occurs twice in the log. */
  predicate TxsDistinct(log: seq<Credit>)
  {
    forall i, j :: 0 <= i < j < |log| ==> log[i].tx != log[j].tx
  }

  /** `User.objects.filter(email=email).first()`: the first user in primary-key order. */
  function FirstByEmail(users: seq<User>, email: string): (r: Option<User>)
    ensures r.Some? ==> r.value in users && r.value.email == email
    ensures r.None? ==> forall k :: 0 <= k < |users| ==> users[k].email != email
  {
    if users == [] then None
    else if users[0].email == email then Some(users[0])
    else FirstByEmail(users[1..], email)
  }

  /** `User.objects.get(id=id)`, None for DoesNotExist. */
  function FindById(users: seq<User>, id: int): (r: Option<User>)
    ensures r.Some? ==> r.value in users && r.value.id == id
    ensures r.None? ==> forall k :: 0 <= k < |users| ==> users[k].id != id
  {
    if users == [] then None
    else if users[0].id == id then Some(users[0])
    else FindById(users[1..], id)
  }

  /** The snapshot of `u`'s dashboard, or a fresh dashboard's when it has none. */
  function SubOr(subs: map<int, Snapshot>, u: int): Snapshot
  {
    if u in subs then subs[u] else Snapshot(0, 0, StatusNone, None, false)
  }

  /** The lists after `get_or_create` of `u`'s dashboard. */
  function WithDashboard(ls: map<int, Lists>, u: int): map<int, Lists>
  {
    if u in ls then ls else ls[u := NoLists]
  }

  /** Everything a route can change, as values. */
  datatype LedgerState = LedgerState(
    payments: map<TxRef, Payment>,
    subs: map<int, Snapshot>,
    lists: map<int, Lists>,
    credits: seq<Credit>)

  /** A new `Payment` row under `tx`. */
  function Inserted(s: LedgerState, tx: TxRef, p: Payment): LedgerState
  {
    s.(payments := s.payments[tx := p])
  }

  /** `get_or_create` of `u`'s dashboard. */
  function WithDash(s: LedgerState, u: int): (r: LedgerState)
    ensures u in r.subs && r.subs[u] == SubOr(s.subs, u) && u in r.lists
  {
    s.(subs := s.subs[u := SubOr(s.subs, u)], lists := WithDashboard(s.lists, u))
  }

  /** `u`'s subscription fields replaced by `sub`. */
  function WithSub(s: LedgerState, u: int, sub: Snapshot): LedgerState
  {
    s.(subs := s.subs[u := sub])
  }

  /** The payment `tx` credited to `u` with `amount`, leaving `u`'s subscription as `sub`. */
  function Settled(s: LedgerState, tx: TxRef, u: int, amount: int, sub: Snapshot): LedgerState
    requires tx in s.payments
  {
    s.(payments := s.payments[tx := s.payments[tx].(subscriptionUpdated := true)],
       subs := s.subs[u := sub],
       credits := s.credits + [Credit(tx, u, amount)])
  }

  /** `u`'s lists replaced by `ls`. */
  function WithLists(s: LedgerState, u: int, ls: Lists): LedgerState
  {
    s.(lists := s.lists[u := ls])
  }

  /** The payment `tx` with its status set. */
  function WithStatus(s: LedgerState, tx: TxRef, status: string): LedgerState
    requires tx in s.payments
  {
    s.(payments := s.payments[tx := s.payments[tx].(status := status)])
  }

  class Ledger {
    var users: seq<User>
    var dashboards: map<int, UserDashboard>
    var payments: map<TxRef, Payment>
    /** Application drafts in creation order. */
    var drafts: seq<Draft>
    /** The subscription fields and the lists of every dashboard, as values. */
    ghost var subs: map<int, Snapshot>
    ghost var lists: map<int, Lists>
    /** Every credit ever made, in order. */
    ghost var credits: seq<Credit>

    ghost predicate Valid()
      reads this, dashboards.Values
    {
      Tie() && Books()
    }

    /** Distinct users have distinct dashboard objects, mirrored by `subs` and `lists`. */
    ghost predicate Tie()
      reads this`dashboards, this`subs, this`lists, dashboards.Values
    {
      (forall u, v :: u in dashboards && v in dashboards && u != v ==> dashboards[u] != dashboards[v])
      && subs.Keys == dashboards.Keys && lists.Keys == dashboards.Keys
      && (forall u :: u in dashboards ==> dashboards[u].Snap() == subs[u] && dashboards[u].AllLists() == lists[u])
    }

    /** The books balance: each tx_ref is credited at most once, only once flagged, and
        every dashboard's `total_paid` is the sum of its credits. */
    ghost predicate Books()
      reads this`payments, this`credits, this`subs
    {
      TxsDistinct(credits)
      && (forall i :: 0 <= i < |credits| ==>
            credits[i].tx in payments && payments[credits[i].tx].subscriptionUpdated
            && credits[i].user in subs)
      && (forall u :: u in subs ==> subs[u].totalPaid == Credited(credits, u))
    }

    ghost function State(): LedgerState
      reads this
    {
      LedgerState(payments, subs, lists, credits)
    }

    /** `tx` has not been credited yet. */
    ghost predicate NotCredited(tx: TxRef)
      reads this
    {
      forall i :: 0 <= i < |credits| ==> credits[i].tx != tx
    }

    constructor (users: seq<User>, drafts: seq<Draft>)
      ensures Valid()
      ensures this.users == users && this.drafts == drafts
      ensures dashboards == map[] && payments == map[]
      ensures subs == map[] && lists == map[] && credits == []
    {
      this.users := users;
      this.drafts := drafts;
      dashboards := map[];
      payments := map[];
      subs := map[];
      lists := map[];
      credits := [];
    }

    /** `UserDashboard.objects.get_or_create(user=u)`. */
    method GetOrCreateDashboard(u: int) returns (d: UserDashboard)
      requires Valid()
      modifies this
      ensures Valid()
      ensures u in dashboards && d == dashboards[u] && d.Snap() == SubOr(old(subs), u) && d.AllLists() == lists[u]
      ensures old(u in dashboards) ==> dashboards == old(dashboards)
      ensures !old(u in dashboards) ==> fresh(d) && dashboards == old(dashboards)[u := d]
      ensures State() == WithDash(old(State()), u)
      ensures users == old(users) && drafts == old(drafts)
    {
      if u in dashboards {
        d := dashboards[u];
      } else {
        d := CreateDashboard(u);
      }
    }

    /** The create half of `get_or_create`: a dashboard with the model's defaults. */
    method CreateDashboard(u: int) returns (d: UserDashboard)
      requires Valid() && u !in dashboards
      modifies this
      ensures Valid()
      ensures fresh(d) && dashboards == old(dashboards)[u := d]
      ensures subs == old(subs)[u := Snapshot(0, 0, StatusNone, None, false)]
      ensures lists == old(lists)[u := NoLists]
      ensures users == old(users) && drafts == old(drafts)
      ensures payments == old(payments) && credits == old(credits)
    {
      d := new UserDashboard();
      dashboards := dashboards[u := d];
      subs := subs[u := d.Snap()];
      lists := lists[u := d.AllLists()];
      TieAfterCreate(u);
      BooksAfterCreate(u);
    }

    /** Inserts a new `Payment` row. */
    method AddPayment(tx: TxRef, p: Payment)
      requires Valid() && tx !in payments
      modifies this
      ensures Valid() && NotCredited(tx)
      ensures State() == Inserted(old(State()), tx, p)
      ensures dashboards == old(dashboards)
      ensures users == old(users) && drafts == old(drafts)
    {
      payments := payments[tx := p];
      BooksAfterPayments();
    }

    /** Sets a payment's status and saves it. */
    method SetStatus(tx: TxRef, status: string)
      requires Valid() && tx in payments
      modifies this
      ensures Valid()
      ensures State() == WithStatus(old(State()), tx, status)
      ensures dashboards == old(dashboards)
      ensures users == old(users) && drafts == old(drafts)
    {
      payments := payments[tx := payments[tx].(status := status)];
      BooksAfterPayments();
    }

    /** The ghost bookkeeping of a credit of `amount` from `tx` to `u`, once the dashboard has changed. */
    method Record(tx: TxRef, u: int, s: Snapshot, amount: int)
      requires tx in payments && NotCredited(tx) && u in subs
      requires Books()
      requires s.totalPaid == subs[u].totalPaid + amount
      modifies this
      ensures Books()
      ensures payments == old(payments)[tx := old(payments[tx]).(subscriptionUpdated := true)]
      ensures credits == old(credits) + [Credit(tx, u, amount)]
      ensures subs == old(subs)[u := s]
      ensures dashboards == old(dashboards) && lists == old(lists)
      ensures users == old(users) && drafts == old(drafts)
    {
      payments := payments[tx := payments[tx].(subscriptionUpdated := true)];
      credits := credits + [Credit(tx, u, amount)];
      subs := subs[u := s];
      forall v | v in subs ensures subs[v].totalPaid == Credited(credits, v) {
        CreditedAppend(old(credits), Credit(tx, u, amount), v);
      }
    }

    /** `update_subscription(amount, 500)` on `u`'s dashboard, then `subscription_updated = True`. */
    method CreditByUpdate(tx: TxRef, u: int, amount: int, today: int) returns (monthsAdded: int)
      requires Valid() && u in dashboards && tx in payments && NotCredited(tx)
      modifies this, dashboards[u]
      ensures Valid()
      ensures State() == Settled(old(State()), tx, u, amount, AfterUpdate(old(subs[u]), amount, MonthlyPrice, today).0)
      ensures monthsAdded == AfterUpdate(old(subs[u]), amount, MonthlyPrice, today).1
      ensures dashboards == old(dashboards)
      ensures users == old(users) && drafts == old(drafts)
    {
      var d := dashboards[u];
      monthsAdded := d.UpdateSubscription(amount, MonthlyPrice, today);
      Record(tx, u, d.Snap(), amount);
      TieAfter(u);
    }

    /** The fallback field update with `amount` and one month on `u`'s dashboard, then the flag. */
    method CreditByFallback(tx: TxRef, u: int, amount: int, today: int)
      requires Valid() && u in dashboards && tx in payments && NotCredited(tx)
      modifies this, dashboards[u]
      ensures Valid()
      ensures State() == Settled(old(State()), tx, u, amount, AfterFallback(old(subs[u]), amount, today))
      ensures dashboards == old(dashboards)
      ensures users == old(users) && drafts == old(drafts)
    {
      var d := dashboards[u];
      d.ApplyFallback(amount, today);
      Record(tx, u, d.Snap(), amount);
      TieAfter(u);
    }

    /** After only `u`'s dashboard changed, with `subs` and `lists` updated to match, the tie holds again. */
    twostate lemma TieAfter(u: int)
      requires old(Tie()) && u in dashboards
      requires dashboards == old(dashboards)
      requires forall o :: o in dashboards.Values && o != dashboards[u] ==> unchanged(o)
      requires subs == old(subs)[u := dashboards[u].Snap()]
      requires lists == old(lists)[u := dashboards[u].AllLists()]
      ensures Tie()
    {
      forall v | v in dashboards && v != u ensures unchanged(dashboards[v]) {
        assert dashboards[v] in dashboards.Values;
      }
    }

    /** Adding a fresh dashboard for a new user keeps the tie. */
    twostate lemma TieAfterCreate(u: int)
      requires old(Tie()) && u !in old(dashboards) && u in dashboards
      requires fresh(dashboards[u]) && dashboards == old(dashboards)[u := dashboards[u]]
      requires forall v :: v in old(dashboards) ==> unchanged(old(dashboards[v]))
      requires subs == old(subs)[u := dashboards[u].Snap()]
      requires lists == old(lists)[u := dashboards[u].AllLists()]
      ensures Tie()
    {
      forall v | v in dashboards
        ensures dashboards[v].Snap() == subs[v] && dashboards[v].AllLists() == lists[v]
      {
        if v != u { assert dashboards[v] == old(dashboards[v]); }
      }
    }

    /** A new user enters the books with nothing paid. */
    twostate lemma BooksAfterCreate(u: int)
      requires old(Books()) && credits == old(credits) && payments == old(payments)
      requires u !in old(subs) && u in subs && subs == old(subs)[u := subs[u]]
      requires subs[u].totalPaid == 0
      ensures Books()
    {
      assert forall i :: 0 <= i < |credits| ==> credits[i].user != u;
      CreditedNone(credits, u);
    }

    /** Changing payments keeps the books when every credited tx_ref stays present and flagged. */
    twostate lemma BooksAfterPayments()
      requires old(Books()) && credits == old(credits) && subs == old(subs)
      requires forall t :: t in old(payments) && old(payments[t]).subscriptionUpdated ==>
        t in payments && payments[t].subscriptionUpdated
      ensures Books()
    {
    }

    /** Changing one dashboard without touching `total_paid` keeps the books. */
    twostate lemma BooksAfterSubs(u: int)
      requires old(Books()) && credits == old(credits) && payments == old(payments)
      requires u in old(subs) && u in subs && subs == old(subs)[u := subs[u]]
      requires subs[u].totalPaid == old(subs[u]).totalPaid
      ensures Books()
    {
    }

    /** Activates and verifies `u`'s dashboard, granting `days` from today if it has no end date. */
    method Repair(u: int, today: int, days: int)
      requires Valid() && u in dashboards
      modifies this, dashboards[u]
      ensures Valid()
      ensures State() == WithSub(old(State()), u, Reactivated(old(subs[u]), today, days))
      ensures dashboards == old(dashboards)
      ensures users == old(users) && drafts == old(drafts)
    {
      var d := dashboards[u];
      d.Reactivate(today, days);
      subs := subs[u := d.Snap()];
      TieAfter(u);
      BooksAfterSubs(u);
    }

    /** Replaces `u`'s list `name` by `ids`. */
    method SetList(u: int, name: ListName, ids: set<int>)
      requires Valid() && u in dashboards
      modifies this, dashboards[u]
      ensures Valid()
      ensures State() == WithLists(old(State()), u, old(lists[u]).Set(name, ids))
      ensures dashboards == old(dashboards)
      ensures users == old(users) && drafts == old(drafts)
    {
      var d := dashboards[u];
      d.SetList(name, ids);
      lists := lists[u := d.AllLists()];
      TieAfter(u);
    }

    /** Overwrites `u`'s status and end date. */
    method SetStatusAndEnd(u: int, status: string, endDate: Option<int>)
      requires Valid() && u in dashboards
      modifies this, dashboards[u]
      ensures Valid()
      ensures State() == WithSub(old(State()), u, old(subs[u]).(status := status, endDate := endDate))
      ensures dashboards == old(dashboards)
      ensures users == old(users) && drafts == old(drafts)
    {
      var d := dashboards[u];
      d.SetStatusAndEnd(status, endDate);
      subs := subs[u := d.Snap()];
      TieAfter(u);
      BooksAfterSubs(u);
    }

    /** Sets `u`'s `is_verified`. */
    method MarkVerified(u: int)
      requires Valid() && u in dashboards
      modifies this, dashboards[u]
      ensures Valid()
      ensures State() == WithSub(old(State()), u, old(subs[u]).(verified := true))
      ensures dashboards == old(dashboards)
      ensures users == old(users) && drafts == old(drafts)
    {
      var d := dashboards[u];
      d.MarkVerified();
      subs := subs[u := d.Snap()];
      TieAfter(u);
      BooksAfterSubs(u);
    }
  }

  /** Once credited, a tx_ref stays credited: its flag is set. */
  lemma CreditedIsFlagged(l: Ledger, i: nat)
    requires l.Valid() && i < |l.credits|
    ensures l.credits[i].tx in l.payments && l.payments[l.credits[i].tx].subscriptionUpdated
  {
  }
}
