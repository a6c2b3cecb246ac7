// The per-user subscription record `UserDashboard` and its
// `update_subscription` method (universities/models.py:70-135), plus the
// direct field update that the payment routes fall back to when
// `update_subscription` raises. Money is whole birr, dates are day numbers.
module Subscription {
  import opened Common

  const StatusNone: string := "none"
  const StatusActive: string := "active"
  const StatusExpired: string := "expired"

  /** The price of one month and the days one month adds. */
  const MonthlyPrice: int := 500
  const DaysPerMonth: int := 30

  /** The five university lists of a dashboard. */
  datatype ListName = Favorites | PlanningToApply | Applied | Accepted | VisaApproved

  /** The `list_name` strings the list views accept, and the list each names. */
  function ListNamed(name: string): (r: Option<ListName>)
    ensures r.Some? <==> name in {"favorites", "planning_to_apply", "applied", "accepted", "visa_approved"}
  {
    if name == "favorites" then Some(Favorites)
    else if name == "planning_to_apply" then Some(PlanningToApply)
    else if name == "applied" then Some(Applied)
    else if name == "accepted" then Some(Accepted)
    else if name == "visa_approved" then Some(VisaApproved)
    else None
  }

  /** The contents of the five lists, as university ids. */
  datatype Lists = Lists(
    favorites: set<int>,
    planningToApply: set<int>,
    applied: set<int>,
    accepted: set<int>,
    visaApproved: set<int>)
  {
    function Get(name: ListName): set<int>
    {
      match name
      case Favorites => favorites
      case PlanningToApply => planningToApply
      case Applied => applied
      case Accepted => accepted
      case VisaApproved => visaApproved
    }

    /** Setting a list to what it holds changes nothing. */
    lemma SetSame(name: ListName)
      ensures Set(name, Get(name)) == this
    {
      match name
      case Favorites =>
      case PlanningToApply =>
      case Applied =>
      case Accepted =>
      case VisaApproved =>
    }

    function Set(name: ListName, ids: set<int>): (r: Lists)
      ensures r.Get(name) == ids
      ensures forall other :: other != name ==> r.Get(other) == Get(other)
    {
      match name
      case Favorites => this.(favorites := ids)
      case PlanningToApply => this.(planningToApply := ids)
      case Applied => this.(applied := ids)
      case Accepted => this.(accepted := ids)
      case VisaApproved => this.(visaApproved := ids)
    }
  }

  const NoLists: Lists := Lists({}, {}, {}, {}, {})

  /** The declared choices of `subscription_status`. */
  predicate IsChoice(status: string)
  {
    status == StatusNone || status == StatusActive || status == StatusExpired
  }

  /** The subscription fields of a dashboard, as one value. */
  datatype Snapshot = Snapshot(
    totalPaid: int,
    months: int,
    status: string,
    endDate: Option<int>,
    verified: bool)

  /** The day a renewal counts from: the current end date while it lies ahead, else today. */
  function RenewalBase(endDate: Option<int>, today: int): (d: int)
    ensures d >= today
    ensures endDate.Some? ==> d == Max(endDate.value, today)
  {
    if endDate.Some? && endDate.value > today then endDate.value else today
  }

  /**
   * `update_subscription(amount_paid, monthly_price)` as a function of the
   * snapshot before the call: the new snapshot and the returned
   * `months_to_add`.
   */
  function AfterUpdate(s: Snapshot, amount: int, price: int, today: int): (r: (Snapshot, int))
    requires price > 0
    ensures r.0.totalPaid == s.totalPaid + amount
    ensures amount > 0 ==> r.1 == Max(1, amount / price) && r.0.months == s.months + r.1
    ensures amount > 0 ==> r.0.status == StatusActive && r.0.verified
    ensures amount > 0 ==> r.0.endDate == Some(RenewalBase(s.endDate, today) + DaysPerMonth * r.1)
    ensures amount > 0 ==> r.0.endDate.Some? && r.0.endDate.value > today
    ensures amount <= 0 ==> r.0 == s.(totalPaid := s.totalPaid + amount) && r.1 <= 0
    ensures amount <= 0 ==> r.1 == DecimalFloorDiv(amount, price) && (amount > -price ==> r.1 == 0)
    ensures IsChoice(s.status) ==> IsChoice(r.0.status)
  {
    var total := s.totalPaid + amount;
    var months := DecimalFloorDiv(amount, price);
    if amount > 0 then
      assert months == amount / price;
      var m := if months > 0 then months else 1;
      var end := if s.endDate.Some? && s.endDate.value > today
        then s.endDate.value + DaysPerMonth * m
        else today + DaysPerMonth * m;
      (Snapshot(total, s.months + m, StatusActive, Some(end), true), m)
    else
      (s.(totalPaid := total), months)
  }

  /**
   * The fallback the routes run by hand: add the amount, exactly one month,
   * activate and verify, and push the end date 30 days past the later of
   * today and the current end date.
   */
  function AfterFallback(s: Snapshot, amount: int, today: int): (r: Snapshot)
    ensures r.totalPaid == s.totalPaid + amount && r.months == s.months + 1
    ensures r.status == StatusActive && r.verified
    ensures r.endDate == Some(RenewalBase(s.endDate, today) + DaysPerMonth)
  {
    var end := if s.endDate.None? || s.endDate.value < today then today + DaysPerMonth
      else s.endDate.value + DaysPerMonth;
    Snapshot(s.totalPaid + amount, s.months + 1, StatusActive, Some(end), true)
  }

  /**
   * The fallback and `update_subscription` at the monthly price of 500
   * have the same effect exactly when the amount is positive and below two
   * months' price.
   */
  lemma FallbackMatchesUpdate(s: Snapshot, amount: int, today: int)
    ensures AfterFallback(s, amount, today) == AfterUpdate(s, amount, MonthlyPrice, today).0
      <==> 0 < amount < 2 * MonthlyPrice
  {
    var u := AfterUpdate(s, amount, MonthlyPrice, today);
    if 0 < amount < 2 * MonthlyPrice {
      assert amount / MonthlyPrice <= 1;
    } else if amount >= 2 * MonthlyPrice {
      assert u.0.months >= s.months + 2;
    } else {
      assert u.0.months == s.months;
    }
  }

  /** In particular a 500 payment has one effect whichever branch applies it. */
  lemma FiveHundredEitherBranch(s: Snapshot, today: int)
    ensures AfterFallback(s, 500, today) == AfterUpdate(s, 500, MonthlyPrice, today).0
    ensures AfterUpdate(s, 500, MonthlyPrice, today).1 == 1
  {
    FallbackMatchesUpdate(s, 500, today);
  }

  /** The repair of an inactive dashboard: active, verified, and an end date only if there was none. */
  function Reactivated(s: Snapshot, today: int, days: int): (r: Snapshot)
    ensures r.status == StatusActive && r.verified
    ensures r.totalPaid == s.totalPaid && r.months == s.months
    ensures s.endDate.Some? ==> r.endDate == s.endDate
    ensures s.endDate.None? ==> r.endDate == Some(today + days)
  {
    s.(status := StatusActive, verified := true,
       endDate := if s.endDate.None? then Some(today + days) else s.endDate)
  }

  /** A user's dashboard: the subscription fields and the five university lists. */
  class UserDashboard {
    var totalPaid: int
    var monthsSubscribed: int
    var status: string
    var endDate: Option<int>
    var isVerified: bool
    var favorites: set<int>
    var planningToApply: set<int>
    var applied: set<int>
    var accepted: set<int>
    var visaApproved: set<int>

    function Snap(): Snapshot
      reads this
    {
      Snapshot(totalPaid, monthsSubscribed, status, endDate, isVerified)
    }

    function AllLists(): Lists
      reads this
    {
      Lists(favorites, planningToApply, applied, accepted, visaApproved)
    }

    /** The model's defaults: status 'none', no end date, nothing paid, unverified, empty lists. */
    constructor ()
      ensures Snap() == Snapshot(0, 0, StatusNone, None, false)
      ensures AllLists() == NoLists
    {
      totalPaid := 0;
      monthsSubscribed := 0;
      status := StatusNone;
      endDate := None;
      isVerified := false;
      favorites, planningToApply, applied, accepted, visaApproved := {}, {}, {}, {}, {};
    }

    /** `update_subscription`: the fields are changed in the source's order. */
    method UpdateSubscription(amountPaid: int, monthlyPrice: int, today: int) returns (monthsToAdd: int)
      requires monthlyPrice > 0
      modifies this
      ensures (Snap(), monthsToAdd) == AfterUpdate(old(Snap()), amountPaid, monthlyPrice, today)
      ensures AllLists() == old(AllLists())
    {
      totalPaid := totalPaid + amountPaid;
      monthsToAdd := DecimalFloorDiv(amountPaid, monthlyPrice);
      if amountPaid > 0 {
        if monthsToAdd > 0 {
          monthsSubscribed := monthsSubscribed + monthsToAdd;
        } else {
          monthsSubscribed := monthsSubscribed + 1;
          monthsToAdd := 1;
        }
        isVerified := true;
        status := StatusActive;
        if endDate.Some? && endDate.value > today {
          endDate := Some(endDate.value + DaysPerMonth * monthsToAdd);
        } else {
          endDate := Some(today + DaysPerMonth * monthsToAdd);
        }
      }
    }

    /** The hand-written fallback that adds `amount` and one month. */
    method ApplyFallback(amount: int, today: int)
      modifies this
      ensures Snap() == AfterFallback(old(Snap()), amount, today)
      ensures AllLists() == old(AllLists())
    {
      totalPaid := totalPaid + amount;
      monthsSubscribed := monthsSubscribed + 1;
      status := StatusActive;
      isVerified := true;
      if endDate.None? || endDate.value < today {
        endDate := Some(today + DaysPerMonth);
      } else {
        endDate := Some(endDate.value + DaysPerMonth);
      }
    }

    /**
     * The repair the routes apply to an already credited payment whose
     * dashboard is not active: activate, verify, and give `grantDays` days
     * from today only when there is no end date.
     */
    method Reactivate(today: int, grantDays: int)
      modifies this
      ensures Snap() == Reactivated(old(Snap()), today, grantDays)
      ensures AllLists() == old(AllLists())
    {
      status := StatusActive;
      isVerified := true;
      if endDate.None? {
        endDate := Some(today + grantDays);
      }
    }

    /** Replaces the list `name` by `ids`; the subscription fields and the other lists stay. */
    method SetList(name: ListName, ids: set<int>)
      modifies this
      ensures AllLists() == old(AllLists()).Set(name, ids)
      ensures Snap() == old(Snap())
    {
      match name
      case Favorites => favorites := ids;
      case PlanningToApply => planningToApply := ids;
      case Applied => applied := ids;
      case Accepted => accepted := ids;
      case VisaApproved => visaApproved := ids;
    }

    /** Overwrites the status and the end date; everything else stays. */
    method SetStatusAndEnd(newStatus: string, newEnd: Option<int>)
      modifies this
      ensures Snap() == old(Snap()).(status := newStatus, endDate := newEnd)
      ensures AllLists() == old(AllLists())
    {
      status := newStatus;
      endDate := newEnd;
    }

    /** Sets `is_verified` only. */
    method MarkVerified()
      modifies this
      ensures Snap() == old(Snap()).(verified := true)
      ensures AllLists() == old(AllLists())
    {
      isVerified := true;
    }
  }
}
