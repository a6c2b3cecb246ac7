// `fix_by_email` of fix_stuck_payment.py: every successful payment of the
// user that has not been applied is applied by hand, each with its own
// amount but always exactly one month.
module FixStuckSpec {
  import opened Common
  import opened Subscription
  import opened PaymentLedger

  /** The user's rows with status 'success' and the flag still False (fix_stuck_payment.py:62). */
  function Unprocessed(ps: map<TxRef, Payment>, uid: int): set<TxRef>
  {
    set t | t in ps && ps[t].user == uid && ps[t].status == Success && !ps[t].subscriptionUpdated
  }

  /** The rows in `c` with their flag set. */
  function FlagAll(ps: map<TxRef, Payment>, c: set<TxRef>): (r: map<TxRef, Payment>)
    ensures r.Keys == ps.Keys
  {
    map t | t in ps :: if t in c then ps[t].(subscriptionUpdated := true) else ps[t]
  }

  /** The sum of the amounts of the rows in `c`. */
  ghost function SumAmounts(ps: map<TxRef, Payment>, c: set<TxRef>): int
    requires c <= ps.Keys
    decreases c
  {
    if c == {} then 0
    else
      var t :| t in c;
      ps[t].amount + SumAmounts(ps, c - {t})
  }

  /** The sum does not depend on which row is taken first. */
  lemma {:induction false} SumAmountsRemove(ps: map<TxRef, Payment>, c: set<TxRef>, t: TxRef)
    requires c <= ps.Keys && t in c
    ensures SumAmounts(ps, c) == ps[t].amount + SumAmounts(ps, c - {t})
    decreases c
  {
    var t' :| t' in c && SumAmounts(ps, c) == ps[t'].amount + SumAmounts(ps, c - {t'});
    if t' != t {
      SumAmountsRemove(ps, c - {t'}, t);
      SumAmountsRemove(ps, c - {t}, t');
      assert c - {t'} - {t} == c - {t} - {t'};
    }
  }

  /**
   * The dashboard after `n` hand applications adding `total` in all: each
   * adds one month and 30 days counted from the later of today and the end
   * date (fix_stuck_payment.py:70-80).
   */
  function Fixed(s: Snapshot, total: int, n: nat, today: int): (r: Snapshot)
    ensures n == 0 ==> r == s
    ensures n > 0 ==> r.totalPaid == s.totalPaid + total && r.months == s.months + n
    ensures n > 0 ==> r.status == StatusActive && r.verified
    ensures n > 0 ==> r.endDate == Some(RenewalBase(s.endDate, today) + DaysPerMonth * n)
  {
    if n == 0 then s
    else Snapshot(s.totalPaid + total, s.months + n, StatusActive,
                  Some(RenewalBase(s.endDate, today) + DaysPerMonth * n), true)
  }

  /** One more application is the fallback update with that payment's amount. */
  lemma FixedStep(s: Snapshot, total: int, n: nat, amount: int, today: int)
    requires n == 0 ==> total == 0
    ensures Fixed(s, total + amount, n + 1, today) == AfterFallback(Fixed(s, total, n, today), amount, today)
  {
  }

  /** The state once the rows in `done` have been processed for user `uid`. */
  ghost function Progress(s: LedgerState, uid: int, done: set<TxRef>, today: int): LedgerState
    requires uid in s.subs && done <= s.payments.Keys
  {
    s.(payments := FlagAll(s.payments, done),
       subs := s.subs[uid := Fixed(s.subs[uid], SumAmounts(s.payments, done), |done|, today)])
  }

  /** The state after the run for user `uid` (with a dashboard already present), credits aside. */
  ghost function AfterFix(s: LedgerState, uid: int, today: int): LedgerState
    requires uid in s.subs
  {
    Progress(s, uid, Unprocessed(s.payments, uid), today)
  }

  /** Before the loop, nothing has been processed. */
  lemma ProgressStart(s: LedgerState, uid: int, today: int)
    requires uid in s.subs
    ensures Progress(s, uid, {}, today) == s
  {
    assert FlagAll(s.payments, {}) == s.payments;
    assert s.subs[uid := s.subs[uid]] == s.subs;
  }

  /** Flagging one more row extends `FlagAll` by that row. */
  lemma FlagAllStep(ps: map<TxRef, Payment>, done: set<TxRef>, t: TxRef)
    requires t in ps
    ensures FlagAll(ps, done)[t := ps[t].(subscriptionUpdated := true)] == FlagAll(ps, done + {t})
  {
  }

  /** Applying one more row extends the dashboard's running totals by that row. */
  lemma FixedAdd(ps: map<TxRef, Payment>, sub: Snapshot, done: set<TxRef>, t: TxRef, today: int)
    requires done <= ps.Keys && t in ps && t !in done
    ensures AfterFallback(Fixed(sub, SumAmounts(ps, done), |done|, today), ps[t].amount, today)
         == Fixed(sub, SumAmounts(ps, done + {t}), |done + {t}|, today)
  {
    SumAmountsRemove(ps, done + {t}, t);
    assert done + {t} - {t} == done;
    FixedStep(sub, SumAmounts(ps, done), |done|, ps[t].amount, today);
  }

  /** Processing one more row of `todo` advances the progress by that row. */
  lemma ProgressStep(s: LedgerState, uid: int, todo: set<TxRef>, done: set<TxRef>, t: TxRef, today: int, cur: LedgerState)
    requires uid in s.subs && todo == Unprocessed(s.payments, uid) && done <= todo
    requires t in todo - done
    requires cur.(credits := s.credits) == Progress(s, uid, done, today)
    ensures t in cur.payments && !cur.payments[t].subscriptionUpdated && cur.payments[t].amount == s.payments[t].amount
    ensures uid in cur.subs
    ensures var amount := s.payments[t].amount;
      Settled(cur, t, uid, amount, AfterFallback(cur.subs[uid], amount, today)).(credits := s.credits)
      == Progress(s, uid, done + {t}, today)
  {
    FlagAllStep(s.payments, done, t);
    FixedAdd(s.payments, s.subs[uid], done, t, today);
  }

  /** A second run finds nothing to process and changes nothing. */
  lemma FixIdempotent(s: LedgerState, uid: int, today: int)
    requires uid in s.subs
    ensures Unprocessed(AfterFix(s, uid, today).payments, uid) == {}
    ensures AfterFix(AfterFix(s, uid, today), uid, today) == AfterFix(s, uid, today)
  {
    var once := AfterFix(s, uid, today);
    assert FlagAll(once.payments, {}) == once.payments;
    assert once.subs[uid := once.subs[uid]] == once.subs;
  }

  /**
   * Part way through the loop: the rows in `done` (a part of `todo`, the rows
   * unprocessed at the start `s1`) have been applied, one credit each.
   */
  ghost predicate Partway(l: Ledger, s1: LedgerState, uid: int, todo: set<TxRef>, done: set<TxRef>, today: int)
    reads l, l.dashboards.Values
  {
    l.Valid() && uid in l.dashboards && uid in s1.subs
    && todo == Unprocessed(s1.payments, uid) && done <= todo
    && l.State().(credits := s1.credits) == Progress(s1, uid, done, today)
    && s1.credits <= l.credits
  }

}

// The loop of `fix_by_email`, run against the ledger.
module FixStuckPayment {
  import opened Common
  import opened Subscription
  import opened PaymentLedger
  import opened FixStuckSpec

  /**
   * `fix_by_email(email)`. The rows are processed in some order (the source
   * uses `-payment_date`); the resulting dashboard does not depend on it.
   */
  method FixByEmail(l: Ledger, email: string, today: int) returns (ok: bool)
    requires l.Valid()
    modifies l, l.dashboards.Values
    ensures l.Valid()
    ensures l.users == old(l.users) && l.drafts == old(l.drafts)
    ensures FirstByEmail(l.users, email).None? ==> !ok && l.State() == old(l.State())
    ensures FirstByEmail(l.users, email).Some? ==>
      var uid := FirstByEmail(l.users, email).value.id;
      var s1 := WithDash(old(l.State()), uid);
      ok && l.State().(credits := s1.credits) == AfterFix(s1, uid, today)
      && s1.credits <= l.credits
  {
    var user := FirstByEmail(l.users, email);
    if user.None? {
      return false;
    }
    var uid := user.value.id;
    var d := l.GetOrCreateDashboard(uid);
    ApplyAll(l, uid, today);
    return true;
  }

  /** The loop of `fix_by_email` over the user's unprocessed rows. */
  method ApplyAll(l: Ledger, uid: int, today: int)
    requires l.Valid() && uid in l.dashboards
    modifies l, l.dashboards[uid]
    ensures l.Valid()
    ensures l.dashboards == old(l.dashboards) && l.users == old(l.users) && l.drafts == old(l.drafts)
    ensures l.State().(credits := old(l.credits)) == AfterFix(old(l.State()), uid, today)
    ensures old(l.credits) <= l.credits
  {
    ghost var s1 := l.State();
    var todo := Unprocessed(l.payments, uid);
    var rest := todo;
    ProgressStart(s1, uid, today);
    assert todo - rest == {};
    while rest != {}
      invariant rest <= todo && Partway(l, s1, uid, todo, todo - rest, today)
      invariant l.dashboards == old(l.dashboards) && l.users == old(l.users) && l.drafts == old(l.drafts)
      decreases rest
    {
      var t :| t in rest;
      ApplyOne(l, s1, uid, todo, rest, t, today);
      rest := rest - {t};
    }
    assert todo - rest == todo;
  }

  /** One pass of the loop: the fallback update with row `t`'s own amount. */
  method ApplyOne(l: Ledger, ghost s1: LedgerState, uid: int, ghost todo: set<TxRef>, ghost rest: set<TxRef>,
                  t: TxRef, today: int)
    requires rest <= todo && t in rest && Partway(l, s1, uid, todo, todo - rest, today)
    modifies l, l.dashboards[uid]
    ensures rest - {t} <= todo && Partway(l, s1, uid, todo, todo - (rest - {t}), today)
    ensures l.dashboards == old(l.dashboards) && l.users == old(l.users) && l.drafts == old(l.drafts)
  {
    ProgressStep(s1, uid, todo, todo - rest, t, today, l.State());
    l.CreditByFallback(t, uid, l.payments[t].amount, today);
    assert todo - (rest - {t}) == (todo - rest) + {t};
  }
}
