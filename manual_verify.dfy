// `verify_and_update` of manual_verify_payment.py: after Chapa's verify
// response (an input here), resolve the user, get or create the payment
// row, and apply a fixed 500 by hand unless the row is already applied.
module ManualVerify {
  import opened Common
  import opened TransactionRef
  import opened Subscription
  import opened PaymentLedger

  /** The `data` object of Chapa's verify response. */
  datatype VerifyData = VerifyData(status: Option<string>, email: Option<string>, reference: string)

  /** Chapa's verify response: the envelope `status` and the `data` object, None when absent or null. */
  datatype VerifyResponse = VerifyResponse(status: Option<string>, data: Option<VerifyData>)

  /** Both the envelope and the transaction say 'success' (manual_verify_payment.py:55-62). */
  predicate Verified(resp: VerifyResponse)
  {
    resp.status == Some(Success) && resp.data.Some? && resp.data.value.status == Some(Success)
  }

  /** The user of `unifinder-{id}-…`, else the first user with the payment's email (manual_verify_payment.py:67-88). */
  function ManualUser(users: seq<User>, tx: string, email: Option<string>): (r: Option<User>)
    ensures r.Some? ==> r.value in users
    ensures r.None? && Truthy(email) ==> forall k :: 0 <= k < |users| ==> users[k].email != email.value
  {
    var byRef := match ParseManual(tx)
      case Some(id) => FindById(users, id)
      case None => None;
    if byRef.Some? then byRef
    else if Truthy(email) then FirstByEmail(users, email.value)
    else None
  }

  /** A generated reference names its user, whatever email the response carries. */
  lemma ManualUserOfBuild(users: seq<User>, userId: nat, uuid: string, email: Option<string>)
    requires FindById(users, userId).Some?
    ensures ManualUser(users, Build(userId, uuid), email) == FindById(users, userId)
  {
    RoundTrip(userId, uuid);
  }

  /** The payment row after `get_or_create` and the status fix (manual_verify_payment.py:91-109). */
  function WithVerifiedRow(s: LedgerState, tx: TxRef, uid: int, reference: string, now: int): (r: LedgerState)
    ensures tx in r.payments && r.payments[tx].status == Success
    ensures r.subs == s.subs && r.lists == s.lists && r.credits == s.credits
    ensures tx in s.payments ==> r.payments[tx] == s.payments[tx].(status := Success)
    ensures tx !in s.payments ==> r.payments[tx] == Payment(uid, MonthlyPrice, Success, now, reference, false)
  {
    if tx in s.payments then
      if s.payments[tx].status != Success then WithStatus(s, tx, Success) else s
    else Inserted(s, tx, Payment(uid, MonthlyPrice, Success, now, reference, false))
  }

  /** The state after a verified call that found user `uid`. */
  function AfterManual(s: LedgerState, tx: TxRef, uid: int, reference: string, now: int, today: int): LedgerState
  {
    var s1 := WithDash(WithVerifiedRow(s, tx, uid, reference, now), uid);
    if !s1.payments[tx].subscriptionUpdated then
      Settled(s1, tx, uid, MonthlyPrice, AfterFallback(s1.subs[uid], MonthlyPrice, today))
    else s1
  }

  /** `verify_and_update(tx_ref)`; `resp` is None when the request or its JSON decoding raised. */
  method VerifyAndUpdate(l: Ledger, secret: string, tx: TxRef, resp: Option<VerifyResponse>, now: int, today: int)
    returns (ok: bool)
    requires l.Valid()
    modifies l, l.dashboards.Values
    ensures l.Valid()
    ensures l.users == old(l.users) && l.drafts == old(l.drafts)
    ensures secret == "" || resp.None? || !Verified(resp.value) ==> !ok && l.State() == old(l.State())
    ensures secret != "" && resp.Some? && Verified(resp.value) ==>
      var data := resp.value.data.value;
      match ManualUser(old(l.users), tx, data.email)
      case None => !ok && l.State() == old(l.State())
      case Some(u) => ok && l.State() == AfterManual(old(l.State()), tx, u.id, data.reference, now, today)
  {
    if secret == "" || resp.None? || !Verified(resp.value) {
      return false;
    }
    var data := resp.value.data.value;
    var user := ManualUser(l.users, tx, data.email);
    if user.None? {
      return false;
    }
    Apply(l, tx, user.value.id, data.reference, now, today);
    return true;
  }

  method Apply(l: Ledger, tx: TxRef, uid: int, reference: string, now: int, today: int)
    requires l.Valid()
    modifies l, l.dashboards.Values
    ensures l.Valid()
    ensures l.users == old(l.users) && l.drafts == old(l.drafts)
    ensures l.State() == AfterManual(old(l.State()), tx, uid, reference, now, today)
  {
    if tx !in l.payments {
      l.AddPayment(tx, Payment(uid, MonthlyPrice, Success, now, reference, false));
    } else if l.payments[tx].status != Success {
      l.SetStatus(tx, Success);
    }
    var d := l.GetOrCreateDashboard(uid);
    if !l.payments[tx].subscriptionUpdated {
      l.CreditByFallback(tx, uid, MonthlyPrice, today);
    }
  }

  /** An applied payment adds exactly 500 and one month; the end date moves 30 days past the later of today and the old end. */
  lemma ManualApplies(s: LedgerState, tx: TxRef, uid: int, reference: string, now: int, today: int)
    requires tx !in s.payments || !s.payments[tx].subscriptionUpdated
    ensures var r := AfterManual(s, tx, uid, reference, now, today);
      var before := SubOr(s.subs, uid);
      r.subs[uid].totalPaid == before.totalPaid + 500 && r.subs[uid].months == before.months + 1
      && r.subs[uid].status == StatusActive && r.subs[uid].verified
      && r.subs[uid].endDate == Some(RenewalBase(before.endDate, today) + 30)
      && r.payments[tx].subscriptionUpdated && r.credits == s.credits + [Credit(tx, uid, 500)]
  {
  }

  /** Re-running the script for the same tx_ref and user changes nothing. */
  lemma ManualIdempotent(s: LedgerState, tx: TxRef, uid: int, reference: string, now: int, today: int)
    ensures var once := AfterManual(s, tx, uid, reference, now, today);
      AfterManual(once, tx, uid, reference, now, today) == once
  {
    var once := AfterManual(s, tx, uid, reference, now, today);
    assert once.payments[tx].status == Success && once.payments[tx].subscriptionUpdated;
    assert uid in once.subs && uid in once.lists;
    assert once.subs[uid := once.subs[uid]] == once.subs;
  }
}
