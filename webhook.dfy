// The Chapa webhook, `PaymentWebhookView.post` (universities/views.py:740-978):
// signature check, transaction reference, user resolution, and the
// idempotent application of the payment to the user's dashboard.
module ChapaWebhook {
  import opened Common
  import opened Text
  import opened TransactionRef
  import opened Subscription
  import opened PaymentLedger

  /**
   * What the handler reads from its environment and the request. Missing
   * headers are "". `expectedHash` is the HMAC-SHA256 hex digest of the
   * compact JSON body under the secret, computed outside the model.
   */
  datatype WebhookRequest = WebhookRequest(
    secret: string,
    chapaSignature: string,
    xChapaSignature: string,
    expectedHash: string,
    txRef: Option<string>,
    status: Option<string>,
    email: Option<string>,
    reference: string)

  const SecretMissing: string := "Internal server error: Webhook secret not configured."
  const SignatureMissing: string := "Webhook signature not found."
  const SignatureInvalid: string := "Invalid webhook signature."
  const TxRefMissing: string := "Transaction reference not found in webhook payload."
  const UserNotFound: string := "User not found for this transaction."
  const BadRefNoEmail: string := "Invalid transaction reference format and no email provided."
  const NotSuccessful: string := "received, not successful"
  const AlreadyProcessed: string := "already processed"

  /** A header matches when it is present and equals the expected digest. */
  predicate SignatureValid(req: WebhookRequest)
  {
    (req.chapaSignature != "" && req.chapaSignature == req.expectedHash)
    || (req.xChapaSignature != "" && req.xChapaSignature == req.expectedHash)
  }

  /** The rejection of the signature stage, if any. */
  function SignatureReply(req: WebhookRequest): (r: Option<Reply>)
    ensures r == Some(Reply(401, SignatureMissing))
      <==> req.secret != "" && req.chapaSignature == "" && req.xChapaSignature == ""
    ensures r.None? <==> req.secret != "" && SignatureValid(req)
    ensures r.Some? ==> r.value.code in {401, 500}
  {
    if req.secret == "" then Some(Reply(500, SecretMissing))
    else if req.chapaSignature == "" && req.xChapaSignature == "" then Some(Reply(401, SignatureMissing))
    else if !SignatureValid(req) then Some(Reply(401, SignatureInvalid))
    else None
  }

  /** The `except (IndexError, ValueError, User.DoesNotExist)` branch: the email or an error. */
  function ByEmailAfterFailure(users: seq<User>, email: Option<string>): (r: Result<User, Reply>)
    ensures r.Ok? ==> Truthy(email) && r.value in users && r.value.email == email.value
    ensures r == Err(Reply(400, BadRefNoEmail)) <==> !Truthy(email)
  {
    if Truthy(email) then
      match FirstByEmail(users, email.value)
      case Some(u) => Ok(u)
      case None => Err(Reply(400, UserNotFound))
    else Err(Reply(400, BadRefNoEmail))
  }

  /** Which user a successful webhook is for (universities/views.py:806-837). */
  function ResolveUser(users: seq<User>, tx: TxRef, email: Option<string>): (r: Result<User, Reply>)
    ensures r.Ok? ==> r.value in users
    ensures r.Err? ==> r.error.code == 400
  {
    match ParseWebhook(tx)
    case UserId(id) =>
      (match FindById(users, id)
       case Some(u) => Ok(u)
       case None => ByEmailAfterFailure(users, email))
    case BadId => ByEmailAfterFailure(users, email)
    case Foreign =>
      if Truthy(email) then
        match FirstByEmail(users, email.value)
        case Some(u) => Ok(u)
        case None => Err(Reply(400, UserNotFound))
      else Err(Reply(400, UserNotFound))
  }

  /** A reference built for an existing user resolves to that user, whatever email comes with it. */
  lemma ResolveGenerated(users: seq<User>, userId: nat, uuid: string, email: Option<string>)
    requires FindById(users, userId).Some?
    ensures ResolveUser(users, Build(userId, uuid), email) == Ok(FindById(users, userId).value)
  {
    RoundTrip(userId, uuid);
  }

  /** The ledger's state after the webhook found `u` and `tx` (steps 4 and 5). */
  function Applied(s: LedgerState, tx: TxRef, u: int, req: WebhookRequest, today: int, now: int): LedgerState
  {
    if tx in s.payments then
      var p := s.payments[tx];
      var s1 := WithDash(s, u);
      var sub := s1.subs[u];
      if !p.subscriptionUpdated then Settled(s1, tx, u, p.amount, AfterUpdate(sub, p.amount, MonthlyPrice, today).0)
      else if sub.status != StatusActive then WithSub(s1, u, Reactivated(sub, today, DaysPerMonth))
      else s1
    else
      var s1 := WithDash(Inserted(s, tx, Payment(u, MonthlyPrice, Success, now, req.reference, true)), u);
      Settled(s1, tx, u, MonthlyPrice, AfterFallback(s1.subs[u], MonthlyPrice, today))
  }

  /**
   * `PaymentWebhookView.post`. `today` is `timezone.now().date()` and `now`
   * the default `payment_date` of a created payment.
   */
  method Handle(l: Ledger, req: WebhookRequest, today: int, now: int) returns (reply: Reply)
    requires l.Valid()
    modifies l, l.dashboards.Values
    ensures l.Valid()
    ensures l.users == old(l.users) && l.drafts == old(l.drafts)
    ensures SignatureReply(req).Some? ==> reply == SignatureReply(req).value && l.State() == old(l.State())
    ensures SignatureReply(req).None? && !Truthy(req.txRef) ==>
      reply == Reply(400, TxRefMissing) && l.State() == old(l.State())
    ensures SignatureReply(req).None? && Truthy(req.txRef) && req.status != Some(Success) ==>
      reply == Reply(200, NotSuccessful) && l.State() == old(l.State())
    ensures SignatureReply(req).None? && Truthy(req.txRef) && req.status == Some(Success) ==>
      match ResolveUser(old(l.users), req.txRef.value, req.email)
      case Err(e) => reply == e && l.State() == old(l.State())
      case Ok(u) =>
        l.State() == Applied(old(l.State()), req.txRef.value, u.id, req, today, now)
        && reply == Reply(200, if req.txRef.value in old(l.payments) then AlreadyProcessed else Success)
  {
    var rejected := SignatureReply(req);
    if rejected.Some? {
      return rejected.value;
    }
    if !Truthy(req.txRef) {
      return Reply(400, TxRefMissing);
    }
    var tx := req.txRef.value;
    if req.status != Some(Success) {
      return Reply(200, NotSuccessful);
    }
    var who := ResolveUser(l.users, tx, req.email);
    if who.Err? {
      return who.error;
    }
    var u := who.value.id;
    if tx in l.payments {
      ApplyExisting(l, tx, u, req, today, now);
      return Reply(200, AlreadyProcessed);
    }
    ApplyNew(l, tx, u, req, today, now);
    return Reply(200, Success);
  }

  /** Step 4: a payment row with this tx_ref exists (universities/views.py:839-906). */
  method ApplyExisting(l: Ledger, tx: TxRef, u: int, req: WebhookRequest, today: int, now: int)
    requires l.Valid() && tx in l.payments
    modifies l, l.dashboards.Values
    ensures l.Valid()
    ensures l.users == old(l.users) && l.drafts == old(l.drafts)
    ensures l.State() == Applied(old(l.State()), tx, u, req, today, now)
  {
    var existing := l.payments[tx];
    var d := l.GetOrCreateDashboard(u);
    if !existing.subscriptionUpdated {
      var _ := l.CreditByUpdate(tx, u, existing.amount, today);
    } else if d.status != StatusActive {
      l.Repair(u, today, DaysPerMonth);
    }
  }

  /** Step 5: the first webhook for this tx_ref (universities/views.py:908-967). */
  method ApplyNew(l: Ledger, tx: TxRef, u: int, req: WebhookRequest, today: int, now: int)
    requires l.Valid() && tx !in l.payments
    modifies l, l.dashboards.Values
    ensures l.Valid()
    ensures l.users == old(l.users) && l.drafts == old(l.drafts)
    ensures l.State() == Applied(old(l.State()), tx, u, req, today, now)
  {
    l.AddPayment(tx, Payment(u, MonthlyPrice, Success, now, req.reference, true));
    var d := l.GetOrCreateDashboard(u);
    // `update_subscription(500.00, ...)` adds a float to the Decimal `total_paid`
    // and raises TypeError before changing anything, so the fallback always runs.
    l.CreditByFallback(tx, u, MonthlyPrice, today);
  }

  /** Replaying a webhook for a credited tx_ref never adds to any `total_paid`. */
  lemma ReplayAddsNothing(s: LedgerState, tx: TxRef, u: int, req: WebhookRequest, today: int, now: int)
    requires tx in s.payments && s.payments[tx].subscriptionUpdated
    ensures Applied(s, tx, u, req, today, now).credits == s.credits
    ensures Applied(s, tx, u, req, today, now).payments == s.payments
    ensures forall v :: v in s.subs ==> Applied(s, tx, u, req, today, now).subs[v].totalPaid == s.subs[v].totalPaid
  {
  }

  /** A new successful tx_ref adds exactly 500 and one month, as `update_subscription(500)` would. */
  lemma NewPaymentIsOneMonth(s: LedgerState, tx: TxRef, u: int, req: WebhookRequest, today: int, now: int)
    requires tx !in s.payments
    ensures Applied(s, tx, u, req, today, now).subs[u]
      == AfterUpdate(SubOr(s.subs, u), MonthlyPrice, MonthlyPrice, today).0
    ensures Applied(s, tx, u, req, today, now).subs[u].totalPaid == SubOr(s.subs, u).totalPaid + 500
    ensures Applied(s, tx, u, req, today, now).subs[u].months == SubOr(s.subs, u).months + 1
  {
    FiveHundredEitherBranch(SubOr(s.subs, u), today);
  }
}
