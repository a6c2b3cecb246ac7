# Addis Temari backend: a verified model of its decision logic

This project is a Dafny model of the sequential decision logic of the Addis Temari / UniFinder backend. The backend is a Django REST service for students applying to universities abroad.

Its main part is the subscription ledger:

- `UserDashboard.update_subscription` and the per-user subscription record;
- the `Payment` rows, keyed by their unique `tx_ref` and guarded by the `subscription_updated` flag;
- the four routes that credit a payment to a dashboard:
  - the Chapa webhook;
  - the reconciliation run when the dashboard loads;
  - `manual_verify_payment.py`;
  - `fix_stuck_payment.py`;
- the `fix_payment_verification` command, which repairs the verification flag.

The ledger is a class. Its invariant is that each `tx_ref` is credited at most once and that every dashboard's `total_paid` is the sum of its credits. The routes and the repair command are methods that keep this invariant, and each one's effect is tied to pure step functions.

Around it, the model covers:

- the payment prompt, username validation and the admin's subscription edit;
- gamification: points, levels, idempotent achievements, the signal thresholds and the retroactive command;
- notification visibility and `mark_all_read`;
- the creator and opportunity flows: settings singleton, applications, premium masking, review, attribution counters and view tracking;
- the email log state machine and the bulk-send tally;
- the two admin JSON imports;
- the scraper's pure post-processing and the university-page helpers of the views;
- the scholarship service;
- the three data-maintenance commands.

Modelling conventions:

- Money is whole units (birr, or cents where the source has two decimals).
- Dates are integer day numbers; timestamps are integer seconds. "today" and "now" are parameters.
- Network calls, SMTP, JSON decoding, HTML parsing, regular expressions and the country database are oracles: their results are parameters.
- Python's `str` methods are modelled for ASCII text in `Text`.
- The order-preserving deduplications are stated once, for any key function, in `Dedup`.

Notes on the code that the model follows:

- `payments/urls.py:6-7` routes `confirm_payment` and `verify_and_update_subscription`, which `payments/views.py` does not define. No such route is modelled.
- In the webhook, `total_paid` is a Decimal after `refresh_from_db`, and `update_subscription(500.00, …)` adds a float to it, which raises. So the webhook always takes its hand-written fallback (universities/views.py:908-918). `Subscription.FallbackMatchesUpdate` shows that for 500 at a monthly price of 500 the two branches have the same effect.
- The webhook's already-processed branch credits the dashboard of the user named by the `tx_ref`, not `payment.user`.
- The 48-hour promotion in the dashboard is nested in the "recent payment" branch, so it applies only when there is no successful payment.
- `UserDetailSerializer.dashboard` is declared with `source='*'` (universities/serializers.py:89), so its payload is merged into `validated_data` and `pop('dashboard', None)` returns None. As written, the admin's subscription edit never reaches the dashboard. "## Findings" records this; the model's `AdminUpdate` is the intended edit.
- The university import aborts at the first item that is not a JSON object: `item.pop` raises, and so does the handler's `item.get`. The outer handler reports the error, no import record is saved, and later items are not reached.
- The university import runs inside the admin's `transaction.atomic` block, and `University.objects.create` has no savepoint of its own. A create that raises (a fee that is not a decimal, a value too long for its column) therefore breaks the transaction: every later item fails at its `exists()` query, saving the import record raises, the outer handler reports "An error occurred during import: An error occurred in the current transaction. …", and the block rolls back every university the paste created. What the admin view does after `save_model` returns (its log entry and redirect) is not modelled.

Behaviour kept as written:

- In `extract_programs` the bachelor terms are tested first, and 'lisans' is among them. So a Turkish master's title containing 'yüksek lisans' is filed as a bachelor program (`Scraper.BachelorWins`).
- `_classify_programs` needs a space before the abbreviations, so a name that starts with "BSc" is not filed at all (`ViewHelpers.LeadingAbbreviationMissed`).
- `populate_all_real_data` looks countries up by exact name, so 'Türkiye', the name the scraper writes, gets the default template (`DataCommands.TurkishNames`).

## Model

| member | source | states |
|---|---|---|
| Subscription.ListNamed | universities/views.py:465-470 | exactly the five list names `favorites`, `planning_to_apply`, `applied`, `accepted`, `visa_approved` name a list |
| Subscription.RenewalBase | universities/models.py:122-129 | a renewal counts from the current end date while it lies after today, otherwise from today; never before today |
| Subscription.AfterUpdate | universities/models.py:97-135 | `total_paid` grows by exactly the amount, even a non-positive one; a positive amount adds and returns max(1, amount // price) months, sets status 'active' and verified, and moves the end date 30 days per month past the renewal base, so strictly after today; a non-positive amount changes nothing else and returns Decimal `amount // price`, truncated toward zero, which is at most 0 and is 0 for an amount above minus the price; a status among the choices stays among them |
| Subscription.AfterFallback | universities/views.py:908-918 | the hand-written fallback adds the amount and exactly one month, activates and verifies, and sets the end date 30 days past the later of today and the current end date |
| Subscription.FallbackMatchesUpdate | universities/views.py:895-918 | the fallback and `update_subscription` at price 500 have the same effect exactly when 0 < amount < 1000 |
| Subscription.FiveHundredEitherBranch | universities/views.py:895-918 | for 500 the two branches agree and `update_subscription` reports one month |
| Subscription.Reactivated | universities/views.py:863-869 | the repair of a credited but inactive dashboard: active and verified, money and months unchanged, an end date today + 30 only when there was none |
| Subscription.UserDashboard.constructor | universities/models.py:82-88 | a new dashboard has status 'none', no end date, nothing paid, no months, is unverified and has five empty lists |
| Subscription.UserDashboard.UpdateSubscription | universities/models.py:90-135 | the fields change as `AfterUpdate` states, the method returns its month count, and the lists stay |
| Subscription.UserDashboard.ApplyFallback | universities/views.py:908-918 | the fields change as `AfterFallback` states; the lists stay |
| Subscription.UserDashboard.Reactivate | universities/views.py:863-869 | the fields change as `Reactivated` states; the lists stay |
| Subscription.UserDashboard.SetList | universities/views.py:465-470 | only the named list is replaced; the subscription fields and the other lists stay |
| Subscription.UserDashboard.SetStatusAndEnd | universities/serializers.py:109-113 | only the status and the end date are overwritten |
| Subscription.UserDashboard.MarkVerified | universities/management/commands/fix_payment_verification.py:19-24 | only `is_verified` is set |
| TransactionRef.ParseWebhook | universities/views.py:809-812 | a reference yields a user id only when it starts with `unifinder-`, and it is foreign exactly when it does not |
| TransactionRef.ParseManual | manual_verify_payment.py:67-75 | the manual script yields an id only for a reference that starts with `unifinder-` |
| TransactionRef.SplitGuard | universities/views.py:809-810 | the webhook's guard (two or more '-' parts, the first `unifinder`) accepts exactly the references that start with `unifinder-`, the manual script's guard (manual_verify_payment.py:68) |
| TransactionRef.ParsersAgree | manual_verify_payment.py:68-75 | whenever the manual script finds an id the webhook finds the same one, and a reference the webhook cannot convert is not converted by the script either |
| TransactionRef.BuildParts | universities/views.py:586 | a generated reference splits into `unifinder`, the decimal id, and the parts of the uuid |
| TransactionRef.RoundTrip | universities/views.py:586 | both parsers recover the user id from `unifinder-{id}-{uuid}`, whatever hyphens the uuid carries |
| PaymentLedger.FirstByEmail | universities/views.py:819 | the first user with that email in primary-key order, and None only when no user has it |
| PaymentLedger.FindById | universities/views.py:811-812 | the user with that id, and None (DoesNotExist) only when no user has it |
| PaymentLedger.WithDash | universities/views.py:844 | after `get_or_create` the user has a dashboard, the existing one or a fresh one |
| PaymentLedger.Ledger.constructor | payments/models.py:5-16 | an empty ledger over the given users and drafts keeps its invariant: each tx_ref is credited at most once, only once its payment is flagged, and every `total_paid` is the sum of that user's credits |
| PaymentLedger.Ledger.GetOrCreateDashboard | universities/views.py:844 | returns the user's dashboard, creating one with the defaults when there was none; nothing else changes |
| PaymentLedger.Ledger.CreateDashboard | universities/models.py:82-88 | a new dashboard with the defaults joins the ledger; payments and credits are unchanged |
| PaymentLedger.Ledger.AddPayment | universities/views.py:875-882 | a new `Payment` row under an unused tx_ref (the column is unique, payments/models.py:8); it is not yet credited |
| PaymentLedger.Ledger.SetStatus | manual_verify_payment.py:105-109 | only that payment's status changes |
| PaymentLedger.Ledger.CreditByUpdate | universities/views.py:851-855 | `update_subscription(amount, 500)` on the user's dashboard, then the payment is flagged and one credit of `amount` is logged; the ledger invariant holds |
| PaymentLedger.Ledger.CreditByFallback | universities/views.py:908-918 | the fallback update on the user's dashboard, then the flag and one credit; the ledger invariant holds |
| PaymentLedger.Ledger.Repair | universities/views.py:863-869 | reactivation of one dashboard; `total_paid` and the credits are unchanged |
| PaymentLedger.Ledger.SetList | universities/views.py:465-470 | one list of one dashboard is replaced; nothing else changes |
| PaymentLedger.Ledger.SetStatusAndEnd | universities/serializers.py:109-113 | one dashboard's status and end date are overwritten; nothing else changes |
| PaymentLedger.Ledger.MarkVerified | universities/management/commands/fix_payment_verification.py:19-24 | one dashboard becomes verified; nothing else changes |
| PaymentLedger.CreditedIsFlagged | payments/models.py:12-13 | every tx_ref in the credit log is a payment whose `subscription_updated` flag is set |
| ChapaWebhook.SignatureReply | universities/views.py:751-790 | 500 without a secret; 401 "signature not found" exactly when both headers are missing; the request passes exactly when a present header equals the expected digest |
| ChapaWebhook.ByEmailAfterFailure | universities/views.py:822-834 | after a failed id lookup the user is the first with the given email; "no email provided" exactly when the email is missing or empty |
| ChapaWebhook.ResolveUser | universities/views.py:806-837 | a resolved user is a known user; every failure is a 400 |
| ChapaWebhook.ResolveGenerated | universities/views.py:806-813 | a reference generated for an existing user resolves to that user |
| ChapaWebhook.Handle | universities/views.py:740-978 | signature rejections, a missing tx_ref (400) and a non-'success' status (200 "received, not successful") change nothing; an unresolved user returns the 400 and changes nothing; otherwise the ledger goes through the existing-payment or the new-payment step, and the invariant (each tx_ref credited at most once) is kept |
| ChapaWebhook.ApplyExisting | universities/views.py:839-872 | an unflagged payment is credited through `update_subscription` with its own amount; a flagged one only repairs an inactive dashboard |
| ChapaWebhook.ApplyNew | universities/views.py:874-918 | a new 'success' payment of 500, flagged, is created and credited through the fallback |
| ChapaWebhook.ReplayAddsNothing | universities/views.py:841-872 | a webhook for an already-flagged tx_ref adds no credit, no payment and nothing to any `total_paid` |
| ChapaWebhook.NewPaymentIsOneMonth | universities/views.py:875-918 | a new tx_ref changes the user's subscription exactly as `update_subscription(500)` would: +500 and one month |
| ManualVerify.ManualUser | manual_verify_payment.py:66-88 | the user found is a known user; with an email given, nobody is found only when no user has that email |
| ManualVerify.ManualUserOfBuild | manual_verify_payment.py:68-74 | a reference generated for an existing user names that user, whatever the email |
| ManualVerify.WithVerifiedRow | manual_verify_payment.py:90-109 | after `get_or_create` the row exists with status 'success': an existing row keeps everything else, a new one is the 500 default, unflagged; dashboards and credits are untouched |
| ManualVerify.VerifyAndUpdate | manual_verify_payment.py:22-155 | without the secret, without a verify response, or unless both the envelope and `data.status` say 'success', it returns False and changes nothing; an unidentified user gives False and no change; otherwise True, with the row fixed and an unapplied payment credited by hand; the ledger invariant holds |
| ManualVerify.Apply | manual_verify_payment.py:90-155 | the row is got or created and set to 'success', the dashboard got or created, and the payment credited only when its flag is unset |
| ManualVerify.ManualApplies | manual_verify_payment.py:126-142 | an unapplied payment adds exactly 500 and one month, activates and verifies, sets the end date 30 days past the later of today and the old end, flags the row and logs one credit of 500 |
| ManualVerify.ManualIdempotent | manual_verify_payment.py:151-155 | running the script twice for the same tx_ref and user leaves the state of the first run |
| DashboardSerializers.AdminsNotPrompted | universities/serializers.py:150-152 | superusers, staff and members of the 'admin' group are never prompted to pay |
| DashboardSerializers.PromptRule | universities/serializers.py:146-169 | for anyone else with a known flag, prompted exactly when there is no end date or it is before today, whatever the flag; with no flag, exactly when there is no end date |
| DashboardSerializers.CurrentNotPrompted | universities/serializers.py:161-167 | an end date of today or later is never prompted |
| DashboardSerializers.ValidateUsername | universities/serializers.py:25-29 | "Username taken" exactly when an existing name equals the value ignoring case; otherwise the value lowercased |
| DashboardSerializers.ValidatedKeepsUnique | universities/serializers.py:25-29 | adding a validated name to names unique ignoring case keeps them unique ignoring case |
| DashboardSerializers.EmptyEditKeeps | universities/serializers.py:111-112 | a payload without either key leaves status and end date as they were |
| DashboardSerializers.AdminUpdateIsLocal | universities/serializers.py:100-116 | the edit touches no payment, no credit and no other user's dashboard, and changes nothing of this user's subscription but status and end date |
| DashboardSerializers.AdminUpdate | universities/serializers.py:100-116 | the intended edit: with a payload the dashboard is got or created and status and end date take the payload's values where given; the ledger invariant holds |
| DashboardSerializers.AdminUpdateSets | universities/serializers.py:109-114 | the intended edit leaves the payload's status and end date on the user's dashboard, and keeps the old values of keys it lacks |
| DashboardSerializers.UserUpdateIgnoresPayload | universities/serializers.py:89-116 | as written, with `source='*'`, `pop('dashboard', None)` is None and no payload changes the ledger |
| DashboardSerializers.UserUpdateLosesEdit | universities/serializers.py:89-116 | an admin's 'active' for an inactive dashboard is lost as written, while the intended edit activates it |
| DashboardView.LatestOf | universities/views.py:278-288 | the first row under the ordering `-payment_date`: None exactly when the set is empty, otherwise a payment no other in the set is later than |
| DashboardView.NewestFirst | universities/views.py:334-336 | only drafts with the user's email, no more than there are drafts |
| DashboardView.FirstTxRef | universities/views.py:341-342 | the first non-empty `payment_tx_ref` of the drafts, and None exactly when all are empty |
| DashboardView.FindDraftTxRef | universities/views.py:334-349 | the loop over the user's five newest drafts returns the first non-empty tx_ref among them |
| DashboardView.ChoosePayment | universities/views.py:278-361 | `payment_to_use`: the latest 'success' payment; else the latest payment of the last 48 hours, or else the latest recent payment of anyone with the same email; else, for status 'none' only, the tx_ref of the five newest drafts; else nothing |
| DashboardView.PickedIsRow | universities/views.py:314-328 | a successful or recent pick is an existing payment row |
| DashboardView.SuccessPreferred | universities/views.py:314-320 | a 'success' payment is chosen exactly when the user has one, and then it is the user's own 'success' row |
| DashboardView.Promoted | universities/views.py:322-327 | the picked recent row becomes 'success' exactly when it was already or is less than 48 hours old; no amount, flag, dashboard or credit changes |
| DashboardView.WithDraftPayment | universities/views.py:343-360 | a draft's tx_ref that names a row uses that row unchanged; otherwise a new, unflagged row is created |
| DashboardView.Load | universities/views.py:255-421 | a superuser's dashboard is repaired with 365 days; for anyone else the pick satisfies the choice rule above and the state becomes the apply stage's result; the ledger invariant holds |
| DashboardView.LoadSuperuser | universities/views.py:257-268 | get-or-create, then an inactive or unverified superuser dashboard becomes active and verified, with an end date today + 365 only when it had none |
| DashboardView.ApplyPick | universities/views.py:322-421 | the promotion, the draft row and the apply stage for the chosen payment |
| DashboardView.Promote | universities/views.py:323-327 | the payment state changes as `Promoted` states |
| DashboardView.Reconcile | universities/views.py:368-420 | an unflagged payment is credited, through `update_subscription` or its fallback, and flagged; a flagged one only repairs an inactive dashboard with 30 days |
| DashboardView.ReconcileOnce | universities/views.py:369-408 | after the apply stage the payment is flagged, and a second apply credits nothing and adds nothing to `total_paid` |
| DashboardView.LoadIsLocal | universities/views.py:255-421 | loading one user's dashboard changes no other user's subscription fields or lists |
| DashboardView.EditTarget | universities/views.py:454-467 | 400 "required" exactly when the id or the list name is missing or empty; 404 exactly when the university does not exist; 400 "Invalid list name: …" exactly for a name outside the five; otherwise the id and the list |
| DashboardView.EditList | universities/views.py:452-501 | each error changes nothing but creating the dashboard; otherwise `post` adds the university to the named list and `delete` removes it; the ledger invariant holds |
| DashboardView.EditIsLocal | universities/views.py:469-498 | an edit changes only the named list of this user, and the university is in it afterwards exactly for `post` |
| DashboardView.AddThenRemove | universities/views.py:470-498 | removing a university just added restores the lists, when it was not there before |
| DashboardView.EditIdempotent | universities/views.py:470-498 | adding twice is adding once; removing twice is removing once |
| FixStuckSpec.FlagAll | fix_stuck_payment.py:82-83 | flagging a set of rows keeps every tx_ref |
| FixStuckSpec.Fixed | fix_stuck_payment.py:67-83 | after n hand applications adding `total` in all: `total_paid` + total, months + n whatever the amounts, active and verified, end date 30·n days past the later of today and the old end; with no rows nothing changes |
| FixStuckSpec.FixedStep | fix_stuck_payment.py:70-78 | one more application is the hand-written update with that payment's own amount and exactly one month |
| FixStuckSpec.FixIdempotent | fix_stuck_payment.py:62-83 | after a run the user has no unprocessed 'success' rows left, and a second run changes nothing |
| FixStuckPayment.FixByEmail | fix_stuck_payment.py:21-100 | with no user for the email it returns False and changes nothing; otherwise True, the dashboard is got or created, exactly the user's 'success' rows with the flag unset are applied and flagged, the dashboard ends as `Fixed` over their amounts, and the ledger invariant (each tx_ref credited at most once) holds |
| FixStuckPayment.ApplyAll | fix_stuck_payment.py:62-83 | the loop leaves the state `AfterFix` describes and only appends to the credit log |
| FixVerificationSpec.Repaired | universities/management/commands/fix_payment_verification.py:19-22 | a looked-at dashboard is verified exactly when it was or is active; nothing else changes, and it no longer needs repair |
| FixVerificationSpec.VisitUnknown | universities/management/commands/fix_payment_verification.py:26-27 | an id that names no user is skipped: nothing changes and nothing is counted |
| FixVerificationSpec.FixesAdd | universities/management/commands/fix_payment_verification.py:19-22 | visiting one more user counts that user exactly when its dashboard was active and unverified |
| FixVerificationSpec.VisitKnown | universities/management/commands/fix_payment_verification.py:16-22 | checking an existing user's id is getting or creating the dashboard and repairing it |
| FixVerificationSpec.VisitedRepaired | universities/management/commands/fix_payment_verification.py:14-22 | every visited user's dashboard exists and is left repaired |
| FixVerificationSpec.VisitedTwice | universities/management/commands/fix_payment_verification.py:14-22 | visiting the same ids twice is visiting them once, and the second visit counts nobody |
| FixVerificationSpec.FixVerificationIdempotent | universities/management/commands/fix_payment_verification.py:9-31 | a second run fixes nobody and changes nothing |
| FixVerificationSpec.PaidActiveAreVerified | universities/management/commands/fix_payment_verification.py:11-22 | after the command every existing user with a 'success' payment whose dashboard is active is verified, and only `is_verified` changed |
| FixPaymentVerification.FixVerification | universities/management/commands/fix_payment_verification.py:9-31 | the ledger becomes `AfterFixVerification` of the old one, and `fixed_count` is the number of paid users whose dashboards were active and unverified; the ledger invariant holds |
| FixPaymentVerification.Visit | universities/management/commands/fix_payment_verification.py:14-27 | one pass of the loop: an unknown id is skipped, a known one is checked, and the count grows by the repairs |
| FixPaymentVerification.VisitUser | universities/management/commands/fix_payment_verification.py:16-22 | the dashboard is got or created and repaired; `fixed` says whether it was active and unverified |
| FixPaymentVerification.RepairDashboard | universities/management/commands/fix_payment_verification.py:19-22 | only `is_verified` of that dashboard changes, set when it was active |
| GamificationSpec.LevelMonotone | gamification/models.py:46-48 | the level `total_points // 100 + 1` never drops when points grow |
| GamificationSpec.LevelAtLeastOne | gamification/models.py:38-48 | with non-negative points the level is at least 1, and the defaults (0 points, level 1) agree with the formula |
| GamificationSpec.WithProfileConsistent | gamification/signals.py:74 | creating a profile keeps the store consistent: rows unique per (user, achievement), points equal to what the rows earned, level to match |
| GamificationSpec.AwardedConsistent | gamification/signals.py:66-79 | awarding keeps the store consistent, so a user's points are always the sum of the points of the achievements the user holds |
| GamificationSpec.AwardSeqConsistent | gamification/signals.py:35-64 | a receiver's sequence of awards keeps the store consistent |
| GamificationSpec.TouchedConsistent | gamification/signals.py:19-22 | stamping `last_activity` keeps the store consistent |
| GamificationSpec.AwardIdempotent | gamification/signals.py:66-75 | awarding the same achievement twice equals awarding it once, so its points are added once; an unknown name changes nothing |
| GamificationSpec.AwardPoints | gamification/signals.py:69-75 | a new award adds exactly the achievement's points to this user's (possibly new) profile and changes no other profile |
| GamificationSpec.AwardSeqHeld | gamification/signals.py:66-79 | after awarding a list of names a row exists exactly when it existed or is one of the catalogued names |
| GamificationSpec.AwardSeqGrows | gamification/signals.py:66-79 | awarding only adds rows and profiles |
| GamificationSpec.AwardSeqNoop | gamification/signals.py:69-73 | when every catalogued name is already held, awarding them changes nothing |
| GamificationSpec.LoginRule | gamification/signals.py:13-22 | after a login the user holds 'first_login' (when it exists) and the profile's `last_activity` is now |
| GamificationSpec.ThresholdRules | gamification/signals.py:35-64 | on `post_add`: 'favorite_collector' at 5 favorites, 'first_application' at 1 and 'application_master' at 10 applications, 'first_acceptance' at 1 acceptance, 'visa_ready' at 1 visa; any other action awards nothing |
| GamificationSpec.DueListMatchesReceivers | gamification/management/commands/award_retroactive_achievements.py:21-54 | the command tries exactly what the receivers would award after a `post_add` with the current counts, plus 'first_login' for an active dashboard and 'profile_complete' for a complete profile |
| GamificationSpec.UsersUpdatedBound | gamification/management/commands/award_retroactive_achievements.py:56-58 | `users_updated` is at most the number of users |
| GamificationSpec.RetroUserGrows | gamification/management/commands/award_retroactive_achievements.py:15-54 | one user's pass only adds rows and profiles |
| GamificationSpec.RetroUserSettles | gamification/management/commands/award_retroactive_achievements.py:15-54 | after one user's pass a user with a dashboard has a profile and every due achievement that exists |
| GamificationSpec.RetroUserNoop | gamification/management/commands/award_retroactive_achievements.py:15-66 | a settled user's pass changes nothing |
| GamificationSpec.SettledGrows | gamification/management/commands/award_retroactive_achievements.py:13-66 | a settled user stays settled while other users are processed |
| GamificationSpec.RetroAllGrows | gamification/management/commands/award_retroactive_achievements.py:13-66 | the command only adds rows and profiles |
| GamificationSpec.RetroAllSettles | gamification/management/commands/award_retroactive_achievements.py:13-66 | after the command every listed user is settled |
| GamificationSpec.RetroAllNoop | gamification/management/commands/award_retroactive_achievements.py:13-66 | when all users are settled the command changes nothing and updates no user |
| GamificationSpec.RetroIdempotent | gamification/management/commands/award_retroactive_achievements.py:9-72 | a second run awards nothing and reports 0 users updated |
| Gamification.UserProfile.constructor | gamification/models.py:36-41 | a new profile has 0 points, level 1, no streak, and activity now |
| Gamification.UserProfile.AddPoints | gamification/models.py:46-49 | exactly `points` more, and the level recomputed from the new total; nothing else changes |
| Gamification.UserProfile.Touch | gamification/signals.py:19-22 | only `last_activity` changes |
| Gamification.AchievementStore.constructor | gamification/models.py:5-41 | an empty store over a catalogue is consistent |
| Gamification.AchievementStore.GetOrCreateProfile | gamification/signals.py:74 | the user's profile, created with the defaults when missing; consistency is kept |
| Gamification.AchievementStore.Award | gamification/signals.py:66-79 | a row is created exactly when the name exists and the user does not hold it, and then its points go to the user's profile; the store stays consistent |
| Gamification.AchievementStore.AddPointsTo | gamification/signals.py:75 | only that user's profile gains the points |
| Gamification.AwardWhen | gamification/management/commands/award_retroactive_achievements.py:22-54 | one guarded check: award when due, and record the name when a row was created |
| Gamification.OnUserCreated | gamification/signals.py:8-11 | a created user gets a profile; a plain save changes nothing |
| Gamification.OnLogin | gamification/signals.py:13-22 | the store becomes `LoggedIn`: 'first_login' awarded, then the profile stamped |
| Gamification.OnUserSaved | gamification/signals.py:24-28 | 'profile_complete' is awarded when first name, last name and email are all non-empty |
| Gamification.OnFavoritesChanged | gamification/signals.py:35-43 | the favourites threshold rule |
| Gamification.OnAppliedChanged | gamification/signals.py:45-52 | the two application thresholds |
| Gamification.OnAcceptedChanged | gamification/signals.py:54-58 | the acceptance threshold |
| Gamification.OnVisaChanged | gamification/signals.py:60-64 | the visa threshold |
| Gamification.RetroStep | gamification/management/commands/award_retroactive_achievements.py:14-66 | one user: skipped without a dashboard, otherwise profile then the seven checks; `awarded_this_user` has one name per row created |
| Gamification.TryFirst | gamification/management/commands/award_retroactive_achievements.py:21-39 | the first four checks, in the command's order |
| Gamification.TryRest | gamification/management/commands/award_retroactive_achievements.py:41-54 | the last three checks |
| Gamification.AwardRetroactive | gamification/management/commands/award_retroactive_achievements.py:9-72 | the store becomes `RetroAll` over the users in order; `achievements_awarded` is the number of rows created and `users_updated` the number of users who got at least one |
| Notifications.VisibleMeansNotExpired | notifications/views.py:19-26 | the views' filter agrees with `is_expired` (notifications/models.py:28-29): visible means active, not expired and addressed to the user; a notification is still visible at its exact expiry instant, and one without expiry never expires |
| Notifications.DefaultsVisible | notifications/models.py:16-20 | a notification with the defaults (audience 'all', active, no expiry) is visible to every user |
| Notifications.Kept | notifications/views.py:19-44 | the kept notifications are the visible ones in table order, each annotated with whether the user has read it; with 'unread' only the unread ones; no visible one that passes is dropped |
| Notifications.ListRules | notifications/views.py:15-47 | the list holds at most 50 visible notifications, the first ones kept; 'unread' shows only unread ones, and any other status, 'all' or unknown, behaves like 'active' |
| Notifications.VisibleIds | notifications/views.py:55-60 | an id is listed exactly when some visible notification has it |
| Notifications.VisibleIdsDistinct | notifications/views.py:55-67 | with unique notification ids the visible ids have no repeats |
| Notifications.NewIdsMembers | notifications/views.py:67-69 | `to_create` holds exactly the visible ids not already read |
| Notifications.NewIdsNone | notifications/views.py:67-70 | when everything is read `to_create` is empty |
| Notifications.NewIdsDistinct | notifications/views.py:67-69 | `to_create` has no repeats when the ids have none |
| Notifications.RowsFor | notifications/views.py:69 | one read row for the user per id, in order |
| Notifications.MarkAllReadEffect | notifications/views.py:52-72 | afterwards every visible notification is read by the user, and each added row is the user's own, for a visible notification the user had not read |
| Notifications.MarkAllReadIdempotent | notifications/views.py:63-71 | a second `mark_all_read` adds nothing |
| Notifications.MarkAllReadKeepsUnique | notifications/models.py:37-38 | the added rows keep read rows unique per (user, notification) |
| Notifications.NotificationBoard.constructor | notifications/models.py:6-38 | a board with unique notification ids and no read rows is valid |
| Notifications.NotificationBoard.MarkAllRead | notifications/views.py:52-72 | the notifications stay and exactly the rows of `to_create` are appended; the board stays valid |
| Emails.FinishedRules | emails/services.py:22-65 | the log row ends 'sent' with a send time exactly when `send_mail` returned a truthy value, which is also exactly when the reply is a success; a falsy return ends 'failed' with "Email sending returned False", an exception ends 'failed' with its message; recipient, subject, body, template and sender are the caller's |
| Emails.TallyCounts | emails/services.py:82-99 | in a bulk send `sent + failed` is the number of recipients, there is one error line per failure, and `sent` counts the deliveries |
| Emails.DeliveredAt | emails/services.py:92-94 | the listed positions are positions of deliveries |
| Emails.BulkLogsRows | emails/services.py:88-91 | a bulk send leaves one log row per recipient, the k-th being that recipient's single send |
| Emails.BulkStep | emails/services.py:88-97 | one more recipient extends the tally and the rows of the shorter prefix |
| Emails.TemplateContext | emails/services.py:109-118 | the context holds the caller's keys (none when it passed None) plus `user_name`, `user_email` and `user_username`, which override the caller's, with `user_name` the first name or else the username; every other caller key keeps its value |
| Emails.WithDefaultsRules | emails/services.py:202-206 | after installing, every default name is present, existing rows are untouched, and each new row is the default of that name |
| Emails.WithDefaultsPresent | emails/services.py:203-206 | when every name is already present, nothing changes |
| Emails.DefaultsIdempotent | emails/services.py:149-206 | a second run of `create_default_templates` adds nothing |
| Emails.EmailStore.constructor | emails/models.py:6-50 | a store with the given templates and an empty log |
| Emails.EmailStore.SendSingle | emails/services.py:16-65 | exactly one row is appended, the finished row of the send, and the reply is the pair the source returns for that outcome |
| Emails.EmailStore.SendBulk | emails/services.py:78-99 | the tally is `TallyOf` the outcomes, so `sent + failed` is the number of recipients and there is one error per failure, and the rows of `BulkLogs` are appended |
| Emails.EmailStore.SendTemplate | emails/services.py:102-131 | a missing or inactive template gives (False, "Template '<name>' not found") and no row; the subject and then the body are formatted with the context, and an exception there gives (False, its text) and no row; otherwise it is a single send of the rendered subject and body, logged with the template's name |
| Emails.FormatEscape | emails/services.py:121-122 | `str.format` reads `{{` and `}}` as single braces: text with its braces doubled formats to itself whatever the context, and what follows is formatted on its own |
| Emails.FormatPlain | emails/services.py:121-122 | text without braces is copied |
| Emails.FormatDoubled | emails/services.py:121-122 | `{{name}}` gives the literal `{name}` and reads no field |
| Emails.FormatField | emails/services.py:121-122 | a named field is its value from the context; a name missing from the context raises KeyError and nothing after it is rendered |
| Emails.PositionalField | emails/services.py:121-122 | an automatic field `{}` raises IndexError, since only keyword arguments are given |
| Emails.LoneBraces | emails/services.py:121-122 | a lone `{` or `}` raises ValueError |
| Emails.UserNameField | emails/services.py:109-122 | without a caller context, `{user_name}` renders as the first name, or the username when that is empty |
| Emails.FirstNameField | emails/services.py:109-131 | without a caller context, `{first_name}` raises KeyError, which the generic handler returns as `'first_name'` |
| Emails.GreetingLiteral | emails/services.py:157 | the greeting `Dear {{user_name}},` renders as the literal `Dear {user_name},` whatever the context |
| Emails.DefaultsGreetLiterally | emails/services.py:153-200 | each default body renders as `Dear {user_name},` followed by the rendering of its own text: the user's name is never filled in |
| Emails.EmailStore.CreateDefaultTemplates | emails/services.py:149-206 | the templates become `WithDefaults` of the old ones and the three defaults |
| ContentCreator.SaveAsWrittenSecondRow | content_creator/models.py:77-80 | the guard as written checks only `not self.pk`, true for no key or key 0: an instance saved with an unused non-zero primary key while a row exists is accepted and leaves two rows |
| ContentCreator.SaveKeepsSingleton | content_creator/models.py:77-80 | with the intended guard the table never holds two rows; re-saving the existing row is allowed and replaces it; a save without a key is refused exactly when a row exists |
| ContentCreator.OneKey | content_creator/models.py:73-75 | the single settings row is found under its one key |
| ContentCreator.SomeKey | content_creator/models.py:84 | an existing settings row has a key |
| ContentCreator.CreatorBoard.constructor | content_creator/models.py:5-85 | empty settings and applications, which is valid |
| ContentCreator.CreatorBoard.Save | content_creator/models.py:77-80 | the outcome is that of the intended guard: an error leaves the row as it was, success stores the instance under its key; at most one row remains and applications are untouched |
| ContentCreator.CreatorBoard.GetSettings | content_creator/models.py:82-85 | afterwards exactly one row exists and it is returned; with no row a closed one with the defaults (35.00%, 5 creators, tab hidden) is created, otherwise nothing changes |
| ContentCreator.CreatorBoard.Apply | content_creator/views.py:22-32 | closed applications are refused with "Creator applications are currently closed.", a second application with "You have already submitted an application.", both leaving the applications unchanged; otherwise a pending application for the user is stored; the settings row exists afterwards |
| ContentCreator.Represent | content_creator/serializers.py:24-62 | only `premium_content` and `opportunity_link` are ever changed; they are kept for staff and for members whose dashboard is active and set to None for everyone else; the creator name is "MAT" for staff authors, and `is_verified` is the author's staff flag |
| ContentCreator.NoDashboardHidden | content_creator/serializers.py:51-60 | a viewer who is anonymous, absent or a non-staff user without a dashboard never sees the premium fields |
| ContentCreator.SubscribeRule | content_creator/views.py:98-118 | for an active post, a user whose dashboard is active gets 400 and anyone else the placeholder 200; nothing is stored |
| ContentCreator.PostsBy | content_creator/views.py:129 | the user's posts are exactly the posts whose creator is the user |
| ContentCreator.EarningsAppend | content_creator/views.py:130-132 | a new revenue row adds its amount to its own creator's total only |
| ContentCreator.EarningsNonNegative | content_creator/views.py:132 | non-negative amounts give a non-negative total |
| ContentCreator.ByNewestSorted | content_creator/models.py:48-49 | the posts under `ordering = ['-created_at']` are a reordering of the table, newest first |
| ContentCreator.RecentPostsRules | content_creator/views.py:129-137 | `posts[:5]` are the user's own posts, newest first, and no post of the user left out is newer than any of them |
| ContentCreator.RepresentedWithoutRequest | content_creator/views.py:137 | a post serialized without a request keeps its author and time and has `premium_content` and `opportunity_link` set to None |
| ContentCreator.CreatorDashboard | content_creator/views.py:122-138 | a refusal is a 403 for a non-staff user; otherwise at most five recent posts, no more than the user's posts |
| ContentCreator.CreatorDashboardRules | content_creator/views.py:122-138 | refused with 403 exactly for non-staff users without an approved application; otherwise the count of the user's posts, the user's revenue total, and at most five of the user's posts, newest first, none older than a post left out, with the premium fields hidden |
| Opportunities.SubscribeRepeat | opportunities/views.py:129-148 | the attribution is got-or-created per (user, creator), so a repeated subscription changes nothing; `subscribers_gained` and the creator's `active_subscribers` go up by exactly one precisely when the attribution is new, and no other profile changes |
| Opportunities.ClientIpRule | opportunities/views.py:88-94 | with a non-empty X-Forwarded-For header the address is the header up to its first comma, unstripped (all of it when it has no comma); otherwise REMOTE_ADDR |
| Opportunities.DetailFor | opportunities/views.py:46-77 | the full serializer is used exactly for a member whose dashboard is active, and then `user_has_subscription` is true and `subscription_required` false; the reverse otherwise |
| Opportunities.ReviewRules | opportunities/admin_views.py:88-111 | only 'approve' and 'reject' are accepted; approval makes the applicant an approved creator, keeping an existing profile's other fields or creating one with the application's expertise; rejection leaves profiles alone; both record notes, time and reviewer; no other user's profile changes |
| Opportunities.OpportunityBoard.constructor | opportunities/models.py:6-143 | the given opportunities and profiles, everything else empty, which is valid |
| Opportunities.OpportunityBoard.ApproveOpportunity | opportunities/views.py:178-195 | 404 for an unknown opportunity; 'approve' publishes it, 'reject' rejects it; any other action is 400 with nothing saved; no other opportunity changes |
| Opportunities.OpportunityBoard.Subscribe | opportunities/views.py:118-154 | 404 unless the opportunity is published, 400 for a user whose dashboard is active, both changing nothing; otherwise 200 and the state becomes `Subscribed` |
| Opportunities.OpportunityBoard.Retrieve | opportunities/views.py:58-86 | 404 unless published, changing nothing; otherwise the view row (user None when anonymous) is got-or-created, `views_count` goes up by exactly one and the reply is `DetailFor` the viewer |
| Opportunities.OpportunityBoard.FirstSettings | opportunities/admin_views.py:16-18 | the first settings row, created with the defaults when there is none; an existing table is unchanged |
| Opportunities.OpportunityBoard.ApplicationStatus | opportunities/admin_views.py:14-34 | `can_apply` holds exactly when applications are open and the user has no application; `applications_open` is the first row's flag |
| Opportunities.OpportunityBoard.CreateApplication | opportunities/admin_views.py:41-57 | 400 "Creator applications are currently closed" with no settings or closed ones, 400 "You have already submitted an application" for a second one, then the serializer's 400 for a missing or blank motivation, experience or sample content, all storing nothing; otherwise one pending application with the trimmed text is added and applications stay one per user |
| Opportunities.TextFieldErrors | opportunities/models.py:32-35 | a text field without `blank=True` is an error exactly when it is missing or blank once trimmed |
| Opportunities.ApplicationErrorsRules | opportunities/serializers.py:95-98 | the payload is accepted exactly when motivation, experience and sample content are all filled; each error names one of them and says whether it is missing or blank; `expertise_areas` is never an error |
| Opportunities.OpportunityBoard.Store | opportunities/serializers.py:100-102 | the saved application joins under the next id, for the requesting user, and applications stay one per user |
| Opportunities.OpportunityBoard.Review | opportunities/admin_views.py:83-115 | 404 for an unknown application, 400 for an unknown action, both changing nothing; otherwise 200 and the application and profiles become those of `Reviewed` |
| AdminImport.CreatedDefaults | universities/admin.py:42-68 | the created row ignores the item's id; a missing fee is '0.00', a missing list is empty, and a present name is copied |
| AdminImport.UniItemsCounts | universities/admin.py:40-73 | the loop runs to the end exactly when every item is an object, and then every item is created, skipped or failed exactly once; an error is flagged exactly when a create raised and so marked the transaction for rollback; the old rows stay as a prefix, the table grows by the created count, and (name, country) stays unique |
| AdminImport.UniItemsAbort | universities/admin.py:40-88 | the first item that is not an object ends the loop: the outcome is that of the items before it, with that item's exception recorded |
| AdminImport.UniItemsBrokenTail | universities/admin.py:46-73 | once a create has raised, every later object fails at its `exists()` query: nothing more is created or skipped and the transaction stays broken |
| AdminImport.UniStepKeeps | universities/admin.py:46-68 | an item never removes a university |
| AdminImport.UniItemsCovers | universities/admin.py:46-68 | when no create raised, afterwards the (name, country) of every object the loop reached exists |
| AdminImport.UniItemsKnown | universities/admin.py:46-52 | when the (name, country) of every object the loop reaches already exists, every one is skipped: nothing is created, no create raises and the table is unchanged |
| AdminImport.ImportTwiceCreatesNothing | universities/admin.py:23-88 | pasting the same data a second time leaves the committed table as the first paste left it, and creates nothing when the first paste was not rolled back |
| AdminImport.UniversityImport.constructor | universities/models.py:49-69 | the given university table and no saved import records |
| AdminImport.UniversityImport.Import | universities/admin.py:23-88 | empty text is a warning, undecodable text "Invalid JSON format.", both saving nothing; otherwise a single value counts as a one-item list; a non-object item gives "An error occurred during import: …" with its exception and saves no record; otherwise, after a create that raised, saving the record raises TransactionManagementError into the same handler and no record is saved; without one, one record is saved and the summary reports the counters; the table is the one the admin's atomic block commits, which after a raising create is the old table |
| AdminImport.UniversityImport.ImportItems | universities/admin.py:40-73 | the loop's table, counters, broken transaction and abort are those of `UniItems`, and no import record is saved |
| AdminImport.SiteItemsCounts | universities/admin.py:243-266 | every row is created, updated or an error, exactly once |
| AdminImport.SiteKeysStep | universities/admin.py:249-258 | one row more adds its (country, site name) exactly when it is complete and its upsert does not raise |
| AdminImport.SiteItemsKeys | universities/admin.py:249-266 | the table's keys are the old ones plus those of the complete rows whose upsert does not raise |
| AdminImport.SiteItemsCreated | universities/admin.py:254-263 | the number of job sites grows by exactly the created count |
| AdminImport.SiteItemsUntouched | universities/admin.py:249-266 | a job site that no complete, non-raising row names keeps its URL |
| AdminImport.SiteLastWins | universities/admin.py:254-266 | the last row, when complete, decides its (country, site name)'s URL if its upsert succeeds; if the upsert raises, the table is that of the rows before it and "Row N: <text>" is appended to the errors |
| AdminImport.ShownErrors | universities/admin.py:273-277 | the first five errors are shown as warnings, followed by one "... and N more errors" line when there are more |
| AdminImport.JobSiteImport.constructor | universities/models.py:31-47 | the given job-site table and no saved import records |
| AdminImport.JobSiteImport.Import | universities/admin.py:223-282 | the import record is saved first in every case; undecodable text and a non-array are errors that import no rows; otherwise the table becomes that of `SiteItems`, where a row whose upsert raises is "Row N: <text>" and changes nothing, and the messages report the created and updated counts and the shown errors |
| Common.Take | universities/enhanced_scraper.py:238 | a slice `[:n]`: the first `min(len, n)` elements |
| Scraper.ConfidenceScore | universities/enhanced_scraper.py:727-752 | the score is the sum of its parts (20 for a truthy tuition, 10 for an application fee that is not None, 10 for a truthy deposit, then the capped intake, program and scholarship points) and always lies in [0, 100] |
| Scraper.PointsMonotone | universities/enhanced_scraper.py:739-750 | more intakes, programs or scholarships never lower the score |
| Scraper.ZeroApplicationFeeCounts | universities/enhanced_scraper.py:734-737 | a zero application fee still earns its 10 points, since it is tested against None, while a zero deposit earns none |
| Scraper.DeduplicatePrograms | universities/enhanced_scraper.py:331-342 | the loop with its set of seen name keys keeps exactly the first program of each lowercased, stripped name, in order |
| Scraper.DeduplicatedPrograms | universities/enhanced_scraper.py:331-342 | the kept programs have pairwise different name keys and every key of the input; a program is kept exactly when no earlier one has its key |
| Scraper.FoundShape | universities/enhanced_scraper.py:286-322 | every program filed under a level passed the filter, so its name is 5 to 150 characters long; bachelor programs last 4 years with no thesis key, master programs 2 years with `thesis_required` |
| Scraper.BachelorWins | universities/enhanced_scraper.py:316-322 | a text that matches both term lists is filed as a bachelor program |
| Scraper.ExtractPrograms | universities/enhanced_scraper.py:277-329 | each level is the deduplicated list of the texts filed under it, cut to 15 |
| Scraper.CountryRules | universities/enhanced_scraper.py:344-391 | domain keywords are checked before the top-level domain; 'EDU' gives the United States and 'TR' Türkiye; an unknown top-level domain that is not two letters long gives '' |
| Scraper.Built | universities/enhanced_scraper.py:212-217 | one intake per kept match, built from it |
| Scraper.BuiltAppend | universities/enhanced_scraper.py:227-228 | appending a match appends its intake |
| Scraper.IntakesStep | universities/enhanced_scraper.py:226-228 | one match more adds its intake exactly when no kept intake has that name |
| Scraper.BuiltNames | universities/enhanced_scraper.py:227 | a name is among the kept intakes exactly when some match has that season |
| Scraper.IntakesRules | universities/enhanced_scraper.py:194-228 | the kept intakes have distinct names, one per season met, so at most four; deadlines are at most 100 characters and the start date is empty |
| Scraper.SubsetCard | universities/enhanced_scraper.py:194-199 | a subset of the four season names has at most four elements |
| Scraper.DepositInfo | universities/enhanced_scraper.py:231-236 | one entry per general deposit match, stripped and cut to 150 characters |
| Scraper.KeepIntakes | universities/enhanced_scraper.py:201-228 | the loop keeps exactly `Intakes` of the matches |
| Scraper.CollectDeposits | universities/enhanced_scraper.py:231-236 | the loop collects exactly `DepositInfo` of the matches |
| Scraper.ExtractIntakes | universities/enhanced_scraper.py:188-238 | at most six intakes, in fact at most four, with distinct names, and at most three deposit strings, each the prefix of the full lists |
| Scholarships.Get | universities/scholarship_service.py:34-37 | `dict.get`: the value of a present key, the default otherwise |
| Scholarships.FormatDefaults | universities/scholarship_service.py:33-38 | an empty record gets 'Scholarship', 'Varies', 'See requirements' and ''; a present key is copied even when it is empty |
| Scholarships.FormatForUniversity | universities/scholarship_service.py:30-40 | the first five records, in order, each reshaped by `Format` |
| Scholarships.QueryFor | universities/scholarship_service.py:16-18 | the limit is always sent, the country only when it is a non-empty string |
| Scholarships.ScholarshipsOf | universities/scholarship_service.py:26-28 | the `data` list of a 200 response, and an empty list for any other status or a body without `data` |
| Scholarships.MentioningKept | universities/management/commands/fetch_scholarships.py:48-52 | the filter keeps only records of the input that mention the country, ignoring case, in their eligibility or description |
| Scholarships.MentioningEmpty | universities/management/commands/fetch_scholarships.py:48-56 | the filter is empty exactly when no record mentions the country |
| Scholarships.PickRules | universities/management/commands/fetch_scholarships.py:48-56 | at most three records are picked, all from the input; when some record mentions the country every pick does; when none does the first three are taken; a non-empty list always yields a pick |
| Scholarships.EmptyCountryTakesFirst | universities/management/commands/fetch_scholarships.py:50-51 | an empty country name occurs in every record, so the first three are taken |
| Scholarships.MentioningAll | universities/management/commands/fetch_scholarships.py:48-52 | when every record mentions the country the filter keeps them all |
| Scholarships.FormatEach | universities/management/commands/fetch_scholarships.py:59-66 | the loop reshapes each picked record by `Format`, in order |
| Scholarships.Chosen | universities/management/commands/fetch_scholarships.py:46-68 | a university's new entries are its picked records, each reshaped by `Format` |
| Scholarships.SameFormatting | universities/management/commands/fetch_scholarships.py:59-66 | the command's entries are the service's `format_for_university` of the picked records: the same keys and defaults, and three picks stay under the service's cut of five |
| DataCommands.IntakeMap | universities/management/commands/fix_intake_formats.py:27-31 | an intake object has exactly the keys name, application_deadline and deposit_deadline, holding the given values |
| DataCommands.UnitedStatesTemplate | universities/management/commands/populate_all_real_data.py:11-31 | the United States template, with all four lists non-empty |
| DataCommands.CanadaTemplate | universities/management/commands/populate_all_real_data.py:32-52 | the Canada template, with all four lists non-empty |
| DataCommands.UnitedKingdomTemplate | universities/management/commands/populate_all_real_data.py:53-72 | the United Kingdom template, with all four lists non-empty |
| DataCommands.GermanyTemplate | universities/management/commands/populate_all_real_data.py:73-93 | the Germany template, with all four lists non-empty |
| DataCommands.TurkeyTemplate | universities/management/commands/populate_all_real_data.py:94-113 | the Turkey template, with all four lists non-empty |
| DataCommands.JapanTemplate | universities/management/commands/populate_all_real_data.py:114-134 | the Japan template, with all four lists non-empty |
| DataCommands.DefaultTemplate | universities/management/commands/populate_all_real_data.py:137-156 | the template for every other country, with all four lists non-empty |
| DataCommands.TemplateOf | universities/management/commands/populate_all_real_data.py:170 | whatever the country, the template applied fills all four lists, so a populated university leaves the command's filter |
| DataCommands.TurkishNames | universities/management/commands/populate_all_real_data.py:94-170 | the lookup is by exact name: 'Turkey' has its own template, while 'Türkiye', the name the scraper writes, gets the default |
| DataCommands.TurkeyNotDefault | universities/management/commands/populate_all_real_data.py:94-156 | the Turkish template differs from the default one |
| DataCommands.OtherCountries | universities/management/commands/populate_all_real_data.py:170 | any country other than the six keys gets the default template |
| DataCommands.PopulatedRules | universities/management/commands/populate_all_real_data.py:158-186 | a bare university whose save succeeds is no longer bare, so a second run leaves it alone; a university that was not bare, or whose save failed, is untouched; its id and country never change |
| DataCommands.PopulatedCountRules | universities/management/commands/populate_all_real_data.py:165-179 | the count is at most the number of universities, and zero exactly when no bare university saves |
| DataCommands.FirstToken | universities/management/commands/fix_intake_formats.py:21-24 | an empty deadline stays empty; a non-empty one becomes its first whitespace-separated word; a non-empty all-whitespace deadline makes `split()[0]` raise |
| DataCommands.FixIntakeShape | universities/management/commands/fix_intake_formats.py:14-31 | a rewritten intake has exactly the three keys, keeps its name and holds the first word of each non-empty deadline; the rewrite raises exactly when a deadline is non-empty whitespace |
| DataCommands.FirstTokenStable | universities/management/commands/fix_intake_formats.py:21-24 | a first word is its own first word |
| DataCommands.FixIntakeStable | universities/management/commands/fix_intake_formats.py:14-31 | rewriting a rewritten intake changes nothing |
| DataCommands.TraverseRules | universities/management/commands/fix_intake_formats.py:13-32 | the rewritten list has one intake per intake, each rewritten, and the rewrite of the list raises exactly when some intake's does |
| DataCommands.FixIntakesIdempotent | universities/management/commands/fix_intake_formats.py:11-36 | running the command again on a rewritten university changes nothing |
| DataCommands.FixRowRules | universities/management/commands/fix_intake_formats.py:12-35 | a university's rewrite keeps the number of intakes and every other column, and a second rewrite changes nothing |
| DataCommands.WithFetchedRules | universities/management/commands/fetch_scholarships.py:46-70 | with records fetched, every university gets one to three entries, chosen by its country and formatted as the service does, and nothing else about it changes |
| DataCommands.UniversityTable.constructor | universities/models.py:49-69 | the table holds the given universities |
| DataCommands.UniversityTable.PopulateAllRealData | universities/management/commands/populate_all_real_data.py:158-186 | every university becomes `Populated`: the bare ones whose save succeeds are overwritten from their country's template; the count is the number of those |
| DataCommands.UniversityTable.RewriteIntakes | universities/management/commands/fix_intake_formats.py:13-32 | the inner loop gives `FixIntakes` of the intakes, None when one raises |
| DataCommands.UniversityTable.FixOne | universities/management/commands/fix_intake_formats.py:12-36 | one university: its intakes are rewritten, or nothing changes when the rewrite raises |
| DataCommands.UniversityTable.FixIntakeFormats | universities/management/commands/fix_intake_formats.py:7-36 | without an exception every university with intakes is rewritten and counted; when a rewrite raises the command stops there, with the universities before it saved and the rest as they were |
| DataCommands.UniversityTable.FetchScholarships | universities/management/commands/fetch_scholarships.py:29-70 | on a non-200 response or an empty `data` list nothing changes; otherwise every university's scholarships become those chosen for its country, and all are counted |
| DataCommands.PrefixRaises | universities/management/commands/fix_intake_formats.py:14-32 | once an intake raises, the university's rewrite raises |
| Text.LowerIdempotent | universities/enhanced_scraper.py:337 | lowercasing twice is lowercasing once |
| Text.TrimLeft | universities/enhanced_scraper.py:337 | the left side of `strip()`: a suffix of the text that does not start with whitespace, everything removed being whitespace |
| Text.TrimRight | universities/enhanced_scraper.py:337 | the right side of `strip()`: a prefix of the text that does not end with whitespace, everything removed being whitespace |
| Text.IndexOf | universities/views.py:809 | the position of the first separator, or the length when there is none |
| Text.Split | universities/views.py:809 | `str.split(sep)` always yields at least one part |
| Text.SplitCons | universities/views.py:809-812 | splitting `x + sep + rest`, with no separator in `x`, gives `x` followed by the parts of `rest` |
| Text.Words | universities/management/commands/fix_intake_formats.py:22 | `str.split()` yields only non-empty words |
| Text.FirstWord | universities/management/commands/fix_intake_formats.py:22-24 | `split()` is empty exactly for all-whitespace text, and the first word is its own only word |
| Text.NatToString | universities/views.py:586 | `str(n)` of a natural is a non-empty string of digits |
| Text.ParseNatToString | universities/views.py:806-813 | `int(str(n)) == n`: the id written into a reference is the id read back |
| Text.UnderscoreGroups | manual_verify_payment.py:72 | `int` reads digits grouped by single underscores, so "1_0" is 10 |
| Text.UnderscoreMisplaced | manual_verify_payment.py:72 | a doubled or a leading underscore makes `int` raise |
| Dedup.FirstIndices | universities/enhanced_scraper.py:336-340 | the kept positions are increasing positions of the input |
| Dedup.KeysStep | universities/enhanced_scraper.py:338-339 | one element more adds its key to the seen set, and the element was seen before exactly when its key was already there |
| Dedup.KeysAppend | universities/views.py:1516-1517 | appending an element adds its key |
| Dedup.SeenBeforePrefix | universities/enhanced_scraper.py:336-340 | whether an element was seen before depends only on the elements before it |
| Dedup.FirstOccurrences | universities/enhanced_scraper.py:331-342 | the seen-set loop keeps the subsequence of the input at the positions whose key occurs there for the first time |
| Dedup.FirstOfEachStep | universities/enhanced_scraper.py:336-340 | one element more, as the loop meets it: kept exactly when its key is not in the seen set, which then gains it |
| Dedup.FirstOfEachKeySet | universities/enhanced_scraper.py:331-342 | the kept elements have exactly the keys of the input |
| Dedup.FirstOfEachDistinct | universities/views.py:1516-1518 | no two kept elements share a key |
| Dedup.DistinctKeysCount | universities/enhanced_scraper.py:334-340 | elements with pairwise different keys have as many keys as elements |
| Dedup.FirstOfEachCount | universities/enhanced_scraper.py:331-342 | there are exactly as many kept elements as different keys |
| Dedup.FirstOfEachFromInput | universities/enhanced_scraper.py:336-340 | everything kept comes from the input |
| ViewHelpers.CollectLinks | universities/views.py:1508-1519 | the joined URL of each anchor whose lowered text or href contains a keyword, in page order, with later repeats of a URL dropped |
| ViewHelpers.LinksStep | universities/views.py:1514-1518 | one matching URL more is kept exactly when it is new |
| ViewHelpers.CollectedLinks | universities/views.py:1508-1519 | the collected links have no repeats and are exactly the joined URLs of the matching anchors |
| ViewHelpers.MatchingLinksCover | universities/views.py:1514-1515 | the URL of every matching anchor is among the matching links |
| ViewHelpers.ClassifyPrograms | universities/views.py:1548-1566 | each name goes to the bachelors (a bachelor marker), else to the masters (a master marker), else nowhere, in order |
| ViewHelpers.ClassifiedRules | universities/views.py:1560-1565 | no name is filed twice, so the two lists are together no longer than the input; bachelor entries carry no thesis key and master entries require a thesis |
| ViewHelpers.LeadingAbbreviationMissed | universities/views.py:1560-1562 | the abbreviation markers need a leading space, so "BSc Physics" is filed under neither level |
| ViewHelpers.NotFound | universities/views.py:1560 | a marker whose first two characters never stand side by side in the name does not occur in it |
| ViewHelpers.DedupedIndices | universities/views.py:1573-1582 | the kept positions are increasing positions of the input |
| ViewHelpers.DedupScholarships | universities/views.py:1569-1583 | the loop with its two seen sets keeps exactly `DedupedScholarships` of the items |
| ViewHelpers.DedupedStep | universities/views.py:1576-1582 | one item more: it is kept exactly when it is not blank and neither its link key nor its name key is taken |
| ViewHelpers.DedupedSubsequence | universities/views.py:1573-1582 | the kept items are the input at increasing positions |
| ViewHelpers.DedupedDistinct | universities/views.py:1576-1582 | no kept item is blank, and no two kept items share a link key, the empty one included, or a name key |
| ViewHelpers.DedupedMaximal | universities/views.py:1576-1582 | every item that is not blank is kept, or shares its link key or name key with a kept item |
| ViewHelpers.ScholarshipDedupRules | universities/views.py:1569-1583 | the three rules for the scholarships' own keys, `(x or '').strip().lower()` of link and name: kept items come from the input, none is blank, keys are unique, and every dropped non-blank item collides with a kept one |

## Left out

- FixStuckPayment.FixByEmail: its contract ties each payment to `FixStuckSpec.Fixed` and keeps the ledger invariant. For the ghost credit log it states only that the old log is a prefix of the new one, not the number of credits appended, which keeps the loop within the solver's budget.
- DataCommands.TemplateOf: template program entries carry name, duration, language and thesis flag. `required_documents` and `notes` (populate_all_real_data.py:13-155) are not carried, because no property depends on them and the string constants are costly to the solver.
- Emails.PyFormat: a replacement field with a conversion (`!`), a format spec (`:`), an attribute or index lookup (`.`, `[`) or nested braces is looked up by its whole text as a key, where Python would convert, pad or raise another error. A KeyError's text is the key in single quotes, which is Python's `repr` only for keys without quotes or backslashes. The limit on the digits of a numbered field is not modelled.
- Emails.EmailStore.SendTemplate: context values are strings.
- Scraper.ExtractIntakes: the regular-expression matching of intakes and deposits is an oracle. Its matches, in the order the loops meet them, are the input, and so is the deposit text found near each intake.
- Scraper.CountryRules: `tldextract` and `pycountry` are oracles. The domain and suffix are inputs, and the country database is a map parameter.
- ViewHelpers.CollectLinks: `urljoin` is a function parameter, and HTML parsing gives the anchors as values.
- Text: `lower()`, `strip()` and `split()` are modelled for ASCII letters and ASCII whitespace only, with no Unicode case mapping.
- The webhook's HMAC-SHA256 signature (universities/views.py:768-786) is an oracle. `ChapaWebhook.SignatureReply` models only "accepted iff either header equals the computed hash", and 401 when both headers are missing.
- The webhook's part after the ledger update (universities/views.py:924-974) is not modelled: draft lookup, account auto-creation and JWT issuance are ORM and token-library glue.
- The Chapa initialise and verify HTTP calls, `send_mail`, the ScholarshipOwl request, page fetching and all scraping are network I/O. Their results are parameters.
- Fee extraction (`_extract_currency_number`, `extract_fees`) is regex and float parsing through a third-party library.
- Concurrency: no locking exists between the webhook and the dashboard reconciliation. Each route is modelled as one atomic sequential method.
- Exceptions raised by the ORM inside the routes' outer `try` blocks (a failed save, a database error) are not modelled, apart from:
  - the university import's create that raises, given as a flag per item: it marks the admin's atomic transaction for rollback, so every later query raises TransactionManagementError and the paste is rolled back; its non-object item that ends the import is modelled too, but an `exists()` query that raises on its own is not;
  - the job-site import's per-row errors: a non-object row, and an `update_or_create` that raises, given as the exception text per row, which its savepoint confines to that row;
  - the failing saves of `populate_all_real_data`, given as a set of ids;
  - the raising intake rewrite of `fix_intake_formats`;
  - the `send_mail` exception.
- `send_single_email`'s outer exception handler (emails/services.py:66-75) is not modelled: it catches ORM failures. `send_template_email`'s generic handler (emails/services.py:130-131) is modelled for the exceptions that formatting raises, and not for ORM failures.
- `EmailService.get_user_emails` and `BulkEmail.get_success_rate` are a queryset filter and float division.
- `NotificationRead.read_at` and the other timestamps that no decision reads are not carried. `UserProfile.streak_days` is carried, but the core never changes it.
- The achievement catalogue is a map from name to points, so achievement names are unique by construction. An unknown name is a missing key, and awarding it changes nothing.
- The retroactive command's dashboards are a read-only parameter: their status and the sizes of their four lists.
- The gamification signal receivers are disconnected in gamification/apps.py:7-10. The receivers are modelled as methods, as if connected.
- `CreatorRevenue` uniqueness per (creator, subscriber, post) (content_creator/models.py:61-62) is not modelled: revenue rows are only read, as a list, by `creator_dashboard`.
- `OpportunityView` rows are a set, so uniqueness per (opportunity, user, ip) holds by construction.
- The admin imports' JSON values are modelled as strings and string lists. The `json.loads` outcome, including a decode error's message, is a parameter.
- The `fetch_scholarships` command's save failures and progress output are not modelled. A non-200 response and an empty `data` list both leave every university unchanged.
- Decimal arithmetic is modelled on integers. The one division, `amount_paid // monthly_price`, is Decimal `//`, which truncates toward zero (`Common.DecimalFloorDiv`).
- Aggregates and statistics views, random username suggestions, Celery tasks, SQLite import scripts, migrations, URL configuration and admin HTML formatting are glue with no decision logic.
- Opportunities.OpportunityBoard.CreateApplication: a null text field, which the serializer refuses as "This field may not be null.", is not modelled; `expertise_areas` is a list of strings; the error dict is given as one "field: message" line per error.

## Findings

| source | as written | input that shows it | evidently intended | confidence | as-written member | corrected member |
|---|---|---|---|---|---|---|
| content_creator/models.py:77-80 | the singleton guard refuses a save only when the instance's primary key is falsy (none or 0) and a row exists | with row 1 stored, saving an `ApplicationSettings` whose primary key is 2 inserts a second row | every save that is not of the existing row is refused while a row exists, so the table never holds two rows | medium, not executed | ContentCreator.SaveAsWrittenSecondRow | ContentCreator.SaveKeepsSingleton |
| universities/serializers.py:89-116 | `dashboard` is declared with `source='*'`, so DRF merges the payload's keys into `validated_data` and `update` pops no 'dashboard' key | an admin PATCH with `{"dashboard": {"subscription_status": "active"}}` for a user whose dashboard is inactive leaves it inactive | the nested payload reaches `update` and edits the dashboard's status and end date | medium, not executed | DashboardSerializers.UserUpdateLosesEdit | DashboardSerializers.AdminUpdateSets |
