# Money and access: a verified model

The marketplace sells access to digital products against a prepaid wallet. This project models the part
of it that moves money or access, and proves what that part is relied on for:

- a wallet with an append-only ledger, whose reference is the idempotency key of every movement
  (`Ledger`, `LedgerConcurrency`, `Keys`);
- top-ups, gateway webhooks, direct and cart checkout, coupons, invoice numbers, seller earnings, refunds
  and manual adjustments around it (`Pricing`, `Billing`, `Conservation`, `BillingInvariants`,
  `Fulfilment`, `Funding`, `CheckoutAnswers`, `BillingService`);
- subscriptions renewed from the wallet, with the grants and licenses that follow them (`Calendar`,
  `Lifecycle`, `LifecycleService`, `RenewalConcurrency`, `Renewals`);
- the license activation API: seats, tokens, rate limits, the access decision (`Licensing`, `Seats`,
  `RateLimits`);
- notification state: delivery-status merging and exactly-once reminders (`Delivery`, `Reminders`).

## How it is built

Rows are values in sequences, and a primary key is a position. Prices are computed by `Pricing` and reach
`Billing` as a charge or as priced cart lines. Amounts are whole rupiah. Times are integers:
microseconds for period ends and reminders, seconds for tokens and cache windows. Clocks, gateway answers
and rows read before a transaction (which may be stale) are arguments.

Most services appear twice. A function gives its whole effect on the tables. An imperative method, on a
class that holds the tables in fields, does what the code does step by step, with its loops and with
rollback to a savepoint, and is proved equal to the function. The properties are then proved of the
functions, over all inputs and all runs. The seller's actions, the refund request, `verify_code`
and `authorize_operation` are short and appear as functions only. `Prelude` has the sums the money properties
are stated with.

Three protocols are also modelled below the level of one call, as processes with a program counter and
held locks whose steps interleave freely: the ledger's read, lock, re-check, insert, write and commit
(`LedgerConcurrency`), renewal from stale copies of a subscription, with the renewal job's second
transaction (`RenewalConcurrency`), and seat claims with the status read before them (`Seats`).
In `BillingInvariants` a run is any sequence of service calls on one database, and its properties
hold in every state along the way; a webhook may be cut after its credit, and the commits that normally
follow it then happen later, mixed with anything else. In `Lifecycle` a run is any sequence of purchases,
jobs and operators' or sellers' actions on the access tables, the latter from copies of any age.

Two things are taken as given about the database: public ids are unique (`Keys` proves that stored
references are then as distinct as the rows they name), and foreign keys hold.

## Where the code and its documentation differ

The model follows the code. In each case the statement below is proved, not only noted.

- A renewal is documented to re-activate every suspended grant. It re-activates license keys only; the
  other provisioners' `renew` is empty (`Lifecycle.RenewReactivatesIff`).
- CANCELLED is documented as final. It is left by a bare suspension, and by the writes that go through
  without a lock from a copy that is not CANCELLED: a console extension, or the seller's toggle. Nothing
  else leaves it (`Lifecycle.CancelledIsLeftIff`; over whole runs `Lifecycle.CancelledIsFinalIff`; two
  ways back in `Lifecycle.CancelledIsRevived`).
- A console extension and a renewal each write the period end from a copy, so either can undo the other
  (`RenewalConcurrency.ExtensionLost`, `RenewalConcurrency.RenewalUndone`). Over any run nothing is lost
  exactly when each of them works from a copy that still shows the row's end, or, for a charge, from an end
  that clamps to the same next one (`RenewalConcurrency.NothingLostIff`).
- A change of a subscription's status is meant to reach its license keys. The console's extension and the
  seller's actions write the row from a copy, and only an extension from a SUSPENDED copy cascades. Any other
  such write keeps keys in step exactly when it leaves open or shut what was so, or there is no live key
  (`Lifecycle.ExtendLockstepIff`, `Lifecycle.SellerLockstepIff`, from fresh copies
  `Lifecycle.FreshSellerLockstepIff`); a run keeps them in step exactly when each such write does
  (`Lifecycle.EveryRunFollows`). The seller's actions still close access at once, and never open what was
  shut (`Licensing.SellerActionsStillGate`).
- The grace job is documented to suspend subscriptions whose window is over. Its turns look only at whether
  the row is SUSPENDED already, so a subscription paid for between the query and its turn is suspended all
  the same (`LifecycleService.ClosedEarlyIff`, `LifecycleService.PaidThenSuspended`).
- The renewal job is documented to move a subscription to GRACE when its charge is refused. Charge and
  update are two transactions, and the update looks only at whether the row is ACTIVE. So it moves a row to
  GRACE although its period is paid for, exactly when something renewed the row in between
  (`RenewalConcurrency.GracedIff`, `RenewalConcurrency.PaidThenGraced`).
- An activation is meant to need a license that permits access. Its status is read before the license row is
  locked, so a token goes out on a license closed in between, and exactly then (`Seats.LateTokenIff`,
  `Seats.LateToken`). Heartbeats are refused while it stays closed (`Licensing.ValidateIff`).
- Reminder windows are documented as wider than an hour. They are exactly one hour wide, so any longer gap
  between runs can miss a mark (`Reminders.LongerGapMisses`).
- The OTP limit is documented as three codes per rolling hour. It is a fixed window, opened by its first
  code: up to five fall within one hour, never more (`RateLimits.CodesAreLimited`,
  `RateLimits.FiveCodesInAnHour`). More than three do exactly when a window runs out within the hour with
  codes on both sides (`RateLimits.MoreThanThreeIff`), and a request is the fourth exactly when the
  third-last code, of a window already over, is not yet an hour old (`RateLimits.FourthCodeIff`).
- A failure of a delivery is meant to be handled once. Status events are saved from copies read without a
  lock, so two failures handled at once queue two emails (`Delivery.TwoEmails`), and a late delivery report
  can take a read row back to DELIVERED (`Delivery.RankLowered`); events that race count as
  if handled one after another exactly when each save is still right for the row (`Delivery.RaceIff`).
- A cart checkout marked COMPLETED reads as paid in full. It may still owe payment
  (`Funding.CompletedCartOwesIff`); and a cart whose payment fails leaves its COMPLETED row behind, because
  that row is created before the transaction (`Fulfilment.CartCheckoutIff`).
- A gateway retry after a missing top-up is documented to be processed again. The key is recorded by then,
  and the retry is ignored (`Funding.RetriesAreIgnored`).
- A product marked FREE is not charged at checkout even if its plan has a price, which the cart and the
  storefront quote do show (`Pricing.ChargeAgreesIff`).
- Zero-amount pending orders and zero-price renewals cannot complete: the ledger refuses an amount of 0
  (`Funding.CompletionIff`, `Fulfilment.RenewIff`).
- The ledger's documentation writes refund references with an order's id and adjustments with a target
  id; the code uses the refund request's key and a random token (`Keys.RefTextInjective`).

## Model

| member | source | states |
|---|---|---|
| Keys.RefTextInjective | apps/wallet/services.py:6-20 | stored ledger references of top-ups, bonuses, orders, refunds and adjustments never collide, so one reference names one movement |
| Keys.KeyTextInjective | apps/billing/subscription_service.py:36-38 | stored order keys of checkouts, cart lines and renewal periods never collide, so one key names one purchase or one period |
| Ledger.Find | apps/wallet/services.py:87-90 | the look-up finds an entry exactly when the reference is recorded, and it is one with that reference |
| Ledger.PostEffect | apps/wallet/services.py:82-119 | exactly when a credit or debit succeeds and when it is refused for balance; a first use appends one entry and moves one balance by the signed amount; replays and failures change nothing |
| Ledger.PostErrors | apps/wallet/services.py:23-63 | which error a refused credit or debit gets, in the order of the checks |
| Ledger.PostSound | apps/wallet/models.py:3-7 | the wallet invariant survives every request: balance is the sum of the entries, every printed balance is a prefix sum, nothing is negative, no reference twice |
| Ledger.PostGrows | apps/wallet/models.py:52-58 | entries are only ever appended, and wallets stay |
| Ledger.PostAllSound | apps/billing/services.py:103-130 | a transaction of several movements keeps the invariant, only appends, and yields one entry a request |
| Ledger.WalletService.OpenWallet | apps/wallet/signals.py:7-12 | a new customer gets an empty wallet and the ledger stays sound |
| Ledger.WalletService.Lookup | apps/wallet/services.py:87-90 | the search by reference returns what the specification's look-up returns |
| Ledger.WalletService.Credit | apps/wallet/services.py:66-119 | `credit` returns and leaves exactly what the specification says |
| Ledger.WalletService.Debit | apps/wallet/services.py:122-181 | `debit` returns and leaves exactly what the specification says |
| LedgerConcurrency.EveryRunIsSound | apps/wallet/services.py:86-119 | under every interleaving of any number of transactions the ledger invariant holds in every state |
| LedgerConcurrency.Serializable | apps/wallet/services.py:143-181 | every interleaving leaves the books that its committed transactions leave when run one at a time, in commit order |
| LedgerConcurrency.CommitIsSequential | apps/wallet/services.py:92-119 | a commit installs what the sequential service does to the books as they are at that moment, despite everything read earlier |
| LedgerConcurrency.FailureIsSequential | apps/wallet/services.py:149-161 | a transaction is refused only with the error the sequential service gives at that moment |
| LedgerConcurrency.UnobstructedIff | apps/wallet/services.py:86-119 | progress: from any reachable state a transaction that nobody obstructs, given five steps a request and its commit, commits exactly when the sequential service accepts its script, with that service's books and results, and is otherwise rolled back with that service's error |
| LedgerConcurrency.ReplayIsFast | apps/wallet/services.py:86-90 | a request under a recorded reference returns in one step, without the lock |
| LedgerConcurrency.RolledBackSilentlyIff | apps/wallet/services.py:108-119 | a transaction is rolled back without an answer exactly by its own abort, or by an insert whose reference was committed since it looked |
| LedgerConcurrency.ReplayedProcessChangesNothing | apps/wallet/services.py:86-99 | once its references are recorded, a transaction replayed anywhere in a run changes nothing |
| LedgerConcurrency.AppendOnly | apps/wallet/models.py:52-58 | committed entries are never changed or removed by anything that happens later |
| Calendar.AddMonthsMeaning | apps/billing/checkout.py:92-95 | adding months moves the month by exactly that many, and keeps the day unless the month reached is too short |
| Calendar.AddYearsIsMonths | apps/billing/checkout.py:94-95 | adding years is adding twelve times as many months |
| Calendar.YearStart | apps/billing/checkout.py:92-95 | the Gregorian day count of 1 January, for every year: 365 days a year, one more every fourth, one less every hundredth, one more every four-hundredth |
| Calendar.FourCenturies | apps/billing/checkout.py:92-95 | four hundred years are 146097 days, and 1 January 1970 is day 719163 |
| Calendar.MicrosMeaning | apps/billing/subscription_service.py:36-38 | a period end as microseconds since 1970 |
| Calendar.MonthStartsAt | apps/billing/checkout.py:92-95 | the day of the year on which each month starts |
| Calendar.TruncateMeaning | apps/billing/subscription_service.py:36-38 | the second in a renewal key is the time cut toward 1970 |
| Calendar.RenewalsMeaning | apps/billing/subscription_service.py:41-46 | n chained monthly renewals land n months later, on the shortest day met on the way |
| Calendar.PrepaidAgainstRenewals | apps/billing/checkout.py:90-97 | prepaying n months ends in the same month as n renewals, never earlier, at most 3 days later, and exactly when they end on the same day |
| Calendar.PrepaidThreeDaysLater | apps/billing/checkout.py:90-97 | the difference of 3 days occurs |
| Calendar.NextPeriodEndLater | apps/billing/subscription_service.py:41-46 | the next period end is later by 28 to 31 days or by 365 or 366, and so is its stored second |
| Calendar.ExtendByMeaning | apps/console/views.py:278-284 | an extension moves the period end by exactly its days |
| Calendar.PeriodLength | apps/billing/subscription_service.py:41-46 | how many days the next period lasts, from the calendar: the rest of this month and the day reached in the next, or 365 or 366 with both 29 February cases |
| Calendar.NextEndsEqualIff | apps/billing/subscription_service.py:41-46 | two period ends lead to the same next one exactly when they are equal or both clamp to the last day of the month reached |
| Lifecycle.ProvisionMeaning | apps/billing/checkout.py:106-120 | provisioning succeeds exactly when every deliverable type has a provisioner, and then issues one active grant a deliverable, in order, and for exactly the license keys one active license with its seat limit |
| Lifecycle.ProvisioningTerms | apps/provisioning/apps.py:10-17 | accounts are the one type without a provisioner; a license key's own seat count goes before its plan's unless it is zero |
| Lifecycle.RenewMeaning | apps/licensing/provisioner.py:58-64 | a paid renewal advances the row and re-activates its live license keys with their licenses, and touches nothing else |
| Lifecycle.SuspendMeaning | apps/billing/subscription_service.py:151-164 | suspension and cancellation set the row and hold every live grant of any kind, with its license, unless the row has the status already |
| Lifecycle.ExtendMeaning | apps/console/views.py:274-293 | an extension of 1 to 365 days ends the row that many days after its copy did, keeps the copy's status, and from a SUSPENDED copy makes the row ACTIVE and resumes every held grant of any kind; nothing else changes |
| Lifecycle.ManualMeaning | apps/seller/views.py:1262-1290 | what the seller's cancellation, toggle and auto-renew switch and an operator's revocation do, row by row |
| Lifecycle.EventsTakeEffect | apps/billing/checkout.py:90-120 | purchases, revocations and the auto-renew switch take effect on the tables, and a purchase with an account in it leaves no trace |
| Lifecycle.RenewLockstep | apps/licensing/provisioner.py:61-66 | a paid renewal keeps licenses, grants and subscription in step |
| Lifecycle.SuspendLockstep | apps/licensing/provisioner.py:68-79 | suspension and cancellation keep them in step |
| Lifecycle.ExtendLockstepIff | apps/console/views.py:280-293 | a console extension from a stale copy keeps license keys in step exactly when the copy was SUSPENDED, or agrees with the row on whether access is open, or there is no live key |
| Lifecycle.EveryRunFollows | apps/billing/subscription_service.py:106-116 | over every run of purchases, renewals, downgrades, suspensions, cancellations, revocations, extensions and seller's actions, the last two from copies of any age: license and grant agree and revoked stays revoked in every state; and live license keys are active exactly while the subscription is ACTIVE or GRACE, in every state, exactly when each unlocked write meets its guard |
| Lifecycle.RenewReactivatesIff | apps/provisioning/provisioners.py:30-31 | a renewal re-activates a held grant exactly when it is a license key |
| Lifecycle.SellerLockstepIff | apps/seller/views.py:1262-1279 | the seller's cancellation and toggle, from copies of any age, keep license keys in step exactly when they do nothing, leave the row as open or shut as it was, or there is no live key |
| Lifecycle.FreshSellerLockstepIff | apps/seller/views.py:1208-1222 | from fresh copies: cancelling keeps them in step exactly when the row was shut or has no live key; suspending and re-activating exactly when the row was CANCELLED or has no live key |
| Lifecycle.CancelledIsLeftIff | apps/billing/subscription_service.py:151-157 | of all events, exactly a bare suspension and an accepted extension or seller's toggle from a copy that is not CANCELLED leave CANCELLED |
| Lifecycle.CancelledIsFinalIff | apps/console/views.py:268-284 | over a whole run CANCELLED is final exactly when none of these happens |
| Lifecycle.CancelledIsRevived | apps/seller/views.py:1262-1279 | from any state: a copy read before the cancellation brings the row back to ACTIVE, by extension from an ACTIVE copy, by the seller's toggle from a SUSPENDED one |
| LifecycleService.AccessTables.SetGrantStatus | apps/licensing/provisioner.py:68-73 | a provisioner's update of a grant and of the license behind it |
| LifecycleService.AccessTables.CascadeTo | apps/billing/subscription_service.py:159-164 | the loop over grants updates exactly the chosen ones and their licenses |
| LifecycleService.AccessTables.SuspendSubscription | apps/billing/subscription_service.py:143-164 | `suspend_subscription` does what the specification says |
| LifecycleService.AccessTables.CancelSubscription | apps/billing/subscription_service.py:274-298 | `cancel_subscription` does what the specification says |
| LifecycleService.AccessTables.AdvanceSubscription | apps/billing/subscription_service.py:106-116 | the row update and cascade of a paid renewal |
| LifecycleService.AccessTables.ExtendSubscription | apps/console/views.py:262-293 | the console's extension: accepted for 1 to 365 days only, written from the copy the view had read |
| LifecycleService.AccessTables.ProvisionOrder | apps/billing/checkout.py:106-120 | the provisioning loop, undone as a whole when a type has no provisioner |
| LifecycleService.AccessTables.ProcessGraceExpirations | apps/billing/subscription_service.py:237-269 | suspends exactly the subscriptions that the query, made some time before, saw in GRACE with their window over; holds their live grants unless the row is SUSPENDED by now, touches nothing else, and counts them |
| LifecycleService.AccessTables.ProcessExpiredNonRenewalSubs | apps/billing/subscription_service.py:311-343 | cancels exactly the subscriptions that the query saw lapsed without renewal, likewise |
| LifecycleService.GraceOverIff | apps/billing/subscription_service.py:244-252 | a subscription is due for suspension exactly when it is in GRACE and the given number of days has passed since its period end |
| LifecycleService.LapsedIff | apps/billing/subscription_service.py:320-326 | none is due for cancellation that renews itself, still runs or is not ACTIVE, and every other one is |
| LifecycleService.FlagCounts | apps/billing/subscription_service.py:257-269 | a job's tally is the number of rows its query selected |
| LifecycleService.ClosedEarlyIff | apps/billing/subscription_service.py:248-261 | anything may happen between the query and a turn: the turn closes a row whose window is not over exactly when the row is neither due nor closed by then, and only if something wrote the row since the query |
| LifecycleService.PaidThenSuspended | apps/billing/subscription_service.py:151-164 | a GRACE subscription renewed between query and turn is suspended with its new period end, and its license keys are held |
| RenewalConcurrency.EveryRunBillsOnce | apps/billing/subscription_service.py:66-104 | however workers with stale copies interleave, extensions included, each renewal key is billed by one order, each such order by one ledger entry, and no two keys share an order |
| RenewalConcurrency.EveryRunChargesEachPeriodOnce | apps/billing/subscription_service.py:36-116 | without extensions: period ends form an unbroken chain, the keys used are exactly the past ends, and there are as many charges as period advances |
| RenewalConcurrency.RefusedChargeUsesNothing | apps/billing/subscription_service.py:135-140 | a refused charge uses up no key, creates no order and moves no money |
| RenewalConcurrency.NothingLostIff | apps/console/views.py:268-284 | over every run of racing renewals and extensions, a subscription's end is always its first end with every charged period and every extension added, exactly when each of them worked from a copy that still showed the row's end, or, for a charge, an end that clamps to the same next one |
| RenewalConcurrency.ChargeAfterExtensionIff | apps/billing/subscription_service.py:106-108 | a charge from a copy that an extension has overtaken still moves the end forward exactly when the extension is shorter than the period charged; both effects survive exactly when the two ends clamp to the same next one |
| RenewalConcurrency.ExtensionAfterChargeIff | apps/console/views.py:278-284 | an extension counts from the row's end exactly when its copy still shows it; from a copy read before a charge it takes back part of the paid period exactly when it is shorter than that period |
| RenewalConcurrency.ExtensionLost | apps/console/views.py:278-284 | from any chargeable state and for any days: an extension between a worker's read and its charge is overwritten |
| RenewalConcurrency.RenewalUndone | apps/console/views.py:278-284 | the other order: the paid period is overwritten by the extension, and the key of the end left is unused, so the next renewal charges again |
| RenewalConcurrency.GracedIff | apps/billing/subscription_service.py:199-208 | anything may happen between a refused charge and the job's update: the update moves the row to GRACE exactly when it is ACTIVE by then and nobody holds it; the refused period's key is unused at the refusal and, at the update, used, with its order and ledger entry, exactly when another worker's charge renewed the row in between |
| RenewalConcurrency.PaidThenGraced | apps/billing/subscription_service.py:204-208 | a refused worker, a top-up, another worker's renewal and then the update leave the row in GRACE with its renewed period end and its key used |
| RenewalConcurrency.RenewingIff | apps/billing/subscription_service.py:66-140 | one worker's renewal with nothing else in between is charged exactly when the balance covers the price, and otherwise leaves no trace |
| RenewalConcurrency.AnswerIff | apps/billing/subscription_service.py:69-140 | a worker answers that the period is renewed exactly when its key is in use as it looks or its charge goes through, and that it was refused exactly when the row is cancelled under the lock or the key unused and the wallet short |
| Pricing.CartTotal | apps/billing/cart_service.py:157-158 | the cart total is the sum of its line prices |
| Pricing.StorefrontQuote | apps/storefront/views.py:406-447 | the storefront's quote is the cart's price and discount, and the shortfall and remaining balance shown beside it are right |
| Pricing.ChargeAgreesIff | apps/billing/checkout.py:324-374 | the charge at checkout equals the cart line and the quote exactly when the product is not marked FREE while carrying a price that discounts leave above zero |
| Pricing.LineBounds | apps/billing/cart_service.py:128-154 | for duration discounts in 0..100: 0 <= discount <= base, price = base - discount, and every percentage is an exact floor |
| Pricing.ValidForIff | apps/billing/models.py:346-362 | exactly why a coupon does not count: switched off, not yet or no longer valid, used up, or for other plans |
| Pricing.DiscountIsMost | apps/billing/models.py:336-344 | a coupon takes off the most that it grants, within its percentage or amount, its cap and the price |
| Pricing.LineIff | apps/billing/cart_service.py:128-154 | a line's price is its duration's price less the discount of a valid coupon, and never negative |
| Pricing.NamedPriceIff | apps/billing/checkout.py:326-358 | the buyer's price, from the minimum on, takes the place of the listed one for pay-what-you-want plans, and is otherwise not looked at |
| Pricing.ListedPriceIff | apps/billing/checkout.py:334-374 | what the listed price comes to at checkout, for each type of product |
| Billing.FindKey | apps/billing/checkout.py:314-315 | the look-up by idempotency key finds an order exactly when the key is used |
| Billing.RenewAccess | apps/billing/subscription_service.py:106-116 | the access rows a renewal leaves are those of the lifecycle's renewal |
| Conservation.MoneyCharge | apps/billing/checkout.py:145-152 | debiting an order keeps every balance equal to what its rows say, and ties the entry to the order |
| Conservation.MoneyRefund | apps/console/views.py:361-378 | approving a refund does likewise |
| Conservation.MoneyAdjust | apps/console/views.py:242-250 | a manual credit does likewise, also under a token used before |
| Conservation.CreditOnce | apps/billing/services.py:103-130 | a confirmed unpaid top-up is credited exactly when the customer has a wallet: amount plus bonus, both or neither, together with its PAID status |
| BillingInvariants.FulfilKeeps | apps/billing/checkout.py:135-178 | fulfilling a pending order, on any of the four paths, keeps money, coupon, invoice and earning invariants |
| BillingInvariants.CheckoutCartKeeps | apps/billing/cart_service.py:199-309 | so does cart checkout on each of its paths, succeeding or failing |
| BillingInvariants.StepKeeps | apps/billing/services.py:200-261 | so does every service call, and each gives every top-up exactly the status it should have: PAID is final, a completed payment of the right amount under a fresh key pays even after a failure, and a failure or expiry reaches pending top-ups only |
| BillingInvariants.EveryRunConserves | apps/billing/checkout.py:3-6 | in every reachable state a balance is never negative and equals paid top-ups with bonus, plus adjustments, plus approved refunds, minus all orders that carry an entry |
| BillingInvariants.EveryRunLinks | apps/billing/services.py:5-10 | a reference is in the ledger exactly when its row is PAID, debited or approved, and the entry moves that row's amount for that row's customer |
| BillingInvariants.EveryRunNumbers | apps/billing/checkout.py:78-85 | invoice numbers are exactly 1..n, no number twice, none on pending orders |
| BillingInvariants.EveryRunOrdersOnce | apps/billing/models.py:101-107 | no purchase, cart line or renewal period is ever ordered twice: a key names at most one order |
| BillingInvariants.EveryRunCounts | apps/billing/checkout.py:195-204 | a coupon's counter is its number of redemptions up to its limit, and never beyond |
| BillingInvariants.EveryRunShares | apps/billing/checkout.py:39-55 | an order earns its seller at most once: its own amount, split into commission and net |
| BillingInvariants.LaterStatesGrow | apps/billing/checkout.py:80-81 | whatever happens later, entries stay, orders keep amount and invoice number, PAID top-ups stay PAID |
| Fulfilment.FulfilIff | apps/billing/checkout.py:135-178 | exactly when a pending order can be fulfilled on each path, and the whole effect: status, entry, invoice number, balances, coupon count, subscription with its first period end, one grant a deliverable, one license a license key, earning |
| Fulfilment.BalanceCheckoutIff | apps/billing/checkout.py:420-477 | a purchase from the balance goes through exactly when the plan can be provisioned, the coupon has room and the wallet really covers the price; anything else, the coupon cap included, rolls back entirely |
| Fulfilment.ReplayedCheckout | apps/billing/checkout.py:313-322 | a checkout repeated under its key returns the one order it made and changes nothing; the key in other hands or for another plan is refused |
| Fulfilment.FulfilLinesIff | apps/billing/cart_service.py:232-268 | the lines of a cart go through exactly when each is ready, none repeats and the wallet covers the total, with the effect below |
| Fulfilment.CartCheckoutIff | apps/billing/cart_service.py:229-272 | a cart paid from the balance is all or nothing: the wallet falls by exactly the total; every line gets its paid order with the next invoice number, its subscription row, its active grants in order behind those of the lines before it, and for exactly its license keys one active license with its seat limit; every coupon counts the lines that use it up to its limit; what was there stays and nothing else is added; commissions and nets sum to the total when every product has a seller; on failure only the checkout row remains |
| Fulfilment.RenewIff | apps/billing/subscription_service.py:66-140 | exactly when a renewal charges, when it counts as done because its period is paid already, and when it is refused; charging takes the price once, adds one order under the period's key, advances the row and re-activates its license keys, and whatever does not charge changes nothing |
| Fulfilment.LapsedOfMeaning | apps/billing/subscription_service.py:359-365 | a top-up's renewal loop visits exactly the customer's auto-renewing subscriptions in GRACE or SUSPENDED, newest first, each once |
| Fulfilment.DueTurnIff | apps/billing/subscription_service.py:199-229 | every turn of the renewal job, with nothing between its two transactions: it counts as charged what it charges or finds paid already, changing nothing then, and moves a row to GRACE exactly when the row is ACTIVE, its period unpaid and the wallet merely short |
| Renewals.DueAllIff | apps/billing/subscription_service.py:199-234 | the whole job over distinct rows, from copies of any age: a row is charged exactly when what the rows before it left in its wallet covers it, and goes to GRACE exactly when it is ACTIVE and unpaid and that is too little; wallets fall by exactly the prices charged, one order is added for each, and no other row changes |
| Renewals.LapsedRenewedIff | apps/billing/subscription_service.py:367-378 | of a customer's lapsed auto-renewing rows, newest first, each is renewed exactly when what the ones before it left in the wallet covers it, and nothing else changes |
| Renewals.CoveredLapsedRenewed | apps/billing/subscription_service.py:349-378 | a wallet that covers them all renews every one of them and falls by exactly the sum of their prices |
| Fulfilment.EarningIff | apps/billing/checkout.py:39-55 | exactly when an order earns its seller, with the commission an exact floor of the rate and the rest the net |
| Fulfilment.ManualConfirmationIff | apps/billing/checkout.py:207-240 | the seller's confirmation fulfils exactly the orders that await it and can be provisioned, moves no wallet and earns nothing |
| Fulfilment.RefundIff | apps/console/views.py:350-378 | exactly when a refund is approved, and its whole effect |
| Fulfilment.PurchasesAreEvents | apps/billing/checkout.py:164-175 | to subscriptions, grants and licenses a fulfilled order is the lifecycle's purchase event, so they stay in step |
| Fulfilment.RenewalsAreEvents | apps/billing/subscription_service.py:199-229 | likewise a charged renewal is a renewal event and a move to GRACE a downgrade |
| Funding.CreditedExactly | apps/billing/services.py:111-126 | the ledger credits a top-up its amount plus bonus once it is PAID, and nothing before |
| Funding.TopUpRunIff | apps/billing/services.py:200-261 | over any run of anything, in any order and with any duplicates, an unpaid top-up ends PAID exactly when some delivery completed it with the right amount under a fresh key; then amount plus bonus is credited once in all, otherwise nothing |
| Funding.FailureSticks | apps/billing/services.py:235-244 | the first failure reported for a top-up sticks, and only a confirmation leaves it |
| Funding.RetriesAreIgnored | apps/billing/services.py:201-232 | after a first delivery under a key, every later one under it changes nothing |
| Funding.CompletionIff | apps/billing/checkout.py:135-190 | completing a pending order: paid exactly when payable, left alone when the balance is merely short, and otherwise raising, with amount 0 always raising |
| Funding.EachCompleted | apps/billing/cart_service.py:318-320 | whatever happens in the completion loop, each order is paid and debited or pending and untouched, and balances fall by exactly what the newly paid orders cost |
| Funding.QueuePaidIff | apps/billing/cart_service.py:318-320 | over pending orders of positive amount the loop never raises, and pays all of them exactly when the balance covers their sum |
| Funding.CompletedCartOwesIff | apps/billing/cart_service.py:321-323 | the cart is marked COMPLETED all the same: it still owes payment exactly when the balance fell short |
| Funding.PendingOfMeaning | apps/billing/cart_service.py:319-319 | the loop's query yields exactly the cart's pending orders, newest first, each once |
| Funding.ShortCartOpens | apps/billing/cart_service.py:278-307 | a short cart leaves one pending order a line and one top-up for exactly the shortfall |
| Funding.ShortCartFunded | apps/billing/services.py:142-154 | whatever happens after its checkout, the one delivery that confirms its top-up pays every line, before any lapsed subscription can take the money, exactly when the wallet still holds what it held at checkout |
| Funding.ShortPurchaseOpens | apps/billing/checkout.py:479-520 | a purchase beyond the balance leaves its pending order and one top-up for exactly what is missing |
| Funding.DeliveryPaysOrder | apps/billing/services.py:142-154 | the delivery that confirms that top-up pays the order exactly when the balance with the credit covers it |
| Funding.ShortPurchaseFunded | apps/billing/services.py:142-154 | whatever happens in between, exactly when the wallet still holds what it held at checkout |
| Funding.DeliveryRenewsIff | apps/billing/services.py:142-154 | the uncut delivery that confirms a top-up, once the linked order and cart have had their share, renews each lapsed subscription exactly when what the newer ones left in the wallet covers it |
| Funding.TopUpRenews | apps/billing/services.py:151-154 | a plain top-up that makes the wallet cover every lapsed subscription leaves each ACTIVE with its next period end and its key used, and the wallet with exactly what is left |
| Funding.CompletedStays | apps/billing/checkout.py:125-135 | completing an order that is no longer pending changes nothing |
| Funding.ExceptionStops | apps/billing/cart_service.py:318-320 | an exception stops a completion or confirmation loop with what came before it, and otherwise the loop goes on |
| Funding.CompletedIff | apps/billing/cart_service.py:312-323 | the checkout is marked COMPLETED exactly when none of its orders raised |
| Funding.OrderBeforeCart | apps/billing/services.py:142-150 | a top-up linked to an order and a cart pays for the order first, and unless that raises for the cart from what is left |
| Funding.ConfirmedIff | apps/billing/checkout.py:207-240 | the seller's confirmation of a cart raises exactly at the first awaiting order that cannot be provisioned; the awaiting ones before it are PAID without a ledger entry, no wallet moves and nothing is earned |
| Funding.RejectedIff | apps/billing/checkout.py:243-250 | the seller's rejection fails exactly the pending orders that await the seller, and moves no money |
| Funding.RecordedIff | apps/billing/services.py:200-261 | a delivery's key is on record from then on, and processed exactly for a test, a failure report, or a matching completion whose follow-ups did not raise |
| CheckoutAnswers.FreeCheckoutIff | apps/billing/checkout.py:333-355 | a free checkout goes through exactly when everything can be provisioned, and its whole effect: an unnumbered order of amount 0, grants, licenses, no subscription |
| CheckoutAnswers.PricedAnswers | apps/billing/checkout.py:376-520 | the answer to a purchase at a price in every case, with what it leaves behind, also when the gateway is down |
| CheckoutAnswers.OtherAnswers | apps/billing/checkout.py:300-322 | contact plans are not sold, negative prices and missing rows are refused, and a free purchase takes the free branch |
| CheckoutAnswers.OrderRows | apps/billing/checkout.py:378-400 | the order of a purchase or a cart line, field by field |
| CheckoutAnswers.OneSellerIff | apps/billing/cart_service.py:199-203 | a cart can be paid by static QRIS exactly when one and the same seller, who takes it, sells all its lines |
| CheckoutAnswers.PendLinesIff | apps/billing/cart_service.py:281-297 | the lines of a cart become pending orders exactly when what they refer to exists and none was ordered before or repeats |
| CheckoutAnswers.CartAnswers | apps/billing/cart_service.py:172-309 | the answer to a cart checkout that is not paid from the balance in every case, with its pending orders, its top-up and the items that left the cart, or no change at all |
| CheckoutAnswers.LeftCartIff | apps/billing/cart_service.py:300-303 | a cart keeps exactly the items that no line checked out, and other carts are left alone |
| CheckoutAnswers.NewTopUpIff | apps/billing/services.py:55-62 | a top-up is opened exactly for a positive amount and a bonus that is not negative |
| CheckoutAnswers.RequestIff | apps/dashboard/views.py:422-444 | a refund request is taken exactly for a PAID order of the customer's own, with a reason, if none was seen before |
| CheckoutAnswers.RejectionIff | apps/console/views.py:392-410 | a refund is rejected exactly while it is requested, with a note |
| CheckoutAnswers.ManualCreditIff | apps/console/views.py:224-257 | a manual credit raises the balance by exactly its positive amount if it has a reason, a new token and a wallet, and otherwise moves nothing |
| BillingService.Database.Restore | apps/billing/cart_service.py:281-285 | rolling back restores every table |
| BillingService.Database.AssignInvoiceNumber | apps/billing/checkout.py:78-85 | the search for the highest number assigns the next one, unless the order has one |
| BillingService.Database.IncrementCouponUsage | apps/billing/checkout.py:440-448 | the conditional update of a coupon's counter |
| BillingService.Database.CreateSubscription | apps/billing/checkout.py:90-103 | a recurring plan gets its subscription row and a one-time plan none |
| BillingService.Database.RecordSellerEarning | apps/billing/checkout.py:39-55 | get-or-create of the order's earning |
| BillingService.Database.TakePayment | apps/billing/checkout.py:440-458 | the coupon and the debit, with the first failure reported |
| BillingService.Database.DeliverOrder | apps/billing/checkout.py:460-475 | status, invoice number, subscription, grants and earning of a paid order |
| BillingService.Database.FulfilOrder | apps/billing/checkout.py:422-477 | the whole transaction: the specified result, or no change and the specified failure |
| BillingService.Database.CompletePendingOrder | apps/billing/checkout.py:125-190 | `complete_pending_order` does what the specification says |
| BillingService.Database.ConfirmManualPayment | apps/billing/checkout.py:207-240 | `confirm_manual_payment` does what the specification says |
| BillingService.Database.PendingOrders | apps/billing/cart_service.py:319-319 | the query for a cart's pending orders, newest first |
| BillingService.Database.CompleteCartCheckout | apps/billing/cart_service.py:312-323 | the completion loop, for a funded cart and for one its seller confirms |
| BillingService.Database.RejectCart | apps/seller/views.py:510-512 | the seller's rejection rejects every pending line |
| BillingService.Database.FindOrder | apps/billing/checkout.py:314-315 | the look-up by idempotency key |
| BillingService.Database.RenewSubscription | apps/billing/subscription_service.py:51-140 | `renew_subscription` from a copy of the row, rolled back when the debit is refused |
| BillingService.Database.TryRenewGrace | apps/billing/services.py:151-154 | the loop over lapsed subscriptions, from copies read before it |
| BillingService.Database.ProcessDueRenewals | apps/billing/subscription_service.py:177-234 | the renewal job's loop and its tally, with nothing between the two transactions of a turn |
| BillingService.Database.MoveToGrace | apps/billing/subscription_service.py:206-208 | the job's conditional update, a transaction of its own |
| BillingService.Database.CreditConfirmed | apps/billing/services.py:103-130 | both credits and the status, or no change |
| BillingService.Database.ApplyTopUpSuccess | apps/billing/services.py:86-156 | `_apply_topup_success`, credit and follow-ups in order |
| BillingService.Database.ProcessWebhook | apps/billing/services.py:165-261 | `process_webhook_payload` does what the specification says |
| BillingService.Database.CheckoutFree | apps/billing/checkout.py:333-355 | the free-plan branch, rolled back when provisioning fails |
| BillingService.Database.CheckoutPriced | apps/billing/checkout.py:376-520 | the QRIS, balance and top-up branches |
| BillingService.Database.PayCart | apps/billing/cart_service.py:229-272 | the balance branch of `checkout_cart` with its rollback |
| BillingService.Database.FundCart | apps/billing/cart_service.py:274-309 | the short branch with its rollback |
| BillingService.Database.AwaitSeller | apps/billing/cart_service.py:199-224 | the static QRIS branch |
| BillingService.Database.CheckOutCart | apps/billing/cart_service.py:172-309 | `checkout_cart` does what the specification says |
| BillingService.Database.ApproveRefundRequest | apps/console/views.py:342-387 | `refund_approve` does what the specification says, and reports whether anything changed |
| Licensing.PermitsIff | apps/licensing/services.py:113-136 | access opens exactly when license, grant and subscription all permit it, reports grace exactly for a subscription in GRACE, and otherwise exactly which record refuses it |
| Licensing.ActivateIff | apps/licensing/services.py:206-262 | exactly when an activation succeeds, and what it is told in every other case |
| Licensing.ValidateIff | apps/licensing/services.py:358-425 | exactly when a heartbeat succeeds outside maintenance mode: only with a token signed for this license and device and no older than TTL plus grace; any other token is invalid, and every other refusal is given exactly |
| Licensing.OtherTokenRefused | apps/licensing/services.py:64-76 | a token signed for another license or device gets invalid, since license keys have no colon |
| Licensing.TokenTextInjective | apps/licensing/services.py:55-58 | the signed text names one license and one device |
| Licensing.MaintenanceAdmits | apps/licensing/services.py:323-356 | in maintenance mode every heartbeat is answered active, and nothing is counted |
| Licensing.AuthorizeIff | apps/licensing/services.py:476-549 | exactly when an operation is authorised, never in maintenance mode, and only with a token signed for this license and device in time; and exactly which refusal is given otherwise |
| Licensing.TokenIff | apps/licensing/services.py:55-61 | a token is issued exactly with a permitting answer, for the device that asked, dated now |
| Licensing.ActivateEffect | apps/licensing/services.py:243-271 | an activation adds its device and nothing else, and a known device takes no new seat |
| Licensing.DeactivateEffect | apps/licensing/services.py:428-455 | a deactivation frees the device's seat and nothing else, and is refused exactly for an unknown key or above the limit |
| Licensing.SeatsBounded | apps/licensing/models.py:65-71 | no call takes a license over its seat limit |
| Licensing.LimitIff | apps/licensing/services.py:183-201 | a call is limited exactly when its key's count, or then its address's, passes the limit, and what is counted |
| Licensing.ActivationsAreLimited | apps/licensing/services.py:223-229 | over any run of activations of one license, no more than ten are served in the minute its first call opens, and no more than twenty in any |
| Licensing.RegularDeviceNeverExpires | apps/licensing/services.py:64-93 | a device in good standing whose heartbeats are never further apart than TTL plus grace is never refused, and each answer restarts the clock |
| Licensing.LongGapExpires | apps/licensing/services.py:423-425 | after one longer gap every heartbeat answers expired |
| Licensing.ReactivationRestarts | apps/licensing/services.py:273-273 | re-activation ends that |
| Licensing.AccessFollowsSubscription | apps/licensing/services.py:131-135 | in every state of every run, seller's actions and stale extensions included, a license opens exactly while it is active and its subscription is ACTIVE or GRACE; and if each unlocked write meets its guard, a license that is not revoked opens exactly while its subscription is |
| Licensing.SellerActionsStillGate | apps/seller/views.py:1215-1218 | from copies of any age the seller's actions never open what was shut, and close what was open exactly when they cancel or suspend |
| Licensing.ActivationApi.CheckRateLimit | apps/licensing/services.py:183-201 | one counted call, refused exactly above the limit |
| Licensing.ActivationApi.ActivateDevice | apps/licensing/services.py:206-305 | `activate` does what the specification says |
| Licensing.ActivationApi.ValidateDevice | apps/licensing/services.py:308-425 | `validate` does what the specification says |
| Licensing.ActivationApi.DeactivateDevice | apps/licensing/services.py:428-455 | `deactivate` does what the specification says |
| Seats.EveryRunIsBounded | apps/licensing/services.py:243-271 | however activations, API deactivations and dashboard deactivations interleave, active installations never exceed the limit and no device has two |
| Seats.IndexNeverRefuses | apps/licensing/models.py:94-100 | the unique index never has to refuse an activation: the lock already excludes the race |
| Seats.KnownDeviceUsesNoSeat | apps/licensing/services.py:247-256 | a worker whose device is active at its look-up inserts nothing at any later time, whatever else happens, until it starts another call; an unknown device takes a free seat |
| Seats.LateTokenIff | apps/licensing/services.py:230-273 | over every run a token goes out only with a permitting status that was checked, and on a license closed by then exactly when it was closed between that check and the answer and not reopened; the license's own status does not change while its row is held |
| Seats.LateToken | apps/licensing/services.py:230-273 | whatever closes the license after the check, the device still takes a free seat and gets its token |
| Seats.AdmissionIff | apps/licensing/services.py:230-241 | a worker is admitted exactly if the license permits access as it checks |
| Seats.SeatFullIff | apps/licensing/services.py:257-262 | a new device is turned away exactly if all seats are taken as its worker counts them |
| Seats.FreedIff | apps/licensing/services.py:445-449 | the API frees every row of the device, the dashboard the one row it had read, and no other row changes |
| Seats.ReadIff | apps/dashboard/views.py:205-213 | the dashboard reads active rows only |
| Seats.AccessSetIff | apps/licensing/provisioner.py:65-79 | grant and subscription change at any time, the license's own status only while nobody holds its row |
| Seats.AbortFrees | apps/licensing/services.py:243-271 | a worker that gives up lets go of the license row |
| RateLimits.AtMostTheLimitPerWindow | apps/licensing/services.py:193-201 | at most `limit` calls are accepted in a cache window |
| RateLimits.AtMostTwiceTheLimit | apps/licensing/services.py:193-201 | at most twice `limit` in any interval of the window's length |
| RateLimits.TwiceTheLimitIsReached | apps/licensing/services.py:193-201 | for every limit and window, twice the limit is reached |
| RateLimits.RateCache.CheckRateLimit | apps/licensing/services.py:183-201 | one counted call on the cache |
| RateLimits.RateCache.Serve | apps/licensing/services.py:183-201 | a sequence of calls is accepted as the specification says, leaving other keys alone |
| RateLimits.CodesAreLimited | apps/notifications/otp.py:57-79 | however codes are requested for a number, at most 5 go out in any hour, never two within 60 seconds |
| RateLimits.FiveCodesInAnHour | apps/notifications/otp.py:57-79 | five in an hour are reached |
| RateLimits.MoreThanThreeIff | apps/notifications/otp.py:66-74 | an hour sees more than the documented three exactly when a cache window runs out in it with codes on both sides, split 1 + 3, 2 + 2, 2 + 3 or 3 + 1 |
| RateLimits.FourthCodeIff | apps/notifications/otp.py:66-74 | exactly which request sends a fourth code within an hour: cooldown and counter let it pass, and the third-last code, sent before the current window opened, is not an hour old |
| RateLimits.CodeSender.RequestCode | apps/notifications/otp.py:57-79 | the cooldown and counter of one request, as the specification says |
| RateLimits.GuessesAreLimited | apps/notifications/otp.py:105-118 | a code is compared with at most 5 guesses and succeeds at most once |
| RateLimits.VerifiedIff | apps/notifications/otp.py:105-125 | over any history, exactly which guess verifies a code: the first right one in time with fewer than five in time before it |
| RateLimits.VerdictMeaning | apps/notifications/otp.py:105-125 | what a guess that does not verify is told, and what it costs |
| Delivery.Outbox.FallbackToEmail | apps/notifications/dispatch.py:167-184 | an email is queued exactly for a failed WhatsApp row that has a body and a customer and none before |
| Delivery.Outbox.HandleStatus | apps/notifications/webhooks.py:54-89 | one status event, decided on the copy its handler had read, does what the specification says |
| Delivery.Outbox.HandleAll | apps/notifications/webhooks.py:54-89 | after a whole history, one event after another, the status is a summary of which events occurred, with one email exactly if one of them was a failure that can fall back |
| Delivery.MergeIsSummary | apps/notifications/webhooks.py:69-89 | the final status depends on which events occurred, not on order or number |
| Delivery.MergeIsConfluent | apps/notifications/webhooks.py:69-89 | histories with the same events leave the same row and queue at most one email |
| Delivery.FallbackIff | apps/notifications/dispatch.py:167-184 | after any history a live row has queued an email exactly if a failure was among the events and the message went out on WhatsApp with an email and a customer to fall back to |
| Delivery.MergeNeverRegresses | apps/notifications/webhooks.py:84-89 | later events never lower the rank and never leave a terminal status |
| Delivery.RaceIff | apps/notifications/webhooks.py:54-89 | handlers that race, each saving what it decided on the copy it had read, leave after every save what the same events leave one after another, exactly when each save was still right for the row; then the status is the summary and at most one email is queued |
| Delivery.EmailsAreLiveFailures | apps/notifications/webhooks.py:69-82 | however handlers race, the emails queued are the failures whose handlers had read a live row |
| Delivery.TwoEmails | apps/notifications/webhooks.py:69-82 | two failures handled at once queue two emails |
| Delivery.RankLowered | apps/notifications/webhooks.py:84-89 | a read report and a delivery report handled at once take the row from READ back to DELIVERED |
| Reminders.ReminderJob.SendOnce | apps/notifications/reminders.py:34-51 | a message goes out exactly when its key is new, and log and messages agree |
| Reminders.ReminderJob.DispatchExpiryReminders | apps/notifications/reminders.py:160-197 | one run logs exactly what its three windows ask for, and counts what it sent |
| Reminders.RunAll | apps/notifications/reminders.py:160-197 | after any runs every logged message was sent exactly once, and every mark of a steady non-renewing subscription watched at hourly gaps was sent exactly once |
| Reminders.LoggedIff | apps/notifications/reminders.py:54-57 | a mark is logged exactly when some run fell into its window |
| Reminders.RemindedIff | apps/notifications/reminders.py:160-197 | over any passes, exactly what is ever reminded of: an ACTIVE non-renewing subscription that in some pass was 7, 3 or 1 days from its end, half an hour either way |
| Reminders.EveryMarkIsSent | apps/notifications/reminders.py:173-192 | runs at most an hour apart log every mark of a steady non-renewing subscription |
| Reminders.LongerGapMisses | apps/notifications/reminders.py:4-6 | for every longer gap there are runs no further apart that never log the mark |

## Left out

- Ledger.Post: deadlocks between coupon and wallet locks are not modelled, since both lock orders occur in the code; a deadlock victim is a transaction that rolls back.
- LedgerConcurrency.EveryRunIsSound: a transaction moves one wallet, which is all any service does.
- BillingInvariants.StepKeeps: within one call of a billing service the model does not interleave other calls between the rows it locks; the interleavings that matter for money, renewal and seats are in the three protocol models.
- Billing.Webhook: signature checks and parsing of the payload are done before it; a crash between recording the key and crediting appears as a delivery of another event under that key.
- Billing.Checkout: the gateway call is a flag, and a top-up's row outlives its failure as in the code; negative discounts (duration discounts above 100) are refused at insertion rather than by a column check.
- Billing.FreeCheckout: the race of two free checkouts under one key ends like the look-up that finds the order.
- BillingService.Database.ProcessDueRenewals: other calls between the two transactions of a turn, which `RenewalConcurrency.GracedIff` has; the selection of due rows and its order by period end are an argument.
- Fulfilment.DueTurnIff: likewise.
- Renewals.DueAllIff: likewise, and the rows are distinct, as a query's are.
- Licensing.ActivateIff: an activation is one call here; the status it reads and the seat it claims are apart in `Seats.LateTokenIff`.
- BillingService.Database.TryRenewGrace: creation order stands for the order of the query.
- LifecycleService.AccessTables.ProcessGraceExpirations: rows are taken in table order rather than by period end, which cannot change the result; what happens between two turns is in `LifecycleService.ClosedEarlyIff`, which puts any run between the query and a turn.
- Licensing.AuthorizeIff: operation names arrive trimmed and lower-cased; entitlement values arrive as text.
- Licensing.TokenIff: signatures are ideal (a token is signed by the server or forged), and failures of entitlement signing are not modelled.
- Lifecycle.ProvisionMeaning: encryption failures while storing credentials and API keys, and the contents of grants.
- Calendar.NextPeriodEndLater: years beyond 9999, which Python refuses.
- Reminders.EveryMarkIsSent: a crash between logging a key and sending its message; renewal, low-balance, grace and pending-order reminders, which have the same shape with other windows.
- Delivery.RaceIff: the sender's own later write of a delivery row, and quiet hours; a handler's two writes after a failure count as one.
- Coupon limits edited after creation, deleted coupons and `Coupon.min_order` (which the code never reads).
- Cart editing and the merge of a guest's cart: row bookkeeping without money.
- Payouts: the request does not subtract outstanding payouts, so no balance invariant holds there.
- Leads, courses, storefront blocks, analytics, affiliate links: simple record keeping.
- HTTP, templates, exports, email and WhatsApp transport, task scheduling, settings.
