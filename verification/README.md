# Money and delivery protocols of the backend

This project models the parts of the backend where money and paid work change hands, and proves what they
guarantee in every run. Each protocol is a state machine whose steps are the locked transactions and conditional
updates of the code; messages, clocks, crashes, lost replies and other actors are free choices of the steps. A
unique constraint is a guarded insert, an aborted transaction is a step that changes nothing. Code that updates
rows in place is also given as classes and loops, each method proved against the function its lemmas speak about.

Money in wallets is counted in units of 0.0001, invoice amounts in hundredths. Identifiers, tokens, hashes and
ledger keys are numbers or datatypes: fresh ones are never reused and different ones never collide.

| file | what it covers |
|---|---|
| `Dispatch.dfy`, `DispatchProtocol.dfy`, `DispatchGuarantees.dfy`, `DispatchOutcomes.dfy` | durable dispatch: one row, an unreliable broker, publishers and workers |
| `Wallet.dfy`, `WalletOutcomes.dfy`, `Operations.dfy`, `OperationOutcomes.dfy`, `ProviderOperations.dfy`, `DescriptionAgents.dfy`, `Pricing.dfy` | AI wallet and its ledger, paid provider calls, the sweep, the worker that calls models, prices |
| `Invoices.dfy`, `Billing.dfy`, `PaymentOutcomes.dfy`, `Subscriptions.dfy`, `SubscriptionOutcomes.dfy`, `MonthlyPackages.dfy` | invoices, entitlements, refunds, versions, monthly AI packages |
| `CheckoutKeys.dfy`, `CheckoutOutcomes.dfy`, `ProviderPayment.dfy`, `ProviderOutcomes.dfy` | checkout intents, client keys, creating the provider payment |
| `Calendar.dfy` | billing months and the constant-time month locator |
| `Leases.dfy`, `Outbox.dfy`, `Webhooks.dfy` | one token-fenced lease and its two users |
| `DeadlineRunner.dfy`, `DailyBudget.dfy` | bounded blocking calls, daily budgets |
| `Sharding.dfy` | longest-first splitting of test files |

The files named after outcomes say, in the fields of the rows and without the functions that compute them, what each
operation makes of its row and under which conditions; the others prove what follows over whole runs.

## Where the code promises less than its comments or tests suggest

For each of these the code is kept as it is, and the exact condition under which the promise holds is proved,
beside a failing case.

- Counted by wall clock, a revived no-replay job can be entered again without a safe retry: a worker that claimed
  before the failure and has not entered yet survives the revival. Reviving keeps the promise exactly when no such
  worker waits (`RevivalIsSafeIffNobodyWaits`, `WaitingWorkerCanOutliveItsLease`). Counted by the revival period
  in which a worker claimed, the promise always holds (`EntersOnlyAfterSafeRetries`). A rule that needs nothing but
  the row is enough: revive only while the stored outcome is not uncertain (`CertainRevivalsNeverRepeat`); and no
  rule that reads only the row is safe otherwise (`RulesAreSafeIffTheyRefuseUncertain`).
- By wall clock the same worker also enters a revived row that counts no attempt yet (`EntriesCanOutnumberAttempts`),
  whether or not the job may be replayed; entries stay within the attempts exactly when no such worker waits
  (`EntriesStayCountedIffNobodyWaits`). Counted by the period of the claim they always do (`EntriesAreLimited`).
- Once a reservation has expired a package, a limit raise makes the next reservation abort on the ledger key of the
  expiry (`LimitRaiseAfterExpiryBlocksReserves`). Until the next period is granted, whatever else happens,
  reservations abort exactly while included credits are left (`ExpiredPackageBlocksWhileIncluded`).
- A new period backs the open reservations only when its package covers what purchases do not (`GrantBacksIff`).
- An estimate bounds the price of every call whose input, output and cached tokens stay within it exactly for models
  whose cached rate is not above the input rate (`EstimateHoldsIffCacheIsCheap`). Some providers report cached
  tokens beside the input; with their number unbounded the estimate holds exactly for models that do not charge
  for them (`EstimateHoldsForAnyCacheIffCacheIsFree`).
- For dates in any order, refreshes ask for each AI month's package at most once, and never for the first one's,
  exactly when no date returns to a month already left (`GrantsOnceIffNeverReturning`, `GoingBackGrantsAgain`). The
  wallet's date keys catch all repetitions but the first month's, whose package the payment booked under its
  version: packages are booked once exactly when no date comes back to the first month after leaving it, or its
  date key is taken (`BooksOnceIff`).
- The intent transaction locks the subscription row and the binding transaction an invoice row. When an intent is
  looked up between a binding's check and its write, with another payload (`KeyCanBeSplit`) or with the same one
  after its invoice was settled (`RepeatedRequestCanBeSplit`), a client key is reserved by one invoice and recorded
  for another. This can happen exactly when an invoice may accept more than one key (`KeysAlwaysAgreeIffOneKey`);
  `KeysAgreeIff` says which runs it happens in.
- A success report may be answered True without any entitlement: exactly when it matches an invoice without payment
  time whose status counts as paid (`AnsweredIsEntitledIff`). A refund accepted while an unpaid invoice is in manual
  review leaves one behind (`UnpaidRefundIsAnsweredTrue`).
- One payment per invoice needs a provider that remembers a key for longer than 23 hours plus the delay of a request,
  counted from the reading of the clock, or a single attempt (`OnePaymentIff`).
- The day's budget holds exactly while no request outlasts the minute by which its counter outlives midnight
  (`BudgetHoldsIff`).

## Model

| member | source | states |
|---|---|---|
| DispatchGuarantees.EntersOnlyAfterSafeRetries | apps/core/dispatch.py:535-664 | in every reachable state, a worker about to enter the body of a no-replay job finds each earlier entry by a claim of its own revival period ended, by a safe-retry error that claim recorded |
| DispatchGuarantees.RevivalIsSafeIffNobodyWaits | apps/core/dispatch.py:91-151 | after a revival no run without another one repeats an unsafe entry, if and only if no claimed worker of the time before still waits to enter |
| DispatchGuarantees.WaitingWorkerCanOutliveItsLease | apps/core/dispatch.py:154-195 | a run in which a no-replay row is failed by its expired lease while the worker that claimed it has not entered yet |
| DispatchGuarantees.WaitingWorkerCanOutliveReplays | apps/core/dispatch.py:535-664 | the same for a job that may be replayed, failed by its next claim or for lack of an attempt |
| DispatchGuarantees.OnlyTheOwnerRecords | apps/core/dispatch.py:576-664 | an outcome changes the row only for the latest claim, of the current period, holding the current token of a running row |
| DispatchGuarantees.ClosedRowsStayClosed | apps/core/dispatch.py:121-145 | a terminal row is left unchanged by every step but the revival of a failed one |
| DispatchGuarantees.EntriesAreLimited | apps/core/dispatch.py:552-571 | claims of a revival period enter the body at most as often as attempts were counted in it, and these are at most the maximum; terminal rows carry no lease and a finishing time, open ones none |
| DispatchGuarantees.EntriesStayCountedIffNobodyWaits | apps/core/dispatch.py:121-145 | by wall clock, entries made after a revival stay within the attempts on every run without another one, if and only if no claimed worker of the time before still waits to enter |
| DispatchGuarantees.FirstPeriodStaysCounted | apps/core/dispatch.py:552-571 | a row that is never revived keeps that bound |
| DispatchGuarantees.EntriesCanOutnumberAttempts | apps/core/dispatch.py:121-145 | for every new row, no-replay or not, a reachable state in which more entries were made since the revival than attempts are counted |
| DispatchGuarantees.CertainRevivalsNeverRepeat | apps/core/dispatch.py:91-151 | on every run of a no-replay row whose revivals all find the stored outcome certain, no entry follows an unsafe one of its period by wall clock, and entries stay within the attempts |
| DispatchGuarantees.RulesAreSafeIffTheyRefuseUncertain | apps/core/dispatch.py:91-151 | a rule for reviving that reads only the row lets no run repeat an unsafe entry by wall clock if and only if it refuses every row with an uncertain outcome that it can meet |
| DispatchGuarantees.StepsLowerPotential | apps/core/dispatch.py:154-249 | every advancing step lowers a potential of the row, and a lost publication raises it by at most one |
| DispatchGuarantees.AdvancesAreBounded | apps/core/dispatch.py:154-664 | on every run without revival a row advances at most five times its attempt limit plus four times, plus once per lost publication |
| DispatchGuarantees.OpenRowsCanAdvance | apps/core/dispatch.py:154-249 | an open row whose current message is with the broker always has an advancing step |
| DispatchProtocol.ReachableIsSound | apps/core/dispatch.py:91-664 | the invariants of row, tokens, messages and claims hold in every interleaving |
| Dispatch.RetryDelayBounds | apps/core/dispatch.py:897-898 | retries wait between 2 and 256 seconds whatever the attempt |
| DispatchOutcomes.OutcomeOfCurrentClaim | apps/core/dispatch.py:576-664 | the row after each outcome of the claim that holds it: succeeded when it returned; failed, uncertain exactly for flagged or unsafe no-replay errors, when not allowed, uncertain or out of attempts; otherwise pending until the retry delay is over |
| DispatchOutcomes.SucceedsIffCurrentClaimReturns | apps/core/dispatch.py:609-622 | in every reachable state a step makes the row succeed if and only if it is the return of the claim that holds it |
| DispatchOutcomes.PublicationOutcome | apps/core/dispatch.py:154-211 | nothing is published before its time or taken over before its lease is out; a due row gets an unused token and 90 seconds, an overdue no-replay worker fails its row as uncertain |
| DispatchOutcomes.BrokerOutcome | apps/core/dispatch.py:213-249 | the broker's answer moves only the publication that asked, back to pending or on to 120 seconds of waiting |
| DispatchOutcomes.DeliveryOutcome | apps/core/dispatch.py:535-573 | a message claims only under the current token, counts an attempt and gets the execution time; without an attempt left the row fails for certain |
| DispatchOutcomes.RevivalOutcome | apps/core/dispatch.py:126-145 | a failed row starts afresh at the time asked for, no other row changes |
| DispatchOutcomes.NewRowsAreNew | apps/core/dispatch.py:112-120 | the bounds of attempts and execution time, and that a new row is due when asked for |
| DispatchOutcomes.OpenRowsAreCertain | apps/core/dispatch.py:578-663 | only failed rows carry an uncertain outcome |
| DispatchOutcomes.RetryDelayDoubles | apps/core/dispatch.py:897-898 | the delay is two seconds at first and doubles seven times |
| Dispatch.DispatchRow.ReviveFailed | apps/core/dispatch.py:126-145 | a failed row, and only that, starts afresh with no attempts and no token |
| Dispatch.DispatchRow.ClaimForPublication | apps/core/dispatch.py:154-211 | publishes a due or stale row under a fresh token; a stale running no-replay row is failed as uncertain instead |
| Dispatch.DispatchRow.RecordPublishFailure | apps/core/dispatch.py:220-234 | only the publishing row with this token goes back to pending |
| Dispatch.DispatchRow.RecordPublished | apps/core/dispatch.py:238-249 | only the publishing row with this token becomes published |
| Dispatch.DispatchRow.ClaimDelivery | apps/core/dispatch.py:535-573 | a delivery claims the row only with its current token and an attempt left; an exhausted row is failed |
| Dispatch.DispatchRow.FinishFailed | apps/core/dispatch.py:625-664 | a failure is written only by the running claim with its token, as final or for retry |
| Dispatch.DispatchRow.RecordOutcome | apps/core/dispatch.py:576-622 | the whole decision between success, retry, failure and uncertain failure |
| Operations.ReachableIsSound | apps/ai_agent/reconciliation.py:31-537 | in every reachable state the reserved column is the sum of held operations and media jobs, and each of the three columns is the sum of its ledger entries |
| Operations.ClampsNeverBind | apps/billing/ai_wallet.py:177-273 | on a held operation neither the clamp of release nor that of settle cuts anything off |
| Operations.ReleaseTakesTheAmount | apps/ai_agent/reconciliation.py:467-493 | releasing a held operation never collides in the ledger and frees exactly its amount |
| Operations.SettleTakesTheAmount | apps/ai_agent/reconciliation.py:495-537 | settling never collides, frees exactly the amount and charges what the wallet covers |
| Operations.ClosedStaysClosed | apps/ai_agent/reconciliation.py:145-244 | a released or settled operation keeps status and charge through every later run |
| Operations.PaidCallIsSafe | apps/ai_agent/reconciliation.py:378-457 | the sweep never releases an operation whose boundary was marked; a released one is charged nothing |
| Operations.OneUnresolvedPerDomain | apps/ai_agent/reconciliation.py:49-95 | two unresolved operations of one tenant, task and domain object never exist |
| Operations.BoundaryNeedsReservation | apps/ai_agent/reconciliation.py:98-112 | the network boundary is written only while the reservation is held by an undecided operation |
| Operations.BackedRunsSettleInFull | apps/billing/ai_wallet.py:199-271 | on runs without expiry or period grant the wallet stays backed and a price within its reservation is charged in full |
| Operations.ReconcileStale | apps/ai_agent/reconciliation.py:378-457 | the sweep loop computes the pass over the rows and counts what it resolved |
| Operations.SweepPassIsComplete | apps/ai_agent/reconciliation.py:378-457 | a pass keeps every invariant and, unless it met its limit, leaves no stale row of its kind |
| OperationOutcomes.OperatorOutcome | apps/ai_agent/reconciliation.py:189-245 | the operator's release leaves the operation released for nothing and every credit in place, the settlement charges what the wallet can pay of the whole reserved amount; any operation not under reconciliation is unchanged |
| OperationOutcomes.WorkerReleaseOutcome | apps/ai_agent/reconciliation.py:145-158 | an open operation is released for nothing, a closed one unchanged |
| OperationOutcomes.WorkerSettleOutcome | apps/ai_agent/reconciliation.py:161-186 | an open operation is settled at its price, included credits first, and waits for its result exactly if it has one to apply; otherwise nothing changes |
| OperationOutcomes.ApplyOutcome | apps/ai_agent/reconciliation.py:248-313 | a result waited for becomes applied, nothing else changes |
| OperationOutcomes.StartAndDoubtOutcome | apps/ai_agent/reconciliation.py:98-142 | the boundary is marked once on a reserved operation, a doubt moves only a reserved one |
| OperationOutcomes.SweepOutcome | apps/ai_agent/reconciliation.py:406-451 | the sweep touches only reserved operations older than the timeout, since their start or their creation |
| OperationOutcomes.BeginOutcome | apps/ai_agent/reconciliation.py:31-95 | an operation begins exactly when its domain has none unresolved and the wallet covers it |
| OperationOutcomes.MediaOutcome | apps/billing/ai_wallet.py:177-273 | a media reservation is released or settled whole, once |
| ProviderOperations.ProviderOperation.MarkNetworkStarted | apps/ai_agent/reconciliation.py:98-112 | marks the boundary of a reserved operation once and refuses any other |
| ProviderOperations.ProviderOperation.MarkOutcomeUncertain | apps/ai_agent/reconciliation.py:115-142 | moves a reserved started operation to reconciliation |
| ProviderOperations.ProviderOperation.ReleaseHeld | apps/ai_agent/reconciliation.py:467-493 | releases operation and wallet together, with no charge |
| ProviderOperations.ProviderOperation.SettleHeld | apps/ai_agent/reconciliation.py:495-537 | settles operation and wallet together, with the charge the wallet made |
| ProviderOperations.ProviderOperation.ReleaseOperation | apps/ai_agent/reconciliation.py:145-158 | the worker's release and the states it refuses |
| ProviderOperations.ProviderOperation.SettleOperation | apps/ai_agent/reconciliation.py:161-186 | the worker's settlement and the states it refuses |
| ProviderOperations.ProviderOperation.ResolveUncertain | apps/ai_agent/reconciliation.py:189-245 | the operator decides only operations under reconciliation |
| ProviderOperations.ProviderOperation.ApplyResultOnce | apps/ai_agent/reconciliation.py:248-313 | a settled result is applied at most once |
| DescriptionAgents.Generate | apps/ai_agent/services.py:40-283 | the nested loops with any steps of others in between: the first model is tried up to twice and every other once, in order, an unaccepted request goes to the next model, and the loops end exactly with a result, an error or the last model; a further operation is begun only when all earlier ones are decided, at most the last is undecided at the end, none is left reserved |
| DescriptionAgents.OrderOfAttempts | apps/ai_agent/services.py:56-58 | which attempt follows which: the first model once more after a rejected answer or missing credits, otherwise the next model, and where the generation ends |
| DescriptionAgents.Attempt | apps/ai_agent/services.py:59-280 | one attempt: exactly when it has no credits, is refused, uncertain, rejected, released or a result, and the state it leaves |
| DescriptionAgents.RunExtends | apps/ai_agent/reconciliation.py:98-245 | no run of any actors changes an operation's identity, decision, boundary mark or call |
| Wallet.ReserveAbortsIffExpiredTwice | apps/billing/ai_wallet.py:143-175 | with a fresh key a reservation aborts exactly when an expired package was expired before |
| Wallet.LimitRaiseAfterExpiryBlocksReserves | apps/billing/ai_wallet.py:324-363 | after a reservation has expired the package and the limit was raised, the next reservation aborts |
| Operations.ExpiredPackageBlocksWhileIncluded | apps/billing/ai_wallet.py:448-466 | on every run without a new period, once the expiry is booked, a later reservation under a fresh key aborts if and only if included credits are left |
| Wallet.ReserveBacks | apps/billing/ai_wallet.py:143-175 | a successful positive reservation leaves total at or above reserved, whatever it was before |
| Wallet.SyncBacks | apps/billing/ai_wallet.py:324-363 | a limit change restores the backing |
| Wallet.OthersKeepBacking | apps/billing/ai_wallet.py:365-447 | release, top-up and reversal keep the backing |
| Wallet.SettleKeepsBacking | apps/billing/ai_wallet.py:199-273 | settlement keeps the backing |
| Wallet.GrantBacksIff | apps/billing/ai_wallet.py:275-322 | a period grant leaves the wallet backed if and only if package and purchases cover the reservations |
| Wallet.FullChargeIff | apps/billing/ai_wallet.py:199-273 | the charge is the full price if and only if the wallet covers it beside the other reservations |
| Wallet.BackedSettlesInFull | apps/billing/ai_wallet.py:199-273 | a backed wallet pays any price within the reservation in full |
| Wallet.ReleaseBooksIff | apps/billing/ai_wallet.py:177-197 | when a release keeps column and ledger in step, for all inputs |
| Wallet.SettleBooksIff | apps/billing/ai_wallet.py:199-273 | when a settlement keeps column and ledger in step, for all inputs |
| Wallet.ReserveBooks | apps/billing/ai_wallet.py:143-175 | a reservation keeps all three columns equal to the sums of their entries |
| Wallet.GrantBooks | apps/billing/ai_wallet.py:275-322 | so does a period grant |
| Wallet.OthersBook | apps/billing/ai_wallet.py:324-447 | so do limit changes, top-ups and reversals |
| Wallet.NewWalletBooks | apps/billing/ai_wallet.py:46-78 | so does the first wallet of a tenant |
| WalletOutcomes.LimitChangeKeepsSpending | apps/billing/ai_wallet.py:324-363 | a limit change keeps what was spent while the new limit covers it and the reservations need no more, otherwise the package is the least that backs the reservations |
| WalletOutcomes.LastLimitChangeCounts | apps/billing/ai_wallet.py:324-363 | of two limit changes only the last counts, unless the first met a reservation or zero |
| WalletOutcomes.ReserveOutcome | apps/billing/ai_wallet.py:143-175 | a reservation is granted exactly when the unexpired balance covers it beside the others, and holds what was asked |
| WalletOutcomes.ReleaseOutcome | apps/billing/ai_wallet.py:177-197 | a release frees its amount and moves no credit |
| WalletOutcomes.SettleOutcome | apps/billing/ai_wallet.py:199-273 | the charge is the most of the price that leaves the other reservations covered, included credits pay before purchased ones |
| WalletOutcomes.SettledOnce | apps/billing/ai_wallet.py:199-273 | a repeated settlement changes nothing |
| WalletOutcomes.GrantOutcome | apps/billing/ai_wallet.py:275-322 | a new package replaces the old one, which is booked out; a known one changes nothing |
| WalletOutcomes.TopupOutcome | apps/billing/ai_wallet.py:365-393 | a purchase adds its credits once |
| WalletOutcomes.ReversalOutcome | apps/billing/ai_wallet.py:395-447 | a reversal takes the most of what is asked that is purchased and no reservation needs |
| WalletOutcomes.RepeatedReversal | apps/billing/ai_wallet.py:395-447 | a repeated one takes nothing and reports what the first took |
| WalletOutcomes.FirstPackage | apps/billing/ai_wallet.py:46-78 | the first package is the least that covers the limit with what was used before |
| Wallet.AIWallet.Book | apps/billing/models.py:639-656 | an entry is added only under a free key |
| Wallet.AIWallet.ReserveCredits | apps/billing/ai_wallet.py:143-175 | the whole wallet afterwards, an abort undoing the expiry too |
| Wallet.AIWallet.ReleaseCredits | apps/billing/ai_wallet.py:177-197 | the whole wallet afterwards |
| Wallet.AIWallet.SettleCredits | apps/billing/ai_wallet.py:199-273 | the whole wallet and the charge, included credits first |
| Wallet.AIWallet.GrantIncluded | apps/billing/ai_wallet.py:275-322 | the whole wallet afterwards; a repeated grant changes nothing |
| Wallet.AIWallet.SyncIncludedLimit | apps/billing/ai_wallet.py:324-363 | the whole wallet afterwards |
| Wallet.AIWallet.TopupPurchased | apps/billing/ai_wallet.py:365-393 | the whole wallet afterwards; a repeated top-up changes nothing |
| Wallet.AIWallet.ReverseCredits | apps/billing/ai_wallet.py:395-447 | what was taken back and the shortfall, and the whole wallet |
| Pricing.PriceIsLeastCover | apps/ai_agent/models.py:177-190 | rounding up gives the least whole number of units covering metered price and minimum |
| Pricing.EachTokenIsCharged | apps/ai_agent/models.py:177-190 | what one more input, cached or output token adds to the metered price |
| Pricing.EstimateIsAttained | apps/ai_agent/models.py:192-196 | the estimate is the price of the uncached call, of the model's full output where none is given |
| Pricing.ActualWithinEstimate | apps/ai_agent/models.py:177-196 | a call whose input, output and cached counts stay within the estimated ones, or within the model's output limit where none was given, never costs more than the estimate |
| Pricing.EstimateHoldsIffCacheIsCheap | apps/ai_agent/models.py:177-196 | the estimate is safe for every such call if and only if the cached rate is at most the input rate |
| Pricing.DearCacheExceedsEstimate | apps/ai_agent/models.py:177-196 | with a dearer cache some call exceeds its estimate |
| Pricing.EstimateHoldsForAnyCacheIffCacheIsFree | apps/ai_agent/models.py:177-196 | it is safe with any number of cached tokens if and only if the cached rate is zero |
| Pricing.ManyCachedTokensExceedEstimate | apps/ai_agent/models.py:177-196 | for every other model, call and estimate, a number of cached tokens that exceeds it |
| Billing.EntitledOnceWhenPaid | apps/billing/services.py:1342-1667 | in every reachable state an invoice was entitled once if it is paid and never otherwise, by a report with its payment id, a hundred times its amount in hundredths and its currency |
| Billing.PaidAtMarksEntitlement | apps/billing/services.py:1342-1745 | a step gives the entitlement exactly when it sets an unset payment time; no step unsets one |
| Billing.AnsweredIsEntitledIff | apps/billing/services.py:1409-1428 | a success report is answered True for an invoice that was never entitled if and only if it matches, the status counts as paid and no payment time is set |
| Billing.UnpaidRefundIsAnsweredTrue | apps/billing/services.py:1815-1982 | a reachable invoice, half refunded while unpaid in manual review, whose payer is answered True and gets nothing |
| Invoices.AnsweredUnpaidIff | apps/billing/services.py:1409-1428 | the same for one payment report and any account |
| Billing.PaidTopupIsCredited | apps/billing/services.py:1432-1477 | the payment of a top-up credits exactly its credits, and no other payment report credits anything |
| Billing.PaidTermIsGranted | apps/billing/services.py:1627-1648 | the payment of a term books its first package under the key of its version, which was free, sets the included balance to it until the end of the stored AI month and leaves the other balances; a report that pays nothing leaves the wallet alone |
| Billing.LedgerNeverRefusesTerm | apps/billing/services.py:1595-1648 | only a date that cannot be built stops the activation of a term, never the ledger |
| Billing.TermNeedsUnchangedSubscription | apps/billing/services.py:1560-1624 | a term is activated only if the subscription equals, field by field, what it was at checkout |
| Billing.OneWinnerPerVersion | apps/billing/services.py:1560-1572 | of all invoices sold for one version at most one is ever paid |
| Billing.RefundsTelescope | apps/billing/services.py:1749-1982 | refunded is the sum of accepted reports and at most the amount; credits asked back are the floor of the exact share, all at full refund; asked back is taken back plus shortfall |
| PaymentOutcomes.TopupPaymentOutcome | apps/billing/services.py:1357-1477 | every success report for a top-up: one that differs in payment, amount or currency means review and nothing given, a fitting one gives the credits exactly to an open readable invoice |
| PaymentOutcomes.TermPaymentOutcome | apps/billing/services.py:1357-1667 | every success report for a term likewise, given exactly to the version it was sold for unless a date cannot be built |
| PaymentOutcomes.TermWithoutSubscription | apps/billing/services.py:1482-1489 | without a subscription the invoice is left to an operator |
| PaymentOutcomes.CancellationOutcome | apps/billing/services.py:1691-1745 | a cancellation fails exactly an open invoice of its payment |
| PaymentOutcomes.AcceptedIff | apps/billing/services.py:1786-1892 | a proper report under a new reference is recorded, and accepted exactly for a paid, partially refunded or reviewed invoice |
| PaymentOutcomes.ImproperIsNotAccepted | apps/billing/services.py:1786-1879 | a report in another currency or above what is left is recorded unaccepted for review, a malformed or foreign one changes nothing |
| PaymentOutcomes.RefundOfPaidTopup | apps/billing/services.py:1881-1982 | in every reachable state, what an accepted refund of a paid top-up moves, asks back, takes back and leaves as status |
| PaymentOutcomes.RefundLeftToOperator | apps/billing/services.py:1894-1920 | an accepted refund of a term or an unreadable top-up counts and leaves the wallet alone |
| PaymentOutcomes.RepetitionIsAcknowledgedIff | apps/billing/services.py:217-234 | a repeated reference is acknowledged exactly if it repeats everything |
| Billing.RepeatedReportsChangeNothing | apps/billing/services.py:217-234 | a known refund reference changes nothing, whatever the report says |
| Billing.ReachableIsSound | apps/billing/services.py:1248-1982 | entitlements, payments, versions and refund sums fit together in every run |
| Billing.RefundOutcome | apps/billing/services.py:1749-1982 | one report keeps refunded and requested sums of its invoice exact |
| Billing.TermOutcome | apps/billing/services.py:1560-1624 | an activation needs the expected version and moves it by one |
| Invoices.TargetsGrow | apps/billing/services.py:1924-1939 | refund targets grow with the refunded part, from zero up to all credits |
| Invoices.InvoiceRow.MarkManualReview | apps/billing/services.py:1248-1269 | manual review keeps every other field and an earlier refund flag |
| Invoices.InvoiceRow.CheckPayment | apps/billing/services.py:1357-1428 | which reports are refused, already done or sent to manual review |
| Invoices.InvoiceRow.CreditPaymentSucceeded | apps/billing/services.py:1432-1477 | invoice and wallet of a paid top-up |
| Invoices.InvoiceRow.TermPaymentSucceeded | apps/billing/services.py:1482-1667 | invoice, subscription and wallet of a paid term, its package granted under the new version, or all of them unchanged |
| Invoices.InvoiceRow.PaymentCanceled | apps/billing/services.py:1691-1745 | only an open invoice with this payment fails |
| Invoices.InvoiceRow.RefundReported | apps/billing/services.py:1749-1982 | invoice, wallet and table of reversals after one report |
| Subscriptions.VersionCountsChanges | apps/billing/services.py:2036-2215 | the version moves by exactly one with each change of the row and only then |
| SubscriptionOutcomes.PaidTermOutcome | apps/billing/services.py:1596-1624 | a paid term lasts a year or a month, day kept or last of a shorter month, from the end of the paid time or from today after a trial; only the end of the calendar stops it |
| SubscriptionOutcomes.UpgradeOutcome | apps/billing/services.py:2066-2092 | a changed plan lasts a year or a month from today, its first AI month a month |
| SubscriptionOutcomes.TrialOutcome | apps/billing/services.py:2037-2062 | only an active subscription refuses an extended trial |
| SubscriptionOutcomes.EndOfTermOutcome | apps/billing/services.py:2151-2215 | which rows become past due or cancelled, and that nothing else of them changes |
| SubscriptionOutcomes.RefreshOutcome | apps/billing/services.py:2114-2132 | a refresh touches only the AI month of an active subscription on a date of its term |
| Subscriptions.FirstPeriodIsStored | apps/billing/services.py:1596-1624 | both writers of a paid term store the locator's first period |
| Subscriptions.EachMonthGrantedOnce | apps/billing/services.py:2112-2147 | over nondecreasing dates a refresh returns True exactly when its month is not the first and no earlier date fell into it |
| Subscriptions.LastRefreshGrants | apps/billing/services.py:2112-2147 | for dates of the term in any order, the last refresh returns True exactly when it enters another month than the one before it |
| Subscriptions.RefreshesGrantOnChange | apps/billing/services.py:2112-2147 | the same of every refresh of the sequence |
| Subscriptions.GrantsOnceIffNeverReturning | apps/billing/services.py:2112-2147 | refreshes return True at most once a month, and never for the first, if and only if no date returns to a month already left |
| Subscriptions.MonthsNeverGoDown | apps/billing/services.py:315-353 | dates in order never fall into earlier months |
| Subscriptions.GoingBackGrantsAgain | apps/billing/services.py:2112-2147 | a term and three dates going backwards after which a refresh returns True for the first month |
| Subscriptions.SubscriptionRow.ActivatePaidTerm | apps/billing/services.py:1592-1624 | the whole row of a paid term; a date error leaves it alone |
| Subscriptions.SubscriptionRow.RefreshAICreditPeriod | apps/billing/services.py:2112-2147 | the whole row, the wallet after the grant under the month's date key and until the month's end, and the answer; an error undoes both |
| MonthlyPackages.TurnsFollowDates | apps/billing/services.py:2112-2147 | with any other wallet traffic in between, the ledger never stops a refresh and the rows move as without the wallet |
| MonthlyPackages.PackageBookedAtFirstEntry | apps/billing/ai_wallet.py:275-322 | for dates in any order, a refresh books its month's package exactly when it moves the row to that month for the first time and the month's key was free |
| MonthlyPackages.LastTurn | apps/billing/services.py:2129-2147 | a refresh that books sets the included balance to its package until the end of its month, one that does not leaves the wallet alone |
| Calendar.DaysEndInOrder | apps/billing/ai_wallet.py:300-303 | later dates end later, so that packages expire in the order of their months |
| Calendar.DaysFollowEachOther | apps/billing/services.py:298-312 | month ends and leap years are those of the civil calendar: each next day has the next number of the closed formula |
| Calendar.ShiftKeepsTheDay | apps/billing/services.py:298-304 | a month later means the same day or the last one of a shorter month |
| MonthlyPackages.BooksOnceIff | apps/billing/services.py:2112-2147 | no package is booked twice and the first month's not again, if and only if no date comes back to the first month after leaving it or its date key is taken |
| Calendar.LocatorEqualsSearch | apps/billing/services.py:315-353 | the constant-time locator equals linear search clipped to the end and raises no date error |
| Calendar.LocatorStaysWithinTheTerm | apps/billing/services.py:315-353 | it does so on every calendar that ends no earlier than the end's month, so it builds no date beyond that month |
| Calendar.NoPeriodOutsideTerm | apps/billing/services.py:315-353 | there is no period exactly for targets outside the term |
| Calendar.PeriodContainsTarget | apps/billing/services.py:315-353 | the period found contains its date |
| Calendar.PeriodsDoNotOverlap | apps/billing/services.py:315-353 | a date inside another date's period has that period |
| Calendar.PeriodsFollowEachOther | apps/billing/services.py:315-353 | the first period starts the term and each next one starts where the last ended |
| Calendar.YearIsTwelveMonths | apps/billing/services.py:293-312 | a year is twelve months, from 29 February and at the end of the calendar too |
| Calendar.MonthStartsIncrease | apps/billing/services.py:298-304 | month starts strictly increase despite clamped days |
| CheckoutKeys.ClientKeysAreForever | apps/billing/models.py:378-431 | a recorded client key stands for one invoice and one payload through every later run |
| CheckoutKeys.KeysStayBounded | apps/billing/services.py:538-571 | keys of an invoice stay within the limit, its reserved but unrecorded key included |
| CheckoutKeys.OneActiveCheckout | apps/billing/models.py:294-320 | a tenant never has two active subscription checkouts nor two with one payload |
| CheckoutKeys.UnresolvedPaymentBlocks | apps/billing/services.py:672-694 | an unresolved subscription payment stops every subscription checkout, known key or not |
| CheckoutKeys.NewCheckoutNeedsASettledPast | apps/billing/services.py:636-775 | a new subscription intent needs an unknown key, no running paid term and only settled earlier checkouts |
| CheckoutKeys.BindingTellsTheOwner | apps/billing/services.py:538-576 | the three answers of a binding tell who owns the key afterwards |
| CheckoutOutcomes.TermCheckoutOutcome | apps/billing/services.py:636-775 | which subscription checkout a key leads to: conflict, review, its own intent, a running term, another checkout, the same one, or a new one |
| CheckoutOutcomes.CreditCheckoutOutcome | apps/billing/services.py:799-863 | which credit checkout it leads to |
| CheckoutOutcomes.KnownOutcome | apps/billing/services.py:579-616 | a key is unknown exactly if no invoice holds it, and conflicts exactly when its holder has another payload |
| CheckoutOutcomes.BindingOutcome | apps/billing/services.py:538-576 | a binding is refused exactly for a further key of a full invoice or a key recorded otherwise |
| CheckoutOutcomes.KeysAreRows | apps/billing/services.py:540-542 | the count is the number of the invoice's rows |
| CheckoutKeys.KeysAlwaysAgreeIffOneKey | apps/billing/services.py:514-871 | reservations and records agree in every run if and only if an invoice accepts a single key |
| CheckoutKeys.KeysAgreeIff | apps/billing/services.py:514-786 | they agree after a given run if and only if no lookup was stale when its transaction wrote |
| CheckoutKeys.UninterruptedTransactionsStillWrite | apps/billing/services.py:514-786 | a transaction that is not interrupted has no stale lookup |
| CheckoutKeys.OwnersNeverChange | apps/billing/services.py:579-616 | while they agree a key never changes its invoice |
| CheckoutKeys.KeyCanBeSplit | apps/billing/services.py:514-871 | for every limit of at least two, a run with two payloads after which a key is reserved by one invoice and recorded for another |
| CheckoutKeys.RepeatedRequestCanBeSplit | apps/billing/services.py:514-871 | for every such limit, a run with one payload that ends so too |
| CheckoutKeys.ReachableIsSound | apps/billing/services.py:514-871 | pointers, uniqueness, bounds and pending lookups hold in every interleaving |
| CheckoutKeys.KeyRegistry.CountKeys | apps/billing/services.py:540-542 | counts the keys of one invoice |
| CheckoutKeys.KeyRegistry.BindClientKey | apps/billing/services.py:514-576 | the whole key table and the answer |
| ProviderPayment.OnePaymentIff | apps/billing/services.py:949-1182 | no run makes two payments if and only if the provider outlives horizon plus delay or there is one attempt |
| ProviderPayment.AtMostOnePayment | apps/billing/services.py:949-1182 | then at most one payment exists and a second payment identifier never reaches the row |
| ProviderPayment.RequestsAreOne | apps/billing/services.py:1016-1094 | all requests carry one key and payload, are at most the limit, and start within the horizon of the first |
| ProviderPayment.LatePaymentsDouble | apps/billing/services.py:1023-1032 | otherwise a run with two payments exists |
| ProviderPayment.BeginStartsInTime | apps/billing/services.py:963-1082 | a request is sent only with an attempt left and inside the horizon, and counts |
| ProviderOutcomes.SendsIff | apps/billing/services.py:963-1094 | exactly when a request is sent, with which terms, and what it leaves on the row |
| ProviderOutcomes.RefusesBecause | apps/billing/services.py:963-1100 | every other answer with its condition and the row it leaves |
| ProviderOutcomes.AnswerOutcome | apps/billing/services.py:1112-1176 | an answer is stored exactly if it is the invoice's or its first and nobody else's; an unknown outcome is retried unless the page is known |
| ProviderOutcomes.SavesIff | apps/billing/models.py:324-372 | saving refuses exactly a changed payment identifier or changed frozen terms |
| ProviderPayment.CheckoutRow.BeginAttempt | apps/billing/services.py:963-1082 | the whole row and the answer of the first transaction |
| ProviderPayment.CheckoutRow.StoreAnswer | apps/billing/services.py:1135-1176 | the whole row; a set payment identifier never changes |
| Outbox.CandidatesAreClaimable | apps/billing/outbox.py:174-251 | the due query selects exactly the events a claim takes |
| Outbox.OpenEventsBecomeClaimable | apps/billing/outbox.py:213-251 | pending and processing events can be claimed from their delay or timeout on |
| Outbox.StepsAreLeaseSteps | apps/billing/outbox.py:213-349 | each step is a lease step, and besides a claim only the token holder changes the event |
| Outbox.RunsAreLeaseRuns | apps/billing/outbox.py:213-349 | every run is a run of the lease |
| Outbox.OutboxIsFenced | apps/billing/outbox.py:291-349 | dispatched is absorbing and a lost token never changes the event again |
| Outbox.DispatchedMeansPublished | apps/billing/outbox.py:291-312 | only a holder whose publication was completed makes an event dispatched |
| Outbox.DeadMeansExhausted | apps/billing/outbox.py:315-349 | a dead event was claimed at least the limit's number of times |
| Outbox.DispatchDue | apps/billing/outbox.py:351-406 | what one pass makes of every event, whatever others do to it between claim and end, and what its counters count |
| Outbox.ClaimOutcome | apps/billing/outbox.py:213-251 | a claim counts an attempt and gives the event to its token, a refused one changes nothing |
| Outbox.EndOutcome | apps/billing/outbox.py:291-349 | a failed publication is retried after the back-off while attempts are left and buried exactly when they are not |
| Outbox.EndingsAreEarned | apps/billing/outbox.py:370-404 | an event of a pass is dispatched, returned or buried only by a worker still holding its token; otherwise what others made of it stays |
| Outbox.EventRow.ClaimEvent | apps/billing/outbox.py:213-251 | the whole row and the answer |
| Outbox.EventRow.MarkEventDispatched | apps/billing/outbox.py:291-312 | the whole row, changed exactly for the holder |
| Outbox.EventRow.RescheduleEvent | apps/billing/outbox.py:315-349 | the whole row; dead only at or above the limit |
| Common.BackoffDoubles | apps/billing/outbox.py:37-42 | the first delay is the base, each next one doubles it sixteen times, all are cut at the maximum |
| Webhooks.DecisionsStand | apps/billing/webhook_processing.py:153-199 | an event is decided at most once and the decision never changes |
| Webhooks.StaleWorkersDecideNothing | apps/billing/webhook_processing.py:166-172 | a worker whose claim was taken over changes nothing however late it comes |
| Webhooks.SweepingNeedsExhaustion | apps/billing/reconciliation.py:50-127 | a decision comes from the token holder, or from the exhaustion sweep at the limit with nobody at work |
| Webhooks.OpenEventsMove | apps/billing/webhook_processing.py:47-150 | an undecided event can be claimed by a delivery and claimed or closed by the reconciler after its timeout and delay |
| Webhooks.CandidatesCanBeWorkedOn | apps/billing/reconciliation.py:130-160 | the query selects what can be claimed or closed, except at the very instant a holder becomes stale |
| Webhooks.DeliveryOutcome | apps/billing/webhook_processing.py:47-99 | a delivery is counted and claims exactly an undecided event without a fresh claim |
| Webhooks.ReconciliationOutcome | apps/billing/webhook_processing.py:102-150 | the reconciler claims exactly if, besides, its delay is over or ignored and an attempt is left |
| Webhooks.DecisionOutcome | apps/billing/webhook_processing.py:175-199 | the holder's decision is written as told, an error is retried after the back-off |
| Webhooks.StepsAreLeaseSteps | apps/billing/webhook_processing.py:47-199 | each step is a step of the lease |
| Webhooks.RunsAreLeaseRuns | apps/billing/webhook_processing.py:47-199 | every run is a run of the lease |
| Webhooks.WebhookRow.ClaimAgain | apps/billing/webhook_processing.py:47-99 | the whole row after a repeated delivery |
| Webhooks.WebhookRow.ClaimForReconciliation | apps/billing/webhook_processing.py:102-150 | the whole row; attempts never pass the limit |
| Webhooks.WebhookRow.FinalizeEvent | apps/billing/webhook_processing.py:153-199 | the whole row and the decision that stands |
| Webhooks.WebhookRow.CloseExhausted | apps/billing/reconciliation.py:50-127 | closes an exhausted idle event for manual review |
| Leases.LostTokensStayLost | apps/billing/outbox.py:291-349 | a token that lost its row never gets it back and has no effect in any later state |
| Leases.ClosedStaysClosed | apps/billing/webhook_processing.py:30-35 | a closed lease is never touched again |
| DeadlineRunner.EachResultIsDisposedOnce | apps/core/http_deadlines.py:58-147 | in every interleaving a success is returned or discarded, never both, and by the end not neither; the value is the operation's |
| DeadlineRunner.EachSlotIsReleasedOnce | apps/core/http_deadlines.py:58-114 | a slot is given back at most once and by the end of its call |
| DeadlineRunner.WorkersStayWithinTheCap | apps/core/http_deadlines.py:31-38 | live workers never exceed the cap, free slots are those nobody holds |
| DeadlineRunner.OutcomesAreNeverLost | apps/core/http_deadlines.py:96-103 | the worker never meets a full queue |
| DeadlineRunner.TimelySuccessIsReturned | apps/core/http_deadlines.py:140-147 | a success taken in time is returned and not discarded, a late one discarded and not returned |
| DeadlineRunner.FailureIsRaised | apps/core/http_deadlines.py:140-147 | a failure is raised and never discarded |
| DeadlineRunner.OutcomesReachTheirEnd | apps/core/http_deadlines.py:96-136 | what is queued is what is taken, and what comes late is what is discarded |
| DeadlineRunner.StepsAreBounded | apps/core/http_deadlines.py:58-147 | every step of a call brings it nearer to its end |
| DeadlineRunner.CallersAreNeverStuck | apps/core/http_deadlines.py:58-147 | only an operation that never returns can hold a worker up, nothing holds a caller up |
| DeadlineRunner.Handoff.OfferOutcome | apps/core/http_deadlines.py:96-103 | an outcome is queued, or handed back for discarding exactly after expiry |
| DeadlineRunner.Handoff.ExpireAndTake | apps/core/http_deadlines.py:114-120 | expiry takes what is queued and closes the hand-off |
| DeadlineRunner.Handoff.TakeInTime | apps/core/http_deadlines.py:128-136 | the caller empties the queue or times out |
| DailyBudget.BudgetIsNeverOversold | apps/core/throttling.py:89-126 | the counter covers all grants and grants stay within the limit, with lost replies and failed rollbacks |
| DailyBudget.BudgetHoldsIff | apps/core/throttling.py:89-126 | this holds in every run if and only if no request outlasts the minute of grace |
| DailyBudget.SlowRequestsOversell | apps/core/throttling.py:89-126 | otherwise a run that grants twice the limit exists |
| DailyBudget.CounterMoves | apps/core/throttling.py:108-121 | a charge adds its cost, a rollback that arrives takes it back, nothing else moves the counter |
| DailyBudget.GrantedIff | apps/core/throttling.py:114-126 | a request is granted exactly when its total is within the limit |
| DailyBudget.TransactionsNeverOversell | apps/core/throttling.py:129-167 | stored units are exactly what committed transactions paid and at most the limit |
| DailyBudget.ChargesAddUp | apps/core/throttling.py:129-167 | the charges of one transaction succeed exactly when their sum fits |
| DailyBudget.DailyUsage.Consume | apps/core/throttling.py:129-167 | the usage row and the answer |
| Sharding.SplitIsNearOptimal | scripts/ci_pytest_shard.py:21-38 | no shard exceeds (4/3 - 1/(3m)) times the heaviest shard of any m-way split of the same files |
| Sharding.LongestFirstBound | scripts/ci_pytest_shard.py:29-37 | longest-first is within that factor of every assignment of the same weights |
| Sharding.ListSchedulingBound | scripts/ci_pytest_shard.py:29-37 | greedy in any order is within (2 - 1/m) of every assignment |
| Sharding.SplitPartitionsFiles | scripts/ci_pytest_shard.py:21-38 | every file is in exactly one shard as often as given, each shard sorted by path |
| Sharding.SplitIgnoresInputOrder | scripts/ci_pytest_shard.py:21-38 | permuted input gives the same split |
| Sharding.LargestThenByPath | scripts/ci_pytest_shard.py:29-32 | files are handed out by falling size, and by path in code-point order within a size |
| Sharding.EachGoesToTheFirstLightest | scripts/ci_pytest_shard.py:34-37 | each file goes to the first of the shards that are lightest then |
| Sharding.ShardsHoldWhatWasSent | scripts/ci_pytest_shard.py:34-38 | a shard holds exactly the files sent to it |
| Sharding.Balance | scripts/ci_pytest_shard.py:31-37 | the loop over shards and weights computes the greedy assignment |
| Sharding.SplitTestFiles | scripts/ci_pytest_shard.py:21-38 | the whole function, its rejected arguments included |

## Left out

- DispatchProtocol.ReachableIsSound: revival is one atomic step; apps/media_processing/tasks.py:119, apps/media_processing/views.py:346 and apps/web_research/tasks.py:202 call for it without taking the lock of the dispatch row, and the overwriting this allows between two revivals is not captured. Readings of the clock are arbitrary and messages that were ever sent may arrive at any later time and any number of times.
- DispatchGuarantees.OpenRowsCanAdvance: fairness of the broker and of the scheduler is not modelled; the bound on advances holds on every run.
- Operations.ReachableIsSound: media jobs (apps/media_processing/services.py) appear only through the reservations they make, because they share the reserved column.
- Operations.ReconcileStale: works on a sequence of row values; rows skipped because they are locked are simply not in it.
- Billing.PaidTermIsGranted: the credit limit of the plan is an input, and the end of a day is an instant of a calendar without time zones.
- Billing.EntitledOnceWhenPaid: any actor may report any payment at any time; which webhook worker, poll or operator reports it is not distinguished, so the polling counters of apps/billing/reconciliation.py:255-444 do not appear. Wallet traffic of other parts, the grant of a changed plan included, enters as an arbitrary change that books no top-up, no reversal and no package of a version not reached yet.
- CheckoutKeys.ReachableIsSound: inside one transaction the lookups are one step and the write is another; finer interleavings of single statements are not split further. Plan and package lookups that fail end a checkout without a write.
- ProviderPayment.OnePaymentIff: one global clock; a request arrives within the configured delay of its caller's clock reading, once, or not at all. The provider is a table of keys that forgets each after its window.
- DailyBudget.BudgetHoldsIff: whole seconds, and one limit for all requests of a day.
- DeadlineRunner.EachResultIsDisposedOnce: an asynchronous exception between taking an outcome off the queue and storing it in a variable is not modelled, nor one between the start of the thread and the guarded wait, after which a result is neither returned nor discarded.
- DeadlineRunner.EachSlotIsReleasedOnce: nor is one between taking the slot and starting the thread, which would leak the slot, or out of the start of the thread after the worker has begun, which would release it twice.
- Pricing.PriceIsLeastCover: exact arithmetic; results beyond 28 significant digits, where decimals round, are not modelled.
- Invoices without an entitlement snapshot and the unlimited flag of reservations: compatibility paths.
- DescriptionAgents.Generate: prompts, validators and request logs are not modelled; the provider's answer, the estimates and other errors are inputs, and the check of the monthly limit before the loops is left out.
- Feed-intent recovery and the status mirrors of domain rows (apps/core/dispatch.py:331-532, 667-880): they do not touch the dispatch row's protocol.
- A paid term without a subscription row: handled by the functions, not by the system of `Billing.dfy`.
- Extending a trial by a number of days: the new end date is an argument.
- Notifications, audit logs, threshold states, prompts, views, serializers, retention and reporting: no effect on the proved properties.
- ORM, SQL, Redis, Celery and HTTP: replaced by steps of the environment.
