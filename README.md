# samjhadoo core in Dafny

This project models the core of samjhadoo, a mentoring platform.
It covers the logic the platform keeps in its JPA entities, in a handful of backend services and in three frontend TypeScript services.
The proofs show what those pieces promise: balances that never go negative, state machines with their guards, capacity limits, and bounded scores.

What is modelled:

- **Ledgers.**
  - `Wallet` credit balances: add, deduct, hold, release, freeze and unfreeze; the monthly limit, verification level and status changes.
  - `PointsAccount` points balances, and `PointsTransaction` reversals.
  - `Transaction` classifiers, retry eligibility, risk score and refunds.
- **Payments in flight.** `PayoutRequest` and `Escrow`, as guarded status machines.
- **Friendly talk.** The friendly-talk session, queue entry, room, safety report and live session entities. The queue, mood and safety services that match users and score them.
- **Chat.** Room membership with capacity and roles, participant status and scores, and message previews and scores.
- **Advertising.** Limit-capped impression and click counters for placements and campaigns, and placement targeting.
- **Visual queries.** The query and response entities, the access rules of the query service, media file validation and the response quality score.
- **Sessions and scheduling.**
  - Session time validation and the session life cycle.
  - Free half-hour slots in a mentor's availability windows.
  - The booking life cycle.
- **Pricing.** Charm pricing and the final price and mentor payout of the pricing engine.
- **AI gateway.** The per-user, per-tier hourly rate limit.
- **Gamification (backend).** Achievement progress and the streak milestone points.
- **Frontend.**
  - The WebRTC service: the peer map, the cached local stream and screen sharing.
  - The participant list kept by the live-session hook.
  - The XP and level-up loop, badges and achievements of the gamification service.

Conventions used throughout:

- There is one Dafny module per source file, plus `Common` for shared types, Java's integer division and HALF_UP rounding, and the string operations the entities use. String lengths are counted in UTF-16 units as Java counts them; case folding covers ASCII letters only (see "Left out").
- Time is an integer number of seconds. The current time is passed in as `now`.
- Money with two decimal places is an integer number of hundredths.
- Exceptions become `Outcome.Fail(message)`, with the source's message text. A thrown exception leaves the state as it was before the call.
- Repositories become maps (ids to records) that are fields of a service class.
- An entity whose fields the source updates in place is a `class`. Each of its methods states its whole new state in its `ensures`. Guarded status changes are also given as a pure transition function (`Next`), with lemmas about runs of events.
- Loops in the source (the safety score, slot collection, matching, achievement progress, the XP loop and the peer loops) are `while` loops, proved against recursive specification functions.
- Ratios the source computes in `double` are stated as exact integer comparisons. For example, "at least 80% helpful" is `5 * helpful >= 4 * total`.

## Model

| member | source | states |
|---|---|---|
| Common.JavaDiv | BackendWorkSpace/temp_disabled_friendlytalk/QueueServiceImpl.java:228 | Java integer division: the quotient is truncated toward zero, bounded by the dividend on either side |
| Common.HalfUpDiv | BackendWorkSpace/disabled-modules/pricing/PricingEngineServiceImpl.java:233 | HALF_UP rounding to a whole number: the nearest integer, ties away from zero |
| Common.DurationIn | temp_friendlytalk_disabled/FriendlyTalkSession.java:152 | Duration.between in whole units: the elapsed time divided by the unit, rounded down, for a later end; never positive for an earlier end |
| Common.Trim | BackendWorkSpace/temp_disabled_friendlytalk/QueueServiceImpl.java:251 | the trimmed text is no longer than the original and starts and ends with a non-blank character |
| Common.Utf16Units | BackendWorkSpace/backend/src/main/java/com/samjhadoo/model/ChatMessage.java:364 | a character takes two UTF-16 units exactly when it lies outside the Basic Multilingual Plane, otherwise one |
| Common.Utf16Length | BackendWorkSpace/backend/src/main/java/com/samjhadoo/model/ChatMessage.java:364 | the UTF-16 length lies between the number of characters and twice it, and equals it for text in the Basic Multilingual Plane |
| Common.Utf16LengthConcat | BackendWorkSpace/backend/src/main/java/com/samjhadoo/model/ChatMessage.java:364 | the UTF-16 length of a concatenation is the sum of the lengths |
| Common.Utf16Prefix | BackendWorkSpace/backend/src/main/java/com/samjhadoo/model/ChatMessage.java:368 | a prefix of the text of at most the given number of UTF-16 units, to which the next character could not be added |
| Common.Utf16PrefixOfBmp | BackendWorkSpace/backend/src/main/java/com/samjhadoo/model/ChatMessage.java:368 | on text in the Basic Multilingual Plane the prefix is the first characters up to the given count |
| Common.LowerAscii | BackendWorkSpace/backend/src/main/java/com/samjhadoo/model/ChatMessage.java:344 | the length is kept, a character other than a capital ASCII letter stays, a capital becomes the lower-case letter whose upper case it is, and no capital is left |
| Common.LowerAsciiIdempotent | BackendWorkSpace/backend/src/main/java/com/samjhadoo/model/ChatMessage.java:344 | lower-casing twice is the same as lower-casing once |
| Common.LowerAsciiEqualsIgnoringCase | BackendWorkSpace/backend/src/main/java/com/samjhadoo/model/ChatMessage.java:344 | a text equals its lower-cased form when case is ignored |
| Common.JoinPieces | BackendWorkSpace/backend/src/main/java/com/samjhadoo/model/AdPlacement.java:304 | the pieces between separators join back to the original text, and no piece holds the separator |
| Common.Split | BackendWorkSpace/backend/src/main/java/com/samjhadoo/model/AdPlacement.java:304 | without the separator the whole text is the one piece; every piece is free of the separator |
| Common.DecimalText | BackendWorkSpace/backend/src/main/java/com/samjhadoo/_disabled/visualquery/MediaServiceImpl.java:498 | the decimal text is made of digits, without leading zeros |
| Common.DecimalTextRoundTrip | BackendWorkSpace/backend/src/main/java/com/samjhadoo/_disabled/visualquery/MediaServiceImpl.java:498 | reading back a number's decimal text gives the number, so distinct timestamps give distinct texts |
| Common.RemoveFirst | temp_friendlytalk_disabled/FriendlyTalkRoom.java:163 | removing an absent element keeps the list; removing a present one takes exactly one element away and keeps every other |
| Common.RemoveFirstCutsFirstOccurrence | temp_friendlytalk_disabled/FriendlyTalkRoom.java:163 | when the first occurrence of the element is at index i, the result is the list with exactly index i cut out |
| Common.RemoveFirstMultiset | temp_friendlytalk_disabled/FriendlyTalkRoom.java:163 | as a bag, removing a present element takes away exactly one copy of it |
| Common.RemoveFirstKeepsDistinct | temp_friendlytalk_disabled/FriendlyTalkRoom.java:163 | removing from a list without duplicates leaves a list without duplicates and without the element |
| Common.TrimStartDropsLeadingBlanks | BackendWorkSpace/temp_disabled_friendlytalk/QueueServiceImpl.java:251 | the front trim leaves a suffix of the text that does not start with whitespace, and everything it drops is whitespace |
| Common.TrimEndDropsTrailingBlanks | BackendWorkSpace/temp_disabled_friendlytalk/QueueServiceImpl.java:251 | the back trim leaves a prefix of the text that does not end with whitespace, and everything it drops is whitespace |
| Common.EqualsIgnoreCaseIsSymmetric | BackendWorkSpace/temp_disabled_friendlytalk/QueueServiceImpl.java:251 | comparing two texts ignoring case gives the same answer in either order |
| WalletModel.Hold | BackendWorkSpace/backend/src/main/java/com/samjhadoo/model/Wallet.java:195-208 | a hold succeeds exactly for a positive amount within the available balance; it moves that amount from available to pending, keeps the total and the frozen part, and keeps every pot non-negative |
| WalletModel.Release | BackendWorkSpace/backend/src/main/java/com/samjhadoo/model/Wallet.java:215-228 | a release succeeds exactly for a positive amount within the pending balance and moves it back to available, keeping the total |
| WalletModel.Freeze | BackendWorkSpace/backend/src/main/java/com/samjhadoo/model/Wallet.java:235-248 | a freeze succeeds exactly for a positive amount within the available balance and moves it to frozen, keeping the total |
| WalletModel.Unfreeze | BackendWorkSpace/backend/src/main/java/com/samjhadoo/model/Wallet.java:255-268 | an unfreeze succeeds exactly for a positive amount within the frozen balance and moves it back to available, keeping the total |
| WalletModel.ReleaseUndoesHold | BackendWorkSpace/backend/src/main/java/com/samjhadoo/model/Wallet.java:195-228 | releasing what was just held restores every pot exactly |
| WalletModel.UnfreezeUndoesFreeze | BackendWorkSpace/backend/src/main/java/com/samjhadoo/model/Wallet.java:235-268 | unfreezing what was just frozen restores every pot exactly |
| WalletModel.HealthScore | BackendWorkSpace/backend/src/main/java/com/samjhadoo/model/Wallet.java:350-375 | the health score lies in 30..100, is 100 exactly when nothing is frozen, the wallet is verified to level 2, KYC is done and it was used in the last six months, and any frozen funds cap it at 80 |
| WalletModel.Wallet.constructor | BackendWorkSpace/backend/src/main/java/com/samjhadoo/model/Wallet.java:93-136 | a new wallet is ACTIVE, holds nothing in any pot, is unverified at level 0 and has no KYC |
| WalletModel.Wallet.AddCredits | BackendWorkSpace/backend/src/main/java/com/samjhadoo/model/Wallet.java:149-160 | a non-positive amount is refused and changes nothing; otherwise balance, available and lifetime earnings grow by the amount and the other pots stay as they were |
| WalletModel.Wallet.DeductCredits | BackendWorkSpace/backend/src/main/java/com/samjhadoo/model/Wallet.java:167-188 | refused exactly for a non-positive amount or one above the available balance, changing nothing; otherwise balance and available shrink by it, total spent grows by it, and monthly spending grows only when a monthly limit is set |
| WalletModel.Wallet.HoldCredits | BackendWorkSpace/backend/src/main/java/com/samjhadoo/model/Wallet.java:195-208 | the wallet's pots after the call are those of Hold, and the balance and the wallet invariant are kept |
| WalletModel.Wallet.ReleaseCredits | BackendWorkSpace/backend/src/main/java/com/samjhadoo/model/Wallet.java:215-228 | the wallet's pots after the call are those of Release, and the balance and the invariant are kept |
| WalletModel.Wallet.FreezeCredits | BackendWorkSpace/backend/src/main/java/com/samjhadoo/model/Wallet.java:235-248 | the wallet's pots after the call are those of Freeze, and the balance and the invariant are kept |
| WalletModel.Wallet.UnfreezeCredits | BackendWorkSpace/backend/src/main/java/com/samjhadoo/model/Wallet.java:255-268 | the wallet's pots after the call are those of Unfreeze, and the balance and the invariant are kept |
| WalletModel.Wallet.ResetMonthlySpending | BackendWorkSpace/backend/src/main/java/com/samjhadoo/model/Wallet.java:295-297 | the monthly spending goes back to zero |
| WalletModel.Wallet.LockedBalance | BackendWorkSpace/backend/src/main/java/com/samjhadoo/model/Wallet.java:303-305 | the locked balance is what is not available, and is never negative |
| WalletModel.Wallet.EffectiveBalance | BackendWorkSpace/backend/src/main/java/com/samjhadoo/model/Wallet.java:311-313 | the effective balance excludes the frozen part and lies between 0 and the balance |
| WalletModel.Wallet.GetHealthScore | BackendWorkSpace/backend/src/main/java/com/samjhadoo/model/Wallet.java:350-375 | the wallet's health score lies in 30..100 and is below 100 whenever funds are frozen |
| WalletModel.Wallet.UpdateVerificationLevel | BackendWorkSpace/backend/src/main/java/com/samjhadoo/model/Wallet.java:392-401 | a level outside 0..3 is refused and changes nothing; otherwise the level is set and the wallet is verified exactly from level 2 |
| WalletModel.Wallet.UpdateKycStatus | BackendWorkSpace/backend/src/main/java/com/samjhadoo/model/Wallet.java:407-415 | the KYC flag is set; completing KYC below level 3 raises the level to 3 and verifies the wallet, otherwise level and verification stay |
| WalletModel.Wallet.Suspend | BackendWorkSpace/backend/src/main/java/com/samjhadoo/model/Wallet.java:421-424 | the wallet is SUSPENDED |
| WalletModel.Wallet.FreezeWallet | BackendWorkSpace/backend/src/main/java/com/samjhadoo/model/Wallet.java:430-433 | the wallet is FROZEN |
| WalletModel.Wallet.Reactivate | BackendWorkSpace/backend/src/main/java/com/samjhadoo/model/Wallet.java:438-442 | only a SUSPENDED or FROZEN wallet becomes ACTIVE; any other status stays |
| WalletModel.Wallet.Close | BackendWorkSpace/backend/src/main/java/com/samjhadoo/model/Wallet.java:447-449 | the wallet is CLOSED |
| WalletModel.Wallet.OnUpdate | BackendWorkSpace/backend/src/main/java/com/samjhadoo/model/Wallet.java:138-142 | every save stamps the last transaction time with the time of the save |
| WalletModel.SavedWalletNotInactive | BackendWorkSpace/backend/src/main/java/com/samjhadoo/model/Wallet.java:138-142 | a wallet stamped by a save takes no inactivity deduction until six months have passed |
| PointsAccountModel.PointsAccount.constructor | BackendWorkSpace/backend/src/main/java/com/samjhadoo/model/PointsAccount.java:94-104 | a new account has zero balance, zero lifetime totals and no recorded activity |
| PointsAccountModel.PointsAccount.AddPoints | BackendWorkSpace/backend/src/main/java/com/samjhadoo/model/PointsAccount.java:59-69 | fails exactly for a non-positive amount and then changes nothing; otherwise balance and lifetime earnings grow by the amount, lifetime spending stays, activity is stamped, and the non-negative-balance invariant is kept |
| PointsAccountModel.PointsAccount.SpendPoints | BackendWorkSpace/backend/src/main/java/com/samjhadoo/model/PointsAccount.java:77-91 | fails exactly for a non-positive amount or one above the balance and then changes nothing; otherwise balance shrinks and lifetime spending grows by the amount, so the balance never goes negative |
| PointsTransactionModel.ReversalOf | BackendWorkSpace/backend/src/main/java/com/samjhadoo/model/PointsTransaction.java:81-97 | the reversal belongs to the same account, user and reason, carries the opposite delta (the two cancel), is unsaved and unreversed, and is tagged with a `REVERSAL_OF_` reference and a `Reversal: ` description |
| PointsTransactionModel.ReversalOfReversal | BackendWorkSpace/backend/src/main/java/com/samjhadoo/model/PointsTransaction.java:81-97 | reversing a reversal gives back the original delta, account, user and reason |
| PointsTransactionModel.ReversalReferencesDiffer | BackendWorkSpace/backend/src/main/java/com/samjhadoo/model/PointsTransaction.java:88 | reversals of two stored transactions with different ids have different reference ids |
| PointsTransactionModel.PointsTransaction.constructor | BackendWorkSpace/backend/src/main/java/com/samjhadoo/model/PointsTransaction.java:23-74 | a transaction object holds exactly the given ledger entry |
| PointsTransactionModel.PointsTransaction.CreateReversal | BackendWorkSpace/backend/src/main/java/com/samjhadoo/model/PointsTransaction.java:81-103 | fails exactly when the transaction is already reversed, changing nothing; otherwise returns a new transaction equal to ReversalOf and marks this one reversed with the reason and time, so a second call fails |
| TransactionModel.CreditAndDebitAreDisjoint | BackendWorkSpace/backend/src/main/java/com/samjhadoo/model/Transaction.java:235-258 | no transaction type is classified both as a credit and as a debit |
| TransactionModel.CategoryOf | BackendWorkSpace/backend/src/main/java/com/samjhadoo/model/Transaction.java:424-432 | the category is CREDIT exactly for credit types, DEBIT exactly for debit types and TRANSFER exactly for the rest |
| TransactionModel.TransferOnlyForUnlisted | BackendWorkSpace/backend/src/main/java/com/samjhadoo/model/Transaction.java:235-258 | every type the two classifiers list is a credit or a debit, so TRANSFER is reached only by a type neither lists |
| TransactionModel.RiskScore | BackendWorkSpace/backend/src/main/java/com/samjhadoo/model/Transaction.java:345-372 | the risk score never exceeds 100, is non-negative, is at least 40 for a flagged transaction and at least 55 for a suspicious amount, and at most 35 when neither high value nor flagged |
| TransactionModel.ShouldBeReviewed | BackendWorkSpace/backend/src/main/java/com/samjhadoo/model/Transaction.java:378-380 | a transaction goes to review exactly when it is high value or flagged suspicious: the risk-score test adds no further case |
| TransactionModel.Transaction.constructor | BackendWorkSpace/backend/src/main/java/com/samjhadoo/model/Transaction.java:130-161 | a new transaction is PENDING in INR, its net amount is amount minus fee, with no retries, not flagged and not linked to another transaction |
| TransactionModel.Transaction.MarkCompleted | BackendWorkSpace/backend/src/main/java/com/samjhadoo/model/Transaction.java:179-182 | the transaction is COMPLETED with the completion time set |
| TransactionModel.Transaction.MarkFailed | BackendWorkSpace/backend/src/main/java/com/samjhadoo/model/Transaction.java:188-192 | the transaction is FAILED with the reason and failure time set |
| TransactionModel.Transaction.MarkCancelled | BackendWorkSpace/backend/src/main/java/com/samjhadoo/model/Transaction.java:197-199 | the transaction is CANCELLED |
| TransactionModel.Transaction.MarkDisputed | BackendWorkSpace/backend/src/main/java/com/samjhadoo/model/Transaction.java:204-206 | the transaction is DISPUTED |
| TransactionModel.Transaction.MarkOnHold | BackendWorkSpace/backend/src/main/java/com/samjhadoo/model/Transaction.java:211-213 | the transaction is ON_HOLD |
| TransactionModel.Transaction.IncrementRetry | BackendWorkSpace/backend/src/main/java/com/samjhadoo/model/Transaction.java:218-220 | the retry count grows by one |
| TransactionModel.Transaction.MarkSuspicious | BackendWorkSpace/backend/src/main/java/com/samjhadoo/model/Transaction.java:226-229 | the transaction is flagged suspicious with the reason recorded |
| TransactionModel.Transaction.EffectiveAmount | BackendWorkSpace/backend/src/main/java/com/samjhadoo/model/Transaction.java:328-330 | the effective amount is the stored net amount, or amount minus fee when none is stored |
| TransactionModel.Transaction.GetRiskScore | BackendWorkSpace/backend/src/main/java/com/samjhadoo/model/Transaction.java:345-372 | the transaction's risk score lies in 0..100 |
| TransactionModel.Transaction.CreateRefund | BackendWorkSpace/backend/src/main/java/com/samjhadoo/model/Transaction.java:387-401 | the refund is a new PENDING REFUND for the same wallet, user, amount and currency with no fee, whose effective amount is the refunded amount, linked back to this transaction by reference and relation |
| PayoutRequestModel.Next | BackendWorkSpace/backend/src/main/java/com/samjhadoo/model/PayoutRequest.java:222-287 | approval is accepted exactly from PENDING or UNDER_REVIEW, processing exactly from APPROVED, completion exactly from PROCESSING, failure from anything but COMPLETED, cancellation from anything but COMPLETED and PROCESSING; an accepted event leads to its own target status |
| PayoutRequestModel.CompletedIsTerminal | BackendWorkSpace/backend/src/main/java/com/samjhadoo/model/PayoutRequest.java:222-287 | no sequence of events moves a COMPLETED payout |
| PayoutRequestModel.CompletionPassesThroughProcessing | BackendWorkSpace/backend/src/main/java/com/samjhadoo/model/PayoutRequest.java:237-259 | any run that ends COMPLETED contains a completion event taken while the payout was PROCESSING |
| PayoutRequestModel.PriorityScore | BackendWorkSpace/backend/src/main/java/com/samjhadoo/model/PayoutRequest.java:358-380 | for a request not from the future the score is at least the base priority plus the urgency and high-amount bonuses, and never more than the base plus 60 plus the whole days of age |
| PayoutRequestModel.UrgencyAddsThirty | BackendWorkSpace/backend/src/main/java/com/samjhadoo/model/PayoutRequest.java:367-369 | urgency alone adds exactly 30 to the priority score |
| PayoutRequestModel.PayoutRequest.constructor | BackendWorkSpace/backend/src/main/java/com/samjhadoo/model/PayoutRequest.java:159-193 | a new request is PENDING in INR with net = amount − fee, a zero processing estimate defaulting to 3 days and a zero priority to 1, manual payout, not reviewed and not paid out |
| PayoutRequestModel.PayoutRequest.ApproveRequest | BackendWorkSpace/backend/src/main/java/com/samjhadoo/model/PayoutRequest.java:222-231 | accepted exactly when Next allows approval; then APPROVED with the reviewer and notes recorded, else nothing changes |
| PayoutRequestModel.PayoutRequest.MarkProcessingRequest | BackendWorkSpace/backend/src/main/java/com/samjhadoo/model/PayoutRequest.java:237-244 | accepted exactly when Next allows it; the status becomes PROCESSING, else stays |
| PayoutRequestModel.PayoutRequest.MarkCompletedRequest | BackendWorkSpace/backend/src/main/java/com/samjhadoo/model/PayoutRequest.java:251-259 | accepted exactly when Next allows it; then COMPLETED with the external payout id, else nothing changes |
| PayoutRequestModel.PayoutRequest.MarkFailedRequest | BackendWorkSpace/backend/src/main/java/com/samjhadoo/model/PayoutRequest.java:266-274 | accepted exactly when Next allows it; then FAILED with the reason, else nothing changes |
| PayoutRequestModel.PayoutRequest.CancelRequest | BackendWorkSpace/backend/src/main/java/com/samjhadoo/model/PayoutRequest.java:280-287 | accepted exactly when Next allows it; the status becomes CANCELLED, else stays |
| EscrowModel.Next | BackendWorkSpace/backend/src/main/java/com/samjhadoo/model/Escrow.java:172-223 | release, expiry and dispute are accepted exactly from ACTIVE and refund exactly from ACTIVE or DISPUTED, each leading to its own status |
| EscrowModel.SettledIsTerminal | BackendWorkSpace/backend/src/main/java/com/samjhadoo/model/Escrow.java:172-223 | a RELEASED, REFUNDED or EXPIRED escrow is not moved by any sequence of events |
| EscrowModel.RunConcat | BackendWorkSpace/backend/src/main/java/com/samjhadoo/model/Escrow.java:172-223 | running two event lists in turn equals running their concatenation |
| EscrowModel.ReleasedWasNeverSettledBefore | BackendWorkSpace/backend/src/main/java/com/samjhadoo/model/Escrow.java:172-209 | on every prefix of a run that ends RELEASED the escrow was ACTIVE or already RELEASED: held funds were never also refunded or expired |
| EscrowModel.DisputedRun | BackendWorkSpace/backend/src/main/java/com/samjhadoo/model/Escrow.java:172-223 | a disputed escrow ends disputed or refunded, never released |
| EscrowModel.ValueAtRisk | BackendWorkSpace/backend/src/main/java/com/samjhadoo/model/Escrow.java:262-264 | the value at risk is the whole amount while ACTIVE and zero otherwise |
| EscrowModel.PriorityScore | BackendWorkSpace/backend/src/main/java/com/samjhadoo/model/Escrow.java:287-309 | a disputed escrow scores at least 50 and one past its dispute deadline at least 100; without a creation time it scores at most 180 |
| EscrowModel.Escrow.constructor | BackendWorkSpace/backend/src/main/java/com/samjhadoo/model/Escrow.java:125-150 | a new escrow is ACTIVE in INR with missing amounts as zero, net = amount − fee, auto-release off whatever was requested, and a dispute deadline seven days out |
| EscrowModel.Escrow.ReleaseFunds | BackendWorkSpace/backend/src/main/java/com/samjhadoo/model/Escrow.java:172-180 | accepted exactly when Next allows release; then RELEASED with the resolver recorded, else nothing changes |
| EscrowModel.Escrow.RefundFunds | BackendWorkSpace/backend/src/main/java/com/samjhadoo/model/Escrow.java:188-197 | accepted exactly when Next allows refund; then REFUNDED with resolver and notes, else nothing changes |
| EscrowModel.Escrow.MarkExpired | BackendWorkSpace/backend/src/main/java/com/samjhadoo/model/Escrow.java:203-209 | accepted exactly when Next allows expiry; the status becomes EXPIRED, else stays |
| EscrowModel.Escrow.RaiseDispute | BackendWorkSpace/backend/src/main/java/com/samjhadoo/model/Escrow.java:216-223 | accepted exactly when Next allows a dispute; then DISPUTED with the reason, else nothing changes |
| EscrowModel.Escrow.OnUpdate | BackendWorkSpace/backend/src/main/java/com/samjhadoo/model/Escrow.java:153-165 | each settlement time is stamped the first time its status is saved and never overwritten |
| FriendlyTalkSessionModel.Next | temp_friendlytalk_disabled/FriendlyTalkSession.java:122-184 | accept is allowed exactly from REQUESTED, start exactly from ACCEPTED, complete exactly from ACTIVE, cancel exactly from REQUESTED or ACCEPTED and report from anything but REPORTED, each leading to its own status |
| FriendlyTalkSessionModel.ReportedIsTerminal | temp_friendlytalk_disabled/FriendlyTalkSession.java:122-184 | no sequence of events moves a REPORTED session |
| FriendlyTalkSessionModel.EndedOnlyMovesToReported | temp_friendlytalk_disabled/FriendlyTalkSession.java:122-184 | a completed or cancelled session either stays so or becomes REPORTED |
| FriendlyTalkSessionModel.FriendlyTalkSession.constructor | temp_friendlytalk_disabled/FriendlyTalkSession.java:101-111 | a new session between the two users is REQUESTED, not started or ended, with no duration and no report |
| FriendlyTalkSessionModel.FriendlyTalkSession.AcceptRequest | temp_friendlytalk_disabled/FriendlyTalkSession.java:122-128 | true exactly when Next allows accepting; the status becomes ACCEPTED, else stays |
| FriendlyTalkSessionModel.FriendlyTalkSession.StartSession | temp_friendlytalk_disabled/FriendlyTalkSession.java:134-141 | true exactly when Next allows starting; then ACTIVE with the start time, else nothing changes |
| FriendlyTalkSessionModel.FriendlyTalkSession.CompleteSession | temp_friendlytalk_disabled/FriendlyTalkSession.java:147-157 | true exactly when Next allows completing; then COMPLETED with the end time and, when a start time is known, the whole minutes elapsed (non-negative for a start in the past); else nothing changes |
| FriendlyTalkSessionModel.FriendlyTalkSession.CancelSession | temp_friendlytalk_disabled/FriendlyTalkSession.java:163-169 | true exactly when Next allows cancelling; the status becomes CANCELLED, else stays |
| FriendlyTalkSessionModel.FriendlyTalkSession.ReportSession | temp_friendlytalk_disabled/FriendlyTalkSession.java:176-184 | true exactly when Next allows reporting; then REPORTED with reason and time, else nothing changes |
| FriendlyTalkSessionModel.FriendlyTalkSession.DurationInMinutes | temp_friendlytalk_disabled/FriendlyTalkSession.java:198-203 | zero when start or end is missing; otherwise the whole number of minutes between them, rounded down |
| FriendlyTalkQueueModel.FriendlyTalkQueue.constructor | temp_friendlytalk_disabled/FriendlyTalkQueue.java:91-107 | a new entry is WAITING with no match and no retries, and expires after the requested wait, or after 30 minutes when none was given |
| FriendlyTalkQueueModel.FriendlyTalkQueue.OnUpdate | temp_friendlytalk_disabled/FriendlyTalkQueue.java:109-115 | on update a WAITING entry with a positive wait expires the wait after joining; any other entry keeps its expiry |
| FriendlyTalkQueueModel.FriendlyTalkQueue.Entry | temp_friendlytalk_disabled/FriendlyTalkQueue.java:24-89 | the value view of an entry carries its user, status, expiry and partner |
| FriendlyTalkQueueModel.FriendlyTalkQueue.MarkAsMatched | temp_friendlytalk_disabled/FriendlyTalkQueue.java:129-133 | the entry is MATCHED with the partner and time, whatever its status was, and is no longer active |
| FriendlyTalkQueueModel.FriendlyTalkQueue.MarkAsExpired | temp_friendlytalk_disabled/FriendlyTalkQueue.java:138-142 | only a WAITING entry becomes EXPIRED; any other status stays |
| FriendlyTalkQueueModel.FriendlyTalkQueue.Cancel | temp_friendlytalk_disabled/FriendlyTalkQueue.java:147-151 | only a WAITING or MATCHING entry becomes CANCELLED, so a MATCHED entry stays matched |
| FriendlyTalkQueueModel.FriendlyTalkQueue.IncrementRetry | temp_friendlytalk_disabled/FriendlyTalkQueue.java:156-159 | the retry count grows by one and the retry time is recorded |
| FriendlyTalkQueueModel.FriendlyTalkQueue.WaitingTimeMinutes | temp_friendlytalk_disabled/FriendlyTalkQueue.java:173-178 | for a join time in the past, the whole number of minutes waited, rounded down |
| FriendlyTalkRoomModel.NotFullHasRoom | temp_friendlytalk_disabled/FriendlyTalkRoom.java:122-124 | a valid room that is not full has room for one more participant within its capacity |
| FriendlyTalkRoomModel.FriendlyTalkRoom.constructor | temp_friendlytalk_disabled/FriendlyTalkRoom.java:97-110 | a new room is WAITING and empty, with a zero capacity defaulting to 6 |
| FriendlyTalkRoomModel.FriendlyTalkRoom.AddParticipant | temp_friendlytalk_disabled/FriendlyTalkRoom.java:139-155 | refused exactly when the room is full; otherwise the user is in the room, appended only if absent, the first arrival in a WAITING room makes it ACTIVE, and the count always matches the list |
| FriendlyTalkRoomModel.FriendlyTalkRoom.RemoveParticipant | temp_friendlytalk_disabled/FriendlyTalkRoom.java:162-176 | true exactly for a member, who is then gone from the list; the last one out of an ACTIVE room closes it with the end time and duration; otherwise status and times stay |
| FriendlyTalkRoomModel.FriendlyTalkRoom.CloseRoom | temp_friendlytalk_disabled/FriendlyTalkRoom.java:181-187 | the room is CLOSED with the end time, and with the duration when it was started |
| SafetyReportModel.SafetyReport.constructor | temp_friendlytalk_disabled/SafetyReport.java:117-130 | a new report is PENDING, MEDIUM severity when none was given, unresolved, not escalated and needing no follow-up |
| SafetyReportModel.SafetyReport.Entry | temp_friendlytalk_disabled/SafetyReport.java:21-115 | the value view of a report carries its reported user, status, severity and time |
| SafetyReportModel.SafetyReport.MarkUnderReview | temp_friendlytalk_disabled/SafetyReport.java:144-148 | only a PENDING report moves to UNDER_REVIEW; any other status stays |
| SafetyReportModel.SafetyReport.Resolve | temp_friendlytalk_disabled/SafetyReport.java:156-162 | the report is RESOLVED from any status with resolver, notes, action and time |
| SafetyReportModel.SafetyReport.Dismiss | temp_friendlytalk_disabled/SafetyReport.java:169-174 | the report is DISMISSED from any status with resolver, notes and time |
| SafetyReportModel.SafetyReport.Escalate | temp_friendlytalk_disabled/SafetyReport.java:180-183 | the report is ESCALATED to the given address from any status |
| SafetyReportModel.SafetyReport.AgeInHours | temp_friendlytalk_disabled/SafetyReport.java:197-202 | for a report time in the past, the whole number of hours since it, rounded down |
| LiveSessionModel.JoinableHasRoom | temp_friendlytalk_disabled/LiveSession.java:118-128 | a session that can be joined is LIVE and has room for one more user within its capacity |
| LiveSessionModel.LiveSession.constructor | temp_friendlytalk_disabled/LiveSession.java:40-64 | a new session is SCHEDULED with capacity 50 and nobody in it |
| LiveSessionModel.LiveSession.AddParticipant | temp_friendlytalk_disabled/LiveSession.java:130-134 | the participants become the old set plus the user, the count stays equal to the set size, a repeat join changes nothing, and no capacity check is made |
| LiveSessionModel.LiveSession.RemoveParticipant | temp_friendlytalk_disabled/LiveSession.java:136-140 | the participants become the old set minus the user and the count follows; removing a non-member changes nothing |
| ReferralModel.Referral.constructor | BackendWorkSpace/backend/src/main/java/com/samjhadoo/model/Referral.java:71-82 | a new referral is PENDING unless a status was given, has no referee, is unrewarded, and expires 30 days after creation unless an expiry was given |
| ReferralModel.Referral.CompleteReferral | BackendWorkSpace/backend/src/main/java/com/samjhadoo/model/Referral.java:108-116 | succeeds exactly for a PENDING referral, which becomes COMPLETED with the referee recorded; otherwise nothing changes |
| ReferralModel.Referral.OnUpdate | BackendWorkSpace/backend/src/main/java/com/samjhadoo/model/Referral.java:85-92 | the update time is stamped, and the completion time is set the first time the referral is saved COMPLETED and never overwritten |
| ReferralModel.CompleteTwice | BackendWorkSpace/backend/src/main/java/com/samjhadoo/model/Referral.java:108-116 | a referral completes at most once: a second completion is always refused and the first referee stays |
| VisualQueryModel.Next | BackendWorkSpace/backend/src/main/java/com/samjhadoo/model/VisualQuery.java:176-227 | submit is allowed exactly from DRAFT, mentor assignment exactly from SUBMITTED or UNDER_REVIEW, resolution exactly from IN_PROGRESS or RESPONDED, and closing from anything but RESOLVED, each leading to its own status |
| VisualQueryModel.OnlySubmitActivates | BackendWorkSpace/backend/src/main/java/com/samjhadoo/model/VisualQuery.java:176-251 | the only accepted event that makes an inactive query active is submitting a draft |
| VisualQueryModel.ActiveQueryEnds | BackendWorkSpace/backend/src/main/java/com/samjhadoo/model/VisualQuery.java:205-251 | an active query can always be closed, and closing or resolving it ends its activity |
| VisualQueryModel.ResolvedIsTerminal | BackendWorkSpace/backend/src/main/java/com/samjhadoo/model/VisualQuery.java:176-227 | no sequence of events moves a RESOLVED query, not even closing it |
| VisualQueryModel.ClosedStaysClosed | BackendWorkSpace/backend/src/main/java/com/samjhadoo/model/VisualQuery.java:176-227 | a CLOSED query stays closed whatever follows |
| VisualQueryModel.ResolutionFollowsAssignment | BackendWorkSpace/backend/src/main/java/com/samjhadoo/model/VisualQuery.java:190-214 | a query that never reached RESPONDED is resolved only by an event taken while it was IN_PROGRESS, that is after a mentor was assigned |
| VisualQueryModel.VisualQuery.constructor | BackendWorkSpace/backend/src/main/java/com/samjhadoo/model/VisualQuery.java:127-155 | a new query is DRAFT unless a status was given, an urgency of 0 becomes 3, and it is private with mentor bidding off whatever was asked, unassigned and with no views or votes |
| VisualQueryModel.VisualQuery.OnUpdate | BackendWorkSpace/backend/src/main/java/com/samjhadoo/model/VisualQuery.java:158-170 | the update time is stamped, and the first-response and resolution times are set when first reached and never overwritten |
| VisualQueryModel.VisualQuery.SubmitQuery | BackendWorkSpace/backend/src/main/java/com/samjhadoo/model/VisualQuery.java:176-183 | true exactly when Next allows submitting; then SUBMITTED with the submission time, else nothing changes |
| VisualQueryModel.VisualQuery.AssignMentorTo | BackendWorkSpace/backend/src/main/java/com/samjhadoo/model/VisualQuery.java:190-197 | true exactly when Next allows assignment; then IN_PROGRESS with the mentor recorded, else nothing changes |
| VisualQueryModel.VisualQuery.MarkResolvedWith | BackendWorkSpace/backend/src/main/java/com/samjhadoo/model/VisualQuery.java:205-214 | true exactly when Next allows resolution; then RESOLVED with the rating, feedback and time as given, else nothing changes |
| VisualQueryModel.VisualQuery.CloseQuery | BackendWorkSpace/backend/src/main/java/com/samjhadoo/model/VisualQuery.java:220-227 | true exactly when Next allows closing; then CLOSED with the close time, else nothing changes |
| VisualQueryModel.VisualQuery.IncrementViewCount | BackendWorkSpace/backend/src/main/java/com/samjhadoo/model/VisualQuery.java:232-234 | the view count grows by one |
| VisualQueryModel.VisualQuery.AddHelpfulVote | BackendWorkSpace/backend/src/main/java/com/samjhadoo/model/VisualQuery.java:239-241 | the helpful-vote count grows by one |
| VisualQueryModel.VisualQuery.ResponseTimeHours | BackendWorkSpace/backend/src/main/java/com/samjhadoo/model/VisualQuery.java:257-262 | for a submission in the past, the whole number of hours since it, rounded down |
| VisualQueryResponseModel.HighlyHelpfulIsHelpful | BackendWorkSpace/backend/src/main/java/com/samjhadoo/model/VisualQueryResponse.java:185-187 | a highly helpful response has strictly more helpful than unhelpful votes and at least three votes in all |
| VisualQueryResponseModel.ComplexityScore | BackendWorkSpace/backend/src/main/java/com/samjhadoo/model/VisualQueryResponse.java:201-223 | the complexity lies in 1..10, is at least 1 plus the capped media and annotation bonuses, and without content or guide is exactly that |
| VisualQueryResponseModel.ComplexityGrowsWithContent | BackendWorkSpace/backend/src/main/java/com/samjhadoo/model/VisualQueryResponse.java:201-223 | longer content, in UTF-16 units, never lowers the complexity score |
| VisualQueryResponseModel.ComplexityCapNeverBinds | BackendWorkSpace/backend/src/main/java/com/samjhadoo/model/VisualQueryResponse.java:201-223 | the largest sum of the bonuses is exactly 10, so the cap never takes effect |
| VisualQueryResponseModel.VisualQueryResponse.constructor | BackendWorkSpace/backend/src/main/java/com/samjhadoo/model/VisualQueryResponse.java:112-128 | a new response has no votes and is not marked helpful, so the helpful flag agrees with the votes |
| VisualQueryResponseModel.VisualQueryResponse.AddHelpfulVote | BackendWorkSpace/backend/src/main/java/com/samjhadoo/model/VisualQueryResponse.java:138-141 | helpful votes and total votes grow by one, and the response is marked helpful exactly when helpful votes outnumber unhelpful ones |
| VisualQueryResponseModel.VisualQueryResponse.AddNotHelpfulVote | BackendWorkSpace/backend/src/main/java/com/samjhadoo/model/VisualQueryResponse.java:146-149 | unhelpful votes and total votes grow by one, and the helpful flag still agrees with the votes |
| VisualQueryResponseModel.VisualQueryResponse.SetMentorRating | BackendWorkSpace/backend/src/main/java/com/samjhadoo/model/VisualQueryResponse.java:156-159 | the rating and feedback are stored as given, without a range check |
| ChatRoomModel.IndexOf | BackendWorkSpace/backend/src/main/java/com/samjhadoo/model/ChatRoom.java:237-243 | the position of the user's first membership, or -1 exactly when the user is not a member |
| ChatRoomModel.IndexOfIsFirst | BackendWorkSpace/backend/src/main/java/com/samjhadoo/model/ChatRoom.java:237-243 | the earliest position holding the user is the one found |
| ChatRoomModel.RoleOf | BackendWorkSpace/backend/src/main/java/com/samjhadoo/model/ChatRoom.java:237-243 | no role exactly for a non-member; otherwise the role of one of the user's memberships |
| ChatRoomModel.CanSendMessages | BackendWorkSpace/backend/src/main/java/com/samjhadoo/model/ChatRoom.java:250-257 | true exactly for a member whose role is neither MUTED nor BANNED, so never for a non-member |
| ChatRoomModel.HasModerationRights | BackendWorkSpace/backend/src/main/java/com/samjhadoo/model/ChatRoom.java:264-273 | true exactly for a member who is OWNER, ADMIN or MODERATOR, so never for a non-member |
| ChatRoomModel.ModeratorsCanSend | BackendWorkSpace/backend/src/main/java/com/samjhadoo/model/ChatRoom.java:250-273 | a member with moderation rights can always send messages |
| ChatRoomModel.ActivityOf | BackendWorkSpace/backend/src/main/java/com/samjhadoo/model/ChatRoom.java:318-332 | INACTIVE exactly without a last message, HIGH for a message within the last hour, LOW after a day or more |
| ChatRoomModel.HealthScore | BackendWorkSpace/backend/src/main/java/com/samjhadoo/model/ChatRoom.java:444-471 | the health score lies in 40..100, is at most 75 for a LOW-activity room, and is 100 for a HIGH-activity room with ten or more participants |
| ChatRoomModel.ChatRoom.constructor | BackendWorkSpace/backend/src/main/java/com/samjhadoo/model/ChatRoom.java:109-146 | a new room is empty with the active and archived flags the builder gave; encryption and approval are off whatever was asked, a capacity of 0 becomes 2 for a direct chat and 50 otherwise, and messages are kept 90 days unless a retention was given |
| ChatRoomModel.ChatRoom.AddParticipant | BackendWorkSpace/backend/src/main/java/com/samjhadoo/model/ChatRoom.java:160-180 | refused exactly when the room is full or the user is already a member, changing nothing; otherwise the membership is appended, the user holds the given role, and members stay distinct with the count equal to the list |
| ChatRoomModel.ChatRoom.RemoveParticipant | BackendWorkSpace/backend/src/main/java/com/samjhadoo/model/ChatRoom.java:187-201 | true exactly for a member, whose one membership is cut out of the list, leaving the others in order; otherwise nothing changes |
| ChatRoomModel.ChatRoom.UpdateParticipantRole | BackendWorkSpace/backend/src/main/java/com/samjhadoo/model/ChatRoom.java:209-221 | true exactly for a member, who then holds the new role while every other membership is unchanged; otherwise nothing changes |
| ChatRoomModel.ChatRoom.Archive | BackendWorkSpace/backend/src/main/java/com/samjhadoo/model/ChatRoom.java:278-281 | the room is archived and not currently active |
| ChatRoomModel.ChatRoom.Unarchive | BackendWorkSpace/backend/src/main/java/com/samjhadoo/model/ChatRoom.java:286-289 | the room is active and unarchived again, so archive then unarchive restores an active room |
| ChatRoomModel.ChatRoom.UpdateLastMessageTime | BackendWorkSpace/backend/src/main/java/com/samjhadoo/model/ChatRoom.java:294-296 | the last message time becomes now |
| ChatRoomModel.ChatRoom.GetHealthScore | BackendWorkSpace/backend/src/main/java/com/samjhadoo/model/ChatRoom.java:444-471 | the room's health score lies in 40..100 |
| ChatParticipantModel.CanModerateImpliesAdminRights | BackendWorkSpace/backend/src/main/java/com/samjhadoo/model/ChatParticipant.java:247-260 | a role that can moderate has admin rights, and MODERATOR is the only admin role that cannot moderate |
| ChatParticipantModel.ShouldAutoRemove | BackendWorkSpace/backend/src/main/java/com/samjhadoo/model/ChatParticipant.java:320-333 | never for an OWNER or other admin role; otherwise exactly when the last-seen time is known and more than 90 days old |
| ChatParticipantModel.EngagementScore | BackendWorkSpace/backend/src/main/java/com/samjhadoo/model/ChatParticipant.java:290-314 | the score is at most 100, non-negative for non-negative counts, at most 80 when no more were read than sent, and without messages sent only the online, recent-message and pinned bonuses count |
| ChatParticipantModel.ReadRatePoints | BackendWorkSpace/backend/src/main/java/com/samjhadoo/model/ChatParticipant.java:302-305 | the read-rate term lies in 0..20 when no more messages were read than sent |
| ChatParticipantModel.ChatParticipant.constructor | BackendWorkSpace/backend/src/main/java/com/samjhadoo/model/ChatParticipant.java:83-111 | a new participant is offline, not typing, not pinned, not muted, with no message counts, and keeps the notification flag it was built with |
| ChatParticipantModel.ChatParticipant.UpdateLastSeen | BackendWorkSpace/backend/src/main/java/com/samjhadoo/model/ChatParticipant.java:121-124 | the participant was seen now and is online |
| ChatParticipantModel.ChatParticipant.UpdateLastMessage | BackendWorkSpace/backend/src/main/java/com/samjhadoo/model/ChatParticipant.java:129-131 | the last message time becomes now |
| ChatParticipantModel.ChatParticipant.MarkOffline | BackendWorkSpace/backend/src/main/java/com/samjhadoo/model/ChatParticipant.java:136-139 | the participant is neither online nor typing |
| ChatParticipantModel.ChatParticipant.SetTypingStatus | BackendWorkSpace/backend/src/main/java/com/samjhadoo/model/ChatParticipant.java:145-150 | typing is as given, and starting to type also puts the participant online; stopping leaves online as it was |
| ChatParticipantModel.ChatParticipant.IncrementMessagesSent | BackendWorkSpace/backend/src/main/java/com/samjhadoo/model/ChatParticipant.java:155-157 | the sent count grows by one |
| ChatParticipantModel.ChatParticipant.UpdateMessagesRead | BackendWorkSpace/backend/src/main/java/com/samjhadoo/model/ChatParticipant.java:163-166 | the read count grows by one and the last read message is the given one |
| ChatParticipantModel.ChatParticipant.MuteUntil | BackendWorkSpace/backend/src/main/java/com/samjhadoo/model/ChatParticipant.java:172-175 | the mute time is set and notifications are off |
| ChatParticipantModel.ChatParticipant.Unmute | BackendWorkSpace/backend/src/main/java/com/samjhadoo/model/ChatParticipant.java:180-183 | the mute time is cleared and notifications are on |
| ChatParticipantModel.ChatParticipant.UnreadMessageCount | BackendWorkSpace/backend/src/main/java/com/samjhadoo/model/ChatParticipant.java:205-207 | unread plus read equals sent, with no clamping at zero |
| ChatParticipantModel.MuteThenUnmute | BackendWorkSpace/backend/src/main/java/com/samjhadoo/model/ChatParticipant.java:172-199 | a muted participant receives no notifications, and after unmuting receives them exactly when online |
| ChatMessageModel.AgeInMinutes | BackendWorkSpace/backend/src/main/java/com/samjhadoo/model/ChatMessage.java:284-289 | zero without a creation time; otherwise, for a time in the past, the whole number of minutes since it, rounded down |
| ChatMessageModel.ContentPreview | BackendWorkSpace/backend/src/main/java/com/samjhadoo/model/ChatMessage.java:359-369 | the preview is at most 100 UTF-16 units: empty without content, the content itself up to 100 units, else the longest prefix of at most 97 units followed by "..." |
| ChatMessageModel.PreviewOfBmpText | BackendWorkSpace/backend/src/main/java/com/samjhadoo/model/ChatMessage.java:359-369 | for long text without characters outside the Basic Multilingual Plane the preview is exactly its first 97 characters and "..." |
| ChatMessageModel.PriorityScore | BackendWorkSpace/backend/src/main/java/com/samjhadoo/model/ChatMessage.java:307-331 | the priority lies in 1..27, at least 11 for a system message and at most 17 for any other |
| ChatMessageModel.EngagementScore | BackendWorkSpace/backend/src/main/java/com/samjhadoo/model/ChatMessage.java:386-408 | the score lies in 0..80 for a non-negative read count, so the cap of 100 never binds, and reaches 50 from 25 reads |
| ChatMessageModel.ShouldTriggerNotification | BackendWorkSpace/backend/src/main/java/com/samjhadoo/model/ChatMessage.java:414-431 | true exactly for a message that is neither a system message nor edited and is at most 60 minutes old |
| ChatMessageModel.ContainsSensitiveContent | BackendWorkSpace/backend/src/main/java/com/samjhadoo/model/ChatMessage.java:337-353 | false without content; otherwise true exactly when the lower-cased content contains one of the listed words |
| ChatMessageModel.AnyContained | BackendWorkSpace/backend/src/main/java/com/samjhadoo/model/ChatMessage.java:344-352 | the word loop finds a match exactly when some listed word occurs in the text |
| AdPlacementModel.Matches | BackendWorkSpace/backend/src/main/java/com/samjhadoo/model/AdPlacement.java:281-340 | a premium user fails when premium users are excluded, an age below the minimum or above the maximum fails, an unknown age fails when an age range is set, and a placement with no targeting matches everyone |
| AdPlacementModel.FindLocationMatch | BackendWorkSpace/backend/src/main/java/com/samjhadoo/model/AdPlacement.java:303-311 | the location loop finds a match exactly when some target location occurs in the viewer's location |
| AdPlacementModel.FindInterestMatch | BackendWorkSpace/backend/src/main/java/com/samjhadoo/model/AdPlacement.java:318-326 | the interest loop finds a match exactly when some target interest is among the viewer's interests |
| AdPlacementModel.MatchesTargeting | BackendWorkSpace/backend/src/main/java/com/samjhadoo/model/AdPlacement.java:281-340 | the check with its early returns gives the same answer as the conjunction of the targeting conditions |
| AdPlacementModel.AdPlacement.constructor | BackendWorkSpace/backend/src/main/java/com/samjhadoo/model/AdPlacement.java:138-169 | a new placement counts nothing yet; an impression or click limit of 0 becomes -1 (unlimited), a frequency cap of 0 becomes 5, a priority of 0 becomes 1, premium exclusion and consent are switched off, and the active flag is the one the builder gave |
| AdPlacementModel.AdPlacement.RecordImpression | BackendWorkSpace/backend/src/main/java/com/samjhadoo/model/AdPlacement.java:207-214 | refused exactly when the impression limit is reached; the count grows by one exactly when accepted, so a positive limit is never exceeded |
| AdPlacementModel.AdPlacement.RecordClick | BackendWorkSpace/backend/src/main/java/com/samjhadoo/model/AdPlacement.java:220-227 | refused exactly when the click limit is reached; the count grows by one exactly when accepted |
| AdPlacementModel.UnlimitedNeverReached | BackendWorkSpace/backend/src/main/java/com/samjhadoo/model/AdPlacement.java:191-201 | a limit of 0 or less is never reached, whatever the count |
| AdPlacementModel.LimitedCountStopsAtMax | BackendWorkSpace/backend/src/main/java/com/samjhadoo/model/AdPlacement.java:207-214 | after n attempts from zero under a positive limit the count is the smaller of n and the limit |
| AdCampaignModel.ShouldStopDueToBudget | BackendWorkSpace/backend/src/main/java/com/samjhadoo/model/AdCampaign.java:338-361 | true whenever the budget is reached, never without a budget, and otherwise exactly when at least 94.995 percent of a positive budget is spent (the percentage is rounded half-up to four decimals before the comparison with 95) |
| AdCampaignModel.AdCampaign.constructor | BackendWorkSpace/backend/src/main/java/com/samjhadoo/model/AdCampaign.java:169-197 | a new campaign has delivered nothing, has spent nothing unless an amount was given, and has premium exclusion, consent and reward flags off |
| AdCampaignModel.AdCampaign.RecordImpression | BackendWorkSpace/backend/src/main/java/com/samjhadoo/model/AdCampaign.java:243-250 | accepted exactly when neither the budget nor the impression target is reached; the count grows by one exactly when accepted |
| AdCampaignModel.AdCampaign.RecordClick | BackendWorkSpace/backend/src/main/java/com/samjhadoo/model/AdCampaign.java:256-263 | accepted exactly when neither the budget nor the click target is reached; the count grows by one exactly when accepted |
| AdCampaignModel.AdCampaign.RecordAction | BackendWorkSpace/backend/src/main/java/com/samjhadoo/model/AdCampaign.java:269-272 | always accepted, and the action count grows by one |
| AdCampaignModel.AdCampaign.UpdateSpentBudget | BackendWorkSpace/backend/src/main/java/com/samjhadoo/model/AdCampaign.java:278-280 | the spent budget grows by exactly the amount, with no check against the total |
| AdCampaignModel.SpendingKeepsBudgetReached | BackendWorkSpace/backend/src/main/java/com/samjhadoo/model/AdCampaign.java:219-221 | once the budget is reached, further non-negative spending keeps it reached and the campaign must stop |
| QueueServiceModel.BaseWaitTime | BackendWorkSpace/temp_disabled_friendlytalk/QueueServiceImpl.java:219-231 | the base wait is 5, 10 or 15 minutes |
| QueueServiceModel.EstimatedWaitTime | BackendWorkSpace/temp_disabled_friendlytalk/QueueServiceImpl.java:219-231 | for intensities 0..9 the estimate is the mood's base minus 5 plus half the intensity, rounded down; from intensity 10 on it is the full base; it never exceeds the base and is at most 5 minutes below it |
| QueueServiceModel.SearchSharedTopic | BackendWorkSpace/temp_disabled_friendlytalk/QueueServiceImpl.java:246-256 | the nested topic search reports a match exactly when some topic of one list matches some topic of the other |
| QueueServiceModel.HasMatchFromIff | BackendWorkSpace/temp_disabled_friendlytalk/QueueServiceImpl.java:250-254 | the inner topic search from a position finds a match exactly when some later topic of the other list matches |
| QueueServiceModel.AnyTopicSharedFromIff | BackendWorkSpace/temp_disabled_friendlytalk/QueueServiceImpl.java:249-256 | the outer topic search from a position succeeds exactly when some later topic of the first list has a match |
| QueueServiceModel.SharedTopicIsSymmetric | BackendWorkSpace/temp_disabled_friendlytalk/QueueServiceImpl.java:246-256 | when some topic of the first list matches one of the second, some topic of the second matches one of the first |
| QueueServiceModel.MatchedTopicCount | BackendWorkSpace/temp_disabled_friendlytalk/QueueServiceImpl.java:355-364 | the number of topics of the first list with a match is at most the list's length |
| QueueServiceModel.SharedTopicIsCounted | BackendWorkSpace/temp_disabled_friendlytalk/QueueServiceImpl.java:355-364 | a topic of the first list with a match is counted, so the count is at least one |
| QueueServiceModel.TopicMatchIsSymmetric | BackendWorkSpace/temp_disabled_friendlytalk/QueueServiceImpl.java:251 | two topics match regardless of their order |
| QueueServiceModel.CompatibleIsSymmetric | BackendWorkSpace/temp_disabled_friendlytalk/QueueServiceImpl.java:234-259 | compatibility of two queue entries does not depend on which comes first |
| QueueServiceModel.IntensityPoints | BackendWorkSpace/temp_disabled_friendlytalk/QueueServiceImpl.java:350-351 | the intensity points lie in 0..30, are 30 exactly for equal intensities, at least 20 for a gap of at most 2, and 0 from a gap of 6 |
| QueueServiceModel.MatchingScore | BackendWorkSpace/temp_disabled_friendlytalk/QueueServiceImpl.java:341-368 | the matching score is never negative |
| QueueServiceModel.CompatibleScoresAtLeastTwenty | BackendWorkSpace/temp_disabled_friendlytalk/QueueServiceImpl.java:234-259 | every compatible pair scores at least 20, so the best-match search never drops a compatible entry for a zero score |
| QueueServiceModel.AreCompatibleForMatching | BackendWorkSpace/temp_disabled_friendlytalk/QueueServiceImpl.java:234-259 | the loop-based check answers exactly the compatibility predicate: same mood, an intensity gap of at most 2, or a shared topic |
| QueueServiceModel.FindTopicMatch | BackendWorkSpace/temp_disabled_friendlytalk/QueueServiceImpl.java:250-254 | the inner loop finds a match exactly when the topic matches some topic of the other list |
| QueueServiceModel.AddTopicPoints | BackendWorkSpace/temp_disabled_friendlytalk/QueueServiceImpl.java:355-364 | the outer loop adds exactly 20 points per topic of the first list that has a match |
| QueueServiceModel.CalculateMatchingScore | BackendWorkSpace/temp_disabled_friendlytalk/QueueServiceImpl.java:341-368 | the loop-based score equals the reference matching score |
| QueueServiceModel.SessionFromQueues | BackendWorkSpace/temp_disabled_friendlytalk/QueueServiceImpl.java:312-339 | the session request goes from the first entry's user to the second's and is anonymous exactly when either entry is |
| QueueServiceModel.MatchedEntry | temp_friendlytalk_disabled/FriendlyTalkQueue.java:129-133 | a matched entry is MATCHED with the partner at the current time and no longer active; user, mood, intensity, anonymity, topics and expiry are kept |
| QueueServiceModel.SaveMatch | BackendWorkSpace/temp_disabled_friendlytalk/QueueServiceImpl.java:330-333 | after the two saves both users are in the repository, each entry matched with the other user, and every other user's entry is unchanged |
| QueueServiceModel.Others | BackendWorkSpace/temp_disabled_friendlytalk/QueueServiceImpl.java:104-108 | the candidates are exactly the active entries of other users |
| QueueServiceModel.BestCompatible | BackendWorkSpace/temp_disabled_friendlytalk/QueueServiceImpl.java:111-122 | the best-match loop keeps a compatible candidate scoring strictly above every earlier compatible one and at least every other, or none when no candidate is compatible |
| QueueServiceModel.FindMatch | BackendWorkSpace/temp_disabled_friendlytalk/QueueServiceImpl.java:96-130 | no match without an active entry of the user; a match is an active entry of another user that is the first best-scoring compatible candidate; no match only when no other active entry is compatible; the session goes from the user to the match, and the repository then holds both entries matched with each other, or is unchanged when there is no match |
| QueueServiceModel.Unmatched | BackendWorkSpace/temp_disabled_friendlytalk/QueueServiceImpl.java:136-140 | the batch works on exactly the active entries not yet matched, in queue order |
| QueueServiceModel.PairedSessionsAreNeighbourPairs | BackendWorkSpace/temp_disabled_friendlytalk/QueueServiceImpl.java:142-150 | every session of the batch pass pairs a compatible couple at positions 2k and 2k+1, and there are at most half as many sessions as entries |
| QueueServiceModel.PairsAreNeighbourPairs | BackendWorkSpace/temp_disabled_friendlytalk/QueueServiceImpl.java:142-150 | the first n pairing steps create at most n sessions, each from a compatible couple at positions 2k and 2k+1 with k below n |
| QueueServiceModel.PairNeighbours | BackendWorkSpace/temp_disabled_friendlytalk/QueueServiceImpl.java:142-150 | the stride-two loop creates exactly the sessions of the neighbour pairing and counts them |
| QueueServiceModel.ProcessQueueMatching | BackendWorkSpace/temp_disabled_friendlytalk/QueueServiceImpl.java:133-153 | the sessions created are those of the neighbour pairing of the unmatched entries, their number is returned and is at most half of them, and the repository ends as the store with every compatible neighbour pair saved matched |
| QueueServiceModel.PairMarkedUpTo | BackendWorkSpace/temp_disabled_friendlytalk/QueueServiceImpl.java:142-150 | after the first n pairing steps, both entries of each compatible pair among them are saved matched with each other |
| QueueServiceModel.PairedUsersAreThePairs | BackendWorkSpace/temp_disabled_friendlytalk/QueueServiceImpl.java:142-150 | a user is among those the first n steps pair exactly when some compatible pair among them holds that user |
| QueueServiceModel.UnpairedUnchangedUpTo | BackendWorkSpace/temp_disabled_friendlytalk/QueueServiceImpl.java:142-150 | a user in no compatible pair of the first n steps keeps the stored entry |
| QueueServiceModel.PairedEntriesSavedMatched | BackendWorkSpace/temp_disabled_friendlytalk/QueueServiceImpl.java:133-153 | after the batch pass both entries of every compatible neighbour pair are saved matched with each other, and every other user's entry is as it was |
| QueueServiceModel.SecondPassSkipsPaired | BackendWorkSpace/temp_disabled_friendlytalk/QueueServiceImpl.java:136-140 | a later batch pass over the saved entries leaves out every user the first pass matched |
| MoodServiceModel.ValidateIntensity | BackendWorkSpace/temp_disabled_friendlytalk/MoodServiceImpl.java:31-33 | accepted exactly for an intensity in 1..10; otherwise refused with the source's message |
| MoodServiceModel.IntensityPoints | BackendWorkSpace/temp_disabled_friendlytalk/MoodServiceImpl.java:180-181 | the intensity points lie in 0..30, are 30 exactly for equal intensities, 30 minus 3 per point of difference below a gap of 10, and 0 from there on |
| MoodServiceModel.MoodCompatibility | BackendWorkSpace/temp_disabled_friendlytalk/MoodServiceImpl.java:171-189 | the compatibility lies in 0..100, is at most 50 for different moods and at least 50 for the same mood |
| MoodServiceModel.MoodCompatibilityIsSymmetric | BackendWorkSpace/temp_disabled_friendlytalk/MoodServiceImpl.java:171-189 | the score is the same whichever mood comes first |
| MoodServiceModel.CompatibleIffSameType | BackendWorkSpace/temp_disabled_friendlytalk/MoodServiceImpl.java:157-189 | two moods are compatible (score at least 70) exactly when they are of the same type |
| SafetyServiceModel.MarkReportUnderReview | BackendWorkSpace/temp_disabled_friendlytalk/SafetyServiceImpl.java:88-100 | true exactly for an existing PENDING report, which moves to UNDER_REVIEW with every other field kept; any other report is unchanged |
| SafetyServiceModel.ResolveReport | BackendWorkSpace/temp_disabled_friendlytalk/SafetyServiceImpl.java:103-120 | true exactly for an existing report UNDER_REVIEW, which becomes RESOLVED with resolver, notes, action and the resolution time now, every other field kept; any other report is unchanged |
| SafetyServiceModel.DismissReport | BackendWorkSpace/temp_disabled_friendlytalk/SafetyServiceImpl.java:123-135 | true exactly for an existing report UNDER_REVIEW, which becomes DISMISSED with resolver, notes and the resolution time now, every other field kept; any other report is unchanged |
| SafetyServiceModel.EscalateReport | BackendWorkSpace/temp_disabled_friendlytalk/SafetyServiceImpl.java:138-150 | true exactly for an existing report, which becomes ESCALATED to the given address with every other field kept |
| SafetyServiceModel.BasePenalty | BackendWorkSpace/temp_disabled_friendlytalk/SafetyServiceImpl.java:275-280 | a LOW report costs 5, MEDIUM 15, HIGH 30 and CRITICAL 50 |
| SafetyServiceModel.Penalty | BackendWorkSpace/temp_disabled_friendlytalk/SafetyServiceImpl.java:275-286 | an old report costs the base penalty of its severity; a recent one costs 1.5 times it, truncated (twice the penalty is within one below three times the base), i.e. 7, 22, 45 or 75; every report costs at least 5 |
| SafetyServiceModel.ResolvedAbout | BackendWorkSpace/temp_disabled_friendlytalk/SafetyServiceImpl.java:262-264 | only resolved reports about the user are kept, never more than there were |
| SafetyServiceModel.TotalPenalty | BackendWorkSpace/temp_disabled_friendlytalk/SafetyServiceImpl.java:274-289 | the total penalty is at least 5 per report |
| SafetyServiceModel.SafetyScore | BackendWorkSpace/temp_disabled_friendlytalk/SafetyServiceImpl.java:260-292 | the safety score lies in 0..100, is 100 exactly when no resolved report concerns the user, and otherwise is at most 95 |
| SafetyServiceModel.GetUserSafetyScore | BackendWorkSpace/temp_disabled_friendlytalk/SafetyServiceImpl.java:260-292 | the loop that subtracts one penalty per resolved report ends with the reference safety score |
| SafetyServiceModel.PenaltyOfOneIsCounted | BackendWorkSpace/temp_disabled_friendlytalk/SafetyServiceImpl.java:274-289 | the total penalty is at least the penalty of any single report in it |
| SafetyServiceModel.ResolvedAboutIncludes | BackendWorkSpace/temp_disabled_friendlytalk/SafetyServiceImpl.java:262-264 | every resolved report about the user is kept |
| SafetyServiceModel.AnotherReportNeverRaisesScore | BackendWorkSpace/temp_disabled_friendlytalk/SafetyServiceImpl.java:260-292 | adding a further report never raises the user's score |
| SafetyServiceModel.RecentViolationLowersScore | BackendWorkSpace/temp_disabled_friendlytalk/SafetyServiceImpl.java:248-292 | a user with a recent resolved violation scores at most 93 |
| PricingEngineModel.NearestTen | BackendWorkSpace/disabled-modules/pricing/PricingEngineServiceImpl.java:234 | the result is a multiple of ten and, for a non-negative amount, lies from 4 below to 5 above it |
| PricingEngineModel.CharmPrice | BackendWorkSpace/disabled-modules/pricing/PricingEngineServiceImpl.java:231-236 | the charm price is a whole number of units that is one less than a multiple of ten |
| PricingEngineModel.CharmPriceEndsInNine | BackendWorkSpace/disabled-modules/pricing/PricingEngineServiceImpl.java:231-236 | once the rounded amount is at least 5, the charm price ends in 9, is non-negative and lies from 5 below to 4 above the rounded amount |
| PricingEngineModel.CharmPriceOfSmallAmount | BackendWorkSpace/disabled-modules/pricing/PricingEngineServiceImpl.java:231-236 | a rounded amount of 0 to 4 gives a charm price of -1.00 |
| PricingEngineModel.PercentOf | BackendWorkSpace/disabled-modules/pricing/PricingEngineServiceImpl.java:238-243 | for a non-negative amount and a percentage in 0..100 the commission lies between 0 and the amount, and on whole units it is exact |
| PricingEngineModel.PercentProduct | BackendWorkSpace/disabled-modules/pricing/PricingEngineServiceImpl.java:238-243 | the unrounded product of the percentage and the amount lies between 0 and 100 times the amount, and on whole units it is exact |
| PricingEngineModel.ShareOf | BackendWorkSpace/disabled-modules/pricing/PricingEngineServiceImpl.java:238-243 | for a non-negative amount and a share of 0 to 10000 hundredths of a percent the result lies between 0 and the amount, and a share in whole percent agrees with the percentage |
| PricingEngineModel.ShareProduct | BackendWorkSpace/disabled-modules/pricing/PricingEngineServiceImpl.java:238-243 | the unrounded product lies between 0 and 10000 times the amount, and in whole percent rounding by ten-thousandths agrees with rounding by hundredths |
| PricingEngineModel.HalfUpDivHundredfold | BackendWorkSpace/disabled-modules/pricing/PricingEngineServiceImpl.java:240-242 | HALF_UP rounding is unchanged when both the amount and the divisor are multiplied by 100 |
| PricingEngineModel.HalfUpUnique | BackendWorkSpace/disabled-modules/pricing/PricingEngineServiceImpl.java:240-242 | the HALF_UP quotient is the only integer within half a divisor of the exact quotient |
| PricingEngineModel.Commission | BackendWorkSpace/disabled-modules/pricing/PricingEngineServiceImpl.java:238-243 | with no policy the commission is 15 percent; a policy share in whole percent gives that percentage; for a share of 0 to 100 percent the commission lies between 0 and the subtotal |
| PricingEngineModel.CreditsApplied | BackendWorkSpace/disabled-modules/pricing/PricingEngineServiceImpl.java:122-126 | the credits applied are never negative, and are the requested amount exactly when it is present and positive |
| PricingEngineModel.FinalPrice | BackendWorkSpace/disabled-modules/pricing/PricingEngineServiceImpl.java:129-132 | the final price is never negative: it is subtotal plus tax plus AI fee minus credits, or 0 when that would be negative |
| PricingEngineModel.Price | BackendWorkSpace/disabled-modules/pricing/PricingEngineServiceImpl.java:102-148 | the saved breakdown has the charm-priced subtotal, mentor payout plus commission equal to the subtotal, the AI fee only when agentic AI is used, 18 percent GST on the subtotal, exactly 15 percent commission without a policy or the policy's whole percentage, the credits as CreditsApplied takes them, the final price max(0, subtotal + tax + fee - credits) and is not locked |
| PricingEngineModel.PayoutWithinSubtotal | BackendWorkSpace/disabled-modules/pricing/PricingEngineServiceImpl.java:135-137 | with a commission of 0 to 100 percent and a subtotal of at least 5 units the mentor payout lies between 0 and the subtotal |
| PricingEngineModel.CreditsNeverRaisePrice | BackendWorkSpace/disabled-modules/pricing/PricingEngineServiceImpl.java:121-132 | applying credits never raises the final price |
| PricingEngineModel.ConfirmPrice | BackendWorkSpace/disabled-modules/pricing/PricingEngineServiceImpl.java:152-174 | an unknown token fails with "Price breakdown not found", a locked breakdown fails with "Price already confirmed and locked", and success locks exactly that breakdown |
| PricingEngineModel.ConfirmTwiceFails | BackendWorkSpace/disabled-modules/pricing/PricingEngineServiceImpl.java:152-174 | confirming the same token again fails as already locked, and confirmation adds or removes no breakdown |
| SessionServiceModel.Next | BackendWorkSpace/backend/src/main/java/com/samjhadoo/service/SessionService.java:50-114 | cancel and start are allowed exactly from SCHEDULED and end exactly from IN_PROGRESS, each leading to its own status |
| SessionServiceModel.EndedIsTerminal | BackendWorkSpace/backend/src/main/java/com/samjhadoo/service/SessionService.java:50-114 | no sequence of events moves a COMPLETED or CANCELLED session |
| SessionServiceModel.CompletedOnlyAfterStart | BackendWorkSpace/backend/src/main/java/com/samjhadoo/service/SessionService.java:91-114 | a scheduled session that ends up COMPLETED was started, while scheduled, at some point of the run |
| SessionServiceModel.ValidateSessionTimeAsWritten | BackendWorkSpace/backend/src/main/java/com/samjhadoo/service/SessionService.java:116-136 | as written, the check accepts exactly present times, the end not before the start, the start not in the past, and a duration of at least 15 minutes and under five hours |
| SessionServiceModel.AsWrittenAcceptsOverFourHours | BackendWorkSpace/backend/src/main/java/com/samjhadoo/service/SessionService.java:133-135 | a session of four and a half hours passes the as-written check and fails the corrected one |
| SessionServiceModel.ValidateSessionTime | BackendWorkSpace/backend/src/main/java/com/samjhadoo/service/SessionService.java:116-136 | corrected: accepts exactly present times, a start not in the past and a duration from 15 minutes to 4 hours inclusive; each earlier failure carries the source's message |
| SessionServiceModel.CorrectedCheckIsStricter | BackendWorkSpace/backend/src/main/java/com/samjhadoo/service/SessionService.java:128-135 | the corrected check accepts exactly what the as-written one accepts, less the durations over four hours |
| SessionServiceModel.CancelledNotes | BackendWorkSpace/backend/src/main/java/com/samjhadoo/service/SessionService.java:56-57 | the new notes end with "Cancelled. Reason: " and the reason, start with the old notes and a newline when there were notes, and are only the reason line otherwise |
| SessionServiceModel.SessionService.constructor | BackendWorkSpace/backend/src/main/java/com/samjhadoo/service/SessionService.java:20 | the service starts with no sessions |
| SessionServiceModel.SessionService.GetSessionById | BackendWorkSpace/backend/src/main/java/com/samjhadoo/service/SessionService.java:30-33 | found exactly for a stored id, returning that session; otherwise fails with the not-found message |
| SessionServiceModel.SessionService.CreateSession | BackendWorkSpace/backend/src/main/java/com/samjhadoo/service/SessionService.java:24-27 | the session is stored exactly when its times pass the corrected validation; a refusal carries the validation message and stores nothing |
| SessionServiceModel.SessionService.UpdateSession | BackendWorkSpace/backend/src/main/java/com/samjhadoo/service/SessionService.java:36-47 | fails for an unknown id and changes nothing; otherwise the stored session takes the new title, description, times and notes and keeps its status, with no validation of the new times |
| SessionServiceModel.SessionService.CancelSession | BackendWorkSpace/backend/src/main/java/com/samjhadoo/service/SessionService.java:50-59 | succeeds exactly for a stored SCHEDULED session, which becomes CANCELLED with the reason appended to its notes; otherwise fails with the source's message and changes nothing |
| SessionServiceModel.SessionService.StartSession | BackendWorkSpace/backend/src/main/java/com/samjhadoo/service/SessionService.java:91-102 | succeeds exactly for a stored SCHEDULED session whose start time has come, which becomes IN_PROGRESS; an early start fails with the source's message; a failure changes nothing |
| SessionServiceModel.SessionService.EndSession | BackendWorkSpace/backend/src/main/java/com/samjhadoo/service/SessionService.java:105-114 | succeeds exactly for a stored IN_PROGRESS session, which becomes COMPLETED and ends now; otherwise fails and changes nothing |
| SchedulingServiceModel.AsWrittenSlotsFromMidnight | BackendWorkSpace/backend/src/main/java/com/samjhadoo/service/SchedulingServiceImpl.java:58-66 | as written, from midnight the slot that steps by 30 minutes and wraps at midnight only takes the 48 half-hour marks of the day, never reaching 23:45 or later |
| SchedulingServiceModel.AsWrittenLoopNeverEnds | BackendWorkSpace/backend/src/main/java/com/samjhadoo/service/SchedulingServiceImpl.java:58-66 | as written, for a window from 00:00 to 23:45 every value the slot takes is before the end, so the while loop never stops |
| SchedulingServiceModel.WindowSlotLiesInWindow | BackendWorkSpace/backend/src/main/java/com/samjhadoo/service/SchedulingServiceImpl.java:58-66 | corrected: every slot of a window lies in it on the day, on its half-hour grid from the window start, and is not the start of a booking |
| SchedulingServiceModel.CollectStep | BackendWorkSpace/backend/src/main/java/com/samjhadoo/service/SchedulingServiceImpl.java:58-65 | one turn of the inner loop adds the current mark exactly when it is free, keeping the slots collected plus those still to come equal to all of the window's slots |
| SchedulingServiceModel.EveryFreeMarkIsASlot | BackendWorkSpace/backend/src/main/java/com/samjhadoo/service/SchedulingServiceImpl.java:58-66 | corrected: every half-hour mark of the window that no booking starts at is one of its slots |
| SchedulingServiceModel.SlotsLieInWindows | BackendWorkSpace/backend/src/main/java/com/samjhadoo/service/SchedulingServiceImpl.java:51-69 | corrected: each available slot lies on the half-hour grid of some availability window and is not a booked start |
| SchedulingServiceModel.CollectWindow | BackendWorkSpace/backend/src/main/java/com/samjhadoo/service/SchedulingServiceImpl.java:58-66 | the inner loop collects exactly the window's free half-hour slots, in order |
| SchedulingServiceModel.GetAvailableSlots | BackendWorkSpace/backend/src/main/java/com/samjhadoo/service/SchedulingServiceImpl.java:51-69 | corrected: the result is the free slots of every window, window by window in order |
| SchedulingServiceModel.BookingService.constructor | BackendWorkSpace/backend/src/main/java/com/samjhadoo/service/SchedulingServiceImpl.java:73-89 | the service starts with no bookings |
| SchedulingServiceModel.BookingService.RequestBooking | BackendWorkSpace/backend/src/main/java/com/samjhadoo/service/SchedulingServiceImpl.java:73-89 | fails with "Mentor not found", changing nothing, exactly when the mentor is not a known user; otherwise a new booking under a fresh id is REQUESTED and ends the requested number of minutes after its start, and no other booking changes |
| SchedulingServiceModel.BookingService.ConfirmBooking | BackendWorkSpace/backend/src/main/java/com/samjhadoo/service/SchedulingServiceImpl.java:93-104 | succeeds exactly for a stored booking of this mentor still REQUESTED, which becomes CONFIRMED; a missing booking or another mentor's fails with the not-found message, any other status with "Only requested bookings can be confirmed."; a failure changes nothing |
| SchedulingServiceModel.BookingService.CancelBooking | BackendWorkSpace/backend/src/main/java/com/samjhadoo/service/SchedulingServiceImpl.java:108-120 | succeeds exactly for a stored booking of which the user is mentee or mentor, whatever its status, which becomes CANCELLED with the reason; a missing booking or another user fails with the source's messages and changes nothing |
| SchedulingServiceModel.ConfirmTwice | BackendWorkSpace/backend/src/main/java/com/samjhadoo/service/SchedulingServiceImpl.java:93-104 | a booking is confirmed at most once: a second confirmation fails |
| AiGatewayModel.FreshWindow | BackendWorkSpace/disabled-modules/ai/AIGatewayServiceImpl.java:184-192 | a fresh window starts now, lasts one hour and has counted nothing |
| AiGatewayModel.CheckRateLimit | BackendWorkSpace/disabled-modules/ai/AIGatewayServiceImpl.java:157-176 | refused without an enabled configuration for the tier; allowed when there is no record or its window has ended; otherwise allowed exactly while the count is below the hourly limit |
| AiGatewayModel.Incremented | BackendWorkSpace/disabled-modules/ai/AIGatewayServiceImpl.java:180-203 | a missing or ended window restarts now with one request; otherwise the count grows by one; either way the window is open at the time of the call |
| AiGatewayModel.AllowedIncrementStaysWithinLimit | BackendWorkSpace/disabled-modules/ai/AIGatewayServiceImpl.java:157-203 | an allowed request, once counted, leaves the count between 1 and the hourly limit (or 1 when the limit is below 1) |
| AiGatewayModel.FullWindowRefuses | BackendWorkSpace/disabled-modules/ai/AIGatewayServiceImpl.java:157-203 | once the limit-th request of a window is counted, every later check inside that window is refused |
| AiGatewayModel.AiGateway.EnabledConfig | BackendWorkSpace/disabled-modules/ai/AIGatewayServiceImpl.java:158-160 | a configuration is found exactly when the tier has one and it is enabled |
| AiGatewayModel.AiGateway.constructor | BackendWorkSpace/disabled-modules/ai/AIGatewayServiceImpl.java:157-203 | the gateway starts with the given tier configurations and no rate-limit records |
| AiGatewayModel.AiGateway.IncrementRateLimit | BackendWorkSpace/disabled-modules/ai/AIGatewayServiceImpl.java:180-203 | fails exactly when the tier has no configuration at all, enabled or not, changing nothing; otherwise the user's record for the tier becomes the incremented one and no other record changes |
| AiGatewayModel.AiGateway.Admit | BackendWorkSpace/disabled-modules/ai/AIGatewayServiceImpl.java:48-70 | a request is admitted exactly when the rate-limit check allows it, and only an admitted request is counted |
| VisualQueryServiceModel.CreateQuery | BackendWorkSpace/backend/src/main/java/com/samjhadoo/_disabled/visualquery/VisualQueryServiceImpl.java:32-63 | refused exactly for an urgency outside 1..5, with the source's message; otherwise a DRAFT query of the caller with that urgency, no mentor and the anonymity asked for, which is private whatever was asked, because the creation hook resets the flag |
| VisualQueryServiceModel.CanUserAccessQuery | BackendWorkSpace/backend/src/main/java/com/samjhadoo/_disabled/visualquery/VisualQueryServiceImpl.java:443-466 | never for a missing query; otherwise exactly for the owner, the assigned mentor, or anyone when the query is public or not anonymous |
| VisualQueryServiceModel.AnonymousPrivateQueriesAreHidden | BackendWorkSpace/backend/src/main/java/com/samjhadoo/_disabled/visualquery/VisualQueryServiceImpl.java:443-466 | an anonymous private query is visible only to its owner and its assigned mentor |
| VisualQueryServiceModel.UpdateQueryUrgency | BackendWorkSpace/backend/src/main/java/com/samjhadoo/_disabled/visualquery/VisualQueryServiceImpl.java:490-510 | fails, in this order, for a missing query, a caller who is not the owner and an urgency outside 1..5, each with its message; otherwise only that query's urgency changes and every other query is unchanged |
| VisualQueryServiceModel.UrgencyStaysValid | BackendWorkSpace/backend/src/main/java/com/samjhadoo/_disabled/visualquery/VisualQueryServiceImpl.java:490-510 | when every stored query has an urgency in 1..5, a successful update keeps it so |
| MediaServiceModel.ValidateFile | BackendWorkSpace/backend/src/main/java/com/samjhadoo/_disabled/visualquery/MediaServiceImpl.java:315-352 | valid exactly when the file is at most 50 MB, has a content type, and that type fits the media kind; an oversized file and a missing type fail with their messages, in that order |
| MediaServiceModel.MediaKindsAreExclusive | BackendWorkSpace/backend/src/main/java/com/samjhadoo/_disabled/visualquery/MediaServiceImpl.java:315-352 | a content type fits at most one of image, video and audio |
| MediaServiceModel.LastIndexOf | BackendWorkSpace/backend/src/main/java/com/samjhadoo/_disabled/visualquery/MediaServiceImpl.java:495 | the position of the last occurrence of the character, or -1 when there is none |
| MediaServiceModel.Extension | BackendWorkSpace/backend/src/main/java/com/samjhadoo/_disabled/visualquery/MediaServiceImpl.java:493-496 | empty without a name; otherwise a non-empty extension starts with its only '.' and is a suffix of the name |
| MediaServiceModel.UniqueFileName | BackendWorkSpace/backend/src/main/java/com/samjhadoo/_disabled/visualquery/MediaServiceImpl.java:492-500 | the name starts with the lower-case media kind and '_' and ends with the original's extension |
| MediaServiceModel.NameHeadHasNoDot | BackendWorkSpace/backend/src/main/java/com/samjhadoo/_disabled/visualquery/MediaServiceImpl.java:498-499 | the kind, '_' and the decimal timestamp contain no '.' |
| MediaServiceModel.LastDotOfConcat | BackendWorkSpace/backend/src/main/java/com/samjhadoo/_disabled/visualquery/MediaServiceImpl.java:495 | the last '.' of a dot-free head followed by an extension is where the extension starts |
| MediaServiceModel.UniqueFileNameKeepsExtension | BackendWorkSpace/backend/src/main/java/com/samjhadoo/_disabled/visualquery/MediaServiceImpl.java:492-500 | the generated name has exactly the original's extension |
| MediaServiceModel.FilePath | BackendWorkSpace/backend/src/main/java/com/samjhadoo/_disabled/visualquery/MediaServiceImpl.java:502-504 | the path starts with "queries/" and is as long as its three parts and the separator |
| MediaServiceModel.FilePathRoundTrip | BackendWorkSpace/backend/src/main/java/com/samjhadoo/_disabled/visualquery/MediaServiceImpl.java:502-504 | for a query id without '/', the path gives back exactly its query id and file name, so distinct queries get distinct directories |
| AchievementServiceModel.Current | BackendWorkSpace/backend/src/main/java/com/samjhadoo/_disabled/gamification/AchievementServiceImpl.java:87-95 | a user without a record for the achievement starts from a fresh one at progress 0, not completed |
| AchievementServiceModel.StepEffect | BackendWorkSpace/backend/src/main/java/com/samjhadoo/_disabled/gamification/AchievementServiceImpl.java:85-107 | one iteration leaves a completed record and everything else alone; for an open one it raises the progress by the increment, completes it exactly when the progress reaches the threshold, reports that completion, awards the points only when positive, and touches no other record |
| AchievementServiceModel.UntouchedRecords | BackendWorkSpace/backend/src/main/java/com/samjhadoo/_disabled/gamification/AchievementServiceImpl.java:85-108 | a record of another user or achievement, or one already completed, is left exactly as it was |
| AchievementServiceModel.UnvisitedKeysAbsent | BackendWorkSpace/backend/src/main/java/com/samjhadoo/_disabled/gamification/AchievementServiceImpl.java:85-108 | no record is created for an achievement the loop does not visit |
| AchievementServiceModel.PrefixLeavesLaterRecord | BackendWorkSpace/backend/src/main/java/com/samjhadoo/_disabled/gamification/AchievementServiceImpl.java:85-108 | with distinct ids, earlier iterations do not change the record a later achievement works on |
| AchievementServiceModel.AnyCompletedIff | BackendWorkSpace/backend/src/main/java/com/samjhadoo/_disabled/gamification/AchievementServiceImpl.java:83-110 | the call returns true exactly when one of the achievements was open and this increment brought it to its threshold |
| AchievementServiceModel.OpenAchievementsAdvance | BackendWorkSpace/backend/src/main/java/com/samjhadoo/_disabled/gamification/AchievementServiceImpl.java:97-106 | every listed achievement that was open has advanced by exactly the increment and is completed exactly when it reached its threshold |
| AchievementServiceModel.AchievementService.constructor | BackendWorkSpace/backend/src/main/java/com/samjhadoo/_disabled/gamification/AchievementServiceImpl.java:78-111 | the service starts with the given catalog, no user records and no awards |
| AchievementServiceModel.AchievementService.ProcessAchievementProgress | BackendWorkSpace/backend/src/main/java/com/samjhadoo/_disabled/gamification/AchievementServiceImpl.java:78-111 | the loop ends with exactly the store, awards and result of the reference run over the achievements in order, so the properties above hold of it |
| AchievementServiceModel.AchievementService.ResetAchievementProgress | BackendWorkSpace/backend/src/main/java/com/samjhadoo/_disabled/gamification/AchievementServiceImpl.java:214-235 | true exactly for a known, repeatable achievement whose record exists and is completed, which goes back to progress 0, open, without completion time; otherwise nothing changes |
| ResponseServiceModel.Flags | BackendWorkSpace/backend/src/main/java/com/samjhadoo/_disabled/visualquery/ResponseServiceImpl.java:418-440 | the five factors are earned exactly for content over 100 UTF-16 units, a solution, a helpful-vote ratio of at least 80 percent, a mentor rating of 4 or more, and attached media |
| ResponseServiceModel.EarnedBounds | BackendWorkSpace/backend/src/main/java/com/samjhadoo/_disabled/visualquery/ResponseServiceImpl.java:418-443 | with non-negative weights the earned score lies between 0 and the sum of all weights |
| ResponseServiceModel.FactorAddsItsWeight | BackendWorkSpace/backend/src/main/java/com/samjhadoo/_disabled/visualquery/ResponseServiceImpl.java:418-440 | earning one more factor raises the score by exactly that factor's weight |
| ResponseServiceModel.EarnedOfFive | BackendWorkSpace/backend/src/main/java/com/samjhadoo/_disabled/visualquery/ResponseServiceImpl.java:418-440 | the score of five factors is the weight of each earned factor, added one by one |
| ResponseServiceModel.WeightsTotalHundred | BackendWorkSpace/backend/src/main/java/com/samjhadoo/_disabled/visualquery/ResponseServiceImpl.java:418-442 | the five weights add up to 100, so the cap at 100 never takes effect |
| ResponseServiceModel.Grade | BackendWorkSpace/backend/src/main/java/com/samjhadoo/_disabled/visualquery/ResponseServiceImpl.java:443 | the grade is A exactly from 80, B exactly from 60 to 79 and C exactly below 60 |
| ResponseServiceModel.QualityOf | BackendWorkSpace/backend/src/main/java/com/samjhadoo/_disabled/visualquery/ResponseServiceImpl.java:418-446 | the score lies in 0..100, is exactly the sum of the weights of the earned factors, and comes with its grade and the factor names |
| ResponseServiceModel.GetResponseQualityScore | BackendWorkSpace/backend/src/main/java/com/samjhadoo/_disabled/visualquery/ResponseServiceImpl.java:406-447 | nothing for a missing response; otherwise the score built by successive additions equals the reference quality of the response |
| StreakServiceModel.MilestonePoints | BackendWorkSpace/backend/src/main/java/com/samjhadoo/_disabled/gamification/StreakServiceImpl.java:136-157 | a streak of 7, 30, 100 or 365 days earns 25, 100, 500 or 1000 points and any other length earns none |
| StreakServiceModel.EligibleForReward | BackendWorkSpace/backend/src/main/java/com/samjhadoo/_disabled/gamification/StreakServiceImpl.java:160-168 | the selected streaks are all milestones, every milestone streak is selected, and every selected streak comes from the input |
| StreakServiceModel.EligibleForRewardSingle | BackendWorkSpace/backend/src/main/java/com/samjhadoo/_disabled/gamification/StreakServiceImpl.java:160-168 | a single streak is selected exactly when its length is a milestone |
| StreakServiceModel.EligibleForRewardConcat | BackendWorkSpace/backend/src/main/java/com/samjhadoo/_disabled/gamification/StreakServiceImpl.java:160-168 | the selection distributes over concatenation, so the selected streaks keep their order |
| StreakServiceModel.FilterMatchesMilestones | BackendWorkSpace/backend/src/main/java/com/samjhadoo/_disabled/gamification/StreakServiceImpl.java:136-168 | a streak is selected by the reward filter exactly when it earns points |
| StreakServiceModel.MilestonePointsIncrease | BackendWorkSpace/backend/src/main/java/com/samjhadoo/_disabled/gamification/StreakServiceImpl.java:140-154 | a longer milestone always earns more points |
| WebRtcModel.WithVideoTrack | FrontendWorkSpace/frontend/src/services/webrtc.ts:153-160 | a peer that sends video now sends the given track; a peer without a video sender is unchanged |
| WebRtcModel.ReplaceVideoTrack | FrontendWorkSpace/frontend/src/services/webrtc.ts:153-160 | the same peers remain, each switched to the track by WithVideoTrack |
| WebRtcModel.Enabled | FrontendWorkSpace/frontend/src/services/webrtc.ts:134-136 | the same tracks in the same order, each with its enabled flag set to the given value |
| WebRtcModel.EnabledKeepsIds | FrontendWorkSpace/frontend/src/services/webrtc.ts:132-146 | toggling changes no track's identity |
| WebRtcModel.WebRtcService.constructor | FrontendWorkSpace/frontend/src/services/webrtc.ts:10-13 | the service starts with no local stream, no screen stream and no peers |
| WebRtcModel.WebRtcService.GetLocalStream | FrontendWorkSpace/frontend/src/services/webrtc.ts:15-43 | a cached stream is returned whatever the devices would give; otherwise the devices' stream is returned and cached, or the call fails with "Failed to access camera/microphone" and caches nothing |
| WebRtcModel.WebRtcService.CreatePeer | FrontendWorkSpace/frontend/src/services/webrtc.ts:66-107 | a new peer instance is registered under the user id, sending the stream's first video track if any, replacing any earlier peer for that user without destroying it |
| WebRtcModel.WebRtcService.HandleSignal | FrontendWorkSpace/frontend/src/services/webrtc.ts:109-114 | the signal goes to the user's peer when there is one and nothing changes otherwise |
| WebRtcModel.WebRtcService.RemovePeer | FrontendWorkSpace/frontend/src/services/webrtc.ts:116-122 | the user's peer, if any, is destroyed and removed; every other peer stays |
| WebRtcModel.WebRtcService.GetPeer | FrontendWorkSpace/frontend/src/services/webrtc.ts:124-126 | a peer is returned exactly when one is registered for the user, and it is that one |
| WebRtcModel.WebRtcService.ReplaceVideoTrackOnAll | FrontendWorkSpace/frontend/src/services/webrtc.ts:153-160 | the loop over the peers ends with the peers of ReplaceVideoTrack |
| WebRtcModel.WebRtcService.ToggleAudio | FrontendWorkSpace/frontend/src/services/webrtc.ts:132-138 | without a local stream nothing happens; otherwise every audio track gets the flag and the video tracks stay |
| WebRtcModel.WebRtcService.ToggleVideo | FrontendWorkSpace/frontend/src/services/webrtc.ts:140-146 | without a local stream nothing happens; otherwise every video track gets the flag and the audio tracks stay |
| WebRtcModel.WebRtcService.IsAudioEnabled | FrontendWorkSpace/frontend/src/services/webrtc.ts:204-206 | enabled only when a local stream with an audio track is held |
| WebRtcModel.WebRtcService.IsVideoEnabled | FrontendWorkSpace/frontend/src/services/webrtc.ts:208-210 | enabled only when a local stream with a video track is held |
| WebRtcModel.WebRtcService.IsScreenSharing | FrontendWorkSpace/frontend/src/services/webrtc.ts:212-214 | sharing exactly while a screen stream is held |
| WebRtcModel.WebRtcService.StartScreenSharing | FrontendWorkSpace/frontend/src/services/webrtc.ts:148-163 | a refused display fails with "Failed to access screen" and changes nothing; a display stream is always kept; without a video track the call still fails and no peer changes; otherwise every peer that sends video switches to the screen's track |
| WebRtcModel.WebRtcService.StopScreenSharing | FrontendWorkSpace/frontend/src/services/webrtc.ts:165-183 | sharing ends; a held screen stream has all its tracks stopped, and when a camera track is available every video-sending peer goes back to it; otherwise the peers stay |
| WebRtcModel.WebRtcService.StopLocalStream | FrontendWorkSpace/frontend/src/services/webrtc.ts:185-190 | the local stream is dropped and all its tracks are stopped |
| WebRtcModel.WebRtcService.Cleanup | FrontendWorkSpace/frontend/src/services/webrtc.ts:192-202 | both streams are dropped with all their tracks stopped, every peer is destroyed and none remains; because the camera stream is stopped first, no camera track is restored on the way |
| WebRtcModel.ToggleThenQuery | FrontendWorkSpace/frontend/src/services/webrtc.ts:204-206 | after toggling audio on a local stream with an audio track, the audio query reports the new flag |
| WebRtcModel.ToggleVideoThenQuery | FrontendWorkSpace/frontend/src/services/webrtc.ts:208-210 | after toggling video on a local stream with a video track, the video query reports the new flag |
| WebRtcModel.StopEndsSharing | FrontendWorkSpace/frontend/src/services/webrtc.ts:165-183 | after stopping the screen share, sharing is off whatever the state before |
| LiveSessionHookModel.OrElse | FrontendWorkSpace/frontend/src/hooks/use-live-session.ts:58-59 | a present, non-empty value is kept; a missing or empty one gives the fallback |
| LiveSessionHookModel.JoinSession | FrontendWorkSpace/frontend/src/hooks/use-live-session.ts:43-83 | when the devices refuse, the view is unchanged; otherwise exactly one local tile, for the signed-in user or "local"/"You", is appended after the existing tiles and the view is connected |
| LiveSessionHookModel.LeaveSession | FrontendWorkSpace/frontend/src/hooks/use-live-session.ts:86-92 | no tiles remain and the view is disconnected, while the audio, video and screen-sharing flags, the typing users and the peer references keep their values |
| LiveSessionHookModel.MarkLocalMuted | FrontendWorkSpace/frontend/src/hooks/use-live-session.ts:99-103 | each local tile gets the muted flag and every other tile is kept |
| LiveSessionHookModel.MarkLocalVideoOff | FrontendWorkSpace/frontend/src/hooks/use-live-session.ts:111-115 | each local tile gets the video-off flag and every other tile is kept |
| LiveSessionHookModel.ToggleAudio | FrontendWorkSpace/frontend/src/hooks/use-live-session.ts:95-104 | the audio flag flips, the local tiles show muted exactly when audio is now off, and remote tiles are kept |
| LiveSessionHookModel.ToggleVideo | FrontendWorkSpace/frontend/src/hooks/use-live-session.ts:107-116 | the video flag flips, the local tiles show video off exactly when video is now off, and remote tiles are kept |
| LiveSessionHookModel.ToggleAudioTwice | FrontendWorkSpace/frontend/src/hooks/use-live-session.ts:95-104 | toggling audio twice restores the audio flag and every tile, except that the local tiles show the muted mark matching the restored flag |
| LiveSessionHookModel.ToggleScreenShare | FrontendWorkSpace/frontend/src/hooks/use-live-session.ts:119-136 | stopping always turns sharing off; starting turns it on exactly when the screen could be shared; tiles and connection are untouched |
| LiveSessionHookModel.WithoutUser | FrontendWorkSpace/frontend/src/hooks/use-live-session.ts:214 | no kept tile belongs to the user, every tile of another user is kept, and nothing is added |
| LiveSessionHookModel.WithoutUserSingle | FrontendWorkSpace/frontend/src/hooks/use-live-session.ts:214 | a single tile is kept exactly when it belongs to another user |
| LiveSessionHookModel.WithoutUserConcat | FrontendWorkSpace/frontend/src/hooks/use-live-session.ts:214 | the filter distributes over concatenation, so the kept tiles stay in their original order |
| LiveSessionHookModel.WithoutUserIdempotent | FrontendWorkSpace/frontend/src/hooks/use-live-session.ts:214 | filtering the same user again changes nothing |
| LiveSessionHookModel.WithoutAbsentUser | FrontendWorkSpace/frontend/src/hooks/use-live-session.ts:214 | filtering out a user without a tile keeps the list exactly |
| LiveSessionHookModel.ParticipantLeft | FrontendWorkSpace/frontend/src/hooks/use-live-session.ts:210-215 | every tile of the user disappears, every other user's tile stays, and the user's peer reference is dropped |
| LiveSessionHookModel.ParticipantLeftSplit | FrontendWorkSpace/frontend/src/hooks/use-live-session.ts:210-215 | on a tile list split in two, each part loses the user's tiles and the parts keep their order |
| LiveSessionHookModel.ParticipantLeftTwice | FrontendWorkSpace/frontend/src/hooks/use-live-session.ts:210-215 | a repeated participant-left event for the same user changes nothing |
| LiveSessionHookModel.ParticipantJoined | FrontendWorkSpace/frontend/src/hooks/use-live-session.ts:177-207 | with a local stream a peer reference is registered for the user; without one nothing changes; tiles are untouched until a stream arrives |
| LiveSessionHookModel.JoinedStream | FrontendWorkSpace/frontend/src/hooks/use-live-session.ts:188-198 | the remote stream's tile is appended, whether or not the user already has one |
| LiveSessionHookModel.OfferReceived | FrontendWorkSpace/frontend/src/hooks/use-live-session.ts:218-258 | with the local stream an offer registers a peer for the user and leaves the tiles alone; without it nothing changes |
| LiveSessionHookModel.OfferThenLeftDropsPeer | FrontendWorkSpace/frontend/src/hooks/use-live-session.ts:210-258 | a user who sent an offer and then left has no peer reference any more |
| LiveSessionHookModel.OfferStream | FrontendWorkSpace/frontend/src/hooks/use-live-session.ts:228-246 | when the user has tiles, each of them gets the stream and nothing else changes; otherwise one tile is appended, named "Unknown" without a name |
| LiveSessionHookModel.OfferStreamShowsUser | FrontendWorkSpace/frontend/src/hooks/use-live-session.ts:228-246 | after an answering peer's stream the user has a tile showing it, and no other user's tile changed or appeared |
| LiveSessionHookModel.OfferStreamAddsAtMostOne | FrontendWorkSpace/frontend/src/hooks/use-live-session.ts:228-246 | a second answer stream for the same user adds no second tile |
| LiveSessionHookModel.Distinct | FrontendWorkSpace/frontend/src/hooks/use-live-session.ts:277 | the set spread keeps each name once and loses none |
| LiveSessionHookModel.WithoutName | FrontendWorkSpace/frontend/src/hooks/use-live-session.ts:279 | the kept names are exactly those other than the given one |
| LiveSessionHookModel.WithoutNameKeepsDistinct | FrontendWorkSpace/frontend/src/hooks/use-live-session.ts:279 | filtering a list without duplicates keeps it without duplicates |
| LiveSessionHookModel.Typing | FrontendWorkSpace/frontend/src/hooks/use-live-session.ts:275-281 | a typing user is among the typing names afterwards, a user who stopped is not, and no other name changes |
| LiveSessionHookModel.TypingKeepsDistinct | FrontendWorkSpace/frontend/src/hooks/use-live-session.ts:275-281 | each typing event keeps the typing list free of duplicates |
| LiveSessionHookModel.TypingRunHasNoDuplicates | FrontendWorkSpace/frontend/src/hooks/use-live-session.ts:275-281 | any run of typing events from a list without duplicates leaves no name twice |
| GamificationModel.NextLevelXP | FrontendWorkSpace/frontend/src/services/gamification.ts:64-66 | from level 1 on, a level needs at least 100 XP |
| GamificationModel.AllBadges | FrontendWorkSpace/frontend/src/services/gamification.ts:209-292 | the badge catalogue in order, every badge locked and never unlocked |
| GamificationModel.Fresh | FrontendWorkSpace/frontend/src/services/gamification.ts:79-89 | a user with nothing stored starts at level 1 with no XP, a 100 XP first threshold, and every badge locked |
| GamificationModel.LevelBadgeId | FrontendWorkSpace/frontend/src/services/gamification.ts:202-205 | exactly levels 5, 10, 25 and 50 have a level badge |
| GamificationModel.FirstBadge | FrontendWorkSpace/frontend/src/services/gamification.ts:116 | the position of the first badge with the id, or -1 when there is none |
| GamificationModel.SameIdsSameFirst | FrontendWorkSpace/frontend/src/services/gamification.ts:116 | badge lists with the same ids in the same order find every id at the same position |
| GamificationModel.UnlockBadgeIn | FrontendWorkSpace/frontend/src/services/gamification.ts:116-123 | the ids stay; the result is true exactly for a present, locked badge, which alone becomes unlocked now; otherwise nothing changes; either way a present badge is unlocked afterwards |
| GamificationModel.UnlockKeepsUnlocked | FrontendWorkSpace/frontend/src/services/gamification.ts:114-126 | unlocking one badge never locks another |
| GamificationModel.Added | FrontendWorkSpace/frontend/src/services/gamification.ts:96-97 | the XP and the total XP grow by the amount and nothing else changes |
| GamificationModel.LevelUpOnce | FrontendWorkSpace/frontend/src/services/gamification.ts:101-103 | one level-up pays the threshold out of the XP, raises the level by one and sets the next threshold, keeping the total |
| GamificationModel.SettleXP | FrontendWorkSpace/frontend/src/services/gamification.ts:100-107 | after the level-up loop the XP is below the threshold of the level reached, the level never falls, the total XP, badges and achievements are kept, and a record already below its threshold is unchanged |
| GamificationModel.SettleConservesXP | FrontendWorkSpace/frontend/src/services/gamification.ts:100-107 | no XP is lost or made up: the XP left plus the thresholds paid equals the XP before the loop |
| GamificationModel.SettleXPIgnoresBadges | FrontendWorkSpace/frontend/src/services/gamification.ts:100-107 | the level-up loop's result does not depend on the badges |
| GamificationModel.SettleWithBadges | FrontendWorkSpace/frontend/src/services/gamification.ts:100-107 | corrected: the loop with each level badge unlocked in the same record reaches the same levels and XP as the loop without badges, and keeps the badge ids |
| GamificationModel.SettleKeepsUnlocked | FrontendWorkSpace/frontend/src/services/gamification.ts:100-107 | corrected: a badge unlocked before the loop stays unlocked |
| GamificationModel.LevelBadgesUnlocked | FrontendWorkSpace/frontend/src/services/gamification.ts:197-206 | corrected: every level passed on the way that has a badge in the record finds it unlocked |
| GamificationModel.AwardedAsWritten | FrontendWorkSpace/frontend/src/services/gamification.ts:93-111 | as written, the saved record has the new total XP and settled levels, but the badges as they were read at the start |
| GamificationModel.Awarded | FrontendWorkSpace/frontend/src/services/gamification.ts:93-111 | corrected: the saved record has the new total XP and the same levels and XP as written, differing only in its badges |
| GamificationModel.LevelFourUser | FrontendWorkSpace/frontend/src/services/gamification.ts:64-66 | a coherent level-4 record 100 XP short of level 5 |
| GamificationModel.LevelBadgeLostAsWritten | FrontendWorkSpace/frontend/src/services/gamification.ts:106-109 | as written, 100 XP take that user to level 5 and the stored level_5 badge is still locked |
| GamificationModel.LevelBadgeKept | FrontendWorkSpace/frontend/src/services/gamification.ts:106-109 | corrected: the same award takes the user to level 5 with level_5 unlocked |
| GamificationModel.FirstAchievement | FrontendWorkSpace/frontend/src/services/gamification.ts:131 | the position of the first achievement with the id, or -1 when there is none |
| GamificationModel.WithProgress | FrontendWorkSpace/frontend/src/services/gamification.ts:134-137 | the progress is the value capped at the target, and the achievement is completed exactly when the value reaches the target |
| GamificationModel.AchievementUpdatedAsWritten | FrontendWorkSpace/frontend/src/services/gamification.ts:129-146 | as written, the saved record has the achievement updated but the XP, total and level as they were read, so a reward is lost |
| GamificationModel.AchievementUpdated | FrontendWorkSpace/frontend/src/services/gamification.ts:129-146 | corrected: the saved record has the same achievements as written and, on completion, the total XP raised by the reward |
| GamificationModel.RewardLostAsWritten | FrontendWorkSpace/frontend/src/services/gamification.ts:138-141 | as written, completing complete_profile for a new user stores it completed with a total XP of 0 |
| GamificationModel.RewardKept | FrontendWorkSpace/frontend/src/services/gamification.ts:138-141 | corrected: the same update stores the 50 XP reward |
| GamificationModel.GamificationService.constructor | FrontendWorkSpace/frontend/src/services/gamification.ts:68-69 | the service starts with nothing stored |
| GamificationModel.GamificationService.GetUserProgress | FrontendWorkSpace/frontend/src/services/gamification.ts:72-90 | the stored record when there is one, a fresh record otherwise, coherent either way |
| GamificationModel.GamificationService.UnlockBadge | FrontendWorkSpace/frontend/src/services/gamification.ts:114-126 | true exactly for a present, locked badge, whose record is then saved with it unlocked; otherwise nothing is saved |
| GamificationModel.GamificationService.OnLevelUp | FrontendWorkSpace/frontend/src/services/gamification.ts:197-206 | a level without a badge changes nothing; at level 5, 10, 25 or 50 the store changes exactly as unlocking that level's badge does: the first locked such badge of the user is unlocked now, otherwise nothing changes |
| GamificationModel.GamificationService.AwardXPAsWritten | FrontendWorkSpace/frontend/src/services/gamification.ts:93-111 | as written, the loop with its badge unlocks through the store ends by saving AwardedAsWritten, and only that user's record changes |
| GamificationModel.GamificationService.LevelUp | FrontendWorkSpace/frontend/src/services/gamification.ts:100-107 | corrected: the loop that unlocks each level badge in the record itself ends with SettleWithBadges |
| GamificationModel.GamificationService.AwardXP | FrontendWorkSpace/frontend/src/services/gamification.ts:93-111 | corrected: the record saved is Awarded, and only that user's record changes |
| GamificationModel.GamificationService.UpdateAchievementAsWritten | FrontendWorkSpace/frontend/src/services/gamification.ts:129-146 | as written, true exactly for a present, open achievement, and the stale record AchievementUpdatedAsWritten is saved over the award; otherwise nothing changes |
| GamificationModel.GamificationService.UpdateAchievement | FrontendWorkSpace/frontend/src/services/gamification.ts:129-146 | corrected: true exactly for a present, open achievement, and the saved record is AchievementUpdated; otherwise nothing changes |

## Left out

- I/O, clocks and randomness. The current time is a parameter (`now`). Generated ids are parameters. Logging is dropped.
- Persistence. Repositories are maps held by the service classes. JPA annotations, DTO conversion and model mapping are not modelled.
- Integer width. Java `int`/`long` and JavaScript numbers are unbounded integers here, because the amounts involved stay far below the limits.
- Decimal money. `BigDecimal` amounts with two decimal places are integer hundredths. Rounding modes appear only where the source rounds.
- Floating point. Ratios computed in `double` (read rate, click-through rate, helpfulness ratio, percentages) become exact integer comparisons. Values the source rounds HALF_UP are rounded the same way on exact ratios.
- Missing enum files. The enum files `WalletStatus`, `TransactionType`, `TransactionStatus`, `QueryStatus`, `MoodType`, `ChatParticipantRole`, `MessageType`, `ChatRoomType`, the session entity's `SessionStatus`, `BookingStatus`, the friendly-talk `RoomStatus`, the AI tier and the media type are not part of this model. Their values are the ones the modelled code names. `QueueStatus`, `ReportStatus`, `ReportSeverity` and the live session's `SessionStatus` are declared in the entity files and are copied from there.
- Concurrency, listeners and callbacks. Socket event handlers, React state setters and timers are modelled as the pure list transforms they apply. Their scheduling and ordering are not modelled.
- Browser and peer libraries. Media capture, `RTCPeerConnection` and the peer library are opaque values. A peer records only the signals and track replacements it receives.
- Media constraints. The constraints passed to the browser are not modelled.
- Return value on a missing booking. `rescheduleBooking` returns `null`, which is not modelled.
- Messages. `sendMessage` and the message list of the live-session hook are transport only and are not modelled.
- `calculateLevel` in gamification.ts is never called and is not modelled. It disagrees with the level-up loop: at 400 XP it gives level 3, while the loop gives level 2.
- `updateStreak` in gamification.ts is not modelled. It loses its daily-login XP in the same way as the achievement finding below (lines 177-178).
- AdCampaignModel.ShouldPauseDueToPerformance: a plain predicate with no contract of its own.
- Rating fields (mentor rating, session ratings) are not range-checked, because the source does not check them either.
- SessionServiceModel.SessionService.StartSession: requires a stored session to have a start time. The source would throw a NullPointerException there, and that exception is not modelled.
- AiGatewayModel.AiGateway.Admit: assumes the call to the AI provider succeeds. The source counts a request only after a successful call; the failing call is not modelled.
- GamificationModel.GamificationService.AwardXP: assumes every stored record is well formed (level at least 1, threshold equal to level squared times 100, XP below it), as records written by the service are. A record edited in browser storage so that its threshold is 0 would make the source loop forever.

- Character semantics. Java strings are sequences of UTF-16 code units, Dafny strings are sequences of Unicode scalar values. Lengths and cuts the source takes with `length()` and `substring` are counted in UTF-16 units (`Common.Utf16Length`, `Common.Utf16Prefix`). Lower-casing and case-insensitive comparison fold ASCII letters only.
- ChatMessageModel.ContentPreview: when the 97th UTF-16 unit is the first half of a surrogate pair, Java keeps the lone half; the model keeps only the 96 units before the pair, because a lone surrogate is not a Dafny character.
- ChatMessageModel.ContainsSensitiveContent: lower-cases ASCII letters only. Java's `toLowerCase` also folds other characters, some into ASCII letters (the Kelvin sign becomes `k`), so the source can find a listed word the model misses.
- Common.LowerAscii: folds ASCII letters only, where Java's `toLowerCase` follows the Unicode case rules.
- Common.EqualsIgnoreCase: compares ASCII letters without case only, where Java's `equalsIgnoreCase` also matches other letters, such as the Kelvin sign with `k`.
- QueueServiceModel.TopicsMatch: through `Common.EqualsIgnoreCase`, two topics that differ in case outside ASCII do not match in the model but match in the source. It is a plain predicate; its contracts are `TopicMatchIsSymmetric` and `HasMatchFromIff`.
- QueueServiceModel.Compatible: a plain predicate spelling out `areCompatibleForMatching` as a reference definition. The method `AreCompatibleForMatching` is proved equal to it, and the symmetry, score and matching lemmas are about it.
- AchievementServiceModel.Step: the reference definition of one pass of the progress loop, with no contract of its own. `StepEffect` and `StepReportsCompletion` state what it does.
- AchievementServiceModel.ProcessAll: the reference definition of the whole progress loop, with no contract of its own. `ProcessAchievementProgress` is proved equal to it, and `AnyCompletedIff`, `OpenAchievementsAdvance`, `UntouchedRecords` and `UnvisitedKeysAbsent` state what it does.
- PricingEngineModel.Commission: a policy percentage is taken in hundredths of a percent (1250 is 12.5 percent). A policy percentage with more than two decimals, which `divide(100, 4, HALF_UP)` rounds before multiplying, is not modelled.

- WebRtcModel.WebRtcService.ToggleAudio: the tracks are values. In the browser the peers send the very track objects of the local stream, so the flag also mutes what they send; the model does not represent that sharing.
- WebRtcModel.WebRtcService.ToggleVideo: the same sharing of track objects with the peers is not represented.

- SessionServiceModel.SessionService.CreateSession: applies the corrected duration check `ValidateSessionTime`, so a session of 4 to under 5 hours, which the source's `createSession` stores after its truncating `toHours() > 4` test, is refused; the as-written check is `ValidateSessionTimeAsWritten`.
- The `@PreUpdate` hooks of `Transaction` (stamping the update time, and the completion or failure time when missing) and `SafetyReport` (stamping the resolution time when missing) are not modelled as methods of their own: on every modelled path those times are already set by `MarkCompleted`, `MarkFailed`, `Resolve` and `Dismiss`, and the update time is not part of the model.

Plain predicates. Each of the following is the source's boolean test, written as a predicate with no contract of its own, because its whole meaning is that one condition:

- ReferralModel.Referral.IsActive: `isActive`, PENDING and not past its expiry.
- EscrowModel.Escrow.CanAutoRelease: `canAutoRelease`, enabled and past the auto-release date.
- EscrowModel.Escrow.IsOverdue: `isOverdue`, past the dispute deadline.
- EscrowModel.IsHighValue: `isHighValue`, at least 5,000; it enters the priority score.
- WalletModel.Wallet.HasSufficientBalance: `hasSufficientBalance`, available balance at least the amount.
- WalletModel.Wallet.IsWithinMonthlyLimit: `isWithinMonthlyLimit`, no limit or the spending plus the amount within it.
- WalletModel.Wallet.IsOperational: `isOperational`, ACTIVE and verified.
- WalletModel.Wallet.RequiresKycForTransaction: `requiresKYCForTransaction`, no KYC and an amount above 10,000.
- WalletModel.Wallet.IsEligibleForAutoPayout: `isEligibleForAutoPayout`, ACTIVE, KYC done, at least 100 and verification level 2.
- PayoutRequestModel.IsHighPriority: `isHighPriority`, urgent, at least 10,000, or priority 5 or more; it enters `RequiresAdditionalVerification`.
- PayoutRequestModel.IsAmountSuspicious: `isAmountSuspicious`, above 50,000; it enters `RequiresAdditionalVerification`.
- PayoutRequestModel.PayoutRequest.IsOverdue: `isOverdue`, PENDING or APPROVED past the estimated processing days.
- PayoutRequestModel.PayoutRequest.IsEligibleForAutoPayout: `isEligibleForAutoPayout`, with the wallet's eligibility as a parameter.
- PayoutRequestModel.PayoutRequest.RequiresAdditionalVerification: `requiresAdditionalVerification`, with the wallet's KYC and level as parameters.
- TransactionModel.IsCredit: `isCreditTransaction`, the eight credit types; `CategoryOf` and `CreditAndDebitAreDisjoint` are about it.
- TransactionModel.IsDebit: `isDebitTransaction`, the debit types; `CategoryOf` and `CreditAndDebitAreDisjoint` are about it.
- TransactionModel.IsPendingStatus: `isPending`, PENDING or PROCESSING.
- TransactionModel.IsEligibleForRetry: `isEligibleForRetry`, FAILED with fewer than three retries.
- TransactionModel.IsHighValue: `isHighValueTransaction`, at least 10,000; `RiskScore` and `ShouldBeReviewed` are about it.
- TransactionModel.IsAmountSuspicious: `isAmountSuspicious`, above 50,000; `RiskScore` is about it.
- TransactionModel.IsAdRelated: `isAdRelated`, a reward or a payment marked ADS.
- TransactionModel.IsSessionRelated: `isSessionRelated`, a payment whose metadata mentions SESSION.
- ChatParticipantModel.ChatParticipant.IsMuted: `isMuted`, a mute that ends after now.
- ChatParticipantModel.ChatParticipant.ShouldReceiveNotifications: `shouldReceiveNotifications`, enabled, not muted and online.
- ChatParticipantModel.ChatParticipant.IsActive: `isActive`, online and seen within the last five minutes or never.
- ChatRoomModel.ShouldAutoCleanup: `shouldAutoCleanup`, idle for 30 days, empty and not public.
- ChatRoomModel.ChatRoom.IsFull: `isFull`, the count at the capacity; `AddParticipant` refuses exactly then.
- ChatRoomModel.ChatRoom.IsCurrentlyActive: `isCurrentlyActive`, active and not archived; `Archive` and `Unarchive` state its value.
- VisualQueryModel.VisualQuery.IsActive: `isActive`, through `IsActiveStatus`; `OnlySubmitActivates` and `ActiveQueryEnds` are about it.
- VisualQueryModel.VisualQuery.IsOverdue: `isOverdue`, past the response deadline.
- AdPlacementModel.AdPlacement.IsCurrentlyActive: `isCurrentlyActive`, active and within its dates.
- AdPlacementModel.AdPlacement.HasReachedImpressionLimit: `hasReachedImpressionLimit`; `RecordImpression` refuses exactly then.
- AdPlacementModel.AdPlacement.HasReachedClickLimit: `hasReachedClickLimit`; `RecordClick` refuses exactly then.
- AdCampaignModel.AdCampaign.IsCurrentlyActive: `isCurrentlyActive`, ACTIVE and within its dates.
- MoodServiceModel.AreMoodsCompatible: `areMoodsCompatible`; `CompatibleIffSameType` states what it amounts to.
- LiveSessionModel.LiveSession.IsLive: `isLive`, the LIVE status.
- LiveSessionModel.LiveSession.IsFull: `isFull`, the count at the capacity.
- LiveSessionModel.LiveSession.CanJoin: `canJoin`, LIVE and not full; `JoinableHasRoom` is about it.
- FriendlyTalkRoomModel.FriendlyTalkRoom.IsFull: `isFull`, the count at the capacity; `NotFullHasRoom` and `AddParticipant` are about it.
- FriendlyTalkRoomModel.FriendlyTalkRoom.IsActive: `isActive`, ACTIVE with someone in it.
- FriendlyTalkSessionModel.FriendlyTalkSession.IsActive: `isActive`, the ACTIVE status.
- FriendlyTalkQueueModel.FriendlyTalkQueue.IsActive: `isActive`, WAITING and not expired; `MarkAsMatched` states its value.
- SafetyReportModel.SafetyReport.RequiresFollowUp: `requiresFollowUp`, flagged and past the follow-up date.

Other behaviour of the source that the model keeps as written:

- Charm pricing of a rounded amount of 0 to 4 gives -1 (`PricingEngineModel.CharmPriceOfSmallAmount`).
- `onCreate` forces `isPublic` to false on a visual query. It also forces `autoRelease` and `allowMentorBidding` to false.
- `updateSession` stores the session without validating it.
- `leaveSession` in the live-session hook leaves `isScreenSharing` as it was.
- `createPeer` replaces an existing peer without destroying the old one.
- `cleanup` stops the local stream before stopping screen sharing, so the camera track is not put back on the peers.
- A participant-joined event for a user already in the list appends a second tile.
- For the fifteen transaction types the classifiers name, the TRANSFER branch of `getCategory` cannot be reached; it is taken exactly for the model's `Unlisted` type, which stands for any other type.
- Two moods of different types never reach the compatibility score of 70, so `areMoodsCompatible` holds exactly for moods of the same type.

## Findings

| source | as written | input that shows it | evidently intended | confidence | as-written member | corrected member |
|---|---|---|---|---|---|---|
| BackendWorkSpace/backend/src/main/java/com/samjhadoo/service/SessionService.java:133-135 | rejects a session only when `Duration.toHours()` exceeds 4; `toHours` truncates, so up to 4h59m passes | a session from 10:00 to 14:30, four and a half hours | reject every session longer than 4 hours | not executed | SessionServiceModel.AsWrittenAcceptsOverFourHours | SessionServiceModel.CorrectedCheckIsStricter |
| BackendWorkSpace/backend/src/main/java/com/samjhadoo/service/SchedulingServiceImpl.java:58-66 | steps a `LocalTime` by 30 minutes while it is before the window end; `plusMinutes` wraps at midnight, so the loop never ends when the window end lies after the last half-hour mark before midnight counted from the window start | a window from 00:00 to 23:45 | stop once the next slot would leave the window | not executed | SchedulingServiceModel.AsWrittenLoopNeverEnds | SchedulingServiceModel.SlotsLieInWindows |
| FrontendWorkSpace/frontend/src/services/gamification.ts:93-111 | `onLevelUp` saves the unlocked level badge, then `awardXP` saves its own earlier copy over it, so the badge is lost | a level-4 user who gains 100 XP and reaches level 5 | the saved record keeps the level badge | not executed | GamificationModel.LevelBadgeLostAsWritten | GamificationModel.LevelBadgeKept |
| FrontendWorkSpace/frontend/src/services/gamification.ts:129-146 | `awardXP` saves the reward XP, then `updateAchievement` saves its own earlier copy over it, so the reward is lost | a fresh user whose complete_profile achievement reaches 1 | the saved record keeps the 50 XP reward | not executed | GamificationModel.RewardLostAsWritten | GamificationModel.RewardKept |
