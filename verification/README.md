# Pods: the money path

This project models what happens to the money of a Pod, from the first deposit intent to the last confirmed
transfer, and proves what the code promises about it.

A Pod is a group commitment. Participants pay a deposit of one slice per scheduled occurrence. At the cutoff the
credited deposits are ranked by their position on the chain; the first ones are locked into the roster, the others are
refunded. During the schedule members submit evidence, which the creator approves or rejects or which is protected when
the review times out. After the last occurrence a proportional Pod is settled: each occurrence redistributes the slices
of those who missed it to those who were approved, the result is posted to a double-entry ledger, and every member with
a payout gets one transfer leg. A leg is tried in numbered attempts: a failed or late one can be retried, a mismatched
one cannot. The last confirmation settles the run and completes the Pod.

## How it is built

The rows of one Pod are a value, `Rows.Db`. Each transaction is a function from rows to rows and a reply: it ran, it
returned early, or it threw and rolled back (`Funding`, `Cutoff`, `Refunds`, `Payouts`, `Finalization`, `Lifecycle`).
`Invariants.Inv` is what holds of the rows after every transaction; the modules named `...Keeps` prove it transaction by
transaction. `Transactions` puts all transactions together and defines a run: a sequence of transactions at times that
never go back. `Conservation`, `Cancellation`, `Histories` and `Guarantees` prove what holds over every run;
`FundingFailures`, `RefundFailures` and `PayoutFailures` say from which states some run still leads to a given end.
`Platform` puts Pods side by side: however their transactions interleave, the shared treasury equals what all of them owe
(`Platform.SharedTreasuryCovers`). `Examples` and `FailureExamples` hold concrete Pods.

The modules named `...Rows`, with `SettlementAmounts` and `PayoutMoves`, state what each transaction and some sequences
of them do to the columns, without the functions that compute it: exactly when a transaction takes effect, is passed over
or throws, and every row afterwards. `VerdictRuns` follows a verdict from the review to the settlement.

The repositories update rows in place. `Database.Database` is a class with those rows as fields, and
`FundingRepository`, `CutoffRepository`, `TransferRepository`, `SettlementRepository` and `ActivityRepository` are its
methods, with the statements, loops, in-place sort and rollbacks of the code. Each is proved equal to its function on the
rows and keeps the invariants, so whatever is proved over runs holds of the methods. The table below names those with
loops, rollbacks or guards of their own; the others only carry out their function.

`SettlementRules` states the settlement arithmetic per member without loops; `SettlementCalculator` is the calculation
with its nested loops and overflow guards, proved against it. `Schedule`, `CanonicalContract` and `Streak` cover the
schedule and bounds of a published contract, its canonical form, and the streak counter.

Run `dafny verify dfyconfig.toml` to check everything.

## Results that differ from what one would expect

- Not every locked proportional Pod can settle. The deposit credit guard counts all credits of the Pod but compares them
  with the applied deposits only, so a Pod with one capacity-excluded depositor throws for ever
  (`Guarantees.OversubscribedPodNeverSettles`; `Examples.CannotBeSettled` is a concrete one). In final review a
  Pod settles exactly when no review is pending and it has no refund leg (`FinalizationGuards.FinalizeSucceedsIff`).
- That is the only obstacle: a Pod whose cutoff met the minimum settles exactly when no more members had funded than
  there are seats (`Guarantees.SettlesIffSeatsSuffice`; `Examples.CanBeSettled`).
- A refund reported as retryable-failed is never retried (`Guarantees.FailedRefundIsStuck`). A refund can still be paid
  exactly when it was not reported as failed or mismatched (`RefundFailures.RefundPaidIff`), and a refunding Pod can
  still be cancelled exactly when it has a refund leg and none was (`RefundFailures.PodCancelledIff`;
  `FailureExamples.FailedRefund`).
- A cutoff leaves a Pod refunding for ever with nothing to refund exactly when nobody had funded
  (`Guarantees.StrandedIffNobodyFunded`; `Examples.NobodyFunded`). Any other refunding Pod is cancelled exactly by its
  last refund, and then its books are even (`RefundsKeep.LastRefundCancels`, `Cancellation.CancelledPodStaysEven`).
- A mismatched payout is final, and its Pod never completes (`PayoutFailures.MismatchedPayoutIsStuck`). A payout can
  still be made exactly when it is not mismatched, and a run can still settle exactly when none of its payouts is
  (`PayoutFailures.PayoutPaidIff`, `PayoutFailures.RunSettlesIff`; `FailureExamples.MismatchedPayout`).
- A Pod with full refunds can be completed while it still owes them; locked, it always owes exactly its unconfirmed
  refunds (`Cancellation.AlphaPodAlwaysOwesRefunds`; `FailureExamples.CompletedOwing`).
- A deposit finalized in time is credited exactly when its membership still waits for it, so not once the cutoff has
  excluded it (`Guarantees.CreditSucceedsIff`; `Examples.TimelyButExcluded`).
- A wallet rejection overwrites a membership the cutoff excluded (`Examples.RejectedAfterCutoff`). Nothing else leaves a
  membership funding failed (`FundingFailures.FailsIffRejected`), and after enrollment it can still happen exactly while
  the wallet request is to come or open (`FundingFailures.FailsAfterEnrollmentIff`).
- The canonical form of a contract depends on its content alone exactly when no two keys of one object collate alike
  (`CanonicalContract.FormIsContentIff`; `CanonicalContract.TiedConfigurations`). The activity's configuration is not
  validated, so its keys can.
- The streak counter can miscount. After events in day order, the next check-in, in order or not, gives the run of its
  day, for every history the record may come from, exactly under `Streak.Certain` (`Streak.CountsRightIff`,
  `Streak.NextCountsIff`): it must not go back in time, except to day zero from a streak of one; and after a
  reconciliation has reset the streak it must also skip a day. After events in any order it is certain only for the first
  check-in or on the first two days there are (`Streak.CountsRightInAnyOrderIff`). `Streak.ResetForgets` is a check-in
  recorded with its own time after a reset, `Streak.OutOfOrderCounts` a counter ahead of the days after going back.

## Model

| member | source | states |
|---|---|---|
| `SettlementRules.BonusesExhaustPool` | packages/domain/src/settlement.ts:170-193 | The bonuses of the approved members add up to the forfeiture pool to the last luna |
| `SettlementRules.BonusesAreFair` | packages/domain/src/settlement.ts:170-193 | Two bonuses of an occurrence differ by at most one luna, the smaller identifier gets the extra one, and each is the quotient or one more |
| `SettlementRules.OccurrenceConserves` | packages/domain/src/settlement.ts:195-227 | The payouts of an occurrence add up to one slice per member |
| `SettlementRules.OutcomeIsBounded` | packages/domain/src/settlement.ts:177-216 | No amount of an outcome, nor the pool, is negative or exceeds a slice per member |
| `SettlementRules.TotalIsBounded` | packages/domain/src/settlement.ts:228-254 | No running member total exceeds the value of the occurrences added so far |
| `SettlementRules.BetterVerdictNeverLowersPayout` | packages/domain/src/settlement.ts:170-216 | With the others fixed, missed or rejected to protected to approved never lowers the payout; a protected slice is neither in the pool nor at risk |
| `SettlementRules.SettlementConserves` | packages/domain/src/settlement.ts:266-283 | Payouts per occurrence and in total equal what was deposited |
| `SettlementRules.SettlementIgnoresOrder` | packages/domain/src/settlement.ts:152-193 | Listing members or outcomes in another order changes no amount of anybody |
| `SettlementAmounts.OutcomeIsWorth` | packages/domain/src/settlement.ts:170-263 | Each outcome repeats the given verdict, and its five amounts, the pool, the recipients and the closing state are what the verdicts of the occurrence are worth |
| `SettlementAmounts.TotalsAreSums` | packages/domain/src/settlement.ts:228-255 | Each of the five totals of a member is the sum of that amount over the occurrences |
| `SettlementAmounts.TotalsByVerdicts` | packages/domain/src/settlement.ts:195-255 | A member keeps a slice for every occurrence it was approved or protected in and forfeits one for every other, together its deposit; restorations, bonuses and payout follow |
| `SettlementCalculator.CollectMembers` | packages/domain/src/settlement.ts:114-142 | Accepts exactly distinct members whose positive safe deposits equal the allocation |
| `SettlementCalculator.CollectOutcomes` | packages/domain/src/settlement.ts:152-168 | Accepts exactly one outcome per member and returns their verdicts |
| `SettlementCalculator.DealBonuses` | packages/domain/src/settlement.ts:170-193 | Dealing base and remainder in identifier order gives everyone the bonus of the rules |
| `SettlementCalculator.AddOutcomes` | packages/domain/src/settlement.ts:195-255 | The inner loop yields the outcome of every member by the rules and adds it to the running totals; no guard fails when everything fits |
| `SettlementCalculator.SettleOccurrence` | packages/domain/src/settlement.ts:146-263 | One occurrence by the rules; with room for a slice per member no guard can fail |
| `SettlementCalculator.SettleOccurrences` | packages/domain/src/settlement.ts:144-264 | All occurrences by the rules with the member totals; accepted input never fails |
| `SettlementCalculator.AddAll` | packages/domain/src/settlement.ts:271-280 | A guarded sum succeeds exactly when the sum is safe |
| `SettlementCalculator.AddTotals` | packages/domain/src/settlement.ts:271-283 | Both totals are the deposits; the check between them never fires |
| `SettlementCalculator.CalculateSettlement` | packages/domain/src/settlement.ts:102-292 | Succeeds exactly on well-formed input whose deposits add up to a safe integer, then returns the settlement of the rules; the conservation error is never raised |
| `Ledger.BalancesCancel` | packages/db/src/funding-repository.ts:415-429 | Double entry: over all accounts touched the balances cancel |
| `Ledger.TreasuryCoversLiabilities` | packages/db/src/funding-repository.ts:415-429 | The treasury asset equals the sum of all liabilities |
| `Funding.TableDecides` | packages/domain/src/funding.ts:92-182 | The state moves exactly along the rows of the transition table |
| `FundingKeeps.JoinKeeps` | packages/db/src/enrollment-repository.ts:93-188 | A new application or accepted invitation keeps the invariants |
| `FundingKeeps.DecideApplicationKeeps` | packages/db/src/enrollment-repository.ts:190-239 | A decision on an application keeps the invariants |
| `FundingKeeps.CreateIntentKeeps` | packages/db/src/funding-repository.ts:37-147 | Creating a deposit intent keeps the invariants: full amount, first opening as expiry, one live intent per membership |
| `FundingKeeps.WalletAttemptKeeps` | packages/db/src/funding-repository.ts:166-196 | Opening the wallet or rejecting there keeps the invariants |
| `FundingKeeps.TransactionHintKeeps` | packages/db/src/funding-repository.ts:198-235 | A transaction hint keeps the invariants, hashes unique |
| `FundingKeeps.FlagDepositKeeps` | packages/db/src/funding-repository.ts:258-286 | An exception keeps the invariants |
| `FundingKeeps.ObserveDepositKeeps` | packages/db/src/funding-repository.ts:288-352 | An observation keeps the invariants: chain position present, hashes unique |
| `FundingKeeps.FinalizeDepositKeeps` | packages/db/src/funding-repository.ts:354-375 | A finalization keeps the invariants |
| `FundingKeeps.CreditDepositKeeps` | packages/db/src/funding-repository.ts:377-450 | A credit keeps the invariants: one entry per deposit, and the participant account holds it |
| `FundingKeeps.AboutBalance` | packages/db/src/funding-repository.ts:415-448 | In a state in order every account holds exactly what its deposit, refund leg or entitlement says |
| `DepositRows.JoinByRows` | packages/db/src/enrollment-repository.ts:93-188 | When an application or invitation takes effect, and the membership row it leaves |
| `DepositRows.DecideApplicationByRows` | packages/db/src/enrollment-repository.ts:190-239 | Takes effect exactly on a waiting application of an open Pod, and leaves it accepted or rejected |
| `DepositRows.CreateIntentByRows` | packages/db/src/funding-repository.ts:37-147 | Exactly when an intent is created; of the full amount, expiring at the first opening, its membership waiting for it |
| `DepositRows.WalletAttemptByRows` | packages/db/src/funding-repository.ts:166-196 | The wallet opens on a new intent and is rejected only when open; the rejection frees the membership |
| `DepositRows.TransactionHintByRows` | packages/db/src/funding-repository.ts:198-235 | Taken exactly with the wallet open and the hash free, and leaves that hash |
| `DepositRows.FlagDepositByRows` | packages/db/src/funding-repository.ts:258-286 | Taken exactly before the deposit is final, and leaves that code; repeated it is passed over, another code throws |
| `DepositRows.ObserveDepositByRows` | packages/db/src/funding-repository.ts:288-352 | A taken observation leaves exactly the given hash, block and index, and moves no other row |
| `DepositRows.FinalizeDepositByRows` | packages/db/src/funding-repository.ts:354-375 | Taken exactly on an observed deposit, and leaves its time |
| `DepositRows.CreditDepositByRows` | packages/db/src/funding-repository.ts:377-450 | A late deposit goes to review; a timely one is credited exactly while its membership waits, with one entry of its amount |
| `DepositRows.DepositPath` | packages/db/src/funding-repository.ts:37-450 | Created, opened, hinted, observed, finalized and credited, a deposit ends with exactly what was reported last, its member funded and one entry of the full amount |
| `FundingRepository.CreateDepositIntent` | packages/db/src/funding-repository.ts:37-147 | Disclosure and contract guards, at most one live intent per membership, then intent and membership as specified; keeps the invariants |
| `FundingRepository.RecordDepositTransactionHint` | packages/db/src/funding-repository.ts:198-235 | Writes the hash; a violated unique index rolls everything back |
| `FundingRepository.RecordObservedDeposit` | packages/db/src/funding-repository.ts:288-352 | The claim on the hash is checked before the table, then hash and chain position are written; keeps the invariants |
| `FundingRepository.CreditFinalizedDeposit` | packages/db/src/funding-repository.ts:377-450 | Late deposits go to review; otherwise entry, intent and membership are written, and rolled back when the membership no longer waits |
| `Cutoff.ChainOrder` | packages/domain/src/funding.ts:209-218 | Lists each deposit once, none before one that precedes it by block, index and hash |
| `Cutoff.ChainOrderIsUnique` | packages/domain/src/funding.ts:209-218 | Deposits with different hashes have exactly one chain order |
| `CutoffRows.SeatByChain` | packages/db/src/cutoff-repository.ts:234-297 | By columns: a credited deposit is locked exactly when the minimum is met and fewer deposits than seats have a smaller block, then index, then hash; otherwise it is refunded in full |
| `CutoffRows.LockedIsEarlier` | packages/domain/src/funding.ts:209-218 | Every locked deposit has a smaller block, then index, then hash, than every excluded one |
| `CutoffRows.RosterListsSeats` | packages/db/src/cutoff-repository.ts:119-153 | The roster read back holds exactly the locked memberships, their deposits ascending by block, index and hash |
| `CutoffRows.CutoffListsSeats` | packages/db/src/cutoff-repository.ts:249-298 | So does the roster the cutoff itself returns |
| `CutoffRows.OthersByRows` | packages/db/src/cutoff-repository.ts:22-49 | What the cutoff makes of every membership without a credited deposit, of every other deposit and of the Pod |
| `CutoffRows.CutoffByState` | packages/db/src/cutoff-repository.ts:169-233 | Runs exactly on an open Pod from its first opening on, is passed over once decided, and otherwise throws |
| `CutoffRows.LateByRows` | packages/db/src/cutoff-repository.ts:209-233 | A credited deposit without a timely finalization would go to review as finalized after the cutoff |
| `CutoffRows.CancelByRows` | packages/db/src/cutoff-repository.ts:300-343 | Runs exactly for the creator of an open Pod; what it makes of every membership, deposit and refund leg and of the Pod |
| `CutoffFates.CutoffNeverFails` | packages/db/src/cutoff-repository.ts:209-233 | A due cutoff never throws: no credited deposit is late or lacks its chain position |
| `CutoffFates.CutoffDecidesFate` | packages/db/src/cutoff-repository.ts:249-297 | Every credited deposit has one fate: the first min(count, maximum) in chain order are locked if the minimum is met, all others refunded in full; every other membership is closed or left, the ledger gains exactly the refund entries in order, and no other row changes |
| `CutoffFates.ReplayReturnsSameRoster` | packages/db/src/cutoff-repository.ts:119-153 | Replaying the cutoff at once writes nothing and reads back the same roster in the same order |
| `CutoffFates.ApplyCutoffKeeps` | packages/db/src/cutoff-repository.ts:169-298 | The cutoff keeps the invariants |
| `CutoffFates.CancelRefundsAll` | packages/db/src/cutoff-repository.ts:300-343 | A cancellation refunds every credited deposit in full, whatever order the query returns |
| `CutoffFates.CancelEnrollmentKeeps` | packages/db/src/cutoff-repository.ts:300-343 | A cancellation keeps the invariants |
| `Cancellation.CutoffOutcome` | packages/db/src/cutoff-repository.ts:249-298 | A due cutoff locks exactly when the minimum is met; otherwise it refunds every credited deposit, and has nothing to refund exactly when nobody had funded |
| `Cancellation.ApplyIsTidy` | packages/db/src/transfer-repository.ts:1037-1055 | Every transaction keeps: no refund leg before the cutoff; a refunding Pod has an open leg unless it never had any; a cancelled Pod has none open |
| `Cancellation.HistoryIsTidy` | packages/db/src/transfer-repository.ts:1037-1055 | The same at every point of every run |
| `Cancellation.RefundingPodOwesRefunds` | packages/db/src/transfer-repository.ts:978-1058 | While a Pod is refunding the treasury holds exactly its unconfirmed refunds |
| `Cancellation.CancelledPodIsEven` | packages/db/src/transfer-repository.ts:1037-1055 | A cancelled Pod has confirmed every refund, and treasury and every account are at zero |
| `Cancellation.CancelledPodStaysEven` | packages/db/src/transfer-repository.ts:978-1058 | The same at every point of every run at which the Pod is cancelled |
| `Cancellation.AlphaPodOwesRefunds` | packages/db/src/cutoff-repository.ts:249-290 | A locked or completed Pod with full refunds holds in the treasury exactly its unconfirmed refunds |
| `Cancellation.AlphaPodAlwaysOwesRefunds` | packages/db/src/cutoff-repository.ts:249-290 | The same at every point of every run once such a Pod was locked |
| `FailureExamples.CompletedOwing` | packages/db/src/activity-repository.ts:262-295 | A concrete Pod with full refunds that the worker completes with both refunds still owed |
| `CutoffRepository.SortByChain` | packages/db/src/cutoff-repository.ts:234-247 | The in-place sort leaves the deposits in chain order |
| `CutoffRepository.Rank` | packages/db/src/cutoff-repository.ts:234-247 | The sorted list is the one chain order of the deposits |
| `CutoffRepository.CurrentResult` | packages/db/src/cutoff-repository.ts:119-153 | The roster read back is the locked deposits in chain order, and the refund legs are all those of the Pod, each once |
| `CutoffRepository.CloseEntryArtifacts` | packages/db/src/cutoff-repository.ts:22-49 | The two updates close every open membership and nothing else |
| `CutoffRepository.QueueDepositRefund` | packages/db/src/cutoff-repository.ts:51-117 | Leg, entry, deposit and membership after a queued refund |
| `CutoffRepository.SelectValid` | packages/db/src/cutoff-repository.ts:209-233 | The loop keeps exactly the timely deposits, sends the others to review, and stops at one without its chain position |
| `CutoffRepository.LockAndRefund` | packages/db/src/cutoff-repository.ts:249-290 | The two loops lock the first deposits, refund the rest in chain order and return the legs of the rest |
| `CutoffRepository.ApplyPodCutoff` | packages/db/src/cutoff-repository.ts:169-298 | Is the cutoff of its specification on the rows; returns the roster in ascending block, index and hash, also when replayed, and the refund legs: in chain order at the cutoff, all of them on a replay |
| `CutoffRepository.CancelEnrollmentPod` | packages/db/src/cutoff-repository.ts:300-343 | Is the cancellation of its specification for the order the query returned |
| `PayoutLegs.ActKeeps` | packages/db/src/transfer-repository.ts:47-122 | Attempts stay numbered 1..k, all but the last replaceable, the leg mirrors the last unless it waits, the log replays to the state, and claims stay bounded |
| `PayoutLegs.ActEvolves` | packages/db/src/transfer-repository.ts:251-571 | A closed attempt never changes, numbers and bytes stay, the log only grows, a confirmed leg is final |
| `PayoutLegs.ActLogs` | packages/db/src/transfer-repository.ts:110-119 | Every move appends exactly one event from the old to the new state |
| `PayoutLegs.ClaimsAreBounded` | packages/db/src/transfer-repository.ts:439-515 | Each attempt is claimed at most once, a leg at most once more than retries were granted |
| `PayoutLegs.AtMostOneConfirmed` | packages/db/src/transfer-repository.ts:658-762 | Only the last attempt can be confirmed, and then the leg is |
| `PayoutMoves.ActionLeads` | packages/db/src/transfer-repository.ts:251-762 | For each action: from which leg and last attempt it takes effect, when it is refused, and the state it leaves on leg and attempt, the attempts and the event |
| `PayoutMoves.ActOnRows` | packages/db/src/transfer-repository.ts:251-623 | The same on the rows of the Pod, of which nothing but the leg changes |
| `PayoutMoves.ConfirmOnRows` | packages/db/src/transfer-repository.ts:658-762 | The same for the confirmation, which also confirms the entitlement |
| `PayoutMoves.WithoutLeg` | packages/db/src/transfer-repository.ts:353-437 | Without a leg a retry throws and everything else is passed over |
| `PayoutMoves.ClaimThenBroadcast` | packages/db/src/transfer-repository.ts:439-571 | After a successful claim leg and attempt are unknown, and the broadcast mark of the same attempt takes effect and leaves both broadcast |
| `PayoutMoves.PayoutPath` | packages/db/src/transfer-repository.ts:251-830 | Prepared, claimed, broadcast and confirmed, a new leg ends with one confirmed attempt, the four events in order, and its entitlement confirmed |
| `TransferRepository.PersistPayoutTransferAttempt` | packages/db/src/transfer-repository.ts:251-351 | A queued leg gets its next numbered attempt under the matching reference; a leg with attempts that is not queued is returned as it is; anything else throws; keeps the invariants |
| `TransferRepository.MarkPayoutTransferBroadcast` | packages/db/src/transfer-repository.ts:517-571 | Is the broadcast mark of its specification, with the rollback when the leg is not unknown |
| `TransferRepository.ConfirmPayoutTransfer` | packages/db/src/transfer-repository.ts:658-830 | Is the confirmation of its specification: entry, attempt, entitlement, leg, event, then run and Pod |
| `PayoutsKeep.EntitlementAlwaysMatches` | packages/db/src/transfer-repository.ts:701-708 | The entitlement guard never throws; only the leg can refuse a confirmation |
| `PayoutsKeep.ConfirmPayoutPaysOnce` | packages/db/src/transfer-repository.ts:710-827 | A confirmation pays exactly the entitlement, moves no other account, settles the run and completes the Pod exactly when it was the last, and repeated changes nothing |
| `PayoutsKeep.ConfirmPayoutKeeps` | packages/db/src/transfer-repository.ts:658-830 | A payout confirmation keeps the invariants |
| `PayoutsKeep.PayoutActKeeps` | packages/db/src/transfer-repository.ts:251-623 | Every other payout transaction keeps the invariants |
| `RefundsKeep.ConfirmRefundPaysOnce` | packages/db/src/transfer-repository.ts:978-1058 | A refund confirmation pays exactly the deposit back, moves no other account, and repeated changes nothing |
| `RefundsKeep.LastRefundCancels` | packages/db/src/transfer-repository.ts:1037-1055 | A refunding Pod is cancelled exactly when its last refund is confirmed |
| `RefundsKeep.ConfirmRefundKeeps` | packages/db/src/transfer-repository.ts:978-1058 | A refund confirmation keeps the invariants |
| `RefundsKeep.PrepareRefundKeeps` | packages/db/src/transfer-repository.ts:832-876 | Preparing a refund keeps the invariants |
| `RefundsKeep.ReportRefundKeeps` | packages/db/src/transfer-repository.ts:906-976 | The refund marks keep the invariants |
| `RefundRows.PrepareByRows` | packages/db/src/transfer-repository.ts:832-876 | A queued refund takes the bytes; the same bytes again are passed over; anything else throws |
| `RefundRows.BroadcastByRows` | packages/db/src/transfer-repository.ts:878-904 | Only a prepared refund is broadcast |
| `RefundRows.ReportByRows` | packages/db/src/transfer-repository.ts:906-976 | Exactly a prepared, broadcast or unknown refund takes the reported state |
| `RefundRows.ConfirmByRows` | packages/db/src/transfer-repository.ts:978-1058 | Exactly when a confirmation takes effect, and what it leaves of leg, deposit, membership, ledger and Pod |
| `RefundRows.RefundPath` | packages/db/src/transfer-repository.ts:832-1058 | Prepared, broadcast and confirmed, a refund ends with the bytes it was prepared with and its deposit refunded |
| `TransferRepository.MarkRefundTransferPrepared` | packages/db/src/transfer-repository.ts:832-876 | Is the preparation of its specification: the same bytes again are accepted, other bytes throw |
| `TransferRepository.MarkRefundTransfer` | packages/db/src/transfer-repository.ts:906-976 | Is the mark of its specification: only a prepared, broadcast or unknown refund moves |
| `TransferRepository.ConfirmRefundTransfer` | packages/db/src/transfer-repository.ts:978-1058 | Is the confirmation of its specification: entry, deposit, membership, leg, then Pod |
| `FinalizationGuards.RosterIsFunded` | packages/db/src/settlement-repository.ts:330-383 | In final review the roster and deposit guards cannot fail |
| `FinalizationGuards.CreditsMatchIff` | packages/db/src/settlement-repository.ts:385-407 | The deposit credit guard passes exactly when the Pod has no refund leg |
| `FinalizationGuards.InputIsAccepted` | packages/db/src/settlement-repository.ts:462-489 | The calculation accepts the frozen input; no safe-integer check can fail for a published contract and a locked roster |
| `FinalizationGuards.FinalizeSucceedsIff` | packages/db/src/settlement-repository.ts:283-489 | A Pod in final review settles exactly when no review is pending and it has no refund leg |
| `SettlementPostings.NetOfOutcome` | packages/db/src/settlement-repository.ts:568-676 | What the one to four entries of an outcome do to every account |
| `SettlementPostings.PoolIsEmptied` | packages/db/src/settlement-repository.ts:611-676 | The bonus pool of an occurrence gives back all it receives |
| `SettlementPostings.NetOfPostings` | packages/db/src/settlement-repository.ts:520-678 | All postings move each deposit out, each payout in, and leave occurrence and bonus accounts as they were |
| `SettlementPostings.PostingKeys` | packages/db/src/settlement-repository.ts:568-676 | All posted keys differ and are settlement keys, so the unique index never fires |
| `FinalizationKeeps.SomebodyIsPaid` | packages/db/src/settlement-repository.ts:691-712 | Some member has a positive payout |
| `FinalizationKeeps.FreshRunIsUnresolved` | packages/db/src/settlement-repository.ts:491-507 | A fresh run is executing and has an unresolved entitlement |
| `FinalizationKeeps.FinalizeClosesBooks` | packages/db/src/settlement-repository.ts:520-737 | Participant, occurrence and bonus liabilities end at zero; each payout liability is the entitlement by the rules, which is the amount of its one leg or zero without one |
| `FinalizationKeeps.EveryOutcomeIsFrozen` | packages/db/src/settlement-repository.ts:436-461 | Every occurrence and roster member has a frozen outcome, read off its submission |
| `FinalizationRows.FinalizeByState` | packages/db/src/settlement-repository.ts:283-489 | Passed over once there is a run, takes effect exactly in final review without pending review and refund leg, and otherwise throws |
| `FinalizationRows.FrozenByRow` | packages/db/src/settlement-repository.ts:436-461 | The frozen outcome is approved, rejected or protected exactly for a row approved, rejected or timed out, and missed exactly for a draft or no row |
| `FinalizationRows.EntitlementByRows` | packages/db/src/settlement-repository.ts:680-737 | Deposit, principal, forfeiture, restoration, bonus, payout and leg of a member by its submission rows |
| `FinalizationRows.ApprovedThroughout` | packages/db/src/settlement-repository.ts:680-737 | Approved in every occurrence, a member is paid at least its deposit |
| `FinalizationRows.LostThroughout` | packages/db/src/settlement-repository.ts:680-737 | Neither approved nor protected in any occurrence, with somebody approved in each, a member is paid nothing and has no leg |
| `FinalizationRows.LedgerByRows` | packages/db/src/settlement-repository.ts:520-678 | Which settlement entries each occurrence and member has, by the submission row, and between which accounts each moves how much |
| `FinalizationKeeps.FinalizeKeeps` | packages/db/src/settlement-repository.ts:283-743 | Finalization keeps the invariants |
| `SettlementRepository.CheckFundedRoster` | packages/db/src/settlement-repository.ts:330-383 | The guards in the order of the code accept exactly a funded roster |
| `SettlementRepository.CheckCredits` | packages/db/src/settlement-repository.ts:385-407 | The counting loops accept exactly matching deposit credits |
| `SettlementRepository.PostOutcome` | packages/db/src/settlement-repository.ts:568-676 | Appends the entries of one outcome |
| `SettlementRepository.RecordOccurrences` | packages/db/src/settlement-repository.ts:520-678 | The nested loops append all postings and freeze all outcomes |
| `SettlementRepository.RecordMembers` | packages/db/src/settlement-repository.ts:680-737 | The member loop inserts an entitlement each and a queued leg where there is a payout |
| `SettlementRepository.FinalizePodSettlement` | packages/db/src/settlement-repository.ts:283-743 | Is the finalization of its specification on the rows, and keeps the invariants |
| `LifecycleKeeps.WindowsOnlyAdvance` | packages/domain/src/activity.ts:28-45 | A window opens, passes its deadline and closes at exactly the published times and never goes back |
| `LifecycleKeeps.RunTransitionsKeeps` | packages/db/src/activity-repository.ts:166-327 | The worker transitions keep the invariants |
| `LifecycleKeeps.FinalReviewIsReady` | packages/db/src/activity-repository.ts:201-237 | Whenever the Pod reaches final review, every occurrence is numbered, closed and open for review |
| `LifecycleKeeps.SaveDraftKeeps` | packages/db/src/activity-repository.ts:502-730 | Saving a draft keeps the invariants |
| `LifecycleKeeps.SubmitKeeps` | packages/db/src/activity-repository.ts:770-858 | Submitting evidence keeps the invariants |
| `LifecycleKeeps.DecideKeeps` | packages/db/src/activity-repository.ts:1023-1158 | A decision keeps the invariants |
| `LifecycleKeeps.ProtectKeeps` | packages/db/src/activity-repository.ts:92-162 | Protecting timed-out reviews keeps the invariants |
| `LifecycleKeeps.SubmissionsAreFrozen` | packages/db/src/activity-repository.ts:516-524 | With a run and time not going back, no submission transaction moves a row |
| `ReviewRows.SaveDraftByRows` | packages/db/src/activity-repository.ts:502-730 | Exactly when a draft is saved, and the row it leaves |
| `ReviewRows.SubmitByRows` | packages/db/src/activity-repository.ts:770-858 | Exactly a draft whose window is open is submitted, under review until 86400000 milliseconds later |
| `ReviewRows.DecideByRows` | packages/db/src/activity-repository.ts:1023-1158 | Before the hard deadline an approval leaves the row approved, a rejection rejected, and anything else throws; from the deadline on every decision leaves it timed out; no other row changes |
| `ReviewRows.ProtectByRows` | packages/db/src/activity-repository.ts:92-162 | Times out exactly the selected rows under review whose deadline has come |
| `ReviewRows.ReviewPath` | packages/domain/src/activity.ts:99-117 | Saved, submitted and decided within a day, a submission has exactly the decision of the creator |
| `ReviewRows.TransitionsByRows` | packages/db/src/activity-repository.ts:166-327 | The Pod state, every window and every membership after a run of the worker, by states and times alone |
| `VerdictRuns.OnlyFinalizationStartsRun` | packages/db/src/settlement-repository.ts:491-507 | Of all transactions only a successful finalization starts a run |
| `VerdictRuns.DecidedIsSettledBy` | packages/db/src/settlement-repository.ts:436-461 | Over every run, a decided submission is settled by its verdict |
| `VerdictRuns.DecisionIsSettledBy` | packages/db/src/activity-repository.ts:1023-1158 | A decision of the creator in time is the frozen outcome of every later settlement |
| `ActivityRepository.AdvanceOccurrences` | packages/db/src/activity-repository.ts:201-215 | The loop puts every window into its state and counts those that moved |
| `ActivityRepository.RunOccurrenceTransitions` | packages/db/src/activity-repository.ts:166-327 | Is the transition of its specification for this Pod, and keeps the invariants |
| `ActivityRepository.SaveSubmissionDraft` | packages/db/src/activity-repository.ts:490-732 | Is the draft transaction of its specification |
| `ActivityRepository.SubmitOccurrenceEvidence` | packages/db/src/activity-repository.ts:770-858 | Is the submission of its specification, with the hard deadline a day later |
| `ActivityRepository.DecideSubmissionAsCreator` | packages/db/src/activity-repository.ts:1023-1158 | Is the decision of its specification: past the hard deadline the review is protected instead |
| `ActivityRepository.ProtectTimedOutReviewBatch` | packages/db/src/activity-repository.ts:92-162 | The loop protects exactly the due rows it was given |
| `Database.Database.constructor` | packages/domain/src/index.ts:451-455 | A published Pod starts with every invariant |
| `Transactions.ApplyKeeps` | packages/db/src/funding-repository.ts:377-450 | Every transaction keeps the invariants |
| `Transactions.HistoryKeeps` | packages/db/src/transfer-repository.ts:658-830 | Over every run the invariants hold after each transaction |
| `Conservation.TreasuryCoversAll` | packages/db/src/funding-repository.ts:415-448 | The treasury equals the outstanding participant, refund and payout liabilities |
| `Conservation.NothingIsNegative` | packages/db/src/cutoff-repository.ts:91-109 | No liability is ever negative |
| `Conservation.TreasuryAlwaysCovers` | packages/db/src/transfer-repository.ts:991-1005 | At every point of every run the treasury equals what is outstanding and every account holds exactly what its row says |
| `Conservation.SettledPodIsEven` | packages/db/src/transfer-repository.ts:710-725 | Once a run is settled, treasury and every account are at zero |
| `Conservation.SettledPodStaysEven` | packages/db/src/transfer-repository.ts:710-725 | The same at every settled point of every run |
| `Platform.SharedTreasuryCovers` | packages/db/src/funding-repository.ts:415-448 | However the transactions of all Pods interleave, the treasury they share equals the outstanding liabilities of all of them |
| `Histories.HistoryIsForward` | packages/db/src/transfer-repository.ts:47-122 | Between any two points of a run: entries, bytes, closed attempts, verdicts, outcomes, amounts and terminal states never change or go back |
| `Guarantees.RunStateIsExact` | packages/db/src/transfer-repository.ts:763-807 | A run executes exactly while some entitlement is unresolved, is settled exactly when none is, and the Pod is completed exactly then |
| `Guarantees.OutcomesStayFrozen` | packages/db/src/settlement-repository.ts:409-461 | Once a run exists, outcomes and submissions never change and agree in every later state |
| `Guarantees.VerdictsAreFinal` | packages/domain/src/activity.ts:99-117 | An approved, rejected or protected submission never changes |
| `Guarantees.RefundLegBlocksSettlement` | packages/db/src/settlement-repository.ts:394-396 | A Pod with a refund leg never gets a run |
| `Guarantees.OversubscribedPodNeverSettles` | packages/db/src/settlement-repository.ts:394-396 | With more funded members than seats the Pod locks and then never settles |
| `Guarantees.SettlesIffSeatsSuffice` | packages/db/src/settlement-repository.ts:385-407 | A Pod whose cutoff met the minimum settles in final review, with no review pending, exactly when at the cutoff no more members had funded than there are seats |
| `Examples.CannotBeSettled` | packages/db/src/settlement-repository.ts:394-396 | A concrete Pod in order, reviews done, that the finalization refuses |
| `Examples.CanBeSettled` | packages/db/src/settlement-repository.ts:385-407 | The same Pod without the excluded depositor is settled |
| `Guarantees.FailedRefundIsStuck` | packages/db/src/transfer-repository.ts:930-976 | A failed or mismatched refund leg never changes again and its deposit stays refund pending |
| `RefundFailures.RefundPaidIff` | packages/db/src/transfer-repository.ts:832-1058 | In some run from here a refund is confirmed exactly when it was not reported as failed or mismatched |
| `RefundFailures.FailedRefundBlocksCancellation` | packages/db/src/transfer-repository.ts:1037-1055 | A Pod with a failed refund is never cancelled |
| `RefundFailures.PodCancelledIff` | packages/db/src/transfer-repository.ts:1037-1055 | In some run from here a refunding Pod is cancelled exactly when it has a refund leg and none has failed or mismatched |
| `FailureExamples.FailedRefund` | packages/db/src/transfer-repository.ts:906-976 | A concrete cancelled enrollment whose refund is reported as failed: never paid, the Pod never cancelled |
| `PayoutFailures.MismatchedPayoutIsStuck` | packages/db/src/transfer-repository.ts:353-437 | A mismatched payout never changes again, its run stays executing and its Pod in final review |
| `PayoutFailures.PayoutPaidIff` | packages/db/src/transfer-repository.ts:353-437 | In some run from here a payout is confirmed exactly when it is not mismatched |
| `PayoutFailures.RunSettlesIff` | packages/db/src/transfer-repository.ts:763-807 | In some run from here a settlement run settles exactly when none of its payouts is mismatched |
| `FailureExamples.MismatchedPayout` | packages/db/src/transfer-repository.ts:47-122 | A concrete settlement with a payout reported as mismatched: never paid, never settled |
| `Guarantees.StrandedIffNobodyFunded` | packages/db/src/cutoff-repository.ts:286-290 | At any time after its cutoff a Pod is refunding without a leg exactly when nobody had funded at the cutoff |
| `Examples.NobodyFunded` | packages/db/src/cutoff-repository.ts:286-290 | A published Pod nobody joined is refunding with nothing to refund after its cutoff |
| `Guarantees.LaterReplayReturnsSame` | packages/db/src/cutoff-repository.ts:119-153 | However late the cutoff of a locked Pod is replayed, it writes nothing and returns the roster of the cutoff in the same order and the refund legs of the cutoff |
| `Guarantees.StrandedPodStays` | packages/db/src/cutoff-repository.ts:286-290 | A refunding Pod without a leg never leaves that state |
| `Guarantees.CreditedDepositFacts` | packages/db/src/funding-repository.ts:377-448 | A credited deposit has its chain position and a unique hash, was timely, is the one its membership points to; the membership has otherwise only rejected ones |
| `Guarantees.CreditSucceedsIff` | packages/db/src/funding-repository.ts:436-447 | A timely deposit is credited exactly when its membership still waits, never after enrollment |
| `Examples.TimelyButExcluded` | packages/db/src/funding-repository.ts:436-447 | A deposit final before the cutoff, its membership excluded there, whose credit throws afterwards |
| `FundingFailures.FailsIffRejected` | packages/db/src/funding-repository.ts:166-196 | Of all transactions exactly the rejection of the open wallet request of its deposit leaves a membership funding failed, whatever the state of Pod and membership |
| `FundingFailures.FailsAfterEnrollmentIff` | packages/db/src/funding-repository.ts:166-196 | After enrollment a membership can still end in funding failed in some run exactly when the wallet request of its deposit is still to come or open |
| `Examples.RejectedAfterCutoff` | packages/db/src/funding-repository.ts:188-193 | A membership the cutoff excluded, with its wallet request open, that is funding failed after the rejection |
| `Guarantees.PaidExactlyOnce` | packages/db/src/transfer-repository.ts:710-725 | A payout entry exists exactly for a confirmed leg, once, for exactly the entitlement |
| `Guarantees.LogsAreExact` | packages/db/src/transfer-repository.ts:752-761 | Each count in a leg log is the number of transactions that took effect in the run |
| `Guarantees.ClaimsAreBounded` | packages/db/src/transfer-repository.ts:439-515 | Over any run an attempt is claimed at most once, a leg at most once more than retries granted, and confirmed at most once |
| `Schedule.MaterializeOccurrences` | packages/domain/src/index.ts:315-359 | Fails exactly on reversed dates or a malformed cutoff; otherwise exactly the chosen dates in range, numbered, with the windows of their days |
| `Schedule.ScheduleIsUnique` | packages/domain/src/index.ts:334-356 | There is only one such list |
| `Schedule.BuildPublishedContract` | packages/domain/src/index.ts:373-412 | Publishes exactly complete drafts with an occurrence whose largest pool is safe, with money bounds and schedule |
| `Schedule.ScheduleIsCalendar` | packages/domain/src/index.ts:334-356 | A schedule has ordered disjoint windows with deadlines inside |
| `Schedule.WeekdaysFollow` | packages/domain/src/index.ts:334-343 | Day zero is a Thursday, and weekdays follow each other |
| `Schedule.OccurrenceByDate` | packages/domain/src/index.ts:334-356 | The published row of a date: chosen weekday in range, number, opening, closing and deadline |
| `Schedule.PublishedPodIsInOrder` | packages/domain/src/index.ts:404-455 | A Pod published from a draft satisfies every invariant |
| `CanonicalContract.SortIsStable` | packages/domain/src/index.ts:464 | Keys that tie keep their order |
| `CanonicalContract.SortedThenListed` | packages/domain/src/index.ts:461-466 | Sorting by collation and listing the object built from it, array indices first by number, is one stable sort, whatever place indices take in the collation |
| `CanonicalContract.CanonicalIsIdempotent` | packages/domain/src/index.ts:458-469 | The canonical form is its own canonical form |
| `CanonicalContract.FormTellsContent` | packages/domain/src/index.ts:458-473 | Equal canonical forms have the same content |
| `CanonicalContract.ContentFixesForm` | packages/domain/src/index.ts:458-473 | Without tied keys, the same content has the same canonical form |
| `CanonicalContract.FormIsContentIff` | packages/domain/src/index.ts:458-473 | The form depends on the content alone exactly when no two keys of one object collate alike, at any depth |
| `CanonicalContract.TiedConfigurations` | packages/domain/src/index.ts:458-473 | Two contracts of one content, their configuration naming two keys that collate alike in different order, have different forms |
| `Streak.StreakRecord.RecordSuccessfulCheckIn` | dotnet/Pods.Domain/Entities/StreakRecord.cs:28-57 | The new state of all four fields |
| `Streak.StreakRecord.ResetStreakIfBroken` | dotnet/Pods.Domain/Entities/StreakRecord.cs:59-66 | The new state of all four fields |
| `Streak.RunIsMaximal` | dotnet/Pods.Domain/Entities/StreakRecord.cs:34-42 | The declarative run is the largest block of consecutive days ending at a day |
| `Streak.StreakIsRun` | dotnet/Pods.Domain/Entities/StreakRecord.cs:28-57 | In day order the current streak is the run ending at the check-in and the longest is the longest run so far, without overflow |
| `Streak.ReconciliationsDoNotMatter` | dotnet/Pods.Domain/Entities/StreakRecord.cs:59-66 | Reconciliations change nothing after a later check-in |
| `Streak.TotalCounts` | dotnet/Pods.Domain/Entities/StreakRecord.cs:28-31 | The total is the number of check-ins, in whatever order, as 32 bits hold it |
| `Streak.ReconciledStreakIsAlive` | dotnet/Pods.Domain/Entities/StreakRecord.cs:59-66 | After a reconciliation in day order the streak is the run ending that day, or else the day before, or none |
| `Streak.CountsRightIff` | dotnet/Pods.Domain/Entities/StreakRecord.cs:34-55 | For every record some days are behind of: the next check-in gives the run of its day, whatever those days, exactly when it does not go back, or goes back to day zero from a streak of one; after a reset exactly when it skips a day |
| `Streak.ExplainableIff` | dotnet/Pods.Domain/Entities/StreakRecord.cs:34-42 | Some days are behind a record exactly when its streak is not longer than there were days |
| `Streak.NextCountsIff` | dotnet/Pods.Domain/Entities/StreakRecord.cs:28-66 | The same for the record any history in day order leaves, resets included, whose own days are among those behind it |
| `Streak.CountsRightInAnyOrderIff` | dotnet/Pods.Domain/Entities/StreakRecord.cs:34-55 | For the record of any history in any order: the next check-in gives the run of its day, whatever days were seen, exactly when it is the first, or the streak is one and it is on day zero, or on day one after day zero |
| `Streak.ResetForgets` | dotnet/Pods.Domain/Entities/StreakRecord.cs:59-66 | After a reset, a check-in on the next day gives one instead of two, and on the same day zero instead of one |
| `Streak.OutOfOrderCounts` | dotnet/Pods.Domain/Entities/StreakRecord.cs:34-55 | A check-in that goes back gives a streak longer than the run |

## Left out

- One Pod at a time, except for the shared treasury (`Platform`): the worker's queries run over all Pods, the model over
  the rows of one. Deposit hashes are unique across Pods in the schema and across the deposits of the Pod here.
- Identifiers are their rank in the `localeCompare` order, hashes likewise; rank 0 is the empty string. Collation ties
  are modelled only for the keys of a contract.
- Rows found by user and Pod are found by membership; the pair is unique. A payout leg is known by its member and a
  refund leg by its deposit, as their idempotency keys say.
- Transactions are atomic. Row locks, isolation levels and truly concurrent confirmations are not part of this model.
- Unique columns other than hashes and keys (references, attempt references), wallet checks, evidence and text
  validation, authority over reviews and the 100-row limit of the protection query are inputs of the transactions.
- Timestamps other than those that decide something, error codes, reasons, wallets, networks, conversations and
  realtime events are not modelled; all deposits are on testnet, as payout legs always are.
- CutoffRepository.ApplyPodCutoff: a replay returns the refund legs in the order of their creation time, a cutoff in
  chain order; the model gives them each once, in chain order only for the cutoff itself.
- CutoffRepository.CurrentResult: the order of the refund legs by creation time is not modelled.
- CutoffRepository.CloseEntryArtifacts: the application and invitation rows it closes beside the memberships are not
  modelled, because nothing on the money path reads them afterwards.
- The copies a settlement run stores of its totals, pools and the five amounts of each outcome are not rows of the model;
  `SettlementAmounts.OutcomeIsWorth` says what they are, and entitlements and ledger carry them.
- FundingKeeps.JoinKeeps: application answers, invitation tokens, visibility and the visitor disclosure are not
  modelled, because only the membership row they create matters here.
- Schedule.MaterializeOccurrences: time zone arithmetic is a function from days to instants, increasing and with the
  cutoff inside its day, because the calendar library is not part of this model.
- Schedule.BuildPublishedContract: template fields, names and the visibility-specific checks of a draft are not
  modelled, and the amount arrives parsed.
- CanonicalContract.FormIsContentIff: the final `JSON.stringify` is not modelled. Its text determines the form only when
  no array holds an undefined entry, which it writes as null. Scalars are numbers here.
- Commitments of an occurrence, chat projections, verifier overrides and the listing queries are simple rows and
  filters without state of their own.
- Liveness: what some run can still reach is stated, not what the worker eventually does.
- Web, signing, RPC, profiles, messaging, moderation and the rest of the .NET solution.
