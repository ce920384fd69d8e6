# Payment channels: proofs about the accounting, the two runtimes and the execution protocol

A payment channel holds funds in a vault. Cumulative vouchers raise the activated right A, settlements pay out S, and
after a close with a claim window the sender takes back R of what was never activated. This project models the code
that guards those moves and proves what it keeps over whole runs.

The model has seven parts.

- **Accounting and the close pipeline** (`Channels`, `ClosePipeline`, `CloseTheorems`, `CloseAnswers`,
  `ChannelLifecycle`, `LifecycleTheorems`, `LifecycleExample`). Snapshot validation, close request, freeze, refund
  projection, finalization. A channel's whole life keeps F = V + S + R and 0 <= S <= A <= F - R.
- **Refunds** (`RefundStore`, `RefundTheorems`, `RefundConservation`, `RefundExactness`, `RefundAnswers`,
  `RefundProvenance`, `RefundRuntime`). The table of refunds, its reservations and its completed high-water mark. The
  bound against F - A holds when the registered freezes agree on F and A; `RefundExactness` says exactly when it holds
  otherwise.
- **Settlements and the executor** (`SettlementStore`, `SettlementTheorems`, `SettlementReservations`,
  `SettlementExactness`, `SettlementOvertaking`, `SettlementPublic`, `SettlementWitnesses`, `Executor`,
  `SettlementExecution`, `SettlementGuarantees`, `SettlementWorlds`, `SettlementReopening`, `SettlementAnswers`,
  `SettlementProvenance`, `ExecutorAnswers`, `SubmissionAnswers`, `SettlementRuntime`). `submit` and `recover` are
  several transactions with an executor call between them, so here they are threads whose steps interleave freely,
  lose responses and die. Two bounds the code does not always keep are characterised exactly: from which tables they
  survive every continuation, and which guard at registration would keep them.
- **The failure lab** (`Hashes`, `HashChain`, `FailureLab`, `FailureLabTheorems`, `FailureLabExactness`,
  `FailureLabAnswers`, `FailureLabRuntime`). The same protocol over a simulated chain, with a crash possible between
  any two transactions and a hash-chained log.
- **Vouchers** (`Vouchers`, `VoucherLedger`, `VoucherTheorems`, `VoucherAnswers`, `VoucherRuntime`).
- **Encodings** (`LittleEndian`, `StateCodec`, `StateCursors`, `Base58`, `Timestamps`).
- **Authorizations and source reconciliation** (`AuthorizationStore`, `AuthorizationTheorems`, `AuthorizationAnswers`,
  `AuthorizationRuntime`, `Reconciliation`).

Where the source updates tables in place, a class holds the tables and each method's postcondition equates the new
tables and the reply with a step function. What that step promises is stated apart from its body in the `...Answers`
modules: exactly which calls take effect and what they leave, and that every refusal gives a reason that is so. The
`...Provenance` modules follow it through whole runs: what a row shows was put there by a call entitled to. The other
theorems are about runs of those steps. Pure validators are functions.

## Conventions

- Each write transaction is one step. A refusal leaves the tables as they were, except where the source commits before
  it raises; those writes are part of the step.
- A hash that links one artifact to another is represented by the artifact itself. Where a hash is compared with a
  fixed word or stored as text (the event chain, the voucher hash), it is a function parameter, assumed
  collision-free.
- `wellFormed` on a record is the outcome of its closed-key, literal and pattern checks.
- What signature, authorization and observation verifiers answer is a parameter of the call, and so is the clock.
- Amounts are natural numbers. Validators accept u64, and an amount beyond SQLite's signed 64 bits is refused as an
  overflow at the insert.
- Timestamps are whole seconds. `RequestClose` and `MakeRefundRequest` compare two clock readings before truncating
  them, so those two take microseconds.
- The account of `ChannelState` is grouped into sections (header, identity, parties, totals, times); the byte layout
  is that of the flat struct.

## What the proofs found

- A refund request whose window lies inside one second is accepted and can never be used (`SubSecondWindowIsDead`; the
  exact condition is `UsableIff`).
- `_record_recovery` writes without looking at the row again, so a completed settlement can be reopened by a recovery
  decided before it completed (`CompletedIsReopened`; only so, by `CompletedLeftExactlyByWrite`). Its amount is then
  reserved twice, and settled plus reserved can pass the activated total (`LateRecoveryOverspends`). The exact
  condition under which it cannot is `ContainedExactly`.
- The same bound fails without any overtaking when a later registration quotes a smaller S
  (`DecreasingSnapshotsOverspend`). The exact condition is `CoveredExactly`, and `RegistrationCovers` turns it into a
  guard that could be checked at registration.
- Settlement reconciliation has no overlap check, unlike refund reconciliation, so completed settlement intervals can
  coincide (`OverlapIsReached`). They stay disjoint exactly when `ApartExactly` says so; `GuardExactly` is the guard.
- `SimulatedChain.observe` matches a signature across obligations, so "confirmed" can be wrong when two executions
  share a signature (`SharedSignatureMisleads`). `MisledExactly` says for which executions that can still happen.
- `AuthorizationJournal.state` reads and writes apart, so a consumed authorization can end up as expired
  (`LateExpiryOverwritesConsumption`), and only so (`ConsumedLeftExactlyByLateExpiry`). It still cannot be consumed
  twice.
- The length guard of the public-key check refuses no valid key, and each key has one spelling (`OneSpellingPerKey`).
- Several refusals are unreachable: the settlement above the vault, the chain's conflicting signature,
  `persisted_voucher_mismatch`, the two accounting refusals of the epoch check, and the authority's "no valid
  authorization window".

## Model

| member | source | states |
|---|---|---|
| `Channels.ValidateChannel` | packages/channel-protocol/python/foundry_channel_protocol/channel.py:223-395 | an accepted snapshot satisfies F = V + S + R and 0 <= S <= A <= F - R; a closed one has V = 0 and A = S; a closing one carries its deadline |
| `Channels.ValidIff` | packages/channel-protocol/python/foundry_channel_protocol/channel.py:223-395 | a snapshot is accepted if and only if its totals are valid and it meets the rules of its lifecycle state, stated state by state |
| `Channels.CheckAmounts` | packages/channel-protocol/python/foundry_channel_protocol/channel.py:268-287 | accepted amounts are ordered S <= A and A + R <= F within u64 |
| `Channels.CheckCloseWindow` | packages/channel-protocol/python/foundry_channel_protocol/channel.py:310-340 | an accepted close window leaves at least the policy's grace |
| `Channels.ValidateFundingTransition` | packages/channel-protocol/python/foundry_channel_protocol/channel.py:398-524 | an accepted funding raises V and the unallocated capacity by exactly the amount, leaves A - S, and ends active with no close in progress |
| `ClosePipeline.CheckRequestSnapshot` | packages/channel-protocol/python/foundry_channel_protocol/closure.py:413-520 | an accepted request snapshot is lawful and its deadline follows the request |
| `ClosePipeline.CheckFreezeSnapshot` | packages/channel-protocol/python/foundry_channel_protocol/closure.py:371-410 | accepts exactly the well-formed freezes: lawful, closing, ready to finalize, frozen no earlier than the deadline |
| `ClosePipeline.CheckRefundTiming` | packages/channel-protocol/python/foundry_channel_protocol/closure.py:785-799 | exactly when a projection is timely: past the deadline, inside the request's window, nothing unresolved at the freeze or now |
| `ClosePipeline.ProjectRefund` | packages/channel-protocol/python/foundry_channel_protocol/closure.py:754-841 | an accepted projection comes from a well-formed freeze, never exceeds F - R - A, keeps the law, and for a final close leaves V = 0 and A = S |
| `ClosePipeline.ValidateFinalization` | packages/channel-protocol/python/foundry_channel_protocol/closure.py:844-872 | finalization is only granted to a valid channel with A = S and F = S + R |
| `CloseTheorems.GraceSurvivesTruncation` | packages/channel-protocol/python/foundry_channel_protocol/closure.py:542-549 | a grace period checked on exact clock readings still holds between the whole-second timestamps written down |
| `CloseTheorems.RequestPassesNextStage` | packages/channel-protocol/python/foundry_channel_protocol/closure.py:529-576 | whatever the close request returns passes the freeze's validator with the grace intact |
| `CloseTheorems.ClosingIsValid` | packages/channel-protocol/python/foundry_channel_protocol/channel.py:310-352 | recording the request on an active channel leaves it valid, with the same accounting |
| `CloseTheorems.FreezeIff` | packages/channel-protocol/python/foundry_channel_protocol/closure.py:618-672 | after a granted request, a freeze succeeds exactly for the channels that moved only by activating and settling, once the exclusive deadline is reached |
| `CloseTheorems.FreezePassesNextStage` | packages/channel-protocol/python/foundry_channel_protocol/closure.py:618-697 | the freeze is well formed; what it calls unallocated is what the request called unallocated less the rights activated in the window |
| `CloseTheorems.RefundRequestLinks` | packages/channel-protocol/python/foundry_channel_protocol/closure.py:700-751 | every refund request that is made links up with its freeze and pays the sender |
| `CloseTheorems.UsableIff` | packages/channel-protocol/python/foundry_channel_protocol/closure.py:735-751 | a made refund request has a usable moment if and only if its window spans a change of second, ends after the deadline, and the freeze had nothing unresolved |
| `CloseTheorems.SubSecondWindowIsDead` | packages/channel-protocol/python/foundry_channel_protocol/closure.py:735-751 | a request whose window lies inside one second is accepted and can never be projected |
| `CloseTheorems.ProjectionIff` | packages/channel-protocol/python/foundry_channel_protocol/closure.py:799-818 | which amounts are refundable: up to F - R - A, or the whole vault once A = S |
| `CloseTheorems.FinalizationOpensNextEpoch` | packages/channel-protocol/python/foundry_channel_protocol/closure.py:844-917 | a finalizable channel closes validly and its epoch may end with all totals back at zero |
| `CloseTheorems.EpochTransitionIff` | packages/channel-protocol/python/foundry_channel_protocol/closure.py:875-890 | an epoch may end exactly for a valid closed channel with nothing unresolved; the vault and outstanding refusals are unreachable |
| `CloseTheorems.FinalCloseEndsTheEpoch` | packages/channel-protocol/python/foundry_channel_protocol/closure.py:618-917 | from a freeze through a projected final close: the channel finalizes, closes with F = S + R and A = S, and opens the next epoch |
| `CloseAnswers.RequestMakes` | packages/channel-protocol/python/foundry_channel_protocol/closure.py:529-576 | a close request records the channel as it stands, its ids and both readings in whole seconds; it is refused only for a reason that is so |
| `CloseAnswers.RequestSnapshotIff` | packages/channel-protocol/python/foundry_channel_protocol/closure.py:413-520 | exactly which request snapshots are accepted |
| `CloseAnswers.FreezeMakes` | packages/channel-protocol/python/foundry_channel_protocol/closure.py:673-697 | a freeze records the channel as it stands and how many operations are unresolved |
| `CloseAnswers.RefundRequestIff` | packages/channel-protocol/python/foundry_channel_protocol/closure.py:700-751 | exactly which refund requests are made |
| `CloseAnswers.FinalizationIff` | packages/channel-protocol/python/foundry_channel_protocol/closure.py:844-872 | a channel finalizes if and only if it is closing past its deadline with A = S, F = S + R and nothing unresolved |
| `CloseAnswers.FundingChangesOnly` | packages/channel-protocol/python/foundry_channel_protocol/channel.py:470-524 | an accepted funding changes F by the amount, the status to active and the update time, and nothing else |
| `CloseAnswers.ChannelRefusedForReason` | packages/channel-protocol/python/foundry_channel_protocol/channel.py:223-395 | a snapshot is refused only for something that is wrong with its amounts, its close window or its state |
| `CloseAnswers.FundingRefusedForReason` | packages/channel-protocol/python/foundry_channel_protocol/channel.py:398-524 | a funding is refused only for an invalid snapshot or for what it does between the two |
| `CloseAnswers.FreezeRefusedForReason` | packages/channel-protocol/python/foundry_channel_protocol/closure.py:618-697 | a freeze is refused only for a reason that is so of the request, its snapshot or the channel |
| `CloseAnswers.RefundRequestMakes` | packages/channel-protocol/python/foundry_channel_protocol/closure.py:735-751 | a refund request asks for this amount, out of this freeze, for the channel's sender, in whole seconds |
| `CloseAnswers.ProjectionRefusedForReason` | packages/channel-protocol/python/foundry_channel_protocol/closure.py:754-841 | a projection is refused only for the request's links, the time or the amount, whichever is wrong |
| `CloseAnswers.FinalizationRefusedForReason` | packages/channel-protocol/python/foundry_channel_protocol/closure.py:844-872 | a finalization is refused only for a reason that is so |
| `CloseAnswers.EpochRefusedForReason` | packages/channel-protocol/python/foundry_channel_protocol/closure.py:875-890 | an epoch transition is refused only for a reason that is so |
| `LifecycleTheorems.Conservation` | packages/channel-protocol/python/foundry_channel_protocol/closure.py:631-672 | over every run of fundings, activations, settlements, close, freezes and refunds: 0 <= S <= A <= F - R, so the vault covers every right not yet settled. F = V + S + R is part of it by the way the steps move V; the bounds are what the guards and the freeze ensure |
| `LifecycleExample.OrdinaryLife` | packages/channel-protocol/python/foundry_channel_protocol/closure.py:529-841 | a run from an unfunded channel that moves F, A, S and R and empties the vault: funded, activated, settled from the present snapshot, closed, frozen, refunded |
| `LifecycleTheorems.RunKeepsGood` | packages/channel-protocol/python/foundry_channel_protocol/closure.py:523-526 | the invariant behind it: law, monotone A, hash in step with sequence, frozen snapshots still true of the present F and A |
| `LifecycleTheorems.ActivateKeepsGood` | packages/channel-protocol/python/foundry_channel_protocol/voucher.py:355-400 | an activation allowed by the verifier and the exclusive deadline keeps the law and cannot follow a freeze |
| `LifecycleTheorems.SettleKeepsGood` | packages/channel-protocol/python/foundry_channel_protocol/settlement.py:546-580 | a reconciled settlement registered from any snapshot so far, the present one included, keeps S <= A |
| `LifecycleTheorems.RefundKeepsGood` | packages/channel-protocol/python/foundry_channel_protocol/closure.py:799-841 | a reconciled refund projected from any earlier freeze keeps A <= F - R, because A has not moved since |
| `LifecycleTheorems.FreezeIsFinal` | packages/channel-protocol/python/foundry_channel_protocol/closure.py:523-526 | once a freeze exists F, A, the sequence and the voucher hash never move again |
| `LifecycleTheorems.RefundsFitTheFreeze` | packages/channel-protocol/python/foundry_channel_protocol/closure.py:799-812 | all refunds after a freeze together fit in what that freeze called unallocated |
| `LifecycleTheorems.CloseCanAlwaysFreeze` | packages/channel-protocol/python/foundry_channel_protocol/closure.py:618-672 | in any run a closing channel past its deadline can be frozen if and only if R has not moved since the request |
| `RefundRuntime.ClosureRuntime.RegisterRefund` | packages/channel-protocol/python/foundry_channel_protocol/closure.py:986-1107 | registration as one transaction: the new tables and the reply are the specified step |
| `RefundRuntime.ClosureRuntime.CommitExecution` | packages/channel-protocol/python/foundry_channel_protocol/closure.py:1109-1196 | binding an execution as one transaction |
| `RefundRuntime.ClosureRuntime.SubmitIntent` | packages/channel-protocol/python/foundry_channel_protocol/closure.py:1198-1225 | the submit intent as one transaction |
| `RefundRuntime.ClosureRuntime.TechnicalResult` | packages/channel-protocol/python/foundry_channel_protocol/closure.py:1227-1328 | recording the executor's receipt as one transaction |
| `RefundRuntime.ClosureRuntime.ReconcileRefund` | packages/channel-protocol/python/foundry_channel_protocol/closure.py:1331-1517 | reconciliation as one transaction, including the two refusals that commit needs_review first |
| `RefundRuntime.ClosureRuntime.RecoveredSignature` | packages/channel-protocol/python/foundry_channel_protocol/closure.py:1519-1573 | recording a recovered signature as one transaction |
| `RefundRuntime.ClosureRuntime.ProviderDivergence` | packages/channel-protocol/python/foundry_channel_protocol/closure.py:1575-1606 | recording that providers disagree |
| `RefundRuntime.ClosureRuntime.Release` | packages/channel-protocol/python/foundry_channel_protocol/closure.py:1608-1630 | releasing a reservation before submission |
| `RefundAnswers.AnswersExactly` | packages/channel-protocol/python/foundry_channel_protocol/closure.py:1109-1630 | for each of the seven calls on a registered refund: exactly when it moves the refund, to which row, with which journal entry; exactly when it repeats what is recorded; and that every refusal gives a reason that is so |
| `RefundAnswers.RegistersExactly` | packages/channel-protocol/python/foundry_channel_protocol/closure.py:986-1107 | a refund is registered if and only if it projects, fits beside what the scope has completed and reserved, and its id and key are free; what is stored, and that every refusal gives a reason that is so |
| `RefundAnswers.RegistrationRepeats` | packages/channel-protocol/python/foundry_channel_protocol/closure.py:1005-1026 | asking again for a registered refund returns it and writes nothing |
| `RefundAnswers.ReceiptIff` | packages/channel-protocol/python/foundry_channel_protocol/closure.py:1227-1328 | a receipt is taken if and only if it answers the committed execution of a submitted refund and is signed exactly as its outcome and status say |
| `RefundProvenance.RunIsTraced` | packages/channel-protocol/python/foundry_channel_protocol/closure.py:986-1630 | in every run each refund's projection, commitment, intent, receipt, signature, observation and state go back to a call of the run that was entitled to record them |
| `RefundProvenance.CompletedWasVerified` | packages/channel-protocol/python/foundry_channel_protocol/closure.py:1382-1517 | in every run a completed refund was completed by a call whose observation shows exactly that refund and was vouched for by the verifier |
| `RefundProvenance.CompletionIsReconciliation` | packages/channel-protocol/python/foundry_channel_protocol/closure.py:1382-1517 | a step that completes a refund is a reconciliation of it with the verifier's word, and the observation given is the one recorded |
| `RefundProvenance.UnverifiedWritesNothing` | packages/channel-protocol/python/foundry_channel_protocol/closure.py:1382-1391 | without the verifier's word a reconciliation is refused and writes nothing |
| `RefundTheorems.StepChanges` | packages/channel-protocol/python/foundry_channel_protocol/closure.py:986-1709 | every call leaves the tables alone, adds one refund, or moves one refund along the state graph and journals it |
| `RefundTheorems.RunKeepsGood` | packages/channel-protocol/python/foundry_channel_protocol/closure.py:1404-1441 | every reachable pair of tables: unique ids, disjoint completed intervals per scope, totals bounded, journals that are gapless paths of the state graph ending in the row's state |
| `RefundTheorems.UpdateKeepsDisjoint` | packages/channel-protocol/python/foundry_channel_protocol/closure.py:1404-1441 | the overlap check keeps completed intervals pairwise disjoint |
| `RefundConservation.CompletedRefundsTelescope` | packages/channel-protocol/python/foundry_channel_protocol/closure.py:1028-1076 | in every run the completed refunds of a scope telescope: disjoint intervals, total within F - A of the last completed refund's snapshot |
| `RefundConservation.LastCompleted` | packages/channel-protocol/python/foundry_channel_protocol/closure.py:1404-1441 | some completed refund ends the scope: every other one ends where it starts or before |
| `RefundConservation.CompletionsAreOrdered` | packages/channel-protocol/python/foundry_channel_protocol/closure.py:1404-1441 | a refund completed later starts where every earlier completed one has ended |
| `RefundConservation.RunPersists` | packages/channel-protocol/python/foundry_channel_protocol/closure.py:1331-1517 | refunds are never removed or rewritten, and completed ones stay completed |
| `RefundConservation.RefundsStayWithinUnallocated` | packages/channel-protocol/python/foundry_channel_protocol/closure.py:1028-1076 | with shared F and A and nondecreasing R at registration, high-water mark plus open reservations never exceeds F - A in any reachable state |
| `RefundConservation.RegistrationKeepsCovered` | packages/channel-protocol/python/foundry_channel_protocol/closure.py:1028-1076 | registering keeps the cover if and only if every refund that could still complete leaves room for the newcomer |
| `RefundExactness.DriveToCompletion` | packages/channel-protocol/python/foundry_channel_protocol/closure.py:1109-1517 | a refund not overtaken and not under review can always be driven to completion by some calls |
| `RefundExactness.UncoveredBreaks` | packages/channel-protocol/python/foundry_channel_protocol/closure.py:1028-1076 | an uncovered scope has a continuation that breaks the bound without registering anything |
| `RefundExactness.CoveredExactly` | packages/channel-protocol/python/foundry_channel_protocol/closure.py:1028-1076 | the bound survives every continuation without registrations if and only if the scope is covered: the exact condition, both ways |
| `SettlementStore.ValidateRequest` | packages/channel-protocol/python/foundry_channel_protocol/settlement.py:470-588 | an accepted request is positive, fits A - S and V of its own valid snapshot, and quotes that snapshot's totals |
| `SettlementStore.CheckReservation` | packages/channel-protocol/python/foundry_channel_protocol/settlement.py:744-807 | an accepted reservation fits under the activated total and the vault together with everything still reserved, and no obligation or execution is used twice |
| `SettlementStore.BindExecution` | packages/channel-protocol/python/foundry_channel_protocol/settlement.py:1565-1721 | an accepted commitment binds the settlement's own execution request, obligation and economic plan |
| `SettlementStore.CheckObservations` | packages/channel-protocol/python/foundry_channel_protocol/settlement.py:1358-1389 | accepted observations are non-empty, vouched for and carry a signature |
| `SettlementRuntime.SettlementRuntime.RegisterRequest` | packages/channel-protocol/python/foundry_channel_protocol/settlement.py:681-868 | registration as one transaction |
| `SettlementRuntime.SettlementRuntime.CommitExecution` | packages/channel-protocol/python/foundry_channel_protocol/settlement.py:914-990 | persisting the prepared execution as one transaction |
| `SettlementRuntime.SettlementRuntime.RecordAuthorization` | packages/channel-protocol/python/foundry_channel_protocol/settlement.py:992-1085 | persisting the verified authorization as one transaction |
| `SettlementRuntime.SettlementRuntime.PersistIntent` | packages/channel-protocol/python/foundry_channel_protocol/settlement.py:1087-1176 | the first transaction of submit: one intent before any call |
| `SettlementRuntime.SettlementRuntime.PersistTechnical` | packages/channel-protocol/python/foundry_channel_protocol/settlement.py:1780-1850 | the last transaction of submit |
| `SettlementRuntime.SettlementRuntime.Submit` | packages/channel-protocol/python/foundry_channel_protocol/settlement.py:1087-1250 | submit as a whole: one intent, exactly one executor call, and for each answer, heard or lost, the one row it leads to; without an intent nothing is called or written |
| `SettlementRuntime.SettlementRuntime.Recover` | packages/channel-protocol/python/foundry_channel_protocol/settlement.py:1252-1319 | recovery only asks the executor and records what its ledger says; otherwise it writes nothing and says why |
| `SettlementRuntime.SettlementRuntime.RecordProviderDivergence` | packages/channel-protocol/python/foundry_channel_protocol/settlement.py:1321-1346 | two disagreeing providers move a recoverable settlement to disputed; anything else leaves the tables |
| `SettlementRuntime.SettlementRuntime.ReconcileSettlement` | packages/channel-protocol/python/foundry_channel_protocol/settlement.py:1348-1513 | reconciliation as one transaction |
| `SettlementAnswers.AnswersExactly` | packages/channel-protocol/python/foundry_channel_protocol/settlement.py:914-1513 | for each of the six transactions on a registered settlement: exactly when it moves the settlement, to which row, with which journal entry, intent or recovery record; exactly when it repeats; and that every refusal gives a reason that is so |
| `SettlementAnswers.VerdictExactly` | packages/channel-protocol/python/foundry_channel_protocol/settlement.py:1400-1509 | usable observations dispute a waiting settlement if and only if two of them differ beyond source and time, send it to review if and only if none do and one misses the requested effect, and complete it otherwise |
| `SettlementAnswers.RegistersExactly` | packages/channel-protocol/python/foundry_channel_protocol/settlement.py:681-868 | a settlement is registered if and only if the snapshot supports it, the table has room and its id and key are free; what is stored and journalled, and that every refusal gives a reason that is so |
| `SettlementAnswers.RegistrationRepeats` | packages/channel-protocol/python/foundry_channel_protocol/settlement.py:694-743 | asking again for a registered settlement returns it and writes nothing |
| `SettlementAnswers.SupportedExactly` | packages/channel-protocol/python/foundry_channel_protocol/settlement.py:470-588 | exactly which requests a snapshot supports; every refusal gives a reason that is so, and the above-vault refusal is unreachable |
| `SettlementAnswers.BindsExactly` | packages/channel-protocol/python/foundry_channel_protocol/settlement.py:1565-1721 | a prepared execution binds if and only if it is this settlement's own, moves exactly the requested amount from the vault to the wallet, and commits to nothing else |
| `SettlementProvenance.EverySettlementIsTraced` | packages/channel-protocol/python/foundry_channel_protocol/settlement.py:681-1513 | in every run each settlement's request, binding, authorization, signature, receipt and state go back to a transaction of the run that was entitled to record them |
| `SubmissionAnswers.SubmitsExactly` | packages/channel-protocol/python/foundry_channel_protocol/settlement.py:1176-1250 | submit as a whole: a definitive rejection is rejected, an error or lost response needs recovery with no signature, a receipt that acknowledges the commitment is reconciled under its signature, any other is reviewed; each if and only if |
| `SubmissionAnswers.LostResponseNeedsRecovery` | packages/channel-protocol/python/foundry_channel_protocol/settlement.py:1198-1218 | whatever other threads do in between, a thread whose call lost its response writes needs_recovery with no signature, although the executor may have applied the effect |
| `SubmissionAnswers.HeardIsReconciling` | packages/channel-protocol/python/foundry_channel_protocol/settlement.py:1220-1250 | an executable authorization whose response is heard leads to reconciling, under the signature the executor's ledger now holds |
| `SubmissionAnswers.RecordsExactly` | packages/channel-protocol/python/foundry_channel_protocol/settlement.py:1963-2018 | what recovery records of any executor's answer: invalid if and only if the answer contradicts itself, otherwise the outcome given, and unknown when unheard |
| `SubmissionAnswers.AsksExactly` | packages/channel-protocol/python/foundry_channel_protocol/settlement.py:1252-1319 | asked of the bundled executor: confirmed with the ledger's signature if executed, failed before broadcast if only prepared, unknown if unreachable or not prepared; never invalid |
| `SubmissionAnswers.SubmissionStartsExactly` | packages/channel-protocol/python/foundry_channel_protocol/settlement.py:1098-1176 | in the interleaved world a submission starts if and only if its intent is accepted, and it carries the authorization recorded |
| `SubmissionAnswers.RecoveryStartsExactly` | packages/channel-protocol/python/foundry_channel_protocol/settlement.py:1252-1290 | a recovery starts if and only if the settlement is recoverable and committed to this executor, and it asks for the committed request |
| `SubmissionAnswers.DivergesExactly` | packages/channel-protocol/python/foundry_channel_protocol/settlement.py:1321-1346 | recording a divergence starts if and only if the settlement is recoverable and two providers disagree |
| `SubmissionAnswers.DeathLosesTheThread` | packages/channel-protocol/python/foundry_channel_protocol/settlement.py:1087-1319 | a thread that dies takes what it knew with it and nothing that was written or applied |
| `SettlementRuntime.SourcesRepeat` | packages/channel-protocol/python/foundry_channel_protocol/settlement.py:1362-1364 | comparing the size of the set of sources finds exactly the repeated ones |
| `SettlementRuntime.ValidateObservations` | packages/channel-protocol/python/foundry_channel_protocol/settlement.py:1358-1389 | the loops over the observations refuse exactly what the specification refuses |
| `SettlementRuntime.Diverge` | packages/channel-protocol/python/foundry_channel_protocol/settlement.py:1390-1410 | comparing fingerprints finds exactly the observations that differ beyond source and time |
| `SettlementRuntime.FindMismatches` | packages/channel-protocol/python/foundry_channel_protocol/settlement.py:1425-1450 | the mismatch list is empty if and only if every observation shows exactly the requested effect |
| `SettlementTheorems.ApplyChanges` | packages/channel-protocol/python/foundry_channel_protocol/settlement.py:681-1513 | every transaction leaves the tables alone, inserts one settlement, or makes one of the listed moves of one settlement |
| `SettlementTheorems.ApplyKeepsGood` | packages/channel-protocol/python/foundry_channel_protocol/settlement.py:2073-2157 | every transaction keeps obligations and execution requests unique, one intent exactly for what was submitted, completed rows exact, and gapless journals ending in the row's state |
| `SettlementReservations.SettlementsStayWithinActivated` | packages/channel-protocol/python/foundry_channel_protocol/settlement.py:763-807 | in every fresh run with S nondecreasing at registration, settled high-water mark plus open reservations never exceeds the latest activated total |
| `SettlementPublic.WholeRunIsFresh` | packages/channel-protocol/python/foundry_channel_protocol/settlement.py:1252-1346 | running each public method to its end before the next begins yields a fresh run: a recovery is only written where it was decided |
| `SettlementPublic.WholeRunsStayWithinActivated` | packages/channel-protocol/python/foundry_channel_protocol/settlement.py:763-807 | so with public methods atomic and S nondecreasing at registration, settled plus reserved stays within the latest activated total |
| `SettlementPublic.WholeSubmit` | packages/channel-protocol/python/foundry_channel_protocol/settlement.py:1087-1250 | submit as one call: nothing without an intent, otherwise the intent followed by what the executor's answer persists |
| `SettlementPublic.WholeRecover` | packages/channel-protocol/python/foundry_channel_protocol/settlement.py:1252-1319 | recover as one call writes only where the settlement is recoverable and committed to this executor |
| `SettlementExactness.DriveToCompletion` | packages/channel-protocol/python/foundry_channel_protocol/settlement.py:914-1513 | any settlement that is neither completed, rejected nor failed can be completed by some fresh continuation |
| `SettlementExactness.CoveredExactly` | packages/channel-protocol/python/foundry_channel_protocol/settlement.py:763-807 | settled plus reserved stays below a bound through every fresh continuation without registrations if and only if each open settlement would leave it intact by completing |
| `SettlementExactness.WithinActivatedExactly` | packages/channel-protocol/python/foundry_channel_protocol/settlement.py:763-807 | the same for the activated total of the latest registered snapshot: from exactly which tables it is safe |
| `SettlementExactness.RegistrationCovers` | packages/channel-protocol/python/foundry_channel_protocol/settlement.py:780-807 | an accepted registration leaves its scope safe if and only if every open settlement could still complete beside it: a guard over the table and the request |
| `SettlementExactness.RoomyRunsStayWithinActivated` | packages/channel-protocol/python/foundry_channel_protocol/settlement.py:763-807 | with that guard at every registration the bound holds in every fresh run, in whatever order the snapshots came |
| `SettlementExactness.ApartExactly` | packages/channel-protocol/python/foundry_channel_protocol/settlement.py:1400-1509 | the completed intervals of a scope stay disjoint through every fresh continuation without registrations if and only if any two settlements that are completed or can still complete have disjoint intervals |
| `SettlementExactness.GuardExactly` | packages/channel-protocol/python/foundry_channel_protocol/settlement.py:763-779 | where S never went backwards, a registration keeps the live intervals disjoint if and only if no live settlement of the scope ends above where it starts |
| `SettlementExactness.GuardedRunsStayApart` | packages/channel-protocol/python/foundry_channel_protocol/settlement.py:763-779 | with that guard at every registration, completed intervals are disjoint in every fresh run |
| `SettlementWitnesses.OverlapIsReached` | packages/channel-protocol/python/foundry_channel_protocol/settlement.py:1400-1509 | from tables with nothing registered, a fresh run in which two halves of one right, registered from one snapshot, both complete, each on observations that saw S go from 0 to 5 |
| `SettlementWitnesses.DecreasingSnapshotsOverspend` | packages/channel-protocol/python/foundry_channel_protocol/settlement.py:763-807 | from tables with nothing registered, a fresh run with a decreasing S at registration that ends with 10 settled and 5 reserved of a right of 10 |
| `SettlementWitnesses.LateRecoveryOverspends` | packages/channel-protocol/python/foundry_channel_protocol/settlement.py:1852-1957 | from tables with nothing registered, a run with nondecreasing S in which a late recovery leaves 10 settled and 5 reserved of a right of 10 |
| `SettlementOvertaking.ContainedExactly` | packages/channel-protocol/python/foundry_channel_protocol/settlement.py:1852-1957 | where recoveries may be written late, settled plus reserved stays below a bound through every continuation without registrations if and only if all claims fit below it above any one starting point |
| `SettlementOvertaking.WithinActivatedAnyway` | packages/channel-protocol/python/foundry_channel_protocol/settlement.py:1852-1957 | the same for the activated total of the latest registered snapshot |
| `SettlementReservations.StaleRecoveryReservesAgain` | packages/channel-protocol/python/foundry_channel_protocol/settlement.py:1852-1957 | a late recovery of a completed settlement raises the reservations by its amount, and leaves the high-water mark where it is whenever another completed settlement reaches it |
| `SettlementReservations.CompletedLeftExactlyByStaleRecovery` | packages/channel-protocol/python/foundry_channel_protocol/settlement.py:1852-1957 | completed is left if and only if a recovery is recorded for it after the fact |
| `SettlementRuntime.FakeExternalExecutor.Prepare` | packages/external-execution-protocol/python/foundry_external_execution_protocol/fake_executor.py:229-371 | prepare as one transaction |
| `SettlementRuntime.FakeExternalExecutor.AuthorizeAndExecute` | packages/external-execution-protocol/python/foundry_external_execution_protocol/fake_executor.py:373-515 | authorization consumed and effect applied in one transaction, or nothing changed |
| `SettlementRuntime.FakeExternalExecutor.Recover` | packages/external-execution-protocol/python/foundry_external_execution_protocol/fake_executor.py:598-626 | the status answer, reading only |
| `Executor.PrepareKeepsSound` | packages/external-execution-protocol/python/foundry_external_execution_protocol/fake_executor.py:229-371 | prepare keeps effects and executions in agreement and applies no effect |
| `Executor.ExecuteKeepsSound` | packages/external-execution-protocol/python/foundry_external_execution_protocol/fake_executor.py:414-515 | an execution confirms one request, applies one effect for its obligation and spends one authorization on it, or changes nothing |
| `Executor.ExecuteKeepsConsumed` | packages/external-execution-protocol/python/foundry_external_execution_protocol/fake_executor.py:452-461 | a success spends exactly its authorization, unspent before, on exactly this execution; a refusal spends nothing |
| `ExecutorAnswers.ExecutesExactly` | packages/external-execution-protocol/python/foundry_external_execution_protocol/fake_executor.py:373-515 | an effect is applied if and only if the authorization is active, unspent and covers a prepared execution of an obligation without effect; then execution, consumption and effect change together, and every refusal gives a reason that is so |
| `ExecutorAnswers.PreparesExactly` | packages/external-execution-protocol/python/foundry_external_execution_protocol/fake_executor.py:229-371 | an input is stored once, returned again for the same input, refused for a different one under its id or key; the prepared execution carries the input and commits to its plan's obligation |
| `ExecutorAnswers.ServedIsSound` | packages/external-execution-protocol/python/foundry_external_execution_protocol/fake_executor.py:229-515 | in every ledger a run reaches, confirmed executions, effects and consumed authorizations correspond one to one, and each signature names the authorization that was spent on it |
| `ExecutorAnswers.ReplayIsRefused` | packages/external-execution-protocol/python/foundry_external_execution_protocol/fake_executor.py:416-424 | once accepted, the same authorization is refused as a replay in every later ledger for as long as it is active |
| `ExecutorAnswers.BoundIsExecutable` | packages/external-execution-protocol/python/foundry_external_execution_protocol/fake_executor.py:373-515 | what prepare returns, bound and authorized by a settlement, is executable while it lasts |
| `Executor.RecoveryIsTruthful` | packages/external-execution-protocol/python/foundry_external_execution_protocol/fake_executor.py:598-626 | may_rematerialize if and only if the request has no effect; confirmed if and only if it has one |
| `SettlementExecution.RunKeepsSafe` | packages/channel-protocol/python/foundry_channel_protocol/settlement.py:1087-1319 | tables, running threads and executor ledger stay in agreement under every interleaving of transactions, calls, lost responses and dying threads |
| `SettlementGuarantees.AtMostOneCall` | packages/channel-protocol/python/foundry_channel_protocol/settlement.py:1098-1176 | under every interleaving the executor is called at most once per settlement, hence at most once per obligation of a (channel, epoch) |
| `SettlementGuarantees.TableTellsTheTruth` | packages/channel-protocol/python/foundry_channel_protocol/settlement.py:1087-1319 | a recorded signature is the executor's own for its one effect; reconciling and completed imply the effect; failed_before_submission excludes it; completed implies one intent, a learned signature and observations of exactly the requested effect |
| `SettlementGuarantees.SpentForever` | packages/channel-protocol/python/foundry_channel_protocol/settlement.py:1302-1319 | a settlement that failed before submission never gets an effect, whatever runs afterwards |
| `SettlementGuarantees.FailedIsSpent` | packages/channel-protocol/python/foundry_channel_protocol/settlement.py:1300-1319 | failing before submission means the one call is spent without effect |
| `SettlementGuarantees.ExecutedHasOneEffect` | packages/external-execution-protocol/python/foundry_external_execution_protocol/fake_executor.py:470-515 | an execution request is executed if and only if it has exactly one effect |
| `SettlementGuarantees.LateRecoveryReopens` | packages/channel-protocol/python/foundry_channel_protocol/settlement.py:1261-1319 | recover's check and write are apart: any settlement waiting for reconciliation can be completed in between and reopened by the write |
| `SettlementReopening.CompletedIsReopened` | packages/channel-protocol/python/foundry_channel_protocol/settlement.py:1261-1319 | a run of the whole world from nothing: registered, prepared, committed, authorized, submitted, executed, completed under a running recovery, and reopened by its write |
| `SettlementWorlds.CompletedLeftExactlyByWrite` | packages/channel-protocol/python/foundry_channel_protocol/settlement.py:1852-1957 | in the interleaved world a step takes a settlement out of completed if and only if it is the write of a recovery decided for it |
| `SettlementWorlds.InterleavingsArePossible` | packages/channel-protocol/python/foundry_channel_protocol/settlement.py:1261-1346 | every interleaving takes the tables through a possible run: late recoveries find settlements that were recoverable, never rejected or unsubmitted ones |
| `SettlementWorlds.ContainedWorldsKeepTheBound` | packages/channel-protocol/python/foundry_channel_protocol/settlement.py:763-807 | so the bound holds in every interleaving from a world whose claims are contained |
| `FailureLabRuntime.SimulatedChain.Broadcast` | services/failure_lab/lab.py:54-76 | one effect per obligation whatever is broadcast; which answers and which refusals occur |
| `FailureLabRuntime.SimulatedChain.Observe` | services/failure_lab/lab.py:78-83 | confirmed exactly when available and some obligation's effect carries the signature |
| `FailureLabRuntime.DurableExecutionLab.Register` | services/failure_lab/lab.py:132-177 | registers exactly an unused execution of an unused obligation, else changes nothing |
| `FailureLabRuntime.DurableExecutionLab.PersistSignature` | services/failure_lab/lab.py:179-223 | done if and only if the execution awaits a signature or already holds this one; nothing changes otherwise |
| `FailureLabRuntime.DurableExecutionLab.Execute` | services/failure_lab/lab.py:225-330 | a whole call is a run of the lab's steps; exactly which reply each mode and crash gives, and that it agrees with the row and the chain; only a signed, unexpired execution reaches the chain |
| `FailureLabRuntime.DurableExecutionLab.Recover` | services/failure_lab/lab.py:332-386 | a whole recovery is a run of the lab's steps, never permits a retry, and answers confirmed if and only if the row was confirmed or an available chain shows the signature |
| `FailureLabRuntime.DurableExecutionLab.Transition` | services/failure_lab/lab.py:461-490 | moves a row exactly when it is still in the expected state |
| `FailureLabTheorems.RunKeepsSafe` | services/failure_lab/lab.py:225-386 | rows, threads and chain stay in agreement with a crash possible between any two transactions |
| `FailureLabTheorems.BroadcastNeverConflicts` | services/failure_lab/lab.py:71-73 | the conflicting-signature branch of the chain is unreachable |
| `FailureLabTheorems.UncertaintyNeverPermitsRetry` | services/failure_lab/lab.py:423-428 | at most one broadcast; may_rematerialize implies no effect; confirmed implies the effect unless another obligation's effect carries the same signature |
| `FailureLabTheorems.ConfirmedMeansApplied` | services/failure_lab/lab.py:78-83 | with distinct signatures confirmed implies this obligation's own effect |
| `FailureLabTheorems.SharedSignatureMisleads` | services/failure_lab/lab.py:78-83 | without them a reachable lab confirms an obligation that has no effect |
| `FailureLabExactness.MisledExactly` | services/failure_lab/lab.py:78-83 | an execution without an effect can be confirmed by a continuation that registers and signs nothing and applies no effect of its own if and only if its row can still reach an observation and another execution with its signature is applied or can still be broadcast |
| `FailureLabExactness.NeverMisled` | services/failure_lab/lab.py:332-386 | when that condition fails, no such continuation ever confirms it |
| `FailureLabTheorems.EveryLogVerifies` | services/failure_lab/lab.py:492-551 | every execution's event chain verifies in every reachable lab |
| `FailureLabAnswers.EveryLogTells` | services/failure_lab/lab.py:225-531 | in every run, with crashes anywhere, replaying an execution's events gives exactly its obligation, message, state, signature, transaction hash and attempt count |
| `FailureLabAnswers.ExecutesExactly` | services/failure_lab/lab.py:225-330 | a whole execute on a lab at rest: which state, effect and call count each broadcast mode, crash and expiry leave, and that nothing else starts a broadcast |
| `FailureLabAnswers.RecoversExactly` | services/failure_lab/lab.py:332-386 | a whole recover on a lab at rest confirms if and only if an available chain shows the signature, and otherwise only counts |
| `FailureLabAnswers.SignsExactly` | services/failure_lab/lab.py:179-223 | a signature is stored if and only if the execution is authorized and unsigned |
| `FailureLabAnswers.CrashLosesTheCall` | services/failure_lab/lab.py:225-386 | a crash between two transactions loses what the call had learned and nothing that was written |
| `HashChain.SealKeepsVerified` | services/failure_lab/lab.py:492-531 | appending keeps every chain verifiable |
| `HashChain.SameHeadSameHistory` | services/failure_lab/lab.py:533-551 | under a collision-free hash, two verified chains of one execution with the same head are equal |
| `HashChain.TransplantIsRefused` | services/failure_lab/lab.py:533-551 | an entry sealed for one execution does not verify in the chain of another |
| `HashChain.VerifyChain` | services/failure_lab/lab.py:533-551 | the verifying loop accepts exactly the verified chains |
| `Vouchers.VerifyVoucher` | packages/channel-protocol/python/foundry_channel_protocol/voucher.py:287-413 | an accepted voucher is bound to the context, extends the activated and the highest live voucher, stays within F - R and the policy, and is inside its window |
| `VoucherLedger.Top` | packages/channel-protocol/python/foundry_channel_protocol/voucher.py:617-630 | the query yields a live row of the scope with the highest sequence, if there is one |
| `VoucherTheorems.TopCarriesTheMaximum` | packages/channel-protocol/python/foundry_channel_protocol/voucher.py:617-641 | the single top-sequence row carries the largest live total |
| `VoucherTheorems.StepChanges` | packages/channel-protocol/python/foundry_channel_protocol/voucher.py:525-837 | every call does nothing, records one submission, or moves one row along the state graph |
| `VoucherTheorems.RunKeepsGood` | packages/channel-protocol/python/foundry_channel_protocol/voucher.py:581-717 | in every run, later rejections included: live vouchers of a scope have distinct sequences and totals nondecreasing in sequence, and each submission's events end in its state and never go back in time |
| `VoucherTheorems.SettledForGood` | packages/channel-protocol/python/foundry_channel_protocol/voucher.py:600-610 | rejected and activation-requested submissions never move again; no submission changes its voucher |
| `VoucherTheorems.StoredVoucherAlwaysMatches` | packages/channel-protocol/python/foundry_channel_protocol/voucher.py:775-780 | the persisted_voucher_mismatch refusal is unreachable |
| `VoucherTheorems.NextVerifiedIsAbove` | packages/channel-protocol/python/foundry_channel_protocol/voucher.py:611-641 | whatever is verified next passes every live voucher of its scope |
| `VoucherRuntime.ReferenceVoucherLedger.RecordIssued` | packages/channel-protocol/python/foundry_channel_protocol/voucher.py:525-579 | recording as one transaction; refusals change nothing |
| `VoucherRuntime.ReferenceVoucherLedger.VerifyIssued` | packages/channel-protocol/python/foundry_channel_protocol/voucher.py:581-717 | verification as one transaction: a clock that went back is rolled back, a failing verifier leaves the submission open, other refusals close it |
| `VoucherRuntime.ReferenceVoucherLedger.RequestActivation` | packages/channel-protocol/python/foundry_channel_protocol/voucher.py:719-837 | requesting activation as one transaction, with the same three outcomes |
| `VoucherAnswers.RecordsExactly` | packages/channel-protocol/python/foundry_channel_protocol/voucher.py:525-579 | a submission is recorded once under its id, returned again for the same voucher and refused for another |
| `VoucherAnswers.VerifiesSubmissionExactly` | packages/channel-protocol/python/foundry_channel_protocol/voucher.py:581-717 | an open submission is verified if and only if the snapshot sustains its voucher, it passes every live voucher of the scope and its signature is genuine; it stays open if and only if only the verifier failed; every other refusal rejects it, for a reason that is so |
| `VoucherAnswers.ActivatesExactly` | packages/channel-protocol/python/foundry_channel_protocol/voucher.py:719-837 | a verified submission moves to activation_requested if and only if its voucher is, now, sustained by the present snapshot and genuinely signed; it stays verified if and only if only the verifier failed; every other refusal rejects it |
| `VoucherAnswers.ExpiredIsRejected` | packages/channel-protocol/python/foundry_channel_protocol/voucher.py:766-816 | in every run, activating a verified voucher that has expired rejects it |
| `VoucherAnswers.OtherwiseUnchanged` | packages/channel-protocol/python/foundry_channel_protocol/voucher.py:581-760 | a call on a submission in another state, or under a clock that went back, writes nothing and says which |
| `VoucherAnswers.ContextIff` | packages/channel-protocol/python/foundry_channel_protocol/voucher.py:213-275 | exactly which snapshots a voucher may be verified against |
| `StateCodec.ValidateStructure` | programs/foundry-channel-vault/src/state.rs:194-240 | accepts exactly the structurally valid states: known version and flags, boolean flags matched with their values, a deadline only with a close request, zero reserved bytes |
| `StateCodec.InvalidForReason` | programs/foundry-channel-vault/src/state.rs:194-240 | a state is refused only for a fault that it has |
| `StateCodec.StatusOf` | programs/foundry-channel-vault/src/state.rs:63-82 | a status code is accepted exactly when some status has it, and names that status |
| `StateCodec.RoundTrip` | programs/foundry-channel-vault/src/state.rs:242-343 | every valid state encodes to 490 bytes that decode to it |
| `StateCodec.Canonical` | programs/foundry-channel-vault/src/state.rs:285-343 | every accepted byte string is the encoding of what it decodes to |
| `StateCodec.AcceptedIff` | programs/foundry-channel-vault/src/state.rs:242-343 | decoding yields a state if and only if that state encodes to those bytes |
| `StateCodec.AccountIff` | programs/foundry-channel-vault/src/state.rs:182-191 | a program account yields a state if and only if the program owns it and its data is that state's encoding |
| `StateCodec.KeyOffsets` | programs/foundry-channel-vault/src/state.rs:9-29 | the header, the identity and every key lie at the offsets of the documented layout |
| `StateCodec.AmountOffsets` | programs/foundry-channel-vault/src/state.rs:30-44 | every amount, flag and deadline lies little-endian at the offset of the documented layout |
| `LittleEndian.ReadWhatWasWritten` | programs/foundry-channel-vault/src/state.rs:379-393 | a fixed-width integer reads back |
| `LittleEndian.WriteWhatWasRead` | programs/foundry-channel-vault/src/state.rs:418-432 | bytes read as an integer are written back unchanged |
| `StateCodec.TimedRoundTrip` | programs/foundry-channel-vault/src/state.rs:387-393 | a flag and a two's-complement i64 read back |
| `StateCursors.Writer.Bytes` | programs/foundry-channel-vault/src/state.rs:370-373 | the writer fills the buffer from the front with exactly the bytes given |
| `StateCursors.Reader.Array` | programs/foundry-channel-vault/src/state.rs:406-412 | the reader takes the next bytes and advances by their number |
| `StateCursors.Serialize` | programs/foundry-channel-vault/src/state.rs:242-283 | writing through the cursor yields the specified encoding or the specified refusal |
| `StateCursors.Deserialize` | programs/foundry-channel-vault/src/state.rs:285-343 | reading through the cursor yields the specified decoding, with refusals in the source's order |
| `StateCursors.DeserializeProgramAccount` | programs/foundry-channel-vault/src/state.rs:182-191 | the owner is checked before anything is decoded |
| `Base58.DecodeBase58` | packages/external-execution-protocol/python/foundry_external_execution_protocol/canonicalization.py:121-130 | the accumulating loop computes the specified decoding |
| `Base58.RequirePubkey` | packages/external-execution-protocol/python/foundry_external_execution_protocol/canonicalization.py:133-139 | accepts exactly the strings that decode to 32 bytes |
| `Base58.Injective` | packages/external-execution-protocol/python/foundry_external_execution_protocol/canonicalization.py:121-130 | no two strings decode to the same bytes |
| `Base58.LengthGuardIsRedundant` | packages/external-execution-protocol/python/foundry_external_execution_protocol/canonicalization.py:133-139 | a string that decodes to 32 bytes has 32 to 44 characters |
| `Base58.FortyFour` | packages/external-execution-protocol/python/foundry_external_execution_protocol/canonicalization.py:133-139 | 58^44 > 256^32 |
| `Base58.Minimal` | packages/external-execution-protocol/python/foundry_external_execution_protocol/canonicalization.py:128 | the byte count asked for is the least that holds the number |
| `Base58.EveryKeyHasASpelling` | packages/external-execution-protocol/python/foundry_external_execution_protocol/canonicalization.py:121-130 | every byte string is the decoding of some string |
| `Base58.OneSpellingPerKey` | packages/external-execution-protocol/python/foundry_external_execution_protocol/canonicalization.py:133-139 | each 32-byte key has exactly one accepted spelling |
| `Base58.AlphabetIsSymbols` | packages/external-execution-protocol/python/foundry_external_execution_protocol/canonicalization.py:25-26 | the digit of a character is its index in the alphabet |
| `Timestamps.TextOrderIsTimeOrder` | services/authorization/authority.py:119-130 | text order of valid UTC second timestamps is chronological order, leap years included |
| `Timestamps.TextIdentifiesTheInstant` | services/authorization/authority.py:119-130 | equal text, equal instant and equal fields coincide |
| `Timestamps.ShortYearsMisorderedIff` | services/authorization/authority.py:119-120 | a year below 1000, written without padding, is earlier than every four-digit year, and its text says so if and only if it is at most the same number of leading digits of the other |
| `Timestamps.UnpaddedStartsWithNoZero` | services/authorization/authority.py:119-120 | a year below 1000 written without padding starts with no zero |
| `Timestamps.EveryInstantHasAStamp` | services/authorization/authority.py:119-130 | counting from the first second of year 1, every instant up to any timestamp has a timestamp of its own, leap years included |
| `Timestamps.TextDeadline` | services/authorization/authority.py:346 | comparing expires_at with the clock as text decides exactly whether the deadline is reached |
| `Timestamps.DaysInClosedForm` | services/authorization/authority.py:123-130 | the day count agrees with the closed form of the Gregorian calendar |
| `Timestamps.MonthsFillTheYear` | services/authorization/authority.py:123-130 | the twelve month lengths make up the year |
| `AuthorizationTheorems.RunKeepsGood` | services/authorization/authority.py:252-388 | for any clock readings and any interleaving, at most one issued row per execution request and per obligation |
| `AuthorizationTheorems.SpentForever` | services/authorization/authority.py:330-363 | an authorization that left the issued state can never be consumed again |
| `AuthorizationTheorems.ConsumedAtMostOnce` | services/authorization/authority.py:330-363 | after one successful consumption no later one succeeds, whatever runs in between |
| `AuthorizationTheorems.FinalWhenAtomic` | services/authorization/authority.py:252-388 | with calls atomic, consumed and expired rows are never changed again |
| `AuthorizationTheorems.ConsumedLeftExactlyByLateExpiry` | services/authorization/authority.py:365-388 | with the state query's read and write apart, a consumed row is changed if and only if a reader that saw it overdue writes late |
| `AuthorizationTheorems.LateExpiryOverwritesConsumption` | services/authorization/authority.py:365-388 | a concrete run in which that happens |
| `AuthorizationRuntime.AuthorizationJournal.Issue` | services/authorization/authority.py:252-328 | issuing as one transaction; refusals roll the expiry sweep back |
| `AuthorizationRuntime.AuthorizationJournal.Consume` | services/authorization/authority.py:330-363 | consuming as one transaction; refusals change nothing |
| `AuthorizationRuntime.AuthorizationJournal.State` | services/authorization/authority.py:365-388 | the reported state is the state left in the table |
| `AuthorizationAnswers.IssuesExactly` | services/authorization/authority.py:252-328 | a new authorization is granted if and only if nobody holds a usable one for its request or obligation; the sweep expires exactly what is overdue |
| `AuthorizationAnswers.IssuesAgainExactly` | services/authorization/authority.py:274-304 | a known id is granted again if and only if it is asked for with the same content and is still usable |
| `AuthorizationAnswers.ConsumesExactly` | services/authorization/authority.py:330-363 | consuming succeeds if and only if the authorization is issued and its deadline not reached, and every refusal gives a reason that is so |
| `AuthorizationAnswers.StatesExactly` | services/authorization/authority.py:365-388 | as one call, reading leaves in the table exactly the state it reports |
| `AuthorizationAnswers.ReadsExactly` | services/authorization/authority.py:365-388 | the query alone writes nothing and reports an overdue authorization as expired |
| `AuthorizationAnswers.WindowExactly` | services/authorization/authority.py:425-541 | a window is granted if and only if the ttl is in range and every input outlives now and the prepared execution; it ends with the earlier of the two |
| `AuthorizationStore.ExpireAll` | services/authorization/authority.py:265-272 | the sweep expires exactly the issued rows whose deadline is reached |
| `AuthorizationStore.WindowIsTight` | services/authorization/authority.py:425-541 | a granted window is non-empty, at most a minute, ended by the ttl or the prepared execution; the no-window refusal is unreachable |
| `Reconciliation.AggregateReconciliation` | services/reconciliation/protocol.py:202-301 | the loops return the first refusal in order, or the verdict stated about the set of observations |
| `Reconciliation.EvaluateAll` | services/reconciliation/protocol.py:222-246 | screening with the two seen-sets refuses exactly what the specification refuses and evaluates every observation in order |
| `Reconciliation.BuildRegistry` | services/reconciliation/protocol.py:103-108 | a repeated source id is refused; otherwise the registry holds exactly the descriptors |
| `Reconciliation.ExecutionStatus` | services/reconciliation/protocol.py:248-260 | finalized exactly when a matching observation is finalized, unknown exactly when none matches |
| `Reconciliation.AnyDiverse` | services/reconciliation/protocol.py:304-313 | finds exactly whether some candidate differs from every baseline |
| `Reconciliation.Normalize` | services/reconciliation/protocol.py:140-195 | an accepted observation moved exactly its amount out of one account and into the other |
| `Reconciliation.Disagreements` | services/reconciliation/protocol.py:316-334 | the list of disagreements is empty if and only if the observation matches |
| `Reconciliation.DisagreementsExactly` | services/reconciliation/protocol.py:316-334 | the list of disagreements names exactly the fields that differ |
| `Reconciliation.GenuineIff` | services/reconciliation/protocol.py:140-195 | a single observation is accepted if and only if it is well formed, balanced and from a registered source |
| `Reconciliation.ScreenIff` | services/reconciliation/protocol.py:222-232 | acceptance is a property of the collection: genuine, unrepeated observations of distinct sources |
| `Reconciliation.OrderDoesNotMatter` | services/reconciliation/protocol.py:248-301 | neither acceptance nor any of the four statuses depends on the order of the observations |
| `Reconciliation.ApprovedIff` | services/reconciliation/protocol.py:262-273 | approved if and only if all observations match and one is L1 |
| `Reconciliation.ExecutionIff` | services/reconciliation/protocol.py:248-260 | finalized if and only if a matching observation is finalized, confirmed if and only if some match and none is, unknown if and only if none match |
| `Reconciliation.StandingIff` | services/reconciliation/protocol.py:262-273 | disputed if and only if an observation differs, verified if and only if all match and one is L1; the other statuses agree with it |
| `Reconciliation.RefusedForReason` | services/reconciliation/protocol.py:222-246 | a list is refused for its first observation at fault, and for a fault that it has |
| `Reconciliation.DisagreementIsFinal` | services/reconciliation/protocol.py:262-265 | one disagreement disputes everything, whatever else is present |
| `Reconciliation.IndependenceIff` | services/reconciliation/protocol.py:274-292 | l2 and l3 verified exactly when approved with a matching source of that class diverse from every matched L1 |
| `Reconciliation.IndependentIff` | services/reconciliation/protocol.py:304-313 | a matching source is independent if and only if it shares neither provider, trust domain nor endpoint with any matching L1 |
| `Reconciliation.ApprovedMeansTransferred` | services/reconciliation/protocol.py:140-195 | in an approved aggregate every registered source saw exactly the expected transfer |
| `Reconciliation.MoreSourcesCanWithdraw` | services/reconciliation/protocol.py:274-292 | adding a matching L1 that shares a provider, domain or endpoint withdraws an independent verification |

## Left out

- SettlementReservations.SettlementsStayWithinActivated: assumes that no recovery is written after its settlement stopped being recoverable and that S never decreases between registrations, because the code allows both and the bound then fails in reachable tables (SettlementWitnesses); SettlementExactness.WithinActivatedExactly and SettlementOvertaking.WithinActivatedAnyway say from exactly which tables it holds without them.
- SettlementExactness.DriveToCompletion: the continuation chooses what the executor answers and what the observations show, as any executor and any vouched source might; it does not say that the bundled fake executor would answer so.
- SettlementWitnesses.OverlapIsReached: the run starts from any tables with nothing registered, the empty ones among them, and its steps between the two registrations and the two completions are those that SettlementExactness.DriveToCompletion constructs.
- RefundConservation.RefundsStayWithinUnallocated: assumes that the registered freezes share F and A with R nondecreasing, because registration takes any well-formed freeze; RefundExactness.CoveredExactly gives the exact condition without that assumption.
- LifecycleTheorems.Conservation: a settlement or refund takes effect when it starts from the channel's present S or R, which is what a truthful reconciled observation shows; lifecycle states such as settling, blocked or disputed are not entered by its steps.
- FailureLabRuntime.DurableExecutionLab.Execute: event payloads leave out the reason text and repeated attempt numbers.
- The hash columns of the refund and settlement journals and their previous-hash links; the lab's event chain shows how such a chain is verified.
- Which of several reasons a refusal gives when more than one is so: the bodies follow the source's order, and the theorems say that the reason given is so.
- Error texts and field names of refusals, and the order among the pattern checks folded into `wellFormed`.
- SQLite itself: connections, write-ahead logging, timeouts and file paths.
- SHA-256, RFC 8785 serialization, HMAC, Ed25519 and base64, which are library code.
- The signer, recipient binding, capability tables and the executor service around the fake executor: each inserts or claims a row once, and nothing modelled here depends on how.
- The chaos proxy and process chaos, whose event chain repeats the lab's.
- Solana RPC sources, backfill, evidence generators and scripts.
- The TypeScript claim links, redaction and resolver, and the conformance runners.
- The instruction contracts that the program's lib.rs exports; their source is not part of this model.
- Liveness: a crash in `submitted` or `broadcast_in_flight` and a disputed refund are deliberate dead ends.
- Read-only accessors such as `get`, `journal`, `status` and `evidence`.
