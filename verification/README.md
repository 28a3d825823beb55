# WaveFlow verification model

A Dafny model of the WaveFlow bounty system, with proofs about it. It has two large parts and a
few small ones.

**The escrow contract.** `EscrowSpec` gives every entry point as an atomic operation on the
contract's storage, the token ledger and the event log: guards in the order of the code, then all
effects at once. `EscrowContract.WaveFlowEscrow` is the contract as it is written: a class whose
methods read and assign fields, move tokens and publish events statement by statement; each method
is proved to be the atomic operation. `EscrowSteps` writes out what a successful call requires and
changes, `EscrowInvariant` what every reachable state satisfies. On top of that: whole runs
(`EscrowRuns`), batches of merges in any order (`EscrowMerges`), isolation of programs
(`EscrowIsolation`), dead error branches and the full drain (`EscrowDrain`), what every call answers
and when (`EscrowAnswers`), program ids (`EscrowIds`) and the event log (`EscrowEvents`).

**The gateway.** `GatewayTables` has the Postgres tables, their constraints and the statements run
on them. `GatewayProtocol` is a state machine of any number of webhook handlers: one database
statement or one submission is one atomic step; handlers and admin calls interleave freely,
handlers may crash anywhere, and any statement may be lost before or after it took effect.
`GatewayService` is the same in place: a database class with one method per statement and a gateway
class that advances a handler by one step, proved equal to the state machine. `GatewayInvariant` and
`GatewayRuns` hold the invariant over all runs, `GatewayAccounting` the books and the amounts,
`GatewayStatements` what each statement does and where table entries come from, `GatewayRequests`
which requests get anywhere, `GatewayAnswers` what each step and each kind of delivery is answered,
`GatewayGaps` when the books are behind the payout rows, `GatewayProgress` what follows for a
handler that is left alone and that every handler ends, `GatewayReplies` what replays are answered,
`GatewayDeliveries` what becomes of a delivery id, `GatewayGenuine` a genuine delivery among all
others, `GatewayJourneys` its way written out when it runs alone, and `GatewayDuplicates` when one PR
is submitted twice. `EndToEnd` runs gateway and contract together.

**Small parts.** `Slugs` (the two repository validators), `Tags` (transaction tags), `RowEncodings`
and `Records` (columns and back), `Token` (a plain ledger with the `transfer` of the Interface
section of SEP-41). `Containers`, `Integers` and `Reordering` are shared helpers.

## Assumptions

- `initialize` is the first successful call of a run. `EscrowIds` proves that this is exactly what
  dense ids need, and shows the loss when it does not hold.
- The contract's own address never signs a transaction. A contributor's address may be the
  contract's own address, and anybody may send tokens to the contract.
- The token is one plain ledger: balances are non-negative, the supply fits `i128`, a refused
  transfer aborts the call, and an error or abort rolls everything back.
- `milestone_cap` is any `i128`, negative values included.
- The program counter stays below `2^64 - 1`. (The `overflow-checks` profile of
  `contracts/waveflow-escrow/Cargo.toml` is that of a workspace member, which Cargo does not apply.)
  Where the counter could not go on, the model aborts the call.
- A payout row's `Uuid` is an input; the primary key refuses one that is taken. The rows of
  `payouts` are indexed by their unique key (program, PR).
- Whether a webhook signature verifies is an input. A submission only appends to a log, since
  `submit_attestation` only returns a tag.

## Results that contradict the documentation or common belief

- `docs/gateway/idempotency-layers.md` says a replay is answered with a conflict. A delivery that
  reaches the existence check once the row is saved is answered `already_processed` with the
  payout's id (`GatewayReplies.UndisturbedReplay`). A conflict is what a handler is answered that
  passed the check before the row came (`GatewayReplies.LateIsConflict`).
- The same page lists the payout check before submission as a layer that blocks duplicates. Of two
  handlers of one PR that lose nothing and are left to go on, both submit iff neither check read a
  row for the PR: it blocks the second one iff some row was saved before it read
  (`GatewayDuplicates.TwiceIffBothReadNoRow`). A run from an initial state shows both being submitted
  (`GatewayDuplicates.BothMaySubmit`). The unique key and the contract are what keeps the payment
  single (`GatewayDuplicates.SecondConflicts`, `EndToEnd.PaidAtMostOnce`).
- `docs/database/webhook-events-audit.md` says a completed payout leaves a `processed` row, and
  ignored and failed deliveries rows of their own. They do iff the delivery carries no id
  (`GatewayDeliveries.ProcessedIffNoId`, `GatewayDeliveries.AuditedIffNoId`): the claim already holds
  the id. So the reachable audit rows with an id are those of claims and of refused requests
  (`GatewayDeliveries.IdsOnlyClaimedOrRefused`), and an identified delivery that is paid answers with
  a database error (`GatewayGenuine.GenuineAnswer`).
- The audit row of a request with a bad signature uses up the delivery id it names, and so does a
  crash after the claim: nothing is submitted for that id afterwards
  (`GatewayDeliveries.RefusalUsesUpId`, `GatewayDeliveries.CrashUsesUpId`).
- `docs/database/postgres-chain-state-drift.md` says no statement updates the balance columns. One
  does, right after the payout row (`GatewayAccounting.BooksBalance`). Its warning that they are not
  updated on every payout holds all the same: `milestone_spent` is the sum of the payout rows iff no
  handler has saved a row without counting it (`GatewayGaps.SpentIsPaidIff`), a crash or a lost
  statement between the two leaves such a row (`GatewayGaps.CrashLeavesGap`), and nothing makes up
  for it later (`GatewayGaps.GapIsPermanent`).
- `docs/contracts/program-lifecycle-admin.md` speaks of admin-only operations; the code checks the
  program's maintainer.
- `docs/validation/github-repo-slug-rules.md` gives a maximum length; no code checks one. The two
  validators differ on spaces only (`Slugs.ValidatorsAgree`).
- `fund` can report `Overflow` after it has moved tokens, but in no reachable state. In
  `record_merge` the subtraction after the transfer cannot fail in any state at all.

## Model

| member | source | states |
|---|---|---|
| Token.Transfer | contracts/waveflow-escrow/src/contract.rs:190-194 | a transfer moves exactly the amount between the two balances and touches no other, self-transfers included |
| Token.TransferSucceeds | contracts/waveflow-escrow/src/contract.rs:87-88 | with a supply that fits, a transfer is refused iff the amount is negative or the sender is short |
| Token.TransferConserves | contracts/waveflow-escrow/src/contract.rs:190-194 | a transfer keeps every balance non-negative and the supply unchanged |
| EscrowContract.WaveFlowEscrow.InitializeCall | contracts/waveflow-escrow/src/contract.rs:24-34 | once only, signed by the admin; sets roles, token and a zero counter; otherwise nothing changes |
| EscrowContract.WaveFlowEscrow.NextProgramId | contracts/waveflow-escrow/src/storage.rs:52-63 | the next id is the stored counter plus one, zero when unset |
| EscrowContract.WaveFlowEscrow.CreateProgramCall | contracts/waveflow-escrow/src/contract.rs:37-73 | behaves as the atomic creation: all checks, then id, record and event together, or nothing |
| EscrowContract.WaveFlowEscrow.FundStatements | contracts/waveflow-escrow/src/contract.rs:76-106 | statement order agrees with the atomic deposit on success and on the error; in reachable states every failure leaves the state untouched although tokens move early |
| EscrowContract.WaveFlowEscrow.InvokeFund | contracts/waveflow-escrow/src/contract.rs:76-106 | under the host's rollback, funding is the atomic deposit in every state |
| EscrowContract.WaveFlowEscrow.RegisterContributorCall | contracts/waveflow-escrow/src/contract.rs:109-146 | write-once registration by the maintainer, or nothing |
| EscrowContract.WaveFlowEscrow.RecordMergeCall | contracts/waveflow-escrow/src/contract.rs:149-215 | statement order equals the atomic payout in every state, failures included, without needing a rollback |
| EscrowContract.WaveFlowEscrow.PauseCall | contracts/waveflow-escrow/src/contract.rs:218-231 | only the maintainer pauses; only the status changes, with its event |
| EscrowContract.WaveFlowEscrow.ResumeCall | contracts/waveflow-escrow/src/contract.rs:234-247 | only the maintainer resumes; only the status changes, with its event |
| EscrowContract.WaveFlowEscrow.SetRatioCall | contracts/waveflow-escrow/src/contract.rs:250-267 | only the maintainer sets a positive ratio; nothing else changes |
| EscrowContract.WaveFlowEscrow.WithdrawRemainingCall | contracts/waveflow-escrow/src/contract.rs:270-298 | only from a paused program to its maintainer, the whole escrow, or nothing |
| EscrowSteps.StepEffect | contracts/waveflow-escrow/src/contract.rs:24-298 | what each successful call required of the caller, its arguments and the state before, and changed in the state after; failures change nothing |
| EscrowInvariant.StepKeepsInv | contracts/waveflow-escrow/src/contract.rs:76-298 | every transaction keeps: dense ids, non-negative escrows, spent within the cap, and the total escrow covered by the contract's tokens |
| EscrowInvariant.StepBalances | contracts/waveflow-escrow/src/contract.rs:76-298 | the contract's tokens and the total escrow move together except for outside transfers in and payouts to the contract itself |
| EscrowInvariant.FundFits | contracts/waveflow-escrow/src/contract.rs:90-93 | a deposit the ledger accepts cannot overflow the program's escrow |
| EscrowRuns.RunKeepsInv | contracts/waveflow-escrow/src/contract.rs:24-298 | every state of every run satisfies the invariant; contract, gateway and token stay the same |
| EscrowRuns.ExactSolvency | contracts/waveflow-escrow/src/contract.rs:76-298 | over every run, tokens held minus total escrow equals the starting tokens plus outside transfers in plus payouts to the contract's own address |
| EscrowRuns.EscrowIsConserved | contracts/waveflow-escrow/src/contract.rs:90-94 | over every run, a program's escrow is its deposits less payouts less withdrawals, and never negative |
| EscrowRuns.LifetimeCap | contracts/waveflow-escrow/src/contract.rs:178-187 | a capped program's spent amount is the sum of all its payouts ever and at most max(cap, 0); an uncapped program's is zero |
| EscrowRuns.TermsStay | contracts/waveflow-escrow/src/contract.rs:51-60 | cap and maintainer never change after creation |
| EscrowRuns.PaidExactlyOnce | contracts/waveflow-escrow/src/contract.rs:164-201 | (program, PR) is flagged processed iff the run holds exactly one payout for it, and otherwise none |
| EscrowRuns.PayoutIsExact | contracts/waveflow-escrow/src/contract.rs:171-194 | a payout is positive, equals points times the ratio in force, and moves exactly that from the contract to the registered address |
| EscrowRuns.ContributorsStay | contracts/waveflow-escrow/src/contract.rs:122-134 | a registered address is never changed or removed |
| EscrowRuns.OneRecipientPerContributor | contracts/waveflow-escrow/src/storage.rs:78-99 | all payouts of a run for one (program, username) go to one address |
| EscrowRuns.EscrowFallsOnlyBy | contracts/waveflow-escrow/src/contract.rs:157-169 | escrow falls only by a merge the gateway signed while active or a full withdrawal the maintainer signed while paused |
| EscrowRuns.NoPayoutWhilePaused | contracts/waveflow-escrow/src/storage.rs:111-116 | between a pause and a later payout of the same program there is a resume |
| EscrowRuns.NothingBeforeCreation | contracts/waveflow-escrow/src/storage.rs:39-44 | a program that does not exist has never been paid from |
| EscrowMerges.PaidIff | contracts/waveflow-escrow/src/contract.rs:157-199 | in a reachable state a merge is paid iff it is eligible and fits escrow and cap; no transfer or arithmetic failure stands in the way |
| EscrowMerges.PaidState | contracts/waveflow-escrow/src/contract.rs:172-214 | exactly what a paid merge leaves behind, and that the invariant holds there |
| EscrowMerges.CapDecides | contracts/waveflow-escrow/src/contract.rs:178-187 | an eligible merge covered by the escrow is paid iff there is no cap or it fits what the cap has left, which then shrinks by it; otherwise the refusal tells a sum beyond i128 from one beyond the cap |
| EscrowMerges.PaidInFullIff | contracts/waveflow-escrow/src/contract.rs:149-215 | a batch is paid in full iff its PRs are distinct, each merge is eligible, and each program's sum fits its escrow and its remaining cap |
| EscrowMerges.AnyOrderPays | contracts/waveflow-escrow/src/contract.rs:149-215 | if one order of a batch is paid in full, every order is, with the same storage and balances and the same multiset of events |
| EscrowMerges.AffordableInAnyOrder | contracts/waveflow-escrow/src/contract.rs:149-215 | an affordable batch succeeds in every order, to one outcome |
| EscrowMerges.MergesCommute | contracts/waveflow-escrow/src/contract.rs:189-201 | two payable merges, of one program or of two, lead to the same state in either order |
| EscrowIsolation.SameMerge | contracts/waveflow-escrow/src/contract.rs:168-201 | two reachable states that agree on a program give the same merge result for it and agree afterwards |
| EscrowIsolation.SameWithdrawal | contracts/waveflow-escrow/src/contract.rs:276-297 | the same for withdrawals, although all programs share one balance |
| EscrowIsolation.OthersUntouched | contracts/waveflow-escrow/src/contract.rs:200-201 | a call elsewhere leaves a program's record, contributors and processed flags unchanged |
| EscrowIsolation.SameFunding | contracts/waveflow-escrow/src/contract.rs:76-106 | a deposit signed by the maintainer has the same result in two agreeing states iff the funder can pay in both or in neither |
| EscrowIsolation.NonInterference | contracts/waveflow-escrow/src/contract.rs:76-298 | removing every call not on a program from a sequence changes no result on it and nothing stored for it, as long as its funders can make the same deposits |
| EscrowDrain.FundFailures | contracts/waveflow-escrow/src/contract.rs:78-94 | in reachable states funding succeeds iff signed, positive, affordable and by the maintainer; overflow and missing token are dead branches |
| EscrowDrain.MergeFailures | contracts/waveflow-escrow/src/contract.rs:172-199 | a signed merge never aborts, and reports overflow iff the product or the cap's total overflows, never for the final subtraction |
| EscrowDrain.WithdrawSucceedsIff | contracts/waveflow-escrow/src/contract.rs:276-297 | a withdrawal succeeds iff signed by the maintainer of a paused program, and pays the whole recorded escrow |
| EscrowDrain.DrainsInAnyOrder | contracts/waveflow-escrow/src/contract.rs:270-298 | programs drained in any order each pay exactly their recorded escrow and no transfer fails |
| EscrowDrain.DrainPaysMaintainers | contracts/waveflow-escrow/src/contract.rs:289-297 | every holder gains exactly the escrows of its own programs |
| EscrowDrain.FullDrain | contracts/waveflow-escrow/src/contract.rs:284-297 | after draining all programs no escrow is left and the contract keeps exactly its surplus |
| EscrowAnswers.InitializeAnswers | contracts/waveflow-escrow/src/contract.rs:24-34 | initialize succeeds iff nobody has initialized and the admin it names signs; already initialized and unsigned are the other two answers |
| EscrowAnswers.DeploymentStarts | contracts/waveflow-escrow/src/contract.rs:24-34 | on every fresh deployment the admin's signature leads to the state all runs start from, with the given admin, gateway and token |
| EscrowAnswers.CreateAnswers | contracts/waveflow-escrow/src/contract.rs:44-50 | success and each refusal of a creation, from signer, ratio, slug and counter |
| EscrowAnswers.RegisterAnswers | contracts/waveflow-escrow/src/contract.rs:116-125 | success and each refusal of a registration, from signer, program, maintainer and existing entry |
| EscrowAnswers.PauseAnswers | contracts/waveflow-escrow/src/contract.rs:218-247 | the maintainer, signing with anybody else or alone, may pause and resume in any status; unknown program, other caller and missing signature are told apart |
| EscrowAnswers.SetRatioAnswers | contracts/waveflow-escrow/src/contract.rs:256-263 | success and each refusal of a ratio change; the ratio is checked before the program |
| EscrowAnswers.FundRefusals | contracts/waveflow-escrow/src/contract.rs:77-86 | each refusal of a deposit in any state, the amount being checked before the program and the program before the token |
| EscrowAnswers.FundAnswers | contracts/waveflow-escrow/src/contract.rs:77-94 | all answers to a deposit in a reachable state |
| EscrowAnswers.WithdrawRefusals | contracts/waveflow-escrow/src/contract.rs:275-288 | each refusal of a withdrawal in any state; an empty escrow needs no token |
| EscrowAnswers.WithdrawAnswers | contracts/waveflow-escrow/src/contract.rs:275-297 | all answers to a withdrawal in a reachable state |
| EscrowAnswers.MergeRefusals | contracts/waveflow-escrow/src/contract.rs:157-171 | in any state, exactly when a merge is answered unauthorized, invalid ratio, already processed, unknown program, paused, or unknown contributor |
| EscrowAnswers.MergeAmounts | contracts/waveflow-escrow/src/contract.rs:172-187 | in a reachable state, exactly when an unobjected merge lacks escrow, exceeds the cap, overflows, or is paid |
| EscrowAnswers.PausedMergeRefused | contracts/waveflow-escrow/src/storage.rs:111-116 | in any run, between a pause and the next resume the gateway's merges of unpaid PRs are answered program paused |
| EscrowAnswers.OutsideTransferAnswers | contracts/waveflow-escrow/src/contract.rs:88 | a transfer of the token by its holder succeeds iff signed, non-negative and covered |
| EscrowIds.CreationIsFresh | contracts/waveflow-escrow/src/storage.rs:52-63 | a creation takes the id after the number of programs, used by no program, contributor or processed flag, and adds exactly it |
| EscrowIds.DenseIffNoEarlyProgram | contracts/waveflow-escrow/src/contract.rs:25-33 | ids are dense after initialize iff the program counter was unset before it |
| EscrowIds.EscrowLostByLateInitialize | contracts/waveflow-escrow/src/storage.rs:53-58 | a concrete run from deployment in which a late initialize makes the next creation reuse id 1, and ten deposited tokens lose their record |
| EscrowEvents.EventsRebuildStorage | contracts/waveflow-escrow/src/events.rs:4-50 | replaying the log of any run rebuilds programs, maintainers, repos, statuses, contributors and processed PRs, and a balance off by exactly what was withdrawn since the last deposit |
| EscrowEvents.NeverWithdrawn | contracts/waveflow-escrow/src/contract.rs:289-297 | for a program never withdrawn from, the replayed balance has nothing to correct |
| EscrowEvents.RatioIsCurrentIff | contracts/waveflow-escrow/src/contract.rs:62-70 | the ratio in the log is a program's ratio iff none was set since its creation or the one set last is the same |
| Slugs.SplitJoin | crates/shared/src/types.rs:106 | joining undoes splitting, no part holds a slash, and there is one part more than slashes |
| Slugs.ValidatorsAgree | contracts/waveflow-escrow/src/storage.rs:101-109 | the service's validator accepts a slug iff the contract's does and it holds no space |
| Slugs.SpaceTellsThemApart | crates/shared/src/types.rs:105-108 | a slug with a space that only the contract accepts |
| Tags.DecimalRoundTrip | crates/gateway/src/attestation.rs:161-164 | decimal formatting is undone by reading and contains no dash |
| Tags.TagInjective | crates/gateway/src/attestation.rs:161-171 | a tag determines its mode, on-chain program id and PR number |
| Tags.TagPrefix | crates/gateway/src/attestation.rs:161-171 | a tag starts with simulated-tx- iff it was made in that mode, and with dry-run- iff in the other |
| Tags.TagReadsBack | crates/gateway/src/attestation.rs:161-171 | behind its prefix a tag reads as the program id, a dash and the PR number, in this order |
| RowEncodings.IdRoundTrip | crates/api/src/routes/admin.rs:62 | a 64-bit id survives its column iff it is at most i64::MAX |
| RowEncodings.PointsRoundTrip | crates/gateway/src/attestation.rs:200 | points survive their column iff at most i32::MAX |
| RowEncodings.CastsKeepBits | crates/gateway/src/attestation.rs:25 | casting a signed column to unsigned keeps its value modulo the width, negative columns included |
| RowEncodings.RewardFits | crates/gateway/src/routes.rs:272 | the unchecked product of any points and ratio fits i128, and for one point fits i64 |
| Records.CreatedProgramReadsBack | crates/api/src/routes/mod.rs:194-212 | a created program is read back as written, its id exactly when it fits |
| Records.ProgramRecordShows | crates/api/src/routes/mod.rs:194-212 | the record of any program row shows each column, paused exactly for a paused row, and no two rows have one record |
| Records.PayoutRecordShows | crates/api/src/routes/mod.rs:228-240 | the record of any payout row shows each column, and no two rows have one record |
| Records.StoredPayoutReadsBack | crates/api/src/routes/mod.rs:228-240 | a payout is stored iff amount and PR fit, the program exists, the PR is unpaid, the row id free and points and amount positive; it is read back as written, points iff in range |
| GatewayRuns.NextExtends | migrations/001_init.sql:4-36 | every action of a handler or an admin keeps all unique, foreign-key and check constraints, delivery ids included, and only adds rows: ids, repositories, addresses and payouts never change |
| GatewayStatements.EventIsInserted | crates/gateway/src/attestation.rs:248-276 | an audit row is inserted iff its delivery id, if any, is on no row, and nothing else changes |
| GatewayStatements.DeliveryIsClaimed | crates/gateway/src/attestation.rs:221-246 | a claim succeeds iff no row has the id, adds its row, and is a conflict otherwise |
| GatewayStatements.PayoutIsFound | crates/gateway/src/attestation.rs:60-73 | the payout read finds the PR's row; PR numbers beyond BIGINT share the last one |
| GatewayStatements.PayoutIsSaved | crates/gateway/src/attestation.rs:185-217 | exactly when saving a payout is an internal error or a conflict, and that it adds one row and changes nothing else |
| GatewayStatements.TotalsAreUpdated | crates/gateway/src/attestation.rs:102-117 | the update adds the amount to spent, takes it from the balance not below zero and leaves every other column and row; exactly when it fails, and how |
| GatewayStatements.FaultsDecide | crates/gateway/src/attestation.rs:190-216 | a lost statement has its effect or not, and is seen as a database error unless it was never sent |
| GatewayStatements.AddressIsAccepted | crates/shared/src/types.rs:111-115 | an address is accepted iff it is a G and fifty-five base-32 letters |
| GatewayStatements.ProgramIsCreated | crates/api/src/routes/admin.rs:44-79 | exactly when a creation is invalid, a conflict or accepted, and the one row it then adds |
| GatewayStatements.StatusIsTurned | crates/api/src/routes/admin.rs:84-116 | pausing turns exactly an active program and resuming exactly a paused one, and nothing else changes |
| GatewayStatements.RatioIsSet | crates/api/src/routes/admin.rs:128-143 | a positive ratio is stored for an existing program and nothing else changes; the two refusals told apart |
| GatewayStatements.ContributorIsRegistered | crates/api/src/routes/admin.rs:166-206 | a registration stores exactly the address it was given, iff it is valid, the program exists and the pair is free; each refusal told apart |
| GatewayStatements.AddressesWereGiven | crates/api/src/routes/admin.rs:182-206 | in any run, every contributor's address was there at the start or is that of the accepted registration that added it |
| GatewayStatements.PayoutAddressesWereGiven | crates/gateway/src/routes.rs:244-281 | so is the address of every payout row, for its program and user |
| GatewayStatements.TermsWereGiven | crates/api/src/routes/admin.rs:60-66 | in any run, a program's repository, maintainer, cap and ratio are those it started or was created with, the ratio unless set since |
| GatewayStatements.StatusWasTurned | crates/api/src/routes/admin.rs:84-116 | in any run, a program is paused only if it was at the start or a pause was asked for, and active again only after a resume |
| GatewayService.Database.PersistWebhookEvent | crates/gateway/src/attestation.rs:248-276 | inserts the audit row unless its delivery id is taken, under any fault |
| GatewayService.Database.ClaimDeliveryId | crates/gateway/src/attestation.rs:221-246 | claims an id nobody holds; a taken id is a conflict |
| GatewayService.Database.FindProgram | crates/gateway/src/attestation.rs:9-26 | the one active program of a repository, or not found |
| GatewayService.Database.SavePayoutRow | crates/gateway/src/attestation.rs:176-218 | inserts the row under every constraint; overflow and conflict as in the code |
| GatewayService.Database.IncrementMilestoneSpent | crates/gateway/src/attestation.rs:102-117 | adds to spent and lowers the balance not below zero, or fails on BIGINT range |
| GatewayService.Database.CreateProgram | crates/api/src/routes/admin.rs:40-82 | validates, then inserts with zero balances unless a unique column collides |
| GatewayService.Database.SetStatus | crates/api/src/routes/admin.rs:84-116 | guarded status update, not found when no row matches |
| GatewayService.Database.UpdateRatio | crates/api/src/routes/admin.rs:123-147 | positive ratio on an existing program, or the error |
| GatewayService.Database.RegisterContributor | crates/api/src/routes/admin.rs:162-211 | write-once registration for an existing program, or the error |
| GatewayService.Gateway.Intake | crates/gateway/src/routes.rs:84-131 | signature, duplicate check and claim, one statement at a time |
| GatewayService.Gateway.ReadNext | crates/gateway/src/routes.rs:226-271 | the reads of process_merge, one at a time |
| GatewayService.Gateway.WriteNext | crates/gateway/src/routes.rs:271-295 | payout row, increment and audit rows, one at a time |
| GatewayService.Gateway.StepHandler | crates/gateway/src/routes.rs:72-310 | one step of a handler equals one step of the state machine on tables, handlers and submission log |
| GatewayInvariant.AdvanceOk | crates/gateway/src/routes.rs:119-283 | a step keeps a handler in order: claim before submission, submission before row, row before increment |
| GatewayRequests.UnsignedIsRefused | crates/gateway/src/routes.rs:84-106 | a request whose signature does not verify is refused at its first step, under any fault, with or without an id |
| GatewayAnswers.RefusalIsAudited | crates/gateway/src/routes.rs:84-106 | a refused request leaves a rejected row under its delivery id, unless that id is recorded or the insert is lost |
| GatewayRequests.UnsignedGoesNowhere | crates/gateway/src/routes.rs:84-106 | in any run such a handler never gets past its refusal and nothing is submitted for it |
| GatewayRequests.DecodeDecides | crates/gateway/src/webhook.rs:30-47 | a decoded delivery goes on iff it is a pull request closed by merging into the default branch, with its repo, author, number and one point; exactly which others are ignored and which malformed |
| GatewayRequests.SubmissionsAreGenuine | crates/gateway/src/routes.rs:226-269 | every submission of every run is for a signed delivery of such a merge, and names its PR, its author, one point, its delivery id and the on-chain id of its repository's program |
| GatewayRequests.PayoutsAreGenuine | crates/gateway/src/routes.rs:226-281 | every payout row of every run names the PR and the author of such a delivery for its program's repository |
| GatewayAnswers.SeenCheckDecides | crates/gateway/src/routes.rs:119-126 | a read that finds the id recorded answers duplicate; a lost read or a new id goes on to the claim |
| GatewayAnswers.ClaimDecides | crates/gateway/src/routes.rs:127-131 | a claim goes on iff the id is new and nothing is lost; a recorded id is a conflict, a lost claim a database error |
| GatewayAnswers.LostReadFails | crates/gateway/src/attestation.rs:9-73 | any lost read of process_merge ends in a database error |
| GatewayAnswers.ResolveDecides | crates/gateway/src/routes.rs:227-228 | a repository resolves to its active program and that program's on-chain id, or is not found |
| GatewayAnswers.StatusDecides | crates/gateway/src/routes.rs:230-232 | a program paused in the meantime makes the delivery ignored |
| GatewayAnswers.ContributorDecides | crates/gateway/src/routes.rs:244-260 | a registered contributor's address is taken; an unregistered one is a NotFound failure |
| GatewayAnswers.SaveDecides | crates/gateway/src/routes.rs:273-281 | a row saved without a fault leads on, and each failure of the statement is the answer |
| GatewayAnswers.IncrementDecides | crates/gateway/src/routes.rs:283 | the increment leads on iff the totals stay in range and nothing is lost, and is a database error otherwise |
| GatewayAnswers.AuditAnswers | crates/gateway/src/routes.rs:165-220 | the answer stands whatever becomes of its audit row, which records it under the delivery's id unless that is recorded already |
| GatewayAnswers.EndsAnswered | crates/gateway/src/routes.rs:154-222 | a handler that has come to an answer gives that one, unless it crashes, and never submits |
| GatewayAnswers.UnregisteredIsNotFound | crates/gateway/src/routes.rs:244-260 | a delivery without a registered contributor changes nothing, is answered NotFound, and nothing is ever submitted for it |
| GatewayAnswers.UnknownRepoIsNotFound | crates/gateway/src/routes.rs:227-228 | nor for one whose repository has no active program |
| GatewayAnswers.RedeliveryIsDuplicate | crates/gateway/src/routes.rs:119-126 | a signed redelivery of a recorded id that loses nothing is answered duplicate at its second step, under any interleaving |
| GatewayAnswers.RedeliveryIsHarmless | crates/gateway/src/routes.rs:119-131 | under any faults and any interleaving, none of its steps changes a table or submits anything |
| GatewayRuns.RunKeepsGInv | crates/gateway/src/routes.rs:72-310 | the invariant holds after every interleaving, crash and lost statement, and rows only grow |
| GatewayRuns.OneSubmissionPerDelivery | crates/gateway/src/routes.rs:119-131 | two submissions with one delivery id are the same submission, for any number of concurrent handlers |
| GatewayRuns.NewRowBacked | crates/gateway/src/routes.rs:262-281 | when a payout row appears, its submission was already in the log |
| GatewayRuns.RowsAreBacked | crates/gateway/src/attestation.rs:135-174 | every payout row has a logged submission with its on-chain id, PR, user, points and tag, and the contributor's permanent address |
| GatewayRuns.TagsAreUnique | crates/gateway/src/attestation.rs:161-171 | no two payout rows share a tag, across submission modes |
| GatewayRuns.SaveFailsOnlyFor | crates/gateway/src/attestation.rs:185-215 | saving fails iff the PR exceeds i64::MAX, is already paid, or the row id is taken; the amount always fits |
| GatewayAccounting.BooksBalance | crates/gateway/src/attestation.rs:102-117 | after every interleaving, spent plus rows not yet counted is the sum of the payout rows, and the balance is max(opening − spent, 0) |
| GatewayAccounting.PendingRowsExist | crates/gateway/src/routes.rs:273-283 | an uncounted amount is that of an existing payout row, and of one handler only |
| GatewayAccounting.AmountsWereRatios | crates/gateway/src/routes.rs:271-281 | the amount of every payout row is the ratio its program had in an earlier state of the run, one in which the row's submission was already logged |
| GatewayGaps.SpentIsPaidIff | crates/gateway/src/routes.rs:273-283 | in every reachable state milestone_spent is at most the sum of the payout rows, and equal to it iff no handler has saved a row without counting it |
| GatewayGaps.GapIsPermanent | crates/gateway/src/routes.rs:273-283 | once a handler has lost its increment or crashed before it, milestone_spent stays below the sum in every later state |
| GatewayGaps.CrashLeavesGap | crates/gateway/src/routes.rs:273-283 | from any consistent state in which a delivery can be paid, a crash between row and increment gets there |
| GatewayGaps.SpentMayStayBehind | crates/gateway/src/routes.rs:273-283 | a run from an initial state after which milestone_spent never equals the payout rows again |
| GatewayProgress.HandlersEnd | crates/gateway/src/routes.rs:72-310 | under any interleaving and any faults a handler has answered or crashed after at most fourteen steps of its own |
| GatewayReplies.ReplaysAreStable | crates/gateway/src/routes.rs:227-242 | once a payout row exists, handlers not past the existence check never submit for it and are never answered processed, and any already_processed answer names that row |
| GatewayReplies.ReplayAnswers | crates/gateway/src/routes.rs:226-242 | a replay of a paid PR, under any interleaving, never submits and ends as already_processed with the paid row's id unless it loses a statement, crashes, or does not see its program active |
| GatewayReplies.UndisturbedReplay | crates/gateway/src/routes.rs:226-242 | a replay that loses nothing and sees its program active is after each of its steps exactly where the code puts it, and from the fourth on answered already_processed with the paid row's id |
| GatewayReplies.LateIsConflict | crates/gateway/src/attestation.rs:202-215 | a handler past the check when the row comes is, left alone, answered with a conflict, or an internal error for a PR beyond BIGINT, and the row stays |
| GatewayDeliveries.ProcessedIffNoId | crates/gateway/src/routes.rs:285-309 | the audit row after a payout is accepted, and the answer is processed, iff the delivery carries no id; with an id the insert changes nothing and the handler reports a database error |
| GatewayDeliveries.AuditedIffNoId | crates/gateway/src/routes.rs:141-212 | the audit row of an ignored, failed or processed delivery is accepted iff the delivery carries no id |
| GatewayDeliveries.IdsOnlyClaimedOrRefused | crates/gateway/src/routes.rs:84-310 | in every reachable state the audit rows with a delivery id are those of claims and of refused requests, and no identified delivery is answered processed |
| GatewayDeliveries.SpentForGood | crates/gateway/src/routes.rs:119-131 | an id that is recorded while no handler is on its way with it is never submitted again |
| GatewayDeliveries.RefusalUsesUpId | crates/gateway/src/routes.rs:84-105 | a request with a bad signature and a new delivery id bars every later submission for that id |
| GatewayDeliveries.CrashUsesUpId | crates/gateway/src/routes.rs:127-131 | a crash between claim and submission bars every submission for that id |
| GatewayGenuine.GenuineDelivery | crates/gateway/src/routes.rs:72-310 | a genuine delivery that loses nothing and finds at each of its own steps what that step needs is always exactly as far as the code puts it, whatever happens between its steps |
| GatewayGenuine.GenuineAnswer | crates/gateway/src/routes.rs:226-310 | after fourteen of its own steps its attestation is logged, its row saved for the registered address under that tag and counted; it is answered processed iff it carries no id, with a database error otherwise |
| GatewayJourneys.PaidAlone | crates/gateway/src/routes.rs:72-283 | running alone, from any consistent state, a payable merge is claimed, submitted once, saved as its exact row and counted; the whole resulting state |
| GatewayJourneys.ReachesLastAudit | crates/gateway/src/routes.rs:262-295 | a run from an initial state whose handler reaches the last audit row with a delivery id, its payout saved |
| GatewayDuplicates.SubmittedIffNoRow | crates/gateway/src/routes.rs:234-269 | a handler whose check loses nothing, whose contributor is registered and which can go on has submitted in the end iff its check read no row |
| GatewayDuplicates.TwiceIffBothReadNoRow | crates/gateway/src/routes.rs:234-269 | in any run, two handlers of one PR that lose nothing after their checks and are left to go on both submit iff neither check read a row for the PR |
| GatewayDuplicates.TwoSubmissionsReadNoRow | crates/gateway/src/routes.rs:234-269 | two submissions of one PR in any run come from two handlers, each of which read no row for it earlier in the run |
| GatewayDuplicates.BothMaySubmit | crates/gateway/src/routes.rs:234-269 | a run from an initial state in which two deliveries of one PR with different ids are both submitted |
| GatewayDuplicates.SecondConflicts | crates/gateway/src/attestation.rs:192-215 | when two deliveries race past the check, the first row stays and the second is answered with a conflict |
| EndToEnd.PaidAtMostOnce | contracts/waveflow-escrow/src/contract.rs:164-166 | in any joint run of gateway, deliveries of its log in any order and number, and arbitrary other calls, the contract pays each PR of a program at most once, and has paid it iff it is flagged |
| EndToEnd.RedeliveryIsRefused | contracts/waveflow-escrow/src/contract.rs:164-166 | in any joint run, an attestation delivered again after its payout is answered PrAlreadyProcessed and changes nothing |
| EndToEnd.PayoutsWereSubmitted | contracts/waveflow-escrow/src/contract.rs:157-194 | if only the gateway holds its key, every payout is for a merge the gateway submitted and is one point at the ratio in force |

## Left out

- HTTP routing, JSON decoding, metrics, logging, health and readiness endpoints, startup and deployment files: plumbing.
- HMAC verification in `crates/gateway/src/webhook.rs`: its libraries are not part of this model.
- The real Soroban RPC: not in the source; nothing here claims that the gateway moves tokens.
- Storage lifetimes, fees, limits on Soroban symbols, and token features beyond a plain transfer on one ledger.
- The read-only accessors of the contract and the list endpoints of the API: one-line reads.
- API-key checks, environment parsing and HTTP status codes: one-branch facts.
- Audit columns of `webhook_events` that no statement reads back, and timestamps of all tables.
- Cap enforcement in the gateway and agreement of Postgres with the chain: the code does neither.
- The table of payouts is indexed by (program, PR), so that key's uniqueness is in its shape; the refusal of a second row is what is modelled.
- Registration of a contributor by the admin API is one step here; its read of the program can only be repeated by the foreign key, since programs are never removed.
