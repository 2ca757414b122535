# A verified model of the Pontes mock's settlement ledger

The mock keeps one shared store of wallets, drafts and a transaction log. Four kinds of workflow
drive it: two-step operations (transfer, funding, defunding, direct RTGS) that a second person
approves, one-step payments, PFoD trades whose two legs are matched, and XvP payments locked by a
hash and a deadline, whose calls interleave behind a promise queue. This project models that store,
those workflows and the structures around them, and proves what holds of every run.

How it is laid out:

- `Domain`, `Ledgers`, `Dcw`, `Settlements`, `Xvps`, `Pfods`: the store as a value, and every
  operation as a function from a ledger to the ledger it leaves and the answer it gives, rejections
  and half-applied effects included.
- `MemoryStores`, `LedgerWorkflows`, `XvpWorkflows`, `InProcessLocks`, `PfodRouters`,
  `UserRepositories`, `Caches`, `DraftIdResolution`, `BusinessDays`: the classes and loops as the
  source has them, updating fields in place, each method proved to do what the function says and to
  keep the write-through cache in step.
- `Histories`: every synchronous thing that can happen to the store, as one action machine, with the
  memory the theorems need and the store lacks: which call wrote each log entry, the ids minted, the
  terms each XvP committed to, the generations of PFoD legs.
- `Accounts`, `Reconciliation`, `DraftTable`, `Lifecycle`, `TransferManagers`, `PfodMatching`, `PfodLegs`,
  `ParticipantWallets`: theorems about all runs of that machine.
- `XvpLocks`, `XvpRuns`, `XvpTheorems`, `XvpPayments`: the lock alone, then the lock with XvP calls in
  flight and everything else in between, under any scheduler and any clock.
- `Answers`, `XvpAnswers`, `PfodAnswers`: what every operation answers, told from the request, the wallets
  and the rights on them and not from how it is computed: when it succeeds, and else which refusal is first.
- `Entitlements`: rights over whole runs.
- `Scenarios`: concrete runs from an empty store that show where stronger promises fail.
- `Money`, `FloatMoney`, `Decimals`, `Texts`, `Ids`, `OrderedMaps`, `Users`: amounts, ids, ordered
  maps and the user index.

Conventions. An absent optional text is the empty text. Balances are whole cents; `FloatMoney`
proves that the source's arithmetic on doubles gives exactly these cents below 2^51 of them, which is
22 517 998 136 852.48 euros, for every rounding of relative error at most 2^-53. Each synchronous
segment reads the clock once, and the clock may read anything, backwards included. Random draws,
secrets, the hash and the date are parameters. The two windows that an environment variable can set, the
default deadline of an XvP and the match window of a PFoD leg, are at their default of an hour.

What is not true of the code, and what is proved instead:

- The documentation promises conservation of value (`README.md:155-157`,
  `docs/DOMAIN-MODEL.md:147`). The existence guards skip an empty alias
  (`src/workflows/workflow.ts:323`, `src/workflows/workflow.ts:341`), so a settlement that credits
  the empty alias debits its source and then throws. The routes of direct RTGS
  (`src/routes/direct-rtgs.ts:193`) and of transfers (`src/routes/transfers.ts:241`) hand a missing or
  empty alias on as the empty one; the one-step bridge payments refuse it
  (`src/routes/bridge-payments.ts:63`). `ApproveAllOrNothing` and `ExecuteAllOrNothing` give the exact
  condition, `HalfApprovedLosesTheAmount` and `HalfExecutedLosesTheAmount` say what is lost, and
  `EmptyCreditedAliasLosesMoney` is a run that loses ten euros. Over whole runs `BooksBalance` accounts
  for every cent, the lost ones included, and `BooksBalanceExactly` says that the books are in order
  exactly as long as no settlement has half-applied.
- `init` does not look for an existing XvP of its id (`src/workflows/xvp.ts:169`).
  `ReinitKeepsReport` says exactly when that loses a final report, and `ReinitLosesASettlement` is a run
  that loses one; the run theorems take it that ids are new.
- An approval can be refused over an unknown wallet although the guards passed: a draft that names no
  wallet to debit, as the funding routes allow, is only found out by its debit, and one that names none
  to credit by its credit, after its debit. `ApproveFindsItsWallets` says exactly when, and
  `UnnamedDebitIsRefusedLate` is such a run.
- An XvP payment of the very amount agreed can be refused, because amounts are compared as texts
  (`src/workflows/xvp.ts:318`): `AdmittedExactlyAsAgreed`, with the run `SameAmountOtherTextIsRefused`.
- SETTLED is not final for PFoD legs (`src/routes/pfod.ts:99-111`). A settled RECE leg is relabelled
  EXPIRED exactly when the DELI leg of its trade is submitted again after the RECE leg's window
  (`SettledReceiveOverRuns`, with the run `SettledReceiveCanExpire`); a settled DELI leg is never
  relabelled so, but submitting it again always reopens it (`SettledDeliverOverRuns`). So a trade can
  settle twice (`TradeCanSettleTwice`), and settlements are counted against leg submissions.
- Fifteen integer digits pass validation (`src/http/request-validation.ts:177`), which is more than
  the doubles carry to the cent. Sums below a limit come out exact, whatever the rounding, if and only
  if the limit is at most 2^51 cents (`ExactBelowExactly`); `FifteenDigitsAreNotExact` is a credit that
  validation lets through and that is not exact.
- The user index does not stay an exact inverse whatever is set: it does exactly until a step sets an
  empty fingerprint, or gives a named user the fingerprint of a user with an empty name
  (`IndexIsInverseExactly`, with the run `EmptyNameSharesItsFingerprint`).
- A restart does not bring back every certificate binding: it does exactly when no user has a
  fingerprint without a certificate text, or a text without a fingerprint
  (`RestoreReproducesExactly`, with the run `EmptyCertificateIsLost`).

The last two fail at the interface of the repository only: its one caller signs every certificate
itself, with a fingerprint of its own, and throws when there is none (`src/auth/enrollment-routes.ts:343-364`).

## Model

| member | source | states |
|---|---|---|
| XvpTheorems.InterleavingIsAtomic | src/workflows/xvp.ts:265-361 | Every interleaving of XvP calls with everything else leaves the same wallets, drafts and log, and gives each call the same answer, as its operations run whole, one after the other, in the order they commit; an admitted payment commits when it settles, on the clock it read when admitted |
| XvpTheorems.CommitsInCallOrder | src/workflows/xvp-lock.ts:27-35 | In that atomic order the calls of one XvP stand in the order they were made |
| XvpTheorems.EventCommits | src/workflows/xvp.ts:287-361 | Each event either commits one whole operation or changes neither the store nor an answer |
| XvpTheorems.AdmittedAgain | src/workflows/xvp.ts:294-327 | While a payment is suspended at its `await`, admitting it again on the clock it was admitted on would succeed on the same record and change nothing |
| XvpTheorems.AdmittedPayIsWhole | src/workflows/xvp.ts:327-331 | A payment admitted without effect and then settled is one whole payment |
| XvpTheorems.PayHistoryIsPay | src/workflows/xvp.ts:287-361 | The ledger that admission and settlement leave, one action each, is the one a whole payment leaves |
| XvpTheorems.AdmittedExactlyAsAgreed | src/workflows/xvp.ts:294-323 | A payment is admitted if and only if the XvP is open, in time, and amount, currency and named participants are the agreed ones; admission writes nothing |
| XvpAnswers.PaysXvpExactly | src/workflows/xvp.ts:294-337 | A payment settles if and only if the XvP is open and in time, what is offered is what was agreed, the seller's wallet is there, and the payment's own caller has the rights on the wallet it names, which holds the amount, when it settles |
| XvpAnswers.PaymentIsAnswered | src/workflows/xvp.ts:294-337 | Otherwise it is answered by the first that fails: 404 for no such XvP, 409 for closed or late, 400 for other terms, 422 for a missing seller wallet, 404, 403, 400 or 422 for the buyer's wallet, the rights, the amount or the funds |
| XvpAnswers.EveryPayerHadTheRight | src/workflows/xvp.ts:331-337 | In every interleaving a call answered with a payment came from a caller who might debit the wallet it named, of the whole amount, at the moment its settlement ran |
| XvpAnswers.RegistersExactly | src/workflows/xvp.ts:157-192 | An init is refused, changing nothing, if and only if its type is neither DVP nor PVP; else the XvP is stored under its id |
| XvpAnswers.AdmittedAfterInit | src/workflows/xvp.ts:166-192 | After an init a payment is admitted if and only if it comes by the deadline, given in seconds or an hour, offers the amount and currency of the init, and names no other buyer or seller |
| XvpAnswers.PaidAfterInit | src/workflows/xvp.ts:157-337 | It settles if and only if, besides, its caller may pay and the seller wallet of the init is there |
| XvpAnswers.PaidGetsTheKey | src/workflows/xvp.ts:331-359 | Registered and then paid: the payer gets the secrets of that init, the log its cash leg, and whoever observes it afterwards, at any clock, is told SETTLED, the published hashes and the execution key alone |
| XvpAnswers.UnpaidIsBurned | src/routes/xvp.ts:332-361 | Registered and not paid: PENDING and no key to the deadline, BURNED and the cancellation key alone after it |
| XvpAnswers.ExecutionKeyExactly | src/routes/xvp.ts:354 | Who asks for the execution key is given it, and it is the committed one, if and only if told that the XvP is SETTLED |
| XvpAnswers.CancellationKeyExactly | src/routes/xvp.ts:355-356 | The same for the cancellation key and an expired XvP |
| Scenarios.SameAmountOtherTextIsRefused | src/workflows/xvp.ts:318-320 | A run after which a payment of exactly the agreed amount is answered 400 HL-XVP-006 because it is written "1.0" and not "1.00", and written as agreed is admitted |
| XvpTheorems.NeverBothKeys | src/routes/xvp.ts:345-361 | No run, whatever the scheduler and the clock, tells callers both the execution and the cancellation key of one XvP |
| XvpTheorems.ExecutionMeansSettled | src/routes/xvp.ts:286-294 | A disclosed execution key is the one committed at init, opens its hash, and the XvP is settled |
| XvpTheorems.CancellationMeansExpired | src/routes/xvp.ts:355-356 | A disclosed cancellation key is the one committed at init, opens its hash, and the XvP has expired |
| XvpPayments.ExecutionIsPaidOnce | src/workflows/xvp.ts:331-359 | Behind a disclosed execution key stand exactly one log entry of that XvP and exactly one call answered with a payment: the entry is for the amount, the currency and the seller wallet agreed at init, and debits the wallet that call named |
| XvpPayments.EverySettledXvpHasOnePayer | src/workflows/xvp.ts:294-361 | In every state of every interleaving a settled XvP was paid by exactly one call and records that call's wallet, and an unsettled one by none |
| XvpTheorems.CancellationMeansNoMoney | src/workflows/xvp.ts:250-255 | Once a cancellation key is disclosed, no log entry of that XvP exists in any state before or after, and at every step of the run a balance that changes is the doing of another entry, or of a settlement outside the XvPs that half-applies |
| XvpTheorems.ReportIsFinal | src/routes/xvp.ts:345-352 | The reported status leaves PENDING at most once; afterwards no call and no clock changes the record |
| XvpTheorems.AnswersAgree | src/routes/xvp.ts:332-352 | Every final status ever answered is the one still reported |
| XvpTheorems.BurnedOrUnsettled | src/workflows/xvp.ts:363-375 | BURNED if and only if it expired and no payment was ever admitted; UNSETTLED if and only if it expired after an admitted payment, and then every admitted payment was refused |
| XvpTheorems.FailedPayChangesLittle | src/workflows/xvp.ts:294-338 | A failed payment moves no money, touches no other draft, and leaves at most the attempted flag or the expiry behind |
| XvpTheorems.ReinitKeepsReport | src/workflows/xvp.ts:157-192 | Initialising over a stored XvP keeps its report if and only if the transaction type is refused or the stored record is still open |
| Scenarios.ReinitLosesASettlement | src/workflows/xvp.ts:157-192 | A run after which an XvP is reported SETTLED, and PENDING once its id is registered again |
| XvpTheorems.RunsOnlyGrow | src/workflows/xvp-lock.ts:41-59 | Answers given stand and log origins written stay, over any further events |
| XvpTheorems.BooksBalanceUnderInterleaving | src/workflows/xvp.ts:331-352 | The matching of trades holds in every state of every interleaving, and the books are in order there if and only if no event so far was a settlement that half-applies, which no XvP payment is |
| XvpRuns.EveryWorldIsSound | src/workflows/xvp.ts:265-361 | In every interleaving a suspended payment's record is still the one it was admitted on, final answers are still true, and the attempted flag is up exactly when an admitted payment ran to its end |
| XvpRuns.ResumeIsLegal | src/workflows/xvp.ts:327-331 | A resumed payment settles the very record it was admitted on, still INITIALIZED |
| XvpRuns.OtherKeepsXvp | src/workflows/workflow.ts:300-313 | No operation outside the XvP bodies touches an XvP draft |
| XvpLocks.MutualExclusionInCallOrder | src/workflows/xvp-lock.ts:41-53 | Once a body has started, every earlier call of the same id is through: no overlap, strict call order |
| XvpLocks.MissingEntryMeansIdle | src/workflows/xvp-lock.ts:54-57 | Without a map entry for an id, nobody waits or runs for it |
| XvpLocks.TurnComes | src/workflows/xvp-lock.ts:43-45 | A waiting call can start if and only if every earlier call of its id is through, however it ended |
| XvpLocks.NobodyIsStuck | src/workflows/xvp-lock.ts:32-33 | As long as some call is not through and cleaned up, some event other than a new call can fire |
| XvpLocks.EveryEventUsesOneUp | src/workflows/xvp-lock.ts:45-57 | Every event but a new call uses up one of finitely many, so the lock runs down |
| XvpLocks.QuiescentLockIsEmpty | src/workflows/xvp-lock.ts:54-57 | When nothing is left to fire, every call is through and the map is empty |
| XvpLocks.EveryLockRun | src/workflows/xvp-lock.ts:38-60 | A queue entry is always the last call of its id, not yet cleaned up, and each call waits for the call just before it |
| InProcessLocks.InProcessXvpLock.WithLock | src/workflows/xvp-lock.ts:41-58 | The call is chained behind the tail of its queue and becomes the tail; the lock invariant holds |
| InProcessLocks.InProcessXvpLock.CleanUpAfter | src/workflows/xvp-lock.ts:55-57 | The entry goes only if this call is still the tail |
| InProcessLocks.InProcessXvpLock.MoveOn | src/workflows/xvp-lock.ts:45-52 | Starting, ending or releasing a body leaves the map alone and keeps the invariant |
| Reconciliation.BooksBalance | src/workflows/workflow.ts:183-242 | In every state of every run no balance is negative, each is the fold of the log over its wallet less what half-applied settlements took from it, and the supply is what was funded less what was defunded and what was so lost |
| Reconciliation.BooksBalanceExactly | src/workflows/workflow.ts:320-344 | In every state of every run the balances are the fold of the log and the supply what was funded less what was defunded, if and only if no settlement of the run so far has half-applied |
| Reconciliation.ActKeepsBooks | src/workflows/workflow.ts:346-416 | A single action leaves the books in order if and only if they were and it does not half-apply; books that are short are never mended and never go over |
| Reconciliation.LogOnlyGrows | src/state/memory-store.ts:216-219 | No log entry is ever rewritten or dropped |
| Reconciliation.PostsConserve | src/workflows/funding.ts:31-50 | A movement changes the total only by what its log entry funds or defunds, a wallet paying itself included |
| Reconciliation.ExecuteConserves | src/workflows/workflow.ts:234-242 | A one-step settlement that is no funding or defunding conserves the total, whatever its answer, if and only if it does not half-apply |
| Reconciliation.ApproveConserves | src/workflows/workflow.ts:183-223 | The same for an approval |
| Accounts.ActAccounts | src/workflows/workflow.ts:173-242 | Every action moves no money, opens one empty wallet, or posts exactly the movement of the one log entry it appends, except that one that half-applies takes its amount from the wallet it debits and changes nothing else; drafts stay filed under their kind's ids and statuses |
| Accounts.ApproveSettles | src/workflows/workflow.ts:183-223 | A successful approval had two known, distinct people and a pending record, and leaves one movement, one rewritten draft and one log entry |
| Accounts.SettleSettles | src/workflows/xvp.ts:331-352 | A successful XvP settlement leaves one movement, the draft settled with the buyer's wallet, and one log entry |
| Accounts.SettleRejected | src/workflows/xvp.ts:331-338 | A rejected XvP settlement leaves only the attempted flag |
| Accounts.FireAccounts | src/routes/pfod.ts:123-140 | A match posts one payment from the RECE wallet to the DELI wallet and settles both legs, or changes nothing |
| Accounts.MatchCases | src/routes/pfod.ts:99-122 | Two legs are settled only if both are stored, pending, in time and agree on amount and currency; otherwise at most their expiry is recorded |
| Accounts.ExecuteAccounts | src/workflows/workflow.ts:234-242 | A one-step settlement posts its log entry's movement and writes no draft, or half-applies and loses its amount, or changes nothing |
| Accounts.ObserveAccounts | src/workflows/xvp.ts:250-271 | Observing an XvP moves no money and keeps the draft table in shape |
| Settlements.EffectPosts | src/workflows/transfer.ts:62-65 | For every workflow, a settlement that goes through moves exactly what its log entry says and nothing else |
| Settlements.MoveMoves | src/workflows/direct-rtgs.ts:21-26 | A debit and a credit that go through take the amount from one wallet and add it to the other, the same wallet on both sides included; only balances change |
| Settlements.CreditMoves | src/workflows/workflow.ts:371-384 | A credit adds the amount to its wallet alone, or changes nothing |
| Settlements.DebitMoves | src/workflows/workflow.ts:410-416 | A debit takes the amount from its wallet alone, which held it, or changes nothing |
| Settlements.DebitsExactlyWhenEntitled | src/state/memory-store.ts:163-170 | A debit goes through if and only if the wallet exists, the caller has rights on it now, and it holds the amount |
| Answers.DebitIsAnswered | src/workflows/workflow.ts:410-459 | A debit is refused for the first of: no wallet (404), no rights (403), an invalid or negative amount (400), too little on it (422); else it goes through |
| Entitlements.EveryDebitIsByRight | src/workflows/workflow.ts:410-416 | In every run every log entry that debits a wallet was written for a caller who might debit that wallet of that amount at that moment: the approver, the one-step caller, the XvP payer, or for a matched trade the owner of the paying wallet |
| Entitlements.EveryFundingIsByRight | src/workflows/funding.ts:23-29 | In every run every funding, whatever has become of it, was opened by a caller who might debit the wallet it credits when it was opened |
| Entitlements.NewWalletIsItsOwners | src/state/dcw.ts:81-119 | A new wallet belongs to the entity given, else to the participant given; only that entity's users may debit it, and only within its validity |
| Settlements.MoveAllOrNothing | src/workflows/payment.ts:16-19 | A movement that throws leaves the ledger as it was if and only if it does not debit for a missing credited wallet |
| Settlements.ApproveAllOrNothing | src/workflows/workflow.ts:183-223 | A rejected approval changes nothing if and only if it was not one by a second person, let through by conditions and guards, of a draft that credits the missing empty alias and whose debit goes through |
| Settlements.ExecuteAllOrNothing | src/workflows/workflow.ts:234-242 | The same for a rejected one-step settlement |
| Settlements.HalfApprovedLosesTheAmount | src/workflows/workflow.ts:340-344 | In that case the answer is 422 HL-WAL-003, the debited wallet is down by the whole amount, and nothing else has changed, neither the log nor the draft |
| Settlements.HalfExecutedLosesTheAmount | src/workflows/workflow.ts:234-242 | The same for a one-step settlement |
| Scenarios.EmptyCreditedAliasLosesMoney | src/routes/direct-rtgs.ts:185-204 | A run after which the four-eyes approval of a direct RTGS that names no wallet to credit is answered 422 HL-WAL-003 and takes ten euros that reach no wallet and no log entry |
| Lifecycle.EveryRunIsSound | src/workflows/workflow.ts:183-231 | In every state of every run settled drafts and their log entries correspond one to one and agree, settled two-step drafts have two known and distinct people, trails list each status once with its timestamp and end in the current one, and the wallets pending drafts name exist |
| Lifecycle.TerminalIsFinal | src/workflows/workflow.ts:300-313 | A draft keeps what was agreed, and once settled, canceled or expired never changes (PFoD legs excepted) |
| Lifecycle.ApproveFindsItsWallets | src/workflows/workflow.ts:183-223 | Over every run, a four-eyes approval of a pending draft is answered with an unknown-wallet rejection (HL-WAL-001, 002 or 003) if and only if no wallet has the empty alias, the workflow debits a source, and the draft names no wallet to debit, or names none to credit where the workflow credits one and the debit goes through |
| Lifecycle.GuardsFindTheirWallets | src/workflows/workflow.ts:320-344 | The conditions and existence guards let every approval of a pending draft of a run through |
| Scenarios.UnnamedDebitIsRefusedLate | src/workflows/funding.ts:41-50 | A run after which the four-eyes approval of a pending defunding is answered 404 HL-WAL-001 |
| Lifecycle.OpenedStands | src/workflows/workflow.ts:173-180 | An opened draft stands pending, as asked for, under an id nobody had |
| Lifecycle.ApprovedForGood | src/workflows/workflow.ts:183-223 | After a successful approval the draft is settled in every later state, by exactly one log entry, which agrees with it |
| Lifecycle.CanceledForGood | src/workflows/workflow.ts:226-231 | After a successful cancellation the draft is canceled in every later state and no log entry is ever put down to it |
| Lifecycle.ActEvolves | src/workflows/workflow.ts:173-242 | An action rewrites a draft only while it is open, keeps its agreement, and makes it SETTLED exactly when it settles it |
| Lifecycle.NewDraftsAreOpen | src/workflows/workflow.ts:173-180 | A draft that appears starts open |
| Lifecycle.ApprovalIsSound | src/workflows/workflow.ts:290-298 | An approval by a second person completes the trail |
| Lifecycle.ActOrigins | src/workflows/workflow.ts:346-363 | An action appends one log entry and moves exactly its money, or appends none and moves nothing, at most opening one empty wallet, unless it half-applies |
| DraftTable.NoIdIsMintedTwice | src/state/memory-store.ts:264-271 | Between two resets no id is minted twice, whatever the clock and however large the counters |
| DraftTable.OpeningNeverOverwrites | src/state/draft-id.ts:14-32 | Opening a draft leaves every stored draft as it is |
| DraftTable.NextIdIsNew | src/state/memory-store.ts:264-271 | The next id was never given out by any counter, and giving it out forgets none |
| DraftTable.IdsCountFromOne | src/state/memory-store.ts:264-271 | Each prefix counts from one on each day, without gaps |
| Scenarios.FirstIdsOfTheDay | src/state/memory-store.ts:264-271 | The first transfer, funding, defunding and direct RTGS of a day get TR, FRQ, DRQ and DRTGS, the day, and 000001 |
| DraftTable.ActFrame | src/state/memory-store.ts:251-262 | Each action writes its own draft only, a leg submission its trade's two legs only |
| DraftIdResolution.ResolveId | src/state/draft-id.ts:14-32 | A duplicate client id is refused and advances nothing; otherwise an id is minted and the client's is ignored |
| Ids.MintedIdInjective | src/state/memory-store.ts:270 | A minted id tells its prefix, day and number, past six digits too |
| Ids.LegIdsInjective | src/routes/pfod.ts:99-101 | Leg ids of different trades or sides differ |
| PfodMatching.EveryRunMatches | src/routes/pfod.ts:76-141 | In every state of every run each settlement pairs one DELI and one RECE submission of its trade that agree and were in time, pays the DELI wallet from the RECE wallet, no submission is consumed twice, and a RECE leg stands only beside a DELI leg |
| PfodMatching.SettlementsAreBounded | src/routes/pfod.ts:99-141 | A trade settles at most as often as its DELI leg was stored, and as its RECE leg was |
| PfodMatching.MatchedIsSound | src/routes/pfod.ts:112-140 | A settlement consumes the two current submissions, neither consumed before |
| PfodMatching.StoreKeepsMatching | src/routes/pfod.ts:76-94 | A stored leg, over an old one or not, is a new submission that nobody has consumed |
| PfodLegs.SettledDeliverOverRuns | src/routes/pfod.ts:144-178 | Over every run a settled DELI leg stays settled until it is submitted again, which always makes it pending; it is never relabelled EXPIRED |
| PfodLegs.SettledReceiveOverRuns | src/routes/pfod.ts:99-111 | Over every run a settled RECE leg is relabelled EXPIRED if and only if the DELI leg of its trade is accepted again after the RECE leg's window |
| PfodLegs.SettledDeliverAfterSubmit | src/routes/pfod.ts:144-178 | The same for one submission on any store in shape: a settled DELI leg is reopened exactly by an accepted resubmission that does not match |
| PfodLegs.SettledReceiveAfterSubmit | src/routes/pfod.ts:99-111 | A settled RECE leg ends EXPIRED if and only if trade, amount, currency and wallet of a DELI submission are named, the wallet exists and the leg is past its window |
| PfodLegs.RefusedExactly | src/routes/pfod.ts:181-222 | A submission is refused, changing nothing, exactly when a name or the wallet is missing or, for the RECE leg, no pending DELI leg stands |
| PfodAnswers.SubmissionIsAnswered | src/routes/pfod.ts:99-237 | Whatever is stored, a submission is answered by the first that applies: a missing name, wallet or DELI leg, no other leg, the other leg's window, its status, other terms, and then the payment of the trade |
| PfodAnswers.DeliverAwaitsExactly | src/routes/pfod.ts:112-114 | An accepted DELI submission is left waiting if and only if no RECE leg stands, or one in its window that is no longer pending, whose status is not what is answered |
| PfodAnswers.MatchIsLogged | src/routes/pfod.ts:129-140 | The payment of a match is logged under its trade, as made now, between the two wallets of the legs |
| PfodLegs.FireSettlesExactly | src/routes/pfod.ts:123-140 | Two consistent pending legs settle if and only if both wallets exist and the RECE wallet's owner may debit it and it holds the amount |
| Scenarios.SettledReceiveCanExpire | src/routes/pfod.ts:144-178 | A run: DELI and RECE legs match, the DELI leg is submitted again after the window, and the settled RECE leg is EXPIRED |
| Scenarios.TradeCanSettleTwice | src/routes/pfod.ts:144-237 | A run in which one trade settles twice |
| PfodRouters.PfodRouter.StoreLeg | src/routes/pfod.ts:76-94 | The leg is stored pending, with its window, over whatever stood there |
| PfodRouters.PfodRouter.TryMatchTrade | src/routes/pfod.ts:99-141 | Leaves the store and gives the answer that matching the trade's two legs specifies |
| PfodRouters.PfodRouter.SettleLegs | src/routes/pfod.ts:123-140 | Pays on the debited owner's behalf and settles both legs, or reports the rejection |
| PfodRouters.PfodRouter.PostDeliver | src/routes/pfod.ts:144-178 | Checks, stores and tries to match the DELI leg as specified |
| PfodRouters.PfodRouter.PostReceive | src/routes/pfod.ts:181-237 | Refuses a RECE leg without a pending DELI leg; otherwise stores and tries to match it as specified |
| LedgerWorkflows.LedgerWorkflow.CreateDraft | src/workflows/workflow.ts:173-180 | Leaves the store and answers as the specification that `Answers.CreatesExactly` characterises, cache in step |
| Answers.CreatesExactly | src/workflows/workflow.ts:173-180 | For every workflow and request: refused with the first of its own conditions and then of the named wallets, changing nothing, or one pending draft is stored that says what was asked for |
| Answers.FundsOnlyOwnWallets | src/workflows/funding.ts:23-29 | A funding can be opened if and only if the credited wallet is there and the caller may debit it at that moment |
| Answers.OpensAgreeingTransfers | src/workflows/transfer.ts:25-60 | A transfer between two named wallets can be opened if and only if both are there, are managed as the request claims, and its type fits their managers |
| LedgerWorkflows.LedgerWorkflow.ApproveDraft | src/workflows/workflow.ts:183-223 | Leaves the store and answers as the specification that `Answers.ApprovesExactly` and `Answers.ApprovalIsAnswered` characterise, cache in step |
| Answers.ApprovesExactly | src/workflows/workflow.ts:183-223 | For every workflow an approval succeeds if and only if the draft is one of its kind and pending, a second known person approves, that person's caller has the rights on the wallet it debits, which holds the amount, and the wallet it credits is there |
| Answers.ApprovalIsAnswered | src/workflows/workflow.ts:183-223 | Otherwise it is answered by the first that fails: unknown, not pending, not two people, a named wallet that is missing, the rights, the amount, the funds, the credited wallet |
| Answers.ApprovalIsSigned | src/workflows/workflow.ts:214-222 | An approved draft carries the approver's id and name, the time, and a trail grown by SETTLED stamped now and with the business date; its log entry says what the draft says |
| LedgerWorkflows.LedgerWorkflow.CancelDraft | src/workflows/workflow.ts:226-231 | Cancels a pending draft as specified, cache in step |
| Answers.CancelsExactly | src/workflows/workflow.ts:226-231 | A cancellation succeeds if and only if the draft is one of the workflow's and pending; it rewrites that draft alone, to CANCELED with its trail grown, and moves no money |
| LedgerWorkflows.LedgerWorkflow.ExecuteNow | src/workflows/workflow.ts:234-242 | Leaves the store and answers as the specification that `Answers.ExecutionIsAnswered` characterises, no draft written, cache in step |
| Answers.ExecutionIsAnswered | src/workflows/workflow.ts:234-242 | A one-step settlement answers as its creation and then its settlement would, and logs what was asked for |
| Answers.PaysExactly | src/workflows/payment.ts:16-19 | A one-step payment goes through if and only if its caller has the rights on the debited wallet, which holds the amount, and the credited wallet is there |
| LedgerWorkflows.LedgerWorkflow.Apply | src/workflows/funding.ts:31-50 | Each subclass's wallet effect, a debit left standing when the credit throws; on whose rights, `Answers.ApprovesExactly` and `Entitlements.EveryDebitIsByRight` say |
| LedgerWorkflows.LedgerWorkflow.CheckConditions | src/workflows/funding.ts:23-29 | Funding demands rights on the credited wallet at creation, as `Answers.FundsOnlyOwnWallets` states it; other phases ask nothing |
| TransferManagers.TransfersKeepTheirManagers | src/workflows/transfer.ts:25-60 | In every state of every run a stored transfer still has the wallets it names, managed as its caller claimed and, where it names both, as its request type asks: the rules checked at creation hold as long as the draft stands |
| TransferManagers.ConditionsDecideManagers | src/workflows/transfer.ts:25-60 | Between wallets that exist, the conditions let a transfer through if and only if the claimed managers are the actual ones, an OPERATION stays with one manager and a PAYMENT goes to another |
| LedgerWorkflows.LedgerWorkflow.CheckTransition | src/workflows/workflow.ts:211-213 | Conditions, debit guard, credit guard: the first to throw wins |
| LedgerWorkflows.LedgerWorkflow.LoadPendingDraft | src/workflows/workflow.ts:300-313 | Unknown or of another type is 404, not pending is 409 |
| LedgerWorkflows.LedgerWorkflow.AppendToTrail | src/workflows/workflow.ts:290-298 | A trail, where there is one, gets the status and its timestamp |
| LedgerWorkflows.LedgerWorkflow.RecordTransaction | src/workflows/workflow.ts:346-363 | One entry at the end of the log |
| LedgerWorkflows.LedgerWorkflow.RawCreditWallet | src/workflows/workflow.ts:371-384 | Credits an existing wallet of the value of the amount, which `Money.ParsesByPosition` gives, or throws, changing nothing |
| LedgerWorkflows.LedgerWorkflow.CheckedDebitWallet | src/workflows/workflow.ts:410-416 | Debits with rights and funds or throws the mapped error, changing nothing |
| LedgerWorkflows.LedgerWorkflow.RequireCreditWallet | src/workflows/workflow.ts:340-344 | A named credited wallet must exist; an empty alias passes |
| XvpWorkflows.XvpWorkflow.InitXvp | src/workflows/xvp.ts:157-203 | Registers the XvP without looking for an older one, leaving the store that `XvpAnswers.AdmittedAfterInit` and `XvpAnswers.PaidGetsTheKey` are about |
| XvpWorkflows.XvpWorkflow.MaybeExpireDraft | src/workflows/xvp.ts:250-255 | Persists the expiry of an open record past its deadline, the deadline itself being in time |
| XvpWorkflows.XvpWorkflow.GetBody | src/workflows/xvp.ts:266-270 | The body of `get`: first observation of an expiry, then the record |
| XvpWorkflows.XvpWorkflow.AdmitPayment | src/workflows/xvp.ts:294-323 | `pay` up to its `await`, each refusal in its order |
| XvpWorkflows.XvpWorkflow.SettlePayment | src/workflows/xvp.ts:331-359 | `pay` after its `await`: flag, guard, debit, credit, draft, log, keys; on whose rights, `XvpAnswers.PaysXvpExactly` says |
| XvpWorkflows.XvpWorkflow.MarkAttempted | src/workflows/xvp.ts:368-375 | Raises the attempted flag once |
| MemoryStores.MemoryStore.constructor | src/state/memory-store.ts:63-66 | A fresh store is empty, and in step with an empty cache |
| MemoryStores.MemoryStore.Hydrate | src/state/memory-store.ts:75-93 | Each part the cache holds replaces the store's, in the cached order; the cache's values stay |
| MemoryStores.MemoryStore.UpsertWallet | src/state/memory-store.ts:136-139 | Sets the wallet in its place or at the end, cache in step |
| MemoryStores.MemoryStore.EnsureWallet | src/state/memory-store.ts:143-149 | Creates the wallet only if it is missing, cache in step |
| MemoryStores.MemoryStore.Credit | src/state/memory-store.ts:157-161 | Writes the credited wallet back, or throws and writes nothing, cache in step |
| MemoryStores.MemoryStore.Debit | src/state/memory-store.ts:163-170 | Checks rights, then writes the debited wallet back, or throws and writes nothing, cache in step |
| MemoryStores.MemoryStore.Lock | src/state/memory-store.ts:172-176 | Moves available to locked, or throws and writes nothing, cache in step |
| MemoryStores.MemoryStore.Release | src/state/memory-store.ts:178-182 | Moves locked to available, or throws and writes nothing, cache in step |
| MemoryStores.MemoryStore.SettleLocked | src/state/memory-store.ts:184-188 | Removes locked funds, or throws and writes nothing, cache in step |
| MemoryStores.MemoryStore.CanDebit | src/state/memory-store.ts:190-194 | The reason a debit would be denied, a missing wallet included |
| MemoryStores.MemoryStore.AddTransaction | src/state/memory-store.ts:216-219 | Appends to the log, cache in step |
| MemoryStores.MemoryStore.AddDraft | src/state/memory-store.ts:251-254 | Sets the draft, cache in step |
| MemoryStores.MemoryStore.UpdateDraft | src/state/memory-store.ts:256-262 | Merges into an existing draft and stamps it, cache in step; an unknown id changes nothing |
| MemoryStores.MemoryStore.NextId | src/state/memory-store.ts:264-271 | Advances one counter and mints from it, cache in step |
| MemoryStores.MemoryStore.Reset | src/state/memory-store.ts:291-301 | Empties the store and the cached parts, whatever the cache held |
| MemoryStores.WriteThroughMirrors | src/state/memory-store.ts:95-118 | Putting the one part that changed keeps cache and store in agreement |
| MemoryStores.RestartReproduces | src/state/memory-store.ts:75-93 | Hydrating a fresh store from an agreeing cache reproduces wallets, drafts, log and counters in the same iteration order |
| MemoryStores.Restart | src/state/memory-store.ts:74-93 | A new store over the old cache is the old store, and in step with it |
| Caches.LastPutIsRead | src/cache/in-memory.ts:22-43 | A key reads what was last put; other keys are untouched, except the put key's own read counter |
| Caches.ReadingIsHarmless | src/cache/in-memory.ts:38-56 | Counting a read changes no value, deleting a key no other |
| Caches.ReadsAreCounted | src/cache/in-memory.ts:22-43 | Beside a value stands the number of its reads since it was last put |
| Caches.CacheMemory.PutEntry | src/cache/in-memory.ts:22-24 | Sets the value and resets its read counter |
| Caches.CacheMemory.GetEntry | src/cache/in-memory.ts:38-43 | Returns the value and counts the read |
| Caches.CacheMemory.DelEntry | src/cache/in-memory.ts:49-57 | Drops the value and its counter |
| OrderedMaps.FromPairsOfPairs | src/state/memory-store.ts:79 | Writing a map's entries out and reading them in gives the same map in the same order |
| FloatMoney.DoublesAreExact | src/state/dcw.ts:136-171 | As long as balance and amount, and locked balance and amount, total less than 2^51 cents, credit, debit, lock, release and settle on doubles give exactly the cent result and refuse exactly when cents do, whatever the rounding |
| FloatMoney.ExactBelowExactly | src/state/dcw.ts:136-171 | The five operations are exact for every rounding and all totals below a limit if and only if the limit is at most 2^51 cents |
| FloatMoney.AddExactly | src/state/dcw.ts:136-138 | A sum of two amounts, parsed, added and written with two decimals, is the exact cents whatever the rounding if and only if it is below 2^51 cents |
| FloatMoney.ExceedsExact | src/state/dcw.ts:142-147 | Below 2^51 cents each, the comparison of doubles agrees with that of cents |
| FloatMoney.FifteenDigitsAreNotExact | src/http/request-validation.ts:177 | An amount of fifteen integer digits passes validation, and an admissible rounding credits it to an empty wallet as something else |
| Dcw.LockIsUndoneOrSpent | src/state/dcw.ts:150-171 | Locking keeps the total; releasing the same amount gives the wallet back, settling it is a debit |
| Dcw.DebitIsUndoneByCredit | src/state/dcw.ts:136-155 | What can be debited is what can be locked, and crediting it back restores the wallet |
| Money.ParsesByPosition | src/state/dcw.ts:40-64 | Every text of digits with at most two more after a point, leading zeros and a sign included, is the sum of its digits times the powers of ten of their places, and is refused as negative if and only if it has a sign and is not nothing |
| Money.InvalidExactly | src/state/dcw.ts:40-44 | Exactly the texts that are not so written are invalid |
| Money.ZerosAddNothing | src/state/dcw.ts:40-44 | A zero after a single decimal, a point or `.00` after a whole amount, and a zero in front of it change nothing |
| Money.RenderThenParse | src/state/dcw.ts:40-54 | A balance written with two decimals reads back as the same cents |
| ParticipantWallets.DefaultStays | src/state/participant-wallet.ts:54-58 | As wallets are added and balances change, a resolved default stays the same if and only if it was a main wallet or the participant still has none |
| ParticipantWallets.ResolutionIsStable | src/state/participant-wallet.ts:42-59 | Once a participant owns a main wallet, default resolution gives the same alias in every later state of the run and after a restart there |
| ParticipantWallets.ResolvesToItsOwn | src/state/participant-wallet.ts:47-58 | An explicit alias resolves if and only if it is the participant's own, or anybody's when no participant is given; the default is the first main wallet owned in store order, else the first owned, and fails if and only if none is owned |
| ParticipantWallets.WalletsGrow | src/state/memory-store.ts:136-139 | Over any run wallets keep their place, owner and main flag; new ones go last |
| Users.SetCertificateKeepsInverseExactly | src/auth/users-repository.ts:117-144 | Setting a certificate keeps the index an exact inverse if and only if it does not set an empty fingerprint or give a named user that of the nameless one |
| Users.IndexIsInverseExactly | src/auth/users-repository.ts:58-144 | The index is an exact inverse throughout a run, whatever the names, if and only if no step of it is such a certificate |
| Users.IndexIsInverse | src/auth/users-repository.ts:58-144 | So it is after any run of declare, set-certificate, update and delete with non-empty names and fingerprints |
| Users.FingerprintsAreUnique | src/auth/users-repository.ts:128-137 | A fingerprint leads to a user if and only if that user carries it, so no two users share one |
| Users.DeclaresExactly | src/auth/users-repository.ts:58-76 | A user is declared as given if and only if the trimmed name is free, without a certificate; nobody else changes |
| Users.UpdatesExactly | src/auth/users-repository.ts:93-115 | Metadata of a known user is replaced by what is given, trimmed, and kept where nothing is given; certificate, names and everybody else stay |
| Users.CertifiesExactly | src/auth/users-repository.ts:117-144 | A certificate is set for a known user if and only if nobody else with a name carries its fingerprint; then that fingerprint leads to the user, the old one nowhere, and every other binding stays |
| Users.DeletedLeavesNoTrace | src/auth/users-repository.ts:82-91 | A deleted user leaves no record and no binding, and everyone else's stay |
| Users.EmptyNameSharesItsFingerprint | src/auth/users-repository.ts:128-131 | With an empty name two users come to carry one fingerprint |
| Users.RestoreReproducesExactly | src/auth/users-repository.ts:223-239 | Replaying the snapshot of a repository whose index is in order reproduces every username, profile, entity, certificate and binding, in order, if and only if no user has half a certificate |
| Users.RestoreReproduces | src/auth/users-repository.ts:223-239 | The same for every repository reached with non-empty names and fingerprints; no user has half a certificate if none was set without its text |
| Users.EmptyCertificateIsLost | src/auth/users-repository.ts:231-233 | A run that binds a fingerprint without a certificate text, which the restart loses |
| Users.RestoreNext | src/auth/users-repository.ts:224-236 | Restoring the next user of a snapshot whose index is in order never hits the swallowed exception |
| UserRepositories.AuthUsersRepository.CreateDeclaredUser | src/auth/users-repository.ts:258-262 | Declares a new user as specified and persists; a taken name changes nothing |
| UserRepositories.AuthUsersRepository.SetUserCertificate | src/auth/users-repository.ts:264-267 | Rebinds the certificate and both sides of the index as specified and persists |
| UserRepositories.AuthUsersRepository.UpdateUserMetadata | src/auth/users-repository.ts:269-273 | Updates trimmed, non-empty metadata as specified and persists |
| UserRepositories.AuthUsersRepository.RemoveUser | src/auth/users-repository.ts:275-279 | Removes the user and its index entry as specified and persists |
| UserRepositories.AuthUsersRepository.Replay | src/auth/users-repository.ts:223-238 | The load loop restores the snapshot user by user, skipping one that throws |
| UserRepositories.Reload | src/auth/users-repository.ts:209-239 | A new repository over the old cache is the replay of the old one, and reproduces it if and only if no user had half a certificate |
| Texts.TrimIdempotent | src/auth/users-repository.ts:50-52 | Trimming a trimmed name changes nothing |
| Texts.TrimTakesSpace | src/state/draft-id.ts:19-20 | Trimming takes away the white space around a text and nothing else |
| BusinessDays.CurrentWindowIsTheOne | src/state/business-window.ts:149-176 | At every minute exactly one half-open window contains the time, Closed wrapping, and it is the current one; it starts where its entry in the cycle says and ends where the next one starts |
| BusinessDays.TextOrderIsMinuteOrder | src/state/business-window.ts:154-166 | On HH:mm texts, text order is minute order |
| BusinessDays.ValidateBusinessDayUpdate | src/state/business-window.ts:200-252 | Accepts exactly the bodies whose fields are known and well-formed and whose merged boundaries are in order, returns exactly what they give, and otherwise reports the first check that fails |
| BusinessDays.CollectTimes | src/state/business-window.ts:220-229 | Collects the time fields or reports the first that is no HH:mm |
| BusinessDays.CheckOrder | src/state/business-window.ts:238-250 | Reports the first boundary before its predecessor, if there is one |
| BusinessDays.UpdateBusinessDay | src/admin/business-window.ts:45-55 | An accepted request merges its fields, a refused one changes nothing |
| BusinessDays.AcceptsExactly | src/state/business-window.ts:200-252 | On a day in order a request is accepted if and only if it gives at least one field, none but the five, each a text of its shape, and leaves the boundaries in order; then each field it gives, and no other, has replaced its namesake |
| BusinessDays.TimesExactly | src/state/business-window.ts:24 | A time is a two-digit hour below 24 and a two-digit minute below 60, and counts 60 minutes an hour |
| BusinessDays.DatesExactly | src/state/business-window.ts:25 | A date is four, two and two digits with dashes between them |
| BusinessDays.UpdateKeepsOrder | src/state/business-window.ts:238-251 | No request puts the boundaries out of order |
| BusinessDays.DaysStayInOrder | src/admin/business-window.ts:45-55 | After any sequence of requests the four boundaries are HH:mm values in order |

## Left out

- HTTP plumbing, response views, UI, JWT, mTLS, X.509, signatures and schema validation: formatting and foreign cryptography. The XvP hash is an arbitrary function.
- Amount texts outside `-?digits[.up to two digits]`: `parseFloat` accepts more, but the money pattern of request validation does not let them through.
- An explicitly empty currency or payment id is not told apart from an absent one, where the source uses `??`.
- Reset inside a run: it is a method of the store and leads back to the empty ledger, so every run theorem covers the time between two resets.
- XvP ids that are already stored, or of the shape of a minted or PFoD id; `ReinitKeepsReport` says what re-initialisation does.
- Wallets created with a balance, which the routes never do: runs start from empty wallets.
- Cache expiry timers and the `inc`, `dec`, `reset` counters of the cache; Redis reconnects and a write retried after a newer one (puts take effect in issue order).
- Validity dates that do not parse: a wallet's validity bounds are instants or absent.
- Trails other than the one the routes seed a draft with, or none.
- Read scoping by caller, blocking of wallets, the accepted NCB list, profile sets and the supplementary-data character check: single-branch checks.
- Locking and releasing wallet funds inside runs: no workflow calls these store operations, so they are methods of the store only.
- The Frankfurt time zone: the time of day is an input. Window ids, display names and roles are fixed labels of the window names.
- The event loop itself: `InProcessLocks` takes the order in which promise callbacks fire as given, any order that `XvpLocks.Enabled` allows.
- The fields a draft only passes through are one text, and the error descriptions of rejections are dropped.
- Sorting and listing of enrolled users, which only read.
