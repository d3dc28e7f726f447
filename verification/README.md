# MoneyMate backend: verified model

A Dafny 4.11 model of the stateful engines under MoneyMate's services, with proofs over every run of them.
`dafny verify dfyconfig.toml` checks the whole project.

What is modelled, service by service:

- **auth**: one flat Redis keyspace with expiry and a clock (`Redis`, `Keyspace`, `TokenStore`); the one-time-code and
  registration protocol on top of it (`OtpProtocol`, `OtpUsecase`), what each of its requests answers and leaves behind
  (`OtpStored`, `OtpOutcomes`), its guess bounds with the runs that reach or break them (`OtpSafety`, `OtpLimits`), what one
  reset code is good for (`OtpReuse`) and registrations counted against verifications (`OtpCounting`); the PIN lockout
  (`Pin`); and the transactional outbox with its publisher (`Outbox`, `Publisher`).
- **payment**: accounts, transactions, journal and deposits with the unique indexes and checks of the schema (`Ledger`,
  `LedgerLaws`), the use cases that write them (`Payments`), the books over every run (`PaymentRuns`), transfers interleaved
  access by access (`TransferRace`), what each command does to balances and journal (`PaymentOutcomes`), idempotent wallet
  creation (`Outbox`, `WalletOutcomes`), the spend reports (`Analytics`) and the order amount of a deposit (`DepositAmount`).
- **rewards**: the calculator (`Rewards`), the payout machine with its replays (`Payouts`), what one event or replay leaves
  (`PayoutJobs`), what is paid over every run (`PayoutRuns`) and how payments go wrong (`PayoutFailures`).
- **notification**: template rendering (`Render`), the texts of the events (`Copies`) and when the order of a payload shows
  (`RenderOrder`), inbox and fan-out (`Notification`), one delivery from end to end (`Deliveries`), and the push tokens
  (`Tokens`).
- **gateway** and **shared**: the rate limiter (`RateLimit`) and the money parser and printer (`Money`).

Stores and use cases are classes whose methods update fields and follow the source statement by statement. Each method is
proved equal to a specification function of the old state. What such a function answers and leaves behind is stated
without it, on balances, rows, keys and histories, and the main theorems are about runs: sequences of commands in which
time passes, commands are lost before or after they take effect (`Common.Fate`), workers stop anywhere, and, where the
source allows it, other work runs between any two accesses. Failures, generated identifiers, random rolls, code hashing
and the outside services (mail, push, payment provider) are parameters of the commands.

Names used throughout: a command `Answered` took effect and said so, `Dropped` never ran, `Unanswered` took effect but its
answer was lost.

## Where the code differs from its own documentation

- `services/payment/internal/adapter/postgres/repo/ledger_repo.go:76` says that a unique violation becomes the used-key error.
  `services/payment/internal/adapter/postgres/repo/account_repo.go:147-159` and `shared/pkg/errors/apperrors.go:108-142` map it to
  `ErrAlreadyExists`, so the branch of `Transfer` that fetches the winner never runs. The exact condition under which a call
  still returns the earlier transaction is `TransferRace.WinnerReturnedIff`.
- `services/payment/internal/domain/ledger.go:7-15` promises both journal entries with every result; only replays carry them
  (`TransferRace.OneTransactionPerKey`, `TransferRace.RetryIsReplay`).
- `services/payment/internal/adapter/postgres/repo/deposits_repo.go:83-110` writes a debit of the settlement account to the journal
  and never changes its balance, so double entry holds for the journal and not for the balances
  (`PaymentRuns.ConservedExactly`).
- The guess counter of a password reset lives 15 minutes whatever the configured code lifetime, and the clean-up after a reset
  ignores its errors (`services/auth/internal/usecases/auth_usecase.go:677`, `:743-744`). So the bound of five guesses holds
  exactly for lifetimes up to 15 minutes and clean-ups that do not delete the counter while they lose the deletion of the code
  (`OtpReuse.ResetBoundExact`).
- A reset code changes a second password exactly when its first use stops between the update and the deletion of the code
  (`OtpReuse.SecondUseIff`).
- When the counter is not cleared for a new registration code, the code can meet nearly twice the configured number of guesses
  (`OtpSafety.RegistrationGuessesBounded`, `OtpLimits.UnclearedBoundIsReached`).
- The order sent to the payment provider can be one paisa less than the amount recorded and credited
  (`DepositAmount.OrderIs`).
- `services/notification/internal/usecases/notification_usecase.go:187` speaks of replacing placeholders; when the placeholder
  of one key forms in the values of others, there are templates whose text depends on Go's map order, and otherwise there are
  none (`RenderOrder.OrderHiddenIff`).
- A reward payment carries no idempotency key (`services/rewards/internal/usecases/reward_usecase.go:136`, `:173`), so a payment
  that was made and not confirmed is made again by the next replay, and two replays at once can pay one payout twice
  (`PayoutFailures.UnconfirmedIsPaidTwice`, `PayoutFailures.OverlappingReplaysPayTwice`; exactly when:
  `PayoutRuns.ExactlyOnceIff`).
- A payout can stay pending for ever: replays take failed payouts only (`PayoutFailures.StrandedExactly`).
- The cap on rewards is a cap per payment: splitting a payment earns more from a certain amount on (`Rewards.SomeSplitGainsIff`).
- The rate limiter's increment and expiry are two commands; when the second is lost, or the answer to the
  first, the key is locked out for good
  (`RateLimit.NeverExpiresExactly`, `RateLimit.LostExpiryLocksOut`).
- A dead device is switched off by its row, so a token registered meanwhile is lost with it (`Tokens.RotationIsReached`).

## Model

| member | source | states |
|---|---|---|
| Keyspace.KeysCollide | services/auth/internal/adapter/redis/token_store.go:224-246 | two keys of the nine families are the same string exactly when family and identifier agree, or one identifier spells out the other family's suffix; for all strings, colons included |
| Keyspace.KeysDistinct | services/auth/internal/adapter/redis/token_store.go:224-246 | for identifiers without a colon the key builders are injective and pairwise disjoint |
| Keyspace.SetRefines | services/auth/internal/adapter/redis/token_store.go:60-66 | SET through a key builder is SET on the abstract store of its own family, with the same answer, and leaves the other eight alone, whether it is answered, dropped or unanswered |
| Keyspace.DelRefines | services/auth/internal/adapter/redis/token_store.go:80-86 | DEL through a key builder is DEL on the abstract store of its own family, with the same answer, and leaves the other eight alone, whether it is answered, dropped or unanswered |
| Keyspace.GetRefines | services/auth/internal/adapter/redis/token_store.go:68-78 | GET through a key builder is GET on the abstract store of its own family, with the same answer, and leaves the other eight alone, whether it is answered, dropped or unanswered |
| Keyspace.IncrRefines | services/auth/internal/adapter/redis/token_store.go:24-31 | INCR through a key builder is INCR on the abstract store of its own family, with the same answer, and leaves the other eight alone, whether it is answered, dropped or unanswered |
| Keyspace.ExpireRefines | services/auth/internal/adapter/redis/token_store.go:93-98 | EXPIRE through a key builder is EXPIRE on the abstract store of its own family, with the same answer, and leaves the other eight alone, whether it is answered, dropped or unanswered |
| Keyspace.SetNXRefines | services/auth/internal/adapter/redis/token_store.go:46-54 | SET NX through a key builder is SET NX on the abstract store of its own family, with the same answer, and leaves the other eight alone, whether it is answered, dropped or unanswered |
| Keyspace.TtlRefines | services/auth/internal/adapter/redis/token_store.go:109-116 | TTL through a key builder is TTL on the abstract store of its own family, with the same answer, and leaves the other eight alone, whether it is answered, dropped or unanswered |
| Keyspace.GetDelRefines | services/auth/internal/adapter/redis/token_store.go:129-139 | GETDEL through a key builder is GETDEL on the abstract store of its own family, with the same answer, and leaves the other eight alone, whether it is answered, dropped or unanswered |
| Keyspace.ExpiryCommutes | services/auth/internal/adapter/redis/token_store.go:24-151 | dropping the expired keys and then splitting the flat map gives the same nine maps as splitting first |
| TokenStore.IncrementAttemptsRefines | services/auth/internal/adapter/redis/token_store.go:88-101 | counting an attempt, two commands with any outcome each, is the same operation on its own family and touches no other |
| TokenStore.TryCooldownRefines | services/auth/internal/adapter/redis/token_store.go:103-118 | so is asking for the resend cooldown |
| TokenStore.IncrementCounts | services/auth/internal/adapter/redis/token_store.go:88-101 | an answered increment counts one more than the live counter, never shortens its life, and touches no other key |
| TokenStore.CooldownExcludes | services/auth/internal/adapter/redis/token_store.go:103-118 | after a granted resend cooldown every further request is refused until it expires |
| TokenStore.RedisStore.UpgradeTokenVersion | services/auth/internal/adapter/redis/token_store.go:24-31 | the version counter of the user goes up by one, or an error |
| TokenStore.RedisStore.GetTokenVersion | services/auth/internal/adapter/redis/token_store.go:34-44 | the stored version, zero when there is none |
| TokenStore.RedisStore.ClaimRefreshToken | services/auth/internal/adapter/redis/token_store.go:46-54 | answers whether the token had been claimed before, and claims it |
| TokenStore.RedisStore.SetOTP | services/auth/internal/adapter/redis/token_store.go:60-66 | stores the hash with its time to live; the same method serves both flows through their key builders |
| TokenStore.RedisStore.GetOTP | services/auth/internal/adapter/redis/token_store.go:68-78 | the live hash, none, or an error |
| TokenStore.RedisStore.Delete | services/auth/internal/adapter/redis/token_store.go:80-86 | removes one key |
| TokenStore.RedisStore.IncrementOTPAttempts | services/auth/internal/adapter/redis/token_store.go:88-101 | the new count; the first increment of a life also sets the expiry |
| TokenStore.RedisStore.TrySetResendCooldown | services/auth/internal/adapter/redis/token_store.go:103-118 | granted once per cooldown, otherwise the remaining time |
| TokenStore.RedisStore.MarkEmailVerified | services/auth/internal/adapter/redis/token_store.go:121-127 | writes the single-use mark with its time to live |
| TokenStore.RedisStore.ConsumeEmailVerified | services/auth/internal/adapter/redis/token_store.go:129-139 | takes the mark: true at most once for each write |
| OtpSafety.RunKeeps | services/auth/internal/usecases/otp.go:160-218 | the invariant of every run for one address and flow: every comparison with the live code is covered by its counter, which does not expire first, or by an older counter that can expire once |
| OtpSafety.RegistrationGuessesBounded | services/auth/internal/usecases/otp.go:167-185 | over every run with any clock, any lost commands and any other users: all comparisons with one issued registration code, right ones included, number at most MaxVerifyAttempts when its counter was cleared, and at most twice that less one when the clearing was lost |
| OtpLimits.UnclearedBoundIsReached | services/auth/internal/usecases/otp.go:119-150 | for every configuration with a lifetime of two seconds or more, a run in which an uncleared code meets exactly that many |
| OtpReuse.ResetBoundExact | services/auth/internal/usecases/auth_usecase.go:677-744 | the same bounds, with five guesses, hold for reset codes over every run if and only if the code lifetime is at most 15 minutes and no clean-up deletes the counter while it loses the deletion of the code |
| OtpLimits.SixGuesses | services/auth/internal/usecases/auth_usecase.go:677-694 | for every longer lifetime, a run with tidy clean-ups and a sixth comparison |
| OtpReuse.OnePasswordPerCode | services/auth/internal/usecases/auth_usecase.go:725-746 | over every run in which each reset of the address that updates the password goes on to delete the code, one code changes at most one password |
| OtpReuse.SecondUseIff | services/auth/internal/usecases/auth_usecase.go:725-746 | a code used twice in a row changes the password twice if and only if the first use stops before the code is deleted: update unconfirmed, revocation failed, or deletion lost |
| OtpReuse.AfterUses | services/auth/internal/usecases/auth_usecase.go:677-746 | how often n uses of one code change the password, for every outcome of the work after the update: once, n times when only the counter is deleted, and otherwise five times at most |
| OtpStored.RunHolds | services/auth/internal/usecases/otp.go:184-203 | over every run, in either flow and for any lifetimes: a stored code is the one stored last for its address, and counters are counters |
| OtpStored.OnlyTheLastCodeIsRight | services/auth/internal/usecases/otp.go:184-203 | in either flow a guess is judged right exactly when its hash is that of the code stored last for the address |
| OtpOutcomes.IssueIff | services/auth/internal/usecases/otp.go:119-150 | with answered commands a code is sent exactly when the address is not cooling down and code and mail succeed; then its hash is live for the configured time, the counter is gone, the cooldown runs, and no other key changed |
| OtpOutcomes.CoolingTells | services/auth/internal/adapter/redis/token_store.go:103-118 | during a cooldown the answer names the time that is left |
| OtpOutcomes.SendIff | services/auth/internal/usecases/otp.go:106-118 | a registration code is for a plausible and free address only; a taken one is told so and nothing happens |
| OtpOutcomes.ForgotIff | services/auth/internal/usecases/otp.go:45-68 | a reset code is for a known address only; an unknown one is answered with success and nothing happens |
| OtpOutcomes.CounterLives | services/auth/internal/adapter/redis/token_store.go:88-101 | an attempts counter starts at one for the lifetime of a registration code, or 15 minutes for a reset, and keeps that end |
| OtpOutcomes.Guesses | services/auth/internal/usecases/otp.go:167-203 | each verdict on a guess, exactly when it is given, and what it changes |
| OtpOutcomes.VerifyIff | services/auth/internal/usecases/otp.go:160-218 | on the store of any run, with answered commands: a verification succeeds if and only if both strings are given, the guess is within MaxVerifyAttempts, and the code stored last is live and is the one given; each error is exact too |
| OtpOutcomes.VerifiedLeaves | services/auth/internal/usecases/otp.go:204-218 | after a success the mark of the address is live for the configured time, the guess, the use and the mark are recorded, code and counter are gone, and every other key is as it was |
| OtpOutcomes.RegisterIff | services/auth/internal/usecases/auth_usecase.go:91-226 | a registration succeeds if and only if its input is good, address and phone are free, the mark is live, and the rest of the work succeeds; it takes the mark |
| OtpOutcomes.SignUp | services/auth/internal/usecases/auth_usecase.go:91-226 | after any run, with answered commands: send, verify with that code in time, register in time, and all three succeed |
| OtpOutcomes.ResetIff | services/auth/internal/usecases/auth_usecase.go:662-748 | on the store of any run a reset succeeds if and only if its input is good, the guess is within five, the code stored last is live and given, and user, update and revocation succeed; the password changes exactly when such a guess meets an update that took effect |
| OtpOutcomes.ResetLeaves | services/auth/internal/usecases/auth_usecase.go:725-746 | after a success the version of the user is one more, and code and counter are gone unless their deletion was lost |
| OtpOutcomes.PasswordRecovered | services/auth/internal/usecases/auth_usecase.go:662-748 | after any run, with answered commands: ask for a code, reset with it in time, and both succeed |
| OtpCounting.NothingFromNothing | services/auth/internal/usecases/otp.go:204-212 | for one address over every run: registrations, marks taken, marks written, codes used up and codes stored are each at most the next |
| OtpCounting.EveryRegistrationNeedsAMark | services/auth/internal/usecases/auth_usecase.go:127-133 | over every run, between any two marks taken for an address a new mark was written |
| OtpCounting.MarkIsSingleUse | services/auth/internal/usecases/auth_usecase.go:127-133 | after a completed registration, and after any further commands of anyone that write no new mark for the address, another one is refused, whatever its input |
| OtpUsecase.AuthUsecase.IssueOTP | services/auth/internal/usecases/otp.go:119-150 | cooldown, code, counter reset and mail in this order, with every error exit, equal to the protocol step |
| OtpUsecase.AuthUsecase.SendRegistrationOTP | services/auth/internal/usecases/otp.go:106-158 | the registration request, for the trimmed and lower-cased address, equals its protocol step |
| OtpUsecase.AuthUsecase.ForgotPassword | services/auth/internal/usecases/otp.go:45-104 | unknown addresses get the standard answer and change nothing |
| OtpUsecase.AuthUsecase.GuessOTP | services/auth/internal/usecases/otp.go:167-203 | count first, then compare; over the limit the code is deleted |
| OtpUsecase.AuthUsecase.VerifyRegistrationOTP | services/auth/internal/usecases/otp.go:160-218 | a right guess uses up code and counter and writes the mark |
| OtpUsecase.AuthUsecase.Register | services/auth/internal/usecases/auth_usecase.go:91-226 | uniqueness, then the mark, then one transaction; every error exit |
| OtpUsecase.AuthUsecase.ResetPassword | services/auth/internal/usecases/auth_usecase.go:662-748 | the reset equals its protocol step, clean-up errors ignored |
| Pin.RunSane | services/auth/internal/usecases/userpin_usecase.go:104-141 | after every run a lock deadline implies at least five failures |
| Pin.VerifyExact | services/auth/internal/usecases/userpin_usecase.go:104-141 | for the table of any run: success exactly for the right PIN of a row that is read, not locked and, after failures, reset; Forbidden, InvalidInput and NotFound exactly too |
| Pin.VerifyLeaves | services/auth/internal/usecases/userpin_usecase.go:104-141 | and what it leaves: one failure more, a lock of 15 minutes from the fifth on, or a clean row; all else as it was |
| Pin.UpdateExact | services/auth/internal/usecases/userpin_usecase.go:71-102 | a new PIN of six characters replaces the old one exactly from an unlocked row that the old one opens |
| Pin.SetExact | services/auth/internal/usecases/userpin_usecase.go:36-69 | a first PIN is set exactly for a user who has none |
| Pin.NewPinOpens | services/auth/internal/usecases/userpin_usecase.go:36-141 | after any run, the PIN just set or changed is accepted, and every other one refused |
| Pin.SuccessClears | services/auth/internal/usecases/userpin_usecase.go:134-140 | a successful check always ends with zero failures and no lock, also where the reset is skipped |
| Pin.BudgetStep | services/auth/internal/usecases/userpin_usecase.go:104-141 | the guesses a window still admits drop by one with each wrong PIN checked |
| Pin.GuessRate | services/auth/internal/usecases/userpin_usecase.go:104-141 | wrong PINs checked in any window of length T number at most 5 + T / 15 min, plus one for each lost write and five for each cleared counter |
| Pin.GuessRateIsTight | services/auth/internal/usecases/userpin_usecase.go:124-130 | for every number of locks there is a run that reaches the bound |
| Pin.PinUsecase.VerifyPIN | services/auth/internal/usecases/userpin_usecase.go:104-141 | equal to the step of the lockout machine, statement by statement |
| Pin.PinUsecase.UpdatePIN | services/auth/internal/usecases/userpin_usecase.go:71-102 | refused while locked; a new hash also clears counter and lock |
| Pin.PinUsecase.SetPIN | services/auth/internal/usecases/userpin_usecase.go:36-69 | only for a user without a PIN |
| Pin.PinUsecase.IncrementFailedAttempts | services/auth/sqlc/generated/user_pins.sql.go:54-60 | the INTEGER counter goes up by one; at the column's limit the statement fails |
| Ledger.LedgerStore.ExecuteTransfer | services/payment/internal/adapter/postgres/repo/ledger_repo.go:26-120 | one atomic transfer: the errors in the order the statements meet them, or transaction, debit, credit and both balances |
| Ledger.LedgerStore.ConfirmPayment | services/payment/internal/adapter/postgres/repo/deposits_repo.go:52-121 | credits once, only from the created state, and never debits the settlement balance |
| Ledger.LedgerStore.CreateDeposit | services/payment/internal/adapter/postgres/repo/deposits_repo.go:24-37 | one deposit per order |
| Ledger.LedgerStore.MarkFailed | services/payment/internal/adapter/postgres/repo/deposits_repo.go:123-132 | overwrites any status |
| Ledger.LedgerStore.CreateAccount | services/payment/internal/adapter/postgres/repo/account_repo.go:34-57 | one wallet per user, one account per handle, one settlement account |
| LedgerLaws.PairIsUnique | services/payment/migrations/000002_create_transactions_and_journal.up.sql:14 | one (key, sender) pair names at most one transaction |
| LedgerLaws.ExecuteWellFormed | services/payment/internal/adapter/postgres/repo/ledger_repo.go:64-97 | double entry, unique keys, distinct parties and non-negative int64 balances survive every transfer, failing or not |
| LedgerLaws.ConfirmWellFormed | services/payment/internal/adapter/postgres/repo/deposits_repo.go:52-121 | and every confirmed deposit |
| LedgerLaws.MovedSum | services/payment/internal/adapter/postgres/repo/ledger_repo.go:99-105 | a transfer leaves the sum of all balances alone |
| LedgerLaws.NetRecorded | services/payment/sqlc/generated/journal.sql.go:58-80 | credits minus debits of any account after one more transaction |
| LedgerLaws.ExecuteBalanced | services/payment/internal/adapter/postgres/repo/ledger_repo.go:79-105 | every balance stays its opening balance plus its journal |
| LedgerLaws.ConfirmBalanced | services/payment/internal/adapter/postgres/repo/deposits_repo.go:83-110 | a deposit keeps the books up to the settlement account, which lacks exactly the deposits |
| PaymentRuns.RunKeepsBooks | services/payment/internal/domain/ledger.go:7-21 | over every run of transfers, withdrawals, pod moves, system transfers, deposits and account creation, with any failures, all of the above holds and nothing recorded is taken back |
| PaymentRuns.ConservedExactly | services/payment/sqlc/generated/accounts.sql.go:16-30 | the total is conserved, and the settlement account agrees with its journal, if and only if no deposit was credited |
| PaymentRuns.EntriesExact | services/payment/sqlc/generated/journal.sql.go:15-20 | the entries read back for a transaction are its debit and its equal credit, in that order, and no others |
| PaymentRuns.DecidedForever | services/payment/internal/adapter/postgres/repo/deposits_repo.go:66-81 | a deposit that was credited is never credited again and one marked failed first never is, after any run |
| PaymentRuns.FirstVerdictDecides | services/payment/internal/adapter/postgres/repo/deposits_repo.go:52-132 | over every run a deposit is credited if and only if the first confirmation or failure that took effect for it was a confirmation, and it awaits one exactly while there was neither |
| PaymentOutcomes.ExecuteIff | services/payment/internal/adapter/postgres/repo/ledger_repo.go:26-120 | the ledger write succeeds if and only if both accounts exist and differ, the sender has the amount, the receiver has room, pair and identifier are new, the category exists and the commit is answered; it moves exactly the amount from the one balance to the other with one transaction and its two entries, or changes nothing |
| PaymentOutcomes.ExecuteErrors | services/payment/internal/adapter/postgres/repo/ledger_repo.go:40-105 | each error of a refused write, exactly when it is given |
| PaymentOutcomes.OpenAccountIff | services/payment/internal/adapter/postgres/repo/account_repo.go:34-57 | an account is opened, empty, exactly when it and its unique keys are new |
| PaymentOutcomes.ConfirmIff | services/payment/internal/adapter/postgres/repo/deposits_repo.go:52-121 | a confirmation credits the account of a waiting deposit with its amount, exactly when it can, and no other balance changes |
| PaymentOutcomes.FailIff | services/payment/internal/adapter/postgres/repo/deposits_repo.go:123-132 | a failure marks the deposit and moves nothing |
| Payments.TransferUsecase.TransferMoney | services/payment/internal/usecases/transfer_usecase.go:69-150 | the whole call equals its seven accesses run without interruption |
| Payments.TransferUsecase.ReplayTransfer | services/payment/internal/usecases/transfer_usecase.go:152-173 | an earlier transaction with its own entries and the balances of the moment |
| Payments.TransferUsecase.Entries | services/payment/sqlc/generated/journal.sql.go:15-56 | exactly the journal rows of the transaction, in order |
| Payments.TransferUsecase.RequestWithdrawal | services/payment/internal/usecases/withdrawal_usecase.go:48-82 | limits, untrimmed key, replay only when the pre-check was answered |
| Payments.SystemTransferUsecase.TransferMoney | services/payment/internal/usecases/system_tranfer_usecase.go:32-50 | validated, then one ledger write |
| Payments.PodUsecase.PodTransfer | services/payment/internal/usecases/pod_usecase.go:209-295 | owner only; the direction decides sender and receiver |
| Payments.PodUsecase.AddPod | services/payment/internal/usecases/pod_usecase.go:95-147 | pod and empty account in one transaction |
| Payments.PodUsecase.RemovePod | services/payment/internal/usecases/pod_usecase.go:353-385 | owner only, and only while the account is empty |
| Payments.DepositUsecase.Initiate | services/payment/internal/usecases/deposite_usecases.go:58-89 | limits, then the order, then the deposit row |
| Payments.Advance | services/payment/internal/usecases/transfer_usecase.go:69-150 | one access of a transfer: every access of an unfinished call moves it forward, none changes its input |
| TransferRace.TraceKeeps | services/payment/internal/usecases/transfer_usecase.go:109-150 | for every interleaving of any number of transfers with all other commands: the books hold, every call is where its phase says, and no two calls move money in one transaction |
| TransferRace.OneTransactionPerKey | services/payment/internal/usecases/transfer_usecase.go:109-173 | all successful calls of one caller under one key answer with one transaction; at most one moved money; those with entries have the same two |
| TransferRace.MovedOnce | services/payment/sqlc/generated/transactions.sql.go:180-185 | every recorded transaction is the only one of its pair, with exactly its two journal rows |
| PaymentOutcomes.NewTransferIff | services/payment/internal/usecases/transfer_usecase.go:69-150 | an accepted transfer under a new pair succeeds if and only if its pre-check was answered, its category is the caller's, the money can move and the commit is answered; balances, journal and the two balances returned are exact |
| PaymentOutcomes.RefusedTransfer | services/payment/internal/usecases/transfer_usecase.go:70-107 | a transfer whose parties are not accepted is an error and changes nothing |
| PaymentOutcomes.WithdrawalIff | services/payment/internal/usecases/withdrawal_usecase.go:48-82 | a withdrawal takes exactly the amount from the wallet of the caller to the settlement account, within the limits, and returns both balances |
| PaymentOutcomes.SystemTransferIff | services/payment/internal/usecases/system_tranfer_usecase.go:32-50 | a system transfer goes from the first account to the second |
| PaymentOutcomes.PodDepositIff | services/payment/internal/usecases/pod_usecase.go:209-295 | a pod deposit, however spelled, succeeds only for the owner; it lowers the wallet and raises the pod by exactly the amount, leaves every other balance, records that one transaction, and returns both balances under their names |
| PaymentOutcomes.PodWithdrawIff | services/payment/internal/usecases/pod_usecase.go:209-295 | a pod withdrawal goes the other way |
| PaymentOutcomes.PodRefused | services/payment/internal/usecases/pod_usecase.go:209-225 | any other direction is refused and moves nothing |
| PaymentOutcomes.AddPodIff | services/payment/internal/usecases/pod_usecase.go:95-147 | a pod of the caller and an empty account of its own, exactly when both are new |
| PaymentOutcomes.RemovePodIff | services/payment/internal/usecases/pod_usecase.go:353-385 | a pod goes exactly when its owner asks and its account is empty |
| PaymentOutcomes.InitiateIff | services/payment/internal/usecases/deposite_usecases.go:58-89 | a deposit is recorded for the wallet of the caller with the amount asked for |
| TransferRace.AcceptedIff | services/payment/internal/usecases/transfer_usecase.go:70-107 | the two parties are accepted if and only if the sender is the wallet of the caller, the receiver the account of the handle asked for and of a kind that receives, they differ, amount and key are given, and both lookups were answered |
| TransferRace.MoneyGoesAsAsked | services/payment/internal/usecases/transfer_usecase.go:70-137 | over every interleaving, a call that moved money moved exactly the amount asked for, from the wallet of its own caller to the account of the handle it named, under a category of that caller if any, and recorded just that |
| TransferRace.NeverIdempotencyKeyUsed | services/payment/internal/adapter/postgres/repo/ledger_repo.go:75-77 | a taken pair is never reported as the used-key error, so the branch that fetches the winner is dead |
| TransferRace.LastOfPair | services/payment/internal/usecases/transfer_usecase.go:158-165 | a replay finds debit and credit in whichever order the rows come back |
| TransferRace.WinnerReturnedIff | services/payment/internal/usecases/transfer_usecase.go:139-146 | a call whose pair is taken when it would write returns the recorded transaction if and only if its pre-check already saw the pair |
| TransferRace.RaceLoserGetsError | services/payment/internal/usecases/transfer_usecase.go:139-148 | of two calls of one caller under one key past the pre-check, with any amounts, recipients and categories and anything in between, the second moves nothing and is told the first error its own order meets, never the first one's transaction |
| TransferRace.RetryIsReplay | services/payment/internal/usecases/transfer_usecase.go:109-112 | a recorded key asked again moves nothing and answers with its transaction and entries, whatever the repeat asks for |
| TransferRace.WithdrawalRetryIff | services/payment/internal/usecases/withdrawal_usecase.go:65-80 | a repeated withdrawal moves nothing and replays if and only if its pre-check was answered |
| Money.AllDigits | shared/pkg/money/money.go:71-78 | true exactly for strings of decimal digits |
| Money.ParseRupees | shared/pkg/money/money.go:13-59 | accepts exactly the literals of the amount grammar with rupees in range, and returns what they are worth; no int64 overflow |
| Money.OneLiteral | shared/pkg/money/money.go:22-45 | the grammar is unambiguous |
| Money.FormatIs | shared/pkg/money/money.go:62-69 | the exact text for every int64, the least one included |
| Money.FormatThenParse | shared/pkg/money/money.go:13-69 | printing and parsing back gives the amount again exactly from zero to the largest accepted amount; all other int64 values print to refused text |
| Money.FormatInjective | shared/pkg/money/money.go:62-69 | different amounts never print alike |
| Money.ParseThenFormat | shared/pkg/money/money.go:13-69 | accepted text prints to a canonical form with the same meaning, and is left unchanged exactly when it was canonical |
| Rewards.CreateRule | services/rewards/internal/usecases/reward_usecase.go:51-68 | accepts a rule exactly under the five conditions |
| Rewards.RewardIs | services/rewards/internal/usecases/rule_engine.go:14-46 | who is paid and exactly how much; rate between the bounds, reward positive, at most the cap, the largest rate's share and the payment |
| Rewards.FitsIff | services/rewards/internal/usecases/rule_engine.go:33 | no int64 overflow for all accepted rules and rolls if and only if the amount is at most the largest int64 divided by 10000 |
| Rewards.WrapsToNothing | services/rewards/internal/usecases/rule_engine.go:33-39 | one paisa more and a full-rate reward wraps negative and is refused |
| Rewards.RewardMonotone | services/rewards/internal/usecases/rule_engine.go:33-36 | with one roll a larger payment never earns less |
| Rewards.GainBeatsCap | services/rewards/internal/usecases/rule_engine.go:33-36 | a payment whose exact share is within the cap is never worth splitting into any parts |
| Rewards.EarnsIff | services/rewards/internal/usecases/rule_engine.go:14-46 | the least amount that earns a given reward, from the minimum amount and the rate |
| Rewards.SomeSplitGainsIff | services/rewards/internal/usecases/rule_engine.go:33-36 | some split of a payment into any number of parts pays more if and only if the rule pays at all and the amount covers two parts that together earn one more than the cap |
| Rewards.SplitInTwo | services/rewards/internal/usecases/rule_engine.go:33-36 | that split |
| Payouts.RunSound | services/rewards/internal/usecases/reward_usecase.go:127-145 | over every interleaving of workers with crashes and lost writes: every payment is accounted for and there is one row per transaction and recipient type |
| PayoutRuns.TalliesExact | services/rewards/internal/usecases/reward_usecase.go:136-145 | over every run, no payment is lost, or repeated, if and only if no step was an unconfirmed payment, a lost mark of a payment made or a stop before that mark, or a second completion |
| PayoutRuns.ExactlyOnceIff | services/rewards/internal/usecases/reward_usecase.go:114-182 | in every run that has settled: each completed payout was paid exactly once and every other never, if and only if no step lost or repeated a payment |
| PayoutRuns.PaidOnce | services/rewards/internal/usecases/reward_usecase.go:114-182 | at every moment of a run without such steps whose replays do not overlap: a completed payout was paid once, any other at most once and only while its mark is due |
| PayoutRuns.OneReplayIsPolite | services/rewards/internal/usecases/reward_usecase.go:166-182 | replays never take a payout in other hands as long as none starts while another is at work, however many events are being processed |
| PayoutRuns.PaidExactly | services/rewards/internal/usecases/reward_usecase.go:114-182 | one replay at a time and no payment lost: every settled run paid each completed payout once, the others never, and exactly the rewards of the completed ones in all |
| PayoutRuns.TotalPaidIff | services/rewards/internal/usecases/reward_usecase.go:166-182 | rewards being positive, all money paid out is the rewards of the completed payouts if and only if no step lost or repeated a payment |
| PayoutRuns.TotalSplits | services/rewards/internal/usecases/reward_usecase.go:166-182 | in any case it is those rewards plus what was lost and what was repeated |
| Payouts.DuplicateAddsNothing | services/rewards/internal/usecases/reward_usecase.go:128-132 | a redelivered event changes nothing |
| PayoutJobs.ProcessedLeaves | services/rewards/internal/usecases/reward_usecase.go:114-145 | an event for a new transaction and recipient adds exactly its one row, completed, failed or pending as payment and mark went, paid once unless insert or payment failed before; nobody is left at work and nothing else changes |
| PayoutJobs.HappyEvent | services/rewards/internal/usecases/reward_usecase.go:114-145 | with everything answered it is paid once and completed |
| PayoutJobs.ReplayLeaves | services/rewards/internal/usecases/reward_usecase.go:166-182 | a replay pays each listed payout once unless the payment never ran, completes it exactly when payment and mark succeeded, and leaves all other rows |
| PayoutRuns.PoliteReplaysNeverRepeat | services/rewards/internal/usecases/reward_usecase.go:166-182 | while no replay takes a payout another worker has, no payout is completed twice, over every run |
| PayoutFailures.UnconfirmedIsPaidTwice | services/rewards/internal/usecases/reward_usecase.go:136-140 | from nothing, a run in which every write succeeds and nothing overlaps that pays a payout twice: its first payment was made and not confirmed |
| PayoutFailures.OverlappingReplaysPayTwice | services/rewards/internal/usecases/reward_usecase.go:172-179 | from nothing, a run that loses no payment and pays a payout twice: two replays took it |
| PayoutFailures.StrandedExactly | services/rewards/internal/usecases/reward_usecase.go:127-145 | over every run, a payout is pending with nobody to pay it if and only if some step stranded it: an insert made and not confirmed, a mark lost while it was pending, or its worker stopping |
| PayoutFailures.StrandedForever | services/rewards/internal/usecases/reward_usecase.go:127-140 | such a payout is never paid again, whatever follows |
| Payouts.ProcessedSound | services/rewards/internal/usecases/reward_usecase.go:89-149 | processing an event keeps all of it |
| Payouts.ReplayedSound | services/rewards/internal/usecases/reward_usecase.go:166-182 | so does a replay |
| Payouts.RewardUsecase.ProcessPaymentCompletedEvent | services/rewards/internal/usecases/reward_usecase.go:89-149 | no rule, no reward and duplicates do nothing; otherwise insert, pay and mark with the calculated reward |
| Payouts.RewardUsecase.ListFailedPayouts | services/rewards/internal/adapter/postgres/repo/reward_repo.go:247-272 | the newest failed payouts, ten at most, none left out that is newer |
| Payouts.RewardUsecase.ReplayFailed | services/rewards/internal/usecases/reward_usecase.go:166-182 | each listed payout is paid again; failures stay failed |
| Outbox.RunSound | services/auth/internal/usecases/auth_usecase.go:189-211 | with crashes between any two steps, repeated publishing and concurrent consumption: each event belongs to the one registration that wrote it, each event marked published is on the topic, each wallet is the one wallet of a registered user under that user's handle |
| Outbox.OneWalletPerUser | services/payment/internal/usecases/wallet_usecase.go:36-63 | all consumers that succeed for a user answer with one wallet, under the handle of the user's event |
| Outbox.ConflictIsOwn | services/payment/internal/usecases/wallet_usecase.go:56-59 | an insert conflicts only with the same user's wallet |
| Outbox.FallbackFinds | services/payment/internal/usecases/wallet_usecase.go:57-59 | so the fallback read, when answered, finds the wallet |
| Outbox.RunLasts | services/auth/internal/infra/outboxpublisher/publisher.go:42-57 | registrations, wallets, messages and published marks are never taken back |
| Outbox.GivesUpIff | services/payment/internal/usecases/wallet_usecase.go:36-63 | a user without a wallet is left with no consumer at work exactly by the step in which the last one fails: its check, its insert, or itself |
| Outbox.FailedReadIsFinal | shared/pkg/kafka/consumer.go:48-58 | from then on, without another read of the user's message, no wallet ever appears |
| Outbox.LostMessageIsReached | shared/pkg/kafka/consumer.go:48-58 | in any system, a run that registers a user, publishes and marks the event and ends there |
| Outbox.CreateWalletIsIdempotent | services/payment/internal/usecases/wallet_usecase.go:36-63 | after a success every further call returns the same wallet and changes nothing |
| WalletOutcomes.RegisteredIff | services/auth/internal/usecases/auth_usecase.go:189-211 | a registration writes user and event together, exactly when user, handle and event are new and it commits |
| WalletOutcomes.PublishedLeaves | services/auth/internal/infra/outboxpublisher/publisher.go:42-57 | a published and marked event is on the topic as it was written and is not fetched again |
| WalletOutcomes.CreateWalletIff | services/payment/internal/usecases/wallet_usecase.go:36-63 | the answer and the database after a call, for every outcome of lookup, insert and fallback |
| WalletOutcomes.ReadBecomesWallet | services/payment/internal/infra/kafkaconsumer/userregistered.go:16-26 | after any run, a message that is read by a consumer whose accesses are answered ends in the wallet of its user |
| Outbox.WalletUsecase.Create | services/payment/internal/usecases/wallet_usecase.go:36-63 | lookup, insert and fallback, with other writers in the gaps |
| Publisher.OutboxPublisher.PublishBatch | services/auth/internal/infra/outboxpublisher/publisher.go:42-57 | one tick over the oldest batch: what reaches the topic and what is marked |
| Publisher.OutboxPublisher.Unpublished | services/auth/sqlc/generated/outbox_events.sql.go:14-19 | all unpublished events, each once, oldest first |
| Publisher.QueueIsUnique | services/auth/sqlc/generated/outbox_events.sql.go:14-19 | with distinct creation times that order is unique |
| Publisher.TickQueue | services/auth/internal/infra/outboxpublisher/publisher.go:42-57 | after a tick the queue is what stuck of the batch, in order, then everything behind it |
| Publisher.NothingIsLost | services/auth/internal/infra/outboxpublisher/publisher.go:42-57 | under any failures the queue never grows, nothing joins it, and what left it is on the topic |
| Publisher.DrainedInOrder | services/auth/internal/infra/outboxpublisher/publisher.go:25-57 | without failures n events are published in creation order after exactly ceil(n / 20) ticks |
| Publisher.AfterTicks | services/auth/internal/infra/outboxpublisher/publisher.go:29-40 | k ticks of one luck leave the queue that the next statement is about |
| Publisher.PublishedSomeDayIff | services/auth/internal/infra/outboxpublisher/publisher.go:43-51 | an event that would succeed is published some day if and only if fewer than 20 events that never do are older |
| Notification.RunSound | services/notification/internal/usecases/notification_usecase.go:40-109 | the invariant of every interleaving of deliveries, registrations and revocations |
| Notification.FannedOutOnce | services/notification/sqlc/generated/inbox.sql.go:45-51 | one inbox row and one delivery per event and recipient, and each device and token pushed at most once for it |
| Notification.DuplicateIsIgnored | services/notification/internal/usecases/notification_usecase.go:65-67 | a redelivered event changes nothing |
| Deliveries.Delivered | services/notification/internal/usecases/notification_usecase.go:52-109 | an uninterrupted delivery that is wanted pushes to each active device exactly once, in the order listed, switches off the dead ones, leaves the inbox row with its content, marked sent unless that was lost, and changes nothing else |
| Deliveries.EveryDeviceIsPushed | services/notification/internal/usecases/notification_usecase.go:83-109 | so every active device of the recipient gets its push |
| Deliveries.Muted | services/notification/internal/usecases/notification_usecase.go:69-76 | a recipient who switched the category off gets the inbox row and no push |
| Deliveries.PreferredLeaves | services/notification/internal/usecases/preference_usecase.go:24-29 | switching a category on or off counts for that recipient and category from then on and for no other |
| Tokens.RegisteredLeaves | services/notification/internal/usecases/device_usecase.go:29-46 | which registrations take effect, and the one row they write |
| Tokens.RevokedLeaves | services/notification/internal/usecases/device_usecase.go:48-53 | a revocation switches off the recipient's own row |
| Notification.DeadTokenStaysSilent | services/notification/internal/usecases/notification_usecase.go:93-100 | a push to a token switched off earlier is by a delivery that had listed the devices before, or follows a new registration of the token |
| Tokens.DeadUntilRegistered | services/notification/internal/usecases/notification_usecase.go:93-100 | when handlers are not interrupted, a token that was switched off is never pushed to again until it is registered anew |
| Tokens.RotatedTokenIsLost | services/notification/sqlc/generated/device_tokens.sql.go:14-18 | the row is switched off, so a token registered between the failed push and the write is lost; spared exactly when unchanged |
| Tokens.OnlyRotatedTokensAreLost | services/notification/internal/usecases/notification_usecase.go:91-109 | over every interleaving a delivery switches off the token it pushed to in vain, or one registered on the device since it listed the devices, never another |
| Tokens.RotationIsReached | services/notification/internal/usecases/notification_usecase.go:91-109 | for any recipient with one active device, a run that loses a token nothing was ever pushed to |
| Notification.HandleSound | services/notification/internal/usecases/notification_usecase.go:40-87 | the handler is made of these steps |
| Notification.NotificationUsecase.HandleEvent | services/notification/internal/usecases/notification_usecase.go:40-50 | a recipient that does not parse is refused, an event without a template skipped |
| Notification.NotificationUsecase.Compose | services/notification/internal/usecases/notification_usecase.go:125-172 | title, body and data of the message |
| Notification.NotificationUsecase.Deliver | services/notification/internal/usecases/notification_usecase.go:52-87 | insert, preference, list, push, mark sent, with every exit |
| Notification.NotificationUsecase.DispatchTokens | services/notification/internal/usecases/notification_usecase.go:83-85 | one push per listed device, in order |
| Notification.NotificationUsecase.Dispatch | services/notification/internal/usecases/notification_usecase.go:91-109 | push, deactivate when dead for good, log |
| Notification.NotificationUsecase.ListActive | services/notification/sqlc/generated/device_tokens.sql.go:42-46 | the active devices of the recipient, each once |
| Notification.NotificationUsecase.Insert | services/notification/sqlc/generated/inbox.sql.go:45-51 | the new row, or none for a duplicate |
| Render.Render | services/notification/internal/usecases/notification_usecase.go:188-193 | the text of some order of the keys, each used once |
| Render.ReplaceOne | services/notification/internal/usecases/notification_usecase.go:190 | replacing one placeholder in a clean template fills exactly its holes of that name |
| Render.OrderDoesNotMatter | services/notification/internal/usecases/notification_usecase.go:187-193 | every order of the payload gives the one-pass simultaneous substitution |
| Render.CopyIsDetermined | services/notification/internal/usecases/notification_usecase.go:125-200 | for every event and every payload without braces, title and body do not depend on the order |
| Render.TitlesAreClean | services/notification/internal/usecases/notification_usecase.go:128-168 | every title template is brace-free words and well-formed placeholders |
| Render.BodiesAreClean | services/notification/internal/usecases/notification_usecase.go:128-168 | so is every body template |
| RenderOrder.OrderHiddenIff | services/notification/internal/usecases/notification_usecase.go:187-193 | for every payload with braceless keys, whatever its values, and all clean templates with holes for any given names: no order of the payload shows in any of them if and only if no placeholder of a key, unless it stands for itself, forms in the values of other keys among the names, within one value or where two meet |
| RenderOrder.UnexposedOrder | services/notification/internal/usecases/notification_usecase.go:187-193 | in that case every order gives the one-pass simultaneous substitution, braces or not |
| RenderOrder.ExposedShows | services/notification/internal/usecases/notification_usecase.go:187-193 | otherwise a template and two orders that differ |
| RenderOrder.CopyUnexposed | services/notification/internal/usecases/notification_usecase.go:125-200 | so title and body of every event are determined, unless a placeholder forms in the values that messages show |
| RenderOrder.ReplaceChangesIff | services/notification/internal/usecases/notification_usecase.go:190 | a replacement changes a text if and only if the text contains what is replaced and it is replaced by something else |
| RenderOrder.OrderShowsIff | services/notification/internal/usecases/notification_usecase.go:188-193 | for one placeholder and two keys the order shows if and only if the first value contains the second placeholder and the second value is not that placeholder |
| RenderOrder.OrderCanShow | services/notification/internal/usecases/notification_usecase.go:188-193 | a payload for which it does |
| Render.FmtAnyIs | services/notification/internal/usecases/notification_usecase.go:195-200 | a value is shown as its characters other than blanks and line feeds, in their order and each as often as it stands there, without other white space at the ends |
| Render.FmtIgnores | services/notification/internal/usecases/notification_usecase.go:195-200 | a blank or line feed anywhere makes no difference |
| Render.FmtPlain | services/notification/internal/usecases/notification_usecase.go:195-200 | text without white space is shown as it is, and no value as no text |
| Copies.CopySpelled | services/notification/internal/usecases/notification_usecase.go:125-172 | title and body of every event read as the service spells them |
| Copies.EventNamed | services/notification/internal/usecases/notification_usecase.go:125-172 | an event is found by its own name and by no other |
| Copies.CopyOpens | services/notification/internal/usecases/notification_usecase.go:125-172 | the category of each event, the screen a tap opens and the identifier it passes |
| Copies.TransferReads | services/notification/internal/usecases/notification_usecase.go:143-146 | a transfer is announced by exactly its amount and handle, whatever else the payload holds |
| Render.FmtBraceless | services/notification/internal/usecases/notification_usecase.go:195-200 | a formatted value has braces exactly when its text has |
| Render.DataFor | services/notification/internal/usecases/notification_usecase.go:175-185 | the payload without the keys that the copy shows |
| Render.PlaceholdersArePrivate | services/notification/internal/usecases/notification_usecase.go:174-182 | every placeholder of every template is one of those keys |
| DepositAmount.RoundedWithinHalf | services/payment/internal/usecases/deposite_usecases.go:73 | rounding errs by half a unit in the last place at most |
| DepositAmount.OrderIs | shared/pkg/payment/razorpay.go:29-30 | the order of every deposit in range is its amount or one paisa less, and exactly when it is less |
| DepositAmount.OrderPaise | services/payment/internal/usecases/deposite_usecases.go:73-75 | the amount of the order, by both conversions |
| DepositAmount.OnePaisaShort | shared/pkg/payment/razorpay.go:30 | a deposit of 115 paise is ordered at 114 |
| RateLimit.RunSound | services/gateway/internal/middlewares/ratelimit.go:19-26 | lives of a counter begin a window apart and each admits at most the limit |
| RateLimit.AdmittedIff | services/gateway/internal/middlewares/ratelimit.go:19-38 | over every run a counted request is admitted if and only if fewer than the limit were counted before it in the life of the counter, and an uncounted one is let through |
| RateLimit.RenewedFor | services/gateway/internal/middlewares/ratelimit.go:24-26 | a renewal that takes effect ends the life one window later |
| RateLimit.AtMostTwiceTheLimit | services/gateway/internal/middlewares/ratelimit.go:11-40 | whatever commands fail: at most the limit per life, at most twice the limit in any time no longer than the window, besides uncounted requests |
| RateLimit.NeverExpiresExactly | services/gateway/internal/middlewares/ratelimit.go:19-26 | over every run, a counter is there for good if and only if some step leaked it: a first increment whose answer was lost, or a lost expiry |
| RateLimit.FloodCounts | services/gateway/internal/middlewares/ratelimit.go:19-26 | for every limit, a run that leaves such a counter full |
| RateLimit.LostExpiryLocksOut | services/gateway/internal/middlewares/ratelimit.go:24-26 | and then every counted request is refused for ever |
| RateLimit.HandledIsSteps | services/gateway/internal/middlewares/ratelimit.go:19-38 | one uninterrupted request is a hit and, for the first of a life, the renewal |
| RateLimit.RateLimiter.Handle | services/gateway/internal/middlewares/ratelimit.go:12-39 | the middleware, command by command |
| Analytics.ParseDateRange | services/payment/internal/usecases/analytics_usecase.go:117-144 | an accepted range with a start is not empty |
| Analytics.RangeRefusedIff | services/payment/internal/usecases/analytics_usecase.go:117-144 | exactly which ranges are refused |
| Analytics.RangeIs | services/payment/internal/usecases/analytics_usecase.go:117-185 | the range is the one asked for |
| Analytics.SelectIs | services/payment/sqlc/generated/transactions.sql.go:43-56 | the report is about exactly the completed payments of the account in the range, each as often as it was made |
| Analytics.AdjacentDays | services/payment/internal/usecases/analytics_usecase.go:150-185 | date-only ranges of adjacent days neither overlap nor leave a gap, and their sums add up |
| Analytics.SplitWindow | services/payment/sqlc/generated/transactions.sql.go:43-56 | splitting a window at any instant splits counts and sums exactly |
| Analytics.GroupsAddUp | services/payment/sqlc/generated/transactions.sql.go:43-56 | the rows of any grouping add up to all selected payments |
| Analytics.ReportsAgree | services/payment/sqlc/generated/transactions.sql.go:90-102 | category and period reports have the same counts and totals, whatever the granularity |
| Analytics.GroupBy | services/payment/sqlc/generated/transactions.sql.go:43-56 | one row per key with its count and sum, in rank order |
| Analytics.SpendByCategory | services/payment/internal/usecases/analytics_usecase.go:43-74 | the report, its errors, its order and its printed totals |
| Analytics.SpendByPeriod | services/payment/internal/usecases/analytics_usecase.go:76-115 | the report by period |
| Analytics.LabelsCanRepeat | services/payment/sqlc/generated/transactions.sql.go:44-54 | payments without a category and a category called uncategorized make two rows of one label |

## Left out

Stated weaker than the source, or under assumptions:

- OtpSafety.RunKeeps: calls run one at a time; a guess that is counted, overtaken by a new code and then compared with that code is
  not in these runs.
- OtpSafety.RegistrationGuessesBounded: addresses without a colon, because the key builders of other addresses can meet
  (`Keyspace.KeysCollide` says exactly when).
- OtpReuse.ResetBoundExact: addresses without a colon, as above.
- OtpUsecase.AuthUsecase.Register: hashing, identifiers, handle, QR code and role lookup between the mark and the transaction are
  one flag, as their order cannot be observed; the transaction itself is in `Outbox`.
- OtpUsecase.AuthUsecase.ResetPassword: hashing and the update are one outcome, and so are the version row and the refresh
  tokens.
- Pin.GuessRate: wrong old PINs given to `UpdatePIN` are not counted, as the source does not count them; checks run one at a time.
- Outbox.RunSound: wallets are created by the event consumer only, not by the internal HTTP endpoint, which takes any handle;
  registered users are not deleted; new account identifiers are fresh.
- Outbox.FailedReadIsFinal: nothing is claimed to be delivered past the publisher, since the consumer drops a message whose
  handling failed.
- Publisher.PublishedSomeDayIff: the same outcome for an event in every tick, and no new events; other statements allow any outcomes.
- RateLimit.AtMostTwiceTheLimit: a window of positive length.
- Payments.TransferUsecase.TransferMoney: rows written between the accesses of one call appear in `TransferRace`, not in this method.
- RenderOrder.OrderHiddenIff: keys without braces, as every key the services write is.
- PayoutRuns.TotalPaidIff: positive rewards, which `Rewards.RewardIs` shows of every payout inserted.
- Payouts.RewardUsecase.ReplayFailed: other workers appear in the step machine, not inside this method.
- Analytics.SpendByPeriod: `DATE_TRUNC` is an arbitrary function of granularity and instant.

Not modelled:

- HTTP handlers, routing, gRPC, configuration loading, tracing and application wiring.
- Hashing, token signing, PIN hashing, the lower case of a character and random generation: arbitrary functions and values.
- Login, logout, refresh rotation, roles and permissions; of refresh tokens only the single-use claim is modelled.
- Editing of pods and of categories, and the clearing of a category's transactions when it is deleted.
- Journal row identifiers and timestamps; rows of a transaction come back in the order written, and a replay does not depend on it.
- Lock ordering of the ledger write; Postgres runs it as one atomic step.
- `UpdateRule` and the admin paths of the merchant service, which skip the validation of `CreateRule`.
- Merchant earnings, campaigns, staff, support and dashboards.
- Reading, marking and listing of inbox messages; the notification channel, which is one constant.
- Calendar parsing: a date parameter arrives as an instant, as the first instant of a day, or as no date.
- Invalid UTF-8 in amounts and templates; strings are sequences of characters.
