# Conversion ledger: a verified model

This project models the conversion service: quotes are priced, accepted once, executed at an exchange
through an outbox and a message broker, and settled against wallets. It has three layers.

* **Decimal money** (`Decimals`, `DecimalText`, `Moneys`). Amounts are integer numbers of minor units; every
  arithmetic result is rounded to 40 significant digits half-even exactly where decimal.js does it, and
  `convert` then truncates. Texts are parsed and printed character by character.
* **Statements, aggregates and use cases** (`Wallets`, `Conversions`, `Pricing`, `Tables`, `Transactions`,
  `Execution`, `Repositories`, `UseCases`, `Messaging`). Each statement and each transaction is a function on
  tables. The mutable classes of the source (aggregates, repositories, use cases, publisher, consumer) are Dafny
  classes that update their fields, and each method is proved against its function.
* **The protocol** (`Protocol` and the modules above it). One state holds the database, open accept
  transactions, the main queue, the dead-letter queue and any number of workers, each with a program counter.
  Steps interleave freely: accepting is split into claiming the key with reading the quote, and committing;
  handling a message is split into its separate database interactions. The environment may crash workers, lose
  channels, lose confirmations of copies that arrived, fail any interaction, change the exchange's mode, delete
  idempotency records and processed markers, and inject any foreign message. Every finite list of steps is a
  run (an impossible step changes nothing), and the guarantees below hold after every run from the empty
  database.

The invariant of the database is in `Invariants`, that of the whole state in `StateProof`; `AcceptProof`,
`DatabaseProof`, `WorkerProof` and `StepProof` show that every step keeps it. `Guarantees`, `Settlement`,
`Conservation`, `Delivery`, `Retries`, `Budgets`, `Agreement`, `Acceptance`, `Origins`, `Solo`, `Progress`,
`DeadEnds` and `Refusal` state what follows from it.

Four promises of the source do not hold as they stand, and the model keeps the code:

* `convert` promises the exact product rounded down (src/modules/shared/domain/money.ts:97-101). The first
  rounding can carry: `ConvertCanFabricate` gives an amount within the request limits whose result is one minor
  unit too large. `ConvertIsFloorIff` says for all inputs when it is the floor. Every quote that can be stored
  is one of those inputs (`SavedQuoteIsSound`). `GainsIff` says when the excess makes an amount worth more.
* A conversion that holds its funds should always settle, but the database can refuse the settlement: the
  credited balance may outgrow NUMERIC(38,18) (`FullColumnRefuses`; `ARefusedSettlement` is a whole run), and a
  credit from outside can bring that about in any reachable state (`ADepositCanBlock`). `SettlementIsRefusedIff`
  says that this is the only case.
* Of a sequence of exchange results the first decisive one should decide, and only a later one that disagrees should
  throw (src/modules/conversion/domain/conversion.ts:189-240). Together with the wallets this fails when the target has no
  room: a SUCCESS is rolled back and a later FAILURE wins. `SequenceIsItsVerdict` and `ThrowsIff` say what happens
  always, `PromisesHoldIff` and `SequencePromisesHoldIff` when the promise holds.
* The repository's README.md:177 says that cleanup keeps in-progress records; the statement has no such filter
  (src/modules/conversion/infrastructure/prisma-idempotency.repository.ts:74-88). It does not matter, because no
  committed record is ever in progress (`RecordsAreComplete`).

Ids are natural numbers of which only equality matters; ids made by the generator are unused ones. The request
fingerprint is an injective function of the trimmed quote id, modelled as that id. Time is an integer number of
milliseconds. Each statement is atomic and each transaction all-or-nothing, and any transaction may abort.

`dafny verify dfyconfig.toml` checks the project.

## Model

| member | source | states |
|---|---|---|
| Decimals.RoundSigIsNearest | src/modules/shared/domain/decimal-config.ts:24-29 | rounding keeps the asked number of digits, no other multiple of its unit is nearer, and a tie goes to the even one |
| Decimals.RoundSigScales | src/modules/shared/domain/decimal-config.ts:24-29 | rounding does not depend on which coefficient and exponent write a decimal |
| Decimals.RoundSigFits | src/modules/shared/domain/decimal-config.ts:24-29 | numbers of at most 40 digits are not rounded |
| Decimals.RoundSigExact | src/modules/shared/domain/decimal-config.ts:24-29 | rounding to 40 significant digits is exact if and only if the dropped digits are zero |
| Decimals.RoundSigMonotone | src/modules/shared/domain/decimal-config.ts:24-29 | half-even rounding to significant digits never reverses an order, across digit counts too |
| Decimals.DoubleRounding | src/modules/shared/domain/money.ts:107-109 | rounding half-even and then truncating is the exact truncation if and only if the first rounding does not carry into the kept digits |
| DecimalText.NotationIsRead | src/modules/shared/domain/money.ts:34-48 | digits around at most one dot, with or without an exponent and its sign, read as the number they write |
| DecimalText.BrokenNotationIsRefused | src/modules/shared/domain/money.ts:34-38 | no digits, a second dot and an exponent mark without digits are no decimal |
| DecimalText.FixedForm | src/modules/shared/domain/money.ts:117-119 | exactly the scale's number of decimals and no superfluous leading zero |
| DecimalText.TrimmedIsShort | src/modules/conversion/application/accept-quote.use-case.ts:48-53 | the trimmed text is a prefix of the fixed one, of whole digits alone or ending in a non-zero decimal |
| DecimalText.TextRoundTrip | src/modules/conversion/application/accept-quote.use-case.ts:48-53 | reading the trimmed fixed-scale text of any amount at any scale gives the amount back |
| DecimalText.FixedRoundTrip | src/modules/shared/domain/money.ts:117-119 | reading the untrimmed fixed-scale text gives the amount back |
| Moneys.TextIsFaithful | src/modules/shared/domain/money.ts:34-48 | Money.of on either text of a money, in its asset, is that money |
| Moneys.UnitsAreExact | src/modules/shared/domain/money.ts:42-47 | a decimal of any exponent is let through if and only if it needs no more decimals than the scale, and then kept exactly |
| Moneys.AmountsAreRead | src/modules/shared/domain/money.ts:34-48 | every text in decimal notation: it is the amount it writes, to six or eight decimals, or exceeds the scale; a plus sign changes nothing and a minus sign makes it negative, zero included |
| Moneys.OtherTextsAreRefused | src/modules/shared/domain/money.ts:34-38 | a text with any other character, and the empty text, is no amount |
| Moneys.TextForms | src/modules/conversion/application/accept-quote.use-case.ts:48-53 | the fixed text has six decimals for USDT and eight for BTC; the written one is that text cut to its whole digits or to its last non-zero decimal |
| Moneys.EqualTextsEqualAmounts | src/modules/conversion/application/accept-quote.use-case.ts:48-53 | two amounts of one asset have equal texts if and only if they are equal |
| Moneys.NumericOfMoney | src/modules/conversion/infrastructure/fake-exchange.adapter.ts:131-155 | any text that reads as an amount of an asset has that amount's value in a NUMERIC(38,18) column, however it is spelled |
| Moneys.AddIsExact | src/modules/shared/domain/money.ts:66-69 | refused across assets, else the sum rounded to 40 digits: exact for all storable amounts, and in general exactly when no non-zero digit is dropped |
| Moneys.SubtractIsExact | src/modules/shared/domain/money.ts:72-81 | refused across assets and below zero, else the difference rounded to 40 digits: exact from a storable amount |
| Moneys.ConvertMonotone | src/modules/shared/domain/money.ts:102-111 | a larger amount never converts to less, with no bound on amounts or rate |
| Moneys.ConvertIsFloorIff | src/modules/shared/domain/money.ts:97-111 | for all amounts and rates, convert is the exact product rounded down if and only if the 40-digit rounding does not carry |
| Moneys.ConvertCanFabricate | src/modules/shared/domain/money.ts:97-111 | a concrete text of the request grammar is accepted as an amount and converts to one minor unit more than the exact floor |
| Moneys.GrammarIs | src/modules/pricing/presentation/dto/create-quote.dto.ts:26-34 | of whole digits with or without decimals, exactly which texts the request grammar admits |
| Moneys.RequestsFit | src/modules/pricing/presentation/dto/create-quote.dto.ts:26-34 | every amount the request grammar admits fits NUMERIC(38,18), so only a target can be too large |
| Moneys.QuotedTargetIsFloor | src/modules/pricing/infrastructure/fake-pricing.provider.ts:20-32 | for both configured pairs, whenever the target fits NUMERIC(38,18): target <= exact product < target + one minor unit |
| Decimals.RoundedAboveIff | src/modules/shared/domain/money.ts:107-109 | rounding and then truncating gives more than truncating at once if and only if the digits of the number say so: a carry out of the dropped part, or a kept digit that rounds up |
| Moneys.GainsIff | src/modules/pricing/infrastructure/fake-pricing.provider.ts:20-23 | for every amount, at 62111.801242236 USDT per BTC: the rate table makes it worth more if and only if BTC is sold and the digits of the exact product round above its truncation |
| Moneys.RequestGainsIff | src/modules/pricing/presentation/dto/create-quote.dto.ts:26-34 | for every amount a request can carry: if and only if the last eleven digits of the product carry |
| Moneys.QuoteGainsNothing | src/modules/pricing/infrastructure/fake-pricing.provider.ts:20-23 | no amount is worth more after a conversion whose target can be stored |
| Pricing.RequestsAreAnswered | src/modules/pricing/application/create-quote.use-case.ts:37-63 | for every request: the requester's own quote of the amount its text reads as, at its pair's rate and for 20 seconds from now; or exactly which error, a zero target being an exact product of less than a minor unit |
| Pricing.RequestIsStoredIff | src/modules/pricing/application/create-quote.use-case.ts:37-63 | a request ends in a stored quote if and only if its text is an amount, its assets differ, and that amount and its exact non-zero target fit their columns |
| Pricing.SavedQuoteIsSound | src/modules/pricing/application/create-quote.use-case.ts:37-63 | every quote that can be created and saved satisfies the table's checks, quotes the exact product at 0.0000161 or 62111.801242236 rounded down, and is worth no more than its source |
| Pricing.QuoteLivesTwentySeconds | src/modules/pricing/domain/quote.ts:86-129 | a saved quote can be accepted, by aggregate and by SQL alike, exactly until 20 seconds after its creation, and only once |
| Pricing.AcceptanceAgrees | src/modules/pricing/infrastructure/prisma-quote.repository.ts:57-101 | on the row it was loaded from, the in-memory acceptance and the conditional UPDATE decide alike and give the same row |
| Pricing.Quote.Accept | src/modules/pricing/domain/quote.ts:161-186 | accepts exactly while the shown status is ACTIVE; says already accepted exactly if it is, expired exactly past the expiry; refusals change nothing |
| Wallets.WalletRepository.ReserveFunds | src/modules/wallet/infrastructure/prisma-wallet.repository.ts:81-96 | moves available to reserved under its guard, or changes nothing and says why |
| Wallets.WalletRepository.ReleaseFunds | src/modules/wallet/infrastructure/prisma-wallet.repository.ts:98-116 | moves reserved back to available under its guard, or changes nothing and says why |
| Wallets.WalletRepository.CommitReservation | src/modules/wallet/infrastructure/prisma-wallet.repository.ts:118-136 | takes reserved out of the balance under its guard, or changes nothing and says why |
| Wallets.WalletRepository.CreditFunds | src/modules/wallet/infrastructure/prisma-wallet.repository.ts:138-152 | adds to balance and available, or changes nothing when the wallet is missing or the column too small |
| Wallets.WalletRepository.CreateRowIfMissing | src/modules/wallet/infrastructure/prisma-wallet.repository.ts:59-79 | adds an empty wallet unless there is one |
| Wallets.WalletAccount.Open | src/modules/wallet/domain/wallet-account.ts:48-66 | everything is available; refused exactly for a balance of another asset or one that 40-digit addition does not keep |
| Wallets.WalletAccount.AssertInvariant | src/modules/wallet/domain/wallet-account.ts:91-108 | throws exactly when the 40-digit sum of available and reserved is not the balance |
| Wallets.WalletAccount.Reserve | src/modules/wallet/domain/wallet-account.ts:119-132 | new fields and thrown error, including what a late throw leaves assigned |
| Wallets.WalletAccount.Release | src/modules/wallet/domain/wallet-account.ts:135-145 | new fields and thrown error |
| Wallets.WalletAccount.CommitReservation | src/modules/wallet/domain/wallet-account.ts:152-162 | new fields and thrown error |
| Wallets.WalletAccount.Credit | src/modules/wallet/domain/wallet-account.ts:165-170 | new fields and thrown error |
| Wallets.SqlRefinesAggregate | src/modules/wallet/infrastructure/prisma-wallet.repository.ts:81-152 | on every stored row, an UPDATE succeeds if and only if the aggregate's method does not throw and the new balance fits its column, and both give the same three amounts |
| Wallets.RunsAgree | src/modules/wallet/domain/wallet-account.ts:119-170 | any sequence of the four operations gives the same wallet through SQL and through the aggregate |
| Wallets.WonCallsAccountForTheRow | src/modules/wallet/infrastructure/prisma-wallet.repository.ts:81-152 | the winning calls of any sequence account for every amount; winning reservations never total more than the available funds supplied |
| Conversions.Conversion.CreateFor | src/modules/conversion/domain/conversion.ts:71-103 | a CREATED conversion of just these terms, refused exactly for a zero amount or equal assets |
| Conversions.Conversion.ReserveFunds | src/modules/conversion/domain/conversion.ts:141-146 | CREATED to FUNDS_RESERVED only; else throws and changes nothing |
| Conversions.Conversion.BindEvent | src/modules/conversion/domain/conversion.ts:149-162 | binds once, refuses another event |
| Conversions.Conversion.RequestExecution | src/modules/conversion/domain/conversion.ts:165-183 | FUNDS_RESERVED to EXECUTION_REQUESTED for its own event only |
| Conversions.Conversion.ApplyExecutionResult | src/modules/conversion/domain/conversion.ts:189-240 | status by status: fields and times of each result, which duplicates do nothing, which results conflict and which come too early |
| Conversions.ResultKeepsLifecycle | prisma/migrations/20260806072000_harden_persistence_invariants/migration.sql:54-86 | every result keeps the lifecycle check and the identity, never lowers the rank, and never changes a COMPLETED or FAILED row |
| Outcomes.SequenceIsItsVerdict | src/modules/conversion/domain/conversion.ts:189-240 | for every requested conversion, any sequence of results, throwing calls rolled back, leaves the database of the first SUCCESS or FAILURE that the wallets can carry out |
| Outcomes.ThrowsIff | src/modules/conversion/domain/conversion.ts:189-240 | a call of the sequence throws if and only if an earlier decisive result differs from it or, without one, the wallets cannot carry it out |
| Outcomes.PromisesHoldIff | src/modules/conversion/domain/conversion.ts:189-240 | that the first decisive result alone decides, and that only disagreement throws, each hold of all sequences if and only if the wallets can carry out both results |
| Outcomes.DecisiveIsFinal | src/modules/conversion/application/process-conversion-execution.use-case.ts:206-252 | after a decisive result that was carried out, the same one changes nothing and every other throws |
| Outcomes.UnknownOnlyParks | src/modules/conversion/domain/conversion.ts:189-240 | UNKNOWN moves no funds, and a later result throws exactly if the wallets cannot carry it out, else gives what it would have given at once |
| Tables.OwnPayloadMatches | src/modules/conversion/application/process-conversion-execution.use-case.ts:279-309 | the payload accept writes passes the worker's check |
| Tables.MatchingPayloadsAreOneCommand | src/modules/conversion/infrastructure/fake-exchange.adapter.ts:131-155 | payloads that pass the worker's check for one conversion are one command to the exchange, even if spelled differently |
| Tables.CheckedPayloadIsPlaced | src/modules/conversion/infrastructure/fake-exchange.adapter.ts:44-64 | a checked payload is always placed; the first insert fixes command and outcome, later ones change nothing |
| Repositories.TakeOldest | src/modules/conversion/infrastructure/prisma-outbox.repository.ts:33-40 | the oldest rows, oldest first, as many as the limit allows and none missed |
| Repositories.QuoteRepository.Save | src/modules/pricing/infrastructure/prisma-quote.repository.ts:24-47 | upsert: a new row as it is, of an existing one only status and acceptance time, unless the table's columns or checks refuse the row |
| Repositories.QuoteRepository.SaveAcceptedQuote | src/modules/pricing/infrastructure/prisma-quote.repository.ts:57-101 | misuse, conflict or the persisted row; nothing but a won update changes the table |
| Repositories.ConversionRepository.Save | src/modules/conversion/infrastructure/prisma-conversion.repository.ts:39-65 | upsert of lifecycle columns; a second conversion of a quote is refused, and so is a row that breaks the table's checks, and nothing else |
| Repositories.ConversionRepository.MarkExecutionRequestedIfFundsReserved | src/modules/conversion/infrastructure/prisma-conversion.repository.ts:75-104 | advances only FUNDS_RESERVED bound to that event, and returns the row as it is then |
| Repositories.OutboxRepository.Enqueue | src/modules/conversion/infrastructure/prisma-outbox.repository.ts:20-31 | inserts unless the id is taken |
| Repositories.OutboxRepository.FindUnpublished | src/modules/conversion/infrastructure/prisma-outbox.repository.ts:33-40 | only unpublished rows, by creation time ascending and at most the limit; a row is left out only if the batch is full of rows no younger than it |
| Repositories.OutboxRepository.MarkPublished | src/modules/conversion/infrastructure/prisma-outbox.repository.ts:42-47 | a row keeps its first publication time |
| Repositories.IdempotencyRepository.TryBegin | src/modules/conversion/infrastructure/prisma-idempotency.repository.ts:46-54 | claims a free key, and leaves a taken one as it is |
| Repositories.IdempotencyRepository.Complete | src/modules/conversion/infrastructure/prisma-idempotency.repository.ts:56-72 | fills a claimed record, or fails without change |
| Repositories.IdempotencyRepository.DeleteExpired | src/modules/conversion/infrastructure/prisma-idempotency.repository.ts:74-88 | every deleted record was older than the cutoff and everything younger stays; fewer than the limit are deleted only if none older is left; no kept record is older than a deleted one |
| Repositories.ProcessedMessageRepository.TryRecord | src/modules/conversion/infrastructure/prisma-processed-message.repository.ts:27-39 | true for the one caller that inserts; an existing marker stays |
| Repositories.FakeExchange.SetMode | src/modules/conversion/infrastructure/fake-exchange.adapter.ts:36-38 | changes the answer to new orders that have no mode of their own, and no other |
| Repositories.FakeExchange.SetModeForClientOrder | src/modules/conversion/infrastructure/fake-exchange.adapter.ts:40-42 | changes the answer to that one order |
| Repositories.FakeExchange.Execute | src/modules/conversion/infrastructure/fake-exchange.adapter.ts:44-94 | insert if absent, read back, refuse another command; returns the persisted result |
| AcceptProof.AcceptCommitsAllOrNothing | src/modules/conversion/application/accept-quote.use-case.ts:114-262 | a claimed request commits, with all its rows at once, if and only if the quote was and is active, unexpired and covered; else nothing changed and the error names the first check that failed |
| UseCases.UnitOfWork.Rollback | src/modules/conversion/infrastructure/prisma-unit-of-work.ts:15-27 | every table of the transaction is as before |
| UseCases.UnitOfWork.Execute | src/modules/conversion/application/accept-quote.use-case.ts:82-280 | the transaction's database and answer; a request that finds its key in progress looks until that changes or time is up, and is answered with the stored body of a record of its own request that finished in time, else told that it is in progress |
| UseCases.UnitOfWork.AcceptQuote | src/modules/conversion/application/accept-quote.use-case.ts:114-262 | the statements in the source's order, aborts rolled back, give exactly the specified database and answer; what a stored key answers is spelled out |
| UseCases.UnitOfWork.AcceptClaimed | src/modules/conversion/application/accept-quote.use-case.ts:150-261 | the same for the part after the claim; which abort gives which error, from the quote and the wallet themselves |
| UseCases.WaitForIdempotentCompletion | src/modules/conversion/application/accept-quote.use-case.ts:286-320 | the first look that is late or finds the record no longer in progress decides; if it is in time and the record is a finished one of the same request, exactly its stored body is replayed, else nothing; the looks are bounded by the wait |
| UseCases.UnitOfWork.ProcessMessage | src/modules/conversion/application/process-conversion-execution.use-case.ts:61-197 | the whole handler on mutable repositories is the run of the step machine that the protocol interleaves |
| UseCases.UnitOfWork.SettleResultOf | src/modules/conversion/application/process-conversion-execution.use-case.ts:136-162 | the settlement transaction: claim, fresh read, outcome, or a rollback of everything |
| UseCases.UnitOfWork.MoveWallets | src/modules/conversion/application/process-conversion-execution.use-case.ts:206-252 | commit and credit, or release, or nothing, as outcome and status ask, error by error |
| UseCases.UnitOfWork.ApplyResultTo | src/modules/conversion/application/process-conversion-execution.use-case.ts:206-277 | wallet movements, target wallet, aggregate and saved row are those of the specification, error by error |
| Messaging.Channel.Publish | src/modules/conversion/infrastructure/messaging/rabbitmq.connection.ts:338-356 | resolves only with a confirmation; an unconfirmed copy may have arrived |
| Messaging.Channel.HandleConsumerFailure | src/modules/conversion/infrastructure/messaging/rabbitmq.connection.ts:274-336 | under a header that reads as count n, a confirmed failure leaves one more copy counted n + 1 in the main queue if n is below the limit, else one more dead letter counted n, and acks; unconfirmed it nacks; exactly what is then in both queues |
| Messaging.Channel.HandleDelivery | src/modules/conversion/infrastructure/messaging/rabbitmq.connection.ts:251-272 | a resolved handler acks; a rejected one, or an ack that throws, takes the failure path, with the same count read from the header; the payload of a rejected delivery is queued, dead-lettered or still unacked |
| Messaging.StrangeHeadersCountAsNone | src/modules/conversion/infrastructure/messaging/rabbitmq.connection.ts:385-388 | a header that is missing, no number, negative or unsafe counts as zero |
| Messaging.HeadersLeadToTheDeadLetters | src/modules/conversion/infrastructure/messaging/rabbitmq.connection.ts:274-336 | with each copy's own count read back from its header, a message counted n is queued once more after each failure and dead-lettered by the (limit - n + 1)-th; limits are safe integers, which the configuration checks at 457-463 |
| Messaging.HeaderlessMessages | src/modules/conversion/infrastructure/messaging/rabbitmq.connection.ts:274-336 | a message without a header is a dead letter after exactly limit + 1 failures |
| Messaging.FailureIsProtocol | src/modules/conversion/infrastructure/messaging/rabbitmq.connection.ts:274-336 | the failure path is what the protocol's republish, ack and nack steps do |
| Messaging.OutboxPublisher.PublishBatch | src/modules/conversion/infrastructure/messaging/outbox-publisher.service.ts:63-110 | returning n, exactly the first n rows of the batch are marked, each after its confirmed publish, and nothing is attempted past the first failure; the batch is the oldest unpublished rows, by creation time ascending, as many as its size allows |
| Messaging.OutboxPublisher.PublishEach | src/modules/conversion/infrastructure/messaging/outbox-publisher.service.ts:71-105 | the loop with its early exits |
| Publishing.BatchIsProtocolRun | src/modules/conversion/infrastructure/messaging/outbox-publisher.service.ts:71-94 | a published batch is a run of the protocol's publish and mark steps, in order |
| Publishing.AnyBatchIsProtocolRun | src/modules/conversion/infrastructure/messaging/outbox-publisher.service.ts:63-110 | so is a batch with an early exit, whether the last copy did not arrive, arrived unconfirmed, or could not be marked |
| Publishing.BatchShrinks | src/modules/conversion/infrastructure/messaging/outbox-publisher.service.ts:63-110 | a full batch takes min(batch size, pending) rows off the unpublished ones |
| Publishing.OutboxDrains | src/modules/conversion/infrastructure/messaging/outbox-publisher.service.ts:63-110 | with a healthy broker and no new accepts, k rows are drained after ceil(k / batchSize) calls and not before |
| Protocol.EnvironmentSteps | src/modules/conversion/infrastructure/prisma-idempotency.repository.ts:74-88 | an aborted transaction leaves nothing, cleanup forgets records and a lost marker its event, and nothing else changes |
| Protocol.OutsideSteps | src/modules/conversion/infrastructure/fake-exchange.adapter.ts:36-42 | a change of mode changes the answers to just those orders; an injected message is one more copy |
| Protocol.DeliverySteps | src/modules/conversion/infrastructure/messaging/rabbitmq.connection.ts:251-272 | one copy leaves the queue for a free worker, a lost channel returns it once while the handler works on, and a failed interaction ends the handler |
| Protocol.LeavingSteps | src/modules/conversion/infrastructure/messaging/rabbitmq.connection.ts:325-336 | crash and nack end a delivery and return its copy unless the broker has it back; an ack ends it for good, only after the handler resolved or its copy was confirmed |
| DatabaseProof.AcceptKeepsInvariant | src/modules/conversion/application/accept-quote.use-case.ts:114-262 | accepting, committed or aborted, keeps ledger and table invariants and moves the database only forwards |
| WorkerProof.SettleEffect | src/modules/conversion/application/process-conversion-execution.use-case.ts:137-162 | a settlement finds the event claimed, or only adds the marker, or moves everything at once, or is refused for lack of column room; never a conflict |
| WorkerProof.HandlerKeepsInvariant | src/modules/conversion/application/process-conversion-execution.use-case.ts:61-197 | any step of any handler on any message keeps the invariant, moves only forwards and leaves the worker knowing true things |
| WorkerProof.ReadBackSucceeds | src/modules/conversion/infrastructure/fake-exchange.adapter.ts:65-74 | reading an order back never finds another command |
| Invariants.WorkerKnowledgeIsStable | src/modules/conversion/application/process-conversion-execution.use-case.ts:83-137 | what a worker has checked stays true however the rest of the system moves between its steps |
| StepProof.StepKeepsInvariant | src/modules/conversion/application/process-conversion-execution.use-case.ts:61-197 | every step of the system keeps the invariant of the whole state |
| StepProof.ReachableInvariant | src/modules/conversion/application/process-conversion-execution.use-case.ts:61-197 | it holds after every finite run |
| Ledger.SettlementRefusedOnlyWithoutRoom | src/modules/wallet/infrastructure/prisma-wallet.repository.ts:98-152 | while a conversion holds funds, the guards of commit, release and credit hold; a settlement is refused if and only if the target has no room, and otherwise moves two wallets and no other |
| Ledger.FullColumnRefuses | prisma/schema.prisma:24-36 | a concrete full target balance refuses a settlement |
| Guarantees.LedgerConservation | src/modules/conversion/application/process-conversion-execution.use-case.ts:206-252 | for every user and asset: reserved is the sum held by unsettled conversions, balance is deposits plus credited targets minus committed sources, available = balance - reserved >= 0 |
| Guarantees.DepositsAreCredited | prisma/schema.prisma:24-36 | in every reachable state a deposit is credited and counted if the column has room, else does nothing |
| Guarantees.RunOnlyMovesForward | src/modules/conversion/infrastructure/prisma-conversion.repository.ts:39-104 | over any run no row is lost, identities and payloads are frozen, status ranks never fall, terminal rows and orders are final |
| Guarantees.RowsOnlyAdvance | src/modules/conversion/infrastructure/prisma-conversion.repository.ts:39-104 | the same column by column, for conversions, quotes, outbox rows and orders |
| Guarantees.LifecycleRows | prisma/migrations/20260806072000_harden_persistence_invariants/migration.sql:49-86 | every conversion row ever stored satisfies the table's checks: which columns are set in which status, positive amounts of different assets; never CREATED outside its transaction |
| Settlement.EveryMovementIsExplained | src/modules/conversion/application/process-conversion-execution.use-case.ts:137-162 | funds move only by deposits, by the hold of a new conversion, or in the one step that claims the marker and takes one conversion to COMPLETED or FAILED |
| Settlement.SettlementInFull | src/modules/conversion/application/process-conversion-execution.use-case.ts:136-162 | in every reachable state, the settlement of a requested conversion, column by column: status, time and reason, marker, both wallets, and nothing else; or no room and no change |
| Settlement.SettledExactlyOnce | src/modules/conversion/application/process-conversion-execution.use-case.ts:68-162 | in every run the settlements of a conversion number one if it is COMPLETED or FAILED and none otherwise, even with duplicates, crashes and lost markers |
| Conservation.NoRunCreatesValue | src/modules/pricing/infrastructure/fake-pricing.provider.ts:20-23 | without deposits, USDT balance plus 62111.801242236 times BTC balance never increases, over any run |
| Conservation.HoldingsAreFunded | src/modules/pricing/infrastructure/fake-pricing.provider.ts:20-23 | no user ever holds more value than was deposited for them |
| Delivery.NoEventIsLost | src/modules/conversion/infrastructure/messaging/rabbitmq.connection.ts:251-336 | the event of an unsettled conversion is unpublished, queued, dead-lettered or with a worker the broker still waits for |
| Delivery.ForeignMessagesAreInert | src/modules/conversion/application/process-conversion-execution.use-case.ts:83-97 | a message that disagrees with the stored conversion changes nothing, except that it may advance a FUNDS_RESERVED conversion bound to its event id |
| Retries.RetriesAreBounded | src/modules/conversion/infrastructure/messaging/rabbitmq.connection.ts:291-323 | after every run, a copy in the main queue or with a worker has at most the maximal retry count or is an injected copy as it came, and a dead letter has exactly that count or was injected with a higher one |
| Retries.OwnRetriesAreBounded | src/modules/conversion/infrastructure/messaging/rabbitmq.connection.ts:385-388 | where foreign producers respect the limit, so does every copy |
| Budgets.FailuresArePaid | src/modules/conversion/infrastructure/messaging/rabbitmq.connection.ts:274-336 | from every state and over every interleaving: the failed handler runs on a payload never exceed the sum of maxRetries - count + 1 over its copies, plus what each fault or new copy adds |
| Budgets.FailedRunsCount | src/modules/conversion/infrastructure/messaging/rabbitmq.connection.ts:251-272 | each handler run on the payload that ends in failure counts once, by its own step or by a failed interaction |
| Budgets.FaultsAreFew | src/modules/conversion/infrastructure/messaging/rabbitmq.connection.ts:274-336 | only a new copy, an unconfirmed republication, a lost channel or a crash before the ack counts as a fault, and none adds more than a new copy's budget |
| Budgets.FailuresOfOneMessage | src/modules/conversion/infrastructure/messaging/rabbitmq.connection.ts:274-323 | one copy that nobody holds yet, any workers and any other steps: at most maxRetries - count + 1 failed handler runs plus what faults add, and after that many no copy is left in the main queue; nothing is added by a run without new copies of the payload, unconfirmed republications, a lost channel under its holder or a crash between a failure and its ack |
| Retries.FailingMessageLeavesTheQueue | src/modules/conversion/infrastructure/messaging/rabbitmq.connection.ts:274-323 | the bound is met: of attempts one worker makes without interruption, exactly the last makes the message a dead letter, and before it the queue holds the copy one count higher each time |
| Agreement.OutcomesAgree | src/modules/conversion/infrastructure/fake-exchange.adapter.ts:44-94 | exchange order, marker, terminal status and every worker's result of one event agree in every reachable state, whatever modes were set |
| Agreement.ReadsAgree | src/modules/conversion/infrastructure/fake-exchange.adapter.ts:65-74 | any two workers read the same result of an event, at any two times |
| Agreement.ConflictsAreUnreachable | src/modules/conversion/application/process-conversion-execution.use-case.ts:254-263 | no handler fails by a conflicting result, a refused command or a missed wallet guard |
| Agreement.SettlementIsRefusedIff | src/modules/conversion/application/process-conversion-execution.use-case.ts:137-162 | in every reachable state, exactly when a settlement rolls back |
| Agreement.SequencePromisesHoldIff | src/modules/conversion/application/process-conversion-execution.use-case.ts:206-252 | of a requested conversion in a reachable state, both promises about result sequences hold if and only if its target has room |
| Agreement.ADepositCanBlock | prisma/schema.prisma:24-36 | from every reachable state one credit from outside into the target wallet makes the settlement of a conversion refusable |
| Refusal.ARefusedSettlement | src/modules/conversion/application/process-conversion-execution.use-case.ts:137-162 | a run from the empty database, with one deposit per wallet before the quote, ends in the refusal |
| Acceptance.AcceptedQuotesAreConversions | src/modules/conversion/application/accept-quote.use-case.ts:150-261 | ACCEPTED quotes and conversions are in one-to-one correspondence with equal terms |
| Acceptance.ConversionsAreEvents | src/modules/conversion/application/accept-quote.use-case.ts:150-261 | conversions and outbox rows are in one-to-one correspondence, row id equal to bound event id, payload spelling the terms |
| Acceptance.AcceptIsAllOrNothing | src/modules/conversion/application/accept-quote.use-case.ts:150-261 | an accept whose quote was read earlier commits if and only if it is still acceptable, else the database is untouched |
| Acceptance.OpenRequestsAreAnswered | src/modules/conversion/application/accept-quote.use-case.ts:150-219 | in every reachable state, one cause for each rejection of an open request: not found, already accepted, expired, conflict, insufficient funds, each if and only if; never an internal error |
| Acceptance.CreatedRows | src/modules/conversion/application/accept-quote.use-case.ts:208-261 | what a commit writes column by column: 201 body, payload, conversion, record, accepted quote and reserved funds, with the codes "USDT" and "BTC" and the quote's own amounts |
| Acceptance.RecordsAreComplete | src/modules/conversion/infrastructure/prisma-idempotency.repository.ts:46-88 | no stored record is ever unfinished, so no later request is told it is in progress |
| Acceptance.StoredKeysAnswer | src/modules/conversion/application/accept-quote.use-case.ts:114-148 | in every reachable state, a request whose key is stored changes nothing, whatever quote it names: another quote's fingerprint is refused, its own is answered with the conversion's body |
| Acceptance.RetriesReplay | src/modules/conversion/application/accept-quote.use-case.ts:114-148 | at any later time of any run, repeating a request gives the first body while its record is kept; the key with another quote, or after deletion, changes nothing |
| Acceptance.OpenRetriesChangeNothing | src/modules/conversion/application/accept-quote.use-case.ts:150-206 | neither does a request that had read the quote before it was taken |
| Origins.RequestAdds | src/modules/pricing/application/create-quote.use-case.ts:37-63 | a request step stores the requester's own quote under a fresh id if and only if it can be created and saved, and else changes nothing |
| Origins.QuotesAreRequested | src/modules/pricing/application/create-quote.use-case.ts:40-49 | in every run, every stored quote comes from the step that first requested its id: its user, the amount its text reads as, the exact product rounded down, 20 seconds from its time |
| Origins.OpenRequestsAreBegun | src/modules/conversion/application/accept-quote.use-case.ts:150-163 | every open request comes from the step that began it, with its key, quote and time, and has seen the quote as it was then |
| Origins.ConversionsAreAccepted | src/modules/conversion/application/accept-quote.use-case.ts:150-261 | in every run, every conversion comes from its user's request for a quote of just its source amount, then a request to accept that quote within its 20 seconds, then the commit that bound its event |
| Solo.OwnMessageSettles | src/modules/conversion/application/process-conversion-execution.use-case.ts:61-197 | an uninterrupted handling leaves the conversion terminal with the exchange's first outcome and its marker, unless the target has no room |
| Solo.MessagesAreAnswered | src/modules/conversion/application/process-conversion-execution.use-case.ts:61-135 | any message in any state: which check refuses it and with which error, the advance it may bring about, the marker of an already settled conversion; only a genuine message of a requested conversion reaches the exchange |
| Solo.RepeatingIsHarmless | src/modules/conversion/application/process-conversion-execution.use-case.ts:99-118 | handling the message again changes nothing, and after a lost marker restores exactly that marker |
| Progress.UninterruptedHandling | src/modules/conversion/application/process-conversion-execution.use-case.ts:61-197 | the protocol's handler steps, uninterrupted, are one run of the handler |
| Progress.DeliverySettles | src/modules/conversion/infrastructure/messaging/execution-consumer.service.ts:39-51 | from every reachable state, a free worker that takes a conversion's queued message settles it, unless the target has no room |
| Progress.UnsettledCanSettle | src/modules/conversion/infrastructure/messaging/rabbitmq.connection.ts:251-336 | from every reachable state, every unsettled conversion with room has a continuation by the system's own steps (no foreign message, no second publication of a marked row) that settles it, unless only dead letters of its message are left |
| DeadEnds.DeadLettersStayUnsettled | src/modules/conversion/infrastructure/messaging/rabbitmq.connection.ts:302-323 | where the event is marked and no message of the conversion is queued or in a worker's hands, it stays unsettled whatever the system does by its own steps |

## Left out

- Moneys.Of: decimal.js also reads hexadecimal, octal and binary notation and digit separators; here they are not decimal. Decimal notation with exponents is read, without decimal.js's limits on the exponent.
- Moneys.Numeric: a text with more than 18 significant decimal places is refused, where PostgreSQL rounds it; the payload check comes first and lets no such text through.
- UseCases.UnitOfWork.AcceptQuote: a single caller; that another transaction may change the quote between its reading and its update is in the protocol's two accept steps.
- UseCases.UnitOfWork.ProcessMessage: a single caller; the interleavings of its statements with everything else are in the protocol's handler steps.
- Messaging.Channel.Publish: backpressure, drain and timeout are one of three ends: the copy arrives confirmed, arrives unconfirmed, or does not arrive.
- Repositories.OutboxRepository.FindUnpublished: carries out the query's ordering by repeated selection; rows with equal creation times may come in any order.
- The request checks on key and quote id texts (length, characters), which answer 400 before anything else happens.
- HTTP controllers, pipes, filters, metrics, logging, health checks, seeding scripts and configuration parsing.
- The scope column of idempotency records: the application uses one scope.
- The timers around publishing and cleanup, and the running flag of the cleanup service.
- RabbitMQ connecting, reconnecting, restoring consumers, draining and timeouts: a publication may fail with or without its copy arriving, and an unacked copy may come back.
- The order of messages in a queue, and their correlation, message id and error headers.
- PostgreSQL locking, deadlocks and isolation: a statement is atomic, a transaction all-or-nothing, a second claim of an open key waits.
- SHA-256, UUIDs, JSON and ISO date texts; a timestamp is an integer, or unreadable.
- Reading conversions back over HTTP, and an operator's resolution of REQUIRES_RECONCILIATION, which has no caller; its transitions are in the outcome-sequence theorem.
