# Vadum, modelled and proved in Dafny

Vadum carries a payment across an air gap. A merchant shows an intent as a QR code; a payer, offline,
signs one canonical transaction against a slot of its durable-nonce pool and shows an AUTH; the merchant
rebuilds the same transaction, verifies the signature, queues the payment and submits it when it is online;
the chain settles at most one payment per nonce value; the merchant may sign a nonce return so that the
payer can use the slot again. This project models those parts and proves what they promise together.

`dafny verify dfyconfig.toml` checks everything.

## How it is laid out

| files | what they hold |
|---|---|
| `Common`, `Types` | results and error codes, bytes, 32-byte keys, little-endian integers; the exchanged entities |
| `Base45`, `FixtureWire`, `Codec`, `CodecLaws`, `WireLayout` | base45 of RFC 9285 section 4 and its two implementations; the codec writing buffers at offsets; the independent reference; round trips and equivalence |
| `Canonical`, `Execution`, `Validate`, `Tampering`, `Sign`, `NonceReturn` | the one message both sides build and what the chain makes of it, the whitelist that names a difference, signing and verifying, nonce returns, and the end-to-end agreement |
| `Format` | decimal amounts, printed and parsed |
| `SpendLog`, `PoolModel`, `Pool`, `PoolLaws`, `PoolLedgers` | the allowance, the payer's pool as values, the pool as an object with a ledger it replaces, laws of single operations and what each makes of the ledger, field by field |
| `PoolSpending`, `PoolAttained` | how much a device can sign in any period, that the bound is exact, and what the pruned log knows of the history |
| `PoolWorld`, `PoolSafety`, `PoolRuns`, `PoolHandOuts`, `PoolOutstanding` | the pool against the chain as a state machine; what every run keeps of slots, hand-outs, returns and payments |
| `NonceCheck`, `Submit`, `Settlement` | the pre-check, what one attempt to send is called, and what a settlement makes of the payer's slot |
| `QueueModel`, `Queue`, `QueueLaws`, `QueueDrain` | the merchant's queue as values and as an object, with a store that stores each write some time after it was issued; laws of saving, refusing, expiring, loading and draining |
| `QueueRuns`, `QueueExposure`, `QueueOutcomes` | the queue as a state machine: a drain interleaved with acceptance, lagging writes, crashes and a chain; how the exposure moves, and what every run keeps |
| `PoolCycle` | a run in which everything goes well |
| `PoolFailures`, `QueueFailures` | runs at which a property fails for want of an assumption |

Code that works step by step is a method with loops over an array or an object's fields (`Base45`,
`FixtureBase45`, `Codec`, `Canonical`, `Validate`, `NonceReturn`, `PoolObject`, `QueueObject`), proved equal
to a function, and the theorems are about that function and the runs made of it. Code that is expressions
is functions.

## What is assumed

- Signatures are ideal: a verification succeeds only for a statement the key signed (`Signatures.Verifies`).
- A compiled message is the data it is compiled from, so compilation is injective and has no place for
  `isStatic` or the last valid block height; derived addresses and the message digest of a dedupe key are
  injective. Keys, blockhashes and nonce values are 32 raw bytes.
- Pool operations run one at a time. Each reads the network at moments between its beginning and its end,
  while the chain goes on moving; every answer was true at one of those moments. A store write can succeed,
  fail before storing or fail after storing; the process can die between any two steps; the store itself
  can be lost. Bounds over periods and what the pruned log knows (`PoolSpending`) are for runs in which the
  store is not lost: the log goes with it.
- A nonce account never returns to a value it has held, and only a landed payment or the owner moves it.
- Bounds over periods need one limit and window for the run, and a device clock that brings nothing back: no
  entry dropped at one reservation would count again at a later one (`PoolSpending.NothingComesBack`), which a
  clock that never moves back ensures. That the condition is needed is itself proved. What the pruned log
  knows of the history is stated for the clock that never moves back.
- Merchants may sign anything. A return for a move the account never made *misleads* its slot
  (`PoolWorld.FalseReturn`), and each result says what it leaves of a misled slot; runs of merchants who sign
  only real advances (`PoolWorld.HonestRun`) mislead none.
- For outstanding payments only: payments land while younger than the send window, and an operation is told
  the time at which it begins (`PoolOutstanding.Timely`).
- At most one drain is in flight and nothing expires during it, as in the merchant app, whose screens during a
  drain offer neither (`apps/merchant/src/main.ts:340-342` and `447-449`); acceptance may fall between any two
  of its steps. A queue is loaded before it accepts. The amount queued is the verified amount. Signature lookups are
  truthful, and nothing lands after an attempt has reported that nothing did (`Submit.Truthful`).
- The queue's memory changes when a write is issued, the store when it stores it; a crash loses what is not
  stored. Writes for one key are stored in the order they were issued; nothing is assumed of the order between
  keys except where a result asks for it (`QueueExposure.InOrder`). A write is stored whole.

## What turned out false, and what holds instead

- An encoded intent need not decode to itself: the encoder keeps the low byte of `decimals`
  (`CodecLaws.WideDecimalsAreTruncated`). `CodecLaws.IntentRoundTrip` gives the exact condition: 0 to 255, and
  a cache that knows the mint alike.
- The codec reads the intent's flags into five booleans, so unlike the reference it compares an AUTH's flags
  without the three reserved bits (`CodecLaws.ReservedIntentFlagsAreIgnored`). `CodecLaws.DecoderIsReference`
  states the agreement with that byte reduced modulo 32; below 32 the two are equal outright.
- The theft bound fails for a clock that moves back far enough to bring a dropped entry back:
  `PoolAttained.AClockMovingBackBreaksTheBound`.
- The pruned log need not give the allowance of what was answered: a reservation whose write fails is not
  answered, nothing is signed, and the ledger held counts it (`PoolFailures.AnUnansweredReservationCounts`).
  `PoolSpending.PrunedLogIsHistory` gives the exact condition for every run and every outcome of its writes.
- A slot value can be handed out again without a reconciliation when a merchant signs a false return
  (`PoolFailures.AFalseReturnHandsAValueOutAgain`). `PoolHandOuts.NoValueHandedOutTwice` says that nothing else
  does it, in any run.
- A payment that `expire` returned as voided, or a drain as settled, is not so for good: `expire` does not await
  its writes, and a crash before they are stored brings the entry back, to be submitted by the next drain
  (`QueueFailures.AVoidingCanBeLost`). `QueueOutcomes.FinalSurvivesExactlyWhen` gives the exact condition, its
  write stored; `QueueOutcomes.FinalForGood` holds from then on.
- So a crash can raise the exposure, by exactly what `QueueExposure.ACrashChangesExposureBy` says. It stays within
  the cap when the store gets its writes in the order they were issued
  (`QueueExposure.ExposureNeverExceedsCap`), but not when it keeps the order for each key only
  (`QueueFailures.ReorderedWritesPassTheCap`); `QueueExposure.CapHoldsExactlyWhen` is the exact condition then.
- An unknown slot can be handed out without a create: a close whose write is rejected before storing is
  forgotten by a crash (`PoolFailures.ARejectedCloseIsForgotten`). Once both ledgers hold the slot unknown it is
  safe (`PoolHandOuts.UnknownUntilCreated`), and `PoolHandOuts.UnknownInBothExactlyWhen` says when they do.
- The failure counter need not equal the outcome history: an outcome is saved before the counter is, and a
  crash in between loses the count (`QueueFailures.ACrashCanLoseACount`). `QueueOutcomes.CounterIsHistory`
  gives the exact condition, for whole runs.
- A submission that throws, or a crash before the store has its outcome, leaves its entry `submitting`, which no later
  drain takes up, so a payment that did land may never be marked settled
  (`QueueFailures.ALandedPaymentCanStayUnsettled`, `QueueOutcomes.UnreportedNeverSettles`).
  `QueueOutcomes.SettledIsDelivered` says exactly when the settled total falls short of what was delivered.
- An instruction of the system program other than the advance of a nonce is reported as the wrong kind even
  when both messages hold it (`Validate.DiffersFirstAt`); no canonical message does
  (`Validate.CanonicalDifferenceIsReal`).

## Model

| member | source | states |
|---|---|---|
| Rfc9285.DecodeAfterEncode | packages/wire/src/base45.ts:17-64 | decoding the encoding of any byte string gives it back |
| Rfc9285.EncodeAfterDecode | packages/wire/src/base45.ts:39-64 | every accepted text is the one encoding of what it decodes to |
| Rfc9285.EncodingShape | packages/wire/src/base45.ts:17-33 | an encoding has 3 characters per pair of bytes and 2 for a last one, and never ends in a space |
| Rfc9285.DecodeRejects | packages/wire/src/base45.ts:39-64 | a length that is 1 modulo 3 or any foreign character is rejected, wherever it stands |
| Rfc9285.SymbolIsAlphabet | packages/fixtures/src/base45.ts:4-4 | the symbol of each digit is the character at that place of the RFC 9285 alphabet |
| Base45.ToBase45 | packages/wire/src/base45.ts:17-33 | the shipped loop encodes as RFC 9285 section 4 does |
| Base45.FromBase45 | packages/wire/src/base45.ts:39-64 | the shipped loop, filling a digit array and an output buffer, accepts and decodes exactly as the RFC does |
| FixtureBase45.ToBase45 | packages/fixtures/src/base45.ts:9-20 | the independent encoder gives the same text |
| FixtureBase45.FromBase45 | packages/fixtures/src/base45.ts:27-47 | the independent decoder accepts the same texts with the same bytes |
| Codec.FlagsRoundTrip | packages/wire/src/codec.ts:44-57 | five flags survive their byte |
| Codec.FlagsByteRoundTrip | packages/wire/src/codec.ts:44-57 | a byte survives its five flags up to the three reserved bits |
| Codec.EncodeIntent | packages/wire/src/codec.ts:169-181 | the buffer written at moving offsets is the reference encoding, or the encoder's first error |
| Codec.EncodeStaticIntent | packages/wire/src/codec.ts:206-217 | likewise for a static intent |
| Codec.EncodeAuth | packages/wire/src/codec.ts:240-266 | likewise for an AUTH, with and without nonce and amount |
| Codec.EncodeNonceReturn | packages/wire/src/codec.ts:295-306 | likewise for a nonce return |
| Rfc9285.PublishedAB | packages/wire/test/base45.test.ts:26-38 | RFC 9285's first example encodes and decodes as published |
| Rfc9285.PublishedHello | packages/wire/test/base45.test.ts:26-38 | so does the second encode, with the space it holds |
| Rfc9285.PublishedBase | packages/wire/test/base45.test.ts:26-38 | so does the third |
| Rfc9285.PublishedIetf | packages/wire/test/base45.test.ts:26-38 | and the fourth |
| Rfc9285.PublishedOverflow | packages/wire/test/base45.test.ts:40-44 | the invalid example of section 6 is refused |
| WireLayout.IntentOnTheWire | packages/wire/src/codec.ts:169-181 | every byte of an encoded intent: version 1, type 1, one bit to a flag, keys, amount, decimals, blockhash |
| WireLayout.StaticIntentOnTheWire | packages/wire/src/codec.ts:206-217 | every byte of a static intent, with the amount left to the AUTH |
| WireLayout.AuthOnTheWire | packages/wire/src/codec.ts:240-266 | every byte of an AUTH, with the slot and the amount there exactly when carried |
| WireLayout.NonceReturnOnTheWire | packages/wire/src/codec.ts:295-306 | every byte of a nonce return |
| WireLayout.WhenIntentsAreRefused | packages/wire/src/codec.ts:169-181 | which intents encode, and the exact condition of each refusal |
| WireLayout.WhenStaticIntentsAreRefused | packages/wire/src/codec.ts:206-217 | likewise for a static intent |
| WireLayout.WhenAuthsAreRefused | packages/wire/src/codec.ts:240-266 | likewise for an AUTH and the flags it goes under |
| WireLayout.WhenNonceReturnsAreRefused | packages/wire/src/codec.ts:295-306 | likewise for a nonce return |
| WireLayout.EveryPayloadIsJudged | packages/wire/src/codec.ts:110-162 | any bytes are refused for the first thing wrong in the order of the checks, told from the bytes alone, and decoded when nothing is |
| CodecLaws.IntentRoundTrip | packages/wire/src/codec.ts:169-202 | decode after encode is the intent up to the block height, if and only if its decimals fit a byte and the cache agrees |
| CodecLaws.IntentReencode | packages/wire/src/codec.ts:169-202 | an accepted intent re-encodes to the identical bytes |
| CodecLaws.StaticIntentRoundTrip | packages/wire/src/codec.ts:206-236 | as for intents, both directions, with the same exact condition |
| CodecLaws.StaticIntentReencode | packages/wire/src/codec.ts:206-236 | an accepted static intent re-encodes to the identical bytes |
| CodecLaws.AuthRoundTrip | packages/wire/src/codec.ts:240-289 | an AUTH decodes to itself exactly under the flags it was encoded with |
| CodecLaws.AuthReencode | packages/wire/src/codec.ts:240-289 | an accepted AUTH re-encodes to the identical bytes |
| CodecLaws.NonceReturnRoundTrip | packages/wire/src/codec.ts:295-312 | a nonce return decodes to itself |
| CodecLaws.NonceReturnReencode | packages/wire/src/codec.ts:295-312 | an accepted nonce return re-encodes to the identical bytes |
| CodecLaws.DecoderIsReference | packages/fixtures/src/wire.ts:135-172 | each of the four decoders accepts exactly what the reference accepts and otherwise raises the same first error, for every byte string and mint cache, the reference being given the intent-flags byte modulo 32, so the very same byte below 32 |
| CodecLaws.ReservedIntentFlagsAreIgnored | packages/wire/src/codec.ts:268-275 | from 32 on they differ: an AUTH the codec accepts and the reference refuses |
| CodecLaws.WideDecimalsAreTruncated | packages/wire/src/codec.ts:169-181 | an intent of 256 decimals encodes, and decodes to another intent, of none |
| CodecLaws.HeaderIsReference | packages/wire/src/codec.ts:127-150 | reading a header agrees with the reference's checks up to the length, error by error |
| CodecLaws.PeekIsReference | packages/wire/src/codec.ts:165-167 | peeking at a type agrees with the reference on every byte string |
| Common.U64IsLittleEndian | packages/wire/src/codec.ts:169-181 | amounts travel as eight bytes, the least significant first |
| Canonical.CompileCanonicalTransaction | packages/core/src/canonical.ts:32-74 | the builder as it runs gives the modelled message or error, and the message says exactly what its input asks for |
| Canonical.MessageSaysExactly | packages/core/src/canonical.ts:42-73 | what a built message does, as its programs read it: on the nonce path the payer's account advances first under the payer's authority, then the merchant's token account is created where asked for, idempotently and paid by the fee payer, then exactly the amount at the decimals moves from the payer's account to the merchant's under the payer's authority |
| Canonical.WhenBuildRefuses | packages/core/src/canonical.ts:34-40 | which inputs are refused, and as what |
| Execution.MessageMovesExactly | packages/core/src/canonical.ts:42-73 | run by the token program, a canonical message goes through exactly when the payer signed, the fee payer did where it funds an account, and the money is there; it then moves the amount and no other balance |
| Execution.AcceptedPaysTheMerchant | packages/core/src/canonical.ts:42-73 | whatever AUTH a merchant accepts pays that merchant exactly the amount it expected, once it adds its own signature |
| Canonical.MessageDeterminesInput | packages/core/src/canonical.ts:26-74 | two inputs build one message exactly when they agree on everything but `isStatic` and the block height |
| Validate.ExplainDifference | packages/core/src/validate.ts:167-214 | the loop with its early returns gives the explanation of the first position it does not pass |
| Validate.ComparisonNamesFirstDifference | packages/core/src/validate.ts:182-214 | the position named is the first where the instruction lists differ, or where both hold a system instruction that is no advance of a nonce, and what is said is said of that position; no position means equal lists |
| Validate.CanonicalDifferenceIsReal | packages/core/src/validate.ts:182-214 | against a canonical message the position named is the first where the lists really differ |
| Validate.OutsideMeansSameInstructions | packages/core/src/validate.ts:167-214 | blaming fee payer, header or lifetime means the two lists are identical in program, data and accounts |
| Validate.CanonicalMeansSameEssence | packages/core/src/validate.ts:137-148 | a built message passes exactly when its input says the same as the expected one |
| Validate.TamperedAmountIsNamed | packages/core/src/validate.ts:137-214 | changing only amount or decimals is reported as an amount mismatch |
| Validate.TamperedMerchantIsNamed | packages/core/src/validate.ts:137-214 | changing only the merchant is reported as a destination mismatch |
| Tampering.EveryTamperingIsNamed | packages/core/src/validate.ts:137-214 | one canonical message in the place of another passes exactly when the two say the same, and otherwise is reported as the error for what they differ in: payer, slot, merchant, mint, program, amount, account creation, fee payer or lifetime |
| Tampering.EveryMessageIsJudged | packages/core/src/validate.ts:167-214 | whatever message stands in the place of a canonical one, the error is for what is wrong: not readable, a program the canonical one does not call, the advance not first, or the first instruction too many, missing or different, and how it differs |
| Agreement.LegalPaymentsAreAccepted | packages/core/src/sign.ts:22-71 | encode, base45, decode, sign, encode, base45, decode, verify: every legal payment of either lifetime, static or not, is accepted with the payer's own input up to the block height |
| Agreement.OnlyLegalPaymentsAreAccepted | packages/core/src/sign.ts:22-71 | and nothing else is: whatever goes through from intent to acceptance was legal |
| Agreement.AcceptanceMeansSigned | packages/core/src/sign.ts:36-71 | acceptance of any AUTH means its payer, who is not the fee payer, signed this merchant, mint, slot, value and amount, and the amount is the expected one |
| Agreement.WhatIsSignedVerifies | packages/core/src/sign.ts:22-71 | whatever a payer's device signs, a merchant with that intent accepts exactly when it expects that amount, or none where the intent fixes it |
| Sign.WhatIsSigned | packages/core/src/sign.ts:22-33 | what a payer's device signs, exactly: a message it can build, with its own key, for another fee payer, and nothing besides |
| Sign.WhySigningIsRefused | packages/core/src/sign.ts:22-33 | the first thing wrong is what signing is refused for |
| Sign.WhatIsAccepted | packages/core/src/sign.ts:56-71 | what a merchant accepts, exactly, and the first thing wrong that it refuses for |
| Sign.WhichAmount | packages/core/src/sign.ts:36-53 | the amount settled on: the intent's, or where that is open the AUTH's, as expected |
| NonceReturn.NonceReturnSigningBytes | packages/core/src/nonce-return.ts:21-34 | the 118-byte buffer, filled field by field, is the reference concatenation of the five fields, or an index out of range |
| NonceReturn.StatementInjective | packages/core/src/nonce-return.ts:21-34 | two statements share their bytes only if they are equal |
| NonceReturn.StatementLayout | packages/core/src/nonce-return.ts:23-36 | the signed bytes, place by place: the tag in ASCII, payer, slot, prior value, new value |
| NonceReturn.ReturnMeansSigned | packages/core/src/nonce-return.ts:44-71 | a return verifies only if the recorded merchant signed exactly this payer, slot, prior value and new value, and the value changes |
| NonceReturn.GenuineReturnIsAccepted | packages/core/src/nonce-return.ts:44-71 | a merchant's own return is accepted exactly when its value is new |
| NonceReturn.WhenAReturnVerifies | packages/core/src/nonce-return.ts:44-71 | a return verifies exactly when the recorded merchant signed these bytes and the value changes, and is refused as untrusted whatever is wrong |
| Format.ParseAfterFormat | apps/shared/src/format.ts:5-24 | parsing what was printed gives the amount back, for every decimals and every amount up to the 64-bit maximum; a negative or larger amount prints to text that is refused |
| Format.FormatAfterParse | apps/shared/src/format.ts:5-24 | printing what was parsed is canonical, parses to the same value, and is the same text exactly when that was canonical |
| Format.ParseIsExact | apps/shared/src/format.ts:17-24 | a text is accepted exactly when it is digits with at most one dot, no finer than the decimals and in range, and is worth exactly what it denotes, never rounded |
| SpendLog.CountedTwice | packages/client/src/pool.ts:144-145 | pruning at one time loses nothing a later time would count |
| SpendLog.SpentIsAntitone | packages/client/src/pool.ts:144-145 | the same log counts for no more at a later time |
| SpendLog.RefillIsWhenAllowanceGrows | packages/client/src/pool.ts:185-190 | until `nextRefillAt` what is spent stays as it is, and then it is less; there is none exactly when nothing is spent |
| SpendLog.OneWindow | apps/shared/src/limits.ts:24-33 | if every entry fitted when it was made, no window, wherever it starts, totals more than the limit |
| SpendLog.PeriodBound | apps/shared/src/limits.ts:32-33 | and a period totals at most the theft exposure |
| PoolLaws.ReservationIsRecorded | packages/client/src/pool.ts:256-276 | a reservation answers an unspent slot by its index and value and spends it, on record with its value, merchant and time, leaves every other slot alone, and takes exactly its amount from the allowance |
| PoolLaws.WhenReservationIsRefused | packages/client/src/pool.ts:256-271 | a reservation is refused exactly when its amount is not positive or does not fit with what is inside the window, or when no unspent slot holds a value |
| PoolLedgers.WhatAnOperationWrites | packages/client/src/pool.ts:192-202 | what an operation decides is in memory from then on, in the store unless the write was rejected before storing, and answered exactly when the write resolved; a refusal writes nothing |
| PoolLedgers.CreationMakesEverySlot | packages/client/src/pool.ts:220-253 | a new pool has one unspent slot for each index, each on its own account |
| PoolLedgers.WhenCreationFails | packages/client/src/pool.ts:220-251 | creation goes through exactly for a size from 1 to 256, the payer's own key, the money, and a setup that landed, and each other case has its error |
| PoolLedgers.RefreshReadsEverySlot | packages/client/src/pool.ts:298-303 | a refresh gives every slot the value its account is read to hold, and changes nothing else |
| PoolLedgers.RecoveryFindsEveryAccount | packages/client/src/pool.ts:305-320 | recovery has a slot at an index exactly when the probe reached it and saw an account of the payer's, unknown and with the value seen, in index order, the size one past the last |
| PoolLedgers.WhenRecoveryFails | packages/client/src/pool.ts:305-318 | recovery fails exactly where an account cannot be asked about, where the probe is to go past index 255, and where it finds no account of the payer's, each as its own error |
| PoolLedgers.WhenAReturnIsAccepted | packages/client/src/pool.ts:283-296 | a return is accepted exactly when its slot is on record as spent and the recorded merchant signed that it moved on from the recorded value |
| PoolLedgers.ReturnRearmsItsSlot | packages/client/src/pool.ts:283-296 | and gives that slot the new value, unspent, with no record and no mark, and no other slot anything |
| PoolLedgers.CloseWithdrawsEverything | packages/client/src/pool.ts:336-343 | `close` withdraws once from each account that holds lamports, in slot order, all that it holds |
| PoolLedgers.CloseForgetsEverySlot | packages/client/src/pool.ts:343-346 | and leaves every slot on record, unknown and empty, answering the sum withdrawn |
| PoolLedgers.WhenCloseFails | packages/client/src/pool.ts:322-343 | `close` needs the payer's own key, the money for its fee, an answer about every account and, where there is anything to withdraw, a withdrawal that landed; each failure has its error |
| PoolModel.ApplyKeepsValid | packages/client/src/pool.ts:220-377 | no operation ever writes two slots with one index |
| PoolObject.Pool.constructor | packages/client/src/pool.ts:198-202 | a new pool holds nothing in memory, whatever its store holds |
| PoolObject.Pool.LoadLedger | packages/client/src/pool.ts:198-202 | the ledger in memory, else the store's, else a missing ledger |
| PoolObject.Pool.ReserveSlot | packages/client/src/pool.ts:256-276 | the object's state and answer are the modelled reservation's, for every outcome of the write |
| PoolObject.Pool.Allowance | packages/client/src/pool.ts:278-281 | the allowance of the ledger held or stored, changing nothing |
| PoolObject.Pool.ApplyNonceReturn | packages/client/src/pool.ts:283-296 | likewise for a nonce return |
| PoolObject.Pool.Refresh | packages/client/src/pool.ts:298-303 | likewise for the refresh loop |
| PoolObject.Pool.Recover | packages/client/src/pool.ts:305-320 | likewise for the probing loop, which `PoolLedgers.RecoveryFindsEveryAccount` says finds every account |
| PoolObject.Pool.Create | packages/client/src/pool.ts:220-254 | likewise for creation, ending in a refresh |
| PoolObject.Pool.Close | packages/client/src/pool.ts:322-347 | likewise for the withdrawing loop, with the list withdrawn and the sum refunded |
| PoolObject.Pool.Reconcile | packages/client/src/pool.ts:349-377 | likewise for the loop that replaces one slot of the ledger at a time |
| PoolLaws.PickOrder | packages/client/src/pool.ts:264-270 | a released slot is handed out only when no unreleased one is usable, and then the one released first |
| PoolLaws.ReconcilePartition | packages/client/src/pool.ts:349-377 | the three answers are exactly the slots spent at entry, each once and each left as its answer names, field by field: value, state, no record, and the time of release on a released slot alone; every other slot untouched |
| PoolLaws.ReleasedGoesLast | packages/client/src/pool.ts:264-370 | after a reconcile, a slot it released is handed out only when no unspent slot that holds a value is unreleased, and only if released first |
| PoolLaws.WhenReconcileFails | packages/client/src/pool.ts:349-358 | a reconcile fails exactly when the account of a spent slot cannot be asked about |
| PoolLaws.ReconcileTwice | packages/client/src/pool.ts:349-377 | reconciling again at once changes nothing and reports only what is pending |
| PoolLaws.RefreshAndReconcileCommute | packages/client/src/pool.ts:298-377 | refresh and reconcile on the same answers commute, so a refresh touches neither states, records nor release marks |
| PoolSpending.AllowanceIsKept | packages/client/src/pool.ts:183-377 | no operation but a reservation changes the allowance, at any time asked about |
| PoolSpending.OnlyReservationsTouchTheLog | packages/client/src/pool.ts:183-377 | every ledger any other operation leaves holds the log it found |
| PoolSpending.LogsStaySmall | packages/client/src/pool.ts:256-276 | under any clock, in every run, the stored log totals at most the limit |
| PoolSpending.SpendingIsBounded | apps/shared/src/limits.ts:24-33 | in every run whose clock brings no dropped entry back, crashes, failed writes and reloads included, what is signed in any period totals at most the theft exposure |
| PoolSpending.ForwardClockBringsNothingBack | packages/client/src/pool.ts:138-145 | a clock that never moves back brings nothing back, whatever was reserved when |
| PoolSpending.ForwardSpendingIsBounded | apps/shared/src/limits.ts:24-33 | in particular in every run whose clock never moves back |
| PoolSpending.PrunedLogIsHistory | packages/client/src/pool.ts:185-276 | with a forward clock and whatever became of the writes, the pruned log counts exactly what an unpruned ledger written the same way would, and gives the allowance of everything answered if and only if no reservation left unanswered by a failed write still counts in the ledger held |
| PoolSpending.ResolvedLogIsHistory | packages/client/src/pool.ts:185-276 | when every reservation's write resolves, the allowance is the one computed from every reservation ever made |
| PoolFailures.AnUnansweredReservationCounts | packages/client/src/pool.ts:192-276 | a reservation whose write fails, before or after storing, uses up the allowance of a device that signed nothing |
| PoolAttained.TheBoundIsAttained | apps/shared/src/limits.ts:32-33 | for every limit, window and period some run of the pool signs exactly the theft exposure |
| PoolAttained.AClockMovingBackBreaksTheBound | packages/client/src/pool.ts:138-145 | with a clock that moves back by a window the bound fails: from an empty device, a run with three reservations that signs one unit less than twice the limit at one instant |
| PoolRuns.StepKeepsInv | packages/client/src/pool.ts:220-377 | every step of pool, chain, crash or loss, false returns included, keeps slot safety for every slot that was not misled |
| PoolRuns.RunsKeepInv | packages/client/src/pool.ts:220-377 | and so it holds in every run |
| PoolHandOuts.NoValueHandedOutTwice | packages/client/src/pool.ts:256-377 | in every run a slot value is handed out again only after a reconcile, a send window after the first time, released that slot, or a return for the slot that was no real advance was applied at some point before the second hand-out, the first one included: a slot once misled is so for good |
| PoolFailures.AFalseReturnHandsAValueOutAgain | packages/client/src/pool.ts:283-303 | one false return and a refresh do it: a run with two payments against the one value the account ever held, and no reconcile |
| PoolHandOuts.HonestRunsMisleadNobody | packages/core/src/nonce-return.ts:44-71 | merchants who sign only real advances mislead no slot |
| PoolHandOuts.RepeatedReturnsAreMisled | packages/client/src/pool.ts:283-296 | in every run a return is accepted again only after one for the slot was applied that was no real advance |
| PoolHandOuts.ReturnsCountOnce | packages/client/src/pool.ts:283-296 | no return is accepted twice in any run when merchants sign only real advances |
| PoolHandOuts.UnknownUntilCreated | packages/client/src/pool.ts:305-347 | from any moment of any run at which neither ledger holds a slot but as unknown, nothing is handed out from it until a create writes a ledger with it |
| PoolHandOuts.UnknownInBothExactlyWhen | packages/client/src/pool.ts:192-196 | an operation that makes a slot unknown makes it so in both ledgers if and only if its write was stored or the stored ledger held it as nothing else |
| PoolFailures.ARejectedCloseIsForgotten | packages/client/src/pool.ts:322-347 | a close rejected before storing, then a crash: the slot memory held unknown is handed out, its account gone, with no create |
| PoolOutstanding.OutstandingPaymentsStayGood | packages/client/src/pool.ts:256-377 | in a timely run, a young unlanded payment of a slot that was not misled keeps its value on chain and passes the pre-check unless its account was closed, and no other payment against that value has landed or still can |
| PoolOutstanding.PassingMeansUnspent | packages/client/src/nonce-check.ts:24-34 | in every run a check of the account as it is passes exactly when it holds the value claimed, says stale exactly when it holds another, and when it passes no payment against that value has landed |
| PoolCycle.ASlotComesBack | packages/client/src/pool.ts:220-303 | the machine does go round: a slot is set up, paid from, settled, given back by a true return and paid from again against the new value, in one run that misleads nobody |
| PoolOutstanding.SettlesAtMostOnce | packages/integration/test/fake-chain.ts:95-116 | in every run each nonce value settles at most one payment, however late it lands and whatever was released or misled |
| PoolOutstanding.ReleasedHadNotLanded | packages/client/src/pool.ts:366-370 | in every run a release proves that the payment had not landed when the reconcile began |
| PoolOutstanding.ReleasedHasNotLanded | packages/client/src/pool.ts:366-370 | where payments land only while young, a release proves that it has not landed at all |
| Submit.OutcomeIsWhatTheChainDid | packages/client/src/submit.ts:79-124 | settled exactly when the transaction landed and succeeded, charged exactly when it landed and failed, free exactly when it never landed, whatever the error said |
| Submit.NonceFailuresAreTold | packages/client/src/submit.ts:96-124 | on the nonce path an attempt is called stale exactly when it comes down to the account and that is the payer's on another value, and absent exactly when it comes down to it and there is none of the payer's; only an already-processed error keeps the account from being asked |
| NonceCheck.CheckTells | packages/client/src/nonce-check.ts:29-33 | each verdict, exactly, by what the account is |
| NonceCheck.WhenPrecheckThrows | packages/client/src/nonce-check.ts:24-29 | the check is made exactly of a payment on the nonce path whose index is in range |
| Submit.WhatAFailureIsCalled | packages/client/src/submit.ts:98-122 | the code of every failure, by how the transaction ended, then the account, then the error |
| Submit.WhenNothingIsSent | packages/client/src/submit.ts:80-90 | what is never sent, and why |
| Submit.WhenSubmitThrows | packages/client/src/submit.ts:79-124 | an attempt that can be sent throws exactly when an answer it needs never came |
| Settlement.SettledValueIsARealAdvance | packages/client/src/submit.ts:64-104 | under truthful reads, the value a settled attempt brings back is an advance of the payer's account past the spent value, so what the merchant signs is a real advance |
| Settlement.T1AcceptanceMeansUnspent | packages/client/src/queue.ts:100-104 | a T1 payment not refused on a check of the account as it is has its value on chain then, and nothing against that value has landed |
| Settlement.SettledReturnRearms | packages/client/src/pool.ts:283-296 | the return signed for it re-arms the payer's recorded slot on exactly that value, and is never false |
| Settlement.YoungPaymentsAreNotStale | packages/client/src/submit.ts:113-121 | a young payment of an open account and an unmisled slot is called neither stale nor absent |
| QueueLaws.IdTextIsInjective | packages/client/src/queue.ts:62-69 | two dedupe keys are the same text only for the same payer, slot and value, or the same message |
| QueueLaws.SamePaymentExactly | packages/client/src/queue.ts:62-69 | two payments have one key exactly when they are for one payer, slot and value, or one payer and message |
| QueueLaws.SamePurchaseExactly | packages/client/src/queue.ts:3-6 | on the fresh path two verified payments have one key exactly when they ask for the same thing, whatever their signatures |
| QueueModel.OrderedIsOldestFirst | packages/client/src/queue.ts:87-87 | the order is of exactly the payments held, the oldest accepted first, and those of one moment as their keys sort |
| QueueModel.ExposureIsTotal | packages/client/src/queue.ts:90-93 | the exposure does not depend on the order it is summed in |
| QueueLaws.ExposedExactly | packages/client/src/queue.ts:88-93 | what is exposed: T1 and T2 payments still queued, submitting or failed |
| QueueModel.PutEntries | packages/client/src/queue.ts:82-85 | saving replaces the entry under its key and no other |
| QueueObject.Queue.constructor | packages/client/src/queue.ts:78-80 | a new queue is empty until it loads |
| QueueObject.Queue.Accept | packages/client/src/queue.ts:96-118 | the object's state and answer are the modelled acceptance's, guard by guard |
| QueueLaws.WhyRefused | packages/client/src/queue.ts:96-113 | the first rule a payment breaks is the one it is refused for, in the order of the rules |
| QueueObject.Queue.Drain | packages/client/src/queue.ts:126-144 | the loop over a snapshot does the modelled attempts one by one, stopping where a submission throws |
| QueueDrain.DrainSubmitsOldestFirst | packages/client/src/queue.ts:126-144 | a drain submits exactly the queued and failed payments, the oldest accepted first, its outcomes theirs in that order, and ends where one throws |
| QueueDrain.DrainLeaves | packages/client/src/queue.ts:126-144 | and leaves each of them settled or failed as its own outcome says, once more attempted, and every other payment as it was |
| QueueDrain.CountsExactly | packages/client/src/queue.ts:75-140 | a settlement clears the counter, an execution failure or an absent account adds one, anything else leaves it |
| QueueDrain.WhatCounts | packages/client/src/queue.ts:75-140 | on the nonce path an attempt counts exactly when the transaction landed and failed, the account is not the payer's, or it holds the value claimed and the error says that execution failed: never an honest race |
| QueueObject.Queue.Expire | packages/client/src/queue.ts:146-150 | the loop voids in memory, issues one write to each and returns the modelled voidings, the store as it was |
| QueueObject.Queue.Load | packages/client/src/queue.ts:152-159 | memory and counter become what the store holds once it has what it was given |
| QueueLaws.ExpireVoidsExactlyTheOverdue | packages/client/src/queue.ts:146-150 | exactly the payments neither settled nor voided that outlived the window are voided in memory and returned, every other entry and the counter kept, and the store has yet to get one write for each |
| QueueLaws.ExpiryVoidsTheOldAndOpen | packages/client/src/queue.ts:146-150 | by each payment's own fields: still open and accepted a send window ago, it is voided with the reason and returned once; otherwise it stays as it is and is not returned |
| QueueLaws.LoadRestores | packages/client/src/queue.ts:152-159 | a new queue that loads has every entry its store holds and no other, whatever order the store lists them in |
| QueueRuns.StepKeepsInv | packages/client/src/queue.ts:82-159 | acceptance, every step of a drain, each write stored, landing, expiry, and a crash and reload at any moment keep memory, store, writes to come, chain, books and counter in step |
| QueueOutcomes.AcceptIsItsSteps | packages/client/src/queue.ts:96-118 | an acceptance step and the store catching up are exactly the modelled acceptance, on the books by then |
| QueueOutcomes.DrainIsItsSteps | packages/client/src/queue.ts:126-144 | the steps of an undisturbed drain, the store catching up where it awaits, are exactly the loop, and the outcomes it returns are the new history |
| QueueExposure.OnlyAcceptanceRaisesExposure | packages/client/src/queue.ts:88-150 | no step of a drain, no write stored and no expiry raises the exposure |
| QueueExposure.ACrashChangesExposureBy | packages/client/src/queue.ts:82-159 | a crash changes the exposure by exactly the settlements and voidings the store did not have yet, up, and the acceptances it did not have yet, down |
| QueueExposure.ExposureNeverExceedsCap | packages/client/src/queue.ts:88-118 | when the store gets its writes in order, the unsettled T1 and T2 total is within the cap at every step of every run, with acceptances between the steps of a drain and crashes anywhere |
| QueueExposure.CapHoldsExactlyWhen | packages/client/src/queue.ts:82-159 | with the order kept for each key only, the exposure is within the cap throughout a run if and only if at each crash what it loses still fits |
| QueueFailures.ReorderedWritesPassTheCap | packages/client/src/queue.ts:82-150 | it need not: a run that ends with 15 exposed under a cap of 10, as the store had the acceptance that a lost voiding made room for |
| QueueOutcomes.SettledIsDelivered | packages/client/src/queue.ts:126-144 | delivered is settled plus what landed with no outcome left; settled never exceeds delivered, and equals it exactly when no such attempt delivered anything |
| QueueOutcomes.FinalSurvivesExactlyWhen | packages/client/src/queue.ts:126-159 | a settled or voided entry is changed by no step, acceptance to reload, but a crash that comes before its write is stored; so a voided entry survives a restart if and only if its write was stored |
| QueueOutcomes.FinalForGood | packages/client/src/queue.ts:126-159 | once the store has an entry as settled or voided, store and memory have it so at every later step |
| QueueFailures.AVoidingCanBeLost | packages/client/src/queue.ts:146-150 | a run in which a payment returned as voided is queued again after a crash, its exposure back |
| QueueOutcomes.AcceptedAtMostOnce | packages/client/src/queue.ts:96-98 | each key is accepted at most once in any run, and a payment is refused as a duplicate exactly when its key was accepted or its acceptance is on its way to the store |
| QueueOutcomes.AcceptedForGood | packages/client/src/queue.ts:96-98 | an accepted key is held, and so refused, at every later step, whatever crashes |
| QueueOutcomes.AcceptedExactlyWhen | packages/client/src/queue.ts:96-118 | in every run a payment offered is queued exactly when it is new, pre-checked where T1 asks for it, the failed sends counted are fewer than the limit, and it fits both caps; until a count is lost, those are the counting failures since the last settlement |
| QueueOutcomes.CounterIsHistory | packages/client/src/queue.ts:126-159 | throughout a run the counter, in memory and in the store, is the number of counting failures since the last settlement, if and only if no crash falls between an outcome and the store having it counted when that would have moved the counter |
| QueueFailures.ACrashCanLoseACount | packages/client/src/queue.ts:133-141 | such a crash can happen: a run with one counting failure on record and none counted |
| QueueOutcomes.UnreportedNeverSettles | packages/client/src/queue.ts:128-138 | a payment whose attempt left no outcome in the store, by a throw or a crash, stays submitting, then voided, for good |
| QueueFailures.ALandedPaymentCanStayUnsettled | packages/client/src/queue.ts:128-131 | such a payment can have landed: a run that delivered it and settled nothing |

## Left out

- `packages/client/src/rpc.ts`: transport, retries and confirmers; only its answers appear.
- The text matching of `codeFromError`: what an error suggests is a parameter (`Submit.Hint`).
- Message compilation, Ed25519, SHA-256, base58 and address derivation, and with them the branches that
  reject a base58 text of the wrong length (`writeKey`, `nonceReturnSigningBytes`), as keys are 32 bytes.
- `evaluateMint`, `assertMintCompatible`, mint staleness, `assessLedger` and the cost estimates: single-branch facts.
- The balance checks of `create` and `close`: a parameter says whether they pass.
- Non-integer indices, sizes and times, which JavaScript numbers allow.
- Strings as UTF-16 code units: text is a sequence of characters.
- `localeCompare` of dedupe keys: a rank per key, as ties in acceptance time are all it decides.
- The `detail` text of a failed outcome and of an error.
- The queue's store: a write that is rejected, two writes for one key stored in the other order, and an
  acceptance before a new queue has loaded.
- Two drains at once, or expiry during a drain, which the source leaves to its caller.
- `remainingExposure`, `status`, `statusOf` and other one-line readers.
- `packages/fixtures/src/generate.ts`, the tools, and both apps: user interface, QR codes, storage, drivers.
