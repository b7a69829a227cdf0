# Verified model of the marketplace core

This project models, in Dafny 4.11, the parts of the freelance marketplace where mistakes are expensive, and proves what
they are meant to guarantee. Paths below are paths in the repository.

* **QR encoder** (`GaloisField`, `GaloisTables`, `ReedSolomon`, `QrCodewords`, `QrMatrix`, `QrFormat`, `QrSymbol`, `QrReading`,
  `QrFigures`, `QrAppearance`, `Distance`, `QrDamage`, `QrIdentity`).
  Field arithmetic by tables, generator polynomial and shift-register remainder, byte-mode bit stream, block interleaving, the
  drawing, zigzag and masking loops on two-dimensional arrays, and the eight mask trials. Each loop is a method proved against
  a function; the lemmas say what the functions mean. `QrFigures` draws
  the patterns and mask tiles row by row, and `QrAppearance.SymbolAsDrawn` holds a finished symbol against them.
* **Payments, orders and ledger** (`Ledger`, `Bookkeeping`, `Orders`, `Payments`, `StoreRows`, `Store`, `Actors`, `Protocol`,
  `Duties`, `Runs`, `Guarantees`, `Checkouts`, `Outcomes`, `Earnings`, `SoloRuns`, `Incidents`, `Settlements`, `Handlers`). Checkouts, webhook jobs,
  the reconcile and auto-accept sweeps, buyers, sellers and admins are programs that make one store or provider call per step. Any
  number of them interleave and may crash between calls. `Runs.EveryRun` is the invariant of all runs, `Checkouts.EveryCheckout` the
  one about payments; `Guarantees` draws the conclusions; `Outcomes` says exactly when an order can still start and a refund can
  still settle, `Earnings` when a seller's share can still be released; `Incidents` holds concrete runs that go wrong. `Handlers`
  holds the jobs and request handlers as straight-line methods on the tables and shows each to be a run of its program; `Settlements` says what
  reports and provider answers leave behind.
* **Job queue** (`JobTable`, `JobQueue`). Leases, stale reclaim, backoff, dead letters, the admin retry and the bounded slot pool.
* **Small codecs and the rate limiter** (`Decimal`, `Money`, `Evm`, `RateLimit`).

`Results` holds the option and result types, `Int64` the wrapping 64-bit arithmetic. `dafny verify dfyconfig.toml` checks everything.

## What the proofs found

* **Data is placed before the format modules are reserved** (services/qrcode.go:109-115). `QrReading.SurvivingBits` says exactly
  which codeword bits a finished symbol determines, `QrReading.LostBit` that every version loses some, and
  `QrReading.StandardReaderSlips` that a reader following ISO/IEC 18004 takes every bit from the first lost one on from a later
  place in the stream. The damage stays below what the check symbols can make up for once it is known where it is: no two payloads
  share a symbol (`QrIdentity.SymbolNamesPayload`).
* **A capture can be lost for good.** The comment at payments.go:49-50 says nothing is destructive to retry. A crash between
  the status change and the posting (payments.go:137-150) leaves the order in paid without a capture, and a retry skips it because
  the order is no longer pending (`Incidents.CaptureCanBeLost`). The same happens without a crash when the capture builder refuses
  the amounts, since the status changes first (`Handlers.CapturePaymentForOrder`). `Outcomes.OrderStartsIff` is the exact condition
  under which an order can still start.
* **Checkout happens once.** Its only caller runs right after the order is created and the draft deleted (handlers/checkout.go:350-361),
  and the flash notices that ask the buyer to try again (handlers/payments.go:62, 96, 136) lead nowhere: no route opens an intent or a
  session for an existing order. A checkout that stops early, or whose session is not recorded, leaves an order that can never start
  (`Incidents.CheckoutCanStop`, `Incidents.SessionCanBeLost`).
* **The payments table admits no chain.** Its check lists `evm` (migrations/0006_payments.sql:25), while the providers are named
  `evm-base` and `evm-polygon` (server.go:72-77), so every stablecoin checkout fails at its first statement
  (`Checkouts.SchemaAdmitsNoChain`). With a table that admitted them, a deposit could be stranded: the sweep lists only payments that
  are not finished, and the chains send no webhooks (`Incidents.DepositCanBeStranded`).
* **A success can come too late.** When a failure has been stored on the intent and the success that follows starts the order, the
  seller's share can never be released and the buyer never refunded, as both ask for an intent in succeeded
  (`Incidents.SuccessCanComeTooLate`, `Earnings.UnpaidForever`).
* **A release can be lost** between acceptance and posting (`Incidents.ReleaseCanBeLost`); `Earnings.ReleaseIff` is the exact condition
  under which it can still be made.
* **payment_failed is final.** The comment at payments.go:161-162 promises a retry of checkout, but no code takes the step back to
  pending_payment (`Outcomes.FailedIsForever`). A payment that has succeeded can end there too
  (`Incidents.SuccessCanEndInFailure`), and be refunded there although nothing was captured (`Incidents.RefundCanLackItsCapture`);
  `Outcomes.RefundWithoutCapture` says when such a refund can still be backed.
* **A refund is drawn by flag, not by balance.** The account comes from accepted_at (handlers/payments.go:759), while the release
  is posted after acceptance and may be lost or late. So a refund restores the accounts exactly when it was drawn from where the
  seller's share was (`Bookkeeping.RefundRestoresUpToCase`, `Guarantees.RefundUndoesCapture`), which can fail
  (`Incidents.RefundCanMissTheMoney`).
* **Refund and letter case.** Captures are posted in the currency as stored, releases and refunds in lower case
  (payments.go:144, orders.go:69, handlers/payments.go:760), so to the letter of account currencies a refund restores them only for
  currencies stored in lower case (`Bookkeeping.RefundRestoresExactly`).
* **A request can settle the wrong matter.** Resolving checks the transition table only, and the table lets both in_progress and
  cancelled be reached from cancel_requested and disputed alike. So a cancellation request whose status change was lost can end a
  dispute, which then stays open for good (`Incidents.CancellationCanEndDispute`); `Handlers.OrderResolve` and
  `Guarantees.ResolutionsComeFrom` say exactly from where a request takes an order to each outcome.
* **A refund row can hang.** A crash after the insert, or a provider answer the status column does not admit
  (handlers/payments.go:737-751), leaves a live row that is never posted and blocks every later refund of the order
  (`Outcomes.RefundSettlesIff`, `Incidents.RefundCanHang`).
* **Ledger validation adds in 64 bits.** Up to amounts of 2^64 in a currency it is exact (`Ledger.AcceptedBalance`); from there on a
  group that is off by a multiple of 2^64 passes (`Ledger.WrapHidesImbalance`). The builders never produce one.
* **The limiter is a little stricter than twice its limit**: 2 * limit - 1 per window length (`RateLimit.FewerThanTwiceTheLimit`), if
  calls get the lock in the order of their times. Both methods read the clock before they take the lock (services/ratelimit.go:38-39,
  53-54). Events that wait raise the bound by their lag (`RateLimit.WithinTheBound`, and exactly so: `RateLimit.BoundIsReached`), and a
  cleanup that overtakes an event can uncount earlier ones (`RateLimit.CleanupCanUncount`, `RateLimit.CleanupsMatterIff`).
* **Decimals are cut, not checked.** The catalogue form and BTCPay parse 1.50 out of any text that starts so, whatever comes next
  (`Money.TailUnread`).
* **The smallest 64-bit amount round-trips too**, through two wraps that cancel (`Money.BtcpayRoundTrip`).

## Modelling choices

* A statement or transaction of the store is one atomic step on rows. Rows that a claim passes over because another transaction
  holds them (SKIP LOCKED) are an arbitrary set given to the claim.
* Any store call may fail. Where the code goes on from the error (the sweeps skip, a release is dropped) so does the actor; elsewhere
  a failed call is a stop before it and a lost reply a stop after it, and an actor may stop at any point.
  Answers of providers, listings and their order are inputs. Who may press which button is not checked, so the guarantees hold for
  any mixture of requests.
* Stripe and BTCPay may deliver any signed event about any reference at any time; the chains deliver none (providers/evm.go:247-251).
  Sessions are created with whatever reference the provider answers. The shipped schema's provider names are a parameter of a run, so
  that the guarantees hold for other schemas too.
* There is one clock. The code takes the auto-accept cutoff from the process (orders.go:36) and the delivery stamp from the database
  (store/orders.go:243), so `Guarantees.AutoAcceptIsLate` assumes that the two agree.
* `Order.visits` records every status with its time; no code reads it. It stands for the past that the milestones summarise.
* A ledger account is its kind, owner and currency, as the balance queries group it (store/ledger.go:95-101, 120-125).
* Amounts, fees and prices are 64-bit with wrap-around written out. Counters, times and block heights are unbounded integers.
* Currency codes are compared by ASCII lower-casing. Money text is handled by character instead of by byte; both accept the same
  texts, because a non-ASCII character is refused either way.

## Model

| member | source | states |
|---|---|---|
| `GaloisField.MulAddRight` | services/qrcode.go:253-258 | multiplication distributes over exclusive-or |
| `GaloisField.MulComm` | services/qrcode.go:253-258 | multiplication is commutative |
| `GaloisField.MulAssoc` | services/qrcode.go:253-258 | multiplication is associative |
| `GaloisField.MulIsCarrylessModulo` | services/qrcode.go:234-258 | shift-and-add multiplication is the carry-less product reduced modulo the primitive polynomial 0x11D, for all bytes |
| `GaloisField.ReduceQuotient` | services/qrcode.go:234-258 | reduction differs from its argument by a carry-less multiple of the polynomial, so it is a remainder in the ring of bit polynomials |
| `GaloisTables.AlphaOrder` | services/qrcode.go:238-248 | no power of 2 below the 255th is 1, so the table of powers has no short cycle |
| `GaloisTables.AlphaInjective` | services/qrcode.go:238-248 | distinct exponents below 255 have distinct powers, so no logarithm is written twice |
| `GaloisTables.LogExists` | services/qrcode.go:238-248 | every nonzero byte gets a logarithm |
| `GaloisTables.MulNonzero` | services/qrcode.go:253-258 | a product is zero only if a factor is |
| `GaloisTables.Tables.constructor` | services/qrcode.go:235-251 | after initialisation the exponent table holds all powers (with the wrapped second cycle) and the logarithm table inverts it |
| `GaloisTables.Tables.Product` | services/qrcode.go:253-258 | the table lookup computes exactly the field product, zero operands included |
| `ReedSolomon.EvalPolyMul` | services/qrcode.go:263-290 | evaluation is multiplicative for polynomials of any length |
| `ReedSolomon.GeneratorRoots` | services/qrcode.go:263-277 | the roots of the degree-n generator are exactly the first n powers of 2 |
| `ReedSolomon.Divisor` | services/qrcode.go:263-277 | the in-place loop leaves the generator's coefficients below the leading 1 |
| `ReedSolomon.ComputeRemainder` | services/qrcode.go:279-290 | the shift register ends with the remainder function's value |
| `ReedSolomon.CodewordIsMultiple` | services/qrcode.go:279-290 | data followed by its remainder is the quotient times the monic divisor, for any divisor |
| `ReedSolomon.CodewordVanishes` | services/qrcode.go:263-290 | data followed by its remainder vanishes at the first n powers of 2, for every n >= 1 |
| `ReedSolomon.RemainderUnique` | services/qrcode.go:263-290 | n check symbols make the block vanish at those powers if and only if they are the computed remainder (n up to 255) |
| `Distance.FewCoefficients` | services/qrcode.go:263-290 | a polynomial that vanishes at the first n powers of 2 and has at most n coefficients, wherever they are, is zero |
| `Distance.SameCodeword` | services/qrcode.go:263-290 | two codewords of n check symbols that differ in at most n places are the same, for any length up to 255 |
| `QrCodewords.ChooseVersion` | services/qrcode.go:137-145 | a version is found exactly for payloads up to 134 bytes, it fits, and no smaller one does |
| `QrCodewords.Capacities` | services/qrcode.go:32-39 | up to 17, 32, 53, 78, 106 and 134 bytes go into versions 1 to 6, of 26, 44, 70, 100, 134 and 172 codewords |
| `QrCodewords.EncodeDataBits` | services/qrcode.go:150-175 | the appending loops produce mode, count, payload, terminator, alignment and alternating pad bytes, filling the capacity exactly |
| `QrCodewords.StreamParses` | services/qrcode.go:150-175 | parsing mode, count and bytes off the stream recovers the payload |
| `QrCodewords.StreamCodewords` | services/qrcode.go:150-175 | codeword by codeword: the length and the payload shifted by half a byte behind mode 4, then zeros, then 0xEC and 0x11 in turn |
| `QrCodewords.BitsToBytes` | services/qrcode.go:177-190 | the packing loop computes the byte sequence whose bits are the input |
| `QrCodewords.BytesToBits` | services/qrcode.go:192-200 | the unpacking loop computes the bit sequence, most significant first |
| `QrCodewords.BytesRoundTrip` | services/qrcode.go:177-200 | unpacking then packing returns the bytes |
| `QrCodewords.BitsRoundTrip` | services/qrcode.go:177-200 | packing then unpacking returns any stream of whole bytes |
| `QrCodewords.Interleave` | services/qrcode.go:207-231 | the loops produce the column-interleaved data blocks followed by the column-interleaved check blocks |
| `QrCodewords.DataCodewordAt` | services/qrcode.go:219-224 | the place of each data codeword: the c-th ones of all blocks together, for each c in turn |
| `QrCodewords.CheckCodewordAt` | services/qrcode.go:225-229 | after all data, the place of each check symbol in the same way |
| `QrCodewords.StripeOfColumns` | services/qrcode.go:219-229 | reading every n-th symbol undoes column interleaving |
| `QrCodewords.DeinterleaveBlock` | services/qrcode.go:207-231 | each data block and its check symbols come back, and together they vanish at the generator's roots |
| `QrCodewords.DeinterleaveData` | services/qrcode.go:207-231 | the recovered blocks, joined, are the data codewords |
| `QrCodewords.PayloadRoundTrip` | services/qrcode.go:137-231 | every payload that gets a version survives the trip to interleaved codewords and back |
| `QrMatrix.Matrix.constructor` | services/qrcode.go:46-61 | a new grid is square, all light, and has no function modules |
| `QrMatrix.Matrix.SetFunction` | services/qrcode.go:63-66 | one module gets its colour and becomes a function module, nothing else changes |
| `QrMatrix.Matrix.DrawFinder` | services/qrcode.go:294-306 | exactly the on-board part of the 9 by 9 region is reserved and coloured |
| `QrMatrix.Matrix.DrawTiming` | services/qrcode.go:308-318 | row and column 6 between the finders alternate, except modules already reserved |
| `QrMatrix.Matrix.DrawAlignment` | services/qrcode.go:320-327 | exactly the 5 by 5 region is reserved and coloured |
| `QrMatrix.Matrix.DrawFormat` | services/qrcode.go:344-360 | both copies of the fifteen bits and the dark module are drawn and reserved, nothing else changes |
| `QrMatrix.CopiesApart` | services/qrcode.go:346-360 | the two copies never share a module and spare the dark module |
| `QrMatrix.WalkCells` | services/qrcode.go:366-394 | for every odd size the zigzag visits each module outside column 6 exactly once, and nothing off the board |
| `QrMatrix.FreeCells` | services/qrcode.go:366-394 | stepping over function modules leaves exactly the free modules of the walk, each once |
| `QrMatrix.Matrix.PlaceData` | services/qrcode.go:366-394 | the loops write the k-th bit into the k-th free module of the walk, light once the bits run out, for any set of function modules |
| `QrMatrix.PlacedReadsBack` | services/qrcode.go:366-394 | re-walking the free modules returns the bits, and every other module is as before |
| `QrMatrix.MaskSteps` | services/qrcode.go:396-405 | masks 0 to 3 by their changes from module to module: a chessboard; rows; every third column; every third anti-diagonal |
| `QrMatrix.MaskBlocks` | services/qrcode.go:406-407 | mask 4 is a chessboard of tiles three modules wide and two high |
| `QrMatrix.MaskRepeats` | services/qrcode.go:410-415 | masks 5 to 7 are symmetric about the diagonal and repeat every six columns and rows |
| `QrMatrix.MaskIsTile` | services/qrcode.go:396-415 | every mask formula is the drawn tile of that mask, repeated over the plane |
| `QrMatrix.Matrix.ApplyMask` | services/qrcode.go:417-428 | exactly the modules that are not function modules and are inked on the tile of the mask change colour |
| `QrFormat.ComputeFormatWord` | services/qrcode.go:333-343 | the shift loop on 32-bit words yields the specified 15-bit word |
| `QrFormat.BchDivides` | services/qrcode.go:336-340 | each step of the loop keeps the dividend congruent to the register modulo the BCH generator |
| `QrFormat.FormatWordNamesMask` | services/qrcode.go:333-343 | with 0x5412 removed the word is a multiple of the BCH generator 0x537 whose top bits name level L and the mask |
| `QrAppearance.FormatPlaces` | services/qrcode.go:344-359 | the listed places, around the first finder and along the other two, carry the format bits in order |
| `QrAppearance.WalkAt` | services/qrcode.go:366-394 | which module each step of the walk visits: up the first pair of columns from the bottom right corner, down the next, right module before left, over the timing column |
| `QrSymbol.PatternsApart` | services/qrcode.go:95-107 | no module belongs to two fixed patterns |
| `QrSymbol.FixedApartFromFormat` | services/qrcode.go:95-107 | no fixed module is a format module, and column 6 is fixed from top to bottom |
| `QrSymbol.TrialShown` | services/qrcode.go:111-126 | whether or not the format modules are reserved yet, masking and drawing the format bits shows the same trial picture |
| `QrSymbol.TrialUndone` | services/qrcode.go:123 | the undo brings the placed data back on every module outside the format cells, although the reserved set grew in between |
| `QrSymbol.ChooseMask` | services/qrcode.go:111-126 | the loop keeps the trial of the lowest-numbered mask of least penalty, each trial starting from the originally placed data |
| `QrSymbol.EncodeMatrix` | services/qrcode.go:86-127 | fails exactly above 134 bytes; otherwise returns the laid-out symbol of the smallest version under the best mask |
| `QrReading.DataWalkCells` | services/qrcode.go:95-109 | the data walk visits each module outside the fixed patterns exactly once |
| `QrReading.SymbolReadsBack` | services/qrcode.go:86-127 | in the returned symbol the patterns show, both format copies name the mask, and every other module is codeword bit exclusive-or mask |
| `QrAppearance.SymbolAsDrawn` | services/qrcode.go:86-127 | the returned symbol shows the drawn finder and alignment figures, alternating tracks, the dark module, the format word in both places, and the codeword bits along the walk under the drawn tile of the mask |
| `QrReading.SurvivingBits` | services/qrcode.go:86-127 | the finished symbols of two payloads of one version, each under its own best mask, are equal if and only if their codeword bits agree on all modules outside the format cells |
| `QrReading.SamePictureSameMask` | services/qrcode.go:329-360 | a finished symbol names its mask: equal pictures come from equal masks |
| `QrReading.LostBit` | services/qrcode.go:109-126 | in every version the first bit of codeword number + 2 is overwritten by a format bit |
| `QrReading.StandardReaderSlips` | services/qrcode.go:109-126 | a reader that skips format modules takes every bit from that one on from a later position of the stream |
| `QrReading.EveryBitIsPlaced` | services/qrcode.go:30-39 | in every version the walk is long enough for all codeword bits |
| `QrDamage.FormatInStretches` | services/qrcode.go:344-394 | in every version all format modules lie in five stretches of the data walk, of at most 4, 4, 7, 11 and 4 bits |
| `QrIdentity.FewDamaged` | services/qrcode.go:109-126 | format modules spoil at most 7 codewords of version 1 and 10 of any other |
| `QrIdentity.SurvivorsNamePayload` | services/qrcode.go:137-231 | two payloads whose codeword bits agree outside the format modules are the same |
| `QrIdentity.SymbolNamesPayload` | services/qrcode.go:86-127 | no two payloads share a finished symbol, whatever version, mask and penalties |
| `Ledger.Validate` | ledger/ledger.go:140-164 | accepts exactly the non-empty groups of positive entries with known directions whose 64-bit totals are zero in every currency |
| `Ledger.AcceptedBalance` | ledger/ledger.go:140-164 | a group of well-formed entries whose amounts add up to less than 2^64 in each currency is accepted if and only if it balances; in general, if and only if it is off by multiples of 2^64 |
| `Ledger.WrapHidesImbalance` | ledger/ledger.go:144-162 | that bound is tight: a concrete unbalanced group whose amounts add up to 2^64 is accepted |
| `Ledger.PaymentCaptured` | ledger/ledger.go:43-61 | accepted exactly for positive gross and fee between 0 and gross; the group balances, owes the seller gross less fee, keeps the fee and puts the gross with the provider, and touches no other account |
| `Ledger.EarningsReleased` | ledger/ledger.go:65-74 | accepted exactly for a positive amount; the group balances and moves the amount from the seller's pending to the available account |
| `Ledger.RefundIssued` | ledger/ledger.go:82-113 | accepted exactly for a positive amount split into two non-negative shares, despite the wrapping guard; the group balances, takes both shares back from the right accounts, returns the amount through the provider, and passes it through the refunds account |
| `Ledger.ManualAdjustment` | ledger/ledger.go:121-134 | accepted exactly for a positive amount with a reason; moves the amount between the two accounts and balances |
| `Bookkeeping.EventSum` | ledger/ledger.go:43-113 | each posted event changes each kind of account by exactly its intended amount |
| `Bookkeeping.LowerIs` | handlers/payments.go:760 | capital letters become small, and a code stays exactly if it has none |
| `Bookkeeping.CurrenciesSumToZero` | ledger/ledger.go:43-113 | over any run of captures, releases and refunds every currency sums to zero |
| `Bookkeeping.AccountsPartitionCurrency` | store/ledger.go:92-141 | adding account balances over the accounts of a currency gives that currency's total |
| `Bookkeeping.OrderBalances` | ledger/ledger.go:43-113 | per order: pending plus available, revenue, clearing and refunds in terms of captures less refunds |
| `Bookkeeping.SellerBalances` | ledger/ledger.go:43-113 | per order and over any run: pending is captures less releases and refunds drawn from there, available is releases less refunds drawn from there, in shares of the seller |
| `Bookkeeping.RefundRestoresUpToCase` | ledger/ledger.go:76-113 | over any run with one capture and one refund of an order, whatever else is posted: it leaves nothing on any account, up to letter case, if and only if the refund was drawn from where the seller's share was |
| `Bookkeeping.RefundRestoresExactly` | handlers/payments.go:756-764 | the same to the letter, if and only if moreover the currency is stored in lower case |
| `Orders.EnteredFrom` | services/orders.go:26-50 | from which statuses each status can be entered, as if-and-only-ifs |
| `Orders.MovedConsistent` | store/orders.go:238-258 | a table-legal update keeps the row's history legal and its milestones truthful |
| `Orders.MilestonesSayWhen` | store/orders.go:238-258 | each milestone is set if and only if its status has been visited |
| `Orders.HistoryIsOneWay` | services/orders.go:26-40 | cancelled, closed and payment_failed absorb, and nothing after paid returns to a payment state |
| `Orders.LatestDelivery` | store/orders.go:238-283 | a delivered order's stamp is the time of its latest delivery |
| `Orders.DirectlyBefore` | services/orders.go:26-40 | what an order with a legal history was directly before each status: accepted or sent back only when delivered, delivered only out of work or revision; never paid out |
| `Orders.AcceptedAfterDelivery` | services/orders.go:30-32 | acceptances and revisions together never exceed deliveries |
| `Orders.CalculateOrderTotals` | services/orders.go:64-75 | the loop computes the 64-bit subtotal, the fee with its fraction dropped, and the total |
| `Orders.SumOfConcat` | services/orders.go:65-68 | the sum of prices adds up over any split, and one price is its own sum |
| `Orders.CaptureAccepts` | services/orders.go:64-75 | a positive subtotal's breakdown is accepted by the capture exactly when the fee product did not wrap below zero and the total fits; payable is then the subtotal |
| `Orders.CheckoutIsCapturable` | services/orders.go:64-75 | for a positive subtotal and a share not below zero: the fee is the floor of the exact share if and only if subtotal * bps fits in 64 bits; then the capture accepts if and only if subtotal + fee fits, and the payable is the subtotal |
| `Orders.FeeCanWrap` | services/orders.go:69 | past that bound a full share wraps below zero |
| `Decimal.ShowIntInjective` | services/payments.go:47-49 | printed integers determine the number |
| `Payments.IdempotencyKeyInjective` | services/payments.go:47-49 | the key determines scope, entity and attempt, whatever the scope text |
| `Payments.PaymentEnteredFrom` | services/payments.go:18-38 | a payment is processed, canceled or expires only from pending, and succeeds or fails only while open |
| `StoreRows.FindByRef` | store/payments.go:101-110 | finds the first intent with the provider and reference whenever there is one |
| `StoreRows.FindByKey` | store/payments.go:76-85 | finds the intent with an idempotency key whenever there is one |
| `StoreRows.LatestIntent` | store/payments.go:115-125 | finds the newest intent of the order whenever there is one |
| `StoreRows.FindOpen` | store/fulfillment.go:182-201 | finds the newest open request of the order whenever there is one |
| `StoreRows.LiveUpdate` | store/payments.go:386-414 | how a status change of one refund row changes the number of live refunds |
| `Store.Tables.TransitionOrder` | store/orders.go:238-258 | compare-and-set on status with milestone stamps; false and unchanged otherwise |
| `Store.Tables.AutoAcceptOrders` | store/orders.go:263-283 | accepts every delivered order older than the cutoff, no other, and returns each once |
| `Store.Tables.CreateRevisionRequest` | store/fulfillment.go:90-124 | uses one revision and adds its row exactly when the allowance is not used up |
| `Store.Tables.CreatePaymentIntent` | store/payments.go:49-62 | inserts exactly when the column check admits the provider and the idempotency key is unused, for any key |
| `Store.Tables.GetPaymentIntentByIdempotencyKey` | store/payments.go:76-85 | the search loop finds the specified intent |
| `Store.Tables.SetPaymentIntentSession` | store/payments.go:156-167 | sets the provider reference of one intent |
| `Store.Tables.TransitionPaymentIntent` | store/payments.go:184-200 | compare-and-set on the intent status with its succeeded, failed or canceled stamp |
| `Store.Tables.SetPaymentIntentChargeRef` | store/payments.go:173-179 | sets the charge reference of one intent |
| `Store.Tables.GetPaymentIntentByProviderRef` | store/payments.go:101-110 | the search loop finds the specified intent |
| `Store.Tables.LatestPaymentIntentForOrder` | store/payments.go:115-125 | the backward search finds the specified intent |
| `Store.Tables.InsertWebhookEvent` | store/payments.go:256-269 | inserts exactly when the event key is new; a repeated delivery changes nothing |
| `Store.Tables.MarkWebhookProcessed` | store/payments.go:325-332 | marks one event processed and changes nothing else |
| `Store.Tables.CreateRequest` | store/fulfillment.go:168-178 | appends one open request |
| `Store.Tables.GetOpenRequest` | store/fulfillment.go:182-201 | the backward search finds the specified request |
| `Store.Tables.ResolveRequest` | store/fulfillment.go:205-218 | closes an open request, and only an open one |
| `Store.Tables.HasRefund` | store/payments.go:386-402 | reports exactly whether the order has a refund that has not failed |
| `Store.Tables.CreateRefund` | store/payments.go:346-363 | inserts a pending refund exactly when none is live |
| `Store.Tables.SetRefundStatus` | store/payments.go:407-414 | stores pending, succeeded or failed; any other answer is refused and changes nothing |
| `Store.Tables.PostLedgerEntries` | store/ledger.go:48-80 | posts the whole group if it validates, otherwise nothing; entries are only ever appended |
| `Actors.FailedCall` | payments.go:51-227 | a store call that fails writes nothing; a webhook job gives up, a sweep goes on, past a charge it could not note with the same payment, and a release is skipped |
| `Protocol.PcOkStable` | payments.go:128-159 | what an actor remembers stays valid whatever others do meanwhile |
| `Protocol.RunKeepsRows` | payments.go:51-227 | any single step of any actor keeps all rows valid, only extends them, and leaves the actor knowing only what holds |
| `Duties.CaptureStep` | payments.go:128-159 | one step keeps captures posted, to be posted and to be followed in balance with the order status |
| `Duties.ReleaseStep` | orders.go:35-77 | one step keeps releases posted and owed within acceptances |
| `Duties.ReviseStep` | store/fulfillment.go:90-124 | one step keeps revisions entered and owed within those used |
| `Duties.RefundStepKeeps` | handlers/payments.go:737-767 | one step keeps refunds posted and under way within live rows, at most one |
| `Runs.RowsApart` | handlers/payments.go:737-751 | two actors never work on the same refund row |
| `Runs.StepKeeps` | payments.go:51-227 | every action of the system keeps the invariant |
| `Runs.EveryRun` | payments.go:51-227 | the invariant holds after every interleaving of steps, crashes, deliveries and clock ticks |
| `Guarantees.OneCapturePerOrder` | payments.go:121-159 | in every reachable state: no capture in pending_payment or payment_failed, at most one in paid, exactly one from in_progress on |
| `Guarantees.ReleasesFollowAcceptances` | handlers/orders.go:536-590 | releases posted never exceed entries into accepted, with buyer and sweep racing |
| `Guarantees.ReleasesFollowDeliveries` | handlers/orders.go:536-590 | in every reachable state each acceptance and revision comes directly after a delivery, and releases posted plus revisions entered never exceed deliveries |
| `Guarantees.RevisionsWithinAllowance` | handlers/orders.go:487-533 | entries into revision_requested <= revisions_used <= revisions_allowed |
| `Guarantees.RevisionRowsMatch` | store/fulfillment.go:90-124 | in every run an order has exactly as many request rows as revisions used, and no other id has any |
| `Guarantees.OneRefundPerOrder` | handlers/payments.go:678-773 | at most one refund is posted per order, and only against a live row |
| `Guarantees.HistoryIsLegal` | services/orders.go:22-50 | despite stale reads, every order's whole history follows the transition table and its milestones are truthful |
| `Guarantees.ResolutionsComeFrom` | handlers/orders.go:642-816 | in every reachable state an open cancellation request or dispute can be resolved exactly from cancel_requested or disputed, and to closed from accepted or disputed |
| `Guarantees.StepsOnlyExtend` | store/ledger.go:44-80 | no step removes an order, changes its terms, or rewrites its past or the ledger |
| `Guarantees.AutoAcceptIsLate` | orders.go:35-50 | the sweep accepts an order only if every delivery of it, the latest included, is older than the review window |
| `Guarantees.BooksSumToZero` | store/ledger.go:116-141 | in every reachable state each currency sums to zero |
| `Guarantees.AccountBalancesSumToZero` | store/ledger.go:92-141 | in every reachable state the balances of all accounts of a currency add up to zero |
| `Guarantees.BooksPerOrder` | ledger/ledger.go:36-113 | for every order of every reachable state, what stands on each kind of account in terms of its captures, releases and refunds; from in_progress on that is one capture less at most one refund |
| `Guarantees.RefundUndoesCapture` | handlers/payments.go:753-764 | in every reachable state a refunded order is back at zero on every account if and only if its refund was drawn from where the seller's share was; to the letter, moreover only for a lower-case currency |
| `Checkouts.EveryCheckout` | handlers/payments.go:51-114 | in every run: one actor at most in an order's checkout, and before its intent exists; intents in checkout unregistered; an order beyond payment with a finished payment; releases and refunds only of payments that succeeded |
| `Checkouts.OneIntentPerOrder` | handlers/payments.go:67-73 | in every reachable state an order has at most one intent, under its derived key and with an admitted provider |
| `Checkouts.CheckoutOpensUnlessRefused` | handlers/payments.go:67-77 | the checkout's key is never taken: its intent is refused if and only if the table does not admit the provider, and then the checkout is over |
| `Checkouts.SchemaAdmitsNoChain` | migrations/0006_payments.sql:25 | in every run with the shipped table all intents are with providers that send webhooks, so no stablecoin order ever gets one |
| `Checkouts.MeansAdmitted` | handlers/payments.go:32-43 | the provider behind each means of payment; the shipped table admits all but the four stablecoin means |
| `Checkouts.PaymentsFollowTable` | store/payments.go:181-200 | a payment changes only from pending, or from processing to succeeded or failed, so finished payments stay as they are; order and session stay too |
| `Checkouts.StampsSayHow` | store/payments.go:184-200 | in every run the succeeded, failed and canceled stamps of a payment are set exactly when that is its status |
| `Outcomes.OrderStartsIff` | payments.go:121-179 | in every reachable state some continuation starts the order if and only if it has started; or is paid with an actor about to move it on or about to post amounts the builder takes; or is pending with such amounts and in its checkout, or has a session that the sweep lists or a webhook reaches, or has an actor on its way to the capture |
| `Outcomes.LostCaptureIsPermanent` | payments.go:132-153 | otherwise no continuation ever starts it, posts a capture for it, or takes it out of payment_failed |
| `Outcomes.FailedIsForever` | payments.go:161-179 | a failed order stays failed and uncaptured whatever the provider reports later |
| `Outcomes.RefundWithoutCapture` | handlers/payments.go:700-767 | a refund posted without a capture: the payment has succeeded with a charge, the order is pending, paid or failed, and some continuation posts the capture if and only if the order can still start |
| `Outcomes.RefundSettlesIff` | handlers/payments.go:737-767 | in every reachable state some continuation posts or frees an unposted live refund if and only if an actor holds an answer of succeeded, with amounts the builder takes, or of failed |
| `Outcomes.HeldRefundIsPermanent` | handlers/payments.go:737-767 | otherwise the row stays live and unposted for good, so every later refund of the order is refused |
| `Earnings.ReleaseIff` | orders.go:60-77 | in every reachable state some continuation posts a further release without a further acceptance if and only if an actor has one to do, the payment succeeded, and the share is positive |
| `Earnings.LostReleaseIsPermanent` | orders.go:60-77 | otherwise every continuation without a further acceptance posts none |
| `Earnings.UnpaidForever` | orders.go:60-64 | an order whose payment is finished without success never sees a release or a refund in any continuation, even if it was started by a success reported later |
| `Incidents.CheckoutCanStop` | handlers/checkout.go:350-361 | a concrete run for every payment method: the checkout stops once the order is in, and the order has no payment and can never start |
| `Incidents.SessionCanBeLost` | handlers/payments.go:94-107 | a concrete run: the provider has opened a session that is never recorded, and the order can never start |
| `Incidents.DepositCanBeStranded` | payments.go:190-219 | a concrete run where the table admits a chain: the sweep moves a deposit's intent to succeeded and stops, and the order can never start |
| `Incidents.SuccessCanComeTooLate` | payments.go:102-110 | a concrete run: a failure is stored, the order follows the later success instead, and then no continuation ever releases or refunds anything |
| `Incidents.ReleaseCanBeLost` | orders.go:60-77 | a concrete run: accepted and paid for, the process stops, and nothing will be released without another acceptance |
| `Incidents.CaptureCanBeLost` | payments.go:137-150 | a concrete run: a crash between the status change and the posting leaves a paid order that can never start |
| `Incidents.SuccessCanEndInFailure` | payments.go:83-110 | a concrete run: the intent has succeeded, a crash, and an older failure event puts the order in payment_failed for good |
| `Incidents.RefundCanHang` | handlers/payments.go:737-751 | a concrete run: a crash after the refund row is inserted, whatever the provider answered, leaves it live and unposted for good |
| `Incidents.RefundCanLackItsCapture` | handlers/payments.go:700-767 | a concrete run: an order in payment_failed whose payment succeeded is refunded; its capture was never posted and never will be |
| `Incidents.RefundCanMissTheMoney` | handlers/payments.go:753-764 | a concrete run: accepted, a crash before the release, then a refund; one share stays pending and available is short by one |
| `Incidents.CancellationCanEndDispute` | handlers/orders.go:642-700 | a concrete run: a cancellation request whose status change was lost cancels an order in dispute; the dispute stays open and the money is kept |
| `SoloRuns.CaptureAlone` | payments.go:128-159 | the capture program run alone on a pending order with amounts the builder takes: one posting, order in in_progress |
| `SoloRuns.FailureAlone` | payments.go:102-116 | run alone, a payment found failed or expired takes its pending order to payment_failed in three calls |
| `Handlers.StartPayment` | handlers/payments.go:51-114 | the rows of the checkout program; a session is attached if and only if payments are ready, the provider is admitted and answers, and the order's key has no open session; it goes to the key's intent, new or found, and nothing else changes |
| `Handlers.CapturePaymentForOrder` | payments.go:128-159 | running alone, the method ends with the rows and exit of the capture program; it posts one capture and starts the order if and only if the order read is pending with amounts the builder takes, and leaves a pending order with other amounts in paid |
| `Handlers.FailPaymentForOrder` | payments.go:163-179 | the same for the failure program: a pending order ends in payment_failed, any other is left as it is; it succeeds exactly when the order exists |
| `Settlements.OwedSays` | payments.go:112-117 | what one report does to the order of its intent: failed or expired ends in payment_failed, succeeded in progress with one capture more, anything else changes nothing |
| `Handlers.ProcessPaymentWebhook` | payments.go:51-119 | running alone, the method leaves exactly the rows the webhook program leaves; an unprocessed event that finds its intent moves the intent as reported, and its pending order to payment_failed after failed or expired, in progress with one capture more after succeeded; any other report, order or event changes no order and no posting; it succeeds exactly when the event ends up processed |
| `Settlements.SweepSettles` | payments.go:190-219 | over listed intents of different orders, every provider answer has its whole effect and no answer gets in the way of another |
| `Handlers.PaymentReconcileSweep` | payments.go:184-227 | the same for the sweep: the rows are those after all answers in listing order; when the listed intents are of different orders, each one answered is as reported, with its pending order in payment_failed, or in progress with one capture more, exactly as for a webhook, and each one not answered is left alone |
| `Handlers.ReleaseSellerEarnings` | orders.go:60-77 | the program's rows; one release is posted exactly when the newest payment has succeeded and the share is positive |
| `Handlers.OrderAutoAcceptSweep` | orders.go:35-54 | the program's rows: exactly the delivered orders whose delivery is older than the window are accepted, each once, no other order changes, and the releases due for them are posted |
| `Handlers.OrderMove` | handlers/orders.go:419-560 | deliver exactly from in_progress or revision_requested, accept exactly from delivered; the order's whole new row, and after an acceptance the release that is due |
| `Handlers.OrderRevise` | handlers/orders.go:487-533 | exactly from delivered with allowance left: one revision used and recorded, the order in revision_requested; otherwise nothing changes |
| `Handlers.OrderAsk` | handlers/orders.go:593-753 | cancellation asked for exactly from in_progress, a dispute opened exactly from in_progress, delivered, revision_requested or accepted; one request row more and the order moved, or nothing |
| `Handlers.OrderResolve` | handlers/orders.go:642-816 | exactly with an open request and from the statuses listed per outcome; the newest open request is closed and the order moved, or nothing |
| `Handlers.AdminOrderRefund` | handlers/payments.go:678-773 | goes through exactly when the newest payment succeeded with a charge, every earlier refund failed, and the answer can be stored; once the provider answers there is a row with its status, and only an immediate success is posted, from available exactly when accepted_at is set |
| `SoloRuns.EndIsUnique` | payments.go:51-227 | a program run alone with given outside answers has one final state, so the contracts above leave no choice |
| `SoloRuns.HandlersAreRuns` | payments.go:51-119 | such a solo execution is a continuation of any state the guarantees quantify over, and disturbs no other actor |
| `SoloRuns.ActorGoesOn` | payments.go:51-119 | wherever an actor has got to, its going on alone is a continuation of that state |
| `JobTable.Jobs.EnqueueJob` | store/jobs.go:44-66 | appends a queued job with at least one attempt, due now unless told otherwise |
| `JobTable.NextIsFirstDue` | store/jobs.go:80-88 | what comes next is ahead, by due date and id, of every row that is queued or failed and due, or claimed under a lease older than the threshold |
| `JobTable.Jobs.ClaimJob` | store/jobs.go:71-104 | comes back empty exactly when no row outside those passed over is queued or failed and due, nor claimed under a lease older than the threshold; otherwise takes the first of these, leases it and counts the attempt |
| `JobTable.NextIsUnique` | store/jobs.go:80-88 | the claiming order determines the claimed row |
| `JobTable.Jobs.CompleteJob` | store/jobs.go:147-160 | done exactly from claimed |
| `JobTable.Jobs.FailJob` | store/jobs.go:164-182 | from claimed: dead when attempts are used up, otherwise failed and due after the backoff |
| `JobTable.Jobs.RetryJob` | store/admin.go:422-438 | requeues exactly dead and failed jobs with a fresh budget |
| `JobTable.RetryBackoff` | jobs.go:148-154 | between 1 and 64 seconds |
| `JobTable.BackoffDoubles` | jobs.go:148-154 | starts at one second and doubles with each attempt up to 64 |
| `JobQueue.RowsStayOk` | store/jobs.go:44-182 | in every run the status, attempt, lease and reclaim invariants of all jobs hold; attempts <= maximum + stale reclaims |
| `JobQueue.DoneForever` | store/admin.go:422-438 | over any continuation a done job never changes and a dead one only by the admin retry |
| `JobQueue.NothingBeforeItsTime` | store/jobs.go:80-85 | over any continuation without an admin retry of it, a queued or failed job is left alone until the clock reaches its due date |
| `JobQueue.BackoffIsKept` | jobs.go:125-145 | a job that fails with attempts left is due after the backoff of its attempt, and no worker touches it before then |
| `JobQueue.InFlightWithinSlots` | jobs.go:85-145 | in every run taken slots equal jobs in flight plus the claim in progress, at most the capacity, on every exit path |
| `JobQueue.ReclaimableExactlyWhenLate` | store/jobs.go:80-85 | a job under way can be claimed again if and only if its task has outlived the stale threshold |
| `JobQueue.NoDoubleProcessing` | store/jobs.go:68-104 | if every task finishes within the threshold no two workers ever process one job, for any number of workers and any interleaving |
| `JobQueue.LateTaskIsDoubled` | store/jobs.go:71-104 | without that, a concrete run has two workers on one job |
| `JobQueue.Worker.Poll` | jobs.go:85-109 | the loop ends with the pool full, nothing left to claim, a failed claim or a cancelled context; a slot without a job is given back; claimed jobs are distinct |
| `JobQueue.Worker.Process` | jobs.go:111-145 | success completes; an error, a panic and an unknown kind end in failed, due after the backoff (at once for an unknown kind), or in dead when attempts are used up; the slot is given back on every path |
| `Money.BtcpayAmountString` | providers/btcpay.go:360-367 | the printed amount parses back to the amount, for every 64-bit amount |
| `Money.BtcpayAmountToMinor` | providers/btcpay.go:371-405 | the parsed amount, padding loop and wrap-around included |
| `Money.BtcpayRoundTrip` | providers/btcpay.go:360-405 | parsing a printed amount gives it back for every 64-bit amount, the smallest included |
| `Money.ParseMoney` | handlers/seller.go:786-820 | the parsed amount or rejection, digit loop included |
| `Money.FormRoundTrip` | handlers/seller.go:786-826 | the form text parses back to the amount if and only if the amount is not negative; otherwise it is refused |
| `Money.ParseDollarsToMinor` | handlers/wallets.go:177-201 | the parsed amount or rejection; an accepted text without signs is the same amount to the catalogue parser, and one with a sign is refused there |
| `Money.ParsersAgree` | handlers/wallets.go:177-201 | where the payout parser accepts, the catalogue parser gives the same amount, or refuses because of a sign |
| `Money.ParsersRead` | handlers/seller.go:786-820 | what all three parsers make of plain digits with and without a point: hundreds of the whole part and hundredths; the payout form alone wants one or two decimals, and only BTCPay takes a minus sign |
| `Money.TailUnread` | providers/btcpay.go:383-393 | the catalogue form and BTCPay never read past the second decimal, whatever follows; the payout form refuses |
| `Money.PayoutRoundTrip` | handlers/wallets.go:177-201 | the payout form reads back what the catalogue form shows, for every amount that is not negative |
| `Evm.RefRoundTrip` | providers/evm.go:137-138 | a provider reference parses back to its parts if and only if the asset holds no colon |
| `Evm.UnitsRoundTrip` | providers/evm.go:296-304 | a unit of currency is a million token units; an amount survives the trip, and units short of a cent are dropped |
| `Evm.Payment` | providers/evm.go:181-234 | pending exactly when no log carries the expected amount to the unit under a readable block; otherwise the first such log is the charge, succeeded exactly when deep enough |
| `Evm.PendingWithoutTransfer` | providers/evm.go:208-234 | the observation is pending if and only if there is no such log |
| `Evm.SucceededWhenDeep` | providers/evm.go:173-179 | the first log with exactly the expected amount and a readable block is the payment: it is the charge, and succeeded exactly when deep enough |
| `Evm.StatusNeverRegresses` | providers/evm.go:173-234 | on a chain that only grows the status never goes back, changes are table-legal and the charge stays the same |
| `Evm.ReorganisationRegresses` | providers/evm.go:168-172 | a reorganisation that drops the transfer does take the status back |
| `RateLimit.RateLimiter.Allow` | services/ratelimit.go:37-49 | without a bucket, or past its end, a fresh one opens; otherwise the event is counted and let through exactly if fewer than the limit came before it |
| `RateLimit.RateLimiter.Cleanup` | services/ratelimit.go:52-61 | the deleting loop removes exactly the buckets that have run out |
| `RateLimit.CleanupMatters` | services/ratelimit.go:37-61 | a cleanup changes the next answer if and only if the event's time lies within the bucket's life, the cleanup's past it, and the bucket is full |
| `RateLimit.CleanupsMatterIff` | services/ratelimit.go:37-61 | over whole runs, whatever the limit: cleanups change no answer if and only if none removes a bucket that the next event of its key, timed before the cleanup, would have been counted in |
| `RateLimit.CleanupNeverMatters` | services/ratelimit.go:37-61 | so they change none when no event that took its time before a cleanup gets the lock after it |
| `RateLimit.CleanupCanUncount` | services/ratelimit.go:37-61 | a concrete run: one event waits for the lock while a cleanup passes it, and a limiter of one event a window lets two through |
| `RateLimit.AtMostTheLimitPerBucket` | services/ratelimit.go:37-49 | from the moment a bucket opens no more than the limit gets through before the next, in whatever order events get the lock |
| `RateLimit.WithinTheBound` | services/ratelimit.go:37-61 | any closed interval one window long lets through at most ((2 * window + lag) / (window + 1) + 1) * (limit - 1) + 1 events of a key, if no event lags further behind an earlier one |
| `RateLimit.FewerThanTwiceTheLimit` | services/ratelimit.go:37-61 | that is at most 2 * limit - 1 when events get the lock in the order of their times |
| `RateLimit.BoundIsReached` | services/ratelimit.go:37-49 | for every limit, window and lag a run reaches that bound |
| `RateLimit.NoBoundForAnyLag` | services/ratelimit.go:37-49 | so for a limit of two or more there is no bound without one on the lag |

## Left out

- QrSymbol.ChooseMask: the penalty rules (services/qrcode.go:433-550) are a parameter; the proof holds for any scoring of pictures.
- QrSymbol.EncodeMatrix: SVG rendering of the returned grid is not modelled.
- QrMatrix.Matrix.PlaceData: requires an odd size of at least 9, which every version has; the final symbol is described outside the format cells only, since the code overwrites data there.
- ReedSolomon.RemainderUnique: stated up to 255 check symbols, beyond which the powers of 2 repeat; the other direction (CodewordVanishes) has no bound.
- Evm.Payment: hexadecimal log fields arrive parsed, with None for text that does not parse; the JSON-RPC calls are inputs, and block arithmetic does not wrap.
- Store.Tables.PostLedgerEntries: account rows are not created; an account is its kind, owner and currency.
- Guarantees.BooksSumToZero: runs contain captures, releases and refunds; manual adjustments are proved balanced one by one (Ledger.ManualAdjustment) but are not actions of the system.
- Guarantees.OneRefundPerOrder: what the provider itself paid out is not modelled; racing admins may both call it (the idempotency key is the only guard) before one insert is refused.
- Actors.RunPayment: Stripe account events, attempt records, notifications and audit rows are left out, since no modelled step reads them.
- JobQueue.Worker.Poll: waiting for the started jobs on shutdown is left out; what the loop meets on each turn is an input.
- Handlers.PaymentReconcileSweep: the age cutoff and the limit of the listing are left out; any list of unfinished intents with a provider reference may come back.
- RateLimit.RateLimiter.Allow: the mutex makes each call atomic; times are those read before the lock is taken, and the order of a run is that of the lock, so they need not agree.
- Handlers.StartPayment: the checkout address and expiry of a session are left out; an intent with a reference and in pending is taken to have an address.
- Outcomes.OrderStartsIff: a provider that is no longer configured when a sweep runs is left out; the sweep would skip its intents until it is.
- Liveness, such as every webhook eventually being applied, is left out; what is proved is what is never done wrong and what stays possible.
- Exactly one sweep outstanding is not claimed: every worker start seeds another job (maintenance.go:17-25).
- Released only once is not claimed: an order can go from accepted through a dispute back to accepted and release again (services/orders.go:30-35).
- HTTP routing, sessions, templates, storage, mail, configuration, cryptography and provider networking are left out.
- Payout totals, wallets, fraud thresholds, pagination and listings are left out as easy members.
