# Goruptor, verified

Goruptor is a small exchange: orders come in over TCP, are validated and deduplicated, pass
through an LMAX-style ring whose journaler writes a JSON-lines write-ahead log, are matched by an
order book, answered when durable, and archived in batches. This project models those pieces and
proves what they promise, singly and together.

| modules | what they are |
|---|---|
| Events | the order event and Go's integer widths |
| Ring, RingSafety, RingTheorems, RingLiveness, RingFailure, RingInterval | the journaled ring buffer as interleaved atomic steps of producers, waiters, journaler, consumer and Close; its invariant; refinement to an unbounded log; draining; fail-stop; the sync interval |
| Heaps, BestPrices | the price heaps with the sift operations of container/heap, and the snapshot's depth-limited scan |
| ReferenceBook, PriceTime | the naive price-time book, and the queue by price and arrival that it must be |
| BookLevels, Matching, OrderBook | the engine's book (maps, heaps, FIFO levels, cached prices and volumes), proved against the naive book |
| WalCodec, WalFile, Wal | the record codec, the scanner, and the file over appends, syncs, crashes and repairs |
| Ingest, TcpBatch | admission with the sharded id set; batched connections |
| Batcher | the archive batcher as interleaved steps of pushers, closers and its worker |
| Exchange, ExchangeSafety, ExchangeTheorems, ExchangeHandlers, ExchangeLiveness | all of it in one state machine, with the engine's book, shutdown, crashes and restarts |

How the pieces fit. The ring and the batcher are state machines because they are concurrent; one
step is one atomic access, lock or channel operation, or journal call. The book, the codec, the
log file, the id set and the connection loop are classes and methods, each proved against a
function on values. The exchange machine takes the steps of the ring and of the batcher as its
own and adds the connection handlers around them. A crash in it leaves some number of events of
the journal file, and opening the file again does not make them durable: a later crash may still
take those that no Sync has covered. That these are exactly the outcomes of a crash of the file at
some byte, followed by the repair of its tail, is proved (`CrashHasByte`, `CrashOfByte`).

Assumptions that the source makes of its callers, and the model with it:

- Fewer than 2^63 tickets are claimed in one process, including those refused after Close.
- The batcher is created with a batch size of at least 1, as NewBatcher demands.
- The journal file holds a byte prefix of what was written to it.
- Both stages of the ring are started before shutdown begins, or never.

Two promises that the code keeps only on a condition, and the condition:

- The engine agrees with the naive price-time rule on positive prices. 0 is its mark of an empty
  side (internal/matching/orderbook.go:58-60, 137), so an order that would trade at price 0, or an
  ask that comes to rest beside one at price 0, derails it: `Process` says if and only if,
  `ZeroPriceDerails` is an input, `PositiveNeverDerails` the case that ingest.Validate leaves.
- The comment on StartConsumer (internal/disruptor/buffer.go:196-197), repeated in
  docs/ARCHITECTURE.md, says that after a journal failure the engine stops having processed
  everything that was on disk. A batch released between the consumer's two loads (line 210 and
  line 213) is left behind (`FailStopCanStrand`), and so is a batch that was appended when the Sync
  behind it failed (`FailedSyncCanStrand`). `StrandedIff` says exactly when nothing is. What always
  holds is that the history is a prefix of the journal (`OneOrder`).

Names in the table are qualified by module and class. Automatic induction is off in every lemma,
so each induction is written out; `hide` statements only keep definitions out of the solver's way.

## Model

| member | source | states |
|---|---|---|
| RingSafety.StepKeeps | internal/disruptor/buffer.go:132-367 | every atomic step of every goroutine keeps the invariant: who holds which ticket, what each stamp means, where the journal and the engine stand, who holds durMu, which wakeups are owed |
| RingSafety.ReachableSafe | internal/disruptor/buffer.go:100-125 | the invariant holds in every state of every run from a new ring |
| RingSafety.ClaimKeepsGate | internal/disruptor/buffer.go:137-144 | a claim gets the next ticket while the ring is open and is refused once bit 63 is set; the 64-bit counter never wraps into a wrong answer |
| RingSafety.CloseKeepsGate | internal/disruptor/buffer.go:361-367 | the three atomic steps of Close compute finalSeq exactly, against any claims in between |
| RingSafety.SlotsDiffer | internal/disruptor/buffer.go:159 | tickets less than one lap apart use different slots |
| RingTheorems.StepRefines | internal/disruptor/buffer.go:39-49 | every step is a step of an unbounded log (accept, close, write, harden, release, process) or invisible in it |
| RingTheorems.RunRefines | internal/disruptor/buffer.go:39-49 | every run, seen as log and marks, is a run of that log from the empty one |
| RingTheorems.LogStaysInOrder | internal/disruptor/buffer.go:46-49 | in the log the marks never cross: processed <= released <= written, and released <= durable when every batch is synced |
| RingTheorems.OneOrder | internal/disruptor/buffer.go:198-325 | engine history is a prefix of the journal, the journal of the claimed events; consumerCursor <= journalCursor <= stamped prefix <= claims |
| RingTheorems.NoOverwrite | internal/disruptor/buffer.go:146-161 | whoever may write a slot finds every older ticket of that slot journaled and processed |
| RingTheorems.StampedReadable | internal/disruptor/buffer.go:84-98 | a stamped, unprocessed slot holds its ticket's event whole and that ticket's stamp |
| RingTheorems.BackpressureExact | internal/disruptor/buffer.go:148-154 | seq - consumerCursor never underflows |
| RingTheorems.AckMeansDurable | internal/disruptor/buffer.go:169-186 | WaitDurable returns nil exactly behind journalCursor; then the event is appended, and synced when SyncInterval is 0; an error only after a failure |
| RingTheorems.FailStop | internal/disruptor/buffer.go:309-343 | after a failed Append or Sync nothing is written, synced or released again, on any continuation |
| RingTheorems.CleanMeansSynced | internal/disruptor/buffer.go:254-322 | not dirty means everything appended is synced |
| RingTheorems.GroupCommit | internal/disruptor/buffer.go:274-286 | a batch is closed only when it is full or the next stamp is missing |
| RingInterval.ElapsedAppendSyncs | internal/disruptor/buffer.go:309-322 | when an Append succeeds with the interval elapsed (or none set), the cursor stays until a Sync has succeeded or the ring has failed, in every run |
| RingInterval.ElapsedStoreIsSynced | internal/disruptor/buffer.go:318-325 | and at the first store of the cursor after it everything written is synced: a power cut loses at most one interval |
| RingInterval.ElapsedIdleSyncs | internal/disruptor/buffer.go:288-292 | an idle journaler with something unsynced and the interval elapsed syncs it before anything else, or fails |
| RingTheorems.NoLostWakeup | internal/disruptor/buffer.go:177-186 | a parked waiter that could return, by progress or by failure, still has a broadcast coming |
| RingTheorems.CloseFixesLog | internal/disruptor/buffer.go:354-367 | once Close has added its bit the set of accepted events is fixed on every continuation |
| RingTheorems.ClaimOutcome | internal/disruptor/buffer.go:140-144 | a claim is refused if and only if Close came first |
| RingTheorems.FinalSeqExact | internal/disruptor/buffer.go:361-367 | finalSeq is the number of tickets handed out before Close |
| RingTheorems.DrainedExit | internal/disruptor/buffer.go:213-218 | without failure a stage that has returned left nothing behind: everything accepted is appended and synced, or processed |
| RingLiveness.NeverRises | internal/disruptor/buffer.go:198-332 | no step inside the unfailed ring raises the work that remains, however the goroutines interleave |
| RingLiveness.HelpfulEnabled | internal/disruptor/buffer.go:146-154 | while something accepted is unprocessed, a named goroutine is able to move |
| RingLiveness.HelpfulProgress | internal/disruptor/buffer.go:209-331 | and its step lowers a well-founded measure |
| RingLiveness.HelpfulStays | internal/disruptor/buffer.go:209-331 | and until it moves, others only lower the measure or leave it the one to move |
| RingLiveness.Drain | internal/disruptor/buffer.go:369-389 | from any reachable point with a working journal there is a run that journals and processes everything, and ends both stages if closed |
| RingFailure.FailedRingEmpties | internal/disruptor/buffer.go:149-154 | in a failed ring every step inside it lowers what is left |
| RingFailure.FailedRingNotStuck | internal/disruptor/buffer.go:173-186 | and while anybody is inside, somebody can move, from the first line of fail() on and with journalFailure waiting for durMu: nobody hangs |
| RingFailure.FailingNeverFarther | internal/disruptor/buffer.go:335-343 | inside fail(), before failedFlag is stored, no step of anybody puts the store farther off |
| RingFailure.FailFinishes | internal/disruptor/buffer.go:335-343 | and it can always be reached |
| RingFailure.FailStopCanStrand | internal/disruptor/buffer.go:196-214 | the promise of the comment fails: a reachable state with the consumer gone and a released event unprocessed |
| RingFailure.FailedSyncCanStrand | internal/disruptor/buffer.go:309-322 | it fails also with the cursor unmoved: a reachable state with an appended event unprocessed, its Sync having failed |
| RingFailure.StrandedIff | internal/disruptor/buffer.go:209-215 | over every run in which the consumer leaves through failedFlag: it has processed the journal up to the cursor of its last load, and that is all of the journal if and only if the cursor did not move between its two loads and the failing call left nothing beyond the cursor |
| Heaps.RootIsBest | internal/matching/heaps.go:3-37 | nobody beats the root of a heap |
| Heaps.PriceHeap.Up | internal/matching/heaps.go:5-11 | sift-up restores heap order and keeps the prices |
| Heaps.PriceHeap.Down | internal/matching/heaps.go:5-19 | sift-down restores heap order of the first n slots, keeps the rest and the prices |
| Heaps.PriceHeap.Push | internal/matching/heaps.go:9-11 | a heap with one more price |
| Heaps.PriceHeap.Pop | internal/matching/heaps.go:13-19 | takes out the best price and leaves a heap of the others |
| BestPrices.Ancestors | internal/matching/orderbook.go:324-326 | a slot from 2^d - 1 on has d earlier slots that it does not beat |
| BestPrices.WindowSuffices | internal/matching/orderbook.go:328-331 | the k best of a heap are the k best of its first 2^k - 1 slots |
| BestPrices.SortUnique | internal/matching/orderbook_test.go:112-130 | sorted arrangements are unique, so "the full sort" is one list |
| BestPrices.SinkIntoPlace | internal/matching/orderbook.go:342-344 | the inner loop is sorted insertion |
| BestPrices.BestPrices | internal/matching/orderbook.go:327-347 | for every k and every heap: the first min(k, n) prices of the full sort |
| ReferenceBook.BestIndexIsBest | internal/matching/reference_test.go:80-89 | the linear search finds the earliest order of the best price |
| ReferenceBook.SweepStops | internal/matching/reference_test.go:38-55 | a sweep stops only when used up or when nothing left crosses |
| ReferenceBook.WithinLimit | internal/matching/orderbook.go:158-231 | no buyer pays more than its limit and no seller gets less; where a rest is left nobody rests who could still trade with it |
| PriceTime.PriceTimePriority | internal/matching/reference_test.go:34-89 | a sweep is the taking of one queue, best price first and then by arrival, whole orders from the front: same trades, same rest, same resting orders |
| PriceTime.QueueExists | internal/matching/reference_test.go:80-89 | every book can be lined up so |
| ReferenceBook.ReplayUncrossed | internal/matching/reference_test.go:34-78 | every book made by any orders is well formed and uncrossed |
| ReferenceBook.SweepConserves | internal/matching/reference_test.go:65-78 | what an order loses, the book loses, and the trades say so |
| ReferenceBook.RunConserves | internal/matching/orderbook.go:163-220 | over any run: bought = traded + resting bids, sold = traded + resting asks |
| ReferenceBook.ReplayConcat | cmd/goruptor-server/main.go:63-74 | replay in two parts is replay of the whole |
| BookLevels.HeadIsBest | internal/matching/orderbook.go:160-164 | the head of the best level is the order that the linear search finds |
| BookLevels.FilledAtPrice | internal/matching/orderbook.go:189-201 | filling it changes the head of its level and no other level |
| Matching.FillLevel | internal/matching/orderbook.go:163-202 | the inner loop: naive rounds on one level, until it or the order is used up |
| Matching.BookSide.RemoveBest | internal/matching/orderbook.go:204-215 | the emptied level leaves map and heap, and the cached best price is right again |
| Matching.BookSide.Sweep | internal/matching/orderbook.go:156-216 | the attack loop emits the naive sweep's trades in order and leaves its book and rest, up to the first trade at price 0; it terminates |
| Matching.BookSide.AddOrder | internal/matching/orderbook.go:87-123 | the order rests at the end of its level at any price; maps, heap, cached price and volume still agree if and only if it is no positive ask beside one at 0 |
| Matching.BookSide.UpdateBestPrice | internal/matching/orderbook.go:126-141 | the cached price becomes the better of the two, 0 counting as none |
| Matching.OfferedConcat | internal/matching/orderbook.go:179-186 | offering trades one by one to a bounded channel keeps the same ones as offering them together |
| Matching.OfferedKeeps | internal/matching/orderbook.go:173-186 | the channel gains the first of the trades, all while there is room |
| OrderBook.OrderBook.Match | internal/matching/orderbook.go:156-295 | matchBuy and matchSell, for any order: afterwards the book is the naive book of the whole history, same queues, if and only if the order does not derail it; the channel gets the naive trades in order, up to the first at price 0, while there is room, or nothing when restoring |
| OrderBook.OrderBook.Process | internal/matching/orderbook.go:145-153 | the same for either side, whatever the channel does |
| OrderBook.OrderBook.OnEvent | internal/matching/handler.go:26-34 | an event has its effect in its own side, price, quantity and id, within its limit, trades included; what rests is last at its level |
| OrderBook.OrderBook.Recover | cmd/goruptor-server/main.go:63-74 | recovery processes the file's events in order, each with that effect, and emits nothing; the book is the naive one if and only if none of them derails it |
| OrderBook.AttackAgrees | internal/matching/orderbook.go:158-216 | the engine's attack is the naive one exactly when nothing trades at price 0 |
| OrderBook.OrderWithinLimit | internal/matching/orderbook.go:155-231 | the trades of Match are within the order's limit |
| OrderBook.TradesByPriority | internal/matching/orderbook.go:116-202 | and they are those of taking the other side's queue by price and arrival |
| OrderBook.EventEffect | internal/matching/handler.go:26-34 | an event's quantity goes to trades and to its own side (side 0 buys), the other side loses what was traded, and what rests, rests last under its id and at its price |
| OrderBook.PositiveNeverDerails | internal/ingest/ingest.go:62-63 | with positive prices no order derails the engine |
| OrderBook.ZeroPriceDerails | internal/matching/orderbook.go:137-158 | a sell of 1 at 0 and a buy of 1 at 5 do |
| OrderBook.SameHistorySameBook | internal/matching/orderbook.go:45-65 | two books with the same history hold the same levels, queues, volumes, best prices and, up to layout, heaps |
| OrderBook.OrderBook.GetSnapshot | internal/matching/orderbook.go:305-319 | equals the snapshot that sorts every price of each side, volumes included: asks upwards, bids downwards, ten at most, none better left out |
| OrderBook.NeverCrossed | internal/matching/orderbook.go:156-295 | no resting buyer pays what a resting seller asks, after any orders |
| OrderBook.OrderBook.BestBidBelowBestAsk | internal/matching/orderbook.go:58-60 | bestBid < bestAsk when both sides have somebody |
| OrderBook.OrderBook.SentinelMeansEmpty | internal/matching/orderbook.go:209-214 | a cached best price is 0 exactly when its side is empty, or 0 is its best price |
| OrderBook.VolumeNeverWraps | internal/ingest/ingest.go:23-29 | with validated quantities no level's sum reaches 2^64 within floor((2^64-1)/10^9) orders |
| OrderBook.OrderBook.CachedVolumeIsSum | internal/matching/orderbook.go:116-122 | TotalVolume is then the exact sum of its queue |
| WalCodec.ParseNumber | internal/storage/wal.go:152-166 | reads the number at the start of the bytes if and only if there is one without leading zeros that fits a uint64; no digit string wraps |
| WalCodec.ParseCanonical | internal/storage/wal.go:145-175 | accepts b with event e if and only if b is the canonical encoding of e |
| WalCodec.EncodeInjective | internal/storage/wal.go:139-141 | two events never share an encoding |
| WalCodec.RecordText | internal/storage/wal.go:139-141 | a record, letter by letter: the six keys, each before the decimal of the field it names |
| WalCodec.RecordShape | internal/storage/wal.go:103-117 | a record has no newline and one closing brace, its last byte |
| WalCodec.CutRecord | internal/storage/wal.go:95-102 | a record cut short is not a record |
| WalFile.Scan | internal/storage/wal.go:103-137 | on any byte prefix of a written file: exactly the events whose records are whole, and the offset after the last of them |
| WalFile.LineText | internal/storage/wal.go:58 | one record a line |
| WalFile.RecoverableExact | internal/storage/wal.go:95-117 | an event is recovered if and only if its record is there up to the closing brace |
| WalFile.RecoverableGrows | internal/storage/wal.go:95-102 | more bytes or more events never recover less |
| Wal.LogFile.RepairTail | internal/storage/wal.go:64-93 | the four branches leave exactly the whole records, each with its newline |
| Wal.WAL.constructor | internal/storage/wal.go:42-60 | opening is repairing, and the file is readable to its end |
| Wal.WAL.Append | internal/storage/wal.go:179-191 | appends the encoding of all events or, failing, its first bytes and refuses from then on |
| Wal.WAL.Sync | internal/storage/wal.go:195-202 | makes all bytes of the file durable, or reports an error |
| Wal.WAL.Close | internal/storage/wal.go:205-216 | idempotent; syncs once more; reports an error of flush, fsync or close |
| Wal.WAL.ReadAll | internal/storage/wal.go:220-238 | returns exactly the events appended, while no write has failed |
| Wal.StepKeeps | internal/storage/wal.go:42-216 | append, sync, close, crash at any byte past the last sync, and reopening keep the file a prefix of what was appended and lose no durable event |
| Wal.HistorySafe | internal/storage/wal.go:38-93 | over unbounded histories of these a durable event stays durable |
| Wal.RecoverySafe | internal/storage/wal.go:38-93 | every reopening leaves the encoding of a prefix of what was appended, containing every event that was ever durable |
| Wal.SyncMakesDurable | internal/storage/wal.go:193-202 | after a Sync everything appended is durable |
| Wal.RepairIdempotent | internal/storage/wal.go:64-93 | repairing a repaired file changes nothing |
| Wal.CrashKeepsDurable | internal/storage/wal.go:38-93 | a crash and a reopening keep at least the durable events and at most the whole records, and what is durable stays the same |
| Wal.CrashCanKeep | internal/storage/wal.go:38-93 | and any number in between is what some crash leaves |
| Ingest.Validate | internal/ingest/ingest.go:56-68 | accepts exactly the orders within the limits, which is what the book and the volumes rely on |
| Ingest.ShardChanged | internal/ingest/ingest.go:184-206 | changing one id's shard changes the union by that id only |
| Ingest.NeighboursApart | internal/ingest/ingest.go:183-186 | consecutive ids are in different shards |
| Ingest.IDSet.Register | internal/ingest/ingest.go:189-198 | the 64 shards are one set: true exactly for a new id, which is then in it |
| Ingest.IDSet.Forget | internal/ingest/ingest.go:201-206 | takes one id out of that set |
| Ingest.IDSet.Len | internal/ingest/ingest.go:209-217 | the shard sizes add up to the size of that set |
| Ingest.Ingress.Admit | internal/ingest/ingest.go:118-134 | Invalid exactly when a limit is broken, Duplicate exactly when none is and the id is taken, Unavailable exactly when the ring refuses a valid new order; published once for a valid, new id, otherwise set and ring are as before |
| Ingest.Ingress.Confirm | internal/ingest/ingest.go:139-153 | nil if and only if the journal has released the order's ticket; then offered to the archive once, whatever the archive says |
| Ingest.Ingress.Submit | internal/ingest/ingest.go:98-113 | the same answers; nil only for an order that was valid and new and is in the released part of the journal |
| TcpBatch.FrameRoundTrip | internal/api/tcp_server.go:229-235 | big-endian frames: every order survives, every 25 bytes are one order |
| TcpBatch.FrameLayout | internal/api/tcp_server.go:229-235 | which bytes of the 25 are order_id, price, quantity and side, most significant first |
| TcpBatch.AcksInOrder | internal/api/tcp_server.go:183-185 | one byte a frame in order, at most one 0, nothing after it |
| TcpBatch.AckOkMeansConfirmed | internal/api/tcp_server.go:23-26 | AckOK if and only if admitted and confirmed |
| TcpBatch.AckBytes | internal/api/tcp_server.go:19-34 | 0, 1, 2 and 3 exactly for refused or unconfirmed, confirmed, malformed and already used |
| TcpBatch.ConfirmsMean | internal/api/tcp_server.go:254-263 | Confirm is asked only of admitted frames, each with its own order and ticket, and of every one answered AckOK |
| TcpBatch.ReadBatch | internal/api/tcp_server.go:208-252 | whole frames in order, each admitted once, at most 256, nothing behind a refusal |
| TcpBatch.ConfirmBatch | internal/api/tcp_server.go:254-268 | the answers of a batch are those of its frames one at a time, and each admitted frame's own order and ticket is confirmed, in order, up to the first rejection |
| TcpBatch.HandleConnection | internal/api/tcp_server.go:186-275 | however frames fall into batches, the ACK stream and the calls of Confirm are those of one frame at a time; a failed write only cuts them short |
| Batcher.StepKeeps | internal/storage/batcher.go:105-185 | every step of pushers, closers and worker keeps the invariant |
| Batcher.SinkInOrder | internal/storage/batcher.go:147-185 | the batches concatenate to the accepted events in channel order, each non-empty and at most batchSize |
| Batcher.FlushWhenFull | internal/storage/batcher.go:164-172 | a batch is handed over on a receive exactly when it is full |
| Batcher.ArchivedExactly | internal/storage/batcher.go:105-177 | when the worker is done they are exactly the events whose Push returned nil, whoever is still being refused |
| Batcher.NoChannelPanic | internal/storage/batcher.go:105-124 | nobody sends on the closed channel or closes it twice |
| Batcher.InsideLowers | internal/storage/batcher.go:118-177 | every step inside lowers what is left |
| Batcher.NeverStuck | internal/storage/batcher.go:118-177 | until all are out and the worker is done after Close, somebody can move |
| ExchangeSafety.StepKeeps | internal/app/shutdown.go:49-108 | every step of handlers, ring, batcher, shutdown and crash keeps the invariant of the whole |
| ExchangeSafety.RegisterKeeps | internal/ingest/ingest.go:118-126 | registering and entering Publish keeps ids exclusive, with other handlers racing |
| ExchangeSafety.PublishedKeeps | internal/ingest/ingest.go:126-134 | a published ticket becomes pending; a refused order goes on to Forget |
| ExchangeSafety.PushedKeeps | internal/ingest/ingest.go:148-153 | the answered ticket is durable, and archived unless Push failed |
| ExchangeSafety.ShutdownKeeps | internal/app/shutdown.go:70-105 | each stop finds what it depends on stopped, or the shutdown reports it |
| ExchangeSafety.CrashKeeps | cmd/goruptor-server/main.go:56-90 | a crash and a restart with the recovered ids keep ids unique and answered orders durable, also when the crash takes recovered events that no Sync had covered |
| ExchangeTheorems.OncePerOrder | internal/ingest/ingest.go:93-153 | over any history of retries, failures, crashes and restarts no order_id is published, journaled or processed twice, and only valid orders are |
| ExchangeTheorems.CrashHasByte | internal/storage/wal.go:38-93 | what a crash of the exchange leaves, a crash of its file at some byte and the repair leave |
| ExchangeTheorems.CrashOfByte | internal/storage/wal.go:38-93 | and the other way round, for every byte |
| ExchangeTheorems.DurableGrows | internal/disruptor/buffer.go:263-325 | over any history, crashes included, the durable part of the file only grows |
| ExchangeTheorems.AnsweredIsDurable | internal/ingest/ingest.go:136-141 | with fsync per batch every order ever answered AckOK, by this process or an earlier one, is in the durable part of the file at any later time |
| ExchangeTheorems.CleanShutdown | internal/app/shutdown.go:37-107 | after a shutdown with no error and no expired deadline: AckOK = journal = engine history = archive, each order once, and the whole file is durable |
| ExchangeTheorems.TradesClosedAfterEngine | internal/app/shutdown.go:44-49 | the trade channel is closed only under a stopped engine |
| ExchangeTheorems.BookKept | internal/matching/handler.go:26-34 | the book that recovery and OnEvent build step by step is always the naive book of the processed events |
| ExchangeTheorems.BookIsReplay | internal/matching/handler.go:26-34 | at any point the live book is the replay of the file's first events, up to consumerCursor, and any OrderBook object given them holds it level by level |
| ExchangeTheorems.NeverDerails | internal/ingest/ingest.go:55-68 | no event in any file derails the engine |
| ExchangeTheorems.LiveBook | cmd/goruptor-server/main.go:56-95 | a new OrderBook, Recover and OnEvent for each live event end, in every history, in the live book |
| ExchangeTheorems.RestartRebuildsBook | cmd/goruptor-server/main.go:56-75 | after a clean shutdown, whenever the process ends, the next one recovers the live book, and two OrderBook objects given the one's and the other's events are the same |
| ExchangeTheorems.CrashForgetsNothing | internal/disruptor/buffer.go:46-49 | with fsync per batch a crash at any moment loses nothing the engine has processed: the recovered book is the live one carried on |
| ExchangeHandlers.FinishPublish | internal/disruptor/buffer.go:132-167 | a handler's Publish can come to its end, whatever the other goroutines are doing |
| ExchangeHandlers.FinishWait | internal/disruptor/buffer.go:173-186 | and its WaitDurable, parked or not |
| ExchangeHandlers.SettleBatcher | internal/storage/batcher.go:105-113 | and its Push |
| ExchangeHandlers.FinishHandlers | internal/app/shutdown.go:39-40 | so every open connection can end, its orders published, confirmed, archived and answered |
| ExchangeLiveness.CanShutDownCleanly | internal/app/shutdown.go:37-107 | from any point with the server up and nothing failed, orders in flight and all, a shutdown can run to its clean end, and every order that had a ticket is answered AckOK |

## Left out

- The ring without a journal (NewRingBuffer alone): the consumer then reads the stamps itself. The server never runs it.
- Real time: idle spinning, sleeps, SyncInterval, tickers and context deadlines are choices of the environment that may fall either way at any moment.
- Fairness of the scheduler: the liveness theorems say which step is possible and that it makes progress, not that the Go runtime takes it.
- RLock behind a waiting Lock, which Go's RWMutex delays: the batcher machine lets the reader in, so it has more interleavings than Go.
- Error texts: an error is which error it is. journalFailure, which only reads failErr under durMu, is one step, possible when durMu is free.
- PriceLevel and container/list: a level is a value in the map of its side, written back after each round of the attack loop, and its queue is a sequence; aliasing of the level pointer is not captured. The Side of a queued order is that of its side of the book; the source never reads it again.
- matchBuy and matchSell are one method with the two sides as arguments, as are the two halves of addOrder and of the heaps.
- ob.mu: the book's methods run one at a time under it.
- scanSlow outside byte prefixes of written files: the JSON decoder reads one whole canonical record or reports an error. What it makes of other bytes (spaces, reordered keys, damage inside a record) is encoding/json, which is not part of this model; with it goes the assumption of repairTail that the one byte after the last record is a newline.
- ReadSlice's full buffer: a record is far shorter than 256 KiB.
- I/O errors inside repairTail: a failed Truncate or Write leaves a file that the next opening repairs like one cut by a crash.
- ParseSide, HTTP routes, WebSockets, candles, SQL text and execution, SQS workers: calls into libraries. The trade channel is a bounded queue that may drop, the sink a log of the batches it was given.
- A sink that returns an error: its batch counts as handed over, as the batcher counts it.
- Accept, backoff and connection bookkeeping of TCPServer: a handler appears while serving and is waited for at shutdown.
- The exchange machine does not bound a batch by 256 frames and does not keep the answers to invalid and duplicate frames; TcpBatch does.
- What the engine does after an order at price 0 has derailed it: nothing is claimed of its book from there on. Validation keeps such orders out.
- ExchangeLiveness.CanShutDownCleanly: asks that the handlers' next tickets still fit below 2^63.
- OrderBook.OrderBook.Recover: asks that no event but the last derails the book; no file of the exchange holds one that does (NeverDerails).
