# An electronic exchange and the client that follows it, in Dafny

The project models a small trading ecosystem written in C++ and proves what its
parts promise each other:

- the **matching order book**: two rings of price levels with a ring of orders in
  each, a direct-address price table and a client table, refined by a plain
  price-time matcher on sorted sequences (`PriceTime`, `Matching`, `Ladder`,
  `Rings`, `BookMemory`, `BookChanges`, `BookState`, `BookSteps`, `Collisions`,
  `OrderBook`, `BookRuns`, `BookAsWritten`);
- the **market-data log, the snapshot synthesizer and gap recovery** over two
  lossy feeds (`MarketLog`, `Snapshot`, `Exchange`, `Consumer`, `Recovery`,
  `InTurn`, `CatchUp`, `RecoveryLimits`, `ConsumerAsWritten`);
- the **client's order slots** over FIFO channels, the pre-trade gate and the
  position accounts (`ClientLog`, `Slots`, `SlotRuns`, `SlotQuotes`, `OrderManager`,
  `Risk`, `Position`);
- the **lock-free queue** under every interleaving and the **object pool**
  (`LockFreeQueue`, `MemPool`);
- the **order server's ingress**: record reassembly, session numbering and
  arrival-time sequencing (`Wire`, `Sequencing`, `Ingress`).

`Types` holds the shared messages and `Picking` subsequences chosen by a test.
`dafny verify dfyconfig.toml` checks everything.

## How to read it

Code that changes fields in place is a class whose methods are proved against a
specification function; the laws are lemmas about those functions and about runs
of the whole composition. A block of a pool is an address and a link field is a
map from addresses, so that `p->next = q` is `next[p := q]`.

Where the text departs from its own stated intent, the model follows the intent
and the departure is named at the member; a lemma then says exactly when the text
as written would have been right:

| where | repair in the model | about the text as written |
|---|---|---|
| me_order_book.cpp:33, :131-138 | the head of a side is written back to the book | `BookAsWritten.NothingMatches` |
| me_order_book.cpp:42, :55 | the walk moves on while the level it stands on is better, and may pass the last level | `BookAsWritten.WalkKeepsOrderIff`, `BookAsWritten.ThreeBidsOutOfOrder` |
| me_order_book.cpp:185 | CANCEL carries the market order id | `MarketLog.CancelAsWrittenFaithfulIff`, `MarketLog.FirstCancelAsWrittenFails` |
| mem_pool.h:67 | the scan wraps to 0 | `MemPool.ScanAsWrittenRightIff`, `MemPool.AsWrittenWearsOut` |
| market_data_consumer.cpp:30, :42, :108-111, :160, market_data_consumer.h:21 | snapshot messages are counted by the snapshot counter from START on, recovery clears the queues when it begins, the next number follows the last message taken, the first is 1 | `ConsumerAsWritten.NothingDeliveredAsWritten` |
| me_order_book.h:39, :63, snapshot_synthesizer.h:40 | the tables of raw pointers start null; the text leaves them uninitialised | |
| market_data_publisher.cpp:51-54 | the hand-over to the synthesizer is done | |
| order_server.cpp:32 | requests are checked against the incoming counter | `Ingress.AsWrittenAcceptsIff` |
| position_info.h:77 | the total is realised plus unrealised | `Position.TotalAsWritten` |
| order_manager.cpp:17, :37, :57 | the built request is sent, and the gate is asked | |

## Model

| member | source | states |
|---|---|---|
| PriceTime.SweepShape | exchange/matcher/me_order_book.cpp:231-257 | The matching loop consumes a prefix of the opposite side, cuts at most one more order, and ends only with nothing left, an empty side, or a best price that does not cross |
| PriceTime.AddKeepsOk | exchange/matcher/me_order_book.cpp:102-122 | An add keeps both sides strictly in price-time order, ids distinct and every bid below every ask |
| PriceTime.CancelKeepsOk | exchange/matcher/me_order_book.cpp:168-193 | A cancel, found or not, keeps the same invariant |
| PriceTime.RunKeepsOk | exchange/matcher/me_order_book.h:52-60 | After every run of admissible requests the best bid is strictly below the best ask, so no price is live on both sides and one table serves both |
| PriceTime.NextPriorityIsLast | exchange/matcher/me_order_book.cpp:70-78 | The priority handed out is above every live priority at that price |
| PriceTime.NextPriorityBehind | exchange/matcher/me_order_book.cpp:76-77 | It is one more than that of the last order there |
| Matching.SweepClosedForm | exchange/matcher/me_order_book.cpp:195-257 | Every fill in closed form: its size is what the better orders could not absorb within the limit, and both streams are, fill by fill, two responses and two updates written out in their fields |
| Matching.FillInFull | exchange/matcher/me_order_book.cpp:205-228 | Fill j of a sweep: client, ids, side, price of the resting order, quantity and remainder in what each owner is told, and the trade and the resting order's end or remainder in what the market is told |
| Matching.AddInFull | exchange/matcher/me_order_book.cpp:102-122 | A whole add: one acceptance, the fills, the announcement of what is left, and its place behind every order at its price or better with the next priority |
| Matching.CancelInFull | exchange/matcher/me_order_book.cpp:182-191 | A whole cancel of a resting order: that order alone leaves, and both messages name it as it was |
| Matching.CancelOfNothing | exchange/matcher/me_order_book.cpp:170-180 | A cancel of an order that does not rest is rejected, one for an impossible client ignored, and the book stays |
| Matching.PriceTimePriority | exchange/matcher/me_order_book.cpp:231-257 | An order trades only if every better one is consumed in full, never outside the incoming limit |
| Matching.SweepConserves | exchange/matcher/me_order_book.cpp:195-229 | Taker fills, maker fills and TRADE updates of one order add up to the same amount, which plus the leftover is the order's quantity and which is what left the book |
| Matching.RunConserves | exchange/matcher/me_order_book.cpp:102-257 | Over any run, accepted quantity equals resting plus cancelled plus twice traded quantity |
| Rings.RingPut | exchange/matcher/me_order_book.cpp:46-49 | The four link writes spell the ring with the newcomer in its place, in both directions |
| Rings.RingDrop | exchange/matcher/me_order_book.cpp:133-134 | The two unlinking writes spell the ring without the element |
| BookState.AppendStep | exchange/matcher/me_order_book.cpp:88-99 | Queueing an order behind its level keeps rings, price table and client table exact and acts on the price-time side as insertion does |
| BookState.OpenStep | exchange/matcher/me_order_book.cpp:82-87 | Opening a level does the same |
| BookState.UnlinkStep | exchange/matcher/me_order_book.cpp:152-165 | An order leaving a level that keeps others leaves every structure exact |
| BookState.CloseStep | exchange/matcher/me_order_book.cpp:124-151 | The last order of a level takes the level, its table entry and, if it was the head, the head along |
| Collisions.NoCollisionIff | exchange/matcher/me_order_book.h:48-63 | The table entry of a price is free or its own exactly when no other live price shares it |
| Collisions.AddOrderKeepsIff | exchange/matcher/me_order_book.cpp:80-100 | The writes of an order that rests leave rings and tables that some reading makes sound if and only if no live price other than its own shares its table entry |
| Collisions.TwoPricesCollide | exchange/matcher/me_order_book.h:88-90 | A bid at 100 and one at 356 are enough to reach the other case |
| OrderBook.FindPlace | exchange/matcher/me_order_book.cpp:39-57 | The walk stops on the level before which the new price belongs |
| OrderBook.MEOrderBook.AddOrdersAtPrice | exchange/matcher/me_order_book.cpp:25-68 | The new level is linked at its sorted place and entered in the table, and the head moves exactly if the level is best |
| OrderBook.MEOrderBook.GetNextPriority | exchange/matcher/me_order_book.cpp:70-78 | The level's last order decides the priority the price-time book would give |
| OrderBook.MEOrderBook.AddOrder | exchange/matcher/me_order_book.cpp:80-100 | The linked book then stands for the price-time book with the order inserted |
| OrderBook.MEOrderBook.RemovePriceLevel | exchange/matcher/me_order_book.cpp:124-144 | The level leaves ring and table and the head moves on exactly if it was the head |
| OrderBook.MEOrderBook.RemoveOrder | exchange/matcher/me_order_book.cpp:146-166 | The linked book stands for the price-time book without that order |
| OrderBook.MEOrderBook.Match | exchange/matcher/me_order_book.cpp:195-229 | One fill: the two responses and the two updates field by field, both at the resting order's price, and the new book |
| OrderBook.MEOrderBook.CheckForMatch | exchange/matcher/me_order_book.cpp:231-257 | The loop computes the whole sweep, with leftover plus resting orders as its measure |
| OrderBook.MEOrderBook.Add | exchange/matcher/me_order_book.cpp:102-122 | The linked book refines the price-time matcher on an add: book, responses and updates |
| OrderBook.MEOrderBook.Cancel | exchange/matcher/me_order_book.cpp:168-193 | The same for a cancel, including the rejected one and the ignored one |
| BookRuns.ProcessClientRequest | exchange/matcher/matching_engine.cpp:33-49 | A dispatched request acts on the linked book as on the price-time book |
| BookRuns.ServeAll | exchange/matcher/matching_engine.cpp:76-88 | Every run of requests keeps rings, tables and heads sound and yields the book, responses and updates of the price-time run, balanced |
| BookAsWritten.WalkKeepsOrderIff | exchange/matcher/me_order_book.cpp:39-66 | As written a side stays sorted if and only if it had one level or the new price is worse than all |
| BookAsWritten.ThreeBidsOutOfOrder | exchange/matcher/me_order_book.cpp:41-53 | As written, bids at 100, 101 and 102 in turn leave the ring 102, 100, 101 |
| MarketLog.ProcessLog | exchange/matcher/me_order_book.cpp:119-120 | Replaying what one request publishes turns an exact copy of the resting orders into an exact copy of the next ones, with no ASSERT of the synthesizer firing |
| MarketLog.CancelAsWrittenFaithfulIff | exchange/matcher/me_order_book.cpp:185-189 | Published with the client's order id, a cancel keeps the copy exact if and only if the two ids are equal |
| MarketLog.FirstCancelAsWrittenFails | exchange/matcher/me_order_book.cpp:185-189 | A client's first order, numbered 7 and cancelled, ends the synthesizer with an ASSERT |
| Exchange.HandleKeeps | exchange/matcher/matching_engine.cpp:33-49 | One request for any ticker keeps every book in order and the fold of the stream equal to the resting orders of all books |
| Exchange.RunKeeps | exchange/matcher/matching_engine.cpp:76-88 | So does every run of requests: the whole stream is a legal log and its fold is exactly the resting orders |
| Exchange.TickersApart | exchange/matcher/matching_engine.cpp:33-49 | Over any run each ticker's book, answers and updates are those of its own requests alone, in their order |
| Exchange.Follow | exchange/market_data/snapshot_synthesizer.cpp:134-153 | Fed a whole stream numbered from 1, the synthesizer fails no ASSERT, holds the fold of the stream, and every round it sends on the way is that of the updates so far |
| Snapshot.SnapshotSynthesizer.AddToSnapshot | exchange/market_data/snapshot_synthesizer.cpp:31-75 | What ADD, MODIFY and CANCEL do to their row and that no other row changes, the counter, and precisely when an ASSERT ends the process |
| Snapshot.SnapshotSynthesizer.PublishSnapshot | exchange/market_data/snapshot_synthesizer.cpp:77-132 | The messages are START, for each ticker CLEAR and its orders by ascending id, END, numbered consecutively from 0 |
| Snapshot.RoundInFull | exchange/market_data/snapshot_synthesizer.cpp:80-128 | Both markers of a round name the last update taken, and each ticker's CLEAR stands just before its orders |
| Snapshot.UpdateInStep | exchange/market_data/snapshot_synthesizer.cpp:31-75 | A client that lists the orders by ascending id keeps doing so under every legal update |
| Snapshot.SnapshotRoundTrip | exchange/market_data/snapshot_synthesizer.cpp:77-132 | From any prior client state, replaying a snapshot restores every live order |
| Snapshot.TimePriority | exchange/market_data/snapshot_synthesizer.cpp:106-115 | The restored client has, at every price, exactly the exchange's queue in the exchange's order |
| Consumer.MarketDataConsumer.GatherSnapshot | trading_system/market_data/market_data_consumer.cpp:6-59 | The first loop decides between waiting, a gap, and a whole round with its body |
| Consumer.MarketDataConsumer.DrainIncrementals | trading_system/market_data/market_data_consumer.cpp:61-90 | The second loop collects the queued incrementals after the snapshot or finds a gap |
| Consumer.MarketDataConsumer.CheckSnapshotSync | trading_system/market_data/market_data_consumer.cpp:5-114 | The whole new state of the consumer in each case |
| Consumer.MarketDataConsumer.EnqueueMessage | trading_system/market_data/market_data_consumer.cpp:116-128 | A message joins its ordered queue, a repeated snapshot number first clears it, and the check follows |
| Consumer.MarketDataConsumer.RecvCallback | trading_system/market_data/market_data_consumer.cpp:138-185 | A batch of messages from either socket, one after the other; outside recovery the expected incrementals are all delivered in order, another number begins recovery with that message queued, and snapshot messages change nothing |
| Recovery.SnapshotPlusIncrementals | trading_system/market_data/market_data_consumer.cpp:98-103 | A snapshot plus the incrementals after it makes the book of the whole history, whatever was delivered before |
| Recovery.WholeRound | trading_system/market_data/market_data_consumer.cpp:18-59 | Behind a START, of the messages of one round only all of them pass the completeness test, and their body is the published one |
| Recovery.RecoverySafety | trading_system/market_data/market_data_consumer.cpp:5-185 | In every run with loss, repetition and reordering on both feeds in which each completed snapshot queue holds one round behind its START, what was delivered makes the book of the first m updates for some m, and outside recovery m + 1 is expected next |
| Recovery.CaughtUpMatchesExchange | trading_system/market_data/market_data_consumer.cpp:169-178 | In such a run a consumer that has caught up has the exchange's queue at every price, in time order |
| CatchUp.LosslessFeed | trading_system/market_data/market_data_consumer.cpp:169-178 | From start-up, a feed that loses nothing is delivered exactly, however it is cut into reads, and the next number follows its last |
| CatchUp.Recover | trading_system/market_data/market_data_consumer.cpp:92-113 | After a gap, the queued stretch a + 1 to m and a whole round s between end the recovery: the round and updates s + 1 to m are delivered and m + 1 is expected |
| CatchUp.JoinLate | trading_system/market_data/market_data_consumer.cpp:138-185 | A consumer that starts at any update, hears one whole round and then loses nothing ends with the book of the whole stream, expecting the next update |
| InTurn.WholeIsOneRoundIff | trading_system/market_data/market_data_consumer.cpp:54-63 | A complete queue whose numbers joined in turn behind a START was published in one round if and only if START and END carry the same number |
| InTurn.CompletedIsOneRoundIff | trading_system/market_data/market_data_consumer.cpp:116-128 | That holds of every queue completed in any run in which snapshot messages arrive in turn, with any loss, and each START joins an empty queue |
| InTurn.TestedIsRun | trading_system/market_data/market_data_consumer.cpp:138-185 | If in addition START and END of each completed queue agree, the run is one of those `RecoverySafety` and `CaughtUpMatchesExchange` speak of |
| InTurn.TestedRecoverySafety | trading_system/market_data/market_data_consumer.cpp:5-185 | So in every run in which both tests pass what was delivered makes the book of the first m updates, and outside recovery m + 1 is expected next |
| RecoveryLimits.SplicedRoundsMislead | trading_system/market_data/market_data_consumer.cpp:54-63 | The agreement test cannot be left out: a run from start-up, with nothing but loss and each START joining an empty queue, ends out of recovery with a cancelled order in the book |
| RecoveryLimits.LateStartMisleads | trading_system/market_data/market_data_consumer.cpp:116-128 | Nor can the entry test: a run in which START and END always agree ends with the same wrong book |
| ConsumerAsWritten.NothingDeliveredAsWritten | trading_system/market_data/market_data_consumer.cpp:25-44 | As written, starting at 0, the consumer delivers nothing in any run and never leaves recovery |
| ClientLog.SweepTellsMaker | exchange/matcher/me_order_book.cpp:209-212 | A resting order's owner is told of each of its fills, and of nothing else, down to what still rests |
| ClientLog.AddTellsOwner | exchange/matcher/me_order_book.cpp:105-108 | A new order's owner gets one acceptance at full size, then fills down to what rests |
| ClientLog.CancelTells | exchange/matcher/me_order_book.cpp:168-193 | A cancel closes its own order, naming the remainder, and touches no other |
| ClientLog.OrderLife | exchange/matcher/me_order_book.cpp:102-229 | Over any run, an order's responses account for every unit of its quantity |
| OrderManager.OrderManager.NewOrder | trading_system/strategy/order_manager.cpp:6-25 | The slot, the id counter and the request sent |
| OrderManager.OrderManager.CancelOrder | trading_system/strategy/order_manager.cpp:27-44 | The slot and the request sent |
| OrderManager.OrderManager.MoveOrder | trading_system/strategy/order_manager.cpp:46-72 | A CANCEL goes out and the slot waits if and only if it is LIVE and price or quantity differs; a NEW with the asked price and clip if and only if the slot is free and the gate allows; otherwise nothing changes |
| OrderManager.OrderManager.MoveOrders | trading_system/strategy/order_manager.h:21-27 | The bid first, then the ask |
| OrderManager.OrderManager.OnOrderUpdate | trading_system/strategy/order_manager.h:29-55 | Only the slot of the response's ticker and side changes, by the kind of response alone |
| Slots.OwnIsAdmissible | trading_system/strategy/order_manager.cpp:6-25 | The client's own next request never reuses a live id |
| Slots.SideFindsOrder | trading_system/strategy/order_manager.h:32 | Choosing responses by ticker and side, as the slots do, chooses those an order id would choose |
| Slots.ServeKeeps | exchange/matcher/me_order_book.cpp:178-183 | Serving any request of any client keeps every slot in step with its order at the exchange |
| SlotRuns.SlotSafety | trading_system/strategy/order_manager.h:29-55 | In every run each response on its way to a slot belongs to the slot's current order, and at most one order per slot is live |
| SlotRuns.Quiescent | trading_system/strategy/order_manager.cpp:46-72 | With both channels drained no slot waits, and a slot is LIVE exactly when its order rests, with the same quantity |
| SlotQuotes.QuotesStand | trading_system/strategy/order_manager.cpp:46-72 | With both channels drained a LIVE slot's order, and no other of the client's on that side, rests at the slot's price and quantity |
| SlotQuotes.MoveOfLiveSlot | trading_system/strategy/order_manager.cpp:49-53 | Then a move of a LIVE slot sends nothing if and only if the book already shows exactly the asked quote, and otherwise cancels the one shown |
| SlotRuns.HoldingsAreFills | trading_system/strategy/position_info.h:47 | In every run the booked position is bought less sold over the fills the client was given, and the true holding over all fills the exchange has addressed to it; nothing is lost between them |
| SlotRuns.PositionLimit | trading_system/strategy/risk_manager.h:37-46 | In every run position plus open buys stays at most the maximum and position minus open sells at least its negation, for the booked position and for the true holding, and no more is open than one order may be |
| SlotRuns.ZeroClipSticks | trading_system/strategy/order_manager.cpp:49-53 | A zero clip leaves its slot PENDING_CANCEL for good, for every later move |
| Risk.GateDecides | trading_system/strategy/risk_manager.h:37-46 | Which of the four answers comes when, exactly |
| Risk.MachineCheckAgrees | trading_system/strategy/risk_manager.h:37-46 | Computed on int32 values the gate gives the same answer as on unbounded integers when the limits are below 2^30 and the position is within its limit |
| Position.PositionInfo.AddFill | trading_system/strategy/position_info.h:40-81 | The new position, open costs, realised and unrealised profit |
| Position.PositionInfo.UpdateBBO | trading_system/strategy/position_info.h:83-101 | Revaluation at the middle price, or nothing when flat or one side is missing |
| Position.PnlIdentity | trading_system/strategy/position_info.h:40-101 | After any fills and quotes: realised profit is cash plus signed open cost, the side not held costs nothing, the total is cash plus the position at the last price, and the volume is all that was executed |
| Position.CloseKeepsAverage | trading_system/strategy/position_info.h:56-57 | A partial close keeps the average price of what is held |
| Position.OpeningRealisesNothing | trading_system/strategy/position_info.h:51-52 | A fill that opens or grows the position realises nothing and adds its value to the open cost |
| Position.ClosingRealises | trading_system/strategy/position_info.h:56-60 | A fill against the position realises, on exactly what it closes, the difference to the average price of what was held |
| Position.FillSplits | trading_system/strategy/position_info.h:40-77 | One fill and the same quantity in two parts at one price leave the same accounts, flips included |
| Position.TotalAsWritten | trading_system/strategy/position_info.h:77 | The sum as written is the profit if and only if realised and unrealised are equal; when flat, only if no money was made |
| Position.MachineAfterExact | trading_system/strategy/position_info.h:47 | The unsigned multiply-and-add is signed addition whenever the result fits in int32 |
| Position.MachineRunExact | trading_system/strategy/position_info.h:41-65 | While the position stays within 46340 either way, 32-bit arithmetic computes the mathematical run |
| Position.SafeBoundIff | trading_system/strategy/position_info.h:41-65 | All runs within n either way are computed exactly if and only if n is at most 46340 |
| Position.FlipTestWraps | trading_system/strategy/position_info.h:61-64 | Selling one of 46342 is taken for a flip and books the open cost on the wrong side |
| LockFreeQueue.LFQueue.GetNextToWriteTo | common/lf_queue.h:16-18 | The slot holds an element that waits if and only if at least as many wait as the ring has slots |
| LockFreeQueue.LFQueue.UpdateNextToWriteTo | common/lf_queue.h:20-23 | The slot's value joins the back of the queue, whatever the ring holds |
| LockFreeQueue.LFQueue.GetNextToRead | common/lf_queue.h:27-29 | Null exactly when nothing or whole laps wait, else the oldest element |
| LockFreeQueue.LFQueue.UpdateReadIndex | common/lf_queue.h:31-35 | The oldest element leaves; the ASSERT fails exactly on the empty queue |
| LockFreeQueue.ReadsWhatWasProduced | common/lf_queue.h:16-40 | In every interleaving with a spare slot: what was read is a prefix of what was produced, the slot being written is never the one being read, nothing is found exactly when nothing is unread, and for a reader that tests the size no ASSERT fires |
| LockFreeQueue.PublishesWhatWasWritten | common/lf_queue.h:16-23 | In every interleaving what is published, with the value at hand, is exactly what the producer wrote, in order |
| LockFreeQueue.ReaderCatchesUp | common/lf_queue.h:27-35 | From any point of any run at which the reader waits and no publication is half done, the reader alone takes everything published, testing the size or not |
| LockFreeQueue.FullLooksEmpty | common/lf_queue.h:27-29 | Without a spare slot nothing is lost, but the reader finds nothing exactly when the ring is empty or full |
| LockFreeQueue.FilledRingLooksEmpty | common/lf_queue.h:27-29 | A producer that fills a new ring of any size leaves a reader that finds nothing |
| LockFreeQueue.OverrunHitsOldest | common/lf_queue.h:16-18 | The next write hits an unread element exactly when the ring is full, and then the oldest |
| LockFreeQueue.AssertFiresIff | common/lf_queue.h:31-35 | After any reader has advanced, the size is 0 if and only if the producer has published the index but not the size of the only element |
| LockFreeQueue.UntestedReaderFails | exchange/matcher/matching_engine.cpp:80-85 | The interleaving in which the reader that does not test the size ends the process |
| MemPool.MemPool.UpdateNextFreeIndex | common/mem_pool.h:58-76 | The scan ends, on the first free block going around, and reports exhaustion exactly when no block is free |
| MemPool.MemPool.Allocate | common/mem_pool.h:20-35 | The block was free and is the only one to change; the call fails exactly when it takes the last one |
| MemPool.MemPool.Deallocate | common/mem_pool.h:37-48 | The block becomes free; foreign and free blocks are refused |
| MemPool.FirstFreeUnique | common/mem_pool.h:58-76 | Next-fit leaves no choice of block |
| MemPool.Capacity | common/mem_pool.h:58-76 | At most n - 1 owners hold blocks, and one more can be served exactly while fewer do |
| MemPool.AllocatorSafety | common/mem_pool.h:20-48 | In every run no block has two owners and every block handed out was free and unowned |
| MemPool.ScanAsWrittenRightIff | common/mem_pool.h:61-68 | As written the scan is next-fit if and only if some block from its start on is free |
| MemPool.AsWrittenWearsOut | common/mem_pool.h:61-68 | As written a pool of n makes at most n - 1 allocations in its whole life, whatever is given back |
| Wire.DecodeEncode | exchange/order_server/client_request.h:35-66 | A record read from its bytes is the record written |
| Wire.EncodeDecode | exchange/order_server/client_request.h:35-66 | Every 38 bytes are the record of exactly one request |
| Wire.Layout | exchange/order_server/client_request.h:37-66 | Which byte of the record holds which digit of which field, lowest byte first |
| Wire.ChunkingIrrelevant | exchange/order_server/order_server.cpp:10-51 | Any split of a byte stream into receives yields the same requests and the same rest |
| Wire.SessionRoundTrip | exchange/order_server/order_server.cpp:10-51 | Whatever a client sends, however its bytes are cut, is taken exactly and in order |
| Wire.TCPSocket.Arrive | common/tcp_socket.cpp:39-58 | Received bytes join the valid ones |
| Wire.TCPSocket.Compact | exchange/order_server/order_server.cpp:47-50 | The unread bytes move to the front without overlap |
| Sequencing.Sort | exchange/order_server/fifo_sequencer.h:51 | A permutation ordered by receive time, and no more |
| Sequencing.EverySortKeepsIff | exchange/order_server/fifo_sequencer.h:21-23 | A sort by time is bound to keep a client's order if and only if its receive times strictly rise |
| Sequencing.StableKeepsIff | exchange/order_server/fifo_sequencer.h:21-23 | A stable sort keeps it if and only if they do not fall |
| Ingress.OrderServer.AddClientRequest | exchange/order_server/fifo_sequencer.h:33-38 | The request joins the pending ones; the process ends exactly when 1024 are pending |
| Ingress.OrderServer.HandleRequest | exchange/order_server/order_server.cpp:13-44 | A request is accepted if and only if its client was unbound or bound to this socket, its number is the next one, and fewer than 1024 are pending; binding, counter and the end of the process likewise |
| Ingress.OrderServer.RecvCallback | exchange/order_server/order_server.cpp:10-51 | All complete records in order, the rest of less than one record kept, and the copy never overlaps its source |
| Ingress.OrderServer.SequenceAndPublish | exchange/order_server/fifo_sequencer.h:40-61 | A sorted permutation of the pending requests goes out and nothing stays pending |
| Ingress.IngressOrder | exchange/order_server/order_server.cpp:16-44 | In every run each client's accepted requests are numbered 1, 2, 3, ... from one socket, and published plus pending is exactly accepted |
| Ingress.HonestSessionTaken | exchange/order_server/order_server.cpp:16-44 | In every run the server survives, a client that numbers its requests 1, 2, 3, ... on one socket has exactly those accepted, in order, whatever others send |
| Ingress.EngineSeesSession | exchange/order_server/fifo_sequencer.h:40-61 | With rising receive times per batch the engine gets each client's requests numbered 1, 2, 3, ... |
| Ingress.NextBatchKeptIff | exchange/order_server/fifo_sequencer.h:40-61 | At any point of any run that condition is exact for the next batch |
| Ingress.AsWrittenAcceptsIff | exchange/order_server/order_server.cpp:32-42 | As written a correctly numbered client has no request refused if and only if it never asks after an answer |

## Left out

- OrderBook.NewBlock: any address not in use; the book's own pools never run out in the model (`MemPool` treats exhaustion on its own).
- OrderBook.MEOrderBook.Add: asks for ids inside the tables, an id that is not live, and, if something of the order rests, a price that shares its table entry with no other live price, because the text indexes its tables without checking; `Collisions.AddOrderKeepsIff` shows that this is exact.
- BookRuns.ProcessClientRequest: the same of the request.
- BookRuns.ServeAll: the same of every request of the run.
- Recovery.RecoverySafety: each completed snapshot queue holds one round behind its START, which the text does not test. `RecoveryLimits` shows two runs that fail without it; `InTurn` gives two tests on the queues that make it hold in every run whose snapshot messages arrive in turn. Runs whose snapshot messages arrive out of turn are covered by `RecoverySafety` alone.
- Consumer.MarketDataConsumer.RecvCallback: takes decoded messages; its byte buffer has the shape of the order server's, treated in `Wire`, and the pointer arithmetic of market_data_consumer.cpp:152 is not modelled.
- Slots.ServeKeeps: other clients' requests are admissible and clips are positive; `ZeroClipSticks` shows what a zero clip does.
- Position.PositionInfo.AddFill: amounts are reals, so floating-point rounding is not part of the model.
- LockFreeQueue.ReadsWhatWasProduced: sequentially consistent memory, the default order of the atomics used.
- Ingress.OrderServer.RecvCallback: client ids are inside the tables, because the text indexes them unchecked; the pending array is the sequence of its used part, sorted by `Sequencing.Sort`.
- Order and price numbers are unbounded naturals apart from the 32-bit position and the wire format: the 64-bit wrap of ids, prices and sequence numbers is not modelled.
- Sockets, epoll, multicast and TCP calls appear only as lossy or FIFO channels; clocks are receive times given from outside.
- trading_system/strategy/market_order_book.cpp is unfinished; a client book is what each update type means.
- trading_system/order_gw has the framing of the order server and would add no new property.
- Feature engine, position keeper, logging, text conversion, threads, benchmarks and configuration would only add easy members.
