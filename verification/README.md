# Verified model of exsim

exsim is an exchange in miniature: a price-time matching engine, the gateway that journals and
replicates its input, and a public level-2 market-data feed. This project models its deterministic core
and the protocols around it in Dafny and proves what the repository promises of them.

Check everything with `dafny verify dfyconfig.toml` (add `--resource-limit 2000000
--verification-time-limit 0`; one run takes a few minutes).

## How the project is laid out

**Matching.** `BookSpec.dfy` states the matching rules over one plain value: each side of the book is a
single sequence of orders in priority order. `BookInvariant.dfy`, `Ledger.dfy` and `Priority.dfy` prove
what those rules keep over whole runs, `OrderRules.dfy` and `OrderVerdicts.dfy` what becomes of each order
under them, told from the commands. `PriceBitmap.dfy` (64-bit words), `OrderIndex.dfy` (the Robin Hood
table) and `OrderStore.dfy` (the slab with its embedded free list) are the optimised book's parts, each a
class with a ghost set, map or sequence for its meaning. `Ladders.dfy`, `BookState.dfy`, `BookSteps.dfy`,
`BookPlaces.dfy`, `BookFillable.dfy` and `SweepLaws.dfy` hold the reasoning about the book's state as one
value; `OrderBook.dfy` is the book itself, updated in place, and `BookLevels.dfy` its level-2 view.
`ReferenceBook.dfy` is the naive book. Both books are proved against the same specification;
`MissedFills.dfy` finds the one command on which the optimised book departs from it, and
`Differential.dfy` puts the two side by side over every configuration and command stream. The structural
audit (`BookStates.Inv`) is part of `OrderBook.Valid()`, so every operation keeps it.

**Replication.** `SeqStream.dfy` and `SeqSubscriber.dfy` are the two ends of the sequenced stream as
classes over a ring and a stash, each tied to functions on values; `Replication.dfy` runs those functions
in a system of primaries and backups with a network that may lose, repeat and reorder anything ever sent,
and with processes that stop or restart between any two steps. `Fencing.dfy` proves what holds of its every
run, whatever the size of its batches.

**Market data.** `LevelNotes.dfy` proves which levels a command changes are noted; `MdFeed.dfy` and
`MdNodes.dfy` are the packets, the subscriber's recovery and the two classes; `MarketData.dfy` composes
them with the engine over whole runs, and `FeedProgress.dfy` shows that the feed gets on.

**The rest.** `Renaming.dfy` and `ClientIds.dfy` (exchange-assigned ids), `Mirror.dfy` and
`BookMirror.dfy` (the level-2 mirror), `Spsc.dfy` (the single-producer single-consumer ring),
`Wire.dfy` and `Journal.dfy` (wire format and write-ahead journal), `RiskGate.dfy` (the pre-trade limits).

## What turned out not to hold

- *Fill-or-kill by level totals* (`include/exsim/order_book.hpp:355-361`). A level's total is a 64-bit
  word. Reading totals never gives a wrong yes, but two sells of 2^63 at one price leave the total at zero,
  and a fill-or-kill buy is killed where the naive book scans the orders and fills it
  (`MissedFills.FillMissed`). `MissedFills.DiffersIff` says for which commands on which books the two
  differ, `Differential.RunBoth` that two fresh books emit the same events if and only if the stream never
  comes to one, and `MissedFills.SmallRunsAgree` that it never does while less than 2^64 rests.
- *The backup's journal is always a prefix of the primary's* (`include/exsim/seqstream.hpp:193-195`). A
  flush reads what it sends out of the ring, so a batch with more commands than the ring has slots goes out
  under the wrong numbers; nothing in the source compares the two, and `--ring-log2` is an argument. A flush
  is right if and only if the batch fits (`SeqStreams.FlushExact`), a commit keeps the protocol's invariant
  if and only if it does (`Replication.CommitExact`), and `Replication.OverrunMisleads` is a run on a ring of
  one slot whose backup holds no prefix. The theorems about journals require `Fitting`: every batch
  committed fits its primary's ring.
- *A promoted backup holds every acknowledged order* (`docs/FAQ.md:120-124`). True of the orders its own
  primary acknowledged, in every fitting run (`Replication.ReleasedSurvives`). Not true down the chain: a
  backup promotes itself on silence alone (`tools/exsim_replica.cpp:120`), even while it knows of a gap, so
  a fresh backup of a second primary can take over before it has caught up and lose what the first had
  acknowledged (`Replication.AcknowledgedCanBeLost` is such a run). `Replication.TakeoverKeepsIff` says
  exactly which commands a takeover keeps, by a number the backup could compare before it promotes, and
  `Replication.ReleasedSurvivesChain` that nothing is lost while every primary in between has
  acknowledged something of its own.
- *Every changed level is noted* (`tools/gateway.hpp:87-111`). All but price 0, which the notes take for a
  market order; the server's own configuration has price 0 in its band. From a book with nothing at price 0 a
  command notes all it changes if and only if nothing rests there after it (`LevelNotes.CommandNotedIff`), a
  batch is published right if and only if nothing moved at price 0 unlisted (`MarketData.BatchExact`), and
  `MarketData.PlainRunsExact` is the feed's theorem for any configuration while no order is priced 0.
  `MarketData.WrongAtZero` is a run after which a synced subscriber's book is wrong.
- *A snapshot is the whole book* (`include/exsim/mdfeed.hpp:133-147`). Its parts are counted in 16 bits, so it
  carries the whole listing if and only if that has at most 60 * 65535 levels (`MdNodes.SnapCarries`); beyond,
  it rebuilds the level-2 book only if all that is cut off is 0 (`MarketData.SnapshotIff`), and
  `MarketData.SnapshotMisleads` is a run that syncs a newcomer on a wrong book.
- *Subscriber and engine digests are equal* (`include/exsim/mdfeed.hpp:71-78`). A level whose total is a
  multiple of 2^64 is listed on the engine's side, with quantity 0, and absent on the subscriber's, which erases
  it. Here the two are compared by their totals (`MarketData.IsL2`), to which both are 0.

## Side conditions

The books, their differential theorem, the level view and the feed hold for every quantity; a level's total
is a 64-bit word throughout, and the engine of the gateway is the one that reads those words, missed fills
included. The feed's theorems over runs require that a batch lists what it changes at price 0 and that a
snapshot is taken of at most 60 * 65535 levels (`MarketData.Shows`), and the mirror's that every snapshot and
diff has distinct levels and an uncrossed end state that fits. Replication is modelled with replicate-wait and
halt-on-loss, one backup per epoch that does not restart within it, and a journal copy taken from the primary
that the new replica then follows; its theorems about journals require that every batch committed fits the
ring, those of `Fencing.dfy` do not; responses means the solicited reports of a batch, not the unsolicited
reports to makers. Through the risk gate a cancel always passes and moves nothing, but what it takes out of the
book changes later trades, and with them the price the collar measures from: that cancels change no other
verdict (`RiskGates.CancelsNeverCount`) holds with the collar off, and `RiskGates.CollarSeesCancels` shows it
need not with the collar on. Sequence numbers, timestamps and sums of intervals do not wrap.

## Model

| member | source | states |
|---|---|---|
| BookInvariant.SweepShape | include/exsim/order_book.hpp:272-344 | What a sweep leaves of the opposite queue is a suffix of it with at most its first order shrunk, and what is left of the taker is no more than it came with. |
| BookInvariant.SweepEnd | include/exsim/order_book.hpp:277-344 | An unfinished, unstopped sweep leaves nothing within the limit, so what then rests cannot cross. |
| BookInvariant.InsertPlaced | include/exsim/order_book.hpp:379-404 | A resting order stands behind everything at its price or better and ahead of everything worse. |
| BookInvariant.ExecuteOk | include/exsim/order_book.hpp:248-256 | Sweeping and then resting or canceling keeps the book sound and adds at most the order's own quantity and id. |
| BookInvariant.ApplyOk | include/exsim/order_book.hpp:65-113 | Every command keeps the book sorted, uncrossed, with unique non-zero ids, positive quantities and no more orders than slots. |
| BookInvariant.RunOk | include/exsim/order_book.hpp:174-201 | Over every run the book is sound and holds no more quantity than was ever ordered. |
| BookInvariant.ModifyNeverBookFull | include/exsim/order_book.hpp:88-113 | A modify can never end in BookFull. |
| BookInvariant.FillableExact | include/exsim/order_book.hpp:346-377 | The fill-or-kill walk says yes if and only if the sweep would resolve every lot, for both sides and all four self-trade modes. |
| BookInvariant.FokAllOrNothing | include/exsim/order_book.hpp:242-256 | A fill-or-kill either leaves the book untouched and is canceled whole, or is resolved whole and rests nothing. |
| Ledger.SweepPosts | include/exsim/order_book.hpp:272-344 | Posting a sweep's events carries the id-to-quantity balances from before it to after it; each leaves and each canceled quantity matches the balance. |
| Ledger.ApplyPosts | include/exsim/order_book.hpp:65-113 | Posting any command's events to the balances of the book before gives the balances of the book after. |
| Ledger.RunPosts | include/exsim/order_book.hpp:73-113 | Over every run of either engine, the naive one and the one that reads 64-bit level totals, folding the event stream alone reconstructs exactly the live orders and their open quantities. |
| Priority.TradesTakeFirst | include/exsim/order_book.hpp:272-344 | Each trade's maker is the first opposite order still open at that instant, at its own price, within the taker's limit. |
| Priority.ApplyRanked | include/exsim/order_book.hpp:88-113 | An in-place shrink keeps an order's place; any other modify and any new order goes behind all orders at its price. |
| Priority.RunRanked | include/exsim/order_book.hpp:379-404 | Over every run of either engine both queues are strictly ordered by price and then by how long each order has held its place. |
| Priority.TradesTakeBest | include/exsim/order_book.hpp:272-344 | In every run of either engine, posting every event before a trade, from the first of the run on, gives balances in which the trade's maker goes before every other opposite order still open, by price and then by the command that last put each at the back of a queue. |
| OrderRules.FlagBits | include/exsim/common.hpp:56-74 | Bit 0 of the flags is post-only; bits 1 and 2 are the self-trade mode, 1, 2 and 3 in the order CancelResting, CancelIncoming, DecrementCancel, and 0 the book's own. |
| OrderRules.RunEntered | include/exsim/order_book.hpp:222-256 | In every run of either engine a resting order is on the side, and of the owner, of the new order last accepted under its id, and that was a limit order for the day. |
| OrderRules.OwnersMeet | include/exsim/order_book.hpp:272-328 | In every run of either engine, owners told by the new orders accepted: under a mode no trade is between two orders of one owner; an order is canceled or lessened for self-trade only on meeting one of its owner's; and the larger, smaller and equal of the two end, in quantities and in the events that follow, as the mode has it. |
| OrderVerdicts.IncomingYields | include/exsim/order_book.hpp:283-286 | Under CancelIncoming the own order it met stands first of its side, within the limit. |
| OrderVerdicts.PostOnlyNeverTrades | include/exsim/order_book.hpp:238-239 | In every run an order with bit 0 of its flags set never trades as it comes, nor meets its owner's. |
| OrderVerdicts.EndsAsItMay | include/exsim/order_book.hpp:241-256 | In every run an order expires only as a market order or one not for the day, for what it has left, with nothing left within its limit, and after a market order the other side is empty; one is killed only as fill-or-kill, whole; one is canceled for want of a slot only when all are taken; and only a cancel is the user's. |
| OrderVerdicts.AddVerdict | include/exsim/order_book.hpp:222-242 | A new order is refused for the first of the source's five reasons that holds, post-only told by any opposite order it could trade with, and then changes nothing; else it is accepted. |
| OrderVerdicts.ModifyVerdict | include/exsim/order_book.hpp:88-102 | A modify is refused for the first of three reasons that holds; at its own price for no more quantity it changes that quantity alone and no order's place. |
| OrderVerdicts.CancelVerdict | include/exsim/order_book.hpp:73-83 | A cancel removes the one order resting under its id, for what it has left, or is refused. |
| PriceBitmaps.PriceBitmap.constructor | include/exsim/price_bitmap.hpp:18-21 | A fresh bitmap means the empty set. |
| PriceBitmaps.PriceBitmap.Set | include/exsim/price_bitmap.hpp:23-27 | Adds exactly one index to the set, in both levels. |
| PriceBitmaps.PriceBitmap.Clear | include/exsim/price_bitmap.hpp:29-34 | Removes exactly one index, and its summary bit only when the word is empty. |
| PriceBitmaps.PriceBitmap.Test | include/exsim/price_bitmap.hpp:36-39 | True exactly for members. |
| PriceBitmaps.PriceBitmap.FindNext | include/exsim/price_bitmap.hpp:41-58 | The least member at or above i, else the size, for every i including out of range. |
| PriceBitmaps.PriceBitmap.FindPrev | include/exsim/price_bitmap.hpp:60-78 | The greatest member at or below i, else -1, for every i including out of range. |
| OrderStores.OrderStore.constructor | include/exsim/order_store.hpp:49-53 | All slots free, in index order, linked through `next`. |
| OrderStores.OrderStore.Alloc | include/exsim/order_store.hpp:32-39 | Takes the front of the free list, or returns NIL when it is empty. |
| OrderStores.OrderStore.Release | include/exsim/order_store.hpp:40-44 | Puts a slot at the front of the free list, changing only its `next`. |
| OrderIndexes.OrderIndex.constructor | include/exsim/order_index.hpp:63-68 | An empty map over a table with more slots than entries can be, and at least twice as many up to 2^31 entries; past that the 32-bit mask stops at 2^32 slots. |
| OrderIndexes.TableFits | include/exsim/order_index.hpp:64-66 | The rounded-up, 32-bit-masked table always keeps an empty slot, for every maximum the source accepts. |
| OrderIndexes.OrderIndex.Find | include/exsim/order_index.hpp:70-80 | Agrees with the finite map for present and absent keys, whatever the hash; the probe loop ends. |
| OrderIndexes.OrderIndex.Insert | include/exsim/order_index.hpp:82-97 | Adds one entry to the map through any chain of displacements, keeping the Robin Hood order. |
| OrderIndexes.OrderIndex.EraseKnown | include/exsim/order_index.hpp:99-106 | Removes exactly the entry with the known slot, without comparing keys. |
| OrderIndexes.OrderIndex.Erase | include/exsim/order_index.hpp:108-120 | Removes the key's entry and returns its slot, or changes nothing and returns NIL. |
| OrderIndexes.OrderIndex.RemoveAt | include/exsim/order_index.hpp:147-159 | Backward-shift deletion across the wraparound removes one entry and keeps the order. |
| Ladders.InsertRung | include/exsim/order_book.hpp:379-404 | Joining the back of a price's own queue is entering the side's queue behind every order as good. |
| BookSteps.PopOk | include/exsim/order_book.hpp:301-306 | Releasing the front maker mid-sweep, with head, tail and mark left stale, keeps the audit of everything else and removes exactly that order. |
| BookSteps.ResizeFront | include/exsim/order_book.hpp:289-297 | Shrinking the front maker in place changes its quantity and the level's total and nothing else. |
| BookSteps.SettleOk | include/exsim/order_book.hpp:330-340 | Leaving a level puts head, tail, mark and cached best right again: the full audit holds and the book is unchanged. |
| BookPlaces.IndexedIff | include/exsim/order_book.hpp:126-134 | The index holds exactly the ids resting in the book. |
| BookPlaces.RestingCount | include/exsim/order_book.hpp:379-383 | The free list is empty if and only if as many orders rest as there are slots. |
| BookPlaces.CrossesIff | include/exsim/order_book.hpp:214-220 | One comparison with the cached best decides whether an order crosses, the sentinels standing for an empty side. |
| BookPlaces.PushOk | include/exsim/order_book.hpp:384-403 | Linking a slot at a level's tail keeps the whole audit and inserts exactly that order in priority order. |
| BookPlaces.RemoveOk | include/exsim/order_book.hpp:406-430 | Unlinking any slot keeps the whole audit, though a head's `prev` is never right, and removes exactly that order. |
| BookPlaces.ShrinkOk | include/exsim/order_book.hpp:98-102 | Amending in place keeps the audit, the order's place and everyone else's. |
| BookFillable.TotalsVerdict | include/exsim/order_book.hpp:355-361 | Without self-trade prevention the walk compares the need with the totals as the levels hold them, which never exceed what rests and equal it when no level overflows. |
| BookFillable.TotalsRightIff | include/exsim/order_book.hpp:355-361 | Reading totals answers every 64-bit quantity as the orders would if and only if no level within the limit holds 2^64 or more, or the totals there reach 2^64 - 1. |
| MissedFills.FokDecision | include/exsim/order_book.hpp:347-377 | On any sound book the walk over the levels says yes exactly as the orders do under self-trade prevention; without it, exactly when the 64-bit level totals within the limit sum to the quantity, which is at most what really rests there. |
| MissedFills.DiffersIff | include/exsim/order_book.hpp:355-361 | One command's events differ from the specification's if and only if it is an accepted fill-or-kill without self-trade prevention for more than the level totals within its limit show and no more than rests there. |
| MissedFills.RunsAgreeIff | include/exsim/order_book.hpp:355-361 | A run with 64-bit level totals emits the specification's events, command by command, if and only if the specification's run never comes to such a fill-or-kill; then the books are equal too. |
| MissedFills.SmallRunsAgree | include/exsim/order_book.hpp:355-361 | A stream that never has 2^64 resting at once, whatever it commands in all, never comes to one. |
| MissedFills.FillMissed | include/exsim/order_book.hpp:402 | Two sells of 2^63 at one price and a fill-or-kill buy: the two books' events differ. |
| OrderBooks.OrderBook.Open | include/exsim/order_book.hpp:46-60 | An empty, audited book, or none for a configuration the source refuses; every maximum the source accepts is accepted. |
| OrderBooks.OrderBook.UnlinkLinks | include/exsim/order_book.hpp:407-421 | The neighbours' links, the level's ends and total after a slot leaves, for the head, the tail, the middle or the only slot. |
| OrderBooks.OrderBook.Unlink | include/exsim/order_book.hpp:406-430 | Unlinks a slot and retires the level if it empties, moving the best only if this level was it. |
| OrderBooks.OrderBook.TakeOut | include/exsim/order_book.hpp:80-83 | Unlinking and releasing a slot whose id is forgotten removes exactly its order from the book. |
| OrderBooks.OrderBook.Cancel | include/exsim/order_book.hpp:73-83 | The specification's cancel, book and event, including the unknown order. |
| OrderBooks.OrderBook.TradeTurn | include/exsim/order_book.hpp:314-328 | One maker of another owner: the specification's trade, and a cursor that survives the slot's release. |
| OrderBooks.OrderBook.OwnTurn | include/exsim/order_book.hpp:283-313 | One maker of the taker's owner under each self-trade mode: the specification's events, queue and stop. |
| OrderBooks.OrderBook.Settle | include/exsim/order_book.hpp:330-340 | Writes the level's head after its inner loop and retires it if empty; the audit holds again. |
| OrderBooks.OrderBook.SweepLevel | include/exsim/order_book.hpp:277-341 | One level of the sweep: continues the specification's sweep exactly and makes progress. |
| OrderBooks.OrderBook.SweepSide | include/exsim/order_book.hpp:269-344 | The whole sweep returns the specification's remainder, stop, events and queue. |
| OrderBooks.OrderBook.FillableAt | include/exsim/order_book.hpp:362-374 | One level of the order-by-order walk decides, or carries the remaining need to the next level. |
| OrderBooks.OrderBook.FillableNow | include/exsim/order_book.hpp:346-377 | The whole walk gives the verdict of the level totals, or of the orders under self-trade prevention. |
| OrderBooks.OrderBook.RestOrder | include/exsim/order_book.hpp:379-404 | The specification's rest, or its BookFull cancel when no slot is free. |
| OrderBooks.OrderBook.Execute | include/exsim/order_book.hpp:248-270 | Sweep and remainder, shared by new orders and re-entering ones: the specification's execution. |
| OrderBooks.OrderBook.Add | include/exsim/order_book.hpp:222-256 | Every new order on every valid book: the specification's outcome with every rejection in the source's validation order, but that a missed fill is killed. |
| OrderBooks.OrderBook.Modify | include/exsim/order_book.hpp:85-113 | The specification's modify: rejections, in-place shrink, or re-entry under the book's own self-trade mode. |
| OrderBooks.OrderBook.Process | include/exsim/matching_engine.hpp:26-35 | Any command on any valid book: the specification's events and book, but that a missed fill is killed, and the full audit afterwards. |
| BookLevels.ForEachLevel | include/exsim/order_book.hpp:145-154 | Visits exactly the prices that hold orders, best first, each with the 64-bit word of what rests there. |
| BookLevels.LevelQty | include/exsim/order_book.hpp:156-162 | What rests at a price on a side, as a 64-bit word; 0 out of band or with nothing there. |
| BookLevels.ListEngine | include/exsim/mdfeed.hpp:133-138 | Walking every book's own levels gives the listing the feed's theorems speak of. |
| BookLevels.StageBatch | tools/gateway.hpp:404-406 | Reading each noted level off the books gives the batch's entries the feed's theorems speak of. |
| ReferenceBooks.RefIndexed | include/exsim/reference_book.hpp:122-128 | The naive index holds exactly the resting ids. |
| ReferenceBooks.RefCount | include/exsim/reference_book.hpp:122-128 | As many orders rest as the index has entries. |
| ReferenceBooks.ReferenceBook.CrossesAt | include/exsim/reference_book.hpp:149-152 | The first price of the opposite map decides whether an order crosses. |
| ReferenceBooks.ReferenceBook.FillableNow | include/exsim/reference_book.hpp:154-176 | The naive scan gives the specification's answer. |
| ReferenceBooks.ReferenceBook.OwnTurn | include/exsim/reference_book.hpp:193-217 | One own maker under each self-trade mode. |
| ReferenceBooks.ReferenceBook.TradeTurn | include/exsim/reference_book.hpp:218-225 | One trade, the maker shrunk or popped. |
| ReferenceBooks.ReferenceBook.MatchLevel | include/exsim/reference_book.hpp:188-228 | One price's inner loop continues the specification's sweep; an emptied price is forgotten. |
| ReferenceBooks.ReferenceBook.Match | include/exsim/reference_book.hpp:178-231 | The nested matching loops compute the specification's sweep. |
| ReferenceBooks.ReferenceBook.RestOrder | include/exsim/reference_book.hpp:233-239 | The specification's rest, or BookFull at capacity. |
| ReferenceBooks.ReferenceBook.Remove | include/exsim/reference_book.hpp:241-251 | Removes exactly one order, and its price with the last one. |
| ReferenceBooks.ReferenceBook.Add | include/exsim/reference_book.hpp:32-61 | The specification's new order. |
| ReferenceBooks.ReferenceBook.Cancel | include/exsim/reference_book.hpp:63-72 | The specification's cancel. |
| ReferenceBooks.ReferenceBook.Modify | include/exsim/reference_book.hpp:74-94 | The specification's modify. |
| Differential.StepBoth | tests/test_differential.cpp:123-134 | One command through two books that agree: the same events if and only if it is not a missed fill, and then they agree again; the naive book's are always the specification's. |
| Differential.RunBoth | include/exsim/reference_book.hpp:4-9 | For every configuration and command stream, fresh books of both kinds emit the same events, command by command, if and only if the stream never comes to a missed fill, and then hold the same book; the naive one runs the specification on every stream. |
| SeqStreams.ChunksFaithful | include/exsim/seqstream.hpp:196-207 | Every datagram of a flush or a retransmission carries the log's own commands under their own numbers. |
| SeqStreams.Publisher.SlotRight | include/exsim/seqstream.hpp:187-191 | A slot holds the command of a number given to it if and only if the number is one of the last ring-many. |
| SeqStreams.ReadBack | include/exsim/seqstream.hpp:268-275 | Reading a number back gives its own command if and only if it is one of the last ring-many. |
| SeqStreams.InReach | include/exsim/seqstream.hpp:251-263 | Every range that starts within reach of the ring goes out as the log has it. |
| SeqStreams.FlushExact | include/exsim/seqstream.hpp:193-207 | A flush carries the log's own commands if and only if the batch fits the ring. |
| SeqStreams.Publisher.constructor | include/exsim/seqstream.hpp:141-158 | A publisher that follows a history and has served nothing. |
| SeqStreams.Publisher.SeedHistory | include/exsim/seqstream.hpp:177-183 | Loading a history oldest first, over any wraparound, leaves every slot still in reach right. |
| SeqStreams.Publisher.Publish | include/exsim/seqstream.hpp:185-191 | Numbers exactly the next command and refuses any other. |
| SeqStreams.Publisher.Send | include/exsim/seqstream.hpp:258-275 | What goes out for any range is the log as the ring reads it back, at most 25 commands a datagram. |
| SeqStreams.Publisher.Flush | include/exsim/seqstream.hpp:193-207 | Sends everything staged, once, as the ring reads it back, whatever its size. |
| SeqStreams.Publisher.HeartbeatIfIdle | include/exsim/seqstream.hpp:209-215 | When idle and unfenced flushes and announces the next number; otherwise does nothing. |
| SeqStreams.Publisher.Close | include/exsim/seqstream.hpp:217-221 | Flushes and announces the end three times, unless fenced. |
| SeqStreams.Publisher.Hear | include/exsim/seqstream.hpp:225-234 | Records a datagram's epoch if and only if it is past the publisher's own; one such fences, and older ones change nothing. |
| SeqStreams.HearIff | include/exsim/seqstream.hpp:233 | The same of the function, with what is recorded: the newest epoch heard. |
| SeqStreams.Publisher.Serve | include/exsim/seqstream.hpp:235-265 | Acknowledgements and requests of its own epoch only, none once fenced; a range out of reach gets Unavailable. |
| SeqSubscribers.DrainDelivers | include/exsim/seqstream.hpp:381-385 | Whatever the stash holds, draining it delivers the log's next stretch. |
| SeqSubscribers.ReceiveDelivers | include/exsim/seqstream.hpp:344-411 | Any faithful datagram delivers exactly the next stretch of the log: nothing twice, nothing missing, in order. |
| SeqSubscribers.GapWithin | include/exsim/seqstream.hpp:413-425 | A gap request never asks past what the subscriber has heard of. |
| SeqSubscribers.GapAnswered | include/exsim/seqstream.hpp:249-263 | Each answered request either reports Unavailable or, delivered, closes the whole requested range. |
| SeqSubscribers.HeardIsAskedFor | include/exsim/seqstream.hpp:388-425 | A subscriber that hears, in any datagram, that a number exists has it, or asks for the gap that starts at the next it expects. |
| Replication.EndedHolds | include/exsim/seqstream.hpp:314 | In every run a backup that has ended holds its closed primary's whole journal, or, if the primary was since restarted under the same epoch, ended at a number its restarted journal covers. |
| SeqSubscribers.Subscriber.Deliver | include/exsim/seqstream.hpp:404-411 | Delivers the new part of a run that overlaps the expected number. |
| SeqSubscribers.Subscriber.Drain | include/exsim/seqstream.hpp:381-385 | The stash loop computes the drain. |
| SeqSubscribers.Subscriber.Receive | include/exsim/seqstream.hpp:344-402 | One datagram, every kind and epoch, computes the specified step. |
| SeqSubscribers.Subscriber.RequestGap | include/exsim/seqstream.hpp:413-425 | The request to send, or none. |
| Replication.ServeAllOk | include/exsim/seqstream.hpp:225-265 | Serving any datagrams moves the acknowledged mark only to what this epoch's backup has flushed, and sends only flushed commands. |
| Replication.ServiceOk | tools/gateway.hpp:255-287 | Serving the sockets, in or out of the wait for the backup, keeps the protocol's invariant, fencing included. |
| Replication.DeliverOk | tools/exsim_replica.cpp:64-71 | A backup that applies what it is delivered keeps a prefix of its primary's journal. |
| Replication.RestartOk | tools/exsim_server.cpp:74-102 | A primary that recovers any journal prefix from the last flush on keeps the invariant under the same epoch. |
| Replication.PromoteOk | tools/exsim_replica.cpp:120-137 | A promotion under the next epoch keeps the invariant. |
| Replication.StepOk | tools/gateway.hpp:292-416 | Every step of every process, its batch fitting the ring, keeps the invariant. |
| Replication.CommitExact | tools/gateway.hpp:384-390 | A commit keeps the invariant if and only if its batch fits the ring. |
| Replication.RunOk | tools/gateway.hpp:255-287 | Every run whose batches fit the ring, over every loss, duplication, reordering, pause, crash, restart and promotion, satisfies the invariant. |
| Replication.OverrunMisleads | include/exsim/seqstream.hpp:268-275 | Two commands in one batch over a ring of one slot: the backup journals the second twice and holds no prefix of its primary's journal. |
| Replication.ReleasedSurvives | tools/gateway.hpp:384-415 | Whatever a primary has released is in its promoted successor's durable journal under the same number. |
| Replication.InheritedAlong | tools/exsim_replica.cpp:120-137 | A command is kept along a chain of promotions while each took over at or past its number. |
| Replication.ReleasedSurvivesChain | tools/exsim_replica.cpp:120-137 | Down any chain of promotions nothing acknowledged is lost while every primary in between acknowledged something of its own. |
| Replication.TakeoverKeepsIff | tools/exsim_replica.cpp:120-136 | A takeover keeps a command of the old primary's journal if and only if its number is below the next one the backup expects. |
| Replication.AcknowledgedCanBeLost | tools/exsim_replica.cpp:120 | A run in which a fresh backup promotes itself before catching up and an acknowledged command is in no later journal. |
| Replication.BackupIsPrefix | include/exsim/seqstream.hpp:193-195 | In every run whose batches fit the ring, a backup's journal is a prefix of what its primary has flushed to its own. |
| Replication.RequestsWithinFlushed | include/exsim/seqstream.hpp:249-263 | No request in any run reaches past what the publisher has flushed, though one would be served up to the last number assigned. |
| Fencing.RunGuarded | include/exsim/seqstream.hpp:225-248 | In every run, whatever its batches: a fenced primary has halted, an epoch is promoted into once, and a primary's acknowledged mark is its own backup's. |
| Fencing.ServiceFencesIff | tools/gateway.hpp:255-287 | In every run a primary that services its sockets ends fenced if and only if it was, or a datagram it heard on the group is of any later epoch; and fenced, it has halted. |
| Fencing.ReleaseNeedsBackup | tools/gateway.hpp:384-398 | In every run, a step releases responses only from an unfenced primary, only as its own release, and only for what its own backup has flushed; if the run's batches fit the ring, that is a prefix of its journal. |
| Fencing.FencedNeverReleases | include/exsim/seqstream.hpp:245 | In every run, once a primary is fenced, nothing it has not yet released is ever released, however the run goes on. |
| Fencing.HeardNeverReleases | tools/gateway.hpp:255-287 | In every run, from the service in which a primary hears a datagram of a later epoch, nothing it has not yet released is ever released, until its process is replaced. |
| Fencing.ForeignNeverReleases | include/exsim/seqstream.hpp:245-248 | Through any stretch of any run in which a primary is served only other epochs' datagrams, its acknowledged mark stands still and nothing past it is released. |
| Fencing.BarredNeverPromotes | tools/exsim_replica.cpp:104-113 | In every run a backup delivered word that its gap is out of reach, or a datagram of a newer primary, never promotes itself, however the run goes on. |
| Fencing.HeartbeatFindsOut | include/exsim/seqstream.hpp:209-215 | In every run whose batches fit the ring, an idle primary's heartbeat, delivered to its backup, finds it with the whole journal or asking for what follows the last command it has. |
| Fencing.EndFindsOut | include/exsim/seqstream.hpp:217-221 | In every such run the end a primary announces, delivered to its backup, ends it if and only if it has the whole journal; and ended, it does not promote itself. |
| LevelNotes.SweepNoted | tools/gateway.hpp:96-110 | A sweep's events note every level it takes from, in every self-trade mode. |
| LevelNotes.ChangesNoted | tools/gateway.hpp:86-111 | Every level but price 0 whose total a command changes is noted, counting the level a modify leaves. |
| LevelNotes.PriceZeroUnnoted | tools/gateway.hpp:105 | An order resting at price 0 changes a level nothing notes. |
| LevelNotes.NotedIff | tools/gateway.hpp:86-111 | Every command on every sound book notes every level it changes if and only if price 0 is outside the band. |
| LevelNotes.CommandNotedIff | tools/gateway.hpp:86-111 | In every configuration: from a sound book with nothing at price 0, a command notes every level it changes if and only if nothing rests at price 0 after it. |
| MissedFills.AnswerNotedIff | tools/gateway.hpp:86-111 | The same of the engine that reads 64-bit level totals. |
| MdFeeds.ReplayOk | include/exsim/mdfeed.hpp:265-269 | Replaying buffered packets from a right book gives the right book at the number reached. |
| MdFeeds.OnPacketOk | include/exsim/mdfeed.hpp:232-286 | Whatever packets of the feed arrive, in any order and number, a synced subscriber holds exactly the public book at its sequence number. |
| MdFeeds.SnapshotRecovers | include/exsim/mdfeed.hpp:257-272 | A whole snapshot brings a lost subscriber back, synced if and only if nothing is buffered beyond the run behind it. |
| MdNodes.MdPublisher.Flush | include/exsim/mdfeed.hpp:114-131 | The batch loop numbers packets consecutively, at most 60 entries each, and appends a snapshot when one is due. |
| MdNodes.MdPublisher.Snap | include/exsim/mdfeed.hpp:133-147 | The parts of a snapshot, counted in 16 bits, all tagged with the last packet sent; an empty book is one empty part. |
| MdNodes.SnapCarries | include/exsim/mdfeed.hpp:139 | A snapshot carries the first of the listing's levels, and all of them if and only if they are at most 60 * 65535. |
| FeedProgress.FlushSnapshotsIff | include/exsim/mdfeed.hpp:116-131 | A flush numbers a packet for every 60 entries, and sends a snapshot tagged with the last of them if and only if that brings the packets since the last snapshot to the number asked for. |
| FeedProgress.SnapshotsKeepUp | include/exsim/mdfeed.hpp:128 | In every run no more packets than that have been sent since the last snapshot, whose every part has been sent. |
| FeedProgress.NewcomerSyncs | include/exsim/mdfeed.hpp:257-272 | In every run that shows what it changes, a newcomer that hears the parts of any snapshot and the packets behind it, in either order, is synced on the engine's level-2 book as it is. |
| FeedProgress.HeardIsCurrent | include/exsim/mdfeed.hpp:244-254 | In every such run a subscriber that hears the publisher's own number, in a heartbeat or the end, finds itself behind or holds the engine's level-2 book as it is. |
| FeedProgress.EndedIff | include/exsim/mdfeed.hpp:244-272 | A subscriber has ended if and only if it has heard the end and is synced no earlier. |
| MdNodes.MdPublisher.Finish | include/exsim/mdfeed.hpp:155-160 | A last snapshot, then the end three times. |
| MdNodes.MdBook.OnPacket | include/exsim/mdfeed.hpp:232-255 | One packet of any kind computes the specified step. |
| MdNodes.MdBook.OnSnapshotPart | include/exsim/mdfeed.hpp:257-261 | One part is stored, ignored, or completes the snapshot. |
| MdNodes.MdBook.RebuildBook | include/exsim/mdfeed.hpp:262-272 | A complete snapshot and the buffer loops compute the specified rebuild. |
| MdNodes.MdBook.ApplyEntries | include/exsim/mdfeed.hpp:274-286 | The entry loop folds the entries: totals set, zeros erased, trades skipped. |
| MarketData.BatchChanges | tools/gateway.hpp:357-362 | Every level whose total a whole batch changes, other than at price 0, is among those noted for it, over any number of symbols. |
| MarketData.BatchExact | tools/gateway.hpp:399-409 | In every configuration: the batch's absolute totals, 64-bit words as the book returns them, carry the public book from the engine's old level-2 book to its new one if and only if no total moved at price 0 without being listed; listing more levels does no harm. |
| MarketData.TradesAre | tools/gateway.hpp:96-99 | The trades published are those of the batch, each once and in order, with symbol, price, quantity and the incoming side. |
| MarketData.ListExact | include/exsim/mdfeed.hpp:133-144 | The snapshot listing rebuilds the engine's level-2 book, of 64-bit words, from nothing. |
| MarketData.RunOk | include/exsim/mdfeed.hpp:116-147 | Every run of batches, beats, snapshots and arrivals that lists what it changes at price 0, and whose snapshots carry the whole listing, satisfies the feed's invariant, with no bound on quantities. |
| MarketData.SyncedIsExact | include/exsim/mdfeed.hpp:232-286 | In every such run, a subscriber synced at the last packet of a batch holds the engine's level-2 book, of 64-bit words, as it was then. |
| MarketData.PlainRunsExact | include/exsim/mdfeed.hpp:232-286 | The same with a condition on the input alone: price 0 is outside the band, or nothing rests there at first and no limit order or modify is priced 0; and the bands of all symbols together have at most 60 * 65535 levels. |
| MarketData.ListShort | include/exsim/mdfeed.hpp:133-138 | A listing has at most one level for each price of each symbol's band, the two sides of a book never sharing a price. |
| MarketData.SnapshotIff | include/exsim/mdfeed.hpp:139-144 | A snapshot rebuilds the engine's level-2 book if and only if every total it does not carry is 0. |
| MarketData.SnapshotMisleads | include/exsim/mdfeed.hpp:139 | With 65536 * 60 + 1 levels the publisher sends one part, 1 of 1, and the newcomer that hears it is synced on a wrong book. |
| MarketData.WrongAtZero | tools/gateway.hpp:105 | With price 0 in the band there is a run after which a synced subscriber's book is wrong. |
| BookLevels.SnapshotIsView | include/exsim/mdfeed.hpp:135-138 | The snapshot's listing is the book's own level view. |
| Renaming.RenApply | include/exsim/order_book.hpp:65-113 | Every command commutes with a renaming of ids that keeps its own id apart from the resting ones. |
| Renaming.RenFastApply | include/exsim/order_book.hpp:65-113 | The same of the engine that reads 64-bit level totals: whether it misses a fill does not depend on ids. |
| Renaming.ApplyNames | tools/gateway.hpp:134-136 | Every order that leaves the book is named in the command's events, and events name no one else's orders. |
| ClientIds.ForNewOk | include/exsim/client_ids.hpp:81-86 | A new order gets the live order's id or a fresh one, 0 only for 0, and the maps stay inverse. |
| ClientIds.RetireOk | include/exsim/client_ids.hpp:102-107 | Retiring keeps the two maps mutually inverse. |
| ClientIds.LiveAfter | tools/gateway.hpp:364-368 | After every command the maps hold exactly the live orders. |
| ClientIds.ReportsAgree | tools/gateway.hpp:126-136 | The translated reports of one command are the events of an engine run on the client's own ids. |
| ClientIds.IdsInvisible | include/exsim/client_ids.hpp:17-20 | Over every command stream of one session on a fresh engine, the optimised one with its 64-bit level totals, the translated reports equal those of an engine run directly on the client's ids. |
| ClientIds.OnlyOwnersSee | include/exsim/client_ids.hpp:90-100 | A report names an order, other than the command's own, only to its owner, and a cancel or modify reaches only an order of its own session, symbol and client id. |
| ClientIds.ClientIdMap.ForNew | include/exsim/client_ids.hpp:81-86 | Computes the specified assignment. |
| ClientIds.ClientIdMap.Retire | include/exsim/client_ids.hpp:102-107 | Computes the specified retirement. |
| Mirrors.CancelLevel | include/exsim/md_mirror.hpp:148-152 | Emptying a level removes its one order, without a trade. |
| Mirrors.AddLevel | include/exsim/md_mirror.hpp:153-157 | A new level's order rests whole when it does not cross and fits. |
| Mirrors.ShrinkLevel | include/exsim/md_mirror.hpp:158-160 | Reducing a level amends its order in place. |
| Mirrors.GrowLevel | include/exsim/md_mirror.hpp:158-160 | Growing a level re-queues its order whole when it does not cross. |
| Mirrors.PassOk | include/exsim/md_mirror.hpp:121-132 | One pass takes each level down to the lower of its totals, or up to its new one, without a trade. |
| Mirrors.NeverTrades | include/exsim/md_mirror.hpp:26-31 | A diff with distinct levels and an uncrossed end state that fits produces no trade or rejection at any step and leaves exactly the diffed totals, one order a level. |
| Mirrors.FreshOk | include/exsim/md_mirror.hpp:36-43 | The mirror as constructed is sound. |
| Mirrors.SeedIsPass | include/exsim/md_mirror.hpp:46-51 | On levels still empty, seeding a side is the adding pass of a diff. |
| Mirrors.SeedNeverTrades | include/exsim/md_mirror.hpp:46-51 | Seeding from an uncrossed snapshot with distinct levels that fits never trades and leaves exactly its totals. |
| Mirrors.RunNeverTrades | include/exsim/md_mirror.hpp:26-31 | From a fresh mirror, over any run of such snapshots and diffs, no step trades or is rejected, and after each the engine holds exactly the totals fed, one order a level. |
| BookMirrors.BookMirror.SetLevel | include/exsim/md_mirror.hpp:134-163 | Arrays and inner book together compute the specified level change. |
| BookMirrors.BookMirror.ApplyDiff | include/exsim/md_mirror.hpp:70-75 | The two passes over both sides compute the specified diff, and a sound mirror stays sound without a trade. |
| BookMirrors.BookMirror.Seed | include/exsim/md_mirror.hpp:46-51 | Drops everything and sets the snapshot's levels in place; the result is a sound mirror, without a trade. |
| Spsc.StepOk | include/exsim/spsc_queue.hpp:37-82 | Every single load, store and slot access of either side keeps the ring's invariant. |
| Spsc.PopsWhatWasPushed | include/exsim/spsc_queue.hpp:37-82 | In every interleaving what is popped is a prefix of what was pushed, and the ring never exceeds its capacity. |
| Spsc.WritesAreSafe | include/exsim/spsc_queue.hpp:58-70 | In every interleaving, what the consumer reads or prefetches is an element pushed and not yet popped, and never the slot about to be written. |
| Spsc.WrapsHarmless | include/exsim/spsc_queue.hpp:16-17 | Over a power-of-two capacity, 64-bit indices that wrap answer every comparison and mask to every slot as unbounded ones do. |
| Spsc.PushAppendsIff | include/exsim/spsc_queue.hpp:37-46 | From any reachable ring, a push that sees the true head appends its value if and only if the ring is not full. |
| Spsc.PopTakesOldestIff | include/exsim/spsc_queue.hpp:49-82 | From any reachable ring, a pop that sees the true tail takes the oldest element not yet taken if and only if there is one. |
| Spsc.Drains | include/exsim/spsc_queue.hpp:76-82 | A consumer left alone takes, pop by pop, exactly what was pushed, and then nothing. |
| Wires.RoundTrip | include/exsim/protocol.hpp:111-188 | An encoded command decodes to what the wire carries of it, whatever bytes follow. |
| Wires.EncodeSays | include/exsim/protocol.hpp:22-51 | Every encoded command is laid out by position as the source's packed records and codes have it: each field at its offset, least significant byte first, prices in two's complement, 0 for Buy, Limit and Day. |
| Wires.DecodeIff | include/exsim/protocol.hpp:111-161 | Bytes decode to a command if and only if they say it by position, and consume the length in their first two bytes. |
| Wires.DecodeElse | include/exsim/protocol.hpp:111-120 | Other bytes are waited for, skipped by their length, or lose the framing, exactly by that length. |
| Wires.AcceptedIsCanonical | include/exsim/protocol.hpp:111-161 | Any accepted message re-encodes to its own bytes. |
| Journals.AppendedScan | include/exsim/journal.hpp:87-128 | Appended commands scan back in order under any tail, whatever it holds. |
| Journals.RecordIntact | include/exsim/journal.hpp:77-86 | What is appended is a record by position: length, checksum modulo 2^32, timestamp, owner, a zero word, and from byte 24 the message. |
| Journals.ScanIff | include/exsim/journal.hpp:105-125 | Of any bytes: the scan is this one if and only if every command given back lies at its offset in a whole record with its own checksum, and the bytes behind the last end, are part of a record, or are no intact record, as the status says. |
| Journals.TamperedStops | include/exsim/journal.hpp:117 | Appended records with one behind them whose stored word is not its checksum scan back up to it, Corrupt, whatever follows. |
| Journals.TamperedRecovers | include/exsim/journal.hpp:142-150 | Recovery then leaves exactly the file of the records before it. |
| Journals.FileIff | include/exsim/journal.hpp:93-105 | Eight bytes or more are a journal if and only if the first eight are "EXJR", 1, 0, 0, 0, and then scan as ScanIff has it; fewer are a torn tail. |
| Journals.TruncatedScan | include/exsim/journal.hpp:105-125 | The record bytes cut anywhere give back exactly the records still whole, and are clean only at a record boundary. |
| Journals.ContainedMost | include/exsim/journal.hpp:105-125 | The records given back are all that fit: one more ends past the cut. |
| Journals.CrashRecovers | include/exsim/journal.hpp:87-150 | A journal file cut anywhere, its header included, scans to the records still whole; recovery leaves exactly the file of those commands, to which the next append adds its own. |
| Journals.TrimmedScan | include/exsim/journal.hpp:142-150 | Cutting any file to its trustworthy prefix makes it scan clean with the same commands. |
| Journals.RecoveryExact | include/exsim/journal.hpp:142-150 | Recovery keeps exactly the scanned commands, leaves a clean file, and is idempotent. |
| Journals.JournalScan | include/exsim/journal.hpp:87-128 | The scan loop computes the specified scan. |
| Journals.JournalWriter.Recover | include/exsim/journal.hpp:142-150 | Leaves the recovered file in place. |
| Journals.JournalWriter.Append | include/exsim/journal.hpp:159-168 | Adds exactly one record. |
| RiskGates.VerdictIs | include/exsim/risk.hpp:65-89 | In any run a new order or modify for a known symbol passes if and only if no halt covers it, its quantity is within the cap, price times quantity within the notional cap, its price within the collar of the symbol's last trade in the run, its owner known, and the rate limiter has room; else it gets the first of those reasons. |
| RiskGates.HaltHolds | include/exsim/risk.hpp:36-39 | From a halt of a symbol, or of all, to its lifting no new order or modify under it passes, whatever else arrives. |
| RiskGates.HaltLifts | include/exsim/risk.hpp:36-39 | A halt is in force if and only if one was imposed and none of its kind has come since. |
| RiskGates.FeedDue | include/exsim/risk.hpp:78-87 | Only a passing message moves its owner's schedule, by one interval from the later of now and when it was due. |
| RiskGates.RateBound | include/exsim/risk.hpp:42-52 | In any run, from a passing message to a later one no more of an owner's messages pass than the burst and one per whole interval between. |
| RiskGates.SpacedNeverLimited | include/exsim/risk.hpp:78-87 | Messages at least an interval apart are never rate-limited. |
| RiskGates.CancelsCostNothing | include/exsim/risk.hpp:42-52 | The gate alone: in any stream, the engine's answers to the other messages held as they are, every cancel passes, and deleting all of them changes no other verdict and leaves the gate in the same state. |
| RiskGates.CancelReachesEngine | include/exsim/risk.hpp:42-63 | At any point of any run of the gate with the engine behind it, a cancel reaches the engine and leaves the gate as it was. |
| RiskGates.CancelsNeverCount | include/exsim/risk.hpp:65-89 | With the collar off, deleting every cancel from a run of gate and engine changes no other verdict and no owner's schedule, though the engine then trades otherwise. |
| RiskGates.CollarSeesCancels | include/exsim/risk.hpp:74-77 | With the collar on it can: a sell canceled in time leaves no last price for the collar to hold a later buy against. |
| RiskGates.RiskGate.Admit | include/exsim/risk.hpp:65-89 | Every check, in the source's order, and the schedule it moves. |

## Left out

- OrderStores.OrderStore.Update: writes a whole record at once; the single-field stores of the source are one call each.
- OrderIndexes.OrderIndex.Find: fingerprints and slot arithmetic are unbounded numbers reduced to the table, so a key's hash is any function; the scattering hash is one of them and is not written out.
- ReferenceBooks.ReferenceBook.Remove: the list iterator in the index is modelled as side and price, with the order found by its id; iterator invalidation is not captured.
- OrderBooks.OrderBook.Add: the price difference is unbounded, where the source's 64-bit subtraction overflows for prices at the ends of the range.
- SeqSubscribers.Subscriber.RequestGap: the 20 ms pause before asking again is left out; a request may be repeated at any time.
- Replication.RunOk: journal writes do not fail; after a failed write the source's shutdown still flushes staged commands.
- Replication.ReleasedSurvives: unsolicited reports to makers are not responses here; the source can write one in the round that produced it.
- SeqSubscribers.GapAnswered: the answer is delivered in order; a partial answer shrinks the gap by what arrives.
- MdNodes.MdBook.OnPacket: the per-symbol maps of the source are one map keyed by symbol, side and price.
- ClientIds.IdsInvisible: the session runs on values, and is one session, as the source claims it; other sessions see 0 for orders that are not theirs.
- Spsc.StepOk: the ring's operations are steps of a state machine, one per load, store or slot access, not methods; its indices are unbounded, which Spsc.WrapsHarmless relates to the 64-bit ones.
- Replication.StepOk: the gateway's and the replica's event loops are steps of a state machine, not loops over connections and buffers.
- OrderBooks.OrderBook.Process: the source's audit routine is not a method here; what it checks is the class invariant, with the source's `prev` of a head left unconstrained.
- Mirrors.NeverTrades: the horizons and the decision when to reseed, and the fault injection that drops updates.
- RiskGates.RiskGate.Admit: the owner array is a map that reads zero where nothing was written.
- Sockets, epoll, multicast, signals, exit codes and clocks: only the order of steps is kept; timeouts may fire at any time.
- Memory layout: page arrays, prefetch instructions, the structure-of-arrays and hybrid stores, cache-line placement.
- `--continue-without-replica`, `--trust-client-ids`, fault-injection drops and the fsync policies.
- The checksum's error detection, digests and keyed hashing: the journal's checksum is any function, and sequences are compared directly.
- Execution-report encoding, text and CSV formats, latency histograms and argument parsing, which would only add easy members.
- The simulator, calibration, statistics, the exchange replay and its inference of hidden inputs, the browser wrapper and the OCaml model.
