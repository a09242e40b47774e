# Feeds service: a Dafny model

A Dafny model of the feeds service: a server that keeps channels, posts, comments, likes and
subscriptions in SQLite, tells subscribers about news over a peer-to-peer transport, and moves
large objects over sessions with their own framing. The model covers its stateful core:

- **Mass-data sessions** (`Wire`, `SessionSpec`, `SessionRuns`, `SessionParser`, `SessionSender`).
  `SessionSpec.Parse` says in one recursion what a whole byte stream means. `SessionRuns` says
  what a sequence of chunks means and how the two relate. `SessionParser` is the incremental
  parser, field by field and branch by branch, with the `size_t` and `int` arithmetic of the
  original; `SessionSender` is `pack` and the slicing loops.
- **Tables and transactions** (`Tables`, `Database`). One SQL statement is one partial table
  update. Every operation runs its statements between BEGIN and END with a fault chosen for each
  statement: refused, or failed with an automatic rollback.
- **Channel tables and notification graph** (`ChannelIndex`, `FeedsSpec`, `ServiceRuns`, `Feeds`).
  `ChannelIndex` holds the linked heap structures of feeds.c. `FeedsSpec` is the service on values:
  the tables, the relation of who enabled notifications where, and one step per request. `Feeds` has
  one handler per request and proves that each keeps one contract, `ServiceRuns.Obeys`: the
  specified step, or a transaction left open. `ServiceRuns` says what such a service does over any
  sequence of requests, and exactly how long that lasts; `Feeds.StartService` starts one from any
  database and is such a run.
- **Schema migration** (`Migration`, `MigratedRows`, `MigratedCounters`). The statements of `db_init`
  for every mix of missing, old and current tables, under any faults and look-ups; what an upgrade
  makes of every column of every row; and what the counters stored are before and after.
- **Message queues** (`MsgQueue`), **response batching** (`Batching`), **owner binding**
  (`Binding`), **row flattening** (`RowFlattening`).

Each handler, receipt or callback is one atomic step. Luck (whether a statement, a look-up, a send
or a store succeeds) is a parameter of the step that needs it. A theorem over all runs covers every
pattern of failures up to the first refused ROLLBACK; what the connection does after one is stated
for the connection alone.

## Where the code does less than one would expect

The model keeps the code as it is; each point below has a theorem saying exactly when the expected
property holds.

- After a header with an unsupported version the parser keeps the header and a zeroed protocol
  record, so every later chunk yields one empty message and the same error again. Cutting a stream
  into chunks is invisible exactly for streams without such a header; if no chunk is empty, also for
  those that end with it (`SessionRuns.ChunkingInvarianceExactly`,
  `SessionRuns.NonEmptyChunksExactly`, `SessionRuns.RejectionIsForever`).
- The sending loops count in an `int`, and the stream one keeps the body size in an `int` too, while
  `pack` announces 64 bits. Head and body of at most 2^31 - 2048 bytes arrive and the loops finish;
  a longer body of less than 2^31 bytes arrives, and then the counter overflows; a body of 2^31
  bytes or more does not arrive; with a head of more than 2^31 - 2048 bytes the body is never sent
  (`SessionSending.RoundTripExactly`).
- A refused ROLLBACK leaves the transaction open. Every later BEGIN fails, the single statements of
  creating and updating a channel still succeed, and nothing is stored until one of those fails with
  an automatic rollback (`Database.AllOrNothing`, `Database.OpenTransactionSticks`,
  `Database.NothingStoredWhileOpen`). The service does what is specified after every request
  exactly as long as that has not happened (`ServiceRuns.InSyncExactly`,
  `ServiceRuns.StuckIsPossible`).
- `db_rm_like` and `db_unsub` take one off the counter whether or not there is a row
  (`Tables.RmLikeCounted`, `Tables.UnsubCounted`); the handlers guard them.
- `load_chans_from_db` does not report a read error: the cache is right exactly when there was none
  (`Feeds.Feeds.Load`).
- A message the transport refuses never gets a receipt, so its peer is stuck until it goes offline
  (`MsgQueue.RefusedMeansStuck`).
- The greedy batching loops flush when the room left is zero even if the next item is free, as a
  deleted post is. They are optimal when the last item costs something, which every channel does,
  and exactly when the last batch costs something or is the only one (`Batching.FewestExactly`,
  `Batching.PositiveIsOptimal`, `Batching.FreeItemWastes`).
- The loop for liked data compares the room left with the cost of the item just taken. Under one
  budget all pages of a list of likes are sent within it exactly when, after each stretch whose items
  would each fit once more, the next item fits (`Batching.LikedPagesExactly`); for two likes and over
  all budgets there are shorter conditions (`Batching.LikedPairExactly`,
  `Batching.LikedBudgetExactly`).
- After a restart a user whose notifications were enabled on some node only before it is inactive, so
  enabling them again needs the stored subscriptions, and fails when they cannot be read; that is the
  one way a reply can differ (`ServiceRuns.RestartUnnoticed`).
- `db_upsert_user` may store a row and still fail. If that happens while the owner is declared,
  another DID can be declared and a restart gives the service back to the first
  (`Binding.RecomputableExactly`, `Binding.HalfFailureChangesOwner`). Over any run the owner stays
  exactly when there is no restart or the owner is stored as user 1
  (`Binding.OwnerKeptOverRunsExactly`).
- `check_table_valid` does not look at the error that ends its reading of the columns: a current
  table that is not read to the end is taken for an old one, and a start-up that succeeds resets its
  newer columns. It is left alone exactly when it was read to the end or had nothing to lose
  (`Migration.JudgedExactly`, `Migration.CurrentLeftAloneExactly`, `Migration.MisreadLosesTips`).
- Migration leaves the backup table behind, so a table can be migrated only once; and an old
  `reported_comments`, `tipping` or `notification` table, which has no backup statement, keeps the
  service from starting (`Migration.SecondUpgradeRefused`, `Migration.NoBackupNoStart`).

## Model

| member | source | states |
|---|---|---|
| `Wire.HtonllIsNetworkOrder` | src/massdata/SessionParser.cpp:221-249 | a 64-bit value through hton has, in a little-endian host's memory, the bytes of the value most significant first |
| `Wire.NtohlReadsNetworkOrder` | src/massdata/SessionParser.cpp:221-249 | ntoh of the memory word of four received bytes is their big-endian value |
| `Wire.NtohllReadsNetworkOrder` | src/massdata/SessionParser.cpp:221-249 | the same for eight bytes, through the two swapped halves |
| `SessionSpec.ParseConcat` | src/massdata/SessionParser.cpp:44-63 | a stream in two pieces means what the first means, followed by what its left-over and the second mean |
| `SessionSpec.ParseRest` | src/massdata/SessionParser.cpp:112-219 | what a parse leaves over contains no further message, and either starts with the magic number or is under 24 bytes |
| `SessionSpec.DropGarbage` | src/massdata/SessionParser.cpp:124-143 | bytes at which no magic number starts can be dropped from the front, so long as 23 bytes stay |
| `SessionRuns.ChunkingInvariance` | src/massdata/SessionParser.cpp:44-63 | for every way of cutting a stream, the calls deliver the messages of the one-shot parse and end in the state of one call on the whole |
| `SessionRuns.ChunkingInvarianceExactly` | src/massdata/SessionParser.cpp:149-166 | every cut delivers the same messages if and only if no header is rejected |
| `SessionRuns.CutAfterRejection` | src/massdata/SessionParser.cpp:149-166 | a concrete cut of a rejected stream, with an empty second chunk, that delivers one message too many |
| `SessionRuns.CutOffLastByte` | src/massdata/SessionParser.cpp:149-166 | the same with two chunks that are not empty, when bytes follow the rejected header |
| `SessionRuns.NonEmptyChunksExactly` | src/massdata/SessionParser.cpp:44-63 | over chunks that are not empty, every cut delivers the same messages if and only if no header is rejected or the rejected one ends the stream |
| `SessionRuns.RejectionIsForever` | src/massdata/SessionParser.cpp:47-60 | after a rejected header every further chunk gives one empty message and the rejection again |
| `SessionRuns.MagicHasNoBorder` | src/massdata/SessionParser.hpp:64 | no proper suffix of the magic number is a prefix of it |
| `SessionRuns.GarbageDoesNotMask` | src/massdata/SessionParser.cpp:124-143 | garbage without a magic number forms none together with the header behind it |
| `SessionRuns.EncodeDecode` | src/massdata/SessionParser.cpp:65-102 | a packed header decodes to the version and sizes it was made of |
| `SessionRuns.DecodeEncode` | src/massdata/SessionParser.hpp:43-49 | a decoded header packs to the same 24 bytes |
| `SessionRuns.FrameHeader` | src/massdata/SessionParser.hpp:43-65 | a frame begins with the bytes of the magic number, version 10000 and the two sizes |
| `SessionRuns.OtherVersionRejected` | src/massdata/SessionParser.cpp:151-158 | a header of any other version is rejected and delivers nothing |
| `SessionRuns.ParseNoisyFrame` | src/massdata/SessionParser.cpp:124-143 | garbage in front of a frame changes nothing about the messages |
| `SessionRuns.ResynchronisationLosesNothing` | src/massdata/SessionParser.cpp:112-194 | however a stream of frames with garbage anywhere between is cut, exactly the frames' messages are delivered and at most 23 undecided bytes are kept |
| `SessionParsing.BodyOffset` | src/massdata/SessionParser.cpp:180-193 | the body offset computed with wrap-around is the true one even when more garbage was removed than was cached before |
| `SessionParsing.SessionParser.FindMagic` | src/massdata/SessionParser.cpp:124-136 | the hunting loop finds the position the specification hunts for |
| `SessionParsing.SessionParser.ReadInfo` | src/massdata/SessionParser.cpp:146-166 | the header fields read from the cache are the big-endian ones |
| `SessionParsing.SessionParser.AcquireHeader` | src/massdata/SessionParser.cpp:112-178 | garbage removed, header recognised, rejected or still missing, with the cache bounds of each case |
| `SessionParsing.SessionParser.TakeHead` | src/massdata/SessionParser.cpp:180-193 | head cut out of the cache, body offset within the chunk and past its first byte |
| `SessionParsing.SessionParser.UnpackProtocol` | src/massdata/SessionParser.cpp:112-194 | everything before the body: result, offset and state |
| `SessionParsing.SessionParser.UnpackBodyData` | src/massdata/SessionParser.cpp:196-219 | body bytes taken, listener called exactly when the body is complete |
| `SessionParsing.SessionParser.UnpackStep` | src/massdata/SessionParser.cpp:47-60 | one round of the loop is one step of the specification and uses input up |
| `SessionParsing.SessionParser.Unpack` | src/massdata/SessionParser.cpp:44-63 | state, calls to the listener and result are those of `Feed`, for any state and chunk; the loop terminates |
| `SessionParsing.ReceiveAll` | src/massdata/MassDataManager.cpp:153-160 | a whole session delivers the messages of the one-shot parse of all bytes received |
| `SessionSending.SlicesOfData` | src/massdata/CarrierSessionHelper.cpp:121-131 | slices are the data in order, none empty, all 2048 bytes but perhaps the last |
| `SessionSending.OverflowExactly` | src/massdata/CarrierSessionHelper.cpp:117-134 | the loop counter overflows, if no write is refused, exactly for more than 2^31 - 2048 bytes |
| `SessionSending.SendData` | src/massdata/CarrierSessionHelper.cpp:117-134 | for data of any size: all slices written in order, or those before the first refused write and an error, or those before the counter overflows |
| `SessionSending.SendStream` | src/massdata/CarrierSessionHelper.cpp:136-159 | the same for the part of the stream that its `int` size names, which may be none |
| `SessionSending.Pack` | src/massdata/SessionParser.cpp:65-102 | the header of head and body sizes, a missing body counting as empty |
| `SessionSending.SendMessage` | src/massdata/MassDataManager.cpp:193-213 | header, head and body slices go out in order, each part only when the one before finished, the body only if there is a file |
| `SessionSending.ReplySent` | src/massdata/MassDataManager.cpp:193-213 | a reply of sendable parts, with a body file or without, goes out in full and in order, or up to the first refused write |
| `SessionSending.ReplyDelivered` | src/massdata/MassDataManager.cpp:193-213 | when no write is refused the bytes sent are its frame, and a fresh parser delivers exactly it |
| `SessionSending.HeadOnlyExactly` | src/massdata/MassDataManager.cpp:197-203 | without a body file the loops finish if and only if the head has at most 2^31 - 2048 bytes; the frame is sent and delivered |
| `SessionSending.SendMessages` | src/massdata/MassDataManager.cpp:193-213 | replies with body files or without, one after the other: the loops finish if and only if every head and body has at most 2^31 - 2048 bytes, and then a fresh parser delivers exactly the messages |
| `SessionSending.FramingRoundTrip` | src/massdata/MassDataManager.cpp:193-213 | the slices of any list of messages, each part under 2^31 bytes, fed to a fresh parser: delivered once each, in order, with equal bytes |
| `SessionSending.RoundTripExactly` | src/massdata/CarrierSessionHelper.cpp:117-159 | what `SendMessage` writes is delivered, by loops that finish, if and only if head and body have at most 2^31 - 2048 bytes; what happens to longer ones, case by case |
| `Tables.AddPostCounted` | src/db.cpp:645-772 | a post row and its channel's counter keep describing each other if and only if the id is the stored next one |
| `Tables.AddCmtCounted` | src/db.cpp:1208-1376 | a comment is refused exactly when its post is missing, and otherwise gets a fresh id and keeps all counters |
| `Tables.AddLikeCounted` | src/db.cpp:1890-2066 | refused exactly when subject is missing or liked already; otherwise counters stay right and the total is the number of like rows |
| `Tables.RmLikeCounted` | src/db.cpp:2068-2194 | never fails; counters stay right if and only if there was a row, or no subject |
| `Tables.AddSubCounted` | src/db.cpp:2196-2306 | refused exactly when the row exists; counters stay right if and only if the channel exists |
| `Tables.UnsubCounted` | src/db.cpp:2308-2412 | never fails; counters stay right if and only if there was a row, or no channel |
| `Tables.InsertChanCounted` | src/db.cpp:542-590 | refused exactly when the name is taken; keeps every counter |
| `Tables.UpdateChanCounted` | src/db.cpp:592-643 | refused exactly when another channel has the name; keeps every counter |
| `Database.AllOrNothing` | src/db.cpp:645-772 | for any statements and faults: success exactly without faults or broken constraints, with the whole effect; otherwise what is stored is unchanged, and the connection too unless ROLLBACK is refused |
| `Database.OpenTransactionSticks` | src/db.cpp:542-772 | on an open transaction operations fail and change nothing, single statements succeed as usual but are not stored, and exactly an automatic rollback ends it |
| `Database.NothingStoredWhileOpen` | src/db.cpp:542-772 | whatever work is done until then, nothing of it is stored |
| `Database.RollbackCanBeRefused` | src/db.cpp:2196-2306 | faults that leave a transaction open with a row but not its count |
| `Database.Db.AddPost` | src/db.cpp:645-772 | the goto-structured body is the transaction of its statements |
| `Database.Db.AddCmt` | src/db.cpp:1208-1376 | likewise, and the id reported is the last one of the post |
| `Database.Db.AddLike` | src/db.cpp:1890-2066 | likewise, and the total reported is the stored one |
| `Database.Db.RmLike` | src/db.cpp:2068-2194 | the body is the transaction of its statements |
| `Database.Db.AddSub` | src/db.cpp:2196-2306 | the body is the transaction of its statements |
| `Database.Db.Unsub` | src/db.cpp:2308-2412 | the body is the transaction of its statements |
| `ChannelIndex.Index.ChanPut` | src/feeds.c:93-98 | a new channel enters both tables; tables, entries and links stay consistent |
| `ChannelIndex.Index.AddSub` | src/feeds.c:3821-3849 | entry for an active user, counter up; keys of the user's table are again the stored subscriptions |
| `ChannelIndex.Index.RemoveSub` | src/feeds.c:623-657 | entry leaves table and list, counter down; the graph stays consistent |
| `ChannelIndex.Index.BumpNextPostId` | src/feeds.c:1049-1060 | only the cached next post id of that channel changes |
| `ChannelIndex.Index.ChanSub` | src/feeds.c:107-119 | the replacement is in both tables, and every entry of the channel points at it |
| `ChannelIndex.Index.ActivateSuber` | src/feeds.c:4103-4149 | a new active subscriber has an entry for exactly its stored subscriptions |
| `ChannelIndex.Index.Enable` | src/feeds.c:4053-4153 | exactly the requested destination becomes enabled and the graph stays consistent, whether user and node are new or not |
| `ChannelIndex.Index.DropSuber` | src/feeds.c:4498-4504 | a subscriber without nodes leaves its table and all its entries leave the channel lists |
| `ChannelIndex.Index.Deactivate` | src/feeds.c:4484-4508 | exactly the destinations on that node are gone, every subscriber left has a node, the graph stays consistent |
| `ChannelIndex.Index.Notify` | src/feeds.c:1080-1081 | one notification per node of a subscriber |
| `ChannelIndex.Index.FreshUid` | src/feeds.c:1076-1082 | distinct entries of a channel belong to distinct subscribers |
| `ChannelIndex.Index.FanOut` | src/feeds.c:1076-1082 | the nested loops notify each pair of subscriber and enabled node of the channel exactly once and nobody else |
| `ChannelIndex.Index.NotifyUser` | src/feeds.c:3864-3870 | each enabled node of one user exactly once |
| `FeedsSpec.StepCounted` | src/feeds.c:2255-2300 | every specified step, with any luck, keeps counters equal to row counts, and adds a channel only below the limit |
| `FeedsSpec.StepReports` | src/feeds.c:1049-1074 | the id or total reported is new, is the one stored, and counts the rows; an update changes name and text of its channel and nothing else |
| `FeedsSpec.DoneExactly` | src/feeds.c:659-2419 | which requests are done, case by case: the rights and rows each needs, its look-ups, and no fault in its statements |
| `FeedsSpec.RefusedBecause` | src/feeds.c:659-2419 | a request not done changes nothing and tells no one, and its error code gives a true reason |
| `FeedsSpec.ToldByHistory` | src/feeds.c:1670-1676 | who hears of each kind of request, from the history alone |
| `FeedsSpec.StepFollowed` | src/feeds.c:3849-3944 | what the stored channel columns become is what the handler does to the cached ones |
| `FeedsSpec.RelationsByHistory` | src/feeds.c:3770-4178 | in runs of the specification the two relations are what the history says: subscribed and not unsubscribed since, enabled and the node not disconnected since |
| `ServiceRuns.InSyncExactly` | src/feeds.c:217-4508 | the service is in the specified state after every request if and only if no ROLLBACK is refused |
| `ServiceRuns.CountersStayRight` | src/feeds.c:659-787 | as long as that lasts, and after the request that ends it, every stored counter is the number of rows it counts |
| `ServiceRuns.PostsReachTheJoin` | src/feeds.c:1076-1082 | at any point of any such run a new post is announced, once, to exactly the join of the subscriptions and enabled nodes that the history says |
| `ServiceRuns.ToldExactly` | src/feeds.c:1670-1676 | in every such run posts, comments, likes and channel updates reach, once each, exactly the enabled nodes of those subscribed, a subscription those of the owner, and everything else no one |
| `ServiceRuns.NothingToTheDisconnected` | src/feeds.c:4484-4508 | nothing is addressed to a node between its disconnection and the next time notifications are enabled there |
| `ServiceRuns.RestartUnnoticed` | src/feeds.c:217-251 | of two services, one restarted, the same requests leave the same stored tables, the restarted one notifies no one new, and one gets stuck where the other does; a reply differs if and only if it is to a user active only from before the restart whose subscriptions cannot be read |
| `ServiceRuns.StuckIsPossible` | src/db.cpp:2196-2306 | faults after which the specification says a publish succeeds and the connection refuses it |
| `Feeds.Feeds.Load` | src/feeds.c:217-251 | rebuilding from the database, with however many channels, gives the cached channels, column by column, and the next channel id, if and only if no read fails |
| `Feeds.Feeds.HandleCreateChan` | src/feeds.c:659-787 | reply, tables, cache and next id are the specified ones, and the cache equals the database again |
| `Feeds.Feeds.HandleUpdateChan` | src/feeds.c:789-917 | likewise, and exactly the channel's audience is told, through the list shared with the replaced object |
| `Feeds.Feeds.HandlePublish` | src/feeds.c:982-1091 | likewise; the id used is the cached next one |
| `Feeds.Feeds.HandleComment` | src/feeds.c:1561-1685 | likewise; guards on post and replied-to comment |
| `Feeds.Feeds.HandleLike` | src/feeds.c:2211-2336 | likewise; guards on post, comment and existing like |
| `Feeds.Feeds.HandleUnlike` | src/feeds.c:2338-2419 | likewise; nobody is told |
| `Feeds.Feeds.HandleSubscribe` | src/feeds.c:3770-3882 | likewise; the owner's nodes are told |
| `Feeds.Feeds.HandleUnsubscribe` | src/feeds.c:3884-3962 | likewise; nobody is told |
| `Feeds.Feeds.HandleEnableNotif` | src/feeds.c:4014-4178 | likewise; already enabled is a success that changes nothing |
| `Feeds.Feeds.HandleDisconnect` | src/feeds.c:4484-4508 | likewise |
| `Feeds.Feeds.Handle` | src/cmdhandler/LegacyMethod.cpp:28-64 | each request goes to its handler, and whatever becomes reachable is new |
| `Feeds.Feeds.Serve` | src/cmdhandler/LegacyMethod.cpp:79-94 | requests handled in order until a ROLLBACK is refused are a run, in step exactly if it is healthy, and then in the specified state |
| `Feeds.StartService` | src/feeds.c:253-290 | a service started from any database serves such a run from what is stored, and at its end the stored counters are right |
| `Feeds.NewService` | src/feeds.c:253-290 | from an empty database there are also at most five channels |
| `MsgQueue.Conservation` | src/msgq.cpp:141-217 | within one connection, messages handed to the transport followed by those waiting are those enqueued, in order |
| `MsgQueue.StopAndWait` | src/msgq.cpp:140-217 | within one connection a peer was handed one message for each receipt, and one more exactly while it has a line |
| `MsgQueue.HandedAtOnce` | src/msgq.cpp:206-210 | a message for an idle peer is handed over at once, one for a busy peer waits last, a receipt hands over the one that waited longest or ends the line |
| `MsgQueue.RefusedMeansStuck` | src/cmdhandler/CommandHandler.cpp:111-131 | after a refused send nothing more goes out to the peer until it goes offline |
| `MsgQueue.AllDelivered` | src/msgq.cpp:141-176 | otherwise one receipt per waiting message hands everything over, and one more makes the peer idle |
| `MsgQueue.MsgQs.Enq` | src/msgq.cpp:178-217 | the protocol step for an idle or busy peer, all other peers untouched; the message is handed over exactly if the peer has no queue |
| `MsgQueue.MsgQs.OnReceipt` | src/msgq.cpp:140-176 | any outstanding receipt is possible in the protocol; one for a deprecated queue sends nothing and changes no queue and not the table |
| `MsgQueue.MsgQs.PeerOffline` | src/msgq.cpp:219-229 | the peer's queue leaves the table deprecated |
| `MsgQueue.MsgQs.OneOutstanding` | src/msgq.cpp:141-217 | a live queue is in the table if and only if one send of it is outstanding; without a refusal exactly one receipt is to come |
| `MsgQueue.MsgQs.ServeAll` | src/msgq.cpp:140-229 | any enqueues, receipts and disconnections are a run of the protocol, with what is handed over |
| `MsgQueue.ServePeers` | src/msgq.cpp:140-243 | from start-up, for every peer, messages handed over and those waiting are those enqueued, in order, and one more is handed over than receipted exactly while the peer is busy |
| `Batching.SendBatches` | src/feeds.c:2491-2538 | the loop sends the greedy batches, or those before the first that cannot be enqueued |
| `Batching.BatchesRight` | src/feeds.c:3398-3433 | for every cost function the batches are the items in order, none empty, exactly the final one marked last |
| `Batching.WithinBudgetExactly` | src/feeds.c:3034-3083 | batches stay within the budget if and only if every item does; and exactly then the room left never wraps |
| `Batching.ChannelsAndCommentsLookAhead` | src/feeds.c:3555-3560 | channels, posts and comments look ahead at no less than they will charge; comments are charged by content and looked ahead by content and thumbnails |
| `Batching.LikedPairExactly` | src/feeds.c:3398-3409 | two likes that each keep a budget keep it together, unless the first fits twice and the two do not fit |
| `Batching.NonIncreasingBudgeted` | src/feeds.c:3398-3433 | likes that do not get longer are sent within the budget if and only if each keeps it |
| `Batching.LikedBudgetExactly` | src/feeds.c:3398-3433 | all pages of a list of likes keep every budget that each like keeps, if and only if no like is longer than the one before |
| `Batching.LikedPagesExactly` | src/feeds.c:3398-3433 | under one budget all pages of a list of likes are sent within it, if and only if after each stretch whose items would each fit once more the next item fits |
| `Batching.FewestExactly` | src/feeds.c:3034-3083 | no in-order split within the budget is shorter, if and only if the last batch costs something or is the only one |
| `Batching.PositiveIsOptimal` | src/feeds.c:2710-2757 | the split is optimal whenever the last item costs something |
| `Batching.FreeItemWastes` | src/feeds.c:3048-3083 | a post that fills the budget and a deleted one behind it, which costs nothing, go out in two responses where one would do |
| `Batching.Collector.Step` | src/cmdhandler/ChannelMethod.cpp:130-140 | one row into the captured response, closed when the threshold is reached |
| `Batching.Collect` | src/cmdhandler/ChannelMethod.cpp:98-161 | the responses of a query; none after a database error |
| `Batching.CollectRight` | src/cmdhandler/ChannelMethod.cpp:211-323 | responses are the rows in order, only the final one marked last, cut where 4096 is first reached; such a cut exists, and there is no other |
| `Batching.FirstReachUnique` | src/feedsd-ext/RpcFactory.hpp:30 | there is one way only to cut rows so that each response first reaches the threshold with its own last row |
| `Binding.PhaseNeverBack` | src/did.c:623-956 | no request and no restart lowers the phase |
| `Binding.OwnerKeptExactly` | src/did.c:637-680 | a step keeps a declared owner if and only if it is no restart or the owner is stored as user 1; who is stored as user 1 never changes |
| `Binding.OwnerKeptOverRunsExactly` | src/did.c:499-735 | over any run the owner is the same after every request if and only if there is no restart or the owner is stored as user 1 |
| `Binding.DatesIncrease` | src/did.c:923-937 | over any run accepted credentials have strictly increasing dates |
| `Binding.RecomputedExactly` | src/did.c:523-573 | did_init recomputes the live state if and only if the owner is user 1 |
| `Binding.RecomputableExactly` | src/did.c:499-590 | after any history it does if and only if the first DID recorded is the one told to be the owner |
| `Binding.RecomputableWithoutHalfFailures` | src/did.c:499-590 | so it always does when no declaration stored its row and failed |
| `Binding.HalfFailureChangesOwner` | src/db.cpp:2519-2552 | a half-failed declaration lets a second DID be declared, and a restart hands the service back to the first |
| `Binding.DeclareExactly` | src/did.c:637-680 | a declaration is accepted from the owner or the first to come, who then is the owner; anyone else is not authorized and changes nothing |
| `Binding.ImportExactly` | src/did.c:737-832 | a DID is imported only after a declaration, once, and only if every step succeeds; the owner and the users stay |
| `Binding.ImportedByHistory` | src/did.c:737-832 | the DID of the service is the one that a request of its history imported |
| `Binding.IssueExactly` | src/did.c:860-945 | over every run a credential is accepted exactly if it parses, is valid, has the expected id, is stored, was issued by the owner of that moment for the DID imported, and is newer than the current one |
| `Binding.CredentialInForce` | src/did.c:860-945 | after any history the credential in force is the last one accepted, issued by whoever was the owner then |
| `Binding.UsersGrow` | src/db.cpp:2519-2552 | users are added at the end, by a first declaration or a sign-in after the import, and never removed |
| `Binding.Service.constructor` | src/did.c:499-573 | phase, owner, DID and credential computed from storage |
| `Binding.Service.DeclareOwner` | src/did.c:623-735 | reply and state of a declaration in every phase |
| `Binding.Service.ImportDid` | src/did.c:737-832 | accepted only after a declaration; each failure leaves what the code leaves |
| `Binding.Service.IssueCredential` | src/did.c:834-956 | accepted only for the imported DID, from the owner, and newer than the current one |
| `Migration.JudgedExactly` | src/db.cpp:88-133 | a table whose columns are read to the end is taken for what it is; a current one is taken for an old one exactly when reading stops early |
| `Migration.StepsExactly` | src/db.cpp:455-515 | the statements for a table succeed exactly when none faults and the table is ready for what it is taken for, with the whole upgrade as effect |
| `Migration.RunOpsExactly` | src/db.cpp:455-519 | under any look-ups and faults the loop succeeds if and only if no statement faults and every table is ready |
| `Migration.MigrationKeepsMeaning` | src/db.cpp:239-440 | under any look-ups and faults, after success old tables have the newest columns and every carried column of every row, current ones are untouched, new ones are empty |
| `Migration.CurrentLeftAloneExactly` | src/db.cpp:113-127 | a current table is left alone by a successful migration if and only if it was read to the end, or every column the SELECT list resets held that value already |
| `Migration.MisreadLosesTips` | src/db.cpp:119-127 | a service with nine current tables whose next start succeeds and resets the tip methods of its channel |
| `Migration.MigrationIsIdempotent` | src/db.cpp:87-133 | after a migration that read all columns, every later one that does changes nothing and succeeds, whatever its faults |
| `Migration.StartUpKeepsMeaning` | src/db.cpp:213-540 | the meaning is kept for the nine registered tables |
| `Migration.StartUpAgain` | src/db.cpp:213-540 | starting again changes none of the nine tables |
| `MigratedRows.ChannelsUpgraded` | src/db.cpp:239-243 | every row of an old channels table keeps id, dates, name, introduction, counters and avatar, and the other columns get literal values |
| `MigratedRows.PostsUpgraded` | src/db.cpp:273-277 | of posts: keys, dates, counters, status and content |
| `MigratedRows.CommentsUpgraded` | src/db.cpp:308-312 | of comments: keys, the comment replied to, the author, dates, likes, status and content |
| `MigratedRows.UsersUpgraded` | src/db.cpp:330-333 | of users: id, DID, name and email |
| `MigratedRows.SubscriptionsUpgraded` | src/db.cpp:354-358 | of subscriptions: user and channel |
| `MigratedRows.LikesUpgraded` | src/db.cpp:377-380 | of likes: subject, user and date |
| `MigratedRows.CreatedColumns` | src/db.cpp:218-446 | a missing table is created empty with its literal columns |
| `MigratedRows.IndexesMade` | src/db.cpp:474-508 | created or upgraded channels, posts and comments have both their indexes |
| `Migration.RegistryFits` | src/db.cpp:218-446 | column counts and SELECT lists fit the columns of the nine tables; six have a backup |
| `Migration.SecondUpgradeRefused` | src/db.cpp:465-470 | a table migrated once cannot be migrated again |
| `Migration.NoBackupNoStart` | src/db.cpp:382-446 | a table registered without a backup and taken for an old one fails the start, under any faults |
| `Migration.Connection.DbInit` | src/db.cpp:447-540 | succeeds if and only if BEGIN and END do, no statement faults and every table is ready; stored is then the whole migration with its meaning, and otherwise what it was |
| `MigratedCounters.StartUpKeepsCounters` | src/db.cpp:218-446 | read as counters and rows, the tables after a successful start-up are those before, for every mix of old, current and missing ones; so counters are right after it exactly when they were |
| `MigratedCounters.StartUp` | src/db.cpp:213-540 | no start-up, successful or not, changes a counter or what it counts |
| `MigratedCounters.ChannelsRead` | src/db.cpp:224-238 | the channels read are exactly the rows, each with its own values when ids differ |
| `MigratedCounters.PostsRead` | src/db.cpp:255-271 | the same for posts |
| `MigratedCounters.CommentsRead` | src/db.cpp:288-307 | the same for comments |
| `MigratedCounters.LikesRead` | src/db.cpp:366-376 | the likes read are exactly the rows |
| `MigratedCounters.SubsRead` | src/db.cpp:345-353 | the subscriptions read are exactly the rows |
| `MigratedCounters.DecodedReads` | src/db.cpp:218-380 | what is read of a stored schema is the rows of the five tables and nothing else |
| `RowFlattening.HeldReadsBack` | src/db.cpp:2606-2644 | every field reads back as its column and ends before the next begins |
| `RowFlattening.Row2Chan` | src/db.cpp:2606-2644 | all copies stay inside the allocation, which is used to the last byte |
| `RowFlattening.Row2Subchan` | src/db.cpp:2719-2752 | the same |
| `RowFlattening.Row2Post` | src/db.cpp:2819-2860 | the same with one byte to spare, two when the content is withheld |
| `RowFlattening.Row2Cmt` | src/db.cpp:3179-3225 | the same |

## Left out

- Threads: handlers run on a pool and receipts on the transport's thread; each is one atomic step here.
- SessionParsing.SessionParser.Unpack: requires non-negative header sizes and chunks of less than 2^31 bytes; file-system failures of the body file are not modelled, a body is a byte sequence, and a listener is always present.
- SessionSending.SendMessage: requires a head of less than 2^31 bytes, which is what the 32-bit header field and the parser's `int` hold; what a loop does after its counter overflows is not modelled, because the language does not define it.
- The second reading of a message body by the command processors behind the listener, and the removal of body files.
- SQLite: a statement is one table update that may fail; foreign keys, timestamps, contents, proofs and moderation states of posts and comments are not columns here. Statements outside the modelled operations are not modelled.
- Feeds.Feeds.HandleSubscribe: once a ROLLBACK was refused nothing is claimed about later requests, because the open transaction makes look-ups see rows that are not stored; what the connection does then is `Database.OpenTransactionSticks`. The same holds for the other handlers.
- Access tokens and DID readiness: a handler gets the user id of a valid token; the owner check is modelled.
- Out of memory in handlers, which replies with an internal error and changes nothing.
- The order of keys in hash tables: notifications of a fan-out are a sequence without repetition whose order is not promised.
- Reference counts and keys that point into channel objects; tables map by value.
- MsgQueue.Conservation: what still waits when a peer goes offline is dropped by the code and is not counted after that; two messages for a peer may also be at the transport together after a reconnect, whose order is the transport's.
- Batching.WithinBudgetExactly: for comments the budget covers the content only, because thumbnails are not charged. The value of MAX_CONTENT_LEN comes from a transport header that is not part of this model, so the budget is a parameter.
- Batching.Collect: row sizes are given; their computation from C++ object sizes is not modelled.
- Binding: reading failures and missing memory at start-up, the QR server and the publication of the DID document; a credential is its issuer, subject, date and the verdicts of the DID library.
- Batching.LikedPagesExactly: is about all pages of a list; one page alone may keep the budget by chance.
- Migration: uniqueness and NOT NULL constraints of the new tables are faults; the versions migrated from are any with a different number of columns.
- Reports, moderation of comments, statistics, editing and the marshalling of messages: they add no state beyond what is here or repeat the same patterns.
