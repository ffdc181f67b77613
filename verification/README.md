# The chat pipeline, verified

A Dafny model of a chat system's write and delivery side, with proofs. It covers

* the persist worker, which takes frames from the `chat.msg` log, stores them in Postgres and writes
  `chat.push`: its slow path (one frame at a time), its batched path, and its consumer loop with
  crashes between any two transactions;
* group management, which writes event rows into the same number streams;
* the deliver worker, its route cache, the relay end on the chat servers and the way back of
  acknowledgements;
* the `online:` records, the connection tables they describe and the reconciler that sweeps them;
* the smaller cores: id generator, push throttle, feed page, token and cursor codecs.

`dafny verify dfyconfig.toml` checks the whole project.

## How it is built

The tables are one value, `Tables.Db`: maps for `messages`, `conversations`, `kv`, `groups` and
`group_members`, with the unique indexes that matter. A transaction is a function from tables to tables. What
the program does in place is a class (`Store`, `Worker`, `GroupStore`, `Server`, `Router`, `Generator`, ...)
whose methods have the program's loops and are proved against those functions; the properties are lemmas
about the functions. Runs are sequences of steps; the state machines (`ChatRuns`, `PersistLoop`,
`DeliveryRuns`, `Routing`, `OnlineState`) let other processes move between any two steps.

| files | subject |
|---|---|
| `Chat`, `Strings`, `Wrappers`, `Tables` | messages, keys, tables, numbering |
| `PersistSpec`, `PersistInvariants`, `PersistWorker` | one frame |
| `BatchSpec`, `BatchBulk`, `BatchRefinement`, `BatchTheorem`, `BatchRefines`, `BatchWorker` | the batched path and its refinement of the slow one |
| `TurnOrder`, `SingleOrder` | the order of numbers and pushes in one turn of the loop |
| `GroupSpec`, `GroupInvariants`, `GroupStore`, `GroupFanout`, `GroupRuns`, `GroupAuthority`, `ConvMembers`, `Dismissal` | groups |
| `ChatRuns` | runs mixing all writers |
| `Delivered`, `BarredIds`, `RivalFrames`, `PersistLoop`, `PersistLoopSafety`, `PersistLoopDelivery`, `PersistLoopRedelivery`, `PersistLoopStuck`, `PersistLoopTurn` | the consumer loop with crashes and redelivery |
| `Routing`, `Relay`, `Delivery`, `DeliveryStory`, `DeliverWorker`, `DeliveryRuns`, `AckDispatch`, `AckPath`, `Pipeline` | delivery and acknowledgements |
| `OnlineKv`, `OnlineState`, `OnlineGuard`, `ConnectionManager`, `GhostSweep` | online records |
| `Snowflake`, `Throttle`, `Codecs`, `Tokens`, `Feed` | the smaller cores |

Random values (conversation ids, message ids without a client id) are inputs: each frame carries the values
that would be drawn while this delivery of it is handled, and a step is possible only with values that are new
in the tables. Name-based ids (section 4.3 of RFC 4122) are taken as injective in their name. Clocks are
sequences of readings, network answers are scripts or arbitrary moves, Kafka is a log with an offset. User ids
contain neither ':' nor a bar, and drawn conversation ids no bar (`SingleKeyCollides`, `AmbiguousNames`). The
conversation a client names in a frame may be any text: where a bar in it matters, for ids and pushes, the result
says so.

## What the proofs found

* The batched path does not look whether the sender belongs to the conversation
  (worker/persist/persist.go:331-352 against 596-602). `BatchRefinesSlowPath` states exactly when that matters,
  `BatchAdmitsStranger` is an instance.
* A frame from a user to himself without a conversation id makes `EnsureSingle` return an error that is not
  poison (database/conversation.go:90-92, worker/persist/persist.go:581-585), so its offset is never
  committed and its batch is delivered again for ever (`StuckIsNeverCommitted`). `HandleKeepsInv` shows that this
  is the only such frame.
* The chat server copies `conv_id` from the client (joker/exchange/router.go:110). With a bar in it a frame can get
  the id of a message of another sender in another conversation, and the batch, which looks at no conversation
  when all its frames are replays, pushes that message's content (`BarredFrameShowsForeignRow`). `BatchPushesFit`
  states exactly when a batch pushes stored rows only, `ForeignRowIsReached` reaches such a state from empty tables.
* In a batch only the first frame of an id is pushed (worker/persist/persist.go:250-265), and the id says nothing
  about the receiver, who need not belong to the conversation (worker/persist/persist.go:574-604). A sender who uses
  one client id for two receivers has both frames committed and the second receiver never pushed to
  (`SecondReceiverIsSkipped`, `SecondIsCommittedUnserved`; exactly: `BatchServesEach`); with a bar a stranger's frame
  can do the same to another sender (`BarredFrameTakesPush`). So at-least-once holds for frames without such a rival
  (`CommittedIsDelivered`, `EveryReceiverIsServed`).
* Without a client id redelivery stores twice (`NamelessFrameIsStoredTwice`); a group message whose sender has
  left is not pushed again (`ReplayAfterLeavingIsPoison`), so at-least-once is stated for single chats.
* `CreateGroup` counts a listed owner twice (`CreateKeepsInv`). `conversations.members` is written at creation
  only (`ColumnStaysFirst`, `ColumnGoesStale`), although the comment says that management keeps it up
  (database/group.go:140).
* The catch-up branch of the id generator can repeat an id (`IdGrows`, `DuplicateHappens`).
* The 30 seconds of the route cache count from the stamp, not from the read, so the bound holds only for reads
  stamped at once (`ThirtySecondsExactly`); and a second goroutine with an older read can undo an invalidation
  (`StampUndoesDrop`, exactly: `DropIsExact`).
* A late unregister takes a reconnected user off (`ReconnectLosesUser`), because it does not compare connections
  (`GuardIsExact`). A delete that fails leaves a record that no sweep removes while the server lives
  (`FailedDeleteOutlivesSweep`). A sweep counts a record whose cs only the Go decoder sees although it stays
  (`CountIsExact`). One undecodable online record of a sender makes the whole acknowledgement batch fail
  (`LookUpFails`, `OneRecordBlocksAnother`).
* A single notification within a window is never announced by a tick, and the next one after the window overwrites
  it (`LoneNotificationIsLost`, exactly: `UnannouncedExactly`).
* `getFeed` dereferences a nil cursor when a pulled post is dated exactly at the bound
  (feed/api/read.go:120, `GetFeed`).
* Tokens are not unique texts (`TokensAreNotUnique`).

## Model

| member | source | states |
|---|---|---|
| `Tables.KvKeysApart` | worker/persist/persist.go:363-374 | the key the batch writes gives the conversation id back through `substring(k from 5)`, and counter keys never meet online keys |
| `Tables.BareKeyLosesId` | worker/persist/persist.go:363-366 | without the `seq:` prefix the id comes back cut, for every id but the empty one: the recorded bug |
| `Tables.SingleKeySymmetric` | database/conversation.go:15-20 | the key of a pair does not depend on who writes first |
| `Tables.SingleKeyInjective` | database/conversation.go:15-20 | without ':' in user ids two pairs share a key iff they are the same unordered pair |
| `Tables.SingleKeyCollides` | database/conversation.go:15-20 | with ':' in user ids two different pairs can share a key |
| `Strings.LessMeans` | database/conversation.go:15-20 | strings are ordered at their first difference |
| `PersistSpec.IdNameInjective` | worker/persist/persist.go:482-487 | the name an id is derived from determines conversation, sender and client id, as long as the first two are written without a bar |
| `PersistSpec.AmbiguousNames` | worker/persist/persist.go:482-487 | some other conversation and sender can have the same name iff there is a bar in the conversation id, the sender or the client id |
| `PersistSpec.IdNameCollides` | worker/persist/persist.go:482-487 | two such names, for a conversation id with a bar |
| `BarredIds.BatchPushesFit` | worker/persist/persist.go:303-319 | in any tables: the pushes of a batch that goes through carry stored rows iff the id of every kept frame that is found stored belongs to the frame's conversation and sender |
| `BarredIds.BarredFrameShowsForeignRow` | worker/persist/persist.go:297-319 | a client's conv_id with a bar gets another sender's content pushed by the batch under a conversation that does not exist, where the slow path rejects the frame |
| `RivalFrames.ForeignRowIsReached` | joker/exchange/router.go:88-115 | from empty tables, in a lawful run, such a state is reached |
| `Tables.AppendKeepsSeqInv` | worker/persist/persist.go:682-721 | one append (next number, row, last_seq) keeps the stored numbers of every conversation exactly 1..counter and last_seq equal to the counter |
| `Tables.CounterCountsRows` | database/kv.go:121-134 | the counter of a conversation is the number of its rows |
| `PersistInvariants.EnsureSingleTwice` | database/conversation.go:89-129 | EnsureSingle is idempotent, whoever of the two asks again |
| `PersistInvariants.HandleKeepsInv` | worker/persist/persist.go:495-565 | one frame of any kind keeps all invariants, and fails (is neither stored nor skipped) iff a user writes to himself without naming a conversation |
| `PersistWorker.Store.EnsureSingleTx` | database/conversation.go:89-129 | the transaction, insert by insert, has the specified outcome; errors leave the tables alone |
| `PersistWorker.Worker.PersistTransaction` | worker/persist/persist.go:682-721 | the storing transaction: replay, new row with the next number, or constraint violation without a trace |
| `PersistWorker.Worker.CheckGroup` | worker/persist/persist.go:609-651 | the loop over the members accepts exactly the specified frames and yields the active members as targets |
| `PersistWorker.Worker.OnlineMembers` | worker/persist/persist.go:654-670 | keeps the targets with an online record, in order |
| `PersistWorker.Worker.ProducePush` | worker/persist/persist.go:725-750 | buffers during a batch, writes at once otherwise; nothing is lost either way |
| `PersistWorker.Worker.FlushPushes` | worker/persist/persist.go:456-475 | writes the whole buffer and empties it; after a failing write the records that got through are in the log, and the buffer is empty all the same |
| `PersistWorker.Worker.HandleFrame` | worker/persist/persist.go:495-565 | the object's handling of a frame, with its in-place mutation, equals the specification in tables, pushes and status |
| `BatchWorker.ResolveBatch` | worker/persist/persist.go:190-236 | fills in the known conversations in place and lists the frames of unknown pairs |
| `BatchWorker.CheckGuards` | worker/persist/persist.go:320-352 | the two counting queries hold iff every user and every conversation exists |
| `BatchWorker.BulkTransaction` | worker/persist/persist.go:354-437 | counters, numbers, rows and last_seq of the bulk statements are those of single appends in batch order |
| `BatchWorker.HandleSingleBatch` | worker/persist/persist.go:185-452 | the imperative batched path equals its specification in tables, frames, pushes and outcome |
| `BatchWorker.ConsumeBatch` | worker/persist/persist.go:107-172 | one turn of the loop: batch, fallback, the other kinds, flush, as the specification orders them; committed iff no frame failed, the flush succeeded and the commit did |
| `BatchBulk.BulkIsAppendEach` | worker/persist/persist.go:354-437 | one increment per conversation plus one multi-row insert leave exactly what appending one by one leaves, and nothing else does |
| `BatchRefinement.EarlyFirst` | worker/persist/persist.go:225-245 | handling the first frames of new conversations before all others ends in the tables of the original order |
| `BatchRefines.BatchRefinesSlowPath` | worker/persist/persist.go:125-144 | for every batch of unstuck frames: it never fails; after a fallback the slow path ends in the slow path's tables; when it goes through, it does so iff every not yet stored frame that names an existing conversation comes from a member of it |
| `BatchRefines.BatchGoesThrough` | worker/persist/persist.go:320-352 | users and named conversations all existing, the batch is done without fallback |
| `BatchRefines.BatchAdmitsStranger` | worker/persist/persist.go:331-352 | a stranger's frame that Handle rejects as poison is stored by the batch |
| `TurnOrder.SinglesInOrder` | worker/persist/persist.go:107-124 | the single-chat list of a turn holds each such frame behind as many as come before it in the batch, and nothing else |
| `TurnOrder.OthersInOrder` | worker/persist/persist.go:145-158 | so does the list of the group and event frames |
| `TurnOrder.TurnKeepsOrder` | worker/persist/persist.go:145-158 | a turn that does not fail: of two accepted group frames (or event envelopes) the earlier one's row is pushed to all its targets before the later one's; new ones of one group hold what they say and are numbered in log order |
| `TurnOrder.MemberHearsInOrder` | worker/persist/persist.go:145-158 | a member of both groups who is online gets the push of the earlier frame before that of the later |
| `SingleOrder.SinglesKeepOrder` | worker/persist/persist.go:125-144 | batched path with its fallback, frames none of which is stuck: of two new frames of one conversation that pass the checks the earlier has the smaller number and the earlier push, early ones, bulk ones and retried ones alike |
| `SingleOrder.TurnKeepsSingleOrder` | worker/persist/persist.go:107-172 | the same for two single-chat frames of one turn, in terms of the batch and of the tables and pushes at its end |
| `SingleOrder.ReplaysKeepOrder` | worker/persist/persist.go:311-319 | frames found stored are pushed again in order, with number and content of their rows |
| `GroupStore.GroupStore.InsertSystemEvent` | database/group.go:83-100 | takes the next number of the group's stream and writes the event under it |
| `GroupStore.GroupStore.CreateGroup` | database/group.go:103-161 | the creating transaction, row by row, commits the specified tables or none |
| `GroupStore.GroupStore.MutateAsOwner` | database/group.go:231-265 | alive, owned, changed, event written, or nothing at all, as specified; Rename, SetAnnouncement, SetPin and Dismiss are its changes. ManageSucceeds says for whom |
| `GroupStore.GroupStore.AddMembers` | database/group.go:268-311 | refuses an empty list, else the owner's operation that joins the newcomers |
| `GroupStore.GroupStore.InsertNewcomers` | database/group.go:270-310 | filters active members, refuses beyond 500, inserts or revives the rest, recounts |
| `GroupStore.GroupStore.RemoveMember` | database/group.go:314-341 | never the owner; otherwise the owner's operation that marks the member as left |
| `GroupStore.GroupStore.Quit` | database/group.go:344-382 | the specified outcome, rolled back on every refusal |
| `GroupInvariants.JoinKeeps` | database/group.go:268-311 | after joining, at most 500 are active, exactly the old ones and the listed ones, the count is exact |
| `GroupInvariants.LeaveKeeps` | database/group.go:314-341 | after leaving, exactly the others are active and the count is exact |
| `GroupInvariants.ManageKeepsInv` | database/group.go:231-265 | a successful operation keeps every invariant and writes exactly one event under the next number |
| `GroupInvariants.QuitKeepsInv` | database/group.go:344-382 | so does quitting |
| `GroupInvariants.CreateKeepsInv` | database/group.go:103-161 | creation keeps the invariants; member_count is exact iff the owner is not listed among the members |
| `GroupAuthority.ManageSucceeds` | database/group.go:231-265 | an owner's operation succeeds iff the group exists and is not dismissed, the operator is its owner, the event fits, and: list not empty and at most 500 in the group afterwards / target in it and not the owner / name not empty |
| `GroupAuthority.ManageRefuses` | database/group.go:231-341 | each refusal (not found, dismissed, not owner, bad target, full, constraint) iff its own condition on tables, operator and change |
| `GroupAuthority.ManageChanges` | database/group.go:246-426 | after a success: every column of the group's row, every row of its members (a joiner keeps the role of an old row), the count; all other groups untouched |
| `GroupAuthority.JoinersComeLast` | database/group.go:268-311 | who joins comes behind the active members in the order of joined_at |
| `GroupAuthority.QuitSucceeds` | database/group.go:344-382 | a member leaves iff the group is alive, he is in it and not its owner, and the event fits; each refusal iff its condition |
| `GroupAuthority.QuitChanges` | database/group.go:361-376 | nothing changes but the leaver's row and the count |
| `GroupAuthority.CreateSucceeds` | database/group.go:103-161 | a group is created iff owner and name are given, its id is unused, nobody but the owner is listed twice and the event fits |
| `GroupAuthority.CreateWrites` | database/group.go:116-151 | the row of the group column by column, one row per member with his role, the conversation with the same members |
| `GroupAuthority.OnlyTheOwnerGoverns` | database/group.go:231-265 | over every run in which the owner orders nothing in his group: name, announcement, pin, status and owner stay, and so do the member rows of everybody who does not leave himself |
| `GroupRuns.GroupStaysInOrder` | database/group.go:103-426 | from creation on, over every run: owner active and alone in his role, conversation members = active members, member_count exact if the owner was not listed |
| `ConvMembers.ColumnStaysFirst` | database/group.go:139-146 | over every run conversations.members of a group stays the list written at creation, so it lists the active members iff they are the first ones again |
| `ConvMembers.ColumnGoesStale` | database/group.go:231-265 | an owner's operation on a group whose column lists the active members leaves such a one iff it neither removes anybody nor brings anybody in |
| `ConvMembers.QuitMakesColumnStale` | database/group.go:344-382 | a departure always leaves a column that does not |
| `GroupFanout.AcceptedMeans` | worker/persist/persist.go:609-651 | the checks of a group frame, iff, in terms of group, members and owner |
| `GroupFanout.AcceptedExactly` | worker/persist/persist.go:495-604 | a frame of any kind is accepted iff the tables have what its kind needs, users, membership, owner, ids, a missing type read as single; it comes back for ever iff it is a self message without a conversation; all others are poison |
| `GroupFanout.GroupMessageReachesMembers` | worker/persist/persist.go:516-565 | accepted: exactly one row for its id, one push to each online member and nobody else, with the row's number and content, the frame's ids and sender, mention flag exact; rejected: nothing |
| `GroupFanout.ReplayAfterLeavingIsPoison` | worker/persist/persist.go:609-651 | a stored group frame whose sender left, or whose group was dismissed, is poison when it comes again: no push |
| `ChatRuns.RunKeepsInv` | worker/persist/persist.go:360-437 | over every run of frames, batches, opened conversations and group operations all invariants hold |
| `ChatRuns.NumbersAreDense` | database/group.go:83-100 | from empty tables, over every such run: numbers exactly 1..counter, none twice, last_seq the counter |
| `Dismissal.DismissedRefuses` | database/group.go:243-245 | no operation on a dismissed group succeeds |
| `Dismissal.FrameIsQuiet` | worker/persist/persist.go:619-621 | no group message is stored in a dismissed group; the frame is poison and changes nothing |
| `Dismissal.DismissedStaysQuiet` | database/group.go:419-426 | over every later run the group stays dismissed and gets neither a group message nor an event |
| `Dismissal.DismissEventIsLast` | database/group.go:419-426 | the dismiss event keeps the highest number among the group's messages and events for ever |
| `Dismissal.EnvelopeIsFannedOut` | server/api/group.go:164-189 | an event envelope leaves the tables alone iff its row is stored, and is fanned out with the stored content, dismissed or not |
| `Delivered.HandleIsSound` | worker/persist/persist.go:495-565 | every push a frame causes carries id, conversation, number, sender and content of a stored row |
| `Delivered.FinishIsSound` | worker/persist/persist.go:435-450 | so does every push of a batch, but for replays of frames whose conversation a client has named with a bar |
| `Delivered.KeptAreAddressed` | worker/persist/persist.go:435-450 | a batch that goes through pushes exactly the frames it keeps: each of them to its receiver, in its conversation, from its sender, with its client id and type, and nothing else |
| `Delivered.BatchServesEach` | worker/persist/persist.go:250-265 | a batch that goes through has a push to the receiver of every frame of it iff its frames with equal ids agree in receiver, conversation and sender |
| `Delivered.RecordedIsIdle` | worker/persist/persist.go:682-699 | a frame that has its row changes no table when it comes again |
| `PersistLoopSafety.MoveKeepsInv` | worker/persist/persist.go:80-174 | every move of the loop, and of the processes around it, over any client's frames, keeps the invariant: tables in order, ids fitting their rows, and no push before its row, but for conversations that a frame of the log names with a bar |
| `PersistLoopSafety.RunKeepsLoopInv` | worker/persist/persist.go:80-174 | the same over every run with crashes, outages and partial flushes anywhere |
| `PersistLoopDelivery.CommittedIsDelivered` | worker/persist/persist.go:80-174 | at-least-once: a committed offset whose frame had to be accepted, and whose id no frame of the log takes for another receiver or with a bar, has its row and a written push of that row to its receiver |
| `PersistLoopDelivery.OneReceiverIsEnough` | worker/persist/persist.go:482-487 | no client id of the sender used for two receivers and no bar in a conversation id: then no frame of the log rivals this one |
| `PersistLoopDelivery.EveryReceiverIsServed` | worker/persist/persist.go:80-174 | so, with clients that keep to that, every committed frame that had to be accepted is delivered to its receiver |
| `RivalFrames.SecondReceiverIsSkipped` | worker/persist/persist.go:250-265 | two frames that differ in their receiver alone: in one batch the second receiver gets no push, by itself the frame is pushed to him |
| `RivalFrames.SecondIsCommittedUnserved` | worker/persist/persist.go:144-173 | and the turn of the loop with the two commits both offsets |
| `RivalFrames.BarredFrameTakesPush` | worker/persist/persist.go:250-265 | a frame with a bar in its conversation id takes the push of another sender's frame of the same id |
| `PersistLoopRedelivery.RecordedFrameIsIdle` | worker/persist/persist.go:495-565 | in every run, whatever stands beside it in its batch: a transaction about a frame that has its row changes no table, on the slow path, the fallback and for first frames; one about any frame adds at most that frame's row |
| `PersistLoopRedelivery.RedeliveredBatchAddsNoRow` | worker/persist/persist.go:267-310 | in every run each row the bulk transaction adds is that of a frame of the batch that had none, with its fields |
| `PersistLoopRedelivery.CountersFollowRows` | database/kv.go:121-134 | in every run every move takes each counter forward by exactly the new rows of its conversation |
| `PersistLoopRedelivery.RedeliveryChangesNothing` | worker/persist/persist.go:297-319 | when all frames of a batch have their rows, no transaction of the worker changes any table, on any path |
| `PersistLoopRedelivery.OneIdPerFrame` | worker/persist/persist.go:482-487 | every delivery of a recorded frame computes the id of its one row |
| `PersistLoopRedelivery.NamelessFrameIsStoredTwice` | worker/persist/persist.go:482-487 | without a client id a frame delivered twice gets two rows and two numbers |
| `PersistLoopStuck.StuckIsNeverCommitted` | database/conversation.go:90-92 | over every run the committed offset never passes a frame of a user to himself without a conversation id |
| `PersistLoopTurn.TurnIsConsume` | worker/persist/persist.go:107-172 | one undisturbed turn of the state machine is the batch function |
| `Pipeline.AcknowledgedIsStoredAndQueued` | internal/chat/chat.go:83-93 | across both workers, over any client's frames: every ack is for a push that has lain in its receiver's queue on some server, and carries id, conversation, number and sender of a stored row unless a client has named its conversation with a bar |
| `Routing.Router.Get` | worker/deliver/router.go:46-69 | hit, negative entry, fresh stamp or error, with the resulting cache |
| `Routing.Router.Invalidate` | worker/deliver/router.go:72-76 | drops one entry |
| `Routing.ReadSays` | worker/deliver/router.go:46-69 | a read gives the addr of the record, empty without one, an error if it does not decode |
| `Routing.EntryLivesThirtySeconds` | worker/deliver/router.go:48-69 | what was read serves every look-up for 30 seconds from the stamp, an absent record included, and not a moment longer, unless dropped or stamped again |
| `Routing.VerdictsAreRecent` | worker/deliver/router.go:46-69 | over every history any verdict returned was true less than 30 seconds and the time a read takes to be stamped ago |
| `Routing.ThirtySecondsExactly` | worker/deliver/router.go:11-12 | every hit in every history was true within 30 seconds iff reads are stamped within one tick of the clock |
| `Routing.SlowStampIsStale` | worker/deliver/router.go:64-67 | a history, for any slower stamp, whose hit is of a verdict last true more than 30 seconds ago |
| `Routing.RetryReadsAfresh` | worker/deliver/deliver.go:402-429 | with one goroutine for the user, every verdict after an invalidation was true at that moment or later |
| `Routing.DropIsExact` | worker/deliver/router.go:71-76 | after an invalidation no verdict on the user, in any continuation, is older than it, iff every look-up of him in progress that can still be stamped failed or read what is true at that moment |
| `Routing.StampUndoesDrop` | worker/deliver/router.go:64-67 | with two goroutines a late stamp can bring the old address back |
| `Relay.BatchQueues` | joker/relay/server.go:123-135 | results line up by index, each connection gets its accepted frames in request order, queues stay within 32, not_found iff no connection |
| `Relay.AcksReachSenders` | joker/relay/server.go:137-176 | a request of acks: the queue of u grows by the accepted acks with from_uid u in request order, and each result follows from that user's connection, its 32 places and the caller's context alone |
| `Relay.MessagesReachReceivers` | joker/relay/server.go:90-135 | a request of messages: the same with to_uid |
| `Relay.FullMeansFull` | joker/relay/server.go:109-119 | send_full iff the connection's queue is full at that point of the request |
| `Relay.MarshalErrorMeans` | joker/relay/server.go:104-109 | marshal_error iff the user has a connection and the frame does not encode |
| `Relay.TalliesAddUp` | joker/relay/server.go:45-70 | every frame is counted exactly once, under what happened to it, an accepted one under its kind |
| `Relay.Server.EnqueueFrame` | joker/relay/server.go:90-121 | look-up, encoding and non-blocking send with its counter, for messages and acks, as specified; whose queue it is: AcksReachSenders, MessagesReachReceivers |
| `Relay.Server.RelayBatch` | joker/relay/server.go:124-149 | the loop over a batch equals the specification in queues, results and counters |
| `Delivery.CallsAreBounded` | worker/deliver/deliver.go:379-444 | a push costs at most six unary calls, whatever is answered |
| `Delivery.RetriesLookUpAfresh` | worker/deliver/deliver.go:379-429 | every look-up but the first directly follows an invalidation |
| `Delivery.FateIsAnswered` | worker/deliver/deliver.go:399-444 | a push is delivered iff its last call was accepted, and offline iff its last look-up found no address |
| `Delivery.BatchConserves` | worker/deliver/deliver.go:279-316 | every push of a list ends once in exactly one of delivered, offline, dropped |
| `DeliveryStory.RunIsLawful` | worker/deliver/deliver.go:379-444 | every run for a push tells a story of look-ups, calls and backoffs that follows the rules: a call to the address just found, the first not_found of an attempt followed by a look-up, a failure of the first or second attempt by a backoff; it is dropped iff refused, not found again after its correction, cancelled, or failed in the third attempt |
| `DeliveryStory.StoryIsUnique` | worker/deliver/deliver.go:379-444 | those rules leave no choice: any story that follows them on the same answers is the worker's, with its fate and its actions |
| `DeliveryStory.BatchUnfolds` | worker/deliver/deliver.go:279-316 | one batch call: accepted pushes delivered, refused ones dropped, each not_found one with its route dropped and its own such story, all of them their own story when the call failed or its results are incomplete; the three lists grow by exactly the pushes that ended so, in order |
| `DeliveryStory.NotFoundIsCorrected` | worker/deliver/deliver.go:309-312 | every push the batch call did not find has Invalidate and then a look-up of its receiver behind the call |
| `DeliverWorker.Worker.Deliver` | worker/deliver/deliver.go:399-444 | one attempt with its one correction, during a batch and outside one |
| `DeliverWorker.Worker.DeliverWithRetry` | worker/deliver/deliver.go:379-396 | the retry loop is the specified run of calls, invalidations and bookings |
| `DeliverWorker.Worker.DeliverBatch` | worker/deliver/deliver.go:279-316 | one batch call, its fallback and the single corrections are the specified walk, which BatchUnfolds spells out |
| `DeliverWorker.Worker.FlushDelivered` | worker/deliver/deliver.go:330-360 | both lists are emptied; handed on at once where there is a hook for batches, which may fail, and one by one otherwise |
| `DeliveryRuns.MoveConserves` | worker/deliver/deliver.go:235-276 | every step of any goroutine conserves the pushes |
| `DeliveryRuns.EveryPushMeetsOneFate` | worker/deliver/deliver.go:235-276 | in every interleaving, when the goroutines are done, every parsed push is in exactly one list once, after at most one batch call and six unary calls |
| `DeliveryRuns.AcksAreEarned` | worker/deliver/deliver.go:330-345 | no ack whose push has not lain in the queue of its receiver on some server, and whose row is not in the tables |
| `DeliveryRuns.SentWasQueued` | joker/relay/server.go:90-135 | in every interleaving whatever counts as sent has lain in its receiver's queue on some server at some moment of the run |
| `DeliveryRuns.BatchIsGrouped` | worker/deliver/deliver.go:244-258 | the look-ups of a batch leave one group per address with its pushes in topic order, offline pushes waiting for their notice, failed look-ups logged |
| `DeliveryRuns.BatchSortsByConnection` | joker/relay/server.go:90-135 | after a batch call: delivered iff queued, to be corrected iff the receiver has no connection on that server, else dropped |
| `DeliveryRuns.EveryPushIsAccountedFor` | worker/deliver/deliver.go:330-360 | when the goroutines are done and the hooks work: the batch is three lists, exactly the first has acknowledgements, in order, exactly the second notices |
| `AckDispatch.FirstRoundPartitions` | joker/exchange/ack.go:103-126 | every ack with a known address gets exactly one first-round destination, the others none |
| `AckDispatch.SendersAreServed` | joker/exchange/ack.go:106-119 | in terms of the records: unknown sender nowhere, sender on this server locally, any other in the one request to his server |
| `AckDispatch.LookUpFails` | joker/exchange/online.go:47-64 | the look-up for a batch fails, apart from a failing query, iff the record of one of its senders does not decode |
| `AckDispatch.OneRecordBlocksAnother` | joker/exchange/online.go:57-61 | one such record makes the look-up fail for a sender who alone would have been found |
| `AckDispatch.SecondRoundIsRetried` | joker/exchange/ack.go:163-208 | what goes out again after a request is exactly what it lost (LostPicks) and has an address now (RetriedCounts) |
| `AckDispatch.LostPicks` | joker/exchange/ack.go:166-171 | what a request loses is exactly what stands at the places answered not_found, in request order, nothing left out or repeated |
| `AckDispatch.ForPicks` | joker/exchange/ack.go:106-119 | local attempts and each server's list are exactly the acks with that destination, in batch order |
| `AckDispatch.NotFoundIsSentAgain` | joker/exchange/ack.go:163-192 | after a request that succeeds every ack answered not_found, whose sender's record has an address now, goes out to that address, or is tried here if it is this server's |
| `AckDispatch.RetriedCounts` | joker/exchange/ack.go:163-192 | as often as it was answered not_found; not at all when the second look-up fails or finds no address |
| `AckDispatch.RelayedAtMostTwice` | joker/exchange/ack.go:92-208 | over a whole dispatch no ack is relayed more than twice, and each one sent again was answered not_found in its first request |
| `AckDispatch.Dispatcher.GetMany` | joker/exchange/online.go:47-64 | the loop over the rows, failing at the first that does not decode, is that look-up |
| `AckDispatch.Dispatcher.Forward` | joker/exchange/ack.go:146-208 | one request, and exactly what it lost goes out once more, to where the senders are now; nothing without a relayer or after a nil response |
| `AckDispatch.Dispatcher.Dispatch` | joker/exchange/ack.go:92-127 | local attempts and one request per server in batch order up to the first failure; nothing after a failing look-up; retries of all that was not found and has an address now, and of nothing else, so at most two relays for an ack |
| `AckDispatch.FirstOccurrencesMean` | joker/exchange/ack.go:210-235 | first occurrences only, all of them |
| `AckPath.RegistrationLeadsHome` | joker/exchange/manager.go:55-65 | the record a registration writes sends the user's acks to its addr, and removals and the sweep go by its cs |
| `AckPath.AckIsSentHome` | joker/exchange/ack.go:103-126 | the ack of a push goes to the server its sender's record names and to no other, here iff that is this one |
| `AckPath.AckComesHome` | joker/relay/server.go:151-176 | from the delivered push through the dispatch into a queue: on that server it lies, if accepted, in the queue of the push's sender and in nobody else's; not_found iff he has no connection there |
| `AckPath.LocalAckIsQueued` | joker/exchange/ack.go:129-145 | the attempt on this server queues it iff the sender is connected and has room |
| `AckDispatch.UniqueStrings` | joker/exchange/ack.go:210-235 | the loop computes them |
| `OnlineKv.KvTable.Put` | database/kv.go:24-34 | upsert |
| `OnlineKv.KvTable.DeleteIfMatch` | database/kv.go:80-84 | deletes iff the stored cs is the given one |
| `OnlineKv.KvTable.ScanPrefix` | database/kv.go:96-117 | the least rows behind the cursor, in order, up to the limit |
| `OnlineKv.KvTable.GetManyBatch` | database/kv.go:51-69 | exactly the present keys among those asked for |
| `ConnectionManager.Manager.EventRegister` | joker/exchange/manager.go:55-65 | table first, then the record: the two steps of a connection in the cluster model |
| `ConnectionManager.Manager.EventUnregister` | joker/exchange/manager.go:68-78 | whatever connection the user has goes, then the record if it is this server's: the two steps of a removal in the cluster model |
| `ConnectionManager.RegisterIsTwoSteps` | joker/exchange/manager.go:55-65 | table and rows after a registration are those of Connect and PutDone of the cluster model |
| `ConnectionManager.UnregisterIsTwoSteps` | joker/exchange/manager.go:68-78 | and after a removal those of Disconnect and DeleteDone |
| `ConnectionManager.Manager.CleanIdleClients` | joker/exchange/manager.go:118-131 | exactly the connections whose last sign of life plus the timeout is not after now go, with their records |
| `OnlineState.EventKeepsBacked` | joker/exchange/manager.go:55-78 | every event step on any server keeps: a record implies a connection, a removal under way or failed, or a crash |
| `OnlineState.OnlyOwnerDeletes` | database/kv.go:78-84 | a record is removed only by its own server's delete or a sweep's delete for that server |
| `OnlineState.SweptIsTrue` | worker/ghost/ghost.go:48-81 | after any run come to rest and a sweep with the true live set, every record names a live server, and that server holds the user iff its last delete for him did not fail |
| `OnlineState.PrefixIsOnline` | worker/ghost/ghost.go:50-81 | the rows with the sweep's prefix are exactly those under some user's online key, and never counters |
| `OnlineState.SweepSweeps` | worker/ghost/ghost.go:50-81 | the paging sweep leaves in the table exactly the records that state has |
| `OnlineGuard.FailedDeleteOutlivesSweep` | joker/exchange/manager.go:72-77 | one failed delete leaves a record that no sweep removes while the server lives |
| `OnlineGuard.EntryIsNewest` | joker/exchange/manager.go:55-78 | over every run from anywhere: the table holds the user's newest connection unless a removal of an older one has taken it off since |
| `OnlineGuard.GuardIsExact` | joker/exchange/manager.go:67-78 | at every moment of a run the table holds the newest connection iff each removal of the user was of the connection in the table: the check that is missing |
| `OnlineGuard.UserStaysReachable` | joker/exchange/manager.go:55-78 | with that check, succeeding puts and nobody else at his record, a connected user's newest connection is in the table and, but for a put under way, his record names the server |
| `OnlineGuard.ReconnectLosesUser` | joker/exchange/manager.go:67-78 | without it: a late unregister takes a new connection on the same server with it |
| `GhostSweep.Reconciler.Sweep` | worker/ghost/ghost.go:50-81 | for every table and page size above 0: terminates, removes the doomed rows while walking them, returns their number |
| `GhostSweep.SweepIsExact` | worker/ghost/ghost.go:50-81 | over records as Upsert writes them: precisely the dead servers' records go, everything else stays, the count is exact |
| `GhostSweep.CountIsExact` | worker/ghost/ghost.go:67-73 | the returned number is the number removed iff every dead record reads the same in Go and in SQL |
| `Snowflake.FieldsDoNotOverlap` | internal/snowflake/snowflake.go:78 | shifts and ors of in-range fields are a sum below 2 to the 63rd |
| `Snowflake.IdFitsInt64` | internal/snowflake/snowflake.go:14-22 | within 2 to the 41st milliseconds of 1704038400000 ids are the 54-bit numbers from 0 on |
| `Snowflake.PackInjective` | internal/snowflake/snowflake.go:78 | an id determines its three fields and is ordered like them |
| `Snowflake.IdGrows` | internal/snowflake/snowflake.go:44-80 | an id exceeds the one before, except iff the clock was behind and then read the last millisecond: then it repeats it |
| `Snowflake.IdIsOfReading` | internal/snowflake/snowflake.go:44-80 | clock ahead: its reading and sequence 0; same millisecond: the next number, or the first later reading after the 1024th; behind: same sequence and a reading that has caught up; an error only if the clock was behind twice |
| `Snowflake.DuplicateHappens` | internal/snowflake/snowflake.go:50-64 | a clock one millisecond back makes two calls return one id |
| `Snowflake.IdsIncrease` | internal/snowflake/snowflake.go:44-80 | over every run with a steady clock ids strictly increase, wrap-around included |
| `Snowflake.WorkersNeverCollide` | internal/snowflake/snowflake.go:36-41 | generators with different worker numbers never return the same id, whatever their clocks do |
| `Snowflake.Generator.Next` | internal/snowflake/snowflake.go:44-80 | the waiting loops compute the specified call |
| `Throttle.Worker.SendTo` | worker/push/push.go:127-145 | hourly limit, vendor, new window |
| `Throttle.Worker.IngestOne` | worker/push/push.go:101-114 | first or late notification sends, others wait |
| `Throttle.Worker.FlushDue` | worker/push/push.go:117-124 | every due device and no other is flushed, and the vendor takes exactly one push for each whose send succeeds |
| `Throttle.SendsAreThrottled` | worker/push/push.go:99-145 | over every sequence with a steady clock: sends a minute apart, at most 20 in a clock hour, badges never more than notifications |
| `Throttle.TickSends` | worker/push/push.go:117-145 | a tick sends iff the badge is above 1, the minute is over, fewer than 20 were sent in that clock hour and the vendor takes it; it shows the whole badge |
| `Throttle.NotificationSends` | worker/push/push.go:99-145 | a notification is sent at once with badge 1 iff the minute is over, the quota is left and the vendor takes it; else it adds to the badge, or waits alone after the window |
| `Throttle.LoneNotificationIsLost` | worker/push/push.go:116-124 | a single waiting notification is announced by no tick and forgotten by the next |
| `Throttle.UnannouncedExactly` | worker/push/push.go:99-145 | over any events: badges shown, badge waiting and badges overwritten add up to the notifications; none is lost iff no notification finds the window over while others wait |
| `Codecs.DecodeOfEncode` | internal/token/token.go:88-98 | decoding undoes encoding for all byte strings |
| `Codecs.AlphabetIsUrlSafe` | internal/token/token.go:88-98 | the digits are those of RFC 4648, section 5, in order |
| `Codecs.BitsInOrder` | internal/token/token.go:88-98 | three bytes, most significant first, are the four digits of one 24-bit number |
| `Codecs.TestVectors` | internal/token/token.go:88-98 | the vectors of RFC 4648, section 10 |
| `Codecs.BreaksAreSkipped` | internal/token/token.go:92-98 | line breaks anywhere in a text do not matter |
| `Codecs.SpareBitsAreIgnored` | internal/token/token.go:92-98 | texts that end in different digits of an incomplete group decode to the same bytes iff the digits agree but for their spare bits |
| `Codecs.ParseOfFormat` | internal/token/token.go:38 | printing and parsing an int64 in decimal, negative ones included |
| `Codecs.DigitsAreDecimal` | internal/token/token.go:38 | most significant digit first, no leading zero |
| `Codecs.ParseIntRange` | internal/token/token.go:72 | digits are read with or without a sign iff the value fits int64; an empty text or a lone sign is not |
| `Codecs.FindIndex` | internal/token/token.go:100-107 | the first position or -1 |
| `Tokens.ParseOfSign` | internal/token/token.go:33-80 | a signed token parses to its uid before expiry and to the expired error after |
| `Tokens.NobodyIsRefused` | internal/token/token.go:26-60 | no token for an empty uid, and none with an empty first part is accepted |
| `Tokens.AcceptedIsSigned` | internal/token/token.go:43-80 | whatever is not invalid carries the signature of its first two parts |
| `Tokens.TokensAreNotUnique` | internal/token/token.go:61-64 | a token with a line break appended is accepted as well |
| `Feed.CursorRoundTrip` | feed/api/read.go:35-57 | any id, ':' or not, and any int64 time come back |
| `Feed.MergedIsMerge` | feed/api/read.go:120-144 | the loop yields the best entries of distinct posts in descending order, and what is missing ranks below the page |
| `Feed.PageIsNewestFirst` | feed/api/read.go:122-138 | newer before older, larger before smaller id at one moment, by the first differing char; what is left out comes after the page, which is then full |
| `Feed.MergeIsUnique` | feed/api/read.go:120-144 | the candidates alone determine that page |
| `Feed.SurvivingAreDistinct` | feed/api/read.go:161-184 | no post twice, exactly the merged posts that exist and are not deleted |
| `Feed.SurvivingKeepsOrder` | feed/api/read.go:161-184 | in merged order, each with its own time |
| `Feed.SortEntries` | feed/api/read.go:122-127 | in-place sort: ordered, same entries |
| `Feed.GetFeed` | feed/api/read.go:96-184 | the page merged from the inbox and the pulled posts older than the bound, or as old but not the cursor's; or a nil dereference iff there is no cursor and a pulled post is dated at the bound |
| `PersistWorker.Worker.CheckSingle` | worker/persist/persist.go:574-604 | the checks of a single-chat frame, in order, and the conversation it gets |
| `PersistWorker.Worker.ScanMembers` | worker/persist/persist.go:626-635 | one pass yields the sender's role, the set of members and the targets |
| `PersistWorker.Worker.StoreFrame` | worker/persist/persist.go:524-565 | id, transaction, stored content for a replay, pushes |
| `PersistWorker.Worker.PushAll` | worker/persist/persist.go:548-565 | one push to the receiver, or one per online target with its mention flag |
| `BatchWorker.HandleEarly` | worker/persist/persist.go:237-245 | the first frames of unknown pairs, one by one, poison skipped, stopping at an error |
| `BatchWorker.AssignIds` | worker/persist/persist.go:250-265 | ids filled in in place, the first frame of each id kept |
| `BatchWorker.SplitReplays` | worker/persist/persist.go:267-310 | one query parts replays from new frames, in order |
| `BatchWorker.PushReplays` | worker/persist/persist.go:311-319 | replays are pushed with stored number and content |
| `BatchWorker.Gather` | worker/persist/persist.go:320-326 | the users of the frames and the number of frames per conversation |
| `BatchWorker.BulkNextSeq` | worker/persist/persist.go:360-388 | the upsert moves every listed counter by its share and returns the new values |
| `BatchWorker.AssignNumbers` | worker/persist/persist.go:390-413 | each frame's number is the old counter plus its rank in its conversation |
| `BatchWorker.InsertRows` | worker/persist/persist.go:414-426 | the multi-row insert is the specified rows |
| `BatchWorker.RaiseLastSeqs` | worker/persist/persist.go:427-434 | last_seq is raised to the new counter where it is behind |
| `BatchWorker.StoreBatch` | worker/persist/persist.go:303-452 | guards, transaction and pushes of the batch proper equal the specification |
| `BatchWorker.HandleEach` | worker/persist/persist.go:127-139 | frames one by one, poison skipped, stopping at the first error |
| `BatchWorker.Sort` | worker/persist/persist.go:107-124 | parsing: bad payloads dropped, single-chat frames told from the others |
| `GroupStore.GroupStore.InsertMembers` | database/group.go:121-137 | owner first, the listed owner skipped, a second row for a user refused |
| `GroupStore.GroupStore.Rename` | database/group.go:385-393 | refuses an empty name, else the owner's operation |
| `GroupStore.GroupStore.RunChange` | database/group.go:246-250 | each change inside the transaction has its specified tables or error |
| `GroupStore.GroupStore.DropMember` | database/group.go:322-339 | hits an active member or is refused; recount and conversation row |
| `PersistLoopTurn.StartIsInOrder` | worker/persist/persist.go:57-74 | empty tables and any log of client frames satisfy the loop's invariant |
| `PersistLoopTurn.TurnCommits` | worker/persist/persist.go:144-173 | such a turn without a failing frame ends with its pushes written and its offsets committed |
| `PersistLoopTurn.TurnFails` | worker/persist/persist.go:159-171 | one with a failing frame ends with the pushes of the others written all the same, and no offset committed |
| `DeliverWorker.Worker.DeliverIndividually` | worker/deliver/deliver.go:318-325 | every push by itself, in order |
| `DeliverWorker.Worker.TakeResult` | worker/deliver/deliver.go:301-315 | one result, as specified: booked, logged, or corrected by itself after dropping the route (NotFoundIsCorrected) |
| `AckDispatch.Dispatcher.Group` | joker/exchange/ack.go:105-119 | splits a batch into local attempts and lists per server, in batch order |
| `AckDispatch.Dispatcher.ForwardAll` | joker/exchange/ack.go:120-125 | one request per server in any order, stopping at the first failure, and for each that succeeds all its retries |
| `ConnectionManager.Manager.GetAllClients` | joker/exchange/manager.go:82-90 | all connections of the table |
| `Snowflake.Generator.New` | internal/snowflake/snowflake.go:36-41 | refuses worker numbers outside 0..7 |
| `Feed.MergeEntries` | feed/api/read.go:128-138 | the loop with its set of seen posts computes the first entry of every post up to the limit |
| `Feed.Hydrate` | feed/api/read.go:161-184 | posts that are missing or deleted are dropped, in order |

## Left out

- Each `Handle`, and the bulk part of a batch with its replay look-up, is one step, as the serial-consumer rule of docs/architecture-decisions.md:253-261 intends: races between the separate queries inside one `Handle` (a group dismissed between the check and the insert) are not modelled. In the crash model the first frames of a batch, the bulk transaction and every retried frame are separate steps.
- Database errors: a transaction that fails has no effect; `validateSingleMsg` turns any error of the user look-up into poison (worker/persist/persist.go:575-580), so the delivery guarantee is about look-ups that answer.
- TurnKeepsSingleOrder: about new frames; where replays stand among the pushes is ReplaysKeepOrder.
- BatchRefinesSlowPath: compares tables, not pushes: the batch pushes replays after new frames and pushes a frame repeated in the batch once. Which frames of a finished batch are pushed is BatchServesEach.
- DismissedStaysQuiet: about group messages and events; a single-chat frame that names a group passes the checks (worker/persist/persist.go:589-603) and is not excluded.
- CommittedIsDelivered: about frames deliverable before they are fetched and without a rival anywhere in the log, where a rival in the same batch would do; what another consumer of the same partition commits during a rebalance is not modelled.
- SweptIsTrue: a server that starts between the live set being read and its records being scanned may lose them; the sweep there sees the true live set.
- ScanPrefix: rows are compared byte by byte; the collation of the database is not modelled.
- PersistWorker.Worker.ProducePush: a write outside a batch always succeeds; the consumer loop, its only caller in the program, collects.
- RunKeepsLoopInv: says nothing about the rows behind pushes whose conversation a client has named with a bar; BatchPushesFit has the exact condition.
- DropIsExact: about look-ups that can still be stamped within the time a read may take; ThirtySecondsExactly bounds that time.
- CleanIdleClients: connections are values with a number; the sockets, heartbeats and send queues behind them are in Relay or not modelled.
- GetFeed: one page; the next cursor, paging across pages, counters and author names are left out, and inbox stamps are whatever the inbox says.
- Throttle.Worker.FlushDue: the vendor's answer is an input; the order of devices within a tick is arbitrary.
- HTTP handlers, gRPC, Kafka, etcd and Postgres clients, WebSocket pumps, configuration, deployment, the web client: input, output and wiring.
- JSON, HMAC and UUID hashing: payloads are opaque, the authentication code is any function to non-empty byte strings.
- `KvStore.NextSeq` outside a transaction (database/kv.go:139-152): not on the pipeline.
- The fanout worker, counter flush, service discovery, connection pools, migrations and input validation: thin, or easy members only.
