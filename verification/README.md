# knock: the relay, its client, and the invite link

knock is a store-and-forward chat. A server keeps queues and messages in two SQLite tables and
relays them between WebSocket connections; a client subscribes to its peer's queue, shows what
arrives and acknowledges it; an invite link carries a server address, a queue id and a public key.

## What is proved

*Arbitrary clients* (`Guarantees`). `Steps` is the server as a transition system: connections,
commands, write pumps, the three statements of the sweep interleaved with them, the clock, restarts,
and the end of the process after any durable statement and any single send of a command, with what
the write pumps had put on the wire by then. `Ledger` numbers every accepted message. In every
reachable state each acceptance is in exactly one of three places: stored, acknowledged, expired.
Every frame names an accepted message, the sweep is harmless, channels are bounded and lossy, and the
server crashes exactly when a condition on the state before says so.

*Command by command* (`Replies`). For every command, each refusal and each success: which frames
every connection is offered, in which order, and what the tables, the routing table and the log hold
afterwards, in terms of the fields of the message and the rows stored. A frame is dropped exactly
when sixteen wait. A granted SUB offers the whole backlog, and all of it arrives when the write pump
keeps up; an accepted SEND reaches the buffer of an open subscriber with a free slot.

*Retention* (`Retention`), said over histories of steps and times. A sweep takes exactly the messages
and queues whose last use lies more than a week before it was called. A message is stored until it is
acknowledged, for a week at least, through restarts and crashes.

*One recipient among arbitrary others* (`Order`, `Solo`). A connection that asks for at most one
queue is offered its messages in acceptance order, whatever everybody else does and whatever ids they
use. One session of the shipped client on such a connection displays, word for word, a strictly
increasing piece of the acceptances of its queue and no id twice, and its start-up swallows nothing.

*Shipped clients only* (`World`, `EndToEnd`, `Typing`). With one session of the shipped client on each
connection, and fresh ids, nothing acknowledged was never displayed, every message read is displayed,
every line displayed was typed, word for word, in a session that sends to the displaying session's
queue, all ids can be sliced, and the server crashes in exactly one way.

*Acknowledgements* (`Acks`). When everybody acknowledges only what was put on their own wire, every
acknowledged message was delivered; without that, a stranger can acknowledge a message away.

*The routing table is only a cache* (`Mailbox`, `Eviction`, `CacheWitnesses`). A relay that never
forgets a stored queue takes the same steps: one step of the hub differs from it if and only if it is
a SUB or SEND, over an open channel, of a queue that is cached but no longer stored. Lookups may
fail; the relay's fail where the hub's do. Such a queue exists only after a sweep removed a cached
queue, and that can happen. When every connection has left, the table is the empty one of a restart
if and only if no entry named a kicked connection.

*A backlog drains* (`Drain`). n messages are gone after ceil(n / 15) rounds of connect, subscribe,
read, acknowledge, disconnect. In between write pumps take frames, time passes, and other connections
come, go and issue any command that does not crash the server and is neither a SEND to nor a SUB of
this queue. When the write pump lags and nobody else acknowledges, k rounds remove exactly the oldest
15 k.

*The invite link* (`Base64Url`, `InviteLink`). The printer and the parser are inverse exactly on real
ports and well-formed queue ids, and any accepted link normalises. Two accepted links that differ in
host, port, queue id or key text cannot carry one checksum unless two texts collide in four bytes of
SHA-256.

*The imperative parts*. `Store`, `Client`, `Hub` and `Session` are classes with the fields and loops
of the source. Each method is proved equal to a function of `Ledger`, `Channel`, `Relay` or `Chat`,
the functions all results above are about; `HubClass.Hub.Turn` shows that the hub object takes
exactly the steps of the transition system. For the client, each command of the start-up is one move
of `World` (`AskingIsAMove`), and the request loop, a turn of the receive loop and a typed line are
runs of moves (`AnswerIsMoves`, `PumpTurnIsMoves`, `TypeTurnIsMoves`).

## Where the code and its documentation disagree

The model follows the code.

- `protocol/envelope.go:95` promises lower-case queue ids; `ValidQueueID` takes either case
  (`Ids.ValidQueueIDIff`).
- `server/hub.go:184-188` says that the replay precedes SUB_OK; the code answers first.
- `readme.md` describes a 503 answer, delivered marks set on ACK, and an older invite format. The hub
  stores a message whether or not somebody listens, ACK deletes the row, `MarkDelivered` has no caller.
- `server/hub.go:288-291` says the kicked connection dies without a race. Its channel is closed while
  its read pump may still route: if a SEND of the kicked connection is handled then, the answer goes
  to a closed channel and the process ends (`EndToEnd.OnlyKickedSendCrashes`, `EndToEnd.TakeOverCrashes`,
  and `Crashes.TakeOverIsReachable` for a run from the first start). A kicked connection also stays
  subscribed to other queues (`Guarantees.KickedSubscriberCrashesTheServer`,
  `Crashes.KickedSubscriberIsReachable`). Shipped clients subscribe once, so only the first can befall
  them.
- `server/hub.go:264-266` and `server/hub.go:279` slice eight characters of ids that arbitrary clients
  choose; a shorter one ends the process (`Guarantees.CrashesExactlyWhenFatal`,
  `Crashes.ShortIdIsReachable`).
- `readme.md:235` calls the missing ownership check on ACK harmless. Any connection that knows a
  message id removes the message, also one that nobody was sent (`Acks.StrangerAcknowledges`).
- `readme.md:212` calls the map a cache. A queue whose creator stays connected but silent for a week is
  swept from the tables and stays in the map: a later SUB is granted, a later SEND is answered with
  500 instead of 404 (`Mailbox.SweptCacheIsVisible`, `Mailbox.SweptQueueRefusesSends`,
  `CacheWitnesses.StaleQueueIsReachable`). `Mailbox.StepMatches` says exactly when this shows.
- A restart is not the same as every connection leaving: the Unregister of a kicked connection is
  skipped (`server/hub.go:62`), so the queues it owned or read elsewhere keep its role
  (`Eviction.RestartIsEverybodyLeavingUnlessKicked`, `CacheWitnesses.KickedOwnerOutlivesEverybody`).
  Shipped clients reach this too (`CacheWitnesses.ShippedOwnerIsKicked`).

## Assumptions

Ids drawn by `NewID` are fresh message ids for clients; the clock is positive and never goes back
(where order by acceptance is claimed; `Tables.ReplayIsSorted` needs no clock); the hub's `TouchQueue`
calls, whose errors it ignores, succeed; every other store call may fail, without effect. SHA-256 is
an arbitrary function. Only `World` needs fresh ids.

## Model

| member | source | states |
|---|---|---|
| Guarantees.NothingAcceptedIsLost | server/hub.go:250-279 | in every reachable state, after any crash, acceptances are the disjoint union of stored rows, acknowledged and expired messages; stored rows are as accepted and never marked delivered |
| Guarantees.LedgerMovesOnlySo | server/store.go:116-198 | only SEND accepts, only an ACK of its id acknowledges a message, only the sweep's first statement expires one, and only in a queue whose last_active lies a whole time to live back; what that means for the queue's use is said by `Retention` |
| Guarantees.FramesNameAcceptedMessages | server/hub.go:262-268 | every DELIVER and every answer to a SEND that was ever offered to a channel, dropped or not, also by a command the process did not survive, names an acceptance that is still stored unless acknowledged or expired |
| Guarantees.SweepIsSafe | server/store.go:170-191 | with commands between its statements, no message refers to a missing queue, the second statement is never refused and removes only queues whose last_active is that old and that hold no message, the third removes nothing |
| Retention.SweepTakesExactlyTheIdle | server/store.go:170-176 | over any history from the first start: a sweep called at a time takes a stored message if and only if its queue was used since it was stored, and last so more than 604800 seconds before that time; a use is a NEW, a granted SUB or an accepted SEND, also in a process that ended after it |
| Retention.SweepRemovesExactlyTheIdle | server/store.go:177-181 | and the second statement removes exactly the queues of which the same is true |
| Retention.UsedQueueIsKept | server/store.go:164-168 | after a step that told somebody NEW_OK or SUB_OK of a queue, or accepted a message for it, a run whose sweeps are all called within a week keeps the queue in the tables and expires none of its messages |
| Retention.EarlySweepsSpareUsedQueues | server/hub.go:193-193 | after such a step and any later run, no sweep called within the week touches the queue or its messages |
| Retention.AcceptedForAWeek | server/hub.go:250-260 | an accepted message is stored or acknowledged for a week at least, whatever connections, sweeps, restarts and crashes do |
| Replies.BadMessageIsRefused | protocol/envelope.go:63-75 | a message that is no JSON object, has a version other than 1 or an empty type is answered with 400, whatever it asks for, and nothing else changes |
| Replies.PingIsAnswered | server/client.go:79-84 | PING is answered with PONG, an unknown command with 400, and nothing else changes |
| Replies.NewIsAnswered | server/hub.go:108-129 | NEW with a queue id gets 400, a failing one 500 and neither changes anything else; otherwise the drawn queue is stored as created, unless it was there, and active now, the sender owns it and is told so |
| Replies.LookupIsRefused | server/hub.go:133-166 | SUB and SEND get 400, 500 or 404 exactly by the test that fails, SUB of an own queue gets 400, and nothing else changes |
| Replies.SubIsGranted | server/hub.go:180-193 | any other SUB: the old subscriber, if connected, is disconnected and nobody else; the sender is offered SUB_OK and then every undelivered row of the queue in order, as many of them entering the buffer as slots were free; the queue is active now |
| Replies.BacklogArrives | server/hub.go:312-314 | with a free slot and a write pump that takes a frame before each row, all of that enters the buffer, however many rows there are |
| Replies.SendIsNotStored | server/hub.go:250-258 | a SEND whose id is taken or whose queue is gone from the tables, or with a failing store, gets 500 and leaves the tables alone |
| Replies.SendIsDelivered | server/hub.go:244-268 | any other SEND to a queue without a subscriber or with an open one is the newest row and acceptance, under its own id or the one drawn; the subscriber is offered it, then the sender the acknowledgement; nobody else hears anything |
| Replies.OnlineDelivery | server/client.go:156-159 | an accepted SEND, even one the process does not survive, puts its DELIVER into the buffer of an open subscriber with fewer than sixteen waiting frames |
| Replies.StoredFirst | server/hub.go:250-263 | wherever the process ends after the first statement of such a SEND, the message is stored, and it is offered to nobody before |
| Replies.AckDeletes | server/hub.go:276-279 | an ACK removes exactly the rows with its id and tells nobody; it ends the process if and only if one of its ids has fewer than eight characters |
| Replies.LeavingReleases | server/hub.go:59-103 | whoever leaves gives up its roles, entries without a role go, all others stay; a kicked connection gives up nothing |
| Guarantees.ConnectionsAreConsistent | server/hub.go:53-103 | open exactly while in clients, closed at most once, at most 16 frames waiting, what is written is an ordered subsequence of what was offered; owners and subs are in clients or were kicked, never both roles at once |
| Guarantees.CrashesExactlyWhenFatal | server/hub.go:106-286 | a command crashes the server if and only if a condition on the state before it holds: a kicked sender that is answered, a kicked subscriber, or an id too short |
| Guarantees.ObedientClientsNeverCrashTheServer | server/hub.go:180-193 | if only connections in clients issue commands, each for at most one queue and with ids of eight characters, every subscriber is live and no command crashes the server |
| Guarantees.KickedSubscriberCrashesTheServer | server/hub.go:180-182 | in every state where a connection subscribes to two queues, taking over one of them makes the next accepted SEND to the other crash the server, after the message was stored |
| Crashes.KickedSubscriberIsReachable | server/hub.go:292-298 | a run from the first start reaches such a state: three connections, well-formed ids, everybody still connected |
| Invariants.StepKeeps | server/hub.go:53-72 | every step keeps channel life cycle, references, truthful frames, a sound ledger, a timely log, and no message in a queue that is still expired after statement one |
| Invariants.RunKeeps | server/hub.go:53-72 | and so does every run |
| Invariants.ReadKeeps | server/client.go:64-85 | whatever message a connected or kicked connection sends, the hub's invariants survive |
| Invariants.HandleKeepsSwept | server/hub.go:190-260 | a command between two sweep statements does not put a message into a queue about to be removed |
| Order.DeliveryOrder | server/hub.go:180-192 | a connection that asks for at most one queue, among arbitrary others and from any sound state: the DELIVERs offered to it, and those that found room, can be numbered by strictly increasing acceptances of that queue, each carrying what was accepted; none before it asked; it subscribes to nothing else |
| Order.StepWatched | server/hub.go:244-268 | every step of anybody keeps that |
| Solo.SessionOrder | client/pumps.go:48-68 | one shipped session among arbitrary others, with ids that need not be fresh: what it displays are, word for word, strictly increasing acceptances of the queue it asked for, and no id twice |
| Solo.StartUpSwallowsNothing | client/session.go:51-83 | for such a session no DELIVER precedes the answer to its SUB, the frame a waiting request reads is none, the answer is never dropped, and every id it has read was displayed unless a delivery of it could not be decoded |
| Solo.SubIsAnswered | server/hub.go:190-191 | once the server has taken the SUB of a live connection, the answer is in its channel |
| Solo.ActKeeps | client/session.go:87-258 | every act of the session, of the server and of anybody else keeps the invariant behind this |
| EndToEnd.SessionOrder | client/pumps.go:48-68 | with shipped clients only, each id displayed names its acceptance, and these increase |
| EndToEnd.ChannelOrder | server/hub.go:190-192 | with shipped clients only, the ids of the DELIVERs in a channel name increasing acceptances: replayed rows come before later messages |
| EndToEnd.NoSilentLoss | server/hub.go:270-279 | every accepted message is stored, expired, or was displayed by a session of its queue before its ACK removed it |
| Typing.EveryLineShownWasTyped | client/pumps.go:121-129 | with shipped clients only: every line displayed was typed, with this id and this text, by a session whose outbox is the queue the displaying session reads |
| Typing.AcceptedHaveAuthors | client/pumps.go:121-129 | and so was every message the server accepted |
| EndToEnd.StartUpSwallowsNothing | client/pumps.go:48-68 | with shipped clients only, every DELIVER a session reads is displayed; the rest is as for one session among arbitrary others |
| EndToEnd.IdsAreWellFormed | server/hub.go:264-279 | commands on the wire, stored rows and DELIVERs carry 32-digit ids |
| EndToEnd.SubscribersAreLive | server/hub.go:180-190 | every subscriber is a connected session that asked for exactly that queue, on an open channel |
| EndToEnd.OnlyKickedSendCrashes | server/hub.go:268-268 | with shipped clients a command crashes the server if and only if it is a SEND of a kicked connection |
| Crashes.ShortIdIsReachable | server/hub.go:276-279 | the first connection ends the process by acknowledging an empty id |
| Acks.AcknowledgedWasDelivered | server/hub.go:270-279 | if every connection acknowledges only ids put on its own wire, the id of every acknowledged message was sent to somebody, and when no id was accepted twice it was that message, word for word |
| Acks.StrangerAcknowledges | server/hub.go:276-276 | a run from the first start in which a message that was offered to nobody is acknowledged by a stranger |
| EndToEnd.TakeOverCrashes | server/hub.go:180-182 | taking over a queue while its old subscriber has a SEND on the wire leads to that crash |
| Crashes.TakeOverIsReachable | server/hub.go:292-298 | a run of shipped clients from the first start reaches it |
| EndToEnd.MoveKeeps | client/session.go:87-258 | every move of server, wire and sessions keeps the invariant of the whole system |
| Mailbox.CommandMatches | server/hub.go:106-286 | the reply, the deliveries, the rows and the crash of a command are those of a relay that never forgets a stored queue, if and only if it is not a SUB or SEND of a cached queue that the tables have lost |
| Mailbox.StepMatches | server/hub.go:144-160 | the same for every step of the process: evicting, reviving, leaving, sweeping and restarting never show, nor does dying in a command unless it is one of those and something was done |
| Mailbox.CacheIsInvisible | server/hub.go:86-103 | over whole runs in which nobody asked for a lost queue, channels and tables are the same; a lookup of that relay fails only in a step that lets lookups fail |
| Mailbox.GentleRunsAreUnseen | server/store.go:177-181 | as long as no sweep removes a cached queue nobody can ask for a lost one |
| Mailbox.LeaveMatches | server/hub.go:59-67 | unregistering evicts entries; seen from outside, one connection left |
| Mailbox.SweptCacheIsVisible | server/hub.go:144-166 | a SUB of a cached queue that the tables have lost is granted, or refused to its owner, where the tables say 404 |
| Mailbox.SweptQueueRefusesSends | server/hub.go:250-258 | and a SEND to it stores nothing, delivers nothing and is answered with 500 |
| CacheWitnesses.StaleQueueIsReachable | server/store.go:170-181 | a run from the first start after which such a queue is cached, with its creator still connected, and a SUB shows it |
| Eviction.RestartIsEverybodyLeavingUnlessKicked | server/hub.go:59-67 | after everybody has left the table holds exactly the roles of kicked connections: it is the empty table of a restart if and only if no entry named a kicked connection |
| Eviction.OfficeAfterEverybodyLeft | server/hub.go:86-103 | the same for the relay that never forgets: its boxes are those after a restart under exactly that condition |
| Eviction.EverybodyCanLeave | server/hub.go:59-67 | from every state all connections can leave |
| Eviction.KeysCanBeSliced | server/hub.go:92-96 | every key of the table is a queue id, so the slices logged while releasing are in bounds; no entry without a role outlasts the last client |
| CacheWitnesses.KickedOwnerOutlivesEverybody | server/hub.go:292-298 | a run from the first start after which everybody has left and the table is not empty |
| CacheWitnesses.ShippedOwnerIsKicked | server/hub.go:180-182 | shipped clients alone reach a state in which a kicked connection is still an owner |
| Drain.BacklogDrains | server/hub.go:302-314 | n undelivered messages are gone after ceil(n / 15) rounds, while others issue any surviving command but a SEND to or a SUB of the queue |
| Drain.RoundDrains | client/pumps.go:48-68 | a round of a fresh connection removes at least the oldest min(n, 15) messages, and exactly those when the write pump lags and nobody else acknowledges |
| Drain.BacklogDrainsNoFaster | server/client.go:34-34 | then k rounds leave exactly the messages after the oldest 15 k |
| Drain.RoundRuns | server/client.go:26-42 | such a round can always be run |
| Drain.BacklogCanBeDrained | server/hub.go:190-192 | any number of such rounds can be run, and they drain |
| Drain.ReplayBatch | server/client.go:147-160 | the oldest fifteen rows find room behind SUB_OK |
| Ledger.ReplayIsAcceptanceOrder | server/store.go:130-149 | with a clock that never goes back, a replay is exactly the queue's unremoved acceptances in acceptance order |
| Ledger.AcceptKeepsSound | server/store.go:118-126 | an accepted message is stored under the next number, the books stay balanced |
| Ledger.AcknowledgeTakesOne | server/store.go:195-198 | an ACK books exactly the message with its id, or nothing |
| Ledger.ExpireMessagesKeepsSound | server/store.go:172-173 | expiry books what it deletes |
| Ledger.ResidueIsEmpty | server/store.go:183-183 | no row of the hub is ever marked delivered, so the third sweep statement is idle |
| Tables.ReplayIsSorted | server/store.go:131-134 | whatever the clock did, a replay is each undelivered row of the queue once, by ts, and by rowid within one second |
| Tables.StatementsKeepIntact | server/store.go:61-73 | every statement keeps the primary and the foreign key and the rowid order |
| Tables.SweepMessagesClearsTheWay | server/store.go:172-178 | statement one deletes only messages of expired queues and leaves statement two nothing to be refused for |
| Tables.MarkedIsNotReplayed | server/store.go:131-133 | a message marked delivered is never replayed again, and the marking hides no other |
| Channel.WrittenIsSubsequence | server/client.go:89-107 | what the write pump took is an ordered subsequence of what was offered |
| Channel.PushKeepsValid | server/client.go:156-159 | a send that may drop keeps the bound and what found room an ordered subsequence of what was offered |
| Channel.PushIsBuffered | server/client.go:156-159 | a frame is dropped exactly when sixteen wait, whatever was written before |
| StoreClass.Store.CreateQueue | server/store.go:92-101 | INSERT OR IGNORE |
| StoreClass.Store.QueueExists | server/store.go:104-114 | whether the queue is stored |
| StoreClass.Store.SaveMessage | server/store.go:118-126 | succeeds exactly when both keys allow it, and then accepts the message |
| StoreClass.Store.Undelivered | server/store.go:130-149 | the cursor loop returns the whole selection in order |
| StoreClass.Store.MarkDelivered | server/store.go:153-161 | marks one row; no hub operation calls it |
| StoreClass.Store.TouchQueue | server/store.go:164-168 | sets last_active of a stored queue to the present time and changes nothing else, or fails without effect |
| StoreClass.Store.DeleteMessage | server/store.go:195-198 | an ACK in the ledger |
| StoreClass.Store.Sweep | server/store.go:170-191 | the three statements, stopping where one fails, and the counts it reports |
| StoreClass.SweepStaysSound | server/store.go:170-191 | wherever the sweep stops, the ledger is sound and no message is without its queue |
| ClientClass.Client.SendEnvelope | server/client.go:147-160 | enqueue when fewer than sixteen wait, drop otherwise, or panic when closed |
| ClientClass.Client.CloseSend | server/hub.go:63-63 | a second close panics |
| ClientClass.Client.WritePump | server/client.go:98-107 | the loop puts frames on the wire in order, also after the close |
| HubClass.Hub.constructor | server/hub.go:35-45 | a start or restart knows only the tables |
| HubClass.Hub.Register | server/hub.go:56-58 | the connection is added |
| HubClass.Hub.Unregister | server/hub.go:59-67 | closes and releases, or is skipped for a kicked connection |
| HubClass.Hub.ReleaseQueue | server/hub.go:86-103 | deleting while ranging in any order leaves exactly the table without the connection in either role and without entries that lost both |
| HubClass.Hub.Kick | server/hub.go:292-298 | leaves the table alone |
| HubClass.Hub.HandleNew | server/hub.go:108-129 | NEW |
| HubClass.Hub.Lookup | server/hub.go:201-218 | the cached entry, the revived one, or the error |
| HubClass.Hub.HandleSub | server/hub.go:131-193 | SUB: kick the rival, answer, replay, in this order |
| HubClass.Hub.ReplayOffline | server/hub.go:302-319 | the loop offers each undelivered row once, in order, however many there are, while the write pump drains |
| HubClass.Hub.HandleSend | server/hub.go:195-268 | SEND: store first, then deliver, then answer |
| HubClass.Hub.HandleAck | server/hub.go:270-279 | ACK deletes, then slices both ids |
| HubClass.Hub.Read | server/client.go:64-85 | bad messages and PING are answered on the spot, the rest is routed |
| HubClass.Hub.Turn | server/hub.go:53-72 | the object takes exactly the step of the transition system and keeps its invariants; a panic is a restart |
| Chat.PumpedShowsOnce | client/pumps.go:51-54 | whatever the server sends, one message id is displayed at most once |
| SessionClass.Session.Request | client/session.go:51-83 | the request loop |
| SessionClass.RequestVerdict | client/session.go:64-82 | a request succeeds exactly when the first frame that is an error or of the wanted type is of the wanted type; what precedes it is swallowed, nothing after it is read |
| SessionClass.Session.StartUp | client/session.go:133-245 | outbox from the command line, the state file or NEW, then SUB |
| SessionClass.StartUpVerdict | client/session.go:133-245 | exactly when a session reaches the chat, with which outbox, and what it has sent by then |
| SessionClass.Session.ReadPump | client/pumps.go:39-78 | the receive loop with its blocking ACK |
| SessionClass.PumpShowsAndAcksTheNews | client/pumps.go:48-68 | a receive loop shows exactly the news in order and pushes exactly one ACK for each, in the same order |
| SessionClass.NewsAreFirsts | client/pumps.go:51-59 | news are exactly the first deliveries of unseen ids that can be decoded |
| SessionClass.NewsAreNew | client/pumps.go:51-54 | each id is news once and was unseen before |
| SessionClass.Session.StdinLoop | client/pumps.go:108-134 | the keyboard loop |
| SessionClass.KeyboardSendsWhatWasSaid | client/pumps.go:111-133 | it appends, for some of the non-blank lines before /quit and in their order, one SEND each: to the outbox, with the id drawn for the line and its trimmed words |
| SessionClass.LineIsDroppedWhenFull | client/pumps.go:124-130 | a line is dropped exactly when sixteen commands wait |
| SessionClass.FastPumpDropsNothing | client/pumps.go:124-130 | when the write pump keeps up each of those lines leaves as its SEND |
| SessionClass.TrimTrims | client/pumps.go:112-112 | what is left of a line neither starts nor ends with white space |
| SessionClass.TrimIsPiece | client/pumps.go:112-112 | and is a piece of the line; what is cut off on either side is nothing but white space |
| SessionClass.AskingIsAMove | client/session.go:56-58 | writing NEW or SUB is one of the system's moves |
| SessionClass.AnswerIsMoves | client/session.go:64-82 | the request loop is a run of moves |
| SessionClass.PumpTurnIsMoves | client/pumps.go:39-68 | a turn of the receive loop is a run of the system's moves |
| SessionClass.TypeTurnIsMoves | client/pumps.go:111-131 | so is a line typed |
| Base64Url.DecodeEncode | protocol/invite.go:30-30 | decoding inverts encoding for every byte sequence |
| Base64Url.Encode | protocol/invite.go:30-36 | the output is alphabet only, 43 characters for 32 bytes |
| Base64Url.EncodeSpellsBits | protocol/invite.go:30-30 | each digit is the character of its six bits, as section 4 and table 2 of RFC 4648 have it |
| Base64Url.DecodesIff | protocol/invite.go:79-82 | exactly what can be decoded: alphabet and line breaks, and not one digit more than whole groups |
| Base64Url.SpareBits | protocol/invite.go:79-82 | exactly which strings decode to given bytes when the last group is short of a byte |
| Base64Url.FourSpellings | protocol/invite.go:79-82 | exactly four 43-character strings decode to a 32-byte key |
| InviteLink.RoundTripIff | protocol/invite.go:29-95 | a printed invite parses back if and only if the port is 1 to 65535 and the queue id is 32 hex digits; otherwise it is refused |
| InviteLink.PrintedText | protocol/invite.go:29-46 | the printed link of a good invite, letter by letter, with the hash of host, port, queue id and key |
| InviteLink.LinkReadsBack | protocol/invite.go:49-95 | the same for every spelling of the key |
| InviteLink.SpellingsReadAlike | protocol/invite.go:78-90 | all four spellings are accepted, each under its own checksum |
| InviteLink.AcceptedLink | protocol/invite.go:58-90 | an accepted link has a real port, a 32-digit queue id and the checksum of its own host, port, queue id and key text: four bytes of their hash in hex |
| InviteLink.AcceptedUrl | protocol/invite.go:58-95 | a link that could be taken apart is accepted as an invite if and only if its parts name that invite, which has a real port and a 32-digit id, and its checksum vouches for it |
| InviteLink.MistypedLinkIsRefused | protocol/invite.go:42-90 | two accepted links with one checksum that differ in host, port, queue id or key text exhibit two texts whose hashes agree in four bytes |
| InviteLink.VariantsReadAlike | protocol/invite.go:50-56 | the scheme may be in either case and a fragment is dropped |
| InviteLink.AcceptedLinksNormalise | protocol/invite.go:29-95 | printing what was accepted gives a link for the same invite |
| InviteLink.LinkParses | protocol/invite.go:49-53 | url.Parse takes a printed link apart, for every path byte and every port |
| Ids.ValidQueueIDIff | protocol/envelope.go:95-102 | 32 hex digits of either case |
| Ids.ClientCheckIsStricter | client/session.go:293-303 | validQID implies ValidQueueID |
| Ids.ClientIdsAreNewIDs | client/session.go:293-303 | the client accepts exactly the ids NewID can draw |
| Ids.NewIDPassesBothChecks | protocol/envelope.go:86-92 | a fresh id passes both checks and keeps all its random bits |

## Left out

- WebSocket dialling, deadlines, pings, logging, prompting and drawing: input and output without deep state.
- SQLite beyond the table semantics used here (keys, filtered delete, ordered select, rowid), its pragmas, and `migrate`.
- A sweep statement or a PING answer in the middle of one command: commands are atomic here, except that write pumps run and the process may end between any two statements and sends. The sweep could otherwise remove a just stored row of an expired queue between SaveMessage and TouchQueue.
- ClientClass.Client.WritePump: stops after k frames, where the source blocks until the next; the closing frame and failed writes are not modelled.
- SessionClass.Session.ReadPump: the goroutines of a client are run one turn at a time; that turns interleave is the subject of `World`. The ERROR texts it shows are left out.
- HubClass.Hub.Turn: one event of the select loop; the loop is the runs of `Steps`.
- HubClass.Hub.Touch: the hub's calls of TouchQueue succeed; the source ignores their errors.
- JSON text: envelopes are records. Missing payloads and, in shipped runs, payloads that do not decode are outside; `SessionClass.News` covers the latter for one client.
- Drain.BacklogDrains: rounds of one connection at a time, without faults in its own commands, on queues whose stored ids can be sliced; sweeps, SENDs to and rival SUBs of the queue, and ends of the process stay out. The rounds are steps of the server, not acts of a session: a shipped session never acknowledges a payload it cannot decode.
- Error texts; the kinds of ParseInvite's errors are one None.
- InviteLink.AcceptedLinksNormalise: links `knock://user@host:port/path?query#fragment` whose host needs no escaping; bracketed hosts, and hosts with escapes or colons, are not modelled.
- Cryptography other than the checksum, identity and state files, contact lists, saving the outbox and the contact: library calls and thin file wrappers.
- The timestamp of an envelope: no operation reads it.
