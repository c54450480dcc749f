# Verified model of an instant-messaging server

A Dafny model of the parts of the server that are protocols and state machines, with proofs of what
they promise over every input, every run and every interleaving.

- **Messages, ConversationId** - messages, option tables, and the identifiers conversations are filed
  under: how they are built, retagged and taken apart again.
- **Pipeline, Transfer, Delivery** - the message-transfer service: claim readers, ticker, distributor
  and workers as a state machine (order and conservation per key in every interleaving, progress),
  the worker's split of a batch with its shared option tables, and both put together.
- **Gateway, GatewayRuns, WsServer** - the connection registry of a gateway: the state machine of its
  event loop and handlers, what holds of every run (accounting, single login, kicked tokens), and the
  code with its maps, queues and counters, proved to take exactly these steps. **LoginEffects** tells
  the effect of a login on every connection and token by users and platform numbers alone,
  **LoopCapacity** adds the capacity of the queue the loop both fills and empties, **TwoNodes** a
  second node.
- **BrushLimit, FloodBound, FloodRuns** - the flood limiter on its key-value store, the exact condition
  under which it bounds a user's messages, and runs with many users.
- **Groups, GroupChanges, GroupOwners, GroupServer** - group requests: when they are granted and what
  they change, member by member and with the role numbers, what becomes of the owner over whole runs,
  and the handlers.
- **HasRead, Push, ConversationList** - read positions as an order-free maximum, the split of a push
  into online and offline, and the sorted conversation list.

`dafny verify dfyconfig.toml` checks everything.

## What the model assumes

- Each step of an event loop, each region under a lock and each request handler is atomic (where the
  capacity of a queue can keep a loop from finishing a step, LoopCapacity says when). In
  `Client.close` the check of the closed flag and its setting are one step.
- Connection objects are fresh, and a new connection has an address that no connection has which is
  not yet unregistered or is held by a queued login report.
- A connection is registered before it is unregistered. The event loop does not guarantee this;
  `GatewayRuns.BalancedIff` and `GatewayRuns.EarlyUnregistration` show what depends on it.
- Two nodes share the token store and tell each other of their logins, each after the registration, as
  they do under the service discovery that has them report.
- A key is produced to one partition, and each partition has one claim. A worker's batch is decoded
  message by message, so its messages share neither objects nor option tables.
- Tokens issued are new. Token decoding, number parsing and the success of cache and network calls are
  parameters.
- The limiter's clock counts whole seconds and its configuration does not change during a run. Its two
  lists stand for everything ever pushed to the queues.
- The group database is a map from group and user to role, with insert-or-fail and transactions; the
  caches show the same data. Role lookups find the stored role.
- The store of read positions is keyed by user and conversation, which presumes that no two such pairs
  give one key string.
- Every conversation of the sorted list has a last message; without one the code dereferences nil.
- Strings are compared character by character, which for well-formed UTF-8 is the order of its bytes.

## Where code and expectation differ

- The flood limiter is meant to hold a user to its limit per window. The exact bound is 2*limit-1, and
  only for the configurations named by `FloodBound.Strict`; with a mute shorter than the window, or
  none, `FloodBound.ShortMute` and `FloodBound.NeverMuted` give runs beyond it.
- The producer queues the single chat of a pair and its notification session, in both directions, under
  one key, and a worker files a batch under the IDs of its first message. `Delivery.HandledIsFiledExactly`
  says which messages land in the wrong conversation, `Delivery.SharedBatchMisfiled` gives a run.
- The pull path recovers the chat conversation of a notification only as
  `ConversationId.PullRewriteExact` says; `ConversationId.PullMisses` is an ID for which it does not.
- The user counter of the gateway is never decreased by a kick outside a registration that removes the
  user's last connection (`GatewayRuns.StepLeaks`, `GatewayRuns.Accounting`; a run is
  `GatewayRuns.CountedForever`).
- The event loop of a gateway closes connections it kicks by sending to a queue that only it empties, and
  blocks for ever when that queue is full (`LoopCapacity.RegisterBlocksIff`, `LoopCapacity.LoopBlocks`).
- Two logins on one terminal at two nodes can kick each other, tokens included
  (`TwoNodes.WhoStays`, `TwoNodes.LockedOut`, `TwoNodes.NeitherLeft`).
- Transfers and kicks by app managers, and updates of the owner's own role, can leave a group with two
  owners or none; `GroupOwners.OneOwnerIff` and `GroupOwners.AtMostOneOwnerIff` say exactly when,
  `GroupOwners.TwoOwners`, `GroupOwners.KickedOwner` and `GroupOwners.OwnerStepsDown` give requests.
- The approval branch of invitations cannot be reached (`GroupOwners.InvitesJoinDirectly`).
- Conversations with equal times in one class displace each other from the sorted list
  (`ConversationList.ListedIff`, `ConversationList.EqualTimesDrop`).

## Model

| member | source | states |
|---|---|---|
| ConversationId.JoinSplit | pkg/msgprocessor/conversation.go:117-125 | Splitting an ID at underscores and joining the pieces gives the ID back, whatever it holds |
| ConversationId.LessIff | pkg/msgprocessor/conversation.go:44-47 | The order of the sort: the first character in which two strings differ decides, and a string comes before those that go on after it |
| ConversationId.Spelled | pkg/msgprocessor/conversation.go:26-147 | Session type by session type, with the tags written out: both identifiers and the queue key of a message, and which of the two identifiers is its own |
| ConversationId.PairIsInjective | pkg/msgprocessor/conversation.go:42-56 | A joined pair determines both parts if the first holds no underscore |
| ConversationId.SortedIsUnordered | pkg/msgprocessor/conversation.go:44-47 | Sorting a pair forgets its order and nothing else |
| ConversationId.ChatToNotification | pkg/msgprocessor/conversation.go:26-56 | For every message, the chat ID is turned into exactly the notification ID of that message; underscores in IDs do no harm |
| ConversationId.PullRewriteExact | internal/rpc/msg/sync_msg.go:93-100 | The pull path finds the chat ID of a notification if and only if the session is a single or super-group chat whose IDs hold no underscore |
| ConversationId.PullMisses | internal/rpc/msg/sync_msg.go:93-100 | An ID with an underscore for which the pull path looks for the notification ID instead of the chat ID |
| ConversationId.ChatIDTellsSessionType | pkg/msgprocessor/conversation.go:42-56 | Chat IDs of different session types never collide, and equal ones have equal bodies |
| ConversationId.SingleChatIdentifiesPair | pkg/msgprocessor/conversation.go:42-56 | Underscore-free single chats share an ID if and only if the same two users talk |
| ConversationId.UnderscoresCollide | pkg/msgprocessor/conversation.go:42-56 | A concrete pair of single chats of different users that share an ID once underscores are allowed |
| ConversationId.TagTellsNotification | pkg/msgprocessor/conversation.go:70-147 | The tag of a message's own ID says notification if and only if the message is one, of a known session type |
| ConversationId.ChatFilingExact | pkg/msgprocessor/conversation.go:42-68 | Exactly which messages of one queue key have one chat ID |
| ConversationId.NotificationFilingExact | pkg/msgprocessor/conversation.go:26-68 | Exactly which messages of one queue key have one notification ID |
| ConversationId.FilingByWriting | pkg/msgprocessor/conversation.go:26-68 | The same two facts for IDs with any characters: equal exactly if the IDs write the queue key the same way |
| Transfer.WithOptions | pkg/msgprocessor/options.go:49-54 | The settings are written in order into the table itself, which is also what is returned |
| Transfer.NewMsgOptions | pkg/msgprocessor/options.go:43-47 | A fresh table that is empty: the value set before is lost |
| Transfer.NewOptions | pkg/msgprocessor/options.go:24-41 | Eleven keys, only sender sync on |
| Transfer.GetOptionsByNotification | pkg/common/config/parse.go:55-72 | The table says, key by key, what the notification configuration asks for |
| Transfer.CopyAsMessage | internal/msgtransfer/online_history_msg_handler.go:190-222 | The clone carries the two flags the notification had; the notification's own, shared, table has both off afterwards |
| Transfer.FileOne | internal/msgtransfer/online_history_msg_handler.go:188-240 | One message extends each output list by exactly what belongs there |
| Transfer.GetPushStorageMsgList | internal/msgtransfer/online_history_msg_handler.go:174-241 | The lists hold the objects and the clones the split asks for, clones are new objects, and every message has the value it should have afterwards |
| Transfer.CollectRefers | internal/msgtransfer/online_history_msg_handler.go:174-241 | The lists of objects agree entry by entry with lists of original/copy items computed from values alone |
| Transfer.ListInOrder | internal/msgtransfer/online_history_msg_handler.go:188-239 | Every list is in arrival order and names no message twice |
| Transfer.ListHolds | internal/msgtransfer/online_history_msg_handler.go:188-239 | A list holds a message, or its clone, if and only if storage, kind and the send flag say so |
| Transfer.ListsSpelled | internal/msgtransfer/online_history_msg_handler.go:188-239 | The same with the keys of the option table written out, an absent key counting as set: which of the lists have the message and which have its clone |
| Transfer.FlagsSpelled | internal/msgtransfer/online_history_msg_handler.go:190-222 | The clone's table has exactly two keys with the values they had; the original's has exactly these two turned off if a clone is made, and is as it was if not |
| Transfer.ExactlyOneList | internal/msgtransfer/online_history_msg_handler.go:188-239 | Exactly one of the four lists takes a given message |
| Transfer.ConfiguredNotification | internal/msgtransfer/online_history_msg_handler.go:188-239 | Stored if and only if configured as reliable, sent as a message if and only if configured so, the clone with the configured flags and the original left without them |
| Transfer.ItemIdentity | internal/msgtransfer/online_history_msg_handler.go:130-156 | Rewriting flags changes no identity, and a clone has the chat identity of its original |
| Transfer.FilingAgrees | internal/msgtransfer/online_history_msg_handler.go:130-156 | In a batch of one conversation every listed message, clones included, is filed under its own ID |
| Transfer.FilingExact | internal/msgtransfer/online_history_msg_handler.go:130-156 | Without that proviso: filed under its own ID if and only if session type and direction agree with the first message's |
| Transfer.FilingByKey | internal/msgtransfer/online_history_msg_handler.go:130-156 | For any batch of one queue key and any characters: exactly which items are filed under their own ID |
| Transfer.MixedBatch | internal/rpc/msg/send.go:215-258 | A pair's chat and its notification session have one key; in one batch the second message is filed under si_a_b although its ID is sn_a_b |
| Transfer.ToPushTopic | internal/msgtransfer/online_history_msg_handler.go:272-280 | Every message is pushed, in order, under the given conversation |
| Transfer.HandleNotification | internal/msgtransfer/online_history_msg_handler.go:243-270 | Unstored notifications are pushed; stored ones go to the database topic and are pushed only if the cache took them; each new entry has the given conversation and the message, in order |
| Transfer.HandleMsg | internal/msgtransfer/online_history_msg_handler.go:282-332 | The same for chat messages, which also go to the search topic; the first of a new conversation has a conversation created for its group, or for its receiver and sender, by session type |
| Transfer.HandleBatch | internal/msgtransfer/online_history_msg_handler.go:111-171 | What a worker pushes, stores, indexes, has created and sends on for modification, under the two IDs of the first message; in a batch of one conversation everything pushed, stored and indexed stands under the ID of the message itself |
| Transfer.FiledUnderOwnIdentity | internal/msgtransfer/online_history_msg_handler.go:111-171 | Every object in the four lists has, when the worker is done, the ID of the conversation it is filed under |
| Pipeline.ChunksExact | internal/msgtransfer/online_history_msg_handler.go:473-483 | The chunks concatenate back to the buffer, each has 1 to 1000 messages and all but the last have 1000 |
| Pipeline.ForKeySplits | internal/msgtransfer/online_history_msg_handler.go:353-378 | The messages of a key, message by message and wherever it stands: one that is decodable and has the key is taken once, and no other |
| Pipeline.ArrivalsSplit | internal/msgtransfer/online_history_msg_handler.go:487-495 | What is read in a run, event by event: every message that is not empty, once, in order |
| Pipeline.RunBounded | internal/msgtransfer/online_history_msg_handler.go:44-497 | In every run: a hundred channels of at most fifty values, every value on the channel its key hashes to and none of them empty, chunks of 1 to 1000 messages |
| Pipeline.SplitBuffer | internal/msgtransfer/online_history_msg_handler.go:473-483 | The index arithmetic of the ticker cuts those chunks |
| Pipeline.GroupExact | internal/msgtransfer/online_history_msg_handler.go:334-386 | A key has a group if and only if it has a decodable message, and the group is those messages in order |
| Pipeline.Aggregate | internal/msgtransfer/online_history_msg_handler.go:334-386 | The distributor's loop computes these groups |
| Pipeline.StepKeepsPlaced | internal/msgtransfer/online_history_msg_handler.go:334-497 | Every step keeps each message in its claim, each group on its channel, and no channel over capacity |
| Pipeline.ArriveConserves | internal/msgtransfer/online_history_msg_handler.go:487-495 | Reading a message puts it at the end of its key's line |
| Pipeline.TickConserves | internal/msgtransfer/online_history_msg_handler.go:455-483 | Emptying and cutting a buffer keeps every key's line |
| Pipeline.HandOffConserves | internal/msgtransfer/online_history_msg_handler.go:334-386 | Grouping a chunk keeps every key's line |
| Pipeline.SendConserves | internal/msgtransfer/online_history_msg_handler.go:387-405 | Sending a group to its channel keeps every key's line |
| Pipeline.WorkConserves | internal/msgtransfer/online_history_msg_handler.go:111-123 | Taking a value from a channel keeps every key's line |
| Pipeline.StepKeepsInv | internal/msgtransfer/online_history_msg_handler.go:334-497 | For every key: handled, on the channel, in the distributor, unsent and buffered, in this order, are the messages read; every step keeps that |
| Pipeline.RunKeepsInv | internal/msgtransfer/online_history_msg_handler.go:334-497 | It holds in every state any interleaving can reach |
| Pipeline.HandledPrefix | internal/msgtransfer/online_history_msg_handler.go:334-497 | In one state: what is handled of a key is a prefix of what was read of it, and all of it at rest |
| Pipeline.HandledInOrder | internal/msgtransfer/online_history_msg_handler.go:334-497 | What workers have handled of a key is a prefix of what was read of it, none lost, repeated or reordered, and all of it once nothing is under way |
| Pipeline.NeverStuck | internal/msgtransfer/online_history_msg_handler.go:334-497 | While anything is under way some step other than an arrival is enabled |
| Pipeline.StepLessLeft | internal/msgtransfer/online_history_msg_handler.go:334-497 | Every such step leaves less to do |
| Pipeline.Drains | internal/msgtransfer/online_history_msg_handler.go:334-497 | From every reachable state the work under way can be finished, and then everything read has been handled, per key in order |
| Pipeline.HistoryConsumer.Consume | internal/msgtransfer/online_history_msg_handler.go:487-495 | One message read: buffered, or skipped if empty |
| Pipeline.HistoryConsumer.Flush | internal/msgtransfer/online_history_msg_handler.go:455-483 | The ticker empties the buffer into chunks that concatenate back to it, or does nothing |
| Pipeline.HistoryConsumer.Distribute | internal/msgtransfer/online_history_msg_handler.go:334-386 | The distributor turns the next chunk into groups |
| Pipeline.HistoryConsumer.SendGroup | internal/msgtransfer/online_history_msg_handler.go:387-405 | A group goes to the end of the channel its key hashes to, modulo a hundred, and no other channel changes |
| Pipeline.HistoryConsumer.Receive | internal/msgtransfer/online_history_msg_handler.go:111-123 | A worker takes the next value; it is a group of a key of this channel |
| Delivery.HandledArrived | internal/msgtransfer/online_history_msg_handler.go:111-497 | Every message handled was read, under the key of its batch |
| Delivery.HandledIsFiledExactly | internal/msgtransfer/online_history_msg_handler.go:111-497 | In every interleaving, if messages are queued under their own key: exactly which messages handled, clones included, are filed under their own ID, in terms of session type and direction |
| Delivery.SharedBatchMisfiled | internal/rpc/msg/send.go:215-258 | A run in which a pair's chat and its notification session share a batch and a message lands in another conversation |
| Delivery.HandledIsFiledRight | internal/msgtransfer/online_history_msg_handler.go:111-497 | In every interleaving, if in addition each key holds one conversation only, every message filed lands under its own ID |
| Gateway.FilterExact | internal/msggateway/user_map.go:41-116 | The filtering loops of the map keep exactly what passes, without making duplicates |
| Gateway.RemovedExact | internal/msggateway/user_map.go:73-116 | A deletion takes away exactly the user's connections at the given addresses and changes nobody else |
| Gateway.RemovedKeys | internal/msggateway/user_map.go:73-116 | The number of users drops by one exactly if the deletion emptied the entry |
| Gateway.StepKeepsInv | internal/msggateway/n_ws_server.go:182-196 | Every step keeps the map well-formed, queues and map in agreement, single login, and both counters right |
| Gateway.RegisterKnownUser | internal/msggateway/n_ws_server.go:265-290 | ... a registration of a user with connections |
| Gateway.RegisterNewUser | internal/msggateway/n_ws_server.go:265-277 | ... a registration of a user without |
| Gateway.UnregisterKeeps | internal/msggateway/n_ws_server.go:409-416 | ... an unregistration, also of a connection kicked before |
| Gateway.KickKeeps | internal/msggateway/n_ws_server.go:335-353 | ... a login reported by another node, with connections read when it came in |
| Gateway.KickConnsKeep | internal/msggateway/hub_server.go:185-206 | ... a kick by request |
| GatewayRuns.Accounting | internal/msggateway/n_ws_server.go:265-290 | In every reachable state the connection counter is the map's size plus the kicked connections still to be unregistered, and the user counter is the number of users plus the kicks that emptied one; exactly the number of users in runs of registrations and unregistrations |
| GatewayRuns.SingleLoginAlways | internal/msggateway/n_ws_server.go:335-353 | In every reachable state no entry is empty, holds a connection twice or one of another user, and no terminal the policy kicks has two connections |
| GatewayRuns.AllGone | internal/msggateway/n_ws_server.go:409-416 | Once all connections are closed and unregistered nothing is left but, in the user counter, the kicks that emptied a user |
| GatewayRuns.StepLeaks | internal/msggateway/n_ws_server.go:330-353 | A step loses count of a user exactly if it is a kick by request of all the user's connections, or a kicking report that lists them all |
| GatewayRuns.RunLeaks | internal/msggateway/n_ws_server.go:330-353 | The surplus of the user counter is the number of such steps in the run |
| GatewayRuns.CountedForever | internal/msggateway/n_ws_server.go:330-333 | A run after which nobody is connected and a user is still counted |
| GatewayRuns.BalancedIff | internal/msggateway/n_ws_server.go:184-194 | An unregistration keeps the connection counter right if and only if that connection was registered before |
| GatewayRuns.EarlyUnregistration | internal/msggateway/n_ws_server.go:184-194 | A concrete run in which the select takes the unregistration first: the dead connection stays in the map, uncounted |
| GatewayRuns.LateUnregistration | internal/msggateway/user_map.go:73-92 | The unregistration of a connection already kicked never removes its successor or anything else |
| GatewayRuns.RegistrationExact | internal/msggateway/n_ws_server.go:265-290 | A registration leaves exactly the new connection on its terminal, after the older ones if the policy does not kick, and all other terminals and users as they were |
| GatewayRuns.ReportedLoginExact | internal/msggateway/n_ws_server.go:335-353 | A login reported by another node takes away exactly the connections read when it came in, never one made since |
| GatewayRuns.OfflineExact | internal/msggateway/hub_server.go:185-206 | A kick by request empties exactly the terminal it names |
| GatewayRuns.OutMeansClosed | internal/msggateway/client.go:299-306 | In every reachable state a registered connection that is out of the map is closed, and its unregistration is queued or done |
| GatewayRuns.KickedStaysOut | internal/msggateway/n_ws_server.go:457-471 | A token that is refused stays refused for the rest of every run |
| GatewayRuns.LoginKicks | internal/msggateway/n_ws_server.go:335-407 | A login that replaces connections, registering here or reported, has every other stored token of the terminal refused, forgets none and touches no other terminal (which tokens these are is LoginEffects.RegistrationTokens) |
| GatewayRuns.StepIssued | internal/msggateway/n_ws_server.go:335-407 | Every step keeps that all tokens stored have been issued |
| GatewayRuns.KickedForGood | internal/msggateway/n_ws_server.go:335-471 | In every run: once a login has replaced connections of its terminal, every other token stored for it is refused ever after |
| LoginEffects.KeyTells | pkg/proto/constant/platform_id_to_name.go:49-60 | The token store tells users, and platforms 1 to 10, apart |
| LoginEffects.KicksOn | internal/msggateway/n_ws_server.go:335-345 | Policy 1 kicks on every platform, policy 5 on every one but Windows, OSX and Linux, and no other policy kicks |
| LoginEffects.RegistrationTokens | internal/msggateway/n_ws_server.go:335-407 | The state of every token of every user and platform after a registration: kicked if it is another one of the registering user and platform, the policy kicks there, older connections are there and the cache answers; else as it was |
| LoginEffects.ReportedTokens | internal/msggateway/n_ws_server.go:335-407 | The same after a login reported by another node |
| LoginEffects.IssueTokens | pkg/common/db/controller/auth.go:59-84 | Issuing a token: it is valid, and of the others of its user and platform those not valid or expired are forgotten; no other token changes |
| LoginEffects.TokensKept | internal/msggateway/n_ws_server.go:182-196 | No other step touches a token |
| LoginEffects.RegistrationConns | internal/msggateway/n_ws_server.go:265-290 | A registration adds its connection and takes away exactly the user's older ones on its platform, where the policy kicks |
| LoginEffects.ReportedConns | internal/msggateway/n_ws_server.go:335-353 | A reported login takes away exactly the connections listed in it, where the policy kicks |
| LoginEffects.ReportQueued | internal/msggateway/hub_server.go:208-228 | What is queued for a reported login: its user, platform and token and exactly the connections there are then on that platform, if the user has any connection at all |
| LoginEffects.OneOnPlatform | internal/msggateway/n_ws_server.go:335-353 | In every reachable state: under policy 1 at most one connection of a user on any platform, under policy 5 on any but Windows, OSX and Linux |
| WsServer.UserMap.Get | internal/msggateway/user_map.go:41-56 | The user's connections on the platform, and whether there are any at all |
| WsServer.UserMap.Set | internal/msggateway/user_map.go:58-71 | The connection is appended to the user's list |
| WsServer.UserMap.Delete | internal/msggateway/user_map.go:73-92 | The connection at the address is gone; true exactly if that emptied the entry |
| WsServer.UserMap.DeleteClients | internal/msggateway/user_map.go:94-116 | The connections at those addresses are gone; true exactly if that emptied the entry |
| WsServer.WsServer.constructor | internal/msggateway/n_ws_server.go:142-168 | A new server has no connections and keeps the invariant |
| WsServer.WsServer.ParseWSArgs | internal/msggateway/n_ws_server.go:423-473 | Admitted if and only if below the limit, the request is genuine and its token is stored as 0; refused as kicked exactly if it is stored as 2; which check fails when |
| WsServer.WsServer.HandleConn | internal/msggateway/n_ws_server.go:483-521 | An admitted connection is queued for registration, and its token was not a refused one |
| WsServer.WsServer.CloseClient | internal/msggateway/client.go:243-254 | The first close queues the one unregistration, later ones do nothing |
| WsServer.WsServer.DropConn | internal/msggateway/client.go:120-131 | The end of the reader closes the connection |
| WsServer.WsServer.KickAll | internal/msggateway/n_ws_server.go:348-353 | Closes the older connections in order |
| WsServer.WsServer.KickStored | internal/msggateway/n_ws_server.go:391-398 | Marks every stored token of the terminal but the new one as kicked |
| WsServer.WsServer.MultiTerminalLoginChecker | internal/msggateway/n_ws_server.go:335-407 | Takes the older connections out of the map, closes them and kicks their tokens, as the policy says (LoginEffects tells the effect on every token and connection) |
| WsServer.WsServer.RegisterClient | internal/msggateway/n_ws_server.go:265-290 | The map, both counters, tokens and queues end up as the state machine's registration has them, for users with and without connections |
| WsServer.WsServer.UnregisterClient | internal/msggateway/n_ws_server.go:409-416 | The map and both counters end up as the state machine's unregistration has them, whether or not the connection is still in the map |
| WsServer.WsServer.KickReported | internal/msggateway/n_ws_server.go:192-193 | A login reported by another node is carried out on the connections read when it came in |
| WsServer.WsServer.Select | internal/msggateway/n_ws_server.go:182-196 | Each choice of the event loop is a step of the state machine and keeps the invariant |
| WsServer.WsServer.KickUserConn | internal/msggateway/n_ws_server.go:330-333 | Takes one connection out of the map and closes it, without touching the counters |
| WsServer.WsServer.KickUserOffline | internal/msggateway/hub_server.go:185-206 | Kicks user after user; the result is that of the run of these steps |
| WsServer.WsServer.MultiTerminalLoginCheck | internal/msggateway/hub_server.go:208-228 | Queues the connections read now, if the user has any connection |
| LoopCapacity.ClosesThroughIff | internal/msggateway/client.go:243-254 | Connections can be closed one after the other exactly if the queue has room for all that are still open |
| LoopCapacity.RegisterBlocksIff | internal/msggateway/n_ws_server.go:265-290 | A registration cannot finish exactly if the unregistration queue is full and the policy has it kick a connection that is still open |
| LoopCapacity.KickBlocksIff | internal/msggateway/n_ws_server.go:335-353 | A reported login cannot finish exactly if it kicks more open connections than the queue has room for |
| LoopCapacity.BlockedForGood | internal/msggateway/n_ws_server.go:182-196 | Nothing but the loop takes from that queue, so a loop that waits for room waits for ever |
| LoopCapacity.LoopBlocks | internal/msggateway/n_ws_server.go:161-163 | A run, with every queue within its capacity and every step finished, after which the next registration blocks the loop |
| TwoNodes.NextKeepsOK | internal/msggateway/n_ws_server.go:229-259 | Every step at either of two nodes sharing the token store keeps the invariant at both |
| TwoNodes.DoomedStays | internal/msggateway/n_ws_server.go:335-353 | A connection listed in a kicking report, or out of the map, stays so until it is out |
| TwoNodes.SafeStays | internal/msggateway/n_ws_server.go:335-353 | A connection that nothing is meant for stays in the map, open |
| TwoNodes.ReportEnds | internal/msggateway/hub_server.go:208-228 | A report read after a connection of its terminal was registered ends that connection |
| TwoNodes.ReportSpares | internal/msggateway/hub_server.go:208-228 | One read before leaves it alone |
| TwoNodes.NeverBoth | internal/msggateway/n_ws_server.go:265-304 | Two logins on one terminal at two nodes: once the reports are through at most one connection is left, whatever else happens |
| TwoNodes.WhoStays | internal/msggateway/n_ws_server.go:265-304 | Each stays if and only if the other's report was read before its registration; neither is left if and only if each report comes after the other registration |
| TwoNodes.LockedOut | internal/msggateway/n_ws_server.go:335-407 | In that case both tokens are refused as well |
| TwoNodes.NeitherLeft | internal/msggateway/n_ws_server.go:265-304 | A concrete run of two logins after which neither is left |
| BrushLimit.KeysDiffer | tools/live/limit.go:32-43 | The three keys of a user differ from each other and from those of every other user |
| BrushLimit.CheckSpelled | tools/live/limit.go:52-122 | The answer of a check and all three entries of the user after it, from the entries alive before: mute, counter with its life, count of mutes, block |
| BrushLimit.BrushLimit.Count | tools/live/limit.go:80-87 | One message more in the counter, whose life begins with it if it is new |
| BrushLimit.BrushLimit.Punish | tools/live/limit.go:92-115 | The mute is set, and the mute counter counts up or is cleared by a block, with one report to one queue |
| BrushLimit.BrushLimit.Check | tools/live/limit.go:52-124 | Muted users are refused and nothing changes; otherwise the user's own data, the answer and the report are as the rules say, and nobody else's data change |
| FloodBound.SpacedWithin | tools/live/limit.go:80-92 | If of any n+1 messages in a row the last is a window after the first, no window holds more than n |
| FloodBound.LivesSpaced | tools/live/limit.go:80-92 | Two lifetimes of the counter never fill a window completely |
| FloodBound.RunStands | tools/live/limit.go:52-122 | In every run the accepted messages fall into lifetimes of at most the limit each, whose beginnings are a window apart |
| FloodBound.BoundHolds | tools/live/limit.go:52-122 | If a mute outlasts the window, or every trigger blocks, at most 2*limit-1 messages pass in any window |
| FloodBound.BoundExact | tools/live/limit.go:86-119 | That bound holds for every run if and only if the configuration mutes at all and either nothing is allowed, every trigger blocks, or a mute lasts a window |
| FloodBound.ShortMute | tools/live/limit.go:86-110 | With a shorter mute: a full life, a trigger and another full life within one window |
| FloodBound.BoundAttained | tools/live/limit.go:80-92 | The bound is attained: a run with exactly 2*limit-1 messages in one window |
| FloodRuns.UsersApart | tools/live/limit.go:52-122 | Whatever other users do in between, a user's stored data and answers are what its own checks alone give |
| FloodRuns.FloodBounded | tools/live/limit.go:52-122 | The bound for every user in every run of the limiter with any number of users |
| FloodRuns.MuteLasts | tools/live/limit.go:53-59 | After a trigger every check of the user is refused, without effect, for the whole mute time |
| FloodRuns.Escalation | tools/live/limit.go:92-115 | Triggers are reported once each, and number blocks times the mutes per block plus what is stored, which is less than that |
| FloodRuns.ReportsAreTriggers | tools/live/limit.go:97-115 | In every run: whatever stands in one of the two report queues names a user and a time at which a check of that user triggered |
| Groups.InsertedExact | pkg/common/db/controller/group.go:138-172 | After an insert-or-fail each key has what its row says and every other key what it had |
| GroupOwners.CreateOwners | internal/rpc/group/group.go:212-282 | A new group has the owner named and no other; other groups keep theirs |
| GroupOwners.SetInfoOwners | internal/rpc/group/group.go:1600-1613 | A batch update makes nobody an owner and ends the ownership of exactly those whose role it sets |
| GroupOwners.TransferOwners | pkg/common/db/controller/group.go:361-372 | Who owns the group after a transfer: a swap of the two roles if the old owner is named |
| GroupOwners.OthersKeepOwners | internal/rpc/group/group.go:392-1079 | Inviting, joining, approving and quitting change no ownership |
| GroupOwners.OneOwnerIff | internal/rpc/group/group.go:212-1613 | A granted request leaves each group exactly one owner if and only if it spares the owner |
| GroupOwners.AtMostOneOwnerIff | internal/rpc/group/group.go:212-1613 | A granted request creates no second owner if and only if a transfer names the owner, where there is one |
| GroupOwners.OnlyTheOwner | internal/rpc/group/group.go:663-1613 | Without a manager's rights only the owner can end its own ownership |
| GroupOwners.TwoOwners | internal/rpc/group/group.go:1195-1233 | A manager's transfer naming a member that is not the owner, after which the group has two owners |
| GroupOwners.KickedOwner | internal/rpc/group/group.go:663-728 | A manager's kick after which the group has no owner |
| GroupOwners.OwnerStepsDown | internal/rpc/group/group.go:1509-1613 | An owner's change of its own role, without a manager's rights, after which the group has no owner |
| GroupOwners.AlwaysOneOwner | internal/rpc/group/group.go:212-1613 | Runs whose granted requests spare the owners keep exactly one owner in every group |
| GroupOwners.NeverTwoOwners | internal/rpc/group/group.go:212-1613 | If managers' transfers name the owner, no run ever gives a group two owners |
| GroupOwners.SetInfoSound | internal/rpc/group/group.go:1523-1613 | A batch update that goes through has distinct targets, all members, makes nobody owner, has a member as operator unless a manager, and sets every role asked for |
| GroupOwners.InvitesJoinDirectly | internal/rpc/group/group.go:418-483 | Extension rights are never negative, so an invitation always adds its users at once and never asks for approval |
| GroupChanges.NewGroupID | internal/rpc/group/group.go:183-210 | The ID asked for unless it is taken, or the first of those tried that is free, none if all are taken |
| GroupChanges.CreateChanges | internal/rpc/group/group.go:212-282 | Creating: the group is new, its owner, administrators and members have roles 100, 60 and 20, all other members, requests and groups are as they were |
| GroupChanges.InviteChanges | internal/rpc/group/group.go:392-508 | Inviting: exactly the invited are added, with role 20, or get a request that holds 0 if they must be approved first; all else is as it was |
| GroupChanges.JoinChanges | internal/rpc/group/group.go:958-1055 | Joining: exactly one new member with role 20, or one request that holds 0 |
| GroupChanges.RespondChanges | internal/rpc/group/group.go:883-939 | Responding: the request, which held 0, holds the result; if agreed, and not a member, the user has role 20; all else is as it was |
| GroupChanges.KickChanges | internal/rpc/group/group.go:663-728 | Kicking: the members are exactly those before without the kicked, whatever their roles, and the others keep their roles |
| GroupChanges.QuitChanges | internal/rpc/group/group.go:1057-1079 | Quitting: the members are exactly those before without the one who quits, who had not role 100 |
| GroupChanges.TransferChanges | internal/rpc/group/group.go:1195-1233 | Transferring: the new owner has role 100, the old one the role the new one had, everybody else keeps the role |
| GroupChanges.SetInfoChanges | internal/rpc/group/group.go:1600-1613 | A batch update: exactly the members named with a role have it, 60 or 20, and everybody else keeps the role |
| GroupChanges.StaysRanked | internal/rpc/group/group.go:212-1613 | Every request keeps that all roles are 100, 60 or 20 |
| GroupChanges.CreateRights | internal/rpc/group/group.go:212-282 | Granted if and only if: a working group with name and picture, by a manager or its owner, nobody named twice, all of them and the operator existing, and a free ID |
| GroupChanges.InviteRights | internal/rpc/group/group.go:392-508 | Granted if and only if: distinct existing users, an open group, a manager, member or rights, and none of them a member unless they must be approved first |
| GroupChanges.OtherRights | internal/rpc/group/group.go:883-1233 | Exactly when joining, responding, quitting and transferring are granted, in terms of membership, role numbers and the request's state |
| GroupChanges.KickRights | internal/rpc/group/group.go:663-728 | With one owner each and all roles 100, 60 or 20: a kick is granted if and only if the kicked are distinct other members and the operator is a manager or a member of higher rank than each of them |
| GroupChanges.SetInfoRights | internal/rpc/group/group.go:1509-1599 | With one owner each and all roles 100, 60 or 20: a batch update is granted if and only if the targets are distinct members, the roles 60 or 20, and the operator a manager or, in each group, a member, changing itself or members of lower rank only |
| GroupChanges.OutsiderRights | internal/rpc/group/group.go:392-1613 | Who is neither manager nor member of a group can do nothing to its members and requests but ask to join, and invite with rights |
| GroupChanges.OrdinaryRights | internal/rpc/group/group.go:663-1613 | An ordinary member can neither decide about requests nor remove, promote or demote anybody else |
| GroupServer.FoundCount | internal/rpc/group/group.go:1537-1599 | Counting those found among distinct users tells who is missing: nobody, or only the operator |
| GroupServer.Duplicate | pkg/tools/utils/utils_v2.go:177-195 | True exactly if an ID occurs twice |
| GroupServer.AdminMay | internal/rpc/group/group.go:1565-1573 | True exactly if neither the owner nor another administrator is among the found |
| GroupServer.OrdinaryMay | internal/rpc/group/group.go:1574-1579 | True exactly if only the operator, as an ordinary member, is among the found |
| GroupServer.OtherMay | internal/rpc/group/group.go:1580-1585 | True exactly if all found have lower roles |
| GroupServer.GroupServer.FindGroupMembers | pkg/common/db/cache/meta_cache.go:201-228 | The members among the users, in order, those that are none skipped |
| GroupServer.GroupServer.AllExist | internal/rpc/group/group.go:236-242 | True exactly if all users exist, told by the size of what was found |
| GroupServer.GroupServer.Insert | pkg/common/db/controller/group.go:138-172 | All rows or none |
| GroupServer.GroupServer.UpdateGroupMembers | pkg/common/db/controller/group.go:386-400 | All updates or none, none if a member is missing |
| GroupServer.GroupServer.GenGroupID | internal/rpc/group/group.go:183-210 | The ID asked for if free, or the first free one tried |
| GroupServer.GroupServer.CreateGroup | internal/rpc/group/group.go:212-282 | Granted if and only if the group data, the creator's right, the distinct existing users and a free ID allow it; then the group exists with its owner, administrators and members, otherwise nothing changes |
| GroupServer.GroupServer.InviteUserToGroup | internal/rpc/group/group.go:392-508 | Granted if and only if the users are distinct, exist and are no members of an open group the inviter may invite to; then all of them are members, or all have requests, otherwise nothing changes |
| GroupServer.GroupServer.JoinGroup | internal/rpc/group/group.go:958-1055 | Granted if and only if an existing user is no member of an open group; then it is a member if the group is open to all or its rights suffice, else it has a request |
| GroupServer.GroupServer.GroupApplicationResponse | internal/rpc/group/group.go:883-939 | Granted if and only if the operator manages the group and the request is unhandled; then it is handled, and the user a member if agreed, with an existing member's role untouched |
| GroupServer.GroupServer.MayKick | internal/rpc/group/group.go:691-716 | True exactly if all are members and the operator's role allows it for each |
| GroupServer.GroupServer.KickGroupMember | internal/rpc/group/group.go:663-728 | Granted if and only if the distinct others are members the operator may remove; then exactly they are gone |
| GroupServer.GroupServer.QuitGroup | internal/rpc/group/group.go:1057-1079 | Granted if and only if a member other than the owner leaves by itself or by a manager; then exactly it is gone |
| GroupServer.GroupServer.TransferGroupOwner | internal/rpc/group/group.go:1195-1233 | Granted if and only if two members of an open group are named, by the owner or a manager; then the old one has the new one's role and the new one is owner |
| GroupServer.GroupServer.CheckGroup | internal/rpc/group/group.go:1535-1599 | Passes exactly if the targets are distinct members and the operator may change them; the operator's index is always in range where it is used |
| GroupServer.GroupServer.ByGroup | internal/rpc/group/group.go:1522-1534 | The targets by group, unless a role cannot be set |
| GroupServer.GroupServer.CheckGroups | internal/rpc/group/group.go:1535-1599 | Passes exactly if every group passes, in whatever order they are checked |
| GroupServer.GroupServer.SetGroupMemberInfo | internal/rpc/group/group.go:1509-1613 | Granted if and only if every group passes its check, no role is invalid and all targets are members; then exactly the roles asked for are set, otherwise none is |
| HasRead.ToMarkExact | internal/rpc/msg/as_read.go:158-170 | Exactly the positions passed and the positions named are marked, each once |
| HasRead.MsgsServed | internal/rpc/msg/as_read.go:94-126 | Marking messages: exactly when refused; else exactly these positions are marked, and the stored one becomes the last of them if that is larger |
| HasRead.ConversationServed | internal/rpc/msg/as_read.go:144-202 | Marking a conversation: one mark exactly for single chats with something passed or named, of that user and conversation, holding the positions passed, in order and first, and those named, each once; for type 1, 3 and 4 the stored position is raised, for others not |
| HasRead.ReportServed | internal/rpc/msg/as_read.go:238-265 | Reporting: each stored position becomes the largest of itself and those reported for it, and nothing is marked |
| HasRead.RunIsMax | internal/rpc/msg/as_read.go:94-265 | After any requests the stored position is the largest of the initial one and those granted requests ask for |
| HasRead.OrderFree | internal/rpc/msg/as_read.go:94-265 | The order of the requests does not matter, nor how often each is made |
| HasRead.MsgServer.MarkMsgsAsRead | internal/rpc/msg/as_read.go:94-126 | Refused for no positions, a last one beyond the newest, or an unknown conversation; otherwise marks all and raises the position to the last |
| HasRead.MsgServer.Collect | internal/rpc/msg/as_read.go:158-170 | The two loops collect what is to be marked |
| HasRead.MsgServer.MarkConversationAsRead | internal/rpc/msg/as_read.go:144-202 | Marks for single chats only, raises the position for three conversation types |
| HasRead.MsgServer.ReadSeqs | internal/rpc/msg/as_read.go:238-265 | Raises each position reported |
| Push.ReachedIsZero | internal/msggateway/hub_server.go:148-174 | A user counts as reached online exactly if some report has code 0 |
| Push.FirstReport | internal/msggateway/hub_server.go:148-174 | The first connection that is reported at all decides the first report |
| Push.ReportsSplit | internal/msggateway/hub_server.go:148-174 | Connection by connection, wherever it stands: reported with -3 for an iOS device in the background, -2 if it cannot be written to, 0 if it was and its platform counts, and not at all otherwise |
| Push.OnIOSIff | internal/push/push_to_client.go:130-137 | One gateway's answer puts a user online if and only if some connection was written to on a platform that counts and the first connection that gets a report is an iOS one, all in terms of the connections |
| Push.SuperGroupOnlineBatchPushOneMsg | internal/msggateway/hub_server.go:129-183 | One result per requested user, in their order, as the user's connections give it |
| Push.Merge | internal/push/push_to_client.go:412-433 | The replies, appended as they arrived |
| Push.FirstsExact | pkg/tools/utils/utils_v2.go:71-83 | Removing duplicates keeps the same elements, each once |
| Push.FirstsInOrder | pkg/tools/utils/utils_v2.go:71-83 | ... in the order in which they first come |
| Push.Distinct | pkg/tools/utils/utils_v2.go:99-113 | The short cuts for up to two elements agree with the general loop |
| Push.Push2User | internal/push/push_to_client.go:107-153 | The filters, the set and the removal of duplicates give the two lists |
| Push.SplitOf | internal/push/push_to_client.go:130-153 | Whatever the results: duplicate-free, disjoint, online exactly if reached with an iOS report first, offline exactly if there are only other results about the user |
| Push.SplitExact | internal/push/push_to_client.go:130-153 | Both lists are duplicate-free and disjoint; a requested user with an ID, other than the sender, is in exactly one; online exactly if some result has it reached with an iOS report first |
| Push.PushComplete | internal/push/push_to_client.go:390-433 | The same for any gateways that answered, at least one: online exactly if one of them reached the user that way |
| Push.PushSpelled | internal/push/push_to_client.go:107-153 | From the connections at the gateways that answered to the two lists: online if and only if at one of them the user was written to on a platform that counts and the first connection that gets a report is an iOS one; offline if and only if requested, not online, not the sender and with an ID |
| Push.HostUsersSplit | internal/push/push_to_client.go:340-357 | A host's users, one by one in the order of the request: exactly those that are hashed to it |
| Push.OrderFree | internal/push/push_to_client.go:412-433 | The arrival order of the replies changes nothing but the order within the lists |
| Push.GroupByHost | internal/push/push_to_client.go:340-357 | Each host gets exactly its users, in order; fails exactly if some host is unknown |
| Push.HostResult | internal/push/push_to_client.go:340-389 | There are results about a requested user exactly if its host answered |
| Push.HostsExact | internal/push/push_to_client.go:340-389 | With one gateway per user: a requested user with an ID, other than the sender, is in exactly one list if its host answered and in neither if not |
| ConversationList.SlotHolds | internal/rpc/conversation/conversaion.go:138-150 | A time table holds the last conversation of its class with a given time |
| ConversationList.SlotFrom | internal/rpc/conversation/conversaion.go:138-150 | A time table holds nothing else |
| ConversationList.DescendingUnique | internal/rpc/conversation/conversaion.go:470-477 | A descending list is determined by its elements, so the random order of the keys does not show |
| ConversationList.ListOrdered | internal/rpc/conversation/conversaion.go:138-158 | Always: the pinned first, each part strictly newest first, nothing twice, nothing foreign |
| ConversationList.ListedIff | internal/rpc/conversation/conversaion.go:138-150 | A conversation is listed if and only if no later one that is pinned alike has the same time |
| ConversationList.ListComplete | internal/rpc/conversation/conversaion.go:138-158 | The list is a permutation of the user's conversations if and only if times are distinct within each class |
| ConversationList.EqualTimesDrop | internal/rpc/conversation/conversaion.go:138-150 | Two conversations of a class with one time: the first is in no list built from them |
| ConversationList.UnreadAddsUp | internal/rpc/conversation/conversaion.go:130-158 | Then, if the newest positions known are those of these conversations, the unread counts add up to the total |
| ConversationList.TotalPermutes | internal/rpc/conversation/conversaion.go:130-136 | The sum does not depend on the order the table is walked in |
| ConversationList.CountUnread | internal/rpc/conversation/conversaion.go:130-136 | The table of unread counts and its total, which is the last of the running sums of newest less read positions over all conversations known, each once |
| ConversationList.SortedKeys | internal/rpc/conversation/conversaion.go:470-477 | The keys of a table, descending |
| ConversationList.ConversationSort | internal/rpc/conversation/conversaion.go:464-489 | The elements of a table newest first, each given its unread count in place |
| ConversationList.FillTables | internal/rpc/conversation/conversaion.go:138-150 | Both tables, and each element's settings set in place, those of elements without settings left alone |
| ConversationList.GetSortedConversationList | internal/rpc/conversation/conversaion.go:90-158 | The list before pagination: its order, the settings and counts of all elements, 0 for those listed without a known position; the total is the sum over every conversation with a known position, listed or not; fails, changing nothing, exactly without conversations |

## Left out

- GroupServer.GroupServer.CreateGroup: as for every group handler, the kind of error is not modelled, only that the request is refused and nothing changes.
- HasRead.MsgServer.MarkConversationAsRead: 64-bit overflow of the loop counter is not modelled; positions are unbounded integers.
- Pipeline.HistoryConsumer.Flush: the ticker's unlocked read of the buffer's length is taken as part of its atomic step.
- WsServer.WsServer.HandleConn: waiting for room in the registration queue, the handshake replies sent over the connection, object pooling and websocket traffic are not modelled.
- WsServer.WsServer.Select: a step of the loop that waits for room in a queue is not modelled here; LoopCapacity says when that happens.
- Gateway policies other than the two that kick, which do nothing; user status reports to the user service; compression and message handling on a connection.
- Setting a read position outright (it may lower it), dismissal of groups, and changes of group data, mutes and announcements.
- The group push under the other service discovery, whose string difference is left out, and the decision whether a message kind is pushed offline at all; callbacks, notifications, metrics and logging.
- Distinct hosts of a per-user gateway lookup are taken to have distinct connections.
- Sub-second rounding of expiry times, and changes of the limiter's configuration during a run.
- Pagination of the sorted list, and the contents of its elements other than time, settings and unread count.
- Search, statistics, storage of files, friends and users, and the remaining tools, which would only add easy members.
