# wschat, modelled and proved in Dafny

wschat is one chat protocol with several servers, a browser client and a load tester. This project
models the concurrent parts of the Go, Rust and C++ servers and of the load tester, and the
sequential parts of the browser client and of the tester's report, and proves what they keep over
every run. `dafny verify dfyconfig.toml` checks everything.

## How it is organised

| file | what it models |
|---|---|
| `go_channel.dfy` | the Go server's per-client channel: a flag, a readers-writer lock, a bounded channel, any number of `Send` and `Close` calls, the draining goroutine |
| `go_room.dfy`, `go_progress.dfy`, `go_chats.dfy` | the Go server's handlers and broadcasts over the shared map, each client with a channel of `go_channel.dfy`; why they never get stuck; what is announced and whom it gets to |
| `rust_room.dfy`, `rust_lifecycle.dfy` | the Rust server: connection actors and the server actor with their FIFO mailboxes; when connections close, who leaves, what is replied |
| `cpp_queue.dfy` | the write queue of one C++ connection and the strand it runs on |
| `cpp_server.dfy` | the methods of the C++ server object, undisturbed |
| `cpp_room.dfy`, `cpp_delivery.dfy` | the C++ room: raw pointers in a set behind a shared mutex, reference counts, destructors, any number of I/O threads; what its broadcasts deliver |
| `cpp_orders.dfy` | what the C++ handlers and destructors were started for, that it gets done, and who is served |
| `cpp_progress.dfy`, `cpp_freeze.dfy` | exactly when the C++ room is stuck, when it cannot be, and a run in which it is |
| `client_run.dfy` | the goroutines of the load tester: start barrier, hand-over of the result records, collection |
| `client_report.dfy` | the load tester's aggregation loop |
| `messages.dfy`, `json_text.dfy`, `json_grammar.dfy` | the messages and the JSON texts the servers print; the parser of such texts, and the grammar of RFC 8259 it is proved against |
| `regex.dfy`, `browser_parse.dfy` | the browser's `parseMessage`, with a backtracking matcher for its regular expression |
| `browser_app.dfy` | the browser's message handler, ordered insertion and reset |
| `end_to_end.dfy`, `rust_to_browser.dfy` | a browser session on the C++ and on the Rust server |

A concurrent part is a state, a `Step` that performs one atomic action of one participant, and
`Exec`, which follows any sequence of choices. A theorem that requires `Exec(Init(), cs) == Some(s)`
therefore speaks about every interleaving of any number of participants. Fields such as `accepted`,
`sent` or `log` only record what happened. Where the source has an object that it updates in place
there is a class (`Channel`, `Server`, `WsConn`, `App`) whose methods are proved against the
functions that the steps and the theorems use.

## Where the code does not do what one would expect

Each of these is a lemma; where a property fails the lemma says exactly when it holds.

* C++: when the last reference to a connection is dropped inside a broadcast loop, its destructor
  runs under the shared lock that it needs exclusively. The room's set is then frozen for ever
  (`CppRoom.NestedDestructorFreezesRoom`), and such a run exists (`CppFreeze.FreezeIsReachable`).
  The handlers and destructors always come to rest (`CppProgress.Settles`), and then something is
  left unfinished if and only if such a destructor waits (`CppProgress.StuckIff`), that is, if and
  only if the run contains a release of the last reference inside a broadcast
  (`CppProgress.StuckIffDropped`). It cannot happen with a single I/O thread
  (`CppProgress.OneThreadNeverFreezes`), nor as long as no strand takes the new message out of a
  connection's posts while the broadcast still holds that connection
  (`CppProgress.CalmNeverFreezes`).
* Rust and browser: the Rust server spells the action `discconnect`, so every disconnect it
  broadcasts, of whatever client, resets every browser that handles it
  (`RustToBrowser.AnyDisconnectResets`, `RustToBrowser.RustResetsIff`, `Messages.RustActionCodec`).
* Go: the receive loop decodes every text into one variable, so a chat without contents is broadcast
  with those of the user's latest chat that had some, or with the user's uuid
  (`GoChats.ContentsRightIff`).
* Load tester: in test mode a worker whose configuration fails, for the address they all share,
  posts a start token even without `-same-start`, when nobody collects it. The tester then never
  completes, every goroutine being blocked, exactly when it has more than five workers
  (`ClientRun.CompletesIff`, `ClientRun.NeverCompletes`).
* Load tester: a failed receive that took any time overwrites the greatest duration of a failed
  send, which, when printed, is right only if that did no harm
  (`ClientReport.MaxFailedSendRightIff`); the greatest duration of a failed receive stays zero
  (`ClientReport.MaxFailedRecvRightIff`). When some connections were made and some were not, those
  not made count as passed, and the times printed of the passed are averaged over them as well
  (`ClientReport.PassedRightIff`). When some connection passed and some failed, the greatest number
  of messages printed of the failed is wrong (`ClientReport.MaxMsgsRightIff`).
* Browser: `\W*` swallows a minus sign, so a timestamp of the C++ server comes back right exactly
  when it is not negative (`BrowserParse.ParseInvertsCpp`). One of the Go server, which omits zero,
  comes back right exactly when it is positive (`BrowserParse.ParseInvertsGo`).
* Browser: an error message, or the own disconnect, resets the session and is then still inserted.
  The list is empty after a message exactly when that could not be parsed or has no known action;
  after another resetting message it holds just that one (`BrowserApp.EmptyAfterIff`).

## Model

| member | source | states |
|---|---|---|
| `GoChannel.NeverPanics` | wschat-go/main.go:31-45 | under every interleaving of any number of sends and closes no value is sent on a closed channel, the channel is closed at most once and no read lock is released unheld; once it is closed no sender is past its flag check |
| `GoChannel.Conservation` | wschat-go/main.go:92-96 | accepted values are, in order, those written, the one in the writer's hand and those buffered; the buffer stays within capacity; an exited writer has written everything; each value was accepted by as many calls as say so |
| `GoChannel.SendBeforeCloseIsAccepted` | wschat-go/main.go:31-37 | a send that returned while the flag was still unset has enqueued its value |
| `GoChannel.WaitsIff` | wschat-go/main.go:31-45 | in every run a call waits exactly at Send's lock while a Close is under way, at a full Go channel, or at Close's lock while a Send is under way; the goroutine waits exactly while the Go channel is empty and open |
| `GoChannel.Progress` | wschat-go/main.go:31-45 | with capacity at least one, while some call has not returned, some call or the writer can act: a sender blocked under the read lock is freed by the writer |
| `GoChannel.MeasureDrops` | wschat-go/main.go:31-45 | every action but the start of a new call makes a measure smaller |
| `GoChannel.RunBound` | wschat-go/main.go:31-45 | so a run without new calls is no longer than the measure |
| `GoChannel.Settles` | wschat-go/main.go:92-96 | when nothing can act any more all calls have returned, all accepted values are written, and the writer has exited iff the channel was closed |
| `GoChannel.Channel.constructor` | wschat-go/main.go:27-29 | a new channel is empty, open and unlocked |
| `GoChannel.Channel.Load` | wschat-go/main.go:33 | reads the flag that the theorems' steps read |
| `GoChannel.Channel.Swap` | wschat-go/main.go:40 | sets the flag, reports what it was, touches nothing else |
| `GoChannel.Channel.TryRLock` | wschat-go/main.go:32 | is the atomic action the theorems use: blocked exactly while a writer is announced, without effect then |
| `GoChannel.Channel.ReleaseRLock` | wschat-go/main.go:36 | is the atomic action the theorems use, for a lock that is held |
| `GoChannel.Channel.TrySend` | wschat-go/main.go:34 | appends the value, or blocks without effect exactly when the buffer is full |
| `GoChannel.Channel.TryReceive` | wschat-go/main.go:93 | takes the oldest value, nothing exactly when the buffer is empty |
| `GoChannel.Channel.TryAnnounce` | wschat-go/main.go:41 | announces the writer, or blocks without effect while another is |
| `GoChannel.Channel.CloseChannel` | wschat-go/main.go:42 | closes the Go channel and nothing else |
| `GoChannel.Channel.Unlock` | wschat-go/main.go:43 | lets readers in again and changes nothing else |
| `GoChannel.Channel.TryAcquire` | wschat-go/main.go:41 | the announced writer gets the lock exactly when no reader is left |
| `GoChannel.Channel.Send` | wschat-go/main.go:31-37 | the whole call, undisturbed: it returns with the value enqueued or the flag seen, or stops where a writer is announced or, holding the read lock, at a full buffer |
| `GoChannel.Channel.Close` | wschat-go/main.go:39-45 | the whole call, undisturbed: the second closes nothing, the first closes the Go channel or stops with the writer announced while there are readers |
| `GoChannel.MethodsAreRuns` | wschat-go/main.go:31-45 | from every reachable state the steps of a new call that runs alone get exactly where the composed method gets |
| `GoRoom.ExactlyOnce` | wschat-go/main.go:135-142 | a broadcast whose Range begins after a client's Store, even if spawned before, and ends before its Close is accepted by its channel exactly once, and this stays so |
| `GoRoom.AtMostOnce` | wschat-go/main.go:138-141 | no broadcast is ever accepted twice by a client, nor by one that it did not visit |
| `GoRoom.AtLeastOnce` | wschat-go/main.go:98-110 | an ended broadcast that found a client still serving was accepted by it |
| `GoRoom.FirstWrite` | wschat-go/main.go:86-96 | the first write on a socket is the own connect, written only once; then the accepted values in order |
| `GoProgress.Progress` | wschat-go/main.go:98-142 | while a broadcast, a handler outside its receive loop or a call on any channel is unfinished, the server can move without waiting for a client |
| `GoProgress.StepDrops` | wschat-go/main.go:98-142 | each such move makes a measure of the room smaller |
| `GoProgress.Settles` | wschat-go/main.go:98-142 | so the room comes to rest, with all broadcasts ended, all handlers serving or gone and all calls returned |
| `GoChats.BroadcastsAreAnnounced` | wschat-go/main.go:77-122 | in every run there is exactly one broadcast for each client that connected, each chat received and each client that hung up, in this order, and it carries that message |
| `GoChats.ContentsRightIff` | wschat-go/main.go:114-122 | a chat is broadcast under its sender with the contents of its own text iff the text has the field, or what the user's latest text before had, else the uuid, is empty |
| `GoChats.AnnouncementArrives` | wschat-go/main.go:86-142 | what is announced while a client serves, and goes on serving until the server is at rest, was accepted by its channel and written to its socket exactly once |
| `GoChats.WhoStays` | wschat-go/main.go:98-110 | at rest exactly the clients that connected and did not hang up are in the map; the channels of the others are closed, drained and written out |
| `GoChats.AtMostFiftyWait` | wschat-go/main.go:88 | at most fifty messages ever wait for a client, and a broadcast waits for it exactly while there are fifty |
| `RustRoom.Server.constructor` | wschat-rust/src/main.rs:142-146 | no clients at first |
| `RustRoom.Server.DoSend` | wschat-rust/src/main.rs:158 | one push, to one mailbox |
| `RustRoom.Server.BroadcastMsgText` | wschat-rust/src/main.rs:155-159 | whatever the order of the table, each mailbox gets one copy for each entry that points to it, and no other |
| `RustRoom.Server.HandleMessage` | wschat-rust/src/main.rs:169-171 | a chat reaches the whole table |
| `RustRoom.Server.HandleConnect` | wschat-rust/src/main.rs:177-184 | the newcomer gets its connect once, after the old members, and is then in the table |
| `RustRoom.Server.HandleDisconnect` | wschat-rust/src/main.rs:190-193 | the leaver still gets its own disconnect and is then out of the table |
| `RustRoom.OrderedWindows` | wschat-rust/src/main.rs:148-194 | what was pushed to a client is exactly the slice of one global log from its own connect, the only one, through its own disconnect or up to now |
| `RustRoom.ClientsAgree` | wschat-rust/src/main.rs:155-194 | any two clients agree on the order of everything both were sent |
| `RustRoom.ForwardedInOrder` | wschat-rust/src/main.rs:128-134 | a websocket carries a prefix of its client's window; the rest is in its mailbox |
| `RustRoom.UserProtocol` | wschat-rust/src/main.rs:69-83 | one user's logged events, then those in the mailbox, are a prefix of connect, chats, disconnect; the table holds a user exactly between the logged two |
| `RustRoom.ChatsComeFromClients` | wschat-rust/src/main.rs:166-172 | no chat is broadcast of a user outside the table |
| `RustRoom.ChatsAreConserved` | wschat-rust/src/main.rs:112-124 | one user's logged chats, then those in the mailbox, are exactly the well-formed texts that arrived on that user's websocket, in order and with the time of their arrival: none lost, doubled, reordered or misattributed |
| `RustRoom.FrameIsPrivate` | wschat-rust/src/main.rs:86-122 | every frame but a well-formed text changes only its own connection, and adds no room message to its socket |
| `RustLifecycle.NeverRunsAgain` | wschat-rust/src/main.rs:96-110 | in every run a connection that received a close, a continuation, an error or the end of its stream handles no frame again |
| `RustLifecycle.ClosersLeave` | wschat-rust/src/main.rs:79-110 | a user is logged as gone only if its connection received such a frame; once the actors are idle exactly if, and the table holds exactly the users that started and received none |
| `RustLifecycle.RepliesAnswer` | wschat-rust/src/main.rs:86-121 | besides room messages a websocket carries exactly one pong for each ping, one error for each bad text and one close for each close, in their order |
| `RustLifecycle.StampsAreTimes` | wschat-rust/src/main.rs:166-194 | the log has one entry for each message served, and connects and disconnects carry the time they were served at |
| `RustLifecycle.EverythingArrives` | wschat-rust/src/main.rs:128-134 | an open connection with nothing left to deliver has carried the whole log from its user's own connect on |
| `CppQueue.WsConn.constructor` | wschat-cpp/include/websocket.cpp:72-73 | nothing queued, posted or in flight |
| `CppQueue.WsConn.Post` | wschat-cpp/include/websocket.cpp:80-86 | send only posts to the strand |
| `CppQueue.WsConn.StartWrite` | wschat-cpp/include/websocket.cpp:67-69 | starts a write of the queue's front |
| `CppQueue.WsConn.RunOnSend` | wschat-cpp/include/websocket.cpp:60-70 | moves the oldest post to the queue and starts a write only when none is running |
| `CppQueue.WsConn.RunOnWrite` | wschat-cpp/include/websocket.cpp:46-58 | under the queue's invariant never pops an empty queue, keeps the invariant, and starts the next write only after success |
| `CppQueue.Fifo` | wschat-cpp/include/websocket.cpp:46-70 | completed writes, queue and posts together are the send calls in order; before an error exactly one write is outstanding iff the queue is not empty |
| `CppQueue.SilentAfterError` | wschat-cpp/include/websocket.cpp:46-50 | after a write error nothing is ever written again |
| `CppQueue.DrainsCompletely` | wschat-cpp/include/websocket.cpp:53-57 | an idle strand without error has written every message |
| `CppServer.Server.constructor` | wschat-cpp/include/server.cpp:13 | the set is empty at first |
| `CppServer.Server.BroadcastMsgText` | wschat-cpp/include/server.cpp:35-44 | undisturbed, each given live member is sent the message once, in any order |
| `CppServer.Server.Connect` | wschat-cpp/include/server.cpp:15-22 | undisturbed, the newcomer is told before it is a member |
| `CppServer.Server.Disconnect` | wschat-cpp/include/server.cpp:24-28 | undisturbed, the live members are told, then the leaver is erased |
| `CppRoom.HeldIsLiving` | wschat-cpp/include/websocket.cpp:75-78 | a connection with a non-zero reference count is allocated and not being destroyed |
| `CppRoom.PointerLifetime` | wschat-cpp/include/server.cpp:20-44 | in every interleaving no freed connection is accessed, every pointer in the set or taken from it is to allocated memory, broadcasts send only to referenced connections, and the set is stable under a broadcast's loop |
| `CppRoom.ConnectFirst` | wschat-cpp/include/server.cpp:15-22 | the first message posted to, and written by, a connection is its own connect, however others broadcast; the set only holds connections to which it was posted |
| `CppDelivery.StepKept` | wschat-cpp/include/server.cpp:39-40 | no step takes back a sent message or revives a reference count that is zero |
| `CppDelivery.BroadcastMissesNobody` | wschat-cpp/include/server.cpp:35-44 | in every interleaving, when a broadcast leaves its loop each member that still has a reference has been sent the message by this very broadcast exactly once, whatever equal messages others sent |
| `CppDelivery.AtMostOnce` | wschat-cpp/include/server.cpp:35-44 | no handler or destructor ever sends to a connection twice |
| `CppOrders.EveryAgentStarted` | wschat-cpp/include/websocket.cpp:15-44 | in every reachable state each handler and destructor was started by an accept, a read or a last release of the run, for that connection and with the message this means |
| `CppOrders.ReadIsHandled` | wschat-cpp/include/websocket.cpp:31-38 | every text read has its handler, which for ever has the message read, or the complaint |
| `CppOrders.MembersAreTold` | wschat-cpp/include/server.cpp:35-44 | a connection that was a member before a broadcasting handler or destructor began, and is still referenced when that has ended, has been sent its message exactly once |
| `CppOrders.ReadReachesMembers` | wschat-cpp/include/websocket.cpp:33-34 | so each such member has been sent, exactly once, the very message that was read |
| `CppOrders.BadReplyIsPrivate` | wschat-cpp/include/websocket.cpp:35-39 | a bad text is answered once, to its own sender, and to nobody else |
| `CppOrders.WhoIsServed` | wschat-cpp/include/websocket.cpp:15-44 | when all have ended, the members are exactly the accepted connections, those read from exactly the accepted ones whose reads have not failed, those waiting exactly the ones nothing was heard of |
| `CppProgress.StuckIff` | wschat-cpp/include/server.cpp:35-44 | when no handler or destructor can move, one is unfinished if and only if one waits inside its broadcast for a destructor that needs the mutex |
| `CppProgress.StuckIffDropped` | wschat-cpp/include/server.cpp:38-43 | a run at rest has left something unfinished if and only if at some step of it a broadcast released the last reference to a connection |
| `CppProgress.CalmNeverFreezes` | wschat-cpp/include/server.cpp:38-43 | no broadcast runs a destructor, and nothing is ever stuck, if no strand takes a post between a broadcast's send and its release of the reference |
| `CppProgress.OneThreadNeverFreezes` | wschat-cpp/main.cpp:47-54 | with one I/O thread nothing is ever stuck |
| `CppProgress.GoDrops` | wschat-cpp/include/server.cpp:15-44 | each action of a handler or destructor makes a measure smaller, nested destructors included |
| `CppProgress.Settles` | wschat-cpp/include/server.cpp:15-44 | so from every reachable state they come to rest within a bound that the state gives |
| `CppRoom.DeadlockStep` | wschat-cpp/include/server.cpp:38-43 | no step of anybody resolves the deadlock of a broadcast with the destructor it runs |
| `CppRoom.NestedDestructorFreezesRoom` | wschat-cpp/include/server.cpp:35-44 | from then on nobody ever enters or leaves the set and the connection is never freed |
| `CppFreeze.FreezeIsReachable` | wschat-cpp/include/server.cpp:38-43 | a concrete run of two connections reaches that deadlock |
| `ClientRun.StartBarrier` | client/main.go:133-154 | with sameStart no worker runs before every worker has finished its dial; tokens posted are tokens buffered plus tokens taken |
| `ClientRun.HandOff` | client/main.go:168-213 | at most one goroutine may touch a result record at any time, and none while it is in the channel |
| `ClientRun.OneResultEach` | client/main.go:279-281 | when main is done it has exactly one result of each worker, and all workers have ended |
| `ClientRun.ResultsAreComplete` | client/main.go:127-214 | a result main has received says connected iff the dial succeeded, and has the receiver's and the sender's fields iff the worker then got its uuid |
| `ClientRun.WaitsIff` | client/main.go:68-154 | in every run a worker waits exactly for room among five tokens, the start signal, its receiver, or room among a hundred results; main exactly for a token, a result or a worker |
| `ClientRun.Progress` | client/main.go:68-92 | as long as the uncollected tokens fit there is no deadlock, for any number of workers and despite the bounded channels |
| `ClientRun.MeasureDrops` | client/main.go:68-92 | every step makes a measure smaller |
| `ClientRun.RunBound` | client/main.go:68-92 | so every run is finite |
| `ClientRun.CompletesIff` | client/main.go:133-138 | a run that can go no further has finished iff sameStart is set, or test mode is not, or the address is good, or there are at most five workers |
| `ClientRun.NeverCompletes` | client/main.go:133-138 | otherwise a run exists that ends with every goroutine blocked and main unfinished |
| `ClientReport.AddConnect` | client/main.go:282-300 | one result's contribution to the connect numbers |
| `ClientReport.AddSend` | client/main.go:302-327 | one result's contribution to the send numbers |
| `ClientReport.AddRecv` | client/main.go:329-360 | one result's contribution to the receive numbers, with the wrong maximum updated |
| `ClientReport.Accumulate` | client/main.go:279-365 | after the loop each sum, minimum, maximum and list equals its definition over all results |
| `ClientReport.RunTest` | client/main.go:261-464 | the numbers of the loop, the maxima of messages overwritten once anything passed, the derived counts, and each figure about sending and receiving with the guards under which it is printed |
| `ClientReport.ConnectStep` | client/main.go:282-300 | the definitions over all results follow one more result as the loop body does |
| `ClientReport.SendStep` | client/main.go:302-327 | likewise for sending |
| `ClientReport.RecvStep` | client/main.go:329-360 | likewise for receiving |
| `ClientReport.ReportedSnoc` | client/main.go:341-343 | the reported maximum is what the last overwriting receive and the sends after it leave |
| `ClientReport.Totals` | client/main.go:282-365 | connect failures, passes and failures add up to all connections, for sends and for receives; the error lists have those lengths |
| `ClientReport.SendFields` | client/main.go:410-435 | each figure printed about passed and failed sends is the minimum, the mean, the maximum or the count of exactly the results it is about |
| `ClientReport.RecvFields` | client/main.go:438-464 | likewise about receives, where the longest failed receive is printed as zero |
| `ClientReport.SecondsAre` | client/main.go:412-464 | durations are printed in seconds |
| `ClientReport.MaxFailedSendRightIff` | client/main.go:424-429 | the printed longest failed send is right iff no send failed, and none is printed, or the overwriting did no harm |
| `ClientReport.MaxFailedRecvRightIff` | client/main.go:453-458 | the printed longest failed receive is right iff no failed receive took time |
| `ClientReport.MaxMsgsRightIff` | client/main.go:371-373 | the printed greatest number of messages of a failed connection is right iff nothing passed or nothing failed |
| `ClientReport.PassedRightIff` | client/main.go:406-452 | the counts of passes are right iff no connection was made or all were; the times printed of the passes are right iff so, or some passed and took no time at all |
| `Messages.ActionCodec` | wschat-go/common/message.go:43-63 | a name is accepted as an action exactly when it is that action's own name, one of the four spelled out |
| `Messages.RustActionCodec` | wschat-rust/src/message.rs:50-73 | the Rust spelling names its action to a reader iff the action is not disconnect |
| `Messages.CppTextIs` | wschat-cpp/message.hpp:254-259 | the C++ server's text: all four members in alphabetical order, without blanks |
| `Messages.RustTextIs` | wschat-rust/src/message.rs:10-20 | the Rust server's text: all four members in the struct's order |
| `Messages.GoTextIs` | wschat-go/common/message.go:9-14 | the Go server's text: the struct's order, without an empty sender, empty contents or a zero timestamp, or their commas |
| `JsonText.EscapersValid` | wschat-go/common/message.go:9-14 | both encoders spell every character in a way section 7 of RFC 8259 allows |
| `JsonText.EscapersChoose` | wschat-go/common/message.go:9-14 | which characters each encoder prints with a letter escape and which as they are; Go never prints an angle bracket or an ampersand |
| `JsonText.StringRoundTrip` | server/static/js/index.js:10 | every string survives escaping and parsing, whatever follows it |
| `JsonText.QuotesAreEscaped` | wschat-cpp/message.hpp:254-259 | inside a printed string a quote always follows a backslash |
| `JsonText.DecRoundTrip` | server/static/js/index.js:7 | every natural number survives printing and reading |
| `JsonText.DecIs` | wschat-cpp/message.hpp:254-259 | an integer is printed with a minus sign iff negative, then its absolute value without leading zeros |
| `JsonText.ObjectRoundTrip` | server/static/js/index.js:10 | every flat object of strings survives printing and parsing |
| `JsonGrammar.ParsesIff` | server/static/js/index.js:10 | the parser accepts a text iff the grammar of RFC 8259 derives it as a flat object of strings, and returns what that denotes |
| `JsonGrammar.LastMemberCounts` | server/static/js/index.js:10 | a name is in the object iff some member has it, and the last such member gives its value |
| `Regex.MatchAtComplete` | server/static/js/index.js:4 | the backtracking matcher finds a match wherever one starts |
| `Regex.GreedyIsFirst` | server/static/js/index.js:4 | a match in which every item takes all it can is the one found first |
| `Regex.SearchFinds` | server/static/js/index.js:4 | the search stops at the first position with a match |
| `Regex.GreatestFirst` | server/static/js/index.js:4 | of all matches at a position the matcher finds the one whose first item takes most, then the second, and so on |
| `Regex.Leftmost` | server/static/js/index.js:4 | the search finds a match whenever there is one, and none starts before it |
| `BrowserParse.MatchIff` | server/static/js/index.js:3 | the expression matches exactly where its pieces stand one after another: comma or none, blanks, the quoted name, blanks, colon, quote or none, non-word characters, digits, quote or none, blanks |
| `BrowserParse.ParseMessageIs` | server/static/js/index.js:2-11 | on every text: with a match the timestamp is the number of its digits and the members are those of the text without the match; without one they are those of the text; it throws iff that is no object |
| `BrowserParse.SearchFindsTimestamp` | server/static/js/index.js:3-4 | in an encoder's output the expression matches at the real timestamp member, never inside user text, and its group is the digits |
| `BrowserParse.CutRemovesMatch` | server/static/js/index.js:8 | the first occurrence of the matched text is the match itself, and cutting it leaves a well-formed object |
| `BrowserParse.ParseInvertsEncode` | server/static/js/index.js:2-11 | parseMessage inverts every encoder of string members and a final timestamp, for all values, up to the timestamp's sign |
| `BrowserParse.ParseWithoutTimestamp` | server/static/js/index.js:6-10 | a message without a timestamp comes back unchanged |
| `BrowserParse.ParseInvertsCpp` | wschat-cpp/message.hpp:254-259 | for every C++ message the same fields come back; the timestamp is right iff not negative |
| `BrowserParse.ParseInvertsGo` | wschat-go/common/message.go:9-14 | for every Go message the same fields come back, empty ones and a zero timestamp as missing; the timestamp comes back right iff it is positive |
| `BrowserParse.ParseInvertsRust` | wschat-rust/src/message.rs:10-20 | for every Rust message the same fields come back, with the action as it is spelled |
| `BrowserApp.App.constructor` | server/static/js/index.js:14-28 | no socket, no uuid, no messages |
| `BrowserApp.App.OpenHandler` | server/static/js/index.js:63-65 | only the open flag changes |
| `BrowserApp.App.ResetState` | server/static/js/index.js:136-144 | uuid, list and socket are gone; the open flag is cleared iff connected |
| `BrowserApp.App.CloseHandler` | server/static/js/index.js:120-126 | resets a connected session and leaves any other as it is |
| `BrowserApp.App.MessageHandler` | server/static/js/index.js:66-100 | every branch of the handler, with reset before insertion |
| `BrowserApp.App.Push` | server/static/js/index.js:97-98 | splices the message in after the last earlier one |
| `BrowserApp.LastBefore` | server/static/js/index.js:97 | the last element with an earlier timestamp, -1 if there is none |
| `BrowserApp.ListIsOrdered` | server/static/js/index.js:97-98 | for every order of arrival the list is sorted by timestamp even around messages without one, equal timestamps in reverse order of arrival |
| `BrowserApp.ListIsPermutation` | server/static/js/index.js:97-98 | no message is lost or doubled |
| `BrowserApp.ListBetweenResets` | server/static/js/index.js:66-100 | between resets the list is the ordered insertion of every message handled |
| `BrowserApp.EmptyAfterIff` | server/static/js/index.js:84-98 | the list is empty after a message iff that could not be parsed or has no known action; any other resetting message is then alone in it |
| `BrowserApp.ResetLeaves` | server/static/js/index.js:66-144 | field by field what each resetting branch leaves: no uuid, no socket, the open flag only if there was no socket, and the list empty or just the message |
| `BrowserApp.KeepsSession` | server/static/js/index.js:76-100 | any other message is a connect, a chat or another's disconnect, is inserted, and only the first connect assigns the uuid |
| `BrowserApp.UuidStays` | server/static/js/index.js:77-81 | an assigned uuid stays until a reset |
| `EndToEnd.BrowserKnowsItsUuid` | server/static/js/index.js:76-89 | in every run of the C++ server a browser that has not been reset has the uuid the server assigned to its connection |
| `RustToBrowser.RustResetsIff` | server/static/js/index.js:76-96 | a Rust message resets the browser iff it is an error or any client's disconnect |
| `RustToBrowser.EntryReads` | wschat-rust/src/main.rs:166-194 | in each broadcast's text the browser reads the sender, action, contents and time that the server logged, a leaver under the misspelled action |
| `RustToBrowser.AnyDisconnectResets` | wschat-rust/src/message.rs:55 | in every run of the Rust server, of everything written to a browser's socket, each disconnect broadcast, the one the log has there, empties its session |
| `RustToBrowser.BadReplyResets` | wschat-rust/src/main.rs:112-121 | the reply to a bad message empties it too, and is then its only message |

## Left out

- Sockets, HTTP, TLS, WebSocket framing and the runtimes are atomic steps with these assumptions: a
  strand runs posted handlers in order and one at a time; a mailbox keeps the order of its pushes
  and is delivered to until its actor stops; a stopping actor handles no more stream items;
  `ws.Write` returns; an asynchronous read or write completes at most once.
- Uuids and clocks are inputs. Uuids are fresh and timestamps arbitrary.
- Go: the readers-writer lock prefers writers, and `sync.Map.Range` visits a key at most once and
  visits every key that was there all the time, as their documentation promises; reading a key at
  the moment it is stored or deleted is left open both ways.
- Go: error replies written past the channel. A text that cannot be decoded is a hangup, as it ends
  the handler. The values sent over the channels are the broadcasts' numbers.
- The interleavings of the rooms and of the load tester are functions on state values, since any
  thread may act between any two accesses; the classes show the same objects updated in place.
- C++: the destructor that runs when an I/O handler drops the last reference is a step of its own,
  which may come at any time after that; a received message is any message, so that `from_json`
  and a timestamp it leaves unset are not modelled.
- Load tester: the send and receive loops of a worker are one step each; the counters inside them,
  including a message counted again after an unmarshalling error, are not modelled. The totals'
  averages, the percentage and the error menu are left out. The least durations are those capped at
  the hour that the source starts from.
- CppServer.Server.BroadcastMsgText: which members can be locked is a parameter and nobody else acts
  meanwhile; every interleaving, with the reference counts themselves, is in CppRoom.
- CppServer.Server.Connect: likewise.
- CppServer.Server.Disconnect: likewise.
- ClientReport.Accumulate: sums of seconds are exact reals and message counts are unbounded, so
  rounding and overflow of the sums are not modelled.
- JsonText.ObjectRoundTrip: only flat objects of strings; strings are sequences of Dafny characters,
  so UTF-16 code units and escaped surrogates are not modelled. Of two timestamps in one text the
  browser's object would keep the second.
- Browser: one socket session at a time; rendering, scrolling, alerts and the server list are left
  out. `ws.close()` is the loss of the socket.
- Action names of the Rust server are only modelled as it prints them; its JSON reader is not.
- The Python, JavaScript and Elixir servers, the file server, the runner and the accept loops.
