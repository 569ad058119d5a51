# A verified model of conntop

conntop shows the network connections of a machine. A server reads the kernel's connection tracking table once per
tick and sends it, or what changed in it, to its clients; a client keeps a replica of the table and shows a sorted,
scrolled window of it. This project models the parts of conntop whose correctness is not visible in any single
function, and proves that they do what they are for. It covers four groups of source files.

**The synchronisation protocol.** `Connections`, `Collection`, `Protocol` and `SyncSystem` describe the JSON
records, the delta log, the collector and the two endpoints as functions on values, and the server with any number
of clients as a transition system: FIFO channels in both directions, one step per message, send, tick, pause, refill
or lost connection. `SyncTheorems` proves safety for every run (a synchronised client's replica is the server's
table as of the tick the client last acted on; no `onMessage` ever throws; timestamps are consecutive modulo 2^32).
`SyncLiveness` and `SyncConvergence` prove progress: whatever a connected, unpaused client and its session have
under way can be brought to rest, and from every reachable state in which it is, two undisturbed ticks leave the
client synchronised, and further ones keep it so. `SyncStart` puts this together: any client that connects can be
brought to show the server's current table. `SyncPause` proves that a paused client shows what it showed.
`CollectedTable` says what the server's table is, in terms of the kernel's events and counters. `UpdateSerializer`,
`Conntrack`, `SocketWriter`, `ServerSessions`, `Servers` and `Clients` are the objects of the source, with their
fields and loops; each method is proved to do to the object's abstract value what the transition system does in the
step of the same name. The server's objects also carry the bytes: what is on the wire is always whole messages in
queue order.

**The connection list.** `Ordering` has the 20 comparators, and the constant one for no order, and proves that each
is a strict weak order. `ListWindow`, `ListChanges` and `ConnectionLists` model the list with its edits, its
scrolling and cursor, and its per-row dirty flags. The invariant says that the list is sorted, free of duplicates,
inside the storage and as long as storage and window allow, and that a screen drawn only from the reported updates
can be completed from the dirty flags. Whether the list still holds the first connections in the order is proved
separately, with an exact condition for each operation that does not always keep them.

**The MaxMind DB reader.** `MaxMindFormat` describes value trees and their encoding as in the MaxMind DB File Format
Specification version 2.0, sections "Binary Search Tree Section" and "Output Data Section". `MaxMindDecoder`,
`MaxMindLookup`, `MaxMindPool`, `MaxMindEntryList` and `MaxMindTree` are the reader; it is proved to find in the
bytes what is in the tree, and to stay inside the section on arbitrary bytes.

**Vendored primitives.** `FreeList` and `BlockingQueue` are the lock-free free list and the lightweight semaphore
with its blocking queue, one atomic operation per step, for any number of threads and any schedule. `PoolAllocator`
is the JSON library's memory pool and `Utf8` its codec, against the grammar of section 4 of RFC 3629. `Options` and
`Numbers` have what several modules share.

`dafny verify dfyconfig.toml` checks everything.

## What the proofs found

* `ConnectionList::update` does not always keep the first connections of the order in the list: `fill` returns early
  when the list is full, so a listed connection that moves behind an unlisted one stays listed.
  `UpdateCanLoseTop` builds such a list; `ConnectionList.Update` and `MovedTop` give the exact condition.
* A name that the resolver delivers can lose the first connections too: the callbacks reinsert the users of the
  address or port and never look at the rest of the storage. They end with the first connections if and only if
  every other stored connection has at least as many listed ones and users before it or level with it as the list
  is then long (`ConnectionList.ResolveAddress`, `ConnectionList.ResolvePort`); `ResolveCanLoseTop` and
  `ResolvePortCanLoseTop` build lists for which they do not.
* `fill` is called by `update` only when the list is full or holds every connection, where it does nothing
  (`ConnectionList.FillNothing`).
* `ConnectionList::update` assigns the flags of the detail view where the row flags are combined; the model does the
  same.
* At the end of its input, `UTF8::Decode` on a memory stream reads U+0000 and reports success; everywhere else it
  accepts exactly the characters of RFC 3629 (`Utf8.Decode`).
* `MemoryPoolAllocator::Malloc` finds room that is not there exactly when its size arithmetic wraps around
  (`PoolAllocator.RoomIsReal`).
* The netmask of an IPv4 lookup through the cached start node is that of the walk from the root if and only if the
  walk is longer than 96 bits. If it ends after n <= 96 bits, the lookup reports 129 - n
  (`MaxMindTree.Reader.FindAddress`); `EarlyLeaf` is a database whose walk ends after 1 bit, reported as 128. Status,
  found flag and offset agree.
* The reader judges a record by the size of the data section without the 16 bytes of the separator before it. A
  record that points into the separator is reported as found, at an offset that wraps around, and one that points to
  the last 16 bytes of the data section is reported as a corrupt tree; on every other record the reader agrees with
  the format (`MaxMindTree.DescentIsTrieLookup`, `SeparatorFound`, `LastByteRefused`).

## Hypotheses

* A queued message carries the contents it had when it was queued. The server rewrites its cached messages while
  they may still be in a queue; `ServerSession.MayRewriteData` shows that after the first loop of the update no
  writer is in the middle of a shared DATA message.
* EDataFlags has one bit, so a word of data flags is a boolean. An address is identified by its family and its
  numeric text: `inet_ntop` and `inet_pton` are taken to be inverse to each other.
* The history of tables, the cursor in a stream, the number of the last processed tick, the list and the places in
  `FreeList`, and the screen of the connection list are auxiliary: the code neither has nor needs them.
* Atomic operations are sequentially consistent. The free list serves fewer than 2^31 - 1 threads.
* A loss of connection, also by a timeout, can happen at any time in the transition system.

## Model

| member | source | states |
|---|---|---|
| Connections.StateNameRoundTrip | Source/Connection.cpp:29-46 | A state survives printing and parsing if and only if it is one of the states of its protocol. |
| Connections.FlagsOf | Source/Connection.hpp:69-90 | Adding the update flags of the changed fields makes a word in which testing each flag gives back exactly those fields. |
| Connections.ParseCreate | Source/Connection.cpp:226-609 | A serialized CREATE record reads back as the connection with its state and all six counters. |
| Connections.ParseUpdate | Source/Connection.cpp:226-609 | A serialized UPDATE record reads back with its flags and exactly the flagged values, for any 32-bit word of flags. |
| Connections.ParseRemove | Source/Connection.cpp:226-609 | A serialized REMOVE record reads back as the removal of its connection, whatever its state was. |
| Connections.ApplyRecordEffect | Source/Connection.cpp:487-606 | On a storage in which every connection's addresses and ports are interned, the lookups that may refuse a record never change its effect on the connections, and interning stays complete. |
| Connections.ReplayIsMeaning | Source/Connection.cpp:316-609 | Deserializing a list of records does to the connections what the records mean on the bare table, and throws exactly when a record is malformed. |
| Connections.MeaningAppend | Source/Client.cpp:424-428 | One more record acts on what the records before it made of the table. |
| Connections.ParseAccepts | Source/Connection.cpp:316-609 | Deserialize throws exactly at the records that lack a known action or type, an endpoint, or a value that the action needs, or have one of the wrong JSON type or width. |
| Connections.ReplayThrows | Source/Client.cpp:424-428 | Deserializing a list throws exactly if it has such a record. |
| Collection.TcpStateToEnum | Source/Collector_Netfilter/Conntrack.cpp:18-34 | Every raw conntrack state maps to a state that TCP has and that can therefore be sent. |
| Collection.Speed | Source/Collector_Netfilter/Conntrack.cpp:432-433 | The speed is the one unsigned 64-bit number that leads from the old reading to the new one, wrap-around included. |
| Collection.ChangesCoverQuery | Source/Collector_Netfilter/Conntrack.cpp:389-473 | The reported flags are enough: patching the old values with the flagged new ones gives the new values, and no flag means no change. |
| Collection.AddKeepsCover | Source/Server.hpp:114-134 | Adding a connection keeps the log turning the table before the tick into the present one. |
| Collection.UpdateKeepsCover | Source/Server.hpp:136-142 | So does an update with the collector's new values and flags. |
| Collection.RemoveKeepsCover | Source/Server.hpp:144-155 | So does removing a connection. |
| Collection.RowsKeepCover | Source/Collector_Netfilter/Conntrack.cpp:343-475 | So does any sequence of rows of a conntrack dump, in a refill or not; the log is neither turned on nor off by it. |
| Collection.EventsKeepCover | Source/Collector_Netfilter/Conntrack.cpp:305-322 | So does replaying any queue of kernel events. |
| Collection.TickIsCovered | Source/Server.hpp:67-80 | A log that exists at the end of a collector update turns the table before the update into the table after it; a refill leaves no log and turns logging off, whatever was logged before. |
| Collection.DumpMeaning | Source/Server.hpp:15-29 | A dump in any order without repetition gives an empty table exactly the dumped connections. |
| Collection.DumpIsTable | Source/Server.hpp:15-29 | A full dump, in any iteration order of the hash map, gives a cleared replica the server's table. |
| CollectedTable.RowIsRead | Source/Collector_Netfilter/Conntrack.cpp:343-475 | One row of a dump changes the connection it is about and no other: the counters are the row's, the speeds lead from the old readings to the new ones modulo 2^64, the TCP state is the raw state's; in a refill it adds the connection. |
| CollectedTable.EventsLeave | Source/Collector_Netfilter/Conntrack.cpp:305-322 | After the queued events a connection is there exactly if the last event about it added it, or there is none and it was there; it keeps its data unless it was removed in between. |
| CollectedTable.CollectedIsTable | Source/Collector_Netfilter/Conntrack.cpp:291-475 | The table after a collector update, said of every connection by the events and the rows about it, without and with a refill. |
| CollectedTable.TcpStateNamed | Source/Collector_Netfilter/Conntrack.cpp:18-34 | The states of the kernel and the names under which they are sent. |
| UpdateSerializer.ConnectionUpdateSerializer.SetSerializationEnabled | Source/Server.hpp:67-75 | Turning logging off drops the log; turning it on starts an empty one. |
| UpdateSerializer.ConnectionUpdateSerializer.Build | Source/Server.hpp:77-80 | Hands the log over and starts anew. |
| UpdateSerializer.ConnectionUpdateSerializer.Add | Source/Server.hpp:125-134 | Stores and logs a connection exactly if it is new. |
| UpdateSerializer.ConnectionUpdateSerializer.Update | Source/Server.hpp:136-142 | Logs the stored values under the given flags while logging is on. |
| UpdateSerializer.ConnectionUpdateSerializer.Remove | Source/Server.hpp:144-155 | Logs and removes a connection exactly if it is stored. |
| UpdateSerializer.ConnectionUpdateSerializer.Clear | Source/Server.hpp:157-161 | Empties the connections, keeps the interned addresses and ports, and turns logging off. |
| UpdateSerializer.BuildDump | Source/Server.hpp:15-29 | Iterating over the storage yields one CREATE record per connection, in some order that visits each once. |
| Conntrack.Conntrack.ExtractAddressPort | Source/Collector_Netfilter/Conntrack.cpp:117-206 | With add it always succeeds and interns addresses and ports; without, it succeeds exactly if they are interned and changes nothing. |
| Conntrack.Conntrack.RefreshBytes | Source/Collector_Netfilter/Conntrack.cpp:431-448 | The nested comparisons report a changed byte counter exactly if it changed and a changed speed exactly if the difference is not the old speed. |
| Conntrack.Conntrack.Refresh | Source/Collector_Netfilter/Conntrack.cpp:389-467 | Comparing field by field gives the new values and the flags that ChangesCoverQuery is about. |
| Conntrack.Conntrack.HandleQuery | Source/Collector_Netfilter/Conntrack.cpp:343-475 | One row of the dump changes storage and log as the value model says, and the table as `RowIsRead` does: new counters, speeds and state for a stored connection, nothing for any other. |
| Conntrack.Conntrack.OnEvent | Source/Collector_Netfilter/Conntrack.cpp:477-528 | A kernel event goes to the end of the queue exactly if no refill is due and, for a removal, its addresses are known; those of a new connection then are. |
| Conntrack.Conntrack.OnUpdate | Source/Collector_Netfilter/Conntrack.cpp:291-341 | Afterwards the table is what events and rows describe, connection by connection; the queue is empty and no refill is due. It is also the collector update that TickIsCovered is about. |
| Protocol.PauseTakesEffect | Source/Client.cpp:231-251 | After setPaused the client is paused or not as asked; its replica stays, and a request is sent exactly on resuming with no data awaited and none asked for. |
| Protocol.PausedReads | Source/Client.cpp:401-410 | A paused client stays paused and keeps its replica, whatever message it reads. |
| Protocol.ThrowsExactly | Source/ClientServerProtocol.cpp:480-693 | The client throws exactly at messages out of place: handshake out of order, a tick out of sequence, an answer not asked for, data not announced or with an unacceptable record. |
| Protocol.SessionEnds | Source/ClientServerProtocol.cpp:480-693 | A farewell, or a banner of another version, ends the session and synchronisation. |
| Protocol.LeavingSaysBye | Source/ClientServerProtocol.cpp:723-739 | Leaving a connected session sends BYE and waits; one being set up ends at once. |
| Protocol.RefusesExactly | Source/ClientServerProtocol.cpp:942-1045 | The server refuses exactly a second HELLO and a request before the first. |
| Protocol.ServerReacts | Source/ClientServerProtocol.cpp:942-1045 | HELLO is greeted, BYE ends the session, and a request is answered with what of it is available; logging is turned on exactly by an available request for updates. |
| Protocol.StopTakesEffect | Source/ClientServerProtocol.cpp:1105-1137 | After stopSendingData no DATA message waits, a message not begun is dropped, and the flags are taken back exactly if there was something to stop. |
| Protocol.WithoutData | Source/ClientServerProtocol.cpp:1105-1120 | Exactly the messages that are not DATA stay in the queue; nothing was dropped if and only if the queue is as it was. |
| SyncSystem.ReadWithoutData | Source/ClientServerProtocol.cpp:1105-1137 | Dropping DATA messages from a readable stream leaves it readable up to the same place in the protocol. |
| SyncSystem.ReadLongerHistory | Source/Server.cpp:77-86 | A further tick does not change how messages already sent read. |
| SyncSystem.DataIsReadable | Source/Client.cpp:401-455 | Under the invariant, applying the next DATA never throws. |
| SyncSystem.ReplicaAfterDelivery | Source/Client.cpp:349-455 | Whatever message the client reads next, its replica stays equal to the table of the tick it last acted on, or one tick behind exactly while it awaits data. |
| SyncSystem.DeliverOk | Source/ClientServerProtocol.cpp:480-693 | Reading any message keeps the invariant of a link: handshake order, one answer per request, readable stream, replica. |
| SyncSystem.ServeOk | Source/ClientServerProtocol.cpp:942-1045 | So does any message that the server reads. |
| SyncSystem.LinkStepOk | Source/ClientServerProtocol.cpp:1180-1212 | So do sending in parts, pausing, leaving and losing the connection. |
| SyncTheorems.TickOk | Source/Server.cpp:39-136 | A tick keeps the invariant of the whole system: what is queued for each client is the delta of this tick, a full dump or nothing, as its flags allow. |
| SyncTheorems.StepOk | Source/Server.cpp:39-136 | Every step of the system keeps the invariant. |
| SyncTheorems.RunOk | Source/Server.cpp:39-136 | The invariant holds after every run from a started server. |
| SyncTheorems.SynchronizedMeansEqual | Source/Client.cpp:349-455 | In every run, a synchronised client without remaining data flags has exactly the server's table as of the tick it last acted on. |
| SyncTheorems.NoMessageThrows | Source/ClientServerProtocol.cpp:480-693 | In every run, neither endpoint throws on the next message it will read. |
| SyncTheorems.TimestampFollows | Source/ClientServerProtocol.hpp:422-426 | In every run, a client's timestamp is the number of the tick it last acted on modulo 2^32, across wrap-around. |
| SyncTheorems.TickTable | Source/Server.cpp:77-110 | The table that a tick publishes is the one that the events since the last tick and the rows of the dump describe. |
| SyncPause.PauseFreezes | Source/Client.cpp:231-251 | From a pause to the next resumption the client stays paused and its replica the same, through any steps of any client, the server and the kernel. |
| SyncLiveness.StatusLive | Source/Client.cpp:379-399 | An answer to a request keeps the client on its way: it has data, awaits data, or asks again. |
| SyncLiveness.TickLive | Source/Client.cpp:349-377 | So does a tick, with data awaited or not, paused or not. |
| SyncLiveness.DataLive | Source/Client.cpp:401-455 | So does data, taken or ignored. |
| SyncLiveness.DeliverLive | Source/ClientServerProtocol.cpp:480-693 | Reading any message keeps a link's progress invariant. |
| SyncLiveness.ServeLive | Source/Server.cpp:331-342 | So does the server's answer to a request. |
| SyncLiveness.LinkStepLive | Source/Client.cpp:231-251 | So do pausing, resuming, sending, leaving and losing the connection. |
| SyncConvergence.LiveStep | Source/Server.cpp:112-135 | Every step of a system with data available keeps the progress invariant of all links. |
| SyncConvergence.ReachableLive | Source/Server.cpp:112-135 | The progress invariant holds in every reachable state. |
| SyncConvergence.TickOpens | Source/Server.cpp:112-135 | A tick without a refill sends a settled client what it waits for: the data it asked for, or a tick that makes it ask anew. |
| SyncConvergence.RoundResult | Source/Client.cpp:349-462 | A tick whose messages all arrive leaves the client awaiting nothing, and synchronised if it awaited nothing before. |
| SyncConvergence.RoundStaysSynchronized | Source/Client.cpp:349-462 | A synchronised client that awaits nothing stays synchronised at every moment of such a round. |
| SyncConvergence.SynchronizedForGood | Source/Client.cpp:349-462 | A client that awaits no data is synchronised after any number of such rounds. |
| SyncConvergence.ConvergesInTwoTicks | Source/Client.cpp:231-251 | From every reachable state, a settled and unpaused client is synchronised after two or more such rounds. |
| SyncConvergence.Drain | Source/ClientServerProtocol.cpp:1180-1212 | From any state in order, a connected and unpaused link can be brought to rest without a tick: sending, delivering and answering what is under way comes to an end. |
| SyncConvergence.RoundExists | Source/Server.cpp:112-135 | Whatever table a tick brings, there are steps that make it such a round, so the theorems above are not about nothing. |
| SyncStart.RestIsCurrent | Source/Client.cpp:349-455 | A synchronised client at rest that awaits nothing shows the server's current table. |
| SyncStart.Greeted | Source/ClientServerProtocol.cpp:480-530 | In any state in order, a client that connects and the server are both connected after seven steps. |
| SyncStart.CanCatchUp | Source/Client.cpp:231-251 | From every reachable state a connected client, paused or not, can be brought to show the server's current table within three ticks, whatever these bring. |
| SyncStart.CanSynchronize | Source/ClientServerProtocol.cpp:710-721 | So can, in every reachable state, any client that connects. |
| Clients.Client.OnServerTick | Source/Client.cpp:349-377 | The callback changes the flags as the protocol model says and touches no replica. |
| Clients.Client.OnDataStatus | Source/Client.cpp:379-399 | Likewise for an answer. |
| Clients.Client.Deserialize | Source/Connection.cpp:316-609 | Reading one record into the connection list makes its storage what the record makes of it, or throws and changes nothing; the list stays valid. |
| Clients.Client.DeserializeAll | Source/Client.cpp:424-428 | The loop replays the records into the connection list; a record that throws leaves the earlier ones applied. |
| Clients.Client.OnData | Source/Client.cpp:401-455 | Data is ignored, replayed onto the list or onto the cleared list, and followed by a request, as the protocol model says. |
| Clients.Client.SetPaused | Source/Client.cpp:231-251 | The client is then paused or not as asked, with its replica as before; on resuming a request goes to the end of the send queue exactly if none is awaited and none was asked for. |
| Clients.Client.Disconnect | Source/ClientServerProtocol.cpp:723-739 | A connected session queues BYE and closes with a time to live of its own; one being set up ends. |
| Clients.Client.OnUpdate | Source/ClientServerProtocol.cpp:695-708 | Each update takes one off the session's time to live; a session without any left is dropped, with its unsent messages. |
| Clients.Client.OnMessage | Source/ClientServerProtocol.cpp:480-693 | The message is answered or thrown at as the protocol model says, thrown at exactly if it is out of place; the handshake and answers renew the time to live, ticks extend it, nothing else touches it. |
| Clients.Client.Receive | Source/ClientServerProtocol.cpp:480-693 | Any message does to the client what a delivery does in the transition system; a session that ends loses its unsent messages. |
| Clients.ReceiveIsDelivery | Source/ClientServerProtocol.cpp:750-789 | That is a delivery step of the transition system, followed by a loss of connection if the session ended. |
| SocketWriter.StreamWriter.Stop | Source/SocketReaderWriter.hpp:116-162 | A message is dropped exactly if nothing of it was sent; otherwise what is left to send stays the same, and nothing shared is referred to any more. |
| SocketWriter.StreamWriter.Send | Source/SocketReaderWriter.hpp:164-193 | A message is taken exactly if the writer is free. |
| SocketWriter.StreamWriter.DoSend | Source/SocketReaderWriter.hpp:195-222 | The socket takes as many bytes as it has room for, or all; the wire plus the remainder stays the same; the end is reported exactly when nothing remains. |
| ServerSessions.MsgsOfKept | Source/ClientServerProtocol.cpp:1105-1120 | Erasing DATA packets from the queue leaves the messages that the protocol model keeps. |
| ServerSessions.StoppedThinned | Source/ClientServerProtocol.cpp:1105-1137 | What is begun and queued after stopping a transmission is still everything ever queued, in order, without some of its DATA messages. |
| ServerSessions.ServerSession.Enqueue | Source/ClientServerProtocol.cpp:907-925 | The message goes to the end of the queue; the bytes already begun are not touched. |
| ServerSessions.ServerSession.StopSendingData | Source/ClientServerProtocol.cpp:1105-1137 | The session is as the protocol model says, the wire is unchanged, whole messages are kept, and no shared DATA message is in the middle of being sent. |
| ServerSessions.ServerSession.OnMessage | Source/ClientServerProtocol.cpp:942-1045 | HELLO is greeted once, BYE ends the session, requests are accepted exactly after the greeting. |
| ServerSessions.ServerSession.Disconnect | Source/ClientServerProtocol.cpp:1069-1085 | A connected session queues BYE and closes; one being set up ends. |
| ServerSessions.ServerSession.OnUpdate | Source/ClientServerProtocol.cpp:1047-1067 | A tick is queued for a connected session, and a closing one runs out of time after its TTL. |
| ServerSessions.ServerSession.HandleOutput | Source/ClientServerProtocol.cpp:1180-1212 | With room for n bytes the send loop sends n bytes or all there are, of what was queued and in that order; on the session it acts as a sequence of the transition system's send steps, and the wire stays a sequence of whole messages up to the one in hand. |
| Servers.Server.PrepareAll | Source/Server.cpp:46-75 | The first loop erases the sessions that are gone, stops transmissions of old data in the others and collects their wishes; afterwards no writer is in the middle of a shared DATA message. |
| Servers.Server.Collect | Source/Server.cpp:77-110 | Between the loops the collector runs and exactly the messages asked for are built: the log if logging survived, the full dump. |
| Servers.Server.TickAll | Source/Server.cpp:112-135 | The second loop gives every session the tick and the data it asked for. |
| Servers.TickRemaining | Source/Server.cpp:46-135 | Erasing sessions and ticking the rest is what a tick does to all links, seen on those that remain. |
| Servers.SameWishes | Source/Server.cpp:58-71 | Some session wants the delta or the dump exactly if some link of the system does. |
| Servers.Server.OnUpdate | Source/Server.cpp:39-136 | The whole update is one tick of the transition system, on sessions, collector, log and timestamp, up to closing sessions whose time is up; exactly the sessions that were gone are forgotten. |
| Servers.Server.OnSessionDataRequest | Source/Server.cpp:331-342 | An answer to a request, which turns logging on exactly if updates are asked for and available. |
| Ordering.KeyDecides | Source/ConnectionList.cpp:812-1351 | Each comparator, written as the source compares, compares keys lexicographically. |
| Ordering.LessAsymmetric | Source/ConnectionList.cpp:812-1351 | No comparator puts two connections before each other. |
| Ordering.RankDecides | Source/ConnectionList.cpp:812-1351 | Every comparator, ascending or descending, is a strict weak order: it compares the places of the connections. |
| Ordering.TextLessMeans | Source/ConnectionList.cpp:812-1351 | One text comes before another exactly if it is a proper prefix of it or has the smaller character where they first differ. |
| Ordering.KindsCompared | Source/ConnectionList.cpp:812-1351 | UDP before TCP and IPv4 before IPv6; states of one protocol by number, addresses of one family by text. |
| Ordering.TrafficCompared | Source/ConnectionList.cpp:812-1351 | The six counters order connections by their stored values. |
| Ordering.SourcesCompared | Source/ConnectionList.cpp:812-1351 | Resolved sources are ordered by host name, network and country. |
| Ordering.DestinationsCompared | Source/ConnectionList.cpp:812-1351 | Likewise resolved destinations. |
| Ordering.ServicesCompared | Source/ConnectionList.cpp:812-1351 | Resolved ports are ordered by the name of their service. |
| Ordering.UnresolvedFirst | Source/ConnectionList.cpp:812-1351 | What is not resolved comes before every name. |
| ListWindow.Bounded | Source/ConnectionList.hpp:95-119 | A list of distinct stored connections is no longer than the storage, and as long exactly if it holds all of it. |
| ListWindow.InsertOrdered | Source/ConnectionList.cpp:723-747 | Inserting at the upper bound keeps the list sorted and free of duplicates. |
| ListWindow.InsertAdmits | Source/ConnectionList.cpp:723-747 | Inserting before the last item and dropping the last of a full list keeps the first connections and lets no better one out. |
| ListWindow.Filled | Source/ConnectionList.cpp:676-714 | A fill that went through the whole storage leaves the first connections of the order and as many as fit. |
| ListWindow.DrawnShows | Source/ConnectionList.cpp:465-491 | Drawing a returned update and marking its row clean keeps the screen completable from the dirty flags. |
| ListChanges.ShownDecides | Source/Connection.hpp:69-90 | Two rows of a connection look alike in all columns exactly if nothing that the list sorts by or shows has changed. |
| ListChanges.MovedTop | Source/ConnectionList.cpp:132-220 | When one listed connection changed, the reordered list still holds the first connections if and only if no unlisted connection now comes before it. |
| ListChanges.NotLaterKeepsTop | Source/ConnectionList.cpp:132-220 | That is so when it does not move behind an unlisted connection, and when the list holds every connection. |
| ListChanges.PoolDecidesTop | Source/ConnectionList.cpp:244-347 | A list of the first connections of a pool holds the first of the whole storage if and only if every connection outside the pool has at least as many of the pool before it or level with it as the list is long. |
| ListChanges.UnpassedIsLate | Source/ConnectionList.cpp:244-347 | That is so for a list that held the first connections before a name changed, if no unlisted connection now comes before a listed user. |
| ListChanges.AddressResolves | Source/ConnectionList.cpp:244-347 | A resolved address changes only the host columns of its users, and the order only when sorting by a host column. |
| ListChanges.PortResolves | Source/ConnectionList.cpp:349-463 | Likewise a resolved port and the service columns. |
| ConnectionLists.ConnectionList.UpperBound | Source/ConnectionList.cpp:723-735 | Binary search on the sorted list finds the position before which nothing comes after the connection and from which everything does. |
| ConnectionLists.ConnectionList.Fill | Source/ConnectionList.cpp:676-714 | It changes nothing on a full list or one that holds everything; otherwise the list is sorted, as long as possible, and no unlisted connection comes before its last item. |
| ConnectionLists.ConnectionList.Sort | Source/ConnectionList.cpp:716-721 | The same items, in order, all to be redrawn. |
| ConnectionLists.ConnectionList.Add | Source/ConnectionList.cpp:106-130 | The storage gains the connection; the invariant and the first connections are kept; an addition of a known connection changes nothing. |
| ConnectionLists.ConnectionList.Remove | Source/ConnectionList.cpp:222-229 | The storage loses the connection; the list is refilled, the cursor moves back at most as far as needed, and a detail view of the connection is closed. |
| ConnectionLists.ConnectionList.Clear | Source/ConnectionList.cpp:231-242 | Everything is empty and will be redrawn; resolved names are kept. |
| ConnectionLists.ConnectionList.Update | Source/ConnectionList.cpp:132-220 | The values are patched and the invariant kept; the list keeps the first connections if and only if the connection is unlisted or no unlisted one now comes before it. Every column of the detail view that shows something new is flagged. |
| ConnectionLists.ConnectionList.CompareNeighbours | Source/ConnectionList.cpp:170-200 | If neither neighbour asks for sorting, the item is in its place. |
| ConnectionLists.ConnectionList.FillNothing | Source/ConnectionList.cpp:676-681 | A fill of a list that is as long as it can be does nothing. |
| ConnectionLists.ConnectionList.ResolveAddress | Source/ConnectionList.cpp:244-347 | The invariant is kept and every column of the detail view that shows something new is flagged. When sorting by a host column, the list ends with the first connections if and only if no stored connection besides the listed ones and the users is early enough to be among them; otherwise if and only if it had them. |
| ConnectionLists.ConnectionList.ResolvePort | Source/ConnectionList.cpp:349-463 | Likewise for ports and service columns. |
| ConnectionLists.ResolveCanLoseTop | Source/ConnectionList.cpp:244-347 | For any two connections with different hosts, a list of one row that loses its first connection when the listed one's name arrives. |
| ConnectionLists.ResolvePortCanLoseTop | Source/ConnectionList.cpp:349-463 | Likewise when the name of its service arrives. |
| ConnectionLists.ConnectionList.GetNextUpdate | Source/ConnectionList.cpp:465-491 | It returns the first dirty visible row with its flags and cursor mark and marks it clean, or says that no visible row is dirty. |
| ConnectionLists.ConnectionList.UpdateList | Source/ConnectionList.cpp:465-491 | Draining the updates ends, and the screen is then a complete redraw of the visible rows with the cursor's row highlighted. |
| ConnectionLists.ConnectionList.InvalidateAllVisible | Source/ConnectionList.cpp:493-502 | All visible rows will be redrawn; nothing else changes. |
| ConnectionLists.ConnectionList.InvalidateCursor | Source/ConnectionList.cpp:504-516 | The cursor's row, if there is one, will be redrawn; every other row, the invariant and the first connections are left as they are. |
| ConnectionLists.ConnectionList.MoveCursor | Source/ConnectionList.cpp:518-564 | The cursor's place in the whole order moves by the amount, as far as the storage allows, scrolling if need be. |
| ConnectionLists.ConnectionList.DoScroll | Source/ConnectionList.cpp:566-607 | The offset moves by the amount, as far as storage and zero allow; the list keeps its length and its first connections. |
| ConnectionLists.ConnectionList.InitConnectionDetail | Source/ConnectionList.cpp:609-623 | The detail view is of the connection under the cursor, if there is one. |
| ConnectionLists.ConnectionList.ResetConnectionDetailRefresh | Source/ConnectionList.cpp:625-628 | No flag of the detail view is left; nothing else changes. |
| ConnectionLists.ConnectionList.SetTargetSize | Source/ConnectionList.cpp:630-658 | The list is cut or refilled to the new size, the cursor stays in it, and the first connections are kept. |
| ConnectionLists.ConnectionList.SetSortMode | Source/ConnectionList.cpp:660-674 | A new order establishes that the list holds its first connections. |
| ConnectionLists.PerformAll | Source/ConnectionList.cpp:106-810 | After any sequence of edits, resolver callbacks, scrolling, cursor moves, redraw requests and single updates taken from a new list, the invariant holds, and draining the updates leaves a complete redraw on the screen. |
| ConnectionLists.UpdateCanLoseTop | Source/ConnectionList.cpp:676-681 | A sequence of operations after which a listed connection comes after an unlisted one. |
| MaxMindDecoder.DecodeOne | Library/MaxMindDB/Source/maxminddb.c:1418-1618 | On arbitrary bytes, success means that the value's next offset lies behind its offset and not behind the end of the section. |
| MaxMindDecoder.DecodedHeader | Library/MaxMindDB/Source/maxminddb.c:1418-1500 | A control byte with its extended type and size bytes decodes to the type and size it was made from. |
| MaxMindDecoder.DecodedPointer | Library/MaxMindDB/Source/maxminddb.c:1625-1645 | Each of the four pointer forms decodes to its target and ends behind its bytes. |
| MaxMindDecoder.DecodedBody | Library/MaxMindDB/Source/maxminddb.c:1418-1618 | An encoded value decodes to what it is, a number to what its digits denote (two's complement for int32, unsigned for the others), and a simple one ends where its bytes end. |
| MaxMindDecoder.EveryInt32 | Library/MaxMindDB/Source/maxminddb.c:1556-1561 | Every int32 is read back from its four bytes in two's complement. |
| MaxMindDecoder.EveryUnsigned | Library/MaxMindDB/Source/maxminddb.c:1541-1585 | Every unsigned number of 16, 32, 64 or 128 bits is read back from its big-endian bytes. |
| MaxMindDecoder.AcceptedExactly | Library/MaxMindDB/Source/maxminddb.c:1514-1618 | Behind a header, decoding succeeds exactly if the payload that it announces is inside the section and of a size that its type may have; maps, arrays and booleans have none. |
| MaxMindDecoder.DecodedNode | Library/MaxMindDB/Source/maxminddb.c:1377-1404 | Following a pointer gives the value it points to; behind a simple value comes what follows the pointer. |
| MaxMindDecoder.GetUintX | Library/MaxMindDB/Source/maxminddb.c:1846-1854 | The accumulating loop computes the big-endian value. |
| MaxMindLookup.SkipMapOrArray | Library/MaxMindDB/Source/maxminddb.c:1351-1375 | On arbitrary bytes it ends after at most as many decodes as there are bytes; on a written value it lands exactly behind it. |
| MaxMindLookup.DecodeAndSkip | Library/MaxMindDB/Source/maxminddb.c:1351-1375 | Likewise for decoding a value and skipping over it. |
| MaxMindLookup.KeyEnds | Library/MaxMindDB/Source/maxminddb.c:1310-1349 | A key ends where its bytes end, inline or behind a pointer. |
| MaxMindLookup.LookupInArray | Library/MaxMindDB/Source/maxminddb.c:1274-1308 | It finds the element with the parsed index, refuses a negative index as an invalid path, and reports an index past the end, or none at all, as a path that does not match. |
| MaxMindLookup.LookupInMap | Library/MaxMindDB/Source/maxminddb.c:1310-1349 | It finds the value of the first matching key, or reports that there is none. |
| MaxMindLookup.GetValue | Library/MaxMindDB/Source/maxminddb.c:1217-1272 | On the bytes of any written tree, the lookup returns exactly what the path finds in the tree, numbers by their value, with the same status. |
| MaxMindPool.CanMultiplyMeans | Library/MaxMindDB/Source/data-pool.c:43-51 | The guard allows exactly the products that do not exceed the maximum. |
| MaxMindPool.DataPool.constructor | Library/MaxMindDB/Source/data-pool.c:12-41 | An empty pool with one block. |
| MaxMindPool.DataPool.Alloc | Library/MaxMindDB/Source/data-pool.c:68-114 | A new zeroed element that no other element is moved or lost for; it fails exactly when blocks, multiplication or memory run out. |
| MaxMindPool.DataPool.EntryAt | Library/MaxMindDB/Source/data-pool.c:68-114 | The element at an address is the one of its rank in the order of allocation. |
| MaxMindPool.DataPool.ToList | Library/MaxMindDB/Source/data-pool.c:118-148 | The elements are linked, within and across blocks of doubling size, from the first on. |
| MaxMindPool.ListIsContents | Library/MaxMindDB/Source/data-pool.c:118-148 | Following the links from the head yields the elements in the order of allocation. |
| MaxMindEntryList.Collect | Library/MaxMindDB/Source/maxminddb.c:1686-1794 | Collecting a value appends the pre-order flattening of it and leaves everything allocated before alone; it fails exactly if the value needs more levels than are left. |
| MaxMindEntryList.GetEntryDataList | Library/MaxMindDB/Source/maxminddb.c:1660-1684 | Unless memory runs out, it succeeds on a written tree exactly if the tree needs at most 512 levels, and the list is then its pre-order flattening. |
| MaxMindTree.PackRead | Library/MaxMindDB/Source/maxminddb.c:995-1115 | The getters read back both records of a node of 24, 28 or 32 bits. |
| MaxMindTree.DescentIsTrieLookup | Library/MaxMindDB/Source/maxminddb.c:911-993 | The walk over packed records says of an address what the format says of the trie, offset included, if and only if the record it ends at points neither into the separator nor to the last 16 offsets of the data section. |
| MaxMindTree.SeparatorFound | Library/MaxMindDB/Source/maxminddb.c:1081-1115 | A record three bytes into the separator is malformed by the format and found by the reader, at offset 2^32 - 13. |
| MaxMindTree.LastByteRefused | Library/MaxMindDB/Source/maxminddb.c:1081-1115 | A record for the last byte of the data section is data by the format and a corrupt tree to the reader. |
| MaxMindTree.NetmaskDecides | Library/MaxMindDB/Source/maxminddb.c:911-993 | Two addresses that agree on the first bits of the result's netmask get the same result. |
| MaxMindTree.BitOfNumber | Library/MaxMindDB/Source/maxminddb.c:956-958 | The bit that the walk tests is the binary digit of the address as a big-endian number, the most significant first. |
| MaxMindTree.NetworkDecides | Library/MaxMindDB/Source/maxminddb.c:911-993 | Two addresses with the same first binary digits, as many as the netmask says, get the same result. |
| MaxMindTree.RouteIsWalk | Library/MaxMindDB/Source/maxminddb.c:951-988 | The walk halves the range of numbers at each node: the upper half goes right, the lower half left. |
| MaxMindTree.LookupByNumber | Library/MaxMindDB/Source/maxminddb.c:911-993 | The walk says of an address what the format says of the record for its number, exactly if the reader does not misjudge that record. |
| MaxMindTree.OneNode | Library/MaxMindDB/Source/maxminddb.c:951-988 | With a single node exactly the upper half of all addresses goes right. |
| MaxMindTree.StartAgrees | Library/MaxMindDB/Source/maxminddb.c:1021-1053 | If no record on the way is zero, going on from the start node finds what the walk along 96 zero bits finds; the start's netmask says how far that walk came. |
| MaxMindTree.Reader.FindIpv4StartNode | Library/MaxMindDB/Source/maxminddb.c:1021-1053 | The loop computes the start node and its netmask, or reports a corrupt tree, and caches the result. |
| MaxMindTree.Reader.FindAddress | Library/MaxMindDB/Source/maxminddb.c:911-993 | A lookup reports an unknown format exactly for record sizes other than 24, 28 and 32 bits, and otherwise the walk from the root; an IPv4 lookup in an IPv6 tree without a zero record on the all-left path reports the same status, found flag and offset; the netmask is the same if and only if the walk is longer than 96 bits, and 129 minus its length if it is not. |
| MaxMindTree.EarlyLeaf | Library/MaxMindDB/Source/maxminddb.c:911-993 | A database and an IPv4 address whose lookup reports a netmask of 128 where the walk ends after 1 bit. |
| FreeList.StepOk | Library/ConcurrentQueue/Include/concurrentqueue/concurrentqueue.h:1353-1466 | Every atomic operation of every call keeps the invariant of list, counts, flags and holders. |
| FreeList.LocalOk | Library/ConcurrentQueue/Include/concurrentqueue/concurrentqueue.h:1353-1466 | An operation that touches one node and leaves the chain alone need only be checked on that node and thread. |
| FreeList.InsertOk | Library/ConcurrentQueue/Include/concurrentqueue/concurrentqueue.h:1432-1454 | Publishing a node at the head keeps the list a chain. |
| FreeList.TakeOk | Library/ConcurrentQueue/Include/concurrentqueue/concurrentqueue.h:1389-1426 | Taking the head keeps it a chain, although the next pointer was read long before. |
| FreeList.HandedOutOnce | Library/ConcurrentQueue/Include/concurrentqueue/concurrentqueue.h:1375-1426 | In every interleaving, no node is handed out twice without an add in between, and the internal assertion never fails. |
| FreeList.ListIsAcyclic | Library/ConcurrentQueue/Include/concurrentqueue/concurrentqueue.h:1353-1466 | In every interleaving the list is a finite chain without repetition, and each reference count is list membership plus temporary holders. |
| FreeList.NothingIsLost | Library/ConcurrentQueue/Include/concurrentqueue/concurrentqueue.h:1353-1466 | Whenever no call is in progress, the list holds exactly the nodes added and not handed out since, each with count 1. |
| FreeList.NothingOnlyFromEmpty | Library/ConcurrentQueue/Include/concurrentqueue/concurrentqueue.h:1389-1426 | In every run, a try_get that returns nothing made an access during that same call at which the head was null and the list empty. |
| FreeList.GetTakesFirst | Library/ConcurrentQueue/Include/concurrentqueue/concurrentqueue.h:1389-1426 | With no other call in progress, try_get on a list with nodes hands out the first of them in seven accesses. |
| FreeList.AddPutsFirst | Library/ConcurrentQueue/Include/concurrentqueue/concurrentqueue.h:1375-1454 | With no other call in progress, add puts the node at the front in five accesses. |
| FreeList.LastInFirstOut | Library/ConcurrentQueue/Include/concurrentqueue/concurrentqueue.h:1375-1454 | Undisturbed, try_get gives back what was added last and leaves the list as it was. |
| BlockingQueue.StepOk | Library/ConcurrentQueue/Include/concurrentqueue/blockingconcurrentqueue.h:251-412 | Every atomic operation, timeout and kernel wake-up keeps the two conservation laws. |
| BlockingQueue.NoPermitTwice | Library/ConcurrentQueue/Include/concurrentqueue/blockingconcurrentqueue.h:251-412 | In every interleaving count, waiters and completed acquisitions add up to what there was and was signalled. |
| BlockingQueue.NoWaiterLost | Library/ConcurrentQueue/Include/concurrentqueue/blockingconcurrentqueue.h:251-412 | Waiters are the negative part of the count plus kernel tokens plus releases still owed; with permits left and no release in progress there is a token for every waiter. |
| BlockingQueue.ElementsReserved | Library/ConcurrentQueue/Include/concurrentqueue/blockingconcurrentqueue.h:754-802 | A thread that was granted a permit always has an element of the queue reserved for it. |
| BlockingQueue.AtRest | Library/ConcurrentQueue/Include/concurrentqueue/blockingconcurrentqueue.h:519-540 | Between calls the count is the number of elements and no token is left over. |
| BlockingQueue.NothingOnlyWithCause | Library/ConcurrentQueue/Include/concurrentqueue/blockingconcurrentqueue.h:267-387 | In every run, a dequeue ends without a permit only if it does not wait and there is none at its last access, or if its time is up and it still counts as a waiter. |
| BlockingQueue.WaiterGoesOn | Library/ConcurrentQueue/Include/concurrentqueue/blockingconcurrentqueue.h:288-306 | In every run, with permits left and no release in progress, any thread asleep can take a kernel token and goes on with a permit. |
| BlockingQueue.TimeoutEnds | Library/ConcurrentQueue/Include/concurrentqueue/blockingconcurrentqueue.h:298-306 | A waiter whose time is up leaves in two undisturbed accesses and is no longer counted. |
| BlockingQueue.EnqueueAdds | Library/ConcurrentQueue/Include/concurrentqueue/blockingconcurrentqueue.h:519-590 | With no other call in progress, an enqueue adds its elements and as many permits. |
| BlockingQueue.DequeueTakes | Library/ConcurrentQueue/Include/concurrentqueue/blockingconcurrentqueue.h:690-735 | With no other call in progress, a dequeue takes as many elements as there are, up to what it wants. |
| PoolAllocator.RoomIsReal | Library/RapidJSON/Include/rapidjson/allocators.h:232-235 | The test for room is right if and only if neither the rounding nor the sum wraps around in 64 bits. |
| PoolAllocator.BlockCut | Library/RapidJSON/Include/rapidjson/allocators.h:237-239 | A block cut from the free end keeps all blocks aligned, inside the used part of their chunk and pairwise disjoint. |
| PoolAllocator.BlockGrown | Library/RapidJSON/Include/rapidjson/allocators.h:257-264 | So does growing the last block of the newest chunk. |
| PoolAllocator.MemoryPoolAllocator.Malloc | Library/RapidJSON/Include/rapidjson/allocators.h:228-240 | One more block of the rounded size, disjoint from all others, in the head chunk if it has room and at the start of a new chunk otherwise; nothing exactly for size 0 or if the head chunk has no room and the base allocator refuses. Every block keeps its contents. |
| PoolAllocator.MemoryPoolAllocator.Distant | Library/RapidJSON/Include/rapidjson/allocators.h:228-274 | No two blocks handed out share a byte. |
| PoolAllocator.MemoryPoolAllocator.LastBlock | Library/RapidJSON/Include/rapidjson/allocators.h:257-258 | The pointer comparison of Realloc succeeds only for the last block and only with its full size. |
| PoolAllocator.MemoryPoolAllocator.Realloc | Library/RapidJSON/Include/rapidjson/allocators.h:243-274 | A block stays if it is large enough, grows in place exactly if it is the last of the head chunk and that has room, and moves with its old contents otherwise; nothing exactly for size 0 or if it would move and Malloc has nothing. Every other block keeps its contents. |
| PoolAllocator.MemoryPoolAllocator.Clear | Library/RapidJSON/Include/rapidjson/allocators.h:197-205 | No block and no chunk is left but the user's buffer, which is empty. |
| PoolAllocator.MemoryPoolAllocator.Capacity | Library/RapidJSON/Include/rapidjson/allocators.h:210-215 | Following the list sums the capacities of all chunks. |
| PoolAllocator.MemoryPoolAllocator.Size | Library/RapidJSON/Include/rapidjson/allocators.h:220-225 | Following the list sums what is used, which never exceeds the capacity. |
| Utf8.EncodeIsChar | Library/RapidJSON/Include/rapidjson/encodings.h:101-121 | The encoder writes a character of RFC 3629 if and only if the code point is a scalar value, and the character's payload bits are the code point. |
| Utf8.CharIsEncoding | Library/RapidJSON/Include/rapidjson/encodings.h:101-121 | Every character of the grammar is the encoding of one scalar value. |
| Utf8.RangeOf | Library/RapidJSON/Include/rapidjson/encodings.h:204-220 | The 256 entries of the table, range by range. |
| Utf8.MaskMeans | Library/RapidJSON/Include/rapidjson/encodings.h:164-170 | Each mask admits exactly the second or later bytes that the grammar has. |
| Utf8.AcceptedIsChar | Library/RapidJSON/Include/rapidjson/encodings.h:146-176 | With NULs after the last byte, exactly the inputs that start with a character are accepted, and the NULs are never part of it. |
| Utf8.Decode | Library/RapidJSON/Include/rapidjson/encodings.h:145-176 | It succeeds exactly if the input starts with a character, consumes it and returns its code point; at the end of the input it reads U+0000. |
| Utf8.Validate | Library/RapidJSON/Include/rapidjson/encodings.h:178-202 | It accepts the same inputs and copies exactly the bytes consumed. |
| Utf8.EncodeAllInjective | Library/RapidJSON/Include/rapidjson/encodings.h:101-121 | Two sequences of scalar values with the same encoding are the same. |
| Utf8.DecodeAll | Library/RapidJSON/Include/rapidjson/encodings.h:145-176 | Decoding to the end succeeds exactly on the texts of the grammar, and what it returns encodes to the input. |
| Utf8.ValidateAll | Library/RapidJSON/Include/rapidjson/writer.h:459-470 | Writing a raw value with validation copies it whole, and refuses it exactly if it is not UTF-8. |
| Utf8.RoundTrip | Library/RapidJSON/Include/rapidjson/encodings.h:101-176 | Decoding the encoding of a sequence of scalar values returns the sequence. |

## Left out

- ServerSession.MayRewriteData: only says that no writer is in the middle of a shared DATA message after the first loop of the update; that messages still waiting in a queue keep their contents is a hypothesis, because the source rewrites its cached messages in place.
- ConnectionList.Update: the first connections of the order are kept only under the exact condition stated, because `fill` returns early on a full list.
- MemoryPoolAllocator.Malloc: excludes requests on which size_t wraps around; RoomIsReal says what happens there. Alignment is that of the offset in a chunk, so a user's buffer must itself be aligned.
- MemoryPoolAllocator.Realloc: likewise excludes sizes on which size_t wraps around.
- Capacity and Size of the memory pool are unbounded sums.
- Conntrack.OnUpdate: a dump query that fails, and throws out of the server, is not modelled.
- Utf8.Decode: modelled on a memory stream; a string stream must not end inside a character, because it does not know its end.
- BlockingQueue.StepOk: the semaphore's counters are unbounded integers and the kernel semaphore never fails; an enqueue that fails for want of memory is no step.
- FreeList.StepOk: sequential consistency only; the queue's producers, block indices and hash, and weaker memory orders, are not modelled.
- MaxMindDecoder.DecodeOne: floats and doubles stay raw bytes; a stale size left in the entry by a failed decode is not modelled.
- DataPool.Alloc: whether calloc has memory is a parameter; likewise whether the base allocator grants a chunk to MemoryPoolAllocator.Malloc, and how many bytes the socket takes in HandleOutput.
- Clients.Client.Receive: malformed JSON and missing or ill-typed message members, which make the parser or onMessage throw, are not modelled; a message is a value that was built by the other end.
- Server.OnUpdate: sessions that are gone stay as links in the transition system and are erased from the object.
- HandleOutput: the poll flags that decide when the loop runs next are left out; the transition system may go on sending at any time.
- `inet_ntop` and `inet_pton`, strtol (the parameter `parse`), sockets, the poll thread, timers, signals, logging, the command line, the resolver threads and GeoIP wrappers.
- The client's connector, which tries further addresses, and reconnecting: a new connection is a new link.
- The user interface's screens: clearing rows behind the end of the list, and the percentage counters of the list's head line.
- Opening a database, its metadata, and dump printing; the product of node count and record size is taken not to wrap around.
- RapidJSON's reader, writer and documents other than the pool and the codec, and the other encodings.
