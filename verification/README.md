# RIPC in Dafny

RIPC lets processes exchange requests and responses over shared memory. A kernel driver keeps the tasks, servers,
clients, connections and pools of sub-memories and queues notifications for each task; a library in each process
reads those notifications, keeps its own table of connections, frames messages in the shared memory and routes
requests to callbacks. This project models all four parts and proves what they are for, separately and together.

## How the model is built

**The driver.** `DriverModel` and `DriverCommands` describe the driver's memory and every file operation as a total
function from state to state and return code. A kernel structure is an entry of the map of its kind under the
address that the allocator returned; `kfree` removes the entry. Every pointer that the code follows is therefore a
proof obligation, and an address can be handed out again. Two calls follow a pointer that a search may have left null;
they return `OOPS`, which stands for the end of the call at that point.

`Driver.dfy` holds the driver itself, a class whose methods update these maps and lists step by step, with the loops,
early exits and order of the C code; each method is proved equal to its transition, under no more than the links it
relies on (`DriverLinks.OnlyLinks` for `delete_connection`, whose callers have cut one link or the other beforehand).
What holds of the driver is proved about the transitions:

* the global invariant `DriverInvariant.Inv` (`DriverPreservation`, `DriverTeardown`, `DriverClose`, `DriverSteps`), and
  what it means for reachable states (`DriverTheorems`);
* when each call succeeds or fails and what it has done, said in terms of existing objects (`DriverOutcomes`), and what
  objects keep for as long as they exist (`DriverStays`);
* identifier budget and pool bound over runs (`DriverBudget`, `DriverRuns`);
* that queues lose, invent and reorder nothing (`DriverQueues`), what the two sides of a connection hear about it from
  its first day to after its last (`DriverTelling`, `DriverLives`) and the queues as a pair of FIFO channels
  (`DriverChannels`);
* the monitor's snapshot (`Snapshot`), the order of mutexes (`Locks`) and that what a call changes it changes under the
  mutex that is there for it (`LockedChanges`);
* two runs in full: one to a sub-memory called 0, which a comment in the driver calls impossible (`DriverZero`), and
  one to a server with seventeen clients (`DriverCrowd`).

**The library's table.** `LibServer` is the `Server` object's table with its memory objects and its loops. `Mirror`,
`MirrorFacts`, `MirrorDriver`, `MirrorSteps` and `MirrorRuns` run it beside the driver, and `ServerTables` follows one
server's table while one of its connections lives.

**Messages.** `Framing` gives the effect of the two buffer views, `FramingViews` the memory and view objects with their
loops, `FramingLaws` the round trip and the bounds, `FramingOutcomes` the exact outcome of every call on every state and
content. `Urls` and `Routing` cover addresses, patterns and the choice of a callback.

**The exchange.** `Exchange` is one connection with its memory, its queues, the server's whole table, the client's flags
and both histories; `ExchangeFate` says what becomes of each request. `LibExchange` has the library objects and a
session that ties them together and refines the exchange move by move. `EndToEnd` puts the exchange and the server's
table on top of the driver, and `Delivery` follows an answer through the driver's queues call by call.

## What the proofs found

* The drained table agrees with the driver exactly as long as no server has had more than sixteen mapped connections,
  and the monitor's snapshot is coherent exactly while no server has more than sixteen connections. There is a run in
  which two tasks bring one server seventeen clients, and both fail (`DriverCrowd.CrowdHappens`).
* A request is answered if and only if the server has the connection in its table, the driver has mapped the memory for
  the server, and the address matches a pattern. Otherwise it is lost and its client refuses all later calls. All three
  failures happen (`ExchangeFate.FailuresHappen`): the seventeenth client of a server, a sub-memory called 0, an address
  that nobody serves.
* The driver maps the memory of a live connection for its server if and only if the sub-memory is not called 0, which
  does happen. The library takes a refused mapping for a successful one, so the first message over such a connection
  makes the server's process follow `MAP_FAILED`.
* A server that has still to answer an earlier client's message over a sub-memory answers the client that has the
  sub-memory now (`Delivery.LeftoverAnswered`).
* The position of a writing view stays in its region exactly as long as, from a point where the payload is open and the
  region unmapped, there are no more calls of `setPayload` than the position allows until the region is mapped or the
  view reset. Finishing the headers, unmapping and calling `setPayload` twice leaves the region.
* A reading view at the end of its region follows a null pointer in `getHeader`, and in `getPayload` if the newline
  after the headers is the last byte. Neither happens in an exchange over mapped memory.
* If the newline after the headers exactly fills the buffer, `setPayload` reports success without a payload.
* A view that is reset after use puts a delimiter before its first header, which reads as an empty header.
* Connecting a client that does not exist, and reporting a message for a connection that the server does not have, make
  the driver follow a null pointer.
* `delete_server_list` takes a mutex that it holds, unless there are no servers.
* A read with too small a buffer loses the notification; nothing else does.

## Assumptions

Memory allocation and copies from and to user space succeed. Server names are between 1 and 63 characters long, as the
library checks (`DriverCommands.CmdOk`). Every file operation is one atomic step; the mutexes are the subject of `Locks`.
The process is alive when its file is closed. Identifiers come from an allocator that returns the lowest free one. A
library reads with a buffer that holds a notification, and a process unregisters only its own servers. A region is not
empty, always has the same size and is shorter than 2^64 - 1 bytes.

## Model

| member | source | states |
|---|---|---|
| DriverObject.Driver.AddNotification | driver/task.c:517-534 | the notification goes to the end of the queue and the pending counter goes up by one |
| DriverObject.Driver.NotificationSend | driver/task.c:77-168 | which of the missing pointers gives which error, and otherwise that exactly the other side's task gets exactly one notification with the three identifiers in the right places |
| DriverObject.Driver.SafeDisconnectSubmem | driver/connection.c:85-101 | no sub-memory points to the connection any more, other sub-memories are unchanged |
| DriverObject.Driver.ServerFindConn | driver/server.c:436-467 | the first entry of the server's list that stands for the connection, or none |
| DriverObject.Driver.DeleteConnection | driver/connection.c:104-190 | both sides are told and every trace of the connection is gone, even if the caller has cut the client's pointer or freed the list entry before |
| DriverObject.Driver.ClientCleanupConnection | driver/client.c:57-74 | cutting the client's pointer first and deleting then leaves the state that deletion alone would leave |
| DriverObject.Driver.ServerCleanupConnection | driver/server.c:82-128 | freeing the list entry first makes no difference either; an entry of another server's connection is left alone |
| DriverObject.Driver.ServerCleanupConnections | driver/server.c:130-142 | the walk with a saved successor never follows a freed entry, ends with an empty list, leaves all other lists as they were and deletes exactly this server's connections |
| DriverObject.Driver.TakeId | driver/id.c:6-26 | a failed allocation takes no identifier, a successful one takes the one returned |
| DriverObject.Driver.FreeId | driver/id.c:27-37 | only a valid identifier is given back |
| DriverObject.Driver.ShmCreate | driver/shm.c:15-66 | four sub-memories take their identifiers one after the other before the pool does; the pool is listed first |
| DriverObject.Driver.SubmemInit | driver/shm.c:134-168 | a fresh sub-memory with an identifier of its own and no connection |
| DriverObject.Driver.ShmGetFreeSubmem | driver/shm.c:100-120 | the first sub-memory of the pool without a connection, or none |
| DriverObject.Driver.GetFreeSubmem | driver/shm.c:227-251 | first fit through all pools; a pool is made only when that finds nothing |
| DriverObject.Driver.FindClientById | driver/client.c:115-142 | the first client of the list with a valid identifier that matches |
| DriverObject.Driver.FindServerById | driver/server.c:240-282 | the same for servers |
| DriverObject.Driver.FindServerByName | driver/server.c:170-193 | the first server of the list with the name |
| DriverObject.Driver.ServerFindConnBySubMemId | driver/server.c:404-434 | the first entry of the server's list whose connection uses the sub-memory with the identifier |
| DriverObject.Driver.CreateConnection | driver/connection.c:12-47 | an unmapped connection between the three objects, at the end of the global list |
| DriverObject.Driver.ConnectClientToServer | driver/server.c:318-348 | the whole new state: room made if needed, the connection object, its entry and its three back pointers |
| DriverObject.Driver.ServerAddConnection | driver/server.c:351-378 | a new entry at the head of the server's list |
| DriverObject.Driver.ServerCreate | driver/server.c:21-56 | a server without a task and without connections, last in the global list |
| DriverObject.Driver.ClientCreate | driver/client.c:14-35 | a client without a task and without a connection, last in the global list |
| DriverObject.Driver.RegTaskAddServer | driver/task.c:447-480 | within the limit the server is listed by the task and gets it as its task unless it has one; beyond it nothing changes |
| DriverObject.Driver.RegTaskAddClient | driver/task.c:482-515 | the same for clients |
| DriverObject.Driver.RegTaskDeleteServer | driver/task.c:553-571 | the server leaves its task's list, the global list and the memory, its identifier is free, the counter goes down |
| DriverObject.Driver.RegTaskDeleteClient | driver/task.c:536-551 | the same for clients |
| DriverObject.Driver.RegTaskCreate | driver/task.c:264-316 | a task is made exactly if the process has none |
| DriverObject.Driver.RegTaskSetMonitor | driver/task.c:573-604 | refused with clients or servers, refused beside another monitor; else the task is the monitor and no other task changes |
| DriverObject.Driver.DropNotifications | driver/task.c:370-382 | the queue and its counter end at zero |
| DriverObject.Driver.RegTaskDelete | driver/task.c:318-397 | nothing happens for a process that is not alive; otherwise the four loops over lists that shrink or stay amount to closing the task, and the invariant holds again |
| DriverObject.Driver.IpcOpen | driver/main.c:606-628 | the task limit is tested before the process is looked up |
| DriverObject.Driver.IoctlRegisterServer | driver/main.c:78-128 | refusals in their order, else the server fully registered |
| DriverObject.Driver.IoctlRegisterClient | driver/main.c:131-164 | refusal, else the client fully registered |
| DriverObject.Driver.IoctlConnectToServer | driver/main.c:167-205 | an identifier without a client is followed as a null pointer, a connected client is refused before the name is looked up, else the client is connected |
| DriverObject.Driver.IoctlClientEndWriting | driver/main.c:207-248 | the message notification reaches the server's task, or which error is returned |
| DriverObject.Driver.IoctlServerEndWriting | driver/main.c:250-290 | the message notification reaches the client's task, or which error is returned; a server without a connection over the sub-memory makes the call follow a null pointer |
| DriverObject.Driver.IoctlClientDisconnect | driver/main.c:292-325 | the server is told, then the connection is deleted, which tells it again |
| DriverObject.Driver.IoctlServerDisconnect | driver/main.c:327-380 | the client is told, then the connection is deleted, which tells it again |
| DriverObject.Driver.IoctlClientUnregister | driver/main.c:382-420 | disconnecting and then destroying the client; an unconnected client is refused |
| DriverObject.Driver.IoctlServerUnregister | driver/main.c:422-444 | all connections deleted and then the server destroyed |
| DriverObject.Driver.IpcMmap | driver/main.c:463-603 | the state and return code, and that the memory mapped is that of the client's connection or of the named connection of the server |
| DriverObject.Driver.GetNotification | driver/task.c:617-649 | the oldest notification leaves the queue and the counter goes down, or there is none |
| DriverObject.Driver.ServerGetData | driver/server.c:469-518 | the server's identifier and name, and the identifiers of its first sixteen clients in list order, written within the bounds of the array |
| DriverObject.Driver.ClientGetData | driver/client.c:175-190 | its identifier and that of its server, or -1 exactly for an unconnected client |
| DriverObject.Driver.TaskGetData | driver/task.c:708-764 | one record for each server and each client of the task |
| DriverObject.Driver.TaskServersData | driver/task.c:722-741 | indices stay in bounds although the loop does not test them |
| DriverObject.Driver.TaskClientsData | driver/task.c:743-762 | indices stay in bounds although the loop does not test them |
| DriverObject.Driver.RegTaskGetData | driver/task.c:680-769 | the records of all tasks, within the bounds of the array |
| DriverObject.Driver.IpcRead | driver/main.c:652-730 | what reaches the caller and the return code, said by monitor, queue and buffer size; a notification leaves the queue even if it does not fit |
| DriverObject.Driver.SystemCall | driver/main.c:43-458 | any operation on a consistent driver moves it as the transition system says and leaves it consistent |
| IdSpace.PackRoundTrip | include/id_pack.h:51-88 | packing two valid identifiers and unpacking gives them back |
| IdSpace.PackErrorAmbiguity | include/id_pack.h:51-61 | exactly which pairs pack to the error value |
| IdSpace.GenerateDense | driver/id.c:6-26 | with n identifiers in use the next one is at most n |
| DriverSteps.StepInv | driver/main.c:43-730 | every call keeps the global invariant |
| DriverSteps.AlwaysInv | driver/main.c:43-730 | every state of every run satisfies it: connections, clients, sub-memories and list entries point to each other one to one, lists and counters are exact, pools partition the sub-memories, identifiers are those of the live objects |
| DriverTheorems.ConnectionIsLinked | driver/server.c:318-378 | in every reachable state each listed connection is pointed to by exactly its client, its sub-memory and one entry, in its server's list |
| DriverTheorems.PointersAreAnswered | driver/connection.c:104-190 | conversely every non-null connection pointer and every list entry names a live connection that points back |
| DriverTheorems.ClosingLeavesNothing | driver/task.c:318-397 | after a task is closed nothing of it is left or pointed to, its connections' sub-memories and its objects' identifiers are free, and connections between other tasks are untouched |
| DriverTheorems.CleaningServerIsLocal | driver/server.c:130-142 | exactly the server's connections go, its list ends empty and every other list stays as it is |
| DriverPreservation.DropConnInv | driver/connection.c:118-190 | removing a connection with all its links keeps the invariant |
| DriverPreservation.AddConnInv | driver/server.c:318-378 | making a connection with all its links keeps the invariant |
| DriverPreservation.AddPoolInv | driver/shm.c:15-66 | a new pool keeps the invariant, partition into fours included |
| DriverPreservation.RemoveServerInv | driver/server.c:145-167 | destroying a server without connections keeps the invariant |
| DriverPreservation.RemoveClientInv | driver/client.c:77-95 | destroying a client without a connection keeps the invariant |
| DriverFacts.SendSucceeds | driver/task.c:77-168 | in a consistent state no notification fails, and which task gets it |
| DriverTeardown.UnlinkShape | driver/connection.c:104-190 | deletion tells the client's task, then the server's, then drops the connection |
| DriverTeardown.UnlinkTrimmed | driver/connection.c:104-190 | deletion changes nothing but the pointers to the connection and the ends of two queues |
| DriverTeardown.CleanServerTornDown | driver/server.c:130-142 | exactly the server's connections go, and tasks get only disconnects |
| DriverTeardown.DisconnectTornDown | driver/main.c:317-323 | announcing and then deleting removes exactly one connection |
| DriverClose.CloseTaskEffect | driver/task.c:318-397 | closing a task removes exactly its servers, clients, their identifiers and the connections that touch it; all else stays, other tasks at most find disconnects at the end of their queues |
| DriverOutcomes.OpenOutcome | driver/main.c:606-628 | the two reasons for refusal, if and only if; else one task more, without clients, servers or messages and no monitor, and nothing else changes |
| DriverOutcomes.RegisterServerOutcome | driver/main.c:78-128 | refused for a monitor, at the limit or for a taken name; else one server more, under its name, with the lowest free identifier, and nothing changes but the lists it enters |
| DriverOutcomes.RegisterClientOutcome | driver/main.c:131-164 | refused for a monitor or at the limit; else one client more with the lowest free identifier, and nothing changes but the lists it enters |
| DriverOutcomes.MonitorOutcome | driver/task.c:573-604 | refused exactly with clients or servers, or beside another monitor; else the task is the monitor and nothing else has changed |
| DriverOutcomes.MonitorReigns | driver/task.c:573-613 | once a task has registered as the monitor and as long as it is open, every other registration of a monitor fails with the right error, the task gets no servers or clients, and all it reads are snapshots |
| DriverOutcomes.ConnectOutcome | driver/main.c:167-205 | a null pointer is followed exactly without such a client; refused exactly for a connected client or an unknown name; else one connection more between the two, at the head of the server's list, over the first sub-memory without a connection of the first pool that has one, and no task is told |
| DriverOutcomes.MessageOutcome | driver/main.c:207-290 | a message goes through exactly if there is a connection for it, and which error or null pointer there is otherwise; then the task at the other end has one notification more, with the right kind and identifiers, and nothing else changes |
| DriverOutcomes.DisconnectOutcome | driver/main.c:292-380 | exactly the connection that is meant goes; refused only if there is none |
| DriverOutcomes.UnregisterOutcome | driver/main.c:382-444 | the object, its identifier and its connections go and no other object; an unconnected client is refused |
| DriverOutcomes.MmapOutcome | driver/main.c:463-603 | exactly one memory may be mapped, that of the client's connection or of the named one of the server; each error if and only if; a client's connection counts as mapped afterwards and its server is told |
| DriverOutcomes.ReadOutcome | driver/main.c:652-730 | the monitor gets a snapshot exactly if its buffer is large enough, another task its oldest notification exactly if there is one and the buffer is large enough; each error if and only if, and what becomes of the queue |
| DriverStays.StepKept | driver/task.c:447-604 | every call leaves every object that outlives it its identifier, task, process and name, takes away no sub-memory and no pool, brings no object but the one it is for and makes no task a monitor but by registering it |
| DriverStays.MonitorStays | driver/task.c:606-615 | over any stretch of a run an open monitor stays the monitor |
| DriverStays.ServerStays | driver/server.c:21-80 | over any stretch of a run a server keeps the name and the identifier it was given |
| DriverStays.ReachableNames | driver/main.c:78-128 | the name of every server in every reachable state fits the field it is copied to |
| DriverRuns.IdsDistinct | driver/id.c:6-37 | in every reachable state live objects have pairwise distinct identifiers below 832, packed pairs never look like an error, and the number in use is exact |
| DriverRuns.NeverExhausted | driver/id.c:11-25 | whenever a call goes on to allocate, the allocator still has an identifier for each object |
| DriverRuns.PoolsTight | driver/shm.c:227-251 | at every point of every run the number of pools is the peak number of connections divided by four, rounded up, and each connection uses one sub-memory |
| DriverRuns.StepCounts | driver/shm.c:227-251 | a call makes at most one connection, and then a pool exactly if all sub-memories were in use |
| DriverQueues.StepConserves | driver/task.c:517-649 | a queue after a call is what it was, less what was read, plus what was sent, in order |
| DriverQueues.QueueConserved | driver/task.c:517-649 | the same over any stretch of a run, and the counter is the length |
| DriverQueues.DeliveredExactly | driver/main.c:695-729 | readers received exactly what was sent and is no longer queued, if and only if no read was too small for a waiting notification |
| DriverQueues.PackingSucceeds | driver/main.c:509-518 | the error branch after packing is never taken for live identifiers |
| DriverTelling.StepSays | driver/connection.c:120-136 | a call tells a side of a connection at most one thing, or, when the connection goes, of that once or twice |
| DriverTelling.StepSameConn | driver/connection.c:15-22 | a connection that survives a call still has the same ends and identifiers |
| DriverTelling.ConnectionStory | driver/connection.c:120-136 | from any point of its life to the call that ends it, what is sent about a connection to one side is news followed by one or two disconnects |
| DriverLives.StepSpoken | driver/task.c:77-168 | every notification a call sends is about a connection that exists at the call, carries its three identifiers and goes to the task of the end that did not send it |
| DriverLives.HeardOf | driver/task.c:104-165 | a task hears about a set of identifiers what is said about the one connection that bears them at the moment, and nothing if none does; so when identifiers are used again it is the new connection that is heard |
| DriverLives.SilenceAfter | driver/connection.c:118-190 | as long as no connection bears its identifiers, no task is sent anything about a connection that has gone |
| DriverLives.WholeLife | driver/connection.c:104-190 | over a whole life and on to any later point before its identifiers are used again: the other end's task hears news, then one or two disconnects, then nothing, and no other task hears of the connection at all |
| DriverChannels.ChannelStep | driver/task.c:517-649 | a connection's share of a queue loses what is read and gains exactly what the call says |
| DriverZero.ServerMapsUnlessZero | driver/main.c:552-579 | a server gets its connection's memory mapped if and only if the memory is not called 0 |
| DriverZero.ZeroHappens | driver/main.c:565-569 | a run in which a connection's memory is called 0 and the server's mmap is refused |
| Snapshot.SnapshotComplete | driver/task.c:680-769 | one record for each open task, in the order of the list of tasks, with its servers and clients in the order of their lists; under a process exactly the clients and servers of its task, each once: a server with its identifier, its name and the identifiers of its first sixteen clients in list order, a client with its identifier and its server's, or -1 exactly if it is not connected |
| Snapshot.SnapshotCoherent | driver/server.c:469-518 | a client names a server exactly if the server lists the client, once, in all snapshots if and only if no server has more than sixteen connections |
| Locks.OperationSafe | driver/main.c:43-778 | every operation takes its mutexes in rank order and returns without any |
| Locks.NextDisciplined | driver/server.c:97-127 | mutual exclusion and rank order survive any step of any thread |
| Locks.NoDeadlock | driver/server.c:206-233 | for any threads, operations and interleaving, each operation returning at any point where it holds no mutex, some thread inside an operation can go on |
| Locks.DeleteServerListStuck | driver/server.c:525-530 | it gets through if and only if the list is empty |
| Locks.DeleteServerListBlocks | driver/server.c:525-530 | with a server in the list it blocks that mutex for good, whatever other threads do |
| LockedChanges.GoneDeletes | driver/connection.c:104-190 | a call in the course of which a connection goes runs the whole deletion, with the mutexes of its server, of both tasks and of the global list |
| LockedChanges.SendingTakes | driver/task.c:517-534 | a call that sends a task anything takes the mutexes of its queue and of its wait queue |
| LockedChanges.ChangesLocked | driver/connection.c:160-183 | in every reachable state no call changes a list that has a mutex without taking it: tasks, clients, servers, pools and connections, a server's connections, a task's notifications |
| LibServer.Server.FindConnection | libripc/src/server.cpp:444-466 | the first connection of the client, or none |
| LibServer.Server.FindOrCreateShm | libripc/src/server.cpp:469-503 | the limit counts even if the identifier is known already |
| LibServer.Server.AddConnection | libripc/src/server.cpp:505-571 | the new table for either answer of the driver to the mmap call: limits, repetition, an existing memory object, and that a refused mapping is recorded and the connection listed all the same |
| LibServer.Server.MapMemory | libripc/src/submem.cpp:59-107 | a memory counts as mapped after the call whether the driver agreed or not; only a packing error leaves it unmapped |
| LibServer.Server.DisconnectFromClient | libripc/src/server.cpp:415-440 | exactly one entry and its mapping go, or nothing |
| LibServer.Server.HandleNotification | libripc/src/server.cpp:269-318 | the table after any notification, addressed to this server or not, and either answer of the driver; and when the result is true |
| LibServer.HandleOutcome | libripc/src/server.cpp:269-318 | an announcement is accepted if and only if its client is not listed and both limits of sixteen allow it, with the mapping the driver grants or refuses; a disconnect takes out the first entry of a listed client and the memory it names; nothing else changes the table |
| Mirror.DrainFollows | libripc/src/server.cpp:269-318 | a queue that meets no limit moves the table like an unlimited map |
| Mirror.DrainBounded | libripc/src/server.cpp:536-545 | the table never exceeds its limit, whatever arrives |
| MirrorDriver.DisconnectOnTrack | driver/main.c:317-323 | repeated disconnect notifications do no harm |
| MirrorDriver.MapOnTrack | driver/main.c:522-533 | mapping, even repeated, keeps the tables on track within the limit |
| MirrorDriver.CloseOnTrack | driver/task.c:318-397 | closing a task keeps the tables of all other tasks on track |
| MirrorRuns.StepJoined | libripc/src/entity_manager.cpp:487-586 | every call with the library's reaction keeps tables and driver on track |
| MirrorRuns.MirrorFaithful | libripc/src/server.cpp:505-571 | over every run: all drained tables have listed exactly the driver's mapped connections, no client or sub-memory twice, if and only if no server has had more than sixteen; identifiers may be reused |
| DriverCrowd.CrowdHappens | driver/server.c:318-378 | a run of driver and libraries in which one server has seventeen mapped connections; its snapshot contradicts itself and its drained table is not the driver's record |
| ServerTables.TableFollows | libripc/src/entity_manager.cpp:487-543 | while one of its connections lives, a server's table is there and changes exactly by the notifications that its process reads for it, with the driver's own answers to its mmap calls |
| ServerTables.GrantedUnlessZero | driver/main.c:552-579 | the driver maps a live connection's memory for its server if and only if it is not called 0 |
| ServerTables.CleanStep | driver/task.c:77-168 | while a connection lives, no call queues anything for its client, or for its server from its client or over its sub-memory, that is not about this connection |
| ServerTables.HelloFits | libripc/src/server.cpp:505-571 | while no server has more than sixteen mapped connections, an announcement that is read finds the client known or room for it |
| FramingViews.Memory.FindChar | libripc/src/submem.cpp:143-164 | the first occurrence, the end, or null |
| FramingViews.Memory.FindAny | libripc/src/submem.cpp:166-193 | the first of several characters, the end, or null |
| FramingViews.Memory.Write | libripc/src/submem.cpp:306-346 | what fits is copied, nothing else changes, and the length or error value returned |
| FramingViews.Memory.Add | libripc/src/submem.cpp:362-371 | one character, if the offset is inside |
| FramingViews.WriteBufferView.AddHeader | libripc/src/submem.cpp:449-497 | bytes, position, flags and result for every state of the view |
| FramingViews.WriteBufferView.FinalizeHeader | libripc/src/submem.cpp:504-542 | the same |
| FramingViews.WriteBufferView.SetPayload | libripc/src/submem.cpp:544-579 | the same, the error value of write counting as success |
| FramingViews.WriteBufferView.FinalizePayload | libripc/src/submem.cpp:586-621 | the same |
| FramingViews.WriteBufferView.Reset | libripc/src/submem.cpp:381-386 | position and two flags, but not the third |
| FramingViews.ReadBufferView.GetHeader | libripc/src/submem.cpp:665-732 | the header, the position and the flags for each delimiter, and the null pointer at the end of the region |
| FramingViews.ReadBufferView.FinalizeHeader | libripc/src/submem.cpp:781-822 | the position behind the next newline, or failure |
| FramingViews.ReadBufferView.GetPayload | libripc/src/submem.cpp:734-779 | the text up to the terminator, the byte past the region included in the search, or the null pointer |
| FramingViews.ReadBufferView.FinalizePayload | libripc/src/submem.cpp:824-863 | the position ends at the capacity |
| FramingLaws.WriterInBounds | libripc/src/submem.cpp:471-496 | each writer call keeps the position in the region, except for that underflow |
| FramingLaws.WriterAlwaysInBounds | libripc/src/submem.cpp:381-621 | for any sequence of writer calls, mappings and unmappings: the position is in the region throughout if and only if on no stretch with an open payload on an unmapped region setPayload is called more often than the position allows |
| FramingLaws.UnmappedUnderflow | libripc/src/submem.cpp:544-579 | a sequence of four calls that leaves any region |
| FramingLaws.MappedInBounds | libripc/src/submem.cpp:381-621 | without unmapping the position never leaves the region |
| FramingLaws.ReaderInBounds | libripc/src/submem.cpp:665-863 | a reading view never leaves its region, whatever is called, mapped and unmapped |
| FramingLaws.ReadCrashes | libripc/src/submem.cpp:690-767 | exactly when reading a header or a payload follows a null pointer |
| FramingLaws.CrashesHappen | libripc/src/submem.cpp:690-767 | sequences of calls on a region of any size that get there |
| FramingLaws.PayloadAccepted | libripc/src/submem.cpp:544-621 | when a payload is accepted with the headers open, if and only if, the boundary case included |
| FramingLaws.PayloadBytes | libripc/src/submem.cpp:544-621 | what an accepted payload leaves in the region, in the boundary case nothing |
| FramingLaws.PayloadInBounds | libripc/src/submem.cpp:544-579 | setPayload leaves the position in bounds if and only if it does not underflow on unmapped memory |
| FramingLaws.WriteEncodes | libripc/src/submem.cpp:449-621 | a message that fits is written completely and the rest of the region is unchanged |
| FramingLaws.ReadBack | libripc/src/submem.cpp:665-822 | after any number of headers the payload can be fetched, and after the last header there is none |
| FramingLaws.RoundTrip | libripc/src/submem.cpp:449-863 | writing and reading gives headers and payload back for any initial memory and any bytes behind the message |
| FramingOutcomes.HeaderOutcome | libripc/src/submem.cpp:449-497 | on every state and text: a header is taken if and only if the view is open and all of it fits; which part is written otherwise, and where the position goes |
| FramingOutcomes.HeaderAfterReset | libripc/src/submem.cpp:381-386 | after a reset the next header goes to the beginning of the region, behind a tab if there was one before |
| FramingOutcomes.CloseOutcome | libripc/src/submem.cpp:504-542 | the headers can be closed if and only if they are or there is room for the newline |
| FramingOutcomes.FinishOutcome | libripc/src/submem.cpp:586-621 | the message can be finished if and only if it is or there is room for what is missing, and the bytes it leaves either way |
| FramingOutcomes.PayloadOutcome | libripc/src/submem.cpp:544-579 | on every state: a payload is accepted if and only if it is not empty and fits with its terminator, or the position is at the end once the headers are closed |
| FramingOutcomes.PayloadEffect | libripc/src/submem.cpp:544-579 | the bytes, the position and the flags that a payload leaves on a mapped view, accepted or not |
| FramingOutcomes.HeaderReadOutcome | libripc/src/submem.cpp:665-732 | on any content: a header is read if and only if plain text up to a tab or a newline is ahead of an open view, and where the view stands then |
| FramingOutcomes.NoHeaderOutcome | libripc/src/submem.cpp:665-732 | a terminator before any delimiter finishes the view behind it; without either the view stays |
| FramingOutcomes.PayloadReadOutcome | libripc/src/submem.cpp:734-779 | on any content: a payload is read if and only if, behind the headers, there is text up to a terminator, for which the byte past the region will do |
| FramingOutcomes.SkipOutcome | libripc/src/submem.cpp:781-822 | the rest of the headers can be skipped if and only if they are closed or a newline is ahead |
| FramingOutcomes.SkipPayloadOutcome | libripc/src/submem.cpp:824-863 | the payload can be skipped if and only if it has been read or a byte is left |
| Urls.Subdivide | libripc/include/ripc/url.hpp:129-158 | the loop computes the tokens of the recursive split |
| Urls.SplitLaws | libripc/include/ripc/url.hpp:129-158 | the split is the one that cuts at slashes and drops empty pieces |
| Urls.TokensJoin | libripc/include/ripc/url.hpp:129-158 | joining two addresses with a slash joins their tokens |
| Urls.UrlRoundTrip | libripc/src/url.cpp:29-39 | printing canonical tokens and reading them gives them back |
| Urls.PatternRoundTrip | libripc/src/url.cpp:61-97 | the same for patterns with wildcards |
| Urls.TokensCanonical | libripc/src/url.cpp:29-97 | reading produces canonical tokens only |
| Urls.LeadingZero | libripc/src/url.cpp:29-39 | leading zeros do not count, so "07" and "7" are one token |
| Urls.ReadableUnlessTooLarge | libripc/src/url.cpp:29-97 | an address or a pattern is refused if and only if one of its pieces is a number above the largest int |
| Routing.PatternOrder | libripc/include/ripc/url.hpp:73 | the order of patterns is a strict total order |
| Routing.LessMeans | libripc/include/ripc/url.hpp:73 | a smaller pattern is a proper prefix, or has the smaller token where the two first differ |
| Routing.TokenLessMeans | libripc/include/ripc/url.hpp:73 | texts come before numbers, those before "<string>" and that before "<int>"; texts and numbers in their own orders |
| Routing.StringLessMeans | libripc/include/ripc/url.hpp:73 | a smaller text is a proper prefix, or has the smaller character where the two first differ |
| Routing.CheckMatch | libripc/src/url.cpp:100-172 | the loop decides whether lengths agree and each pattern token is the static token of the address, "<int>" beside a number or "<string>" beside a text; for strings that are read as these tokens, whether their pieces agree in this sense |
| Routing.MatchesMeans | libripc/src/url.cpp:100-172 | an address matches a pattern if and only if they have as many pieces and each pair is any digits beside "<int>", any other text beside "<string>", the same text, or two spellings of one number |
| Routing.StaticFirst | libripc/src/url.cpp:100-172 | two patterns for one address first differ where exactly one is static, and that one is smaller |
| Routing.Router.RegisterCallback | libripc/src/server.cpp:241-256 | the sorted table with the new entry, unless its pattern is there |
| Routing.Router.FindCallback | libripc/src/server.cpp:361-397 | the first entry that matches |
| Routing.RegisteredHolds | libripc/src/server.cpp:241-256 | the table holds for each pattern what was registered first |
| Routing.RouteChoosesLeast | libripc/src/server.cpp:361-397 | the scan chooses e if and only if e is the least matching pattern |
| Routing.LeastOfRegistered | libripc/src/server.cpp:241-256 | after any registrations the least match of the table is the first registration of the least pattern registered that matches |
| Routing.ChosenIsMostSpecific | libripc/src/server.cpp:361-397 | against any other match the chosen pattern is static where they first differ |
| Routing.OrderIrrelevant | libripc/src/server.cpp:241-256 | the order of registration of different patterns does not matter |
| LibExchange.Client.Call | libripc/src/client.cpp:102-197 | refused without a connection or with a request pending; else the bytes written and the flags, for either result of the driver |
| LibExchange.Client.DispatchNewMessage | libripc/src/client.cpp:350-388 | the callback runs on the payload in the memory and the client is free again; nothing happens without a connection |
| LibExchange.DispatchNewMessage | libripc/src/server.cpp:320-412 | an answer exactly if the memory is mapped and the address can be read and matched, and it is the response of the handler of the least pattern that matches; a crash exactly if the mapping was refused |
| LibExchange.Session.Call | libripc/src/client.cpp:102-197 | the client object makes exactly the exchange's move of a call, and turn-taking is kept |
| LibExchange.Session.ServerTake | libripc/src/server.cpp:269-340 | the server object makes exactly the move of reading a notification: the table it keeps is what decides whether a message is dealt with |
| LibExchange.Session.ServerOther | libripc/src/server.cpp:269-318 | the same for notifications of other clients |
| LibExchange.Session.ServerAnswer | libripc/src/server.cpp:320-412 | dispatching makes exactly the move of answering, with the memory object that the table holds; the process dies if its mapping was refused |
| LibExchange.Session.ClientDeliver | libripc/src/client.cpp:350-388 | the client object makes exactly the move of delivering an answer |
| Exchange.AnswerGood | libripc/src/server.cpp:320-412 | a busy server notifies the client if and only if it has the memory and the request's address leads to a handler; without the memory it dies |
| Exchange.PagesUnlessZero | libripc/src/server.cpp:557-561 | a server that has the connection in its table has the memory if and only if it is not called 0 |
| Exchange.HelloOwn | libripc/src/server.cpp:505-571 | an announcement puts the connection in the table if and only if it is there or there is room, with the right mapping |
| Exchange.OtherOwn | libripc/src/server.cpp:415-440 | nothing another client does adds the entry, takes it out or changes its memory |
| Exchange.StepGood | libripc/src/client.cpp:102-197 | every move keeps at most one message on its way and the memory holding exactly the request or the response it announces |
| Exchange.ExactlyOnce | libripc/src/client.cpp:350-388 | in every life of a connection, whoever else is in the server's table, the callbacks that ran are those of the first calls, in order, once each, with the response of the least matching pattern's handler to their own request |
| Exchange.TargetLeast | libripc/src/server.cpp:361-397 | a request reaches handler h if and only if its address can be read and h belongs to the least pattern that matches; it reaches none if and only if no pattern matches |
| Exchange.AnswerMeans | libripc/src/server.cpp:361-397 | the answer that the statements below name is the response of that handler to the address and the payload of the request |
| Exchange.ReadsAreSafe | libripc/src/submem.cpp:690-767 | while a message is dealt with, reading it from mapped memory finds what it looks for and follows no null pointer; the server lacks the mapping exactly for a sub-memory called 0 |
| ExchangeFate.StrandsExactly | libripc/src/server.cpp:320-412 | a pending call is delivered with its own answer by the client's reading it, and lost by a move if and only if the server reads the message without having the connection in its table, or deals with it without the memory or without a handler; the server dies exactly without the memory; every other move keeps the call under way |
| ExchangeFate.TakenMessage | libripc/src/server.cpp:320-412 | a request about to be read is answered if and only if the connection is in the table, its memory is mapped and the address matches: then four moves deliver exactly its answer, otherwise nothing ever does, all later calls are refused, and the server has died if only the memory was missing |
| ExchangeFate.AnsweredIffMatched | libripc/src/server.cpp:320-412 | if all announcements find room, every request that reaches the server is answered if and only if its address matches and the sub-memory is not called 0 |
| ExchangeFate.FirstCallFate | libripc/src/server.cpp:320-412 | the first call of a connection is answered with room, a sub-memory not called 0 and a match, and lost for ever without any of them |
| ExchangeFate.FailuresHappen | libripc/src/server.cpp:536-561 | one and the same request answered by one server, lost by a server without patterns, lost by a full server, and fatal to a server over sub-memory 0 |
| EndToEnd.EventAgrees | driver/main.c:207-290 | the driver's queues and the server's table move like the exchange's under any event |
| EndToEnd.DriverCarriesExchange | libripc/src/server.cpp:320-412 | whatever all other tasks do, the driver's queues carry exactly the exchange's messages and its table is the library's, so the exchange's guarantees hold on top of the driver |
| EndToEnd.RequestsReachHandlers | libripc/src/server.cpp:320-412 | while no server has more than sixteen mapped connections, every request that reaches the server is answered with its own response if and only if its address matches a pattern and the sub-memory is not called 0 |
| EndToEnd.ConnectBegins | driver/main.c:167-205 | a new connection starts such an exchange if nothing waits for its client, nothing for its server from the client or over the sub-memory, and the server's table lists neither, whatever is in its memory |
| Delivery.AnswerArrives | driver/main.c:207-290 | from any moment at which the server is about to read an answerable request there are reads by the two tasks and one message call by the server, none of which fails, that deliver exactly its answer, whatever else waits in the queues |
| Delivery.EveryAnswerArrives | driver/main.c:207-290 | so every run from a connection's beginning can be continued to the delivery of such an answer |
| Delivery.EveryRequestServed | libripc/src/server.cpp:320-412 | while no server has more than sixteen mapped connections, every request that reaches its server over a sub-memory not called 0, with an address that matches, is carried to its callback by a continuation of the run |
| Delivery.LeftoverAnswered | driver/main.c:250-290 | the server's message call over the sub-memory of a live connection succeeds and always reaches that connection's client, whosever message it answers |

## Left out

- Kernel facilities: device setup, page mapping, wait queues and failing allocations are not modelled. Nothing is said about pages lying inside an allocation; `shm_create` asks for fewer pages than its sub-memories address.
- The list entries that tie servers and clients to tasks are folded into the task's lists and the task pointer.
- Concurrency inside a file operation: operations are atomic steps, so races between a system call and another thread's use of a pointer, are not covered. `Locks` covers waiting, and `LockedChanges` which mutexes a call takes, not at which moment; reading without a mutex is not covered, nor are the lists of servers and clients of a task, which have none.
- ServerGetData: a snapshot is taken in one step, while the driver gives up a mutex between records.
- Module unloading with its list deletions, except `delete_server_list` in `Locks`, and helper functions that nothing calls.
- Packed arguments: calls take the two identifiers directly; packing and unpacking is in `IdSpace`, arithmetically and not bit by bit.
- Clients in the library: blocking mode, the reaction to a remote disconnect, reconnecting while old notifications wait, and the client map of the entity manager.
- LibExchange.Client.Call: one atomic step, so a response that overtakes the update of the request flag is not covered.
- Exchange.ExactlyOnce: starts from queues that hold nothing about the connection and a table without an entry of the client or of the sub-memory, because leftovers of an earlier connection would be taken for its own: what is left for the client because the library does not look at the sender, and what is left for the server because the answer goes to whoever has the sub-memory (`Delivery.LeftoverAnswered`).
- The mmap call that the library makes on an announcement is part of the read that brings the announcement; for a live connection the driver's answer is the same at any later moment of its life (`ServerTables.GrantedUnlessZero`).
- Application callbacks are a function from handler, address and request payload to the response payload; callbacks that write headers or call back into the library are not modelled.
- `Server::disconnect` and custom notification handlers.
- MirrorRuns.MirrorFaithful: registering a server and entering it in the library's map is one step.
- `Memory::read`, `readUntil`, the string overloads and the search for a set given as a string, which no message passes through.
- Null data pointers and null callbacks.
- Signed characters in the order of strings, and locales in the test for digits.
- The listener thread's loop, the logger, the REST and JSON wrappers, the public singleton, the control tool and the examples.
