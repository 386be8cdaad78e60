/** The mutexes that a call takes, against what the call changes: no list is changed without its mutex. */
module LockedChanges {
  import opened DriverModel
  import opened DriverInvariant
  import opened DriverCommands
  import opened DriverSteps
  import opened DriverQueues
  import opened DriverTeardown
  import opened DriverClose
  import opened MirrorDriver
  import opened DriverTelling
  import opened DriverChannels
  import Seqs
  import IdSpace
  import DriverFacts
  import DriverLives
  import DriverOutcomes
  import Locks

  // ---------- the objects that a call runs into ----------

  function ClientTaskOf(s: State, k: Ref): Ref {
    if Whole(s, k) then s.clients[s.conns[k].client].task else NULL
  }

  function ServerTaskOf(s: State, k: Ref): Ref {
    if Whole(s, k) then s.servers[s.conns[k].server].task else NULL
  }

  function ServerOf(s: State, k: Ref): Ref {
    if k in s.conns then s.conns[k].server else NULL
  }

  /** The connection of the client with this identifier. */
  function ConnOfClientId(s: State, id: int): Ref {
    var c := ClientById(s, id);
    if c in s.clients then s.clients[c].conn else NULL
  }

  /** The connection of the server with this identifier over the sub-memory with that one. */
  function ConnOfServerId(s: State, id: int, subId: int): Ref {
    var r := ServerById(s, id);
    if r !in s.servers then NULL
    else
      var e := EntryByMem(s, r, subId);
      if e in s.entries then s.entries[e] else NULL
  }

  /** The servers that the search for an identifier looks at. */
  function LookedAt(s: State, list: seq<Ref>, id: int): seq<Ref> {
    if list == [] then []
    else if list[0] in s.servers && s.servers[list[0]].id == id then [list[0]]
    else [list[0]] + LookedAt(s, list[1..], id)
  }

  /** The tasks behind a server's connections, in the order of its list. */
  function TasksBehind(s: State, es: seq<Ref>): seq<Ref> {
    if es == [] then []
    else [if es[0] in s.entries then ClientTaskOf(s, s.entries[es[0]]) else NULL] + TasksBehind(s, es[1..])
  }

  function CleanedServers(s: State, rs: seq<Ref>): seq<(Ref, seq<Ref>)> {
    if rs == [] then []
    else
      [(rs[0], if rs[0] in s.servers then TasksBehind(s, s.servers[rs[0]].entries) else [])]
      + CleanedServers(s, rs[1..])
  }

  /** The servers of other tasks that clients of task t are connected to, with these tasks. */
  function CleanedClients(s: State, cs: seq<Ref>, t: Ref): seq<(Ref, Ref)> {
    if cs == [] then []
    else
      var k := if cs[0] in s.clients then s.clients[cs[0]].conn else NULL;
      (if k in s.conns && ServerTaskOf(s, k) != t then [(ServerOf(s, k), ServerTaskOf(s, k))] else [])
      + CleanedClients(s, cs[1..], t)
  }

  /** The file operation behind a system call. */
  function OperationOf(s: State, cmd: Cmd): Locks.Operation
    requires CmdOk(s, cmd)
  {
    match cmd
    case Open(_, _) => Locks.Open
    case RegisterServer(_, _, r) => Locks.RegisterServer(r)
    case RegisterClient(_, _) => Locks.RegisterClient
    case RegisterMonitor(_) => Locks.RegisterMonitor
    case Connect(_, name, _, _, _, _) => Locks.Connect(ServerByName(s, name), FreeSub(s, s.poolList) == NULL)
    case ClientEndWriting(id) => Locks.ClientEndWriting(ServerTaskOf(s, ConnOfClientId(s, id)))
    case ServerEndWriting(id, subId) =>
      Locks.ServerEndWriting(LookedAt(s, s.serverList, id), ServerById(s, id),
                             ClientTaskOf(s, ConnOfServerId(s, id, subId)))
    case ClientDisconnect(id) =>
      var k := ConnOfClientId(s, id);
      Locks.ClientDisconnect(ClientTaskOf(s, k), ServerTaskOf(s, k), ServerOf(s, k))
    case ServerDisconnect(id, subId) =>
      var k := ConnOfServerId(s, id, subId);
      Locks.ServerDisconnect(LookedAt(s, s.serverList, id), ClientTaskOf(s, k), ServerTaskOf(s, k), ServerOf(s, k))
    case ClientUnregister(id) =>
      var k := ConnOfClientId(s, id);
      Locks.ClientUnregister(ClientTaskOf(s, k), ServerTaskOf(s, k), ServerOf(s, k))
    case ServerUnregister(id) =>
      var r := ServerById(s, id);
      Locks.ServerUnregister(LookedAt(s, s.serverList, id),
                             if r in s.servers then TasksBehind(s, s.servers[r].entries) else [],
                             if r in s.servers then s.servers[r].task else NULL, r)
    case Mmap(id, _) =>
      if ClientById(s, id) != NULL then
        var k := ConnOfClientId(s, id);
        Locks.ClientMmap(ServerTaskOf(s, k), ServerOf(s, k))
      else Locks.ServerMmap(LookedAt(s, s.serverList, id), ServerById(s, id))
    case Read(t, _) => if s.tasks[t].monitor then Locks.ReadMonitor(s.serverList, |s.clientList|) else Locks.Read(t)
    case Close(t) =>
      Locks.Close(t, CleanedServers(s, s.tasks[t].servers), CleanedClients(s, s.tasks[t].clients, t),
                  |s.tasks[t].clients|)
  }

  /** The call takes the mutex, if it gets as far as it can. */
  ghost predicate Takes(s: State, cmd: Cmd, l: Locks.Lock)
    requires CmdOk(s, cmd)
  {
    Locks.Acquire(l) in Locks.ScriptOf(OperationOf(s, cmd))
  }

  // ---------- what is in the scripts ----------

  ghost predicate Within(a: Locks.Script, b: Locks.Script) {
    forall x <- a :: x in b
  }

  /** Deleting connection k is part of the script. */
  ghost predicate Deletes(s: State, k: Ref, script: Locks.Script) {
    Within(Locks.DeleteConnection(ClientTaskOf(s, k), ServerTaskOf(s, k), ServerOf(s, k)), script)
  }

  lemma WithinSum(a: Locks.Script, b: Locks.Script, c: Locks.Script)
    ensures Within(a, b) || Within(a, c) ==> Within(a, b + c)
  {
  }

  lemma WithinTrans(a: Locks.Script, b: Locks.Script, c: Locks.Script)
    requires Within(a, b) && Within(b, c)
    ensures Within(a, c)
  {
  }

  lemma InCleanup(ct: Ref, st: Ref, r: Ref)
    ensures Within(Locks.DeleteConnection(ct, st, r), Locks.ServerCleanupConnection(ct, st, r))
  {
    hide Locks.DeleteConnection, Locks.InServer;
  }

  lemma {:induction false} InCleanups(cts: seq<Ref>, st: Ref, r: Ref, ct: Ref)
    requires ct in cts
    ensures Within(Locks.DeleteConnection(ct, st, r), Locks.ServerCleanupConnections(cts, st, r))
    decreases |cts|
  {
    hide Locks.DeleteConnection, Locks.ServerCleanupConnection;
    if ct == cts[0] {
      InCleanup(ct, st, r);
    } else {
      InCleanups(cts[1..], st, r, ct);
    }
  }

  lemma {:induction false} InCleanupServers(servers: seq<(Ref, seq<Ref>)>, t: Ref, x: (Ref, seq<Ref>), ct: Ref)
    requires x in servers && ct in x.1
    ensures Within(Locks.DeleteConnection(ct, t, x.0), Locks.CleanupServers(servers, t))
    decreases |servers|
  {
    hide Locks.DeleteConnection, Locks.ServerCleanupConnections;
    if x == servers[0] {
      InCleanups(x.1, t, x.0, ct);
    } else {
      InCleanupServers(servers[1..], t, x, ct);
    }
  }

  lemma {:induction false} InCleanupClients(clients: seq<(Ref, Ref)>, t: Ref, x: (Ref, Ref))
    requires x in clients
    ensures Within(Locks.DeleteConnection(t, x.1, x.0), Locks.CleanupClients(clients, t))
    decreases |clients|
  {
    hide Locks.DeleteConnection;
    if x != clients[0] {
      InCleanupClients(clients[1..], t, x);
    }
  }

  /** The mutexes of a deletion: the queues of both tasks, their wait queues, the server's list, the global list. */
  lemma DeletionTakes(ct: Ref, st: Ref, r: Ref)
    ensures var d := Locks.DeleteConnection(ct, st, r);
            && Locks.Acquire(Locks.NotifList(ct)) in d && Locks.Acquire(Locks.WaitQueue(ct)) in d
            && Locks.Acquire(Locks.NotifList(st)) in d && Locks.Acquire(Locks.WaitQueue(st)) in d
            && Locks.Acquire(Locks.ServerConns(r)) in d && Locks.Acquire(Locks.ConnList) in d
  {
    SendTakes(ct);
    SendTakes(st);
    hide Locks.NotificationSend, Locks.InServer;
    LockTakes(Locks.ServerConns(r));
    LockTakes(Locks.ConnList);
    hide Locks.Locked;
  }

  lemma SendTakes(t: Ref)
    ensures var d := Locks.NotificationSend(t);
            Locks.Acquire(Locks.NotifList(t)) in d && Locks.Acquire(Locks.WaitQueue(t)) in d
  {
    LockTakes(Locks.NotifList(t));
    LockTakes(Locks.WaitQueue(t));
    hide Locks.Locked;
  }

  lemma LockTakes(l: Locks.Lock)
    ensures Locks.Acquire(l) in Locks.Locked(l, [])
  {
    assert Locks.Locked(l, [])[0] == Locks.Acquire(l);
  }

  // ---------- connections that go ----------

  lemma NamedByClient(s: State, k: Ref)
    requires Inv(s) && k in s.conns
    ensures Whole(s, k) && ConnOfClientId(s, FactOf(s, k).client) == k && ClientById(s, FactOf(s, k).client) != NULL
  {
    hide Inv, ClientById;
    AllWhole(s);
    WholeParts(s, k);
    ConnOfBoth(s, k);
    ClientFound(s, s.conns[k].client);
  }

  lemma NamedByServer(s: State, k: Ref)
    requires Inv(s) && k in s.conns
    ensures Whole(s, k) && ConnOfServerId(s, FactOf(s, k).server, FactOf(s, k).sub) == k
    ensures ServerById(s, FactOf(s, k).server) == s.conns[k].server
  {
    hide Inv, ServerById, EntryByMem;
    AllWhole(s);
    WholeParts(s, k);
    ServerFound(s, s.conns[k].server);
    EntryThere(s, k);
    EntryOfServer(s, s.conns[k].server, FactOf(s, k).sub);
    DriverOutcomes.EntryId(s, s.conns[k].server, FactOf(s, k).sub);
    IdsTell(s, k, s.entries[EntryByMem(s, s.conns[k].server, FactOf(s, k).sub)]);
  }

  lemma {:induction false} AmongTasks(s: State, es: seq<Ref>, e: Ref)
    requires e in es && e in s.entries
    ensures ClientTaskOf(s, s.entries[e]) in TasksBehind(s, es)
    decreases |es|
  {
    if e != es[0] {
      AmongTasks(s, es[1..], e);
    }
  }

  lemma {:induction false} AmongServers(s: State, rs: seq<Ref>, r: Ref)
    requires r in rs && r in s.servers
    ensures (r, TasksBehind(s, s.servers[r].entries)) in CleanedServers(s, rs)
    decreases |rs|
  {
    if r != rs[0] {
      AmongServers(s, rs[1..], r);
    }
  }

  lemma {:induction false} AmongClients(s: State, cs: seq<Ref>, t: Ref, c: Ref)
    requires c in cs && c in s.clients && s.clients[c].conn in s.conns && ServerTaskOf(s, s.clients[c].conn) != t
    ensures (ServerOf(s, s.clients[c].conn), ServerTaskOf(s, s.clients[c].conn)) in CleanedClients(s, cs, t)
    decreases |cs|
  {
    hide ServerTaskOf, ServerOf;
    if c != cs[0] {
      AmongClients(s, cs[1..], t, c);
    }
  }

  lemma EntryOf(s: State, k: Ref) returns (e: Ref)
    requires Inv(s) && k in s.conns
    ensures s.conns[k].server in s.servers && e in s.servers[s.conns[k].server].entries
    ensures e in s.entries && s.entries[e] == k
  {
    ConnSides(s);
    hide Owned, Pooled, Identified, Separate, Named, Enumerated, Linked;
    e := ListedEntry(s.conns, s.servers, s.entries, k);
  }

  lemma DisconnectDeletes(s: State, cmd: Cmd, k: Ref)
    requires CmdOk(s, cmd) && Reachable(s) && k in s.conns && k !in Step(s, cmd).0.conns
    requires cmd.ClientDisconnect? || cmd.ServerDisconnect? || cmd.ClientUnregister?
    ensures Deletes(s, k, Locks.ScriptOf(OperationOf(s, cmd)))
  {
    hide Inv, Reachable, Step, CmdOk, FactOf, Whole, ConnOfClientId, ConnOfServerId, ClientTaskOf, ServerTaskOf,
         ServerOf, Locks.DeleteConnection, Locks.NotificationSend, Locks.FindServerById, Locks.InServer, LookedAt;
    ReachableInv(s);
    AllWhole(s);
    match cmd
    case ServerDisconnect(_, _) =>
      DriverOutcomes.DisconnectOutcome(s, cmd);
      NamedByServer(s, k);
      InCleanup(ClientTaskOf(s, k), ServerTaskOf(s, k), ServerOf(s, k));
    case ClientDisconnect(_) =>
      DriverOutcomes.DisconnectOutcome(s, cmd);
      NamedByClient(s, k);
    case ClientUnregister(_) =>
      DriverOutcomes.UnregisterOutcome(s, cmd);
      NamedByClient(s, k);
  }

  lemma UnregisterDeletes(s: State, cmd: Cmd, k: Ref)
    requires CmdOk(s, cmd) && Reachable(s) && k in s.conns && k !in Step(s, cmd).0.conns && cmd.ServerUnregister?
    ensures Deletes(s, k, Locks.ScriptOf(OperationOf(s, cmd)))
  {
    hide Inv, Reachable, Step, CmdOk, FactOf, Locks.DeleteConnection, Locks.FindServerById, Locks.ServerDestroy,
         Locks.ServerCleanupConnections, LookedAt, TasksBehind;
    ReachableInv(s);
    AllWhole(s);
    DriverOutcomes.UnregisterOutcome(s, cmd);
    var r :| DriverOutcomes.ServerLeft(s, Step(s, cmd).0, cmd.serverId, r);
    ServerFound(s, r);
    var e := EntryOf(s, k);
    AmongTasks(s, s.servers[r].entries, e);
    InCleanups(TasksBehind(s, s.servers[r].entries), s.servers[r].task, r, ClientTaskOf(s, k));
  }

  lemma CloseTouches(s: State, t: Ref, k: Ref)
    requires Inv(s) && t in s.tasks && k in s.conns && k !in CloseTask(s, t).conns
    ensures Whole(s, k) && (ServerTaskOf(s, k) == t || ClientTaskOf(s, k) == t)
  {
    hide Inv, CloseTask, FactOf, OnlyDisconnects, TrimmedSubs, TrimmedEntries, OwnIds;
    CloseTaskEffect(s, t);
    AllWhole(s);
  }

  /** A connection of one of the task's servers is deleted in the first loop, any other of its clients in the second. */
  lemma LoopsDelete(s: State, t: Ref, k: Ref)
    requires Inv(s) && t in s.tasks && Whole(s, k)
    ensures ServerTaskOf(s, k) == t ==>
              Deletes(s, k, Locks.CleanupServers(CleanedServers(s, s.tasks[t].servers), t))
    ensures ServerTaskOf(s, k) != t && ClientTaskOf(s, k) == t ==>
              Deletes(s, k, Locks.CleanupClients(CleanedClients(s, s.tasks[t].clients, t), t))
  {
    hide Inv, Locks.DeleteConnection, Locks.CleanupServers, Locks.CleanupClients, TasksBehind, CleanedServers,
         CleanedClients, Seqs.Distinct;
    TaskMembers(s, t);
    var rs, cs := s.tasks[t].servers, s.tasks[t].clients;
    var r, c := s.conns[k].server, s.conns[k].client;
    if ServerTaskOf(s, k) == t {
      var e := EntryOf(s, k);
      AmongTasks(s, s.servers[r].entries, e);
      AmongServers(s, rs, r);
      InCleanupServers(CleanedServers(s, rs), t, (r, TasksBehind(s, s.servers[r].entries)), ClientTaskOf(s, k));
    } else if ClientTaskOf(s, k) == t {
      ConnOfBoth(s, k);
      AmongClients(s, cs, t, c);
      InCleanupClients(CleanedClients(s, cs, t), t, (r, ServerTaskOf(s, k)));
    }
  }

  lemma CloseDeletes(s: State, cmd: Cmd, k: Ref)
    requires CmdOk(s, cmd) && Inv(s) && cmd.Close? && k in s.conns && k !in Step(s, cmd).0.conns
    ensures Deletes(s, k, Locks.ScriptOf(OperationOf(s, cmd)))
  {
    hide Inv, CloseTask, Whole, ServerTaskOf, ClientTaskOf, ServerOf, Locks.DeleteConnection, Locks.CleanupServers,
         Locks.CleanupClients, Locks.DestroyServers, Locks.DestroyClients, Locks.Locked, CleanedServers, CleanedClients;
    CloseTouches(s, cmd.t, k);
    LoopsDelete(s, cmd.t, k);
  }

  lemma OthersStay(s: State, cmd: Cmd)
    requires CmdOk(s, cmd) && Reachable(s)
    requires !cmd.ClientDisconnect? && !cmd.ServerDisconnect? && !cmd.ClientUnregister? && !cmd.ServerUnregister?
    requires !cmd.Close?
    ensures s.conns.Keys <= Step(s, cmd).0.conns.Keys
    ensures !cmd.Connect? ==> Step(s, cmd).0.conns.Keys == s.conns.Keys
  {
    hide Inv, Reachable, ConnectStep, Notify, HasMonitor, Registered, IdSpace.GenerateId, Taken, ServerByName;
    if cmd.Connect? {
      DriverOutcomes.ConnectOutcome(s, cmd);
    } else if cmd.ClientEndWriting? || cmd.ServerEndWriting? {
      DriverOutcomes.MessageOutcome(s, cmd);
    } else if cmd.Mmap? {
      DriverOutcomes.MmapOutcome(s, cmd);
    }
  }

  /** A call during which a connection goes runs the whole deletion of it. */
  lemma GoneDeletes(s: State, cmd: Cmd, k: Ref)
    requires CmdOk(s, cmd) && Reachable(s) && k in s.conns && k !in Step(s, cmd).0.conns
    ensures Deletes(s, k, Locks.ScriptOf(OperationOf(s, cmd)))
  {
    hide Inv, Reachable, Deletes, OperationOf;
    ReachableInv(s);
    match cmd
    case ServerUnregister(_) => UnregisterDeletes(s, cmd, k);
    case Close(_) => CloseDeletes(s, cmd, k);
    case ClientDisconnect(_) => DisconnectDeletes(s, cmd, k);
    case ServerDisconnect(_, _) => DisconnectDeletes(s, cmd, k);
    case ClientUnregister(_) => DisconnectDeletes(s, cmd, k);
    case _ => OthersStay(s, cmd);
  }

  // ---------- queues ----------

  lemma MessageTakes(s: State, cmd: Cmd, k: Ref, who: Sender)
    requires CmdOk(s, cmd) && Inv(s) && k in s.conns && Whole(s, k) && Says(s, cmd, k, who) != []
    ensures Within(Locks.NotificationSend(Receiver(s, k, who)), Locks.ScriptOf(OperationOf(s, cmd)))
  {
    hide Inv, FactOf, ConnOfClientId, ConnOfServerId, ClientById, ServerById, Locks.NotificationSend,
         Locks.FindServerById, Locks.InServer, LookedAt;
    NamedByClient(s, k);
    NamedByServer(s, k);
    if cmd.Mmap? {
      var send := Locks.NotificationSend(ServerTaskOf(s, k));
      assert Within(send, Locks.Locked(Locks.ServerLock(ServerOf(s, k)), send));
    }
  }

  lemma AboutItself(s: State, q: seq<Notif>, k: Ref, who: Sender)
    requires q != [] && IsAbout(s, q[0], k, who)
    ensures KindsOf(s, q, k, who) != []
  {
    hide FactOf, Whole;
  }

  /** Whoever is sent something: its queue and its wait queue are taken. */
  lemma SendingTakes(s: State, cmd: Cmd, t: Ref)
    requires CmdOk(s, cmd) && Reachable(s) && SentBy(s, cmd, t) != []
    ensures Takes(s, cmd, Locks.NotifList(t)) && Takes(s, cmd, Locks.WaitQueue(t))
  {
    hide Inv, Reachable, CmdOk, Step, SentBy, FactOf, Whole, OperationOf, Locks.ScriptOf, Locks.NotificationSend,
         Locks.DeleteConnection, Says, KindsOf, Receiver;
    ReachableInv(s);
    AllWhole(s);
    DriverLives.StepSpoken(s, cmd, t);
    var q := SentBy(s, cmd, t);
    assert Concerns(s, q[0], t);
    var k, who :| IsAbout(s, q[0], k, who) && Receiver(s, k, who) == t;
    AboutItself(s, q, k, who);
    KnownWhole(s, q[0], k, who);
    if k in Step(s, cmd).0.conns {
      Said(s, cmd, k, who);
      MessageTakes(s, cmd, k, who);
      SendTakes(t);
    } else {
      GoneDeletes(s, cmd, k);
      ReceiverIs(s, k, who);
      DeletionTakes(ClientTaskOf(s, k), ServerTaskOf(s, k), ServerOf(s, k));
    }
  }

  lemma KnownWhole(s: State, n: Notif, k: Ref, who: Sender)
    requires IsAbout(s, n, k, who)
    ensures Whole(s, k) && k in s.conns
  {
  }

  lemma ReceiverIs(s: State, k: Ref, who: Sender)
    requires Whole(s, k)
    ensures Receiver(s, k, who) == if who == CLIENT then ServerTaskOf(s, k) else ClientTaskOf(s, k)
  {
  }

  /** A call that changes the queue of a task has its mutex, and wakes up whoever waits if something is added. */
  lemma QueueLocked(s: State, cmd: Cmd, t: Ref)
    requires CmdOk(s, cmd) && Reachable(s) && t in s.tasks && t in Step(s, cmd).0.tasks
    ensures Step(s, cmd).0.tasks[t].queue != s.tasks[t].queue ==> Takes(s, cmd, Locks.NotifList(t))
    ensures |Step(s, cmd).0.tasks[t].queue| > |s.tasks[t].queue| ==> Takes(s, cmd, Locks.WaitQueue(t))
  {
    hide Reachable, CmdOk, Step, SentBy;
    StepConserves(s, cmd, t);
    var q, q' := s.tasks[t].queue, Step(s, cmd).0.tasks[t].queue;
    assert [] + q' == q' && q + [] == q;
    if SentBy(s, cmd, t) != [] {
      SendingTakes(s, cmd, t);
    } else if Taking(s, cmd, t) != [] {
      ReadTakes(s, cmd);
    }
  }

  lemma ReadTakes(s: State, cmd: Cmd)
    requires CmdOk(s, cmd) && cmd.Read? && !s.tasks[cmd.t].monitor
    ensures Takes(s, cmd, Locks.NotifList(cmd.t))
  {
    LockTakes(Locks.NotifList(cmd.t));
  }

  // ---------- lists ----------

  /** The kinds of objects that a call can bring or take away, connections aside. */
  ghost predicate KeysKept(s: State, cmd: Cmd, s': State) {
    && (s'.tasks.Keys != s.tasks.Keys ==> cmd.Open? || cmd.Close?)
    && (s'.clients.Keys != s.clients.Keys ==> cmd.RegisterClient? || cmd.ClientUnregister? || cmd.Close?)
    && (s'.servers.Keys != s.servers.Keys ==> cmd.RegisterServer? || cmd.ServerUnregister? || cmd.Close?)
    && (s'.pools.Keys != s.pools.Keys ==> cmd.Connect?)
  }

  lemma TornDownKeys(s: State, s': State)
    requires TornDown(s, s')
    ensures s'.tasks.Keys == s.tasks.Keys && s'.clients.Keys == s.clients.Keys && s'.servers.Keys == s.servers.Keys
    ensures s'.pools == s.pools
  {
    hide Inv;
    TrimmedKeys(s, s');
  }

  lemma ClientDestroyed(s: State, c: Ref)
    ensures var s' := DestroyClient(s, c);
            s'.tasks.Keys == s.tasks.Keys && s'.servers.Keys == s.servers.Keys && s'.pools == s.pools
  {
    hide Seqs.Remove, Freed;
  }

  lemma ServerDestroyed(s: State, r: Ref)
    ensures var s' := DestroyServer(s, r);
            s'.tasks.Keys == s.tasks.Keys && s'.clients.Keys == s.clients.Keys && s'.pools == s.pools
  {
    hide Seqs.Remove, Freed;
  }

  lemma LeavingKeys(s: State, cmd: Cmd)
    requires CmdOk(s, cmd) && Inv(s)
    requires cmd.ClientDisconnect? || cmd.ServerDisconnect? || cmd.ClientUnregister? || cmd.ServerUnregister?
    ensures KeysKept(s, cmd, Step(s, cmd).0)
  {
    hide Inv, TornDown, Notify, UnlinkAll, CleanServer, DestroyClient, DestroyServer;
    if cmd.ClientDisconnect? || cmd.ClientUnregister? {
      var c := ClientById(s, cmd.clientId);
      if c != NULL && s.clients[c].conn != NULL {
        DriverFacts.ConnOfClient(s, c);
        DisconnectTornDown(s, CLIENT, s.clients[c].conn);
        TornDownKeys(s, ClientDisconnectStep(s, cmd.clientId).0);
        ClientDestroyed(ClientDisconnectStep(s, cmd.clientId).0, c);
      }
    } else {
      var r := ServerById(s, cmd.serverId);
      if r != NULL && cmd.ServerUnregister? {
        CleanServerTornDown(s, r);
        TornDownKeys(s, CleanServer(s, r));
        ServerDestroyed(CleanServer(s, r), r);
      } else if r != NULL && EntryByMem(s, r, cmd.subId) != NULL {
        DisconnectTornDown(s, SERVER, s.entries[EntryByMem(s, r, cmd.subId)]);
        TornDownKeys(s, Step(s, cmd).0);
      }
    }
  }

  lemma TellingKeys(s: State, cmd: Cmd)
    requires CmdOk(s, cmd) && Reachable(s) && (cmd.ClientEndWriting? || cmd.ServerEndWriting? || cmd.Mmap?)
    ensures KeysKept(s, cmd, Step(s, cmd).0)
  {
    hide Inv, Reachable, CmdOk, Step;
    if cmd.Mmap? {
      DriverOutcomes.MmapOutcome(s, cmd);
    } else {
      DriverOutcomes.MessageOutcome(s, cmd);
    }
  }

  lemma RegisteringKeys(s: State, cmd: Cmd)
    requires CmdOk(s, cmd) && Reachable(s)
    requires cmd.Open? || cmd.RegisterServer? || cmd.RegisterClient? || cmd.RegisterMonitor? || cmd.Read?
    ensures KeysKept(s, cmd, Step(s, cmd).0)
  {
    hide Inv, Reachable, OpenStep, RegisterServerStep, RegisterClientStep, RegisterMonitorStep, ReadStep,
         DriverOutcomes.TakesId, HasMonitor, Registered, DriverOutcomes.NameTaken;
    match cmd
    case Open(process, t) => DriverOutcomes.OpenOutcome(s, process, t);
    case RegisterServer(t, name, r) => DriverOutcomes.RegisterServerOutcome(s, t, name, r);
    case RegisterClient(t, c) => DriverOutcomes.RegisterClientOutcome(s, t, c);
    case RegisterMonitor(t) => DriverOutcomes.MonitorOutcome(s, t);
    case Read(t, count) => ReadingKeys(s, t, count);
  }

  lemma ReadingKeys(s: State, t: Ref, count: int)
    requires t in s.tasks
    ensures var s' := ReadStep(s, t, count).0; s'.tasks.Keys == s.tasks.Keys && s' == s.(tasks := s'.tasks)
  {
  }

  lemma StepKeys(s: State, cmd: Cmd)
    requires CmdOk(s, cmd) && Reachable(s)
    ensures KeysKept(s, cmd, Step(s, cmd).0)
  {
    hide Inv, Reachable, Step, CloseTask, KeysKept;
    ReachableInv(s);
    match cmd {
      case Connect(_, _, _, _, _, _) => ConnectingKeys(s, cmd);
      case ClientEndWriting(_) => TellingKeys(s, cmd);
      case ServerEndWriting(_, _) => TellingKeys(s, cmd);
      case Mmap(_, _) => TellingKeys(s, cmd);
      case ClientDisconnect(_) => LeavingKeys(s, cmd);
      case ServerDisconnect(_, _) => LeavingKeys(s, cmd);
      case ClientUnregister(_) => LeavingKeys(s, cmd);
      case ServerUnregister(_) => LeavingKeys(s, cmd);
      case Close(_) => ClosingKeys(s, cmd);
      case _ => RegisteringKeys(s, cmd);
    }
  }

  lemma ConnectingKeys(s: State, cmd: Cmd)
    requires CmdOk(s, cmd) && Reachable(s) && cmd.Connect?
    ensures KeysKept(s, cmd, Step(s, cmd).0)
  {
    hide Inv, Reachable, CmdOk, Step;
    DriverOutcomes.ConnectOutcome(s, cmd);
  }

  lemma ClosingKeys(s: State, cmd: Cmd)
    requires CmdOk(s, cmd) && Inv(s) && cmd.Close?
    ensures KeysKept(s, cmd, Step(s, cmd).0)
  {
    hide Inv, CloseTask;
    CloseTaskEffect(s, cmd.t);
  }

  lemma {:induction false} DestroysTake(servers: seq<(Ref, seq<Ref>)>, clients: nat)
    ensures servers != [] ==> Locks.Acquire(Locks.ServerList) in Locks.DestroyServers(servers)
    ensures clients > 0 ==> Locks.Acquire(Locks.ClientList) in Locks.DestroyClients(clients)
  {
    if servers != [] {
      assert Locks.ServerDestroy(servers[0].0)[0] == Locks.Acquire(Locks.ServerList);
    }
    if clients > 0 {
      LockTakes(Locks.ClientList);
    }
  }

  lemma ClosingTakes(s: State, cmd: Cmd)
    requires CmdOk(s, cmd) && Inv(s) && cmd.Close?
    ensures var s' := Step(s, cmd).0;
            && Takes(s, cmd, Locks.RegTaskList)
            && (s'.clients.Keys != s.clients.Keys ==> Takes(s, cmd, Locks.ClientList))
            && (s'.servers.Keys != s.servers.Keys ==> Takes(s, cmd, Locks.ServerList))
  {
    hide Inv, CloseTask, OnlyDisconnects, TrimmedSubs, TrimmedEntries, OwnIds, Touches, Locks.CleanupServers,
         Locks.CleanupClients, Locks.DestroyServers, Locks.DestroyClients, Seqs.Distinct, CleanedClients;
    var task := s.tasks[cmd.t];
    CloseTaskEffect(s, cmd.t);
    TaskMembers(s, cmd.t);
    DestroysTake(CleanedServers(s, task.servers), |task.clients|);
    LockTakes(Locks.RegTaskList);
    hide Locks.Locked;
  }

  lemma LeavingTakes(s: State, cmd: Cmd)
    requires CmdOk(s, cmd)
    ensures cmd.ClientUnregister? ==> Takes(s, cmd, Locks.ClientList)
    ensures cmd.ServerUnregister? ==> Takes(s, cmd, Locks.ServerList)
  {
    hide ConnOfClientId, TasksBehind, LookedAt, Locks.DeleteConnection, Locks.NotificationSend,
         Locks.ServerCleanupConnections, Locks.FindServerById;
    LockTakes(Locks.ClientList);
    if cmd.ServerUnregister? {
      assert Locks.ServerDestroy(ServerById(s, cmd.serverId))[0] == Locks.Acquire(Locks.ServerList);
    }
    hide Locks.Locked;
  }

  lemma ConnectingTakes(s: State, cmd: Cmd)
    requires CmdOk(s, cmd) && Reachable(s) && cmd.Connect?
    ensures var s' := Step(s, cmd).0;
            && (s'.pools.Keys != s.pools.Keys ==> Takes(s, cmd, Locks.ShmList))
            && forall k | k in s'.conns && k !in s.conns ::
                 Takes(s, cmd, Locks.ConnList) && Takes(s, cmd, Locks.ServerConns(s'.conns[k].server))
  {
    hide Inv, Reachable, FreeSub, ServerByName, ConnectStep, DriverOutcomes.FirstFree, Seqs.Distinct;
    DriverOutcomes.ConnectOutcome(s, cmd);
    PoolsOnlyIfNeeded(s, cmd);
    if Step(s, cmd).1 == 0 {
      ConnectsNamed(s, cmd);
    }
    var r := ServerByName(s, cmd.name);
    LockTakes(Locks.ShmList);
    LockTakes(Locks.ConnList);
    assert Locks.InServer(r)[1] == Locks.Acquire(Locks.ServerConns(r));
    hide Locks.Locked, Locks.InServer;
  }

  lemma PoolsOnlyIfNeeded(s: State, cmd: Cmd)
    requires CmdOk(s, cmd) && cmd.Connect?
    ensures FreeSub(s, s.poolList) != NULL ==> Step(s, cmd).0.pools == s.pools
  {
    hide FreeSub, ServerByName, ClientById;
  }

  lemma ConnectsNamed(s: State, cmd: Cmd)
    requires CmdOk(s, cmd) && Reachable(s) && cmd.Connect? && Step(s, cmd).1 == 0
    ensures cmd.k in Step(s, cmd).0.conns && Step(s, cmd).0.conns[cmd.k].server == ServerByName(s, cmd.name)
  {
    hide Linked, Listed, Owned, Pooled, Identified, Separate, Enumerated, Reachable, FreeSub, ConnectStep,
         Seqs.Distinct, DriverOutcomes.FirstFree;
    DriverOutcomes.ConnectOutcome(s, cmd);
    ReachableInv(s);
    DriverOutcomes.NameSearch(s, cmd.name);
  }

  // ---------- all together ----------

  /** Connection k is made or goes in the course of the call. */
  predicate Changes(s: State, s': State, k: Ref) {
    (k in s.conns) != (k in s'.conns)
  }

  /** No call changes a list without its mutex: the global lists of tasks, clients, servers, pools and connections, the
      connection list of a server, the notifications of a task. */
  lemma ChangesLocked(s: State, cmd: Cmd)
    requires CmdOk(s, cmd) && Reachable(s)
    ensures var s' := Step(s, cmd).0;
            && (s'.tasks.Keys != s.tasks.Keys ==> Takes(s, cmd, Locks.RegTaskList))
            && (s'.clients.Keys != s.clients.Keys ==> Takes(s, cmd, Locks.ClientList))
            && (s'.servers.Keys != s.servers.Keys ==> Takes(s, cmd, Locks.ServerList))
            && (s'.pools.Keys != s.pools.Keys ==> Takes(s, cmd, Locks.ShmList))
            && (forall k | Changes(s, s', k) ::
                  && Takes(s, cmd, Locks.ConnList)
                  && Takes(s, cmd, Locks.ServerConns((if k in s.conns then s else s').conns[k].server)))
            && (forall t | t in s.tasks && t in s'.tasks ::
                  && (s'.tasks[t].queue != s.tasks[t].queue ==> Takes(s, cmd, Locks.NotifList(t)))
                  && (|s'.tasks[t].queue| > |s.tasks[t].queue| ==> Takes(s, cmd, Locks.WaitQueue(t))))
  {
    hide Inv, Reachable, CmdOk, Step, Takes;
    var s' := Step(s, cmd).0;
    ListsLocked(s, cmd);
    forall k | Changes(s, s', k)
      ensures Takes(s, cmd, Locks.ConnList)
      ensures Takes(s, cmd, Locks.ServerConns((if k in s.conns then s else s').conns[k].server))
    {
      ConnLocked(s, cmd, k);
    }
    forall t | t in s.tasks && t in s'.tasks
      ensures s'.tasks[t].queue != s.tasks[t].queue ==> Takes(s, cmd, Locks.NotifList(t))
      ensures |s'.tasks[t].queue| > |s.tasks[t].queue| ==> Takes(s, cmd, Locks.WaitQueue(t))
    {
      QueueLocked(s, cmd, t);
    }
  }

  lemma ListsLocked(s: State, cmd: Cmd)
    requires CmdOk(s, cmd) && Reachable(s)
    ensures var s' := Step(s, cmd).0;
            && (s'.tasks.Keys != s.tasks.Keys ==> Takes(s, cmd, Locks.RegTaskList))
            && (s'.clients.Keys != s.clients.Keys ==> Takes(s, cmd, Locks.ClientList))
            && (s'.servers.Keys != s.servers.Keys ==> Takes(s, cmd, Locks.ServerList))
            && (s'.pools.Keys != s.pools.Keys ==> Takes(s, cmd, Locks.ShmList))
  {
    hide Inv, Reachable, CmdOk, Step, Takes;
    ReachableInv(s);
    StepKeys(s, cmd);
    LeavingTakes(s, cmd);
    RegisteringTakes(s, cmd);
    if cmd.Close? {
      ClosingTakes(s, cmd);
    } else if cmd.Connect? {
      ConnectingTakes(s, cmd);
    }
  }

  lemma RegisteringTakes(s: State, cmd: Cmd)
    requires CmdOk(s, cmd)
    ensures cmd.Open? ==> Takes(s, cmd, Locks.RegTaskList)
    ensures cmd.RegisterClient? ==> Takes(s, cmd, Locks.ClientList)
    ensures cmd.RegisterServer? ==> Takes(s, cmd, Locks.ServerList)
  {
    LockTakes(Locks.RegTaskList);
    LockTakes(Locks.ClientList);
    LockTakes(Locks.ServerList);
    hide Locks.Locked;
  }

  lemma ConnLocked(s: State, cmd: Cmd, k: Ref)
    requires CmdOk(s, cmd) && Reachable(s) && Changes(s, Step(s, cmd).0, k)
    ensures Takes(s, cmd, Locks.ConnList)
    ensures var s' := Step(s, cmd).0; Takes(s, cmd, Locks.ServerConns((if k in s.conns then s else s').conns[k].server))
  {
    hide Inv, Reachable, CmdOk, Step, OperationOf, Locks.ScriptOf, Locks.DeleteConnection, ClientTaskOf, ServerTaskOf;
    if k in s.conns {
      GoneDeletes(s, cmd, k);
      DeletionTakes(ClientTaskOf(s, k), ServerTaskOf(s, k), ServerOf(s, k));
    } else {
      OnlyConnectAdds(s, cmd, k);
      ConnectingTakes(s, cmd);
    }
  }

  lemma OnlyConnectAdds(s: State, cmd: Cmd, k: Ref)
    requires CmdOk(s, cmd) && Reachable(s) && k in Step(s, cmd).0.conns && k !in s.conns
    ensures cmd.Connect?
  {
    hide Inv, Reachable, CmdOk, Step;
    ReachableInv(s);
    match cmd
    case ClientDisconnect(_) => DriverOutcomes.DisconnectOutcome(s, cmd);
    case ServerDisconnect(_, _) => DriverOutcomes.DisconnectOutcome(s, cmd);
    case ClientUnregister(_) => DriverOutcomes.UnregisterOutcome(s, cmd);
    case ServerUnregister(_) => DriverOutcomes.UnregisterOutcome(s, cmd);
    case Close(_) => CloseRemoves(s, cmd);
    case _ => OthersStay(s, cmd);
  }

  lemma CloseRemoves(s: State, cmd: Cmd)
    requires CmdOk(s, cmd) && Inv(s) && cmd.Close?
    ensures Step(s, cmd).0.conns.Keys <= s.conns.Keys
  {
    hide Inv, CloseTask, Touches, OwnIds, OnlyDisconnects, TrimmedSubs, TrimmedEntries;
    CloseTaskEffect(s, cmd.t);
  }
}
