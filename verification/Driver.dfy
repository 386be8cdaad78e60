/** The driver itself: its global state and the routines that update it, each proved against the
    transition that DriverModel or DriverCommands gives for it. */
module DriverObject {
  import opened Seqs
  import opened IdSpace
  import opened DriverModel
  import opened DriverInvariant
  import opened DriverCommands
  import opened DriverFacts
  import opened DriverLinks
  import opened Snapshot
  import DriverTeardown
  import DriverClose
  import DriverSteps

  class Driver {
    var tasks: map<Ref, Task>
    var clients: map<Ref, Client>
    var servers: map<Ref, DriverModel.Server>
    var conns: map<Ref, Conn>
    var entries: map<Ref, Ref>
    var subs: map<Ref, Sub>
    var pools: map<Ref, Pool>
    var taskList: seq<Ref>
    var clientList: seq<Ref>
    var serverList: seq<Ref>
    var connList: seq<Ref>
    var poolList: seq<Ref>
    var ids: set<int>

    function Abs(): State
      reads this
    {
      State(tasks, clients, servers, conns, entries, subs, pools, taskList, clientList, serverList, connList,
          poolList, ids)
    }

    constructor ()
      ensures Abs() == INITIAL && Inv(Abs())
    {
      tasks, clients, servers, conns, entries, subs, pools := map[], map[], map[], map[], map[], map[], map[];
      taskList, clientList, serverList, connList, poolList, ids := [], [], [], [], [], {};
      new;
      DriverSteps.InitialInv();
    }

    // ---------- notifications ----------

    method AddNotification(t: Ref, n: Notif)
      requires t in tasks
      modifies this`tasks
      ensures Abs() == Push(old(Abs()), t, n)
    {
      tasks := tasks[t := tasks[t].(queue := tasks[t].queue + [n])];
      tasks := tasks[t := tasks[t].(pending := tasks[t].pending + 1)];
    }

    method NotificationSend(sender: Sender, kind: Kind, k: Ref) returns (ret: int)
      requires k != NULL ==> Sendable(Abs(), k)
      modifies this`tasks
      ensures k == NULL ==> Abs() == old(Abs()) && ret == -ENOPARAM
      ensures k != NULL ==> (Abs(), ret) == Send(old(Abs()), sender, kind, k)
    {
      if k == NULL {
        return -ENOPARAM;
      }
      var con := conns[k];
      if con.mem == NULL {
        return -ENOPARAM;
      }
      var subId := subs[con.mem].id;
      var senderId, receiverId, receiver: Ref;
      match sender {
        case CLIENT =>
          if con.client == NULL {
            return -ENOENT;
          }
          senderId := clients[con.client].id;
          receiverId := if con.server == NULL then -1 else servers[con.server].id;
          receiver := if con.server == NULL then NULL else servers[con.server].task;
        case SERVER =>
          if con.server == NULL {
            return -ENOENT;
          }
          senderId := servers[con.server].id;
          receiverId := if con.client == NULL then -1 else clients[con.client].id;
          receiver := if con.client == NULL then NULL else clients[con.client].task;
      }
      if !ValidId(senderId) || !ValidId(subId) || !ValidId(receiverId) {
        return -EFAULT;
      }
      AddNotification(receiver, Notif(sender, kind, subId, senderId, receiverId));
      ret := 0;
    }

    // ---------- deleting a connection ----------

    /** Frees the sub-memory for other connections. */
    method SafeDisconnectSubmem(k: Ref)
      requires k in conns && (conns[k].mem == NULL || conns[k].mem in subs)
      requires NULL !in subs && forall u <- subs :: subs[u].conn == k ==> u == conns[k].mem
      modifies this`subs, this`conns
      ensures subs == SubsWithout(old(subs), k)
      ensures k in conns && conns[k] == old(conns)[k].(mem := NULL) && conns - {k} == old(conns) - {k}
    {
      CutSubs(subs, k, conns[k].mem);
      var u := conns[k].mem;
      if u != NULL {
        if subs[u].conn == k {
          subs := subs[u := subs[u].(conn := NULL)];
        }
        conns := conns[k := conns[k].(mem := NULL)];
      }
    }

    method ServerFindConn(r: Ref, k: Ref) returns (e: Ref)
      requires r in servers && NULL !in entries && forall x <- servers[r].entries :: x in entries
      ensures e == FindEntry(servers[r].entries, entries, k)
    {
      var list := servers[r].entries;
      var i := 0;
      while i < |list|
        invariant 0 <= i <= |list|
        invariant FindEntry(list, entries, k) == FindEntry(list[i..], entries, k)
      {
        if entries[list[i]] == k {
          return list[i];
        }
        assert list[i..][1..] == list[i + 1..];
        i := i + 1;
      }
      e := NULL;
    }

    /** delete_connection. Its caller may have cut the client's pointer or freed the list entry already. */
    method DeleteConnection(k: Ref)
      requires k != NULL ==> OnlyLinks(Abs(), k)
      modifies this
      ensures k == NULL ==> Abs() == old(Abs())
      ensures k != NULL ==> Abs() == Unlink(old(Abs()), k)
    {
      if k == NULL {
        return;
      }
      TellBothSides(k);
      Detach(k);
    }

    /** The two notifications of delete_connection; their results are only logged. */
    method TellBothSides(k: Ref)
      requires k != NULL && OnlyLinks(Abs(), k)
      modifies this`tasks
      ensures Sendable(Send(old(Abs()), SERVER, REMOTE_DISCONNECT, k).0, k)
      ensures Abs() == Send(Send(old(Abs()), SERVER, REMOTE_DISCONNECT, k).0, CLIENT, REMOTE_DISCONNECT, k).0
      ensures OnlyLinks(Abs(), k)
    {
      hide Send, OnlyEntry;
      ghost var s := Abs();
      SendKeeps(s, SERVER, k);
      var ret := NotificationSend(SERVER, REMOTE_DISCONNECT, k);
      SendKeeps(Abs(), CLIENT, k);
      ret := NotificationSend(CLIENT, REMOTE_DISCONNECT, k);
    }

    method Detach(k: Ref)
      requires k != NULL && OnlyLinks(Abs(), k)
      modifies this
      ensures Abs() == DropConn(old(Abs()), k)
    {
      hide ClientsWithout, SubsWithout, ServersWithout, EntriesWithout, OnlyEntry, Remove;
      SafeDisconnectSubmem(k);
      DetachClient(k);
      DetachServer(k);
      connList := Remove(connList, k);
      conns := conns - {k};
    }

    /** The part of delete_connection that clears the client's pointer. */
    method DetachClient(k: Ref)
      requires k in conns && NULL !in clients && (conns[k].client == NULL || conns[k].client in clients)
      requires forall c <- clients :: clients[c].conn == k ==> c == conns[k].client
      modifies this`clients, this`conns
      ensures clients == ClientsWithout(old(clients), k)
      ensures k in conns && conns[k] == old(conns)[k].(client := NULL) && conns - {k} == old(conns) - {k}
    {
      CutClients(clients, k, conns[k].client);
      var c := conns[k].client;
      if c != NULL {
        if clients[c].conn == k {
          clients := clients[c := clients[c].(conn := NULL)];
        }
        conns := conns[k := conns[k].(client := NULL)];
      }
    }

    /** The part of delete_connection that takes the connection off the server's list. */
    method DetachServer(k: Ref)
      requires k in conns && NULL !in servers && (conns[k].server == NULL || conns[k].server in servers)
      requires OnlyEntry(servers, entries, k, conns[k].server)
      modifies this`servers, this`entries, this`conns
      ensures servers == ServersWithout(old(servers), old(entries), k)
      ensures entries == EntriesWithout(old(entries), k)
      ensures k in conns && conns[k] == old(conns)[k].(server := NULL) && conns - {k} == old(conns) - {k}
    {
      CutServers(servers, entries, k, conns[k].server);
      CutEntries(servers, entries, k, conns[k].server);
      var r := conns[k].server;
      if r != NULL {
        var e := ServerFindConn(r, k);
        if e != NULL {
          servers := servers[r := servers[r].(entries := Remove(servers[r].entries, e))];
          entries := entries - {e};
        }
        conns := conns[k := conns[k].(server := NULL)];
      }
    }

    // ---------- deleting the connections of a client or a server ----------

    method ClientCleanupConnection(c: Ref)
      requires Inv(Abs()) && (c != NULL ==> c in clients)
      modifies this
      ensures c == NULL ==> Abs() == old(Abs())
      ensures c != NULL ==> Abs() == CleanClient(old(Abs()), c) && Inv(Abs())
    {
      hide Inv, OnlyLinks, Unlink, UnlinkAll;
      if c == NULL {
        return;
      }
      CleanClientInv(Abs(), c);
      var k := clients[c].conn;
      if k != NULL {
        ClientCutFirst(Abs(), c);
        clients := clients[c := clients[c].(conn := NULL)];
        DeleteConnection(k);
      }
    }

    /** Deletes the connection behind list entry e of server r, freeing the entry first. */
    method ServerCleanupConnection(r: Ref, e: Ref)
      requires Inv(Abs()) && r in servers && e in entries && entries[e] in conns
      modifies this
      ensures old(conns[entries[e]].server) != r ==> Abs() == old(Abs())
      ensures old(conns[entries[e]].server) == r ==>
                Sendable(old(Abs()), old(entries[e])) && Abs() == Unlink(old(Abs()), old(entries[e])) && Inv(Abs())
    {
      hide Inv, OnlyLinks, Unlink, Remove, Sendable;
      if conns[entries[e]].server != r {
        return;
      }
      EntryCutFirst(Abs(), e);
      var k := entries[e];
      servers := servers[r := servers[r].(entries := Remove(servers[r].entries, e))];
      entries := entries - {e};
      DeleteConnection(k);
    }

    /** The list is walked with the successor saved before each deletion. The successor is still on the list
        afterwards, the list gets shorter each time and is empty in the end; other lists stay as they are. */
    method ServerCleanupConnections(r: Ref)
      requires Inv(Abs()) && r in servers
      modifies this
      ensures Abs() == CleanServer(old(Abs()), r) && Inv(Abs())
      ensures r in servers && servers == old(servers)[r := old(servers)[r].(entries := [])]
      ensures conns == old(conns) - set k | k in old(conns) && old(conns)[k].server == r
    {
      hide Inv, Unlink, CleanServer, Sendable;
      ghost var s := Abs();
      DriverTeardown.CleanServerTornDown(s, r);
      EntriesDistinct(s, r);
      var pos := Next(servers[r].entries, NULL);
      var n := Next(servers[r].entries, pos);
      while pos != NULL
        invariant Inv(Abs()) && r in servers && CleanServer(Abs(), r) == CleanServer(s, r)
        invariant servers == old(servers)[r := servers[r]] &&
                servers[r] == old(servers)[r].(entries := servers[r].entries)
        invariant NULL !in servers[r].entries
        invariant pos == Next(servers[r].entries, NULL) && n == Next(servers[r].entries, pos)
        decreases |servers[r].entries|
      {
        UnlinkFirst(Abs(), r);
        CleanServerFirst(Abs(), r);
        ServerCleanupConnection(r, pos);
        EntriesDistinct(Abs(), r);
        pos := n;
        n := Next(servers[r].entries, n);
      }
      NothingToClean(Abs(), r);
    }

    // ---------- identifiers and pools ----------

    method TakeId() returns (id: int)
      modifies this`ids
      ensures id == GenerateId(old(ids)) && ids == Taken(old(ids))
    {
      id := GenerateId(ids);
      if id < 0 {
        return;
      }
      ids := ids + {id};
    }

    method FreeId(id: int)
      modifies this`ids
      ensures ids == Freed(old(ids), id)
    {
      if !ValidId(id) {
        return;
      }
      ids := ids - {id};
    }

    method SubmemInit(u: Ref)
      modifies this`subs, this`ids
      ensures Abs() == AddSub(old(Abs()), u)
    {
      hide GenerateId, Taken;
      var id := TakeId();
      subs := subs[u := Sub(id, NULL)];
    }

    method ShmCreate(p: Ref, us: seq<Ref>)
      modifies this`subs, this`pools, this`poolList, this`ids
      ensures Abs() == AddPool(old(Abs()), p, us)
    {
      hide GenerateId, Taken, AddSub;
      ghost var s := Abs();
      var i := 0;
      while i < |us|
        invariant 0 <= i <= |us|
        invariant pools == old(pools) && poolList == old(poolList)
        invariant AddSubs(Abs(), us[i..]) == AddSubs(s, us)
      {
        assert us[i..][1..] == us[i + 1..];
        SubmemInit(us[i]);
        i := i + 1;
      }
      assert Abs() == AddSubs(s, us);
      var id := TakeId();
      pools := pools[p := Pool(id, us)];
      poolList := [p] + poolList;
    }

    method ShmGetFreeSubmem(p: Ref) returns (u: Ref)
      requires p in pools && forall x <- pools[p].subs :: x in subs
      ensures u == FreeIn(Abs(), pools[p].subs)
    {
      var us := pools[p].subs;
      var i := 0;
      while i < |us|
        invariant 0 <= i <= |us|
        invariant FreeIn(Abs(), us) == FreeIn(Abs(), us[i..])
      {
        if subs[us[i]].conn == NULL {
          return us[i];
        }
        assert us[i..][1..] == us[i + 1..];
        i := i + 1;
      }
      u := NULL;
    }

    /** First fit through the pools, newest first; a new pool when all sub-memories are taken. */
    method GetFreeSubmem(p: Ref, us: seq<Ref>) returns (u: Ref)
      requires Inv(Abs()) && p !in pools && |us| == SHM_POOL_SIZE && Distinct(us)
      requires forall x <- us :: x != NULL && x !in subs
      modifies this`subs, this`pools, this`poolList, this`ids
      ensures Abs() == WithRoom(old(Abs()), p, us) && u == FreeSub(Abs(), poolList)
    {
      hide Inv, FreeIn, AddPool, Distinct;
      PoolsLive(Abs());
      var list := poolList;
      var i := 0;
      while i < |list|
        invariant 0 <= i <= |list|
        invariant Abs() == old(Abs())
        invariant FreeSub(Abs(), list) == FreeSub(Abs(), list[i..])
      {
        assert list[i] in list;
        u := ShmGetFreeSubmem(list[i]);
        if u != NULL {
          return;
        }
        assert list[i..][1..] == list[i + 1..];
        i := i + 1;
      }
      DriverSteps.NewPoolFree(Abs(), p, us);
      NewPoolLive(Abs(), p, us);
      ShmCreate(p, us);
      u := ShmGetFreeSubmem(p);
    }

    // ---------- searches ----------

    method FindClientById(id: int) returns (c: Ref)
      requires Inv(Abs())
      ensures c == ClientById(Abs(), id)
    {
      hide Inv;
      ListsLive(Abs());
      if !ValidId(id) {
        return NULL;
      }
      var i := 0;
      while i < |clientList|
        invariant 0 <= i <= |clientList|
        invariant FindClient(Abs(), clientList, id) == FindClient(Abs(), clientList[i..], id)
      {
        if clients[clientList[i]].id == id {
          return clientList[i];
        }
        assert clientList[i..][1..] == clientList[i + 1..];
        i := i + 1;
      }
      c := NULL;
    }

    method FindServerById(id: int) returns (r: Ref)
      requires Inv(Abs())
      ensures r == ServerById(Abs(), id)
    {
      hide Inv;
      ListsLive(Abs());
      if !ValidId(id) {
        return NULL;
      }
      var i := 0;
      while i < |serverList|
        invariant 0 <= i <= |serverList|
        invariant FindServer(Abs(), serverList, id) == FindServer(Abs(), serverList[i..], id)
      {
        if servers[serverList[i]].id == id {
          return serverList[i];
        }
        assert serverList[i..][1..] == serverList[i + 1..];
        i := i + 1;
      }
      r := NULL;
    }

    method FindServerByName(name: string) returns (r: Ref)
      requires Inv(Abs())
      ensures r == ServerByName(Abs(), name)
    {
      hide Inv;
      ListsLive(Abs());
      var i := 0;
      while i < |serverList|
        invariant 0 <= i <= |serverList|
        invariant FindName(Abs(), serverList, name) == FindName(Abs(), serverList[i..], name)
      {
        if servers[serverList[i]].name == name {
          return serverList[i];
        }
        assert serverList[i..][1..] == serverList[i + 1..];
        i := i + 1;
      }
      r := NULL;
    }

    method ServerFindConnBySubMemId(r: Ref, id: int) returns (e: Ref)
      requires Inv(Abs()) && r in servers
      ensures e == EntryByMem(Abs(), r, id)
    {
      hide Inv;
      EntriesLive(Abs(), r);
      if !ValidId(id) {
        return NULL;
      }
      var list := servers[r].entries;
      var i := 0;
      while i < |list|
        invariant 0 <= i <= |list|
        invariant FindMem(Abs(), list, id) == FindMem(Abs(), list[i..], id)
      {
        if subs[conns[entries[list[i]]].mem].id == id {
          return list[i];
        }
        assert list[i..][1..] == list[i + 1..];
        i := i + 1;
      }
      e := NULL;
    }

    // ---------- connecting ----------

    method CreateConnection(c: Ref, r: Ref, u: Ref, k: Ref)
      modifies this`conns, this`connList
      ensures conns == old(conns)[k := Conn(c, r, u, false)] && connList == old(connList) + [k]
    {
      conns := conns[k := Conn(c, r, u, false)];
      connList := connList + [k];
    }

    /** client_add_connection refuses a client that has a connection; the check before connecting rules it out. */
    method ClientAddConnection(c: Ref, k: Ref)
      requires c in clients
      modifies this`clients
      ensures clients ==
                if old(clients)[c].conn != NULL then old(clients) else old(clients)[c := old(clients)[c].(conn := k)]
    {
      if clients[c].conn != NULL {
        return;
      }
      clients := clients[c := clients[c].(conn := k)];
    }

    method SubmemAddConnection(u: Ref, k: Ref)
      requires u in subs
      modifies this`subs
      ensures subs == old(subs)[u := old(subs)[u].(conn := k)]
    {
      subs := subs[u := subs[u].(conn := k)];
    }

    method ServerAddConnection(r: Ref, k: Ref, e: Ref)
      requires r in servers
      modifies this`entries, this`servers
      ensures entries == old(entries)[e := k]
      ensures servers == old(servers)[r := old(servers)[r].(entries := [e] + old(servers)[r].entries)]
    {
      entries := entries[e := k];
      servers := servers[r := servers[r].(entries := [e] + servers[r].entries)];
    }

    method ConnectClientToServer(r: Ref, c: Ref, k: Ref, e: Ref, p: Ref, us: seq<Ref>)
      requires Inv(Abs()) && r in servers && c in clients && clients[c].conn == NULL
      requires p != NULL && p !in pools && |us| == SHM_POOL_SIZE && Distinct(us)
      requires forall x <- us :: x != NULL && x !in subs
      modifies this
      ensures Abs() == ConnectTo(old(Abs()), c, r, k, e, p, us)
    {
      hide Inv, FreeSub, WithRoom, Distinct, AddConn;
      RoomToConnect(Abs(), c, r, p, us);
      var u := GetFreeSubmem(p, us);
      LinkConnection(c, r, u, k, e);
    }

    /** The second half of connect_client_to_server: the object and the pointers back to it. */
    method LinkConnection(c: Ref, r: Ref, u: Ref, k: Ref, e: Ref)
      requires c in clients && clients[c].conn == NULL && r in servers && u in subs
      modifies this
      ensures Abs() == AddConn(old(Abs()), c, r, u, k, e)
    {
      CreateConnection(c, r, u, k);
      ClientAddConnection(c, k);
      SubmemAddConnection(u, k);
      ServerAddConnection(r, k, e);
    }

    // ---------- servers, clients and tasks come and go ----------

    method ServerCreate(r: Ref, name: string)
      modifies this`servers, this`serverList, this`ids
      ensures servers == old(servers)[r := DriverModel.Server(GenerateId(old(ids)), name, NULL, [])]
      ensures serverList == old(serverList) + [r] && ids == Taken(old(ids))
    {
      hide GenerateId, Taken;
      var id := TakeId();
      servers := servers[r := DriverModel.Server(id, name, NULL, [])];
      serverList := serverList + [r];
    }

    method ClientCreate(c: Ref)
      modifies this`clients, this`clientList, this`ids
      ensures clients == old(clients)[c := Client(GenerateId(old(ids)), NULL, NULL)]
      ensures clientList == old(clientList) + [c] && ids == Taken(old(ids))
    {
      hide GenerateId, Taken;
      var id := TakeId();
      clients := clients[c := Client(id, NULL, NULL)];
      clientList := clientList + [c];
    }

    predicate CanAddServer(t: Ref)
      requires t in tasks
      reads this`tasks
    {
      !tasks[t].monitor && tasks[t].numServers < MAX_SERVERS_PER_PID
    }

    predicate CanAddClient(t: Ref)
      requires t in tasks
      reads this`tasks
    {
      !tasks[t].monitor && tasks[t].numClients < MAX_CLIENTS_PER_PID
    }

    /** reg_task_add_server with server_add_task: a server that has a task keeps it. */
    method RegTaskAddServer(t: Ref, r: Ref)
      requires t in tasks && r in servers
      modifies this`tasks, this`servers
      ensures tasks == if old(CanAddServer(t))
                       then old(tasks)[t := old(tasks)[t].(servers := [r] + old(tasks)[t].servers,
                           numServers := old(tasks)[t].numServers + 1)]
                       else old(tasks)
      ensures servers == if old(CanAddServer(t)) && old(servers)[r].task == NULL
                         then old(servers)[r := old(servers)[r].(task := t)] else old(servers)
    {
      if !CanAddServer(t) {
        return;
      }
      tasks := tasks[t := tasks[t].(servers := [r] + tasks[t].servers)];
      if servers[r].task == NULL {
        servers := servers[r := servers[r].(task := t)];
      }
      tasks := tasks[t := tasks[t].(numServers := tasks[t].numServers + 1)];
    }

    method RegTaskAddClient(t: Ref, c: Ref)
      requires t in tasks && c in clients
      modifies this`tasks, this`clients
      ensures tasks == if old(CanAddClient(t))
                       then old(tasks)[t := old(tasks)[t].(clients := [c] + old(tasks)[t].clients,
                           numClients := old(tasks)[t].numClients + 1)]
                       else old(tasks)
      ensures clients == if old(CanAddClient(t)) && old(clients)[c].task == NULL
                         then old(clients)[c := old(clients)[c].(task := t)] else old(clients)
    {
      if !CanAddClient(t) {
        return;
      }
      tasks := tasks[t := tasks[t].(clients := [c] + tasks[t].clients)];
      if clients[c].task == NULL {
        clients := clients[c := clients[c].(task := t)];
      }
      tasks := tasks[t := tasks[t].(numClients := tasks[t].numClients + 1)];
    }

    /** reg_task_delete_server with server_destroy. */
    method RegTaskDeleteServer(r: Ref)
      requires r in servers && servers[r].task in tasks
      modifies this`tasks, this`servers, this`serverList, this`ids
      ensures Abs() == RemoveServer(old(Abs()), r)
    {
      hide Remove, Freed;
      var t := servers[r].task;
      tasks := tasks[t := tasks[t].(servers := Remove(tasks[t].servers, r))];
      serverList := Remove(serverList, r);
      FreeId(servers[r].id);
      servers := servers - {r};
      tasks := tasks[t := tasks[t].(numServers := tasks[t].numServers - 1)];
    }

    /** reg_task_delete_client with client_destroy. */
    method RegTaskDeleteClient(c: Ref)
      requires c in clients && clients[c].task in tasks
      modifies this`tasks, this`clients, this`clientList, this`ids
      ensures Abs() == RemoveClient(old(Abs()), c)
    {
      hide Remove, Freed;
      var t := clients[c].task;
      tasks := tasks[t := tasks[t].(clients := Remove(tasks[t].clients, c))];
      clientList := Remove(clientList, c);
      FreeId(clients[c].id);
      clients := clients - {c};
      tasks := tasks[t := tasks[t].(numClients := tasks[t].numClients - 1)];
    }

    method RegTaskCreate(process: nat, t: Ref) returns (ok: bool)
      requires Inv(Abs())
      modifies this`tasks, this`taskList
      ensures ok == !Registered(old(Abs()), process)
      ensures Abs() == if ok then AddTask(old(Abs()), t, process) else old(Abs())
    {
      hide Inv;
      ListsLive(Abs());
      var i := 0;
      while i < |taskList|
        invariant 0 <= i <= |taskList|
        invariant forall j | 0 <= j < i :: tasks[taskList[j]].process != process
      {
        if tasks[taskList[i]].process == process {
          return false;
        }
        i := i + 1;
      }
      tasks := tasks[t := Task(process, false, [], 0, [], 0, [], 0)];
      taskList := [t] + taskList;
      ok := true;
    }

    method RegTaskSetMonitor(t: Ref) returns (ret: int)
      requires Inv(Abs()) && t in tasks
      modifies this`tasks
      ensures (Abs(), ret) == RegisterMonitorStep(old(Abs()), t)
      ensures tasks == if ret == 0 then old(tasks)[t := old(tasks)[t].(monitor := true)] else old(tasks)
    {
      hide Inv;
      if tasks[t].numClients > 0 || tasks[t].numServers > 0 {
        return -EFAULT;
      }
      ListsLive(Abs());
      var i := 0;
      while i < |taskList|
        invariant 0 <= i <= |taskList|
        invariant forall j | 0 <= j < i :: !tasks[taskList[j]].monitor
      {
        if tasks[taskList[i]].monitor {
          return -EEXIST;
        }
        i := i + 1;
      }
      tasks := tasks[t := tasks[t].(monitor := true)];
      ret := 0;
    }

    // ---------- closing a task ----------

    method CleanServersOf(t: Ref)
      requires Inv(Abs()) && t in tasks
      modifies this
      ensures Abs() == CleanServers(old(Abs()), old(tasks[t].servers)) && Inv(Abs())
      ensures t in tasks && tasks[t].servers == old(tasks[t].servers) && tasks[t].clients == old(tasks[t].clients)
    {
      hide Inv, CleanServer;
      ghost var s, rs := Abs(), tasks[t].servers;
      var i := 0;
      while i < |tasks[t].servers|
        invariant 0 <= i <= |rs|
        invariant Inv(Abs()) && t in tasks && tasks[t].servers == rs && tasks[t].clients == s.tasks[t].clients
        invariant CleanServers(Abs(), rs[i..]) == CleanServers(s, rs)
      {
        TaskServersLive(Abs(), t);
        assert rs[i] in rs && rs[i..][1..] == rs[i + 1..];
        CleanServerTask(Abs(), rs[i], t);
        ServerCleanupConnections(tasks[t].servers[i]);
        i := i + 1;
      }
    }

    method CleanClientsOf(t: Ref)
      requires Inv(Abs()) && t in tasks
      modifies this
      ensures Abs() == CleanClients(old(Abs()), old(tasks[t].clients)) && Inv(Abs())
      ensures t in tasks && tasks[t].servers == old(tasks[t].servers) && tasks[t].clients == old(tasks[t].clients)
    {
      hide Inv, CleanClient;
      ghost var s, cs := Abs(), tasks[t].clients;
      var i := 0;
      while i < |tasks[t].clients|
        invariant 0 <= i <= |cs|
        invariant Inv(Abs()) && t in tasks && tasks[t].clients == cs && tasks[t].servers == s.tasks[t].servers
        invariant CleanClients(Abs(), cs[i..]) == CleanClients(s, cs)
      {
        TaskServersLive(Abs(), t);
        assert cs[i] in cs && cs[i..][1..] == cs[i + 1..];
        CleanClientTask(Abs(), cs[i], t);
        ClientCleanupConnection(tasks[t].clients[i]);
        i := i + 1;
      }
    }

    method DestroyServersOf(t: Ref)
      requires Inv(Abs()) && t in tasks && forall k <- conns :: conns[k].server !in tasks[t].servers
      modifies this
      ensures Abs() == DestroyServers(old(Abs()), old(tasks[t].servers)) && Inv(Abs())
      ensures t in tasks && tasks[t].clients == old(tasks[t].clients) && conns == old(conns)
    {
      hide Inv, RemoveServer, DestroyServers;
      ghost var s := Abs();
      TaskServersLive(s, t);
      var pos := Next(tasks[t].servers, NULL);
      var n := Next(tasks[t].servers, pos);
      while pos != NULL
        invariant Inv(Abs()) && t in tasks && NULL !in tasks[t].servers
        invariant DestroyServers(Abs(), tasks[t].servers) == DestroyServers(s, s.tasks[t].servers)
        invariant conns == old(conns) && tasks[t].clients == s.tasks[t].clients
        invariant forall k <- conns :: conns[k].server !in tasks[t].servers
        invariant pos == Next(tasks[t].servers, NULL) && n == Next(tasks[t].servers, pos)
        decreases |tasks[t].servers|
      {
        DestroyFirstServer(Abs(), t);
        RegTaskDeleteServer(pos);
        pos := n;
        n := Next(tasks[t].servers, n);
      }
      NothingToDestroy(Abs());
    }

    method DestroyClientsOf(t: Ref)
      requires Inv(Abs()) && t in tasks && forall k <- conns :: conns[k].client !in tasks[t].clients
      modifies this
      ensures Abs() == DestroyClients(old(Abs()), old(tasks[t].clients)) && Inv(Abs())
      ensures t in tasks && conns == old(conns)
    {
      hide Inv, RemoveClient, DestroyClients;
      ghost var s := Abs();
      TaskServersLive(s, t);
      var pos := Next(tasks[t].clients, NULL);
      var n := Next(tasks[t].clients, pos);
      while pos != NULL
        invariant Inv(Abs()) && t in tasks && NULL !in tasks[t].clients
        invariant DestroyClients(Abs(), tasks[t].clients) == DestroyClients(s, s.tasks[t].clients)
        invariant conns == old(conns)
        invariant forall k <- conns :: conns[k].client !in tasks[t].clients
        invariant pos == Next(tasks[t].clients, NULL) && n == Next(tasks[t].clients, pos)
        decreases |tasks[t].clients|
      {
        DestroyFirstClient(Abs(), t);
        RegTaskDeleteClient(pos);
        pos := n;
        n := Next(tasks[t].clients, n);
      }
      NothingToDestroy(Abs());
    }

    /** The notifications nobody will read. */
    method DropNotifications(t: Ref)
      requires t in tasks && tasks[t].pending == |tasks[t].queue|
      modifies this`tasks
      ensures tasks == old(tasks)[t := old(tasks)[t].(queue := [], pending := 0)]
    {
      while tasks[t].queue != []
        invariant t in tasks && tasks[t].pending == |tasks[t].queue|
        invariant tasks == old(tasks)[t := old(tasks)[t].(queue := tasks[t].queue, pending := tasks[t].pending)]
        decreases |tasks[t].queue|
      {
        tasks := tasks[t := tasks[t].(pending := tasks[t].pending - 1)];
        tasks := tasks[t := tasks[t].(queue := tasks[t].queue[1..])];
      }
    }

    /** Nothing is deleted if the process is not alive any more. */
    method RegTaskDelete(t: Ref, alive: bool)
      requires Inv(Abs()) && t in tasks
      modifies this
      ensures Abs() == (if alive then CloseTask(old(Abs()), t) else old(Abs())) && Inv(Abs())
    {
      hide Inv, CleanServers, CleanClients, DestroyServers, DestroyClients, Remove, TaskOk;
      if !alive {
        return;
      }
      CloseTaskInv(Abs(), t);
      NoneLeft(Abs(), t);
      CleanServersOf(t);
      CleanClientsOf(t);
      DestroyServersOf(t);
      DestroyClientsOf(t);
      PendingCounts(Abs(), t);
      DropNotifications(t);
      taskList := Remove(taskList, t);
      tasks := tasks - {t};
    }

    // ---------- the file operations ----------

    method IpcOpen(process: nat, t: Ref) returns (ret: int)
      requires Inv(Abs())
      modifies this
      ensures (Abs(), ret) == OpenStep(old(Abs()), process, t)
    {
      hide Inv, Registered;
      if |taskList| >= MAX_PROCESSES {
        return -ENOSPC;
      }
      var ok := RegTaskCreate(process, t);
      ret := if ok then 0 else -ENOMEM;
    }

    method IoctlRegisterServer(t: Ref, name: string, r: Ref) returns (ret: int)
      requires Inv(Abs()) && t in tasks && r !in servers
      modifies this
      ensures (Abs(), ret) == RegisterServerStep(old(Abs()), t, name, r)
    {
      hide Inv, GenerateId, Taken, ServerByName;
      if !CanAddServer(t) {
        return -ENOSPC;
      }
      var found := FindServerByName(name);
      if found != NULL {
        return -EEXIST;
      }
      ServerCreate(r, name);
      RegTaskAddServer(t, r);
      assert servers == old(servers)[r := DriverModel.Server(GenerateId(old(ids)), name, t, [])];
      ret := 0;
    }

    method IoctlRegisterClient(t: Ref, c: Ref) returns (ret: int)
      requires Inv(Abs()) && t in tasks && c !in clients
      modifies this
      ensures (Abs(), ret) == RegisterClientStep(old(Abs()), t, c)
    {
      hide Inv, GenerateId, Taken;
      if !CanAddClient(t) {
        return -ENOSPC;
      }
      ClientCreate(c);
      RegTaskAddClient(t, c);
      assert clients == old(clients)[c := Client(GenerateId(old(ids)), t, NULL)];
      ret := 0;
    }

    method IoctlConnectToServer(clientId: int, name: string, k: Ref, e: Ref, p: Ref, us: seq<Ref>) returns (ret: int)
      requires Inv(Abs()) && CmdOk(Abs(), Connect(clientId, name, k, e, p, us))
      modifies this
      ensures (Abs(), ret) == ConnectStep(old(Abs()), clientId, name, k, e, p, us)
    {
      hide Inv, ConnectTo, Distinct;
      var c := FindClientById(clientId);
      if c == NULL {
        return OOPS;
      }
      if clients[c].conn != NULL {
        return -EEXIST;
      }
      var r := FindServerByName(name);
      if r == NULL {
        return -ENODATA;
      }
      ConnectClientToServer(r, c, k, e, p, us);
      ret := 0;
    }

    /** What the calls that notify the other side of a connection have in common. */
    method NotifyOtherSide(sender: Sender, kind: Kind, k: Ref) returns (ret: int)
      requires k != NULL && Sendable(Abs(), k)
      modifies this`tasks
      ensures var other := old(if sender == CLIENT then conns[k].server else conns[k].client);
              if other == NULL then Abs() == old(Abs()) && ret == -ENOMEM
              else (Abs(), ret) == Send(old(Abs()), sender, kind, k)
    {
      hide Send;
      if sender == CLIENT && conns[k].server == NULL {
        return -ENOMEM;
      }
      if sender == SERVER && conns[k].client == NULL {
        return -ENOMEM;
      }
      ret := NotificationSend(sender, kind, k);
    }

    method IoctlClientEndWriting(clientId: int) returns (ret: int)
      requires Inv(Abs())
      modifies this`tasks
      ensures (Abs(), ret) == ClientEndWritingStep(old(Abs()), clientId)
    {
      hide Inv, Send;
      var c := FindClientById(clientId);
      if c == NULL {
        return -ENODATA;
      }
      var k := clients[c].conn;
      if k == NULL {
        return -ENOENT;
      }
      ConnOfClient(Abs(), c);
      ConnIntact(Abs(), k);
      ret := NotifyOtherSide(CLIENT, NEW_MESSAGE, k);
    }

    method IoctlServerEndWriting(serverId: int, subId: int) returns (ret: int)
      requires Inv(Abs())
      modifies this`tasks
      ensures (Abs(), ret) == ServerEndWritingStep(old(Abs()), serverId, subId)
    {
      hide Inv, Send;
      var r := FindServerById(serverId);
      if r == NULL {
        return -ENODATA;
      }
      var e := ServerFindConnBySubMemId(r, subId);
      if e == NULL {
        return OOPS;
      }
      var k := entries[e];
      ConnIntact(Abs(), k);
      ret := NotifyOtherSide(SERVER, NEW_MESSAGE, k);
    }

    method IoctlClientDisconnect(clientId: int) returns (ret: int)
      requires Inv(Abs())
      modifies this
      ensures (Abs(), ret) == ClientDisconnectStep(old(Abs()), clientId) && Inv(Abs())
    {
      hide Inv, Send, UnlinkAll, Intact;
      var c := FindClientById(clientId);
      if c == NULL {
        return -ENOENT;
      }
      var k := clients[c].conn;
      if k == NULL {
        return -ENOENT;
      }
      ConnOfClient(Abs(), c);
      TellInv(Abs(), CLIENT, k);
      ret := NotificationSend(CLIENT, REMOTE_DISCONNECT, k);
      ClientCleanupConnection(c);
    }

    method IoctlServerDisconnect(serverId: int, subId: int) returns (ret: int)
      requires Inv(Abs())
      modifies this
      ensures (Abs(), ret) == ServerDisconnectStep(old(Abs()), serverId, subId)
    {
      hide Inv, Send, Unlink, Intact, EntryLive;
      var r := FindServerById(serverId);
      if r == NULL {
        return -ENODATA;
      }
      var e := ServerFindConnBySubMemId(r, subId);
      if e == NULL {
        return -ENOENT;
      }
      EntryConn(Abs(), r, e);
      var k := entries[e];
      TellInv(Abs(), SERVER, k);
      ret := NotifyOtherSide(SERVER, REMOTE_DISCONNECT, k);
      ServerCleanupConnection(r, e);
      UnlinkOne(Send(old(Abs()), SERVER, REMOTE_DISCONNECT, k).0, k);
    }

    method IoctlClientUnregister(clientId: int) returns (ret: int)
      requires Inv(Abs())
      modifies this
      ensures (Abs(), ret) == ClientUnregisterStep(old(Abs()), clientId)
    {
      hide Inv, UnlinkAll, Notify, RemoveClient;
      var c := FindClientById(clientId);
      if c == NULL || clients[c].conn == NULL {
        return -ENOENT;
      }
      ClientStays(Abs(), clientId);
      ret := IoctlClientDisconnect(clientId);
      RegTaskDeleteClient(c);
    }

    method IoctlServerUnregister(serverId: int) returns (ret: int)
      requires Inv(Abs())
      modifies this
      ensures (Abs(), ret) == ServerUnregisterStep(old(Abs()), serverId)
    {
      hide Inv, CleanServer, RemoveServer;
      var r := FindServerById(serverId);
      if r == NULL {
        return -ENODATA;
      }
      ServerCleanupConnections(r);
      ServerHasTask(Abs(), r);
      RegTaskDeleteServer(r);
      ret := 0;
    }

    /** mem is the sub-memory that the caller's address range is mapped to. */
    method IpcMmap(targetId: int, subId: int) returns (ret: int, mem: Ref)
      requires Inv(Abs())
      modifies this`tasks, this`conns
      ensures (Abs(), ret) == MmapStep(old(Abs()), targetId, subId)
      ensures ret == 0 ==> MayMap(old(Abs()), targetId, subId, mem)
    {
      hide Inv, Send;
      var k := NULL;
      var c := FindClientById(targetId);
      if c != NULL {
        k := clients[c].conn;
        if k == NULL {
          return -EINVAL, NULL;
        }
        ConnOfClient(Abs(), c);
        ConnIntact(Abs(), k);
        if PackIds(clients[c].id, subs[conns[k].mem].id) != WORD - EINVAL {
          var notified := NotificationSend(CLIENT, NEW_CONNECTION, k);
          SendLeavesConns(old(Abs()), CLIENT, NEW_CONNECTION, k);
          conns := conns[k := conns[k].(mapped := true)];
        }
      } else {
        var r := FindServerById(targetId);
        if r == NULL || servers[r].entries == [] {
          return -ENOENT, NULL;
        }
        if subId == 0 {
          return -EINVAL, NULL;
        }
        var e := ServerFindConnBySubMemId(r, subId);
        if e == NULL {
          return -ENOENT, NULL;
        }
        EntryConn(Abs(), r, e);
        k := entries[e];
        ConnIntact(Abs(), k);
      }
      ret, mem := RemapSubmem(k);
      assert ret == 0 ==> MapOver(old(Abs()), targetId, subId, mem, k);
    }

    /** The end of ipc_mmap, where the pages of the sub-memory are mapped. */
    method RemapSubmem(k: Ref) returns (ret: int, mem: Ref)
      requires k == NULL || k in conns
      ensures ret == if k == NULL || conns[k].mem == NULL then -EFAULT else 0
      ensures ret == 0 ==> mem == conns[k].mem
    {
      if k == NULL || conns[k].mem == NULL {
        return -EFAULT, NULL;
      }
      mem := conns[k].mem;
      ret := 0;
    }

    /** Takes the oldest notification off the queue; ok is false when there is none. */
    method GetNotification(t: Ref) returns (ok: bool, n: Notif)
      requires t in tasks
      modifies this`tasks
      ensures ok == (old(tasks)[t].queue != [])
      ensures ok ==> Abs() == Pop(old(Abs()), t) && n == old(tasks)[t].queue[0]
      ensures !ok ==> Abs() == old(Abs())
    {
      if tasks[t].queue == [] {
        return false, Notif(SERVER, NEW_MESSAGE, 0, 0, 0);
      }
      n := tasks[t].queue[0];
      tasks := tasks[t := tasks[t].(pending := tasks[t].pending - 1)];
      tasks := tasks[t := tasks[t].(queue := tasks[t].queue[1..])];
      ok := true;
    }

    // ---------- the monitor ----------

    method ServerGetData(r: Ref) returns (dest: StServer)
      requires Inv(Abs()) && r in servers
      ensures dest == ServerData(Abs(), r)
      ensures |servers[r].name| < MAX_SERVER_NAME ==> DepictsServer(Abs(), r, dest)
    {
      hide Inv, Distinct, ConnIds, ConnectedTo, DepictsServer;
      ghost var s := Abs();
      EntriesShown(s, r);
      var list := servers[r].entries;
      var connIds := new int[MAX_CLIENTS_PER_SERVER];
      var count := 0;
      while count < |list| && count < MAX_CLIENTS_PER_SERVER
        invariant 0 <= count <= |list| && count <= MAX_CLIENTS_PER_SERVER
        invariant Abs() == s
        invariant forall i | 0 <= i < count :: connIds[i] == ClientIdBehind(s, list[i])
      {
        assert list[count] in s.servers[r].entries && ClientLive(s, list[count]);
        connIds[count] := clients[conns[entries[list[count]]].client].id;
        count := count + 1;
      }
      assert connIds[..count] == ConnIds(s, list, MAX_CLIENTS_PER_SERVER);
      var name := servers[r].name;
      dest := StServer(servers[r].id, if |name| < MAX_SERVER_NAME then name else name[..MAX_SERVER_NAME - 1],
          connIds[..count]);
      if |name| < MAX_SERVER_NAME {
        ServerDepicted(s, r, dest);
      }
    }

    method ClientGetData(c: Ref) returns (dest: StClient)
      requires Inv(Abs()) && c in clients
      ensures dest == ClientData(Abs(), c) && DepictsClient(Abs(), c, dest)
    {
      hide Inv, DepictsClient;
      ClientDepicted(Abs(), c, ClientData(Abs(), c));
      DriverClose.ConnSides(Abs());
      var srvId := -1;
      if clients[c].conn != NULL {
        ConnOfClient(Abs(), c);
        if conns[clients[c].conn].server != NULL {
          srvId := servers[conns[clients[c].conn].server].id;
        }
      }
      ServerNotNull(Abs());
      dest := StClient(clients[c].id, srvId);
    }

    /** Fills the record of one task. Nothing but the per-task limits keeps the indices in bounds. */
    method TaskGetData(t: Ref) returns (dest: StTask)
      requires Inv(Abs()) && t in tasks
      ensures dest == TaskData(Abs(), t)
    {
      hide Inv, Distinct, ServerData, ClientData, ServersData, ClientsData;
      var serverData, serversCount := TaskServersData(t);
      var clientData, clientsCount := TaskClientsData(t);
      dest := StTask(tasks[t].process, serverData[..serversCount], clientData[..clientsCount]);
    }

    method TaskServersData(t: Ref) returns (serverData: array<StServer>, serversCount: nat)
      requires Inv(Abs()) && t in tasks
      ensures fresh(serverData) && serversCount <= serverData.Length == MAX_SERVERS_PER_PID
      ensures serverData[..serversCount] == ServersData(Abs(), tasks[t].servers)
    {
      hide Inv, Distinct, ServerData, ClientData, ServersData, ClientsData;
      ghost var s := Abs();
      TaskShape(s, t);
      serverData := new StServer[MAX_SERVERS_PER_PID](_ => StServer(0, "", []));
      serversCount := 0;
      var rs := tasks[t].servers;
      while serversCount < |rs|
        invariant 0 <= serversCount <= |rs|
        invariant Abs() == s
        invariant forall i | 0 <= i < serversCount :: serverData[i] == ServerData(s, rs[i])
      {
        var entry := ServerGetData(rs[serversCount]);
        serverData[serversCount] := entry;
        serversCount := serversCount + 1;
      }
      assert serverData[..serversCount] == ServersData(s, rs);
    }

    method TaskClientsData(t: Ref) returns (clientData: array<StClient>, clientsCount: nat)
      requires Inv(Abs()) && t in tasks
      ensures fresh(clientData) && clientsCount <= clientData.Length == MAX_CLIENTS_PER_PID
      ensures clientData[..clientsCount] == ClientsData(Abs(), tasks[t].clients)
    {
      hide Inv, Distinct, ServerData, ClientData, ServersData, ClientsData;
      ghost var s := Abs();
      TaskShape(s, t);
      clientData := new StClient[MAX_CLIENTS_PER_PID](_ => StClient(0, 0));
      clientsCount := 0;
      var cs := tasks[t].clients;
      while clientsCount < |cs|
        invariant 0 <= clientsCount <= |cs|
        invariant Abs() == s
        invariant forall i | 0 <= i < clientsCount :: clientData[i] == ClientData(s, cs[i])
      {
        var entry := ClientGetData(cs[clientsCount]);
        clientData[clientsCount] := entry;
        clientsCount := clientsCount + 1;
      }
      assert clientData[..clientsCount] == ClientsData(s, cs);
    }

    method RegTaskGetData() returns (data: seq<StTask>)
      requires Inv(Abs())
      ensures data == SnapshotOf(Abs())
    {
      hide Inv, TaskData, SnapshotOf;
      ghost var s := Abs();
      SnapshotShape(s);
      TasksLive(s);
      var taskData := new StTask[MAX_PROCESSES](_ => StTask(0, [], []));
      var count := 0;
      while count < |taskList| && count < MAX_PROCESSES
        invariant 0 <= count <= |taskList| && count <= MAX_PROCESSES
        invariant Abs() == s
        invariant forall i | 0 <= i < count :: taskData[i] == TaskData(s, s.taskList[i])
      {
        var entry := TaskGetData(taskList[count]);
        taskData[count] := entry;
        count := count + 1;
      }
      data := taskData[..count];
    }

    // ---------- reading, closing, and all calls together ----------

    /** data and picture are what was copied to the caller: a notification, or for the monitor a snapshot. */
    method IpcRead(t: Ref, count: int) returns (ret: int, data: seq<Notif>, picture: seq<StTask>)
      requires Inv(Abs()) && t in tasks
      modifies this`tasks
      ensures (Abs(), ret) == ReadStep(old(Abs()), t, count)
      ensures var task := old(tasks)[t];
              && data == (if !task.monitor && task.queue != [] && count >= NOTIF_SIZE then [task.queue[0]] else [])
              && picture == (if task.monitor && count >= SNAPSHOT_SIZE then SnapshotOf(old(Abs())) else [])
              && (ret == SNAPSHOT_SIZE <==> task.monitor && count >= SNAPSHOT_SIZE)
              && (ret == NOTIF_SIZE <==> !task.monitor && task.queue != [] && count >= NOTIF_SIZE)
    {
      hide Inv, SnapshotOf;
      data, picture := [], [];
      if tasks[t].monitor {
        if count < SNAPSHOT_SIZE {
          ret := -EMSGSIZE;
          return;
        }
        picture := RegTaskGetData();
        ret := SNAPSHOT_SIZE;
        return;
      }
      var ok, n := GetNotification(t);
      if !ok {
        ret := -ENOENT;
        return;
      }
      if NOTIF_SIZE > count {
        ret := -EMSGSIZE;
        return;
      }
      data := [n];
      ret := NOTIF_SIZE;
    }

    /** One system call after another: the object moves as the transition system says and stays consistent. */
    method SystemCall(cmd: Cmd) returns (ret: int)
      requires Inv(Abs()) && CmdOk(Abs(), cmd)
      modifies this
      ensures (Abs(), ret) == Step(old(Abs()), cmd) && Inv(Abs())
    {
      hide Inv, OpenStep, RegisterServerStep, RegisterClientStep, RegisterMonitorStep, ConnectStep,
           ClientEndWritingStep, ServerEndWritingStep, ClientDisconnectStep, ServerDisconnectStep,
           ClientUnregisterStep, ServerUnregisterStep, MmapStep, ReadStep, CloseTask, Distinct;
      DriverSteps.StepInv(Abs(), cmd);
      match cmd {
        case Open(process, t) => ret := IpcOpen(process, t);
        case RegisterServer(t, name, r) => ret := IoctlRegisterServer(t, name, r);
        case RegisterClient(t, c) => ret := IoctlRegisterClient(t, c);
        case RegisterMonitor(t) => ret := RegTaskSetMonitor(t);
        case Connect(id, name, k, e, p, us) => ret := IoctlConnectToServer(id, name, k, e, p, us);
        case ClientEndWriting(id) => ret := IoctlClientEndWriting(id);
        case ServerEndWriting(id, subId) => ret := IoctlServerEndWriting(id, subId);
        case ClientDisconnect(id) => ret := IoctlClientDisconnect(id);
        case ServerDisconnect(id, subId) => ret := IoctlServerDisconnect(id, subId);
        case ClientUnregister(id) => ret := IoctlClientUnregister(id);
        case ServerUnregister(id) => ret := IoctlServerUnregister(id);
        case Mmap(targetId, subId) => var mem; ret, mem := IpcMmap(targetId, subId);
        case Read(t, count) => var data, picture; ret, data, picture := IpcRead(t, count);
        case Close(t) =>
          RegTaskDelete(t, true);
          ret := 0;
      }
    }
  }
}
