/** The driver and the libraries of its processes, step by step: the tables stay on track. */
module MirrorSteps {
  import opened IdSpace
  import opened DriverModel
  import opened DriverInvariant
  import opened DriverCommands
  import opened DriverFacts
  import opened LibServer
  import opened MirrorFacts
  import opened MirrorDriver
  import Seqs
  import DriverBudget
  import DriverPreservation
  import DriverTeardown
  import DriverClose
  import DriverSteps
  import Mirror

  // ---------- the libraries ----------

  /** dispatchNotification: a client's notification goes to the server it names, if the process has it. */
  function Dispatch(tables: map<int, Table>, n: Notif, granted: bool): map<int, Table> {
    if n.who == CLIENT && n.receiver in tables
    then tables[n.receiver := Handle(tables[n.receiver], n.receiver, n, granted)]
    else tables
  }

  /** The driver's answer when server id asks for sub-memory u. */
  predicate Grants(s: State, id: int, u: int) {
    MmapStep(s, id, u).1 == 0
  }

  /** What a system call by a process means for the tables of its library. */
  function LibStep(s: State, cmd: Cmd, lib: Tables): Tables
    requires CmdOk(s, cmd)
  {
    match cmd
    case Open(process, t) => if OpenStep(s, process, t).1 == 0 then lib[t := map[]] else lib
    case RegisterServer(t, name, r) =>
      if t in lib && RegisterServerStep(s, t, name, r).1 == 0 then lib[t := lib[t][GenerateId(s.ids) := EMPTY]] else lib
    case ServerUnregister(id) =>
      var r := ServerById(s, id);
      if r != NULL && s.servers[r].task in lib then lib[s.servers[r].task := lib[s.servers[r].task] - {id}] else lib
    case Read(t, count) =>
      if t in lib && !s.tasks[t].monitor && s.tasks[t].queue != [] && NOTIF_SIZE <= count
      then var n := s.tasks[t].queue[0]; lib[t := Dispatch(lib[t], n, Grants(s, n.receiver, n.subId))]
      else lib
    case Close(t) => lib - {t}
    case _ => lib
  }

  function ServerIds(servers: map<Ref, DriverModel.Server>, t: Ref): set<int> {
    set r | r in servers && servers[r].task == t :: servers[r].id
  }

  /** Each task's library has exactly one sound table for each of its servers. */
  ghost predicate TablesOk(lib: Tables, s: State) {
    lib.Keys == s.tasks.Keys && forall t <- lib :: TaskTables(lib[t], ServerIds(s.servers, t))
  }

  ghost predicate TaskTables(tables: map<int, Table>, ids: set<int>) {
    tables.Keys == ids && forall id <- tables :: Mirror.TableOk(tables[id])
  }

  /** A read that hands the library whole notifications. */
  predicate WholeRead(cmd: Cmd) {
    cmd.Read? ==> NOTIF_SIZE <= cmd.count
  }

  // ---------- steps that leave facts and tables alone ----------

  /** Objects may have been added; the old ones keep their identifiers and tasks. */
  ghost predicate NamesKept(s: State, s': State) {
    && (forall c <- s.clients :: c in s'.clients && s'.clients[c].id == s.clients[c].id)
    && (forall r <- s.servers :: r in s'.servers && s'.servers[r].id == s.servers[r].id &&
         s'.servers[r].task == s.servers[r].task)
    && (forall u <- s.subs :: u in s'.subs && s'.subs[u].id == s.subs[u].id)
  }

  lemma NamesKeptFacts(s: State, s': State)
    requires Inv(s) && NamesKept(s, s') && s'.conns == s.conns
    ensures FactsOf(s') == FactsOf(s)
  {
    hide Inv;
    AllWhole(s);
    FactsSame(s, s');
  }

  lemma SameOnTrack(lib: Tables, lib': Tables, s: State, s': State)
    requires OnTrack(lib, s) && FactsOf(s') == FactsOf(s)
    requires forall t <- s'.tasks :: t in s.tasks && s'.tasks[t].queue == s.tasks[t].queue
    requires forall t, id: int | t in s'.tasks :: Base(lib', t, id) == Base(lib, t, id)
    ensures OnTrack(lib', s')
  {
    hide Base, Leads, FactsOf;
    forall t, id: int | t in QueuesOf(s') ensures Leads(Base(lib', t, id), QueuesOf(s')[t], FactsOf(s'), t, id) {
      assert t in QueuesOf(s) && Leads(Base(lib, t, id), QueuesOf(s)[t], FactsOf(s), t, id);
    }
  }

  lemma SameTables(lib: Tables, s: State, s': State)
    requires TablesOk(lib, s) && s'.tasks.Keys == s.tasks.Keys && s'.servers.Keys == s.servers.Keys
    requires forall r <- s.servers :: s'.servers[r].task == s.servers[r].task && s'.servers[r].id == s.servers[r].id
    ensures TablesOk(lib, s')
  {
    hide TaskTables;
    assert forall t :: ServerIds(s'.servers, t) == ServerIds(s.servers, t);
  }

  lemma TornDownTables(lib: Tables, s: State, s': State)
    requires TablesOk(lib, s) && DriverTeardown.TornDown(s, s')
    ensures TablesOk(lib, s')
  {
    hide Inv, DriverTeardown.Trimmed, TablesOk;
    DriverClose.TrimmedKeys(s, s');
    SameTables(lib, s, s');
  }

  /** Both halves of the joint invariant. */
  ghost predicate Joined(lib: Tables, s: State) {
    TablesOk(lib, s) && OnTrack(lib, s)
  }

  // ---------- opening and registering ----------

  lemma OpenJoined(lib: Tables, s: State, process: nat, t: Ref)
    requires Inv(s) && Joined(lib, s) && t != NULL && t !in s.tasks
    ensures Joined(LibStep(s, Open(process, t), lib), OpenStep(s, process, t).0)
  {
    hide Inv, Registered;
    if OpenStep(s, process, t).1 == 0 {
      OpenTables(lib, s, t, process);
      OpenOnTrack(lib, s, t, process);
    }
  }

  lemma OpenTables(lib: Tables, s: State, t: Ref, process: nat)
    requires TablesOk(lib, s) && t !in s.tasks && Inv(s)
    ensures TablesOk(lib[t := map[]], AddTask(s, t, process))
  {
    hide Inv, TaskTables, ServerIds;
    NoServers(s, t);
    NoTables();
  }

  lemma NoServers(s: State, t: Ref)
    requires Inv(s) && t !in s.tasks
    ensures ServerIds(s.servers, t) == {}
  {
    hide Linked, Listed, Pooled, Identified, Separate, Named, Enumerated;
    DriverBudget.OwnersLive(s.tasks, s.clients, s.servers);
  }

  lemma NoTables()
    ensures TaskTables(map[], {})
  {
  }

  lemma OpenOnTrack(lib: Tables, s: State, t: Ref, process: nat)
    requires Inv(s) && OnTrack(lib, s) && t !in s.tasks
    ensures OnTrack(lib[t := map[]], AddTask(s, t, process))
  {
    hide Inv, Leads;
    var s', lib' := AddTask(s, t, process), lib[t := map[]];
    NamesKeptFacts(s, s');
    NoFactsOfTask(s, t);
    hide FactsOf;
    forall x, id: int | x in QueuesOf(s') ensures Leads(Base(lib', x, id), QueuesOf(s')[x], FactsOf(s'), x, id) {
      if x == t {
        StartLeads(FactsOf(s), t, id);
      } else {
        assert x in QueuesOf(s) && Leads(Base(lib, x, id), QueuesOf(s)[x], FactsOf(s), x, id);
      }
    }
  }

  lemma NoFactsOfTask(s: State, t: Ref)
    requires Inv(s) && t !in s.tasks
    ensures forall id: int :: Of(FactsOf(s), t, id) == {}
  {
    hide Inv;
    AllWhole(s);
    hide FactOf, Whole;
  }

  lemma StartLeads(fs: Facts, t: Ref, id: int)
    requires Of(fs, t, id) == {}
    ensures Leads(map[], [], fs, t, id)
  {
  }

  lemma AddedServerIds(servers: map<Ref, DriverModel.Server>, r: Ref, server: DriverModel.Server)
    requires r !in servers
    ensures forall x :: ServerIds(servers[r := server], x) ==
              if x == server.task then ServerIds(servers, x) + {server.id} else ServerIds(servers, x)
  {
    var servers' := servers[r := server];
    assert servers'[r] == server;
    assert forall x <- servers :: servers'[x] == servers[x];
    forall x ensures ServerIds(servers', x) == if x == server.task then ServerIds(servers, x) +
        {server.id} else ServerIds(servers, x) {
      var ids := ServerIds(servers', x);
      assert forall i <- ids :: exists y :: y in servers' && servers'[y].task == x && servers'[y].id == i;
    }
  }

  lemma RegisterServerTables(lib: Tables, s: State, t: Ref, name: string, r: Ref)
    requires TablesOk(lib, s) && t in s.tasks && r !in s.servers
    ensures TablesOk(lib[t := lib[t][GenerateId(s.ids) := EMPTY]], AddServer(s, t, r, name))
  {
    hide Taken, GenerateId, ServerIds, TaskTables;
    AddedServerIds(s.servers, r, AddServer(s, t, r, name).servers[r]);
    OneTableMore(lib[t], ServerIds(s.servers, t), GenerateId(s.ids));
  }

  lemma OneTableMore(tables: map<int, Table>, ids: set<int>, id: int)
    requires TaskTables(tables, ids)
    ensures TaskTables(tables[id := EMPTY], ids + {id})
  {
  }

  lemma NewTableBase(lib: Tables, t: Ref, id: int)
    requires t in lib && id !in lib[t]
    ensures forall x, y: int :: Base(lib[t := lib[t][id := EMPTY]], x, y) == Base(lib, x, y)
  {
  }

  lemma RegisterServerOnTrack(lib: Tables, s: State, t: Ref, name: string, r: Ref)
    requires Inv(s) && Joined(lib, s) && t in s.tasks && r !in s.servers
    requires GenerateId(s.ids) !in s.ids
    ensures OnTrack(lib[t := lib[t][GenerateId(s.ids) := EMPTY]], AddServer(s, t, r, name))
  {
    hide Inv, OnTrack, Taken, GenerateId, Base, FactsOf, Mirror.TableOk, ServerIds, NamesKept;
    ServerIdsUsed(s, t);
    var s' := AddServer(s, t, r, name);
    AddServerNames(s, t, r, name);
    NamesKeptFacts(s, s');
    NewTableBase(lib, t, GenerateId(s.ids));
    SameOnTrack(lib, lib[t := lib[t][GenerateId(s.ids) := EMPTY]], s, s');
  }

  lemma AddServerNames(s: State, t: Ref, r: Ref, name: string)
    requires t in s.tasks && r !in s.servers
    ensures NamesKept(s, AddServer(s, t, r, name))
  {
  }

  lemma ServerIdsUsed(s: State, t: Ref)
    requires Inv(s)
    ensures ServerIds(s.servers, t) <= s.ids
  {
    forall r <- s.servers ensures s.servers[r].id in s.ids {
      var h := HoldersOf(s);
      assert h.Live(OfServer(r)) && h.IdOf(OfServer(r)) in s.ids;
    }
  }

  lemma RegisterServerJoined(lib: Tables, s: State, t: Ref, name: string, r: Ref)
    requires Inv(s) && Joined(lib, s) && CmdOk(s, RegisterServer(t, name, r))
    ensures Joined(LibStep(s, RegisterServer(t, name, r), lib), RegisterServerStep(s, t, name, r).0)
  {
    hide Inv, ServerByName, TablesOk, OnTrack, TaskTables, AddServer, GenerateId;
    if RegisterServerStep(s, t, name, r).1 == 0 {
      NewIdUnused(s, t);
      RegisterServerTables(lib, s, t, name, r);
      RegisterServerOnTrack(lib, s, t, name, r);
      LibTasks(lib, s);
    }
  }

  lemma LibTasks(lib: Tables, s: State)
    requires TablesOk(lib, s)
    ensures lib.Keys == s.tasks.Keys
  {
  }

  lemma NewIdUnused(s: State, t: Ref)
    requires Inv(s) && t in s.tasks
    requires s.tasks[t].numServers < MAX_SERVERS_PER_PID
    ensures GenerateId(s.ids) !in s.ids
  {
    hide Inv, GenerateId;
    DriverPreservation.IdRoom(s, t);
    GenerateDense(s.ids);
  }

  lemma RegisterClientJoined(lib: Tables, s: State, t: Ref, c: Ref)
    requires Inv(s) && Joined(lib, s) && t in s.tasks && c != NULL && c !in s.clients
    ensures Joined(lib, RegisterClientStep(s, t, c).0)
  {
    hide Inv, TablesOk, OnTrack, Taken, GenerateId, FactsOf, NamesKept;
    var s' := RegisterClientStep(s, t, c).0;
    if RegisterClientStep(s, t, c).1 == 0 {
      AddClientNames(s, t, c);
      NamesKeptFacts(s, s');
      SameOnTrack(lib, lib, s, s');
      SameTables(lib, s, s');
    }
  }

  lemma AddClientNames(s: State, t: Ref, c: Ref)
    requires t in s.tasks && c !in s.clients
    ensures NamesKept(s, AddClient(s, t, c))
  {
  }

  lemma RegisterMonitorJoined(lib: Tables, s: State, t: Ref)
    requires Inv(s) && Joined(lib, s) && t in s.tasks
    ensures Joined(lib, RegisterMonitorStep(s, t).0)
  {
    hide Inv, TablesOk, OnTrack, FactsOf, HasMonitor, NamesKept;
    var s' := RegisterMonitorStep(s, t).0;
    if s' != s {
      MonitorNames(s, t);
      NamesKeptFacts(s, s');
      SameOnTrack(lib, lib, s, s');
      SameTables(lib, s, s');
    }
  }

  lemma MonitorNames(s: State, t: Ref)
    requires t in s.tasks
    ensures NamesKept(s, SetMonitor(s, t))
  {
  }

  // ---------- connecting ----------

  lemma PoolNames(s: State, p: Ref, us: seq<Ref>)
    requires |us| == SHM_POOL_SIZE && Seqs.Distinct(us) && forall u <- us :: u !in s.subs
    ensures NamesKept(s, WithRoom(s, p, us)) && DriverPreservation.OnlyPools(s, WithRoom(s, p, us))
  {
    hide Seqs.Distinct, FreeSub, GenerateId, Taken, AddSubs;
    DriverPreservation.AddSubsEffect(s, us);
  }

  lemma AddConnFacts(s: State, c: Ref, r: Ref, u: Ref, k: Ref, e: Ref)
    requires Inv(s) && c in s.clients && r in s.servers && u in s.subs && k !in s.conns
    ensures FactsOf(AddConn(s, c, r, u, k, e)) == FactsOf(s)
  {
    hide Inv, NamesKept, Whole, FactOf;
    AllWhole(s);
    var s' := AddConn(s, c, r, u, k, e);
    AddConnNames(s, c, r, u, k, e);
    forall x <- s.conns ensures Whole(s', x) && FactOf(s', x) == FactOf(s, x) {
      NamesKeptFact(s, s', x);
    }
    assert forall x <- s'.conns :: x == k || x in s.conns;
  }

  lemma AddConnNames(s: State, c: Ref, r: Ref, u: Ref, k: Ref, e: Ref)
    requires c in s.clients && r in s.servers && u in s.subs && k !in s.conns
    ensures NamesKept(s, AddConn(s, c, r, u, k, e))
  {
  }

  lemma NamesKeptFact(s: State, s': State, x: Ref)
    requires NamesKept(s, s') && Whole(s, x) && x in s'.conns && s'.conns[x] == s.conns[x]
    ensures Whole(s', x) && FactOf(s', x) == FactOf(s, x)
  {
  }

  lemma ConnectJoined(lib: Tables, s: State, id: int, name: string, k: Ref, e: Ref, p: Ref, us: seq<Ref>)
    requires Inv(s) && Joined(lib, s) && CmdOk(s, Connect(id, name, k, e, p, us))
    ensures Joined(lib, ConnectStep(s, id, name, k, e, p, us).0)
  {
    hide Inv, TablesOk, OnTrack, FactsOf, FreeSub, Seqs.Distinct, WithRoom, NamesKept, AddConn;
    var s' := ConnectStep(s, id, name, k, e, p, us).0;
    if ConnectStep(s, id, name, k, e, p, us).1 == 0 {
      var c, r := ClientById(s, id), ServerByName(s, name);
      DriverSteps.WithRoomInv(s, c, p, us);
      var s1 := WithRoom(s, p, us);
      PoolNames(s, p, us);
      NamesKeptFacts(s, s1);
      AddConnFacts(s1, c, r, FreeSub(s1, s1.poolList), k, e);
      AddConnRest(s1, c, r, FreeSub(s1, s1.poolList), k, e);
      SameOnTrack(lib, lib, s, s');
      SameTables(lib, s, s');
    }
  }

  lemma AddConnRest(s: State, c: Ref, r: Ref, u: Ref, k: Ref, e: Ref)
    requires c in s.clients && r in s.servers && u in s.subs
    ensures var s' := AddConn(s, c, r, u, k, e);
            && s'.tasks == s.tasks && s'.servers.Keys == s.servers.Keys
            && forall x <- s.servers :: s'.servers[x].task == s.servers[x].task && s'.servers[x].id == s.servers[x].id
  {
  }

  // ---------- messages and mapping ----------

  lemma MessageJoined(lib: Tables, s: State, who: Sender, k: Ref)
    requires Inv(s) && Joined(lib, s) && k in s.conns
    ensures Joined(lib, Notify(s, who, NEW_MESSAGE, k).0)
  {
    hide Inv, TablesOk, Mirrored, FactsOf, QueuesOf, Push;
    SendSucceeds(s, k, NEW_MESSAGE);
    ToServerTold(s, k, NEW_MESSAGE);
    QueueKeys(s);
    var t := if who == CLIENT then ServerTask(s, k) else ClientTask(s, k);
    var n := if who == CLIENT then ToServer(s, k, NEW_MESSAGE) else ToClient(s, k, NEW_MESSAGE);
    PushShape(s, t, n);
    QuietMirrored(lib, QueuesOf(s), FactsOf(s), t, n);
    PushTables(lib, s, t, n);
  }

  lemma PushTables(lib: Tables, s: State, t: Ref, n: Notif)
    requires TablesOk(lib, s) && t in s.tasks
    ensures TablesOk(lib, Push(s, t, n))
  {
    hide TablesOk;
    SameTables(lib, s, Push(s, t, n));
  }

  lemma EndWritingJoined(lib: Tables, s: State, id: int, subId: int)
    requires Inv(s) && Joined(lib, s)
    ensures Joined(lib, ClientEndWritingStep(s, id).0)
    ensures Joined(lib, ServerEndWritingStep(s, id, subId).0)
  {
    hide Inv, Notify, Joined;
    var c := ClientById(s, id);
    if c != NULL && s.clients[c].conn != NULL {
      ConnOfClient(s, c);
      MessageJoined(lib, s, CLIENT, s.clients[c].conn);
    }
    var r := ServerById(s, id);
    if r != NULL {
      var e := EntryByMem(s, r, subId);
      if e != NULL {
        MessageJoined(lib, s, SERVER, s.entries[e]);
      }
    }
  }

  lemma MapTables(lib: Tables, s: State, k: Ref)
    requires TablesOk(lib, s)
    ensures TablesOk(lib, MapClient(s, k))
  {
    hide TablesOk;
    var s1 := Notify(s, CLIENT, NEW_CONNECTION, k).0;
    if Sendable(s, k) && s1 != s {
      var con := s.conns[k];
      PushTables(lib, s, s.servers[con.server].task, Notif(CLIENT, NEW_CONNECTION, s.subs[con.mem].id,
          s.clients[con.client].id, s.servers[con.server].id));
    }
    SameTables(lib, s1, MapClient(s, k));
  }

  lemma MmapJoined(lib: Tables, s: State, targetId: int, subId: int)
    requires Inv(s) && Joined(lib, s) && Capped(FactsOf(MmapStep(s, targetId, subId).0))
    ensures Joined(lib, MmapStep(s, targetId, subId).0)
  {
    hide Inv, MapClient, TablesOk, OnTrack, Capped, FactsOf;
    var c := ClientById(s, targetId);
    if c != NULL && s.clients[c].conn != NULL {
      ConnOfClient(s, c);
      MapTables(lib, s, s.clients[c].conn);
      if MmapStep(s, targetId, subId).0 == MapClient(s, s.clients[c].conn) {
        MapOnTrack(lib, s, s.clients[c].conn);
      }
    }
  }
}
