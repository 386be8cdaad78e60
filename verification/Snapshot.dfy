/** The picture of all tasks that the driver hands to the monitor. */
module Snapshot {
  import opened Seqs
  import opened DriverModel
  import opened DriverInvariant
  import opened DriverSteps
  import DriverBudget
  import DriverFacts
  import DriverClose
  import DriverStays

  datatype StClient = StClient(id: int, srvId: int)
  datatype StServer = StServer(id: int, name: string, connIds: seq<int>)
  datatype StTask = StTask(pid: nat, servers: seq<StServer>, clients: seq<StClient>)

  // ---------- what is copied ----------

  predicate ClientLive(s: State, e: Ref) {
    e in s.entries && s.entries[e] in s.conns && s.conns[s.entries[e]].client in s.clients
  }

  function ClientIdBehind(s: State, e: Ref): int
    requires ClientLive(s, e)
  {
    s.clients[s.conns[s.entries[e]].client].id
  }

  /** server_get_data copies client identifiers until it meets a dead pointer or runs out of room. */
  function ConnIds(s: State, es: seq<Ref>, room: nat): (ids: seq<int>)
    ensures |ids| <= room
    ensures (forall e <- es :: ClientLive(s, e)) ==>
              |ids| == (if |es| <= room then |es| else room) && forall i | 0 <= i < |ids| ::
                  ids[i] == ClientIdBehind(s, es[i])
  {
    if es == [] || room == 0 || !ClientLive(s, es[0]) then []
    else [ClientIdBehind(s, es[0])] + ConnIds(s, es[1..], room - 1)
  }

  function ServerData(s: State, r: Ref): StServer
    requires r in s.servers
  {
    var server := s.servers[r];
    StServer(server.id, if |server.name| < MAX_SERVER_NAME then server.name else server.name[..MAX_SERVER_NAME - 1],
             ConnIds(s, server.entries, MAX_CLIENTS_PER_SERVER))
  }

  /** client_get_data: -1 for a client without a connection. */
  function ClientData(s: State, c: Ref): StClient
    requires c in s.clients
  {
    var client := s.clients[c];
    StClient(client.id,
             if client.conn != NULL && client.conn in s.conns && s.conns[client.conn].server in s.servers
             then s.servers[s.conns[client.conn].server].id else -1)
  }

  function ServersData(s: State, rs: seq<Ref>): (d: seq<StServer>)
    ensures (forall r <- rs :: r in s.servers) ==> |d| == |rs| && forall i | 0 <= i < |d| ::
            d[i] == ServerData(s, rs[i])
  {
    if rs == [] || rs[0] !in s.servers then [] else [ServerData(s, rs[0])] + ServersData(s, rs[1..])
  }

  function ClientsData(s: State, cs: seq<Ref>): (d: seq<StClient>)
    ensures (forall c <- cs :: c in s.clients) ==> |d| == |cs| && forall i | 0 <= i < |d| ::
            d[i] == ClientData(s, cs[i])
  {
    if cs == [] || cs[0] !in s.clients then [] else [ClientData(s, cs[0])] + ClientsData(s, cs[1..])
  }

  function TaskData(s: State, t: Ref): StTask
    requires t in s.tasks
  {
    StTask(s.tasks[t].process, ServersData(s, s.tasks[t].servers), ClientsData(s, s.tasks[t].clients))
  }

  function TasksData(s: State, ts: seq<Ref>, room: nat): (d: seq<StTask>)
    ensures (forall t <- ts :: t in s.tasks) && |ts| <= room ==> |d| == |ts| && forall i | 0 <= i < |d| ::
            d[i] == TaskData(s, ts[i])
  {
    if ts == [] || room == 0 || ts[0] !in s.tasks then [] else [TaskData(s, ts[0])] + TasksData(s, ts[1..], room - 1)
  }

  /** reg_task_get_data */
  function SnapshotOf(s: State): seq<StTask> {
    TasksData(s, s.taskList, MAX_PROCESSES)
  }

  // ---------- what a reader may conclude ----------

  /** A server's list of clients and the clients' own records tell the same story. */
  ghost predicate Agreeing(client: StClient, server: StServer) {
    (client.srvId == server.id <==> client.id in server.connIds) && Distinct(server.connIds)
  }

  ghost predicate Coherent(snap: seq<StTask>) {
    forall a, b, x, y | 0 <= a < |snap| && 0 <= b < |snap| && x in snap[a].clients && y in snap[b].servers ::
        Agreeing(x, y)
  }

  ghost predicate ShowsClient(snap: seq<StTask>, pid: nat, x: StClient) {
    exists a :: 0 <= a < |snap| && snap[a].pid == pid && x in snap[a].clients
  }

  ghost predicate ShowsServer(snap: seq<StTask>, pid: nat, y: StServer) {
    exists a :: 0 <= a < |snap| && snap[a].pid == pid && y in snap[a].servers
  }

  lemma TasksLive(s: State)
    requires Inv(s)
    ensures forall t <- s.taskList :: t in s.tasks
    ensures forall t <- s.tasks :: t in s.taskList
    ensures |s.taskList| <= MAX_PROCESSES
  {
    hide Linked, Listed, Owned, Pooled, Identified, Separate, Named, Distinct;
  }

  /** The snapshot has one record for each task, with one record for each of its servers and clients. */
  lemma SnapshotShape(s: State)
    requires Inv(s)
    ensures |SnapshotOf(s)| == |s.taskList| && forall t <- s.taskList :: t in s.tasks
    ensures forall a | 0 <= a < |s.taskList| :: SnapshotOf(s)[a] == TaskData(s, s.taskList[a])
  {
    hide Inv, TaskData;
    TasksLive(s);
  }

  lemma TaskShape(s: State, t: Ref)
    requires Inv(s) && t in s.tasks
    ensures var rs, d := s.tasks[t].servers, TaskData(s, t).servers;
            && |d| == |rs|
            && forall i | 0 <= i < |d| ::
                 rs[i] in s.servers && s.servers[rs[i]].task == t && d[i] == ServerData(s, rs[i])
    ensures var cs, d := s.tasks[t].clients, TaskData(s, t).clients;
            && |d| == |cs|
            && forall i | 0 <= i < |d| ::
                 cs[i] in s.clients && s.clients[cs[i]].task == t && d[i] == ClientData(s, cs[i])
    ensures forall r <- s.servers :: s.servers[r].task == t ==> r in s.tasks[t].servers
    ensures forall c <- s.clients :: s.clients[c].task == t ==> c in s.tasks[t].clients
    ensures |s.tasks[t].servers| <= MAX_SERVERS_PER_PID && |s.tasks[t].clients| <= MAX_CLIENTS_PER_PID
  {
    hide Inv, ServerData, ClientData, Distinct;
    DriverFacts.TaskCounters(s, t);
    DriverClose.TaskMembers(s, t);
  }

  lemma ClientShown(s: State, c: Ref)
    requires Inv(s) && c in s.clients
    ensures s.clients[c].task in s.tasks
    ensures ShowsClient(SnapshotOf(s), s.tasks[s.clients[c].task].process, ClientData(s, c))
  {
    hide Inv, ClientData, SnapshotOf, ServersData, ClientsData;
    TasksLive(s);
    Homes(s);
    SnapshotShape(s);
    var t := s.clients[c].task;
    TaskShape(s, t);
    var a :| 0 <= a < |s.taskList| && s.taskList[a] == t;
    var i :| 0 <= i < |s.tasks[t].clients| && s.tasks[t].clients[i] == c;
    assert SnapshotOf(s)[a].clients[i] == ClientData(s, c);
  }

  lemma ServerShown(s: State, r: Ref)
    requires Inv(s) && r in s.servers
    ensures s.servers[r].task in s.tasks
    ensures ShowsServer(SnapshotOf(s), s.tasks[s.servers[r].task].process, ServerData(s, r))
  {
    hide Inv, ServerData, SnapshotOf, ServersData, ClientsData;
    TasksLive(s);
    Homes(s);
    SnapshotShape(s);
    var t := s.servers[r].task;
    TaskShape(s, t);
    var a :| 0 <= a < |s.taskList| && s.taskList[a] == t;
    var i :| 0 <= i < |s.tasks[t].servers| && s.tasks[t].servers[i] == r;
    assert SnapshotOf(s)[a].servers[i] == ServerData(s, r);
  }

  /** Client c belongs to a task of this process. */
  predicate RunsClient(s: State, pid: nat, c: Ref) {
    c in s.clients && s.clients[c].task in s.tasks && s.tasks[s.clients[c].task].process == pid
  }

  predicate RunsServer(s: State, pid: nat, r: Ref) {
    r in s.servers && s.servers[r].task in s.tasks && s.tasks[s.servers[r].task].process == pid
  }

  lemma ShownClient(s: State, a: int, x: StClient) returns (c: Ref)
    requires Inv(s) && 0 <= a < |SnapshotOf(s)| && x in SnapshotOf(s)[a].clients
    ensures RunsClient(s, SnapshotOf(s)[a].pid, c) && x == ClientData(s, c)
  {
    hide Inv, ClientData, ServersData, ClientsData, SnapshotOf;
    SnapshotShape(s);
    TaskShape(s, s.taskList[a]);
    var i :| 0 <= i < |SnapshotOf(s)[a].clients| && SnapshotOf(s)[a].clients[i] == x;
    c := s.tasks[s.taskList[a]].clients[i];
  }

  lemma ShownServer(s: State, b: int, y: StServer) returns (r: Ref)
    requires Inv(s) && 0 <= b < |SnapshotOf(s)| && y in SnapshotOf(s)[b].servers
    ensures RunsServer(s, SnapshotOf(s)[b].pid, r) && y == ServerData(s, r)
  {
    hide Inv, ServerData, ServersData, ClientsData, SnapshotOf;
    SnapshotShape(s);
    TaskShape(s, s.taskList[b]);
    var i :| 0 <= i < |SnapshotOf(s)[b].servers| && SnapshotOf(s)[b].servers[i] == y;
    r := s.tasks[s.taskList[b]].servers[i];
  }

  /** No two records of the snapshot are of the same process, the same client or the same server. */
  ghost predicate ShownOnce(snap: seq<StTask>) {
    && (forall a, b | 0 <= a < |snap| && 0 <= b < |snap| && snap[a].pid == snap[b].pid :: a == b)
    && (forall a, b | 0 <= a < |snap| && 0 <= b < |snap| :: ClientsApart(snap, a, b) && ServersApart(snap, a, b))
  }

  ghost predicate ClientsApart(snap: seq<StTask>, a: nat, b: nat)
    requires a < |snap| && b < |snap|
  {
    forall i, j | 0 <= i < |snap[a].clients| && 0 <= j < |snap[b].clients| &&
        snap[a].clients[i].id == snap[b].clients[j].id ::
      a == b && i == j
  }

  ghost predicate ServersApart(snap: seq<StTask>, a: nat, b: nat)
    requires a < |snap| && b < |snap|
  {
    forall i, j | 0 <= i < |snap[a].servers| && 0 <= j < |snap[b].servers| &&
        snap[a].servers[i].id == snap[b].servers[j].id ::
      a == b && i == j
  }

  lemma TasksApart(s: State)
    requires Inv(s)
    ensures Distinct(s.taskList)
    ensures forall t, t' | t in s.tasks && t' in s.tasks && s.tasks[t].process == s.tasks[t'].process :: t == t'
  {
    hide Linked, Listed, Owned, Pooled, Identified, Named;
  }

  lemma MembersApart(s: State, t: Ref)
    requires Inv(s) && t in s.tasks
    ensures Distinct(s.tasks[t].servers) && Distinct(s.tasks[t].clients)
  {
    hide Inv, Distinct;
    DriverFacts.TaskCounters(s, t);
  }

  lemma IdsApart(s: State)
    requires Inv(s)
    ensures forall r, r' | r in s.servers && r' in s.servers && s.servers[r].id == s.servers[r'].id :: r == r'
    ensures forall c, c' | c in s.clients && c' in s.clients && s.clients[c].id == s.clients[c'].id :: c == c'
  {
    hide Linked, Listed, Owned, Pooled, Separate, Named, Enumerated, Identified;
    ServersDiffer(s.ids, HoldersOf(s));
  }

  lemma RecordsApart(s: State, a: nat, b: nat)
    requires Inv(s) && a < |SnapshotOf(s)| && b < |SnapshotOf(s)|
    ensures ClientsApart(SnapshotOf(s), a, b) && ServersApart(SnapshotOf(s), a, b)
  {
    hide Inv, SnapshotOf, ServersData, ClientsData;
    SnapshotShape(s);
    TasksApart(s);
    IdsApart(s);
    TaskShape(s, s.taskList[a]);
    TaskShape(s, s.taskList[b]);
    MembersApart(s, s.taskList[a]);
  }

  lemma SnapshotOnce(s: State)
    requires Inv(s)
    ensures ShownOnce(SnapshotOf(s))
  {
    hide Inv, SnapshotOf, ServersData, ClientsData, ClientsApart, ServersApart;
    SnapshotShape(s);
    TasksApart(s);
    forall a, b | 0 <= a < |SnapshotOf(s)| && 0 <= b < |SnapshotOf(s)|
      ensures ClientsApart(SnapshotOf(s), a, b) && ServersApart(SnapshotOf(s), a, b)
    {
      RecordsApart(s, a, b);
    }
  }

  /** The record is that of server r: its identifier, its name, and the identifiers of the clients behind the first
      sixteen entries of its list, in the order of the list. */
  ghost predicate DepictsServer(s: State, r: Ref, y: StServer) {
    && r in s.servers && y.id == s.servers[r].id && y.name == s.servers[r].name
    && var es := s.servers[r].entries;
       && |y.connIds| == (if |es| < 16 then |es| else 16)
       && forall i | 0 <= i < |y.connIds| ::
            && es[i] in s.entries && s.entries[es[i]] in s.conns && s.conns[s.entries[es[i]]].client in s.clients
            && y.connIds[i] == s.clients[s.conns[s.entries[es[i]]].client].id
  }

  /** The record is that of client c: its identifier, and that of its server or, exactly without a connection, -1. */
  ghost predicate DepictsClient(s: State, c: Ref, x: StClient) {
    && c in s.clients && x.id == s.clients[c].id && (x.srvId == -1 <==> s.clients[c].conn == NULL)
    && (s.clients[c].conn != NULL ==>
          && s.clients[c].conn in s.conns && s.conns[s.clients[c].conn].server in s.servers
          && x.srvId == s.servers[s.conns[s.clients[c].conn].server].id)
  }

  lemma ServerDepicted(s: State, r: Ref, y: StServer)
    requires Inv(s) && r in s.servers && |s.servers[r].name| < MAX_SERVER_NAME
    ensures DepictsServer(s, r, y) <==> y == ServerData(s, r)
  {
    hide Inv, ConnIds;
    EntriesShown(s, r);
    var d := ServerData(s, r);
    assert DepictsServer(s, r, d) by {
      assert forall i | 0 <= i < |d.connIds| :: s.servers[r].entries[i] in s.servers[r].entries;
    }
    if DepictsServer(s, r, y) {
      assert y.connIds == d.connIds;
    }
  }

  lemma ClientDepicted(s: State, c: Ref, x: StClient)
    requires Inv(s) && c in s.clients
    ensures DepictsClient(s, c, x) <==> x == ClientData(s, c)
  {
    hide Inv;
    DriverClose.ConnSides(s);
    DriverFacts.IdsValid(s);
    if s.clients[c].conn != NULL {
      DriverFacts.ConnOfClient(s, c);
    }
  }

  /** The record is that of task t: its process, its servers and its clients, in the order of its lists. */
  ghost predicate DepictsTask(s: State, t: Ref, x: StTask) {
    && t in s.tasks && x.pid == s.tasks[t].process
    && |x.servers| == |s.tasks[t].servers|
    && (forall i | 0 <= i < |x.servers| :: DepictsServer(s, s.tasks[t].servers[i], x.servers[i]))
    && |x.clients| == |s.tasks[t].clients|
    && (forall i | 0 <= i < |x.clients| :: DepictsClient(s, s.tasks[t].clients[i], x.clients[i]))
  }

  lemma TaskDepicted(s: State, t: Ref)
    requires Inv(s) && DriverStays.ShortNames(s.servers) && t in s.tasks
    ensures DepictsTask(s, t, TaskData(s, t))
  {
    hide Inv, ServerData, ClientData, DepictsServer, DepictsClient;
    TaskShape(s, t);
    var task, x := s.tasks[t], TaskData(s, t);
    forall i | 0 <= i < |x.servers| ensures DepictsServer(s, task.servers[i], x.servers[i]) {
      ServerDepicted(s, task.servers[i], x.servers[i]);
    }
    forall i | 0 <= i < |x.clients| ensures DepictsClient(s, task.clients[i], x.clients[i]) {
      ClientDepicted(s, task.clients[i], x.clients[i]);
    }
  }

  /** There is one record for each open task, in the order of the list of tasks. */
  ghost predicate ShowsTasks(s: State, snap: seq<StTask>) {
    && |snap| == |s.taskList| && (forall t :: t in s.tasks <==> t in s.taskList)
    && forall a | 0 <= a < |snap| :: DepictsTask(s, s.taskList[a], snap[a])
  }

  lemma TasksShown(s: State)
    requires Inv(s) && DriverStays.ShortNames(s.servers)
    ensures ShowsTasks(s, SnapshotOf(s))
  {
    hide Inv, SnapshotOf, TaskData, DepictsTask;
    TasksLive(s);
    SnapshotShape(s);
    forall a | 0 <= a < |s.taskList| ensures DepictsTask(s, s.taskList[a], SnapshotOf(s)[a]) {
      TaskDepicted(s, s.taskList[a]);
    }
  }

  /** The snapshot has one record for each task, in order; under a process exactly the clients and servers of its task
      are shown, each of them once, with its identifier, its name and whom it is connected to. */
  lemma SnapshotComplete(s: State, pid: nat, x: StClient, y: StServer)
    requires Reachable(s)
    ensures ShowsTasks(s, SnapshotOf(s))
    ensures ShowsClient(SnapshotOf(s), pid, x) <==> exists c :: RunsClient(s, pid, c) && DepictsClient(s, c, x)
    ensures ShowsServer(SnapshotOf(s), pid, y) <==> exists r :: RunsServer(s, pid, r) && DepictsServer(s, r, y)
    ensures forall c <- s.clients :: s.clients[c].task in s.tasks
    ensures forall r <- s.servers :: s.servers[r].task in s.tasks
    ensures ShownOnce(SnapshotOf(s))
  {
    hide Inv, Reachable, ServerData, ClientData, SnapshotOf, ShownOnce, ShowsTasks, DepictsClient, DepictsServer;
    ReachableInv(s);
    DriverStays.ReachableNames(s);
    Homes(s);
    TasksShown(s);
    SnapshotOnce(s);
    if ShowsClient(SnapshotOf(s), pid, x) {
      var a :| 0 <= a < |SnapshotOf(s)| && SnapshotOf(s)[a].pid == pid && x in SnapshotOf(s)[a].clients;
      var c := ShownClient(s, a, x);
      ClientDepicted(s, c, x);
    }
    if ShowsServer(SnapshotOf(s), pid, y) {
      var b :| 0 <= b < |SnapshotOf(s)| && SnapshotOf(s)[b].pid == pid && y in SnapshotOf(s)[b].servers;
      var r := ShownServer(s, b, y);
      ServerDepicted(s, r, y);
    }
    if c :| RunsClient(s, pid, c) && DepictsClient(s, c, x) {
      ClientDepicted(s, c, x);
      ClientShown(s, c);
    }
    if r :| RunsServer(s, pid, r) && DepictsServer(s, r, y) {
      ServerDepicted(s, r, y);
      ServerShown(s, r);
    }
  }

  lemma Homes(s: State)
    requires Inv(s)
    ensures forall c <- s.clients :: s.clients[c].task in s.tasks
    ensures forall r <- s.servers :: s.servers[r].task in s.tasks
  {
    hide Linked, Listed, Pooled, Identified, Separate, Named, Enumerated;
    DriverBudget.OwnersLive(s.tasks, s.clients, s.servers);
  }

  // ---------- clients against servers ----------

  /** The connection of client c leads to server r. */
  ghost predicate ConnectedTo(s: State, c: Ref, r: Ref) {
    exists k :: k in s.conns && s.conns[k].client == c && s.conns[k].server == r
  }

  lemma ClientSide(s: State, c: Ref, r: Ref)
    requires Inv(s) && c in s.clients && r in s.servers
    ensures ClientData(s, c).srvId == s.servers[r].id <==> ConnectedTo(s, c, r)
  {
    ServersDiffer(s.ids, HoldersOf(s));
    hide Listed, Owned, Pooled, Identified, Separate, Named, Enumerated, Linked;
    DriverFacts.IdsValid(s);
    DriverClose.ConnSides(s);
    DriverFacts.ClientConn(s.conns, s.clients, s.subs, c);
    var k := s.clients[c].conn;
    if k != NULL {
      assert k in s.conns && s.conns[k].client == c;
    }
  }

  lemma ServersDiffer(ids: set<int>, h: Holders)
    requires Identified(ids, h)
    ensures forall r, r' | r in h.servers && r' in h.servers && h.servers[r].id == h.servers[r'].id :: r == r'
    ensures forall c, c' | c in h.clients && c' in h.clients && h.clients[c].id == h.clients[c'].id :: c == c'
  {
    forall r, r' | r in h.servers && r' in h.servers && h.servers[r].id == h.servers[r'].id ensures r == r' {
      assert h.Live(OfServer(r)) && h.Live(OfServer(r')) && h.IdOf(OfServer(r)) == h.IdOf(OfServer(r'));
    }
    forall c, c' | c in h.clients && c' in h.clients && h.clients[c].id == h.clients[c'].id ensures c == c' {
      assert h.Live(OfClient(c)) && h.Live(OfClient(c')) && h.IdOf(OfClient(c)) == h.IdOf(OfClient(c'));
    }
  }

  lemma EntryClients(s: State, r: Ref)
    requires Inv(s) && r in s.servers
    ensures var es := s.servers[r].entries;
            && Distinct(es) && (forall e <- es :: ClientLive(s, e))
            && (forall e, e' | e in es && e' in es && ClientIdBehind(s, e) == ClientIdBehind(s, e') :: e == e')
            && (forall c <- s.clients :: ConnectedTo(s, c, r) <==>
                 exists e :: e in es && ClientIdBehind(s, e) == s.clients[c].id)
  {
    ServersDiffer(s.ids, HoldersOf(s));
    hide Owned, Pooled, Identified, Separate, Named, Enumerated, Linked, Listed;
    DriverClose.ConnSides(s);
    ListEntries(s.conns, s.servers, s.entries, r);
    OneConnEach(s.conns, s.clients, s.subs);
    forall c <- s.clients ensures ConnectedTo(s, c, r) <==>
        exists e :: e in s.servers[r].entries && ClientIdBehind(s, e) == s.clients[c].id {
      if ConnectedTo(s, c, r) {
        var k :| k in s.conns && s.conns[k].client == c && s.conns[k].server == r;
        var e :| e in s.servers[r].entries && s.entries[e] == k;
        assert ClientIdBehind(s, e) == s.clients[c].id;
      }
    }
  }

  lemma EntriesShown(s: State, r: Ref)
    requires Inv(s) && r in s.servers
    ensures var es, ids := s.servers[r].entries, ConnIds(s, s.servers[r].entries, MAX_CLIENTS_PER_SERVER);
            && (forall e <- es :: ClientLive(s, e))
            && |ids| == (if |es| <= MAX_CLIENTS_PER_SERVER then |es| else MAX_CLIENTS_PER_SERVER)
            && forall i | 0 <= i < |ids| :: ids[i] == ClientIdBehind(s, es[i])
  {
    hide Inv, Distinct, ConnectedTo, ConnIds;
    EntryClients(s, r);
  }

  lemma ListEntries(conns: map<Ref, Conn>, servers: map<Ref, Server>, entries: map<Ref, Ref>, r: Ref)
    requires Listed(conns, servers, entries) && r in servers
    ensures Distinct(servers[r].entries)
    ensures forall e <- servers[r].entries :: e in entries && entries[e] in conns && conns[entries[e]].server == r
    ensures forall e, e' | e in servers[r].entries && e' in servers[r].entries && entries[e] == entries[e'] :: e == e'
    ensures forall k <- conns :: conns[k].server == r ==> exists e :: e in servers[r].entries && entries[e] == k
  {
    hide Distinct;
    forall k <- conns ensures conns[k].server == r ==> exists e :: e in servers[r].entries && entries[e] == k {
      var e :| e in entries && entries[e] == k;
      assert conns[k].server == r ==> e in servers[r].entries;
    }
  }

  lemma OneConnEach(conns: map<Ref, Conn>, clients: map<Ref, Client>, subs: map<Ref, Sub>)
    requires Linked(conns, clients, subs)
    ensures forall k, k' | k in conns && k' in conns && conns[k].client == conns[k'].client :: k == k'
  {
  }

  /** The first sixteen entries are shown; a client further down is missing from its server's list. */
  lemma ServerSide(s: State, c: Ref, r: Ref)
    requires Inv(s) && c in s.clients && r in s.servers
    ensures Distinct(ServerData(s, r).connIds)
    ensures s.clients[c].id in ServerData(s, r).connIds ==> ConnectedTo(s, c, r)
    ensures |s.servers[r].entries| <= MAX_CLIENTS_PER_SERVER && ConnectedTo(s, c, r) ==>
            s.clients[c].id in ServerData(s, r).connIds
  {
    hide Inv, ConnectedTo, ClientIdBehind;
    EntryClients(s, r);
    var es, ids := s.servers[r].entries, ServerData(s, r).connIds;
    forall i, j | 0 <= i < j < |ids| ensures ids[i] != ids[j] {
      assert es[i] in es && es[j] in es;
    }
    if s.clients[c].id in ids {
      var i :| 0 <= i < |ids| && ids[i] == s.clients[c].id;
      assert es[i] in es;
    }
    if |es| <= MAX_CLIENTS_PER_SERVER && ConnectedTo(s, c, r) {
      var e :| e in es && ClientIdBehind(s, e) == s.clients[c].id;
      var i :| 0 <= i < |es| && es[i] == e;
      assert ids[i] == s.clients[c].id;
    }
  }

  /** With too many connections some client names the server, but the server's list does not name the client. */
  lemma SomeoneMissing(s: State, r: Ref) returns (c: Ref)
    requires Inv(s) && r in s.servers && |s.servers[r].entries| > MAX_CLIENTS_PER_SERVER
    ensures c in s.clients && !Agreeing(ClientData(s, c), ServerData(s, r))
  {
    hide Inv, ConnectedTo;
    EntryClients(s, r);
    var es, ids := s.servers[r].entries, ServerData(s, r).connIds;
    var e := es[MAX_CLIENTS_PER_SERVER];
    assert e in es;
    c := s.conns[s.entries[e]].client;
    ClientSide(s, c, r);
    forall i | 0 <= i < |ids| ensures ids[i] != s.clients[c].id {
      assert es[i] in es && es[i] != e;
    }
  }

  /** The two views agree in every snapshot exactly as long as no server has more connections than fit. */
  lemma SnapshotCoherent(s: State)
    requires Reachable(s)
    ensures Coherent(SnapshotOf(s)) <==> forall r <- s.servers :: |s.servers[r].entries| <= MAX_CLIENTS_PER_SERVER
  {
    hide Inv, Reachable, ServerData, ClientData, SnapshotOf, ConnectedTo, Agreeing;
    ReachableInv(s);
    if forall r <- s.servers :: |s.servers[r].entries| <= MAX_CLIENTS_PER_SERVER {
      forall a, b, x, y | 0 <= a < |SnapshotOf(s)| && 0 <= b < |SnapshotOf(s)| && x in SnapshotOf(s)[a].clients &&
          y in SnapshotOf(s)[b].servers
        ensures Agreeing(x, y)
      {
        var c := ShownClient(s, a, x);
        var r := ShownServer(s, b, y);
        BothSides(s, c, r);
      }
    }
    if r :| r in s.servers && |s.servers[r].entries| > MAX_CLIENTS_PER_SERVER {
      var c := SomeoneMissing(s, r);
      ClientShown(s, c);
      ServerShown(s, r);
    }
  }

  lemma BothSides(s: State, c: Ref, r: Ref)
    requires Inv(s) && c in s.clients && r in s.servers && |s.servers[r].entries| <= MAX_CLIENTS_PER_SERVER
    ensures Agreeing(ClientData(s, c), ServerData(s, r))
  {
    hide Inv, ConnectedTo, ConnIds;
    ClientSide(s, c, r);
    ServerSide(s, c, r);
  }
}
