/** The drained tables of the library agree with the driver at every point of a run, exactly as long as no
    server has had more mapped connections than its table holds. */
module MirrorRuns {
  import opened DriverModel
  import opened DriverInvariant
  import opened DriverCommands
  import opened DriverTeardown
  import opened DriverSteps
  import opened LibServer
  import opened Mirror
  import opened MirrorFacts
  import opened MirrorDriver
  import opened MirrorSteps
  import Seqs
  import DriverBudget
  import DriverPreservation
  import DriverFacts
  import DriverClose

  // ---------- disconnecting and unregistering ----------

  lemma DisconnectJoined(lib: Tables, s: State, who: Sender, k: Ref)
    requires Inv(s) && Joined(lib, s) && k in s.conns
    ensures var s' := UnlinkAll(Notify(s, who, REMOTE_DISCONNECT, k).0, [k]); Joined(lib, s') && TornDown(s, s')
  {
    hide Inv, UnlinkAll, TornDown, OnTrack, TablesOk;
    DisconnectTornDown(s, who, k);
    DisconnectOnTrack(lib, s, who, k);
    TornDownTables(lib, s, UnlinkAll(Notify(s, who, REMOTE_DISCONNECT, k).0, [k]));
  }

  lemma ClientDisconnectJoined(lib: Tables, s: State, id: int)
    requires Inv(s) && Joined(lib, s)
    ensures Joined(lib, ClientDisconnectStep(s, id).0)
  {
    hide Inv, Notify, UnlinkAll, Joined;
    var c := ClientById(s, id);
    if c != NULL && s.clients[c].conn != NULL {
      DriverFacts.ConnOfClient(s, c);
      DisconnectJoined(lib, s, CLIENT, s.clients[c].conn);
    }
  }

  lemma ServerDisconnectJoined(lib: Tables, s: State, id: int, subId: int)
    requires Inv(s) && Joined(lib, s)
    ensures Joined(lib, ServerDisconnectStep(s, id, subId).0)
  {
    hide Inv, Notify, UnlinkAll, Joined;
    var r := ServerById(s, id);
    if r != NULL {
      var e := EntryByMem(s, r, subId);
      if e != NULL {
        DisconnectJoined(lib, s, SERVER, s.entries[e]);
      }
    }
  }

  lemma ClientUnregisterJoined(lib: Tables, s: State, id: int)
    requires Inv(s) && Joined(lib, s)
    ensures Joined(lib, ClientUnregisterStep(s, id).0)
  {
    hide Inv, Notify, UnlinkAll, OnTrack, TablesOk, RemoveClient;
    ClientDisconnectJoined(lib, s, id);
    ClientDisconnectInv(s, id);
    var c := ClientById(s, id);
    var s1, s' := ClientDisconnectStep(s, id).0, ClientUnregisterStep(s, id).0;
    if s' != s1 {
      ClientUnregisterInv(s, id);
      ClientGone(s1, c);
      Destroyed(lib, lib, s1, s');
      SameTables(lib, s1, s');
    }
  }

  lemma ClientGone(s: State, c: Ref)
    requires c in s.clients && s.clients[c].task in s.tasks
    ensures var s' := RemoveClient(s, c);
            && s'.conns == s.conns && s'.subs == s.subs && s'.servers == s.servers && s'.tasks.Keys == s.tasks.Keys
            && (forall x <- s'.clients :: x in s.clients && s'.clients[x] == s.clients[x])
            && (forall t <- s'.tasks :: s'.tasks[t].queue == s.tasks[t].queue)
  {
  }

  lemma ServerGone(s: State, r: Ref)
    requires r in s.servers && s.servers[r].task in s.tasks
    ensures var s' := RemoveServer(s, r);
            && s'.conns == s.conns && s'.subs == s.subs && s'.clients == s.clients && s'.tasks.Keys == s.tasks.Keys
            && s'.servers == s.servers - {r}
            && (forall x <- s'.servers :: x in s.servers && s'.servers[x] == s.servers[x])
            && (forall t <- s'.tasks :: s'.tasks[t].queue == s.tasks[t].queue)
  {
  }

  /** Server identifiers tell servers apart. */
  lemma ServerIdTells(s: State, r: Ref, x: Ref)
    requires Inv(s) && r in s.servers && x in s.servers
    ensures s.servers[x].id == s.servers[r].id ==> x == r
  {
    OwnersTell(s.ids, HoldersOf(s), OfServer(r), OfServer(x));
    hide Inv;
  }

  lemma NoFactsOfServer(s: State, r: Ref)
    requires Inv(s) && r in s.servers && forall k <- s.conns :: s.conns[k].server != r
    ensures Of(FactsOf(s), s.servers[r].task, s.servers[r].id) == {}
  {
    hide Inv;
    AllWhole(s);
    forall k <- s.conns ensures FactOf(s, k).server != s.servers[r].id {
      ServerIdTells(s, r, s.conns[k].server);
    }
    hide FactOf, Whole;
  }

  /** The table of a server without connections may be dropped. */
  lemma DropTable(lib: Tables, s: State, t: Ref, id: int)
    requires OnTrack(lib, s) && t in lib && Of(FactsOf(s), t, id) == {}
    ensures OnTrack(lib[t := lib[t] - {id}], s)
  {
    hide Leads, FactsOf;
    var lib' := lib[t := lib[t] - {id}];
    forall x, i: int | x in QueuesOf(s) ensures Leads(Base(lib', x, i), QueuesOf(s)[x], FactsOf(s), x, i) {
      assert Leads(Base(lib, x, i), QueuesOf(s)[x], FactsOf(s), x, i);
      if x == t && i == id {
        Rebase(Base(lib, t, id), map[], QueuesOf(s)[t], FactsOf(s), t, id);
      }
    }
  }

  lemma RemovedServerIds(servers: map<Ref, DriverModel.Server>, r: Ref, t: Ref)
    requires r in servers && forall x <- servers :: servers[x].id == servers[r].id ==> x == r
    ensures ServerIds(servers - {r}, t) ==
              if t == servers[r].task then ServerIds(servers, t) - {servers[r].id} else ServerIds(servers, t)
  {
    var servers' := servers - {r};
    forall id
      ensures id in ServerIds(servers', t) <==>
                id in ServerIds(servers, t) && !(t == servers[r].task && id == servers[r].id)
    {
      if id in ServerIds(servers, t) && !(t == servers[r].task && id == servers[r].id) {
        var x :| x in servers && servers[x].task == t && servers[x].id == id;
        assert x in servers' && servers'[x] == servers[x];
      }
    }
  }

  lemma DropTableOk(lib: Tables, s: State, r: Ref, s': State)
    requires Inv(s) && TablesOk(lib, s) && r in s.servers && s.servers[r].task in lib
    requires s'.tasks.Keys == s.tasks.Keys && s'.servers == s.servers - {r}
    ensures TablesOk(lib[s.servers[r].task := lib[s.servers[r].task] - {s.servers[r].id}], s')
  {
    hide Inv, ServerIds, TaskTables;
    forall x <- s.servers ensures s.servers[x].id == s.servers[r].id ==> x == r {
      ServerIdTells(s, r, x);
    }
    var t, id := s.servers[r].task, s.servers[r].id;
    var lib' := lib[t := lib[t] - {id}];
    forall x <- lib' ensures TaskTables(lib'[x], ServerIds(s'.servers, x)) {
      RemovedServerIds(s.servers, r, x);
      OneTableLess(lib[x], ServerIds(s.servers, x), id);
    }
  }

  lemma OneTableLess(tables: map<int, Table>, ids: set<int>, id: int)
    requires TaskTables(tables, ids)
    ensures TaskTables(tables - {id}, ids - {id})
  {
  }

  lemma ServerUnregisterJoined(lib: Tables, s: State, id: int)
    requires Inv(s) && Joined(lib, s)
    ensures Joined(LibStep(s, ServerUnregister(id), lib), ServerUnregisterStep(s, id).0)
  {
    hide Inv, CleanServer, OnTrack, TablesOk, Trimmed, OnlyDisconnects, RemoveServer, FactsOf;
    var r := ServerById(s, id);
    if r != NULL {
      var s1 := CleanServer(s, r);
      CleanServerOnTrack(lib, s, r);
      CleanServerTornDown(s, r);
      TornDownTables(lib, s, s1);
      DriverClose.TrimmedKeys(s, s1);
      LibTasks(lib, s1);
      UnregisterRest(lib, s1, r);
      var t := s.servers[r].task;
    }
  }

  lemma UnregisterRest(lib: Tables, s: State, r: Ref)
    requires Inv(s) && Joined(lib, s) && r in s.servers && forall k <- s.conns :: s.conns[k].server != r
    ensures s.servers[r].task in lib && s.servers[r].task in s.tasks
    ensures var t, id := s.servers[r].task, s.servers[r].id;
            Joined(lib[t := lib[t] - {id}], RemoveServer(s, r))
  {
    hide Inv, OnTrack, TablesOk, RemoveServer, FactsOf;
    DriverClose.NoConnsNoEntries(s, r);
    DriverPreservation.RemoveServerInv(s, r);
    ServerGone(s, r);
    LibTasks(lib, s);
    var t, id := s.servers[r].task, s.servers[r].id;
    var lib' := lib[t := lib[t] - {id}];
    NoFactsOfServer(s, r);
    DropTable(lib, s, t, id);
    Destroyed(lib', lib', s, RemoveServer(s, r));
    DropTableOk(lib, s, r, RemoveServer(s, r));
  }

  // ---------- reading and closing ----------

  lemma NoServerNoFacts(s: State, t: Ref, id: int)
    requires Inv(s) && id !in ServerIds(s.servers, t)
    ensures Of(FactsOf(s), t, id) == {}
  {
    hide Inv;
    AllWhole(s);
    forall k <- s.conns ensures FactOf(s, k).task != t || FactOf(s, k).server != id {
      assert s.conns[k].server in s.servers;
    }
    hide FactOf, Whole;
  }

  /** Popping a notification and handing it to the table it is for. */
  lemma DispatchLeads(tables: map<int, Table>, q: seq<Notif>, fs: Facts, t: Ref, id: int, granted: bool)
    requires q != [] && (id in tables ==> TableOk(tables[id])) && (id !in tables ==> Of(fs, t, id) == {})
    requires Leads(if id in tables then PairsOf(tables[id].conns) else map[], q, fs, t, id)
    ensures var tables' := Dispatch(tables, q[0], granted);
            && (id in tables' <==> id in tables) && (id in tables' ==> TableOk(tables'[id]))
            && Leads(if id in tables' then PairsOf(tables'[id].conns) else map[], q[1..], fs, t, id)
  {
    hide Leads, TableOk, Handle, Good, Consistent, Of;
    var m := if id in tables then PairsOf(tables[id].conns) else map[];
    PopLeads(m, q, fs, t, id);
    if id in tables {
      if q[0].who == CLIENT && q[0].receiver == id {
        HandleFollows(tables[id], id, q[0], granted);
      }
    } else {
      Rebase(Apply(m, id, q[0]), map[], q[1..], fs, t, id);
    }
  }

  lemma PopFacts(s: State, t: Ref)
    requires t in s.tasks && s.tasks[t].queue != []
    ensures FactsOf(Pop(s, t)) == FactsOf(s)
    ensures QueuesOf(Pop(s, t)) == QueuesOf(s)[t := QueuesOf(s)[t][1..]]
  {
    PopSides(s, t);
    hide Whole, FactOf;
  }

  lemma PopSides(s: State, t: Ref)
    requires t in s.tasks && s.tasks[t].queue != []
    ensures forall k :: Whole(Pop(s, t), k) == Whole(s, k)
    ensures forall k | Whole(s, k) :: FactOf(Pop(s, t), k) == FactOf(s, k)
  {
  }

  lemma ReadOnTrack(lib: Tables, s: State, t: Ref, granted: bool)
    requires Inv(s) && Joined(lib, s) && t in s.tasks && s.tasks[t].queue != []
    ensures t in lib && OnTrack(lib[t := Dispatch(lib[t], s.tasks[t].queue[0], granted)], Pop(s, t))
  {
    hide Inv, Leads, FactsOf, TableOk, ServerIds, Handle, Pop, Dispatch;
    PopFacts(s, t);
    var q, fs := s.tasks[t].queue, FactsOf(s);
    var lib' := lib[t := Dispatch(lib[t], q[0], granted)];
    forall x, id: int | x in QueuesOf(Pop(s, t)) ensures Leads(Base(lib', x, id), QueuesOf(Pop(s, t))[x], fs, x, id) {
      assert x in QueuesOf(s) && Leads(Base(lib, x, id), QueuesOf(s)[x], fs, x, id);
      if x == t {
        ReadLeads(lib, s, t, id, granted);
      }
    }
  }

  lemma ReadLeads(lib: Tables, s: State, t: Ref, id: int, granted: bool)
    requires Inv(s) && TablesOk(lib, s) && t in s.tasks && s.tasks[t].queue != []
    requires Leads(Base(lib, t, id), s.tasks[t].queue, FactsOf(s), t, id)
    ensures t in lib && Leads(Base(lib[t := Dispatch(lib[t], s.tasks[t].queue[0], granted)], t, id),
            s.tasks[t].queue[1..], FactsOf(s), t, id)
  {
    hide Inv, Leads, FactsOf, TableOk, ServerIds, Handle, Dispatch, Of;
    if id !in lib[t] {
      NoServerNoFacts(s, t, id);
    }
    DispatchLeads(lib[t], s.tasks[t].queue, FactsOf(s), t, id, granted);
  }

  lemma ReadTables(lib: Tables, s: State, t: Ref, s': State, granted: bool)
    requires Inv(s) && Joined(lib, s) && t in s.tasks && s.tasks[t].queue != []
    requires s'.tasks.Keys == s.tasks.Keys && s'.servers == s.servers
    ensures t in lib && TablesOk(lib[t := Dispatch(lib[t], s.tasks[t].queue[0], granted)], s')
  {
    hide Inv, Leads, FactsOf, TableOk, ServerIds, Handle, Dispatch, Of;
    var q := s.tasks[t].queue;
    forall id: int ensures (id in Dispatch(lib[t], q[0], granted) <==> id in lib[t]) &&
        (id in lib[t] ==> TableOk(Dispatch(lib[t], q[0], granted)[id])) {
      assert t in QueuesOf(s) && Leads(Base(lib, t, id), QueuesOf(s)[t], FactsOf(s), t, id);
      if id !in lib[t] {
        NoServerNoFacts(s, t, id);
      }
      DispatchLeads(lib[t], q, FactsOf(s), t, id, granted);
    }
  }

  lemma ReadJoined(lib: Tables, s: State, t: Ref, count: int)
    requires Inv(s) && Joined(lib, s) && t in s.tasks && NOTIF_SIZE <= count
    ensures Joined(LibStep(s, Read(t, count), lib), ReadStep(s, t, count).0)
  {
    hide Inv, TablesOk, OnTrack, Dispatch;
    LibTasks(lib, s);
    if !s.tasks[t].monitor && s.tasks[t].queue != [] {
      var n := s.tasks[t].queue[0];
      ReadOnTrack(lib, s, t, Grants(s, n.receiver, n.subId));
      ReadTables(lib, s, t, Pop(s, t), Grants(s, n.receiver, n.subId));
    }
  }

  lemma CloseJoined(lib: Tables, s: State, t: Ref)
    requires Inv(s) && Joined(lib, s) && t in s.tasks
    ensures Joined(lib - {t}, CloseTask(s, t))
  {
    hide Inv, CloseTask, OnTrack, TablesOk, Trimmed, OnlyDisconnects, TrimmedSubs, TrimmedEntries, DriverClose.Touches,
         DriverClose.OwnIds;
    CloseOnTrack(lib, s, t);
    DriverClose.CloseTaskEffect(s, t);
    CloseTables(lib, s, CloseTask(s, t), t);
  }

  lemma CloseTables(lib: Tables, s: State, s': State, t: Ref)
    requires TablesOk(lib, s) && s'.tasks.Keys == s.tasks.Keys - {t}
    requires s'.servers.Keys == (set r | r in s.servers && s.servers[r].task != t)
    requires forall r <- s'.servers :: s'.servers[r] == s.servers[r].(entries := s'.servers[r].entries)
    ensures TablesOk(lib - {t}, s')
  {
    hide TaskTables;
    assert forall x | x != t :: ServerIds(s'.servers, x) == ServerIds(s.servers, x);
    hide ServerIds;
  }

  // ---------- every step ----------

  lemma StepJoined(lib: Tables, s: State, cmd: Cmd)
    requires Inv(s) && Joined(lib, s) && CmdOk(s, cmd) && WholeRead(cmd) && Capped(FactsOf(Step(s, cmd).0))
    ensures Joined(LibStep(s, cmd, lib), Step(s, cmd).0)
  {
    hide Inv, OpenStep, RegisterServerStep, RegisterClientStep, RegisterMonitorStep, ConnectStep, ClientEndWritingStep,
         ServerEndWritingStep, ClientDisconnectStep, ServerDisconnectStep, ClientUnregisterStep, ServerUnregisterStep,
         MmapStep, ReadStep, CloseTask, Seqs.Distinct, Joined, FactsOf, Capped;
    match cmd
    case Open(process, t) => OpenJoined(lib, s, process, t);
    case RegisterServer(t, name, r) => RegisterServerJoined(lib, s, t, name, r);
    case RegisterClient(t, c) => RegisterClientJoined(lib, s, t, c);
    case RegisterMonitor(t) => RegisterMonitorJoined(lib, s, t);
    case Connect(id, name, k, e, p, us) => ConnectJoined(lib, s, id, name, k, e, p, us);
    case ClientEndWriting(id) => EndWritingJoined(lib, s, id, 0);
    case ServerEndWriting(id, subId) => EndWritingJoined(lib, s, id, subId);
    case ClientDisconnect(id) => ClientDisconnectJoined(lib, s, id);
    case ServerDisconnect(id, subId) => ServerDisconnectJoined(lib, s, id, subId);
    case ClientUnregister(id) => ClientUnregisterJoined(lib, s, id);
    case ServerUnregister(id) => ServerUnregisterJoined(lib, s, id);
    case Mmap(targetId, subId) => MmapJoined(lib, s, targetId, subId);
    case Read(t, count) => ReadJoined(lib, s, t, count);
    case Close(t) => CloseJoined(lib, s, t);
  }

  // ---------- what is claimed about a single state ----------

  /** The connections of server r whose client has mapped its memory. */
  function MappedConns(s: State, r: Ref): set<Ref> {
    set k | k in s.conns && s.conns[k].server == r && s.conns[k].mapped
  }

  /** No server has more mapped connections than its table holds. */
  ghost predicate Fits(s: State) {
    forall r <- s.servers :: |MappedConns(s, r)| <= MAX_CLIENTS_PER_SERVER
  }

  /** Server r has a mapped connection to the client with identifier c over the sub-memory with identifier u. */
  ghost predicate MappedTo(s: State, r: Ref, c: int, u: int) {
    exists k :: k in MappedConns(s, r) && Whole(s, k) && s.clients[s.conns[k].client].id == c &&
        s.subs[s.conns[k].mem].id == u
  }

  /** The sub-memories that the driver maps for server id. */
  function Granted(s: State, id: int): set<int> {
    set u | u in s.ids && Grants(s, id, u)
  }

  /** What the table of server r will be once the library has processed all that waits for its task. */
  function Drained(s: State, lib: Tables, r: Ref): Table
    requires r in s.servers
  {
    var t, id := s.servers[r].task, s.servers[r].id;
    if t in s.tasks && t in lib && id in lib[t] then Drain(lib[t][id], id, s.tasks[t].queue, Granted(s, id)) else EMPTY
  }

  /** Drained tables list exactly the driver's mapped connections, each client and sub-memory once. */
  ghost predicate Faithful(s: State, lib: Tables) {
    forall r <- s.servers ::
      && TableOk(Drained(s, lib, r))
      && forall c, u :: ConnInfo(c, u) in Drained(s, lib, r).conns <==> MappedTo(s, r, c, u)
  }

  lemma ServerFacts(s: State, r: Ref)
    requires Inv(s) && r in s.servers
    ensures Of(FactsOf(s), s.servers[r].task, s.servers[r].id) == MappedConns(s, r)
  {
    hide Inv;
    AllWhole(s);
    forall k <- s.conns ensures FactOf(s, k).server == s.servers[r].id <==> s.conns[k].server == r {
      ServerIdTells(s, r, s.conns[k].server);
    }
    assert forall k <- s.conns :: s.conns[k].server == r ==> FactOf(s, k).task == s.servers[r].task;
    hide FactOf, Whole;
  }

  lemma FitsCapped(s: State)
    requires Inv(s) && Fits(s)
    ensures Capped(FactsOf(s))
  {
    hide Inv, FactsOf, Of, MappedConns;
    forall t, id ensures |Of(FactsOf(s), t, id)| <= MAX_CLIENTS_PER_SERVER {
      if id in ServerIds(s.servers, t) {
        var r :| r in s.servers && s.servers[r].task == t && s.servers[r].id == id;
        ServerFacts(s, r);
      } else {
        NoServerNoFacts(s, t, id);
      }
    }
  }

  lemma AgreeMapped(s: State, r: Ref, m: Pairs)
    requires Inv(s) && r in s.servers && Agree(m, FactsOf(s), s.servers[r].task, s.servers[r].id)
    ensures forall c, u :: c in m && m[c] == u <==> MappedTo(s, r, c, u)
  {
    hide Inv;
    ServerFacts(s, r);
    AllWhole(s);
    var fs, t, id := FactsOf(s), s.servers[r].task, s.servers[r].id;
    assert forall k <- MappedConns(s, r) :: k in Of(fs, t, id) && fs[k] == FactOf(s, k);
    forall c | c in m ensures MappedTo(s, r, c, m[c]) {
      var k :| k in fs && fs[k] == Fact(t, id, c, m[c]);
      assert k in Of(fs, t, id);
    }
  }

  lemma MappedAgree(s: State, r: Ref, m: Pairs)
    requires Inv(s) && r in s.servers && forall c, u :: c in m && m[c] == u <==> MappedTo(s, r, c, u)
    ensures Agree(m, FactsOf(s), s.servers[r].task, s.servers[r].id)
  {
    hide Inv;
    ServerFacts(s, r);
    AllWhole(s);
    var fs, t, id := FactsOf(s), s.servers[r].task, s.servers[r].id;
    assert forall k <- MappedConns(s, r) :: k in Of(fs, t, id) && fs[k] == FactOf(s, k);
    forall k <- Of(fs, t, id) ensures fs[k].client in m && m[fs[k].client] == fs[k].sub {
      assert MappedTo(s, r, fs[k].client, fs[k].sub);
    }
    forall c <- m ensures HasFact(fs, Fact(t, id, c, m[c])) {
      assert MappedTo(s, r, c, m[c]);
      var k :| k in MappedConns(s, r) && Whole(s, k) && s.clients[s.conns[k].client].id == c &&
          s.subs[s.conns[k].mem].id == m[c];
      assert fs[k] == Fact(t, id, c, m[c]);
    }
  }

  lemma JoinedFaithful(lib: Tables, s: State)
    requires Inv(s) && Joined(lib, s)
    ensures Faithful(s, lib)
  {
    hide Inv, FactsOf, MappedTo, TableOk;
    forall r <- s.servers
      ensures TableOk(Drained(s, lib, r))
      ensures forall c, u :: ConnInfo(c, u) in Drained(s, lib, r).conns <==> MappedTo(s, r, c, u)
    {
      DrainedFaithful(lib, s, r);
    }
  }

  lemma DrainedFaithful(lib: Tables, s: State, r: Ref)
    requires Inv(s) && Joined(lib, s) && r in s.servers
    ensures TableOk(Drained(s, lib, r))
    ensures forall c, u :: ConnInfo(c, u) in Drained(s, lib, r).conns <==> MappedTo(s, r, c, u)
  {
    hide Inv, FactsOf, MappedTo, Agree, GoodRun, Drain, ServerIds, TableOk;
    var t, id := s.servers[r].task, s.servers[r].id;
    ServerTable(lib, s, r);
    assert t in QueuesOf(s) && Leads(Base(lib, t, id), QueuesOf(s)[t], FactsOf(s), t, id);
    DrainFollows(lib[t][id], id, s.tasks[t].queue, Granted(s, id));
    TableUnique(Drained(s, lib, r));
    PairsOfMeaning(Drained(s, lib, r).conns);
    AgreeMapped(s, r, PairsOf(Drained(s, lib, r).conns));
  }

  lemma TableUnique(t: Table)
    requires TableOk(t)
    ensures UniqueClients(t.conns)
  {
  }

  lemma ServerTable(lib: Tables, s: State, r: Ref)
    requires Inv(s) && TablesOk(lib, s) && r in s.servers
    ensures var t, id := s.servers[r].task, s.servers[r].id;
            t in s.tasks && t in lib && id in lib[t] && TableOk(lib[t][id])
  {
    hide TableOk, Linked, Listed, Pooled, Identified, Separate, Named, Enumerated;
    DriverBudget.OwnersLive(s.tasks, s.clients, s.servers);
  }

  // ---------- whole runs ----------

  /** The driver and the libraries side by side. */
  ghost predicate SystemRun(states: seq<State>, cmds: seq<Cmd>, libs: seq<Tables>) {
    && Behavior(states, cmds) && |libs| == |states| && libs[0] == map[]
    && forall i | 0 <= i < |cmds| :: WholeRead(cmds[i]) && libs[i + 1] == LibStep(states[i], cmds[i], libs[i])
  }

  lemma {:induction false} AlwaysJoined(states: seq<State>, cmds: seq<Cmd>, libs: seq<Tables>, n: nat)
    requires SystemRun(states, cmds, libs) && n < |states| && forall i | 0 <= i <= n :: Fits(states[i])
    ensures Joined(libs[n], states[n])
  {
    hide Inv, CmdOk, Step, Fits, WholeRead, LibStep, Joined, FactsOf;
    if n == 0 {
      NothingJoined();
    } else {
      AlwaysJoined(states, cmds, libs, n - 1);
      AlwaysInv(states, cmds, n - 1);
      AlwaysInv(states, cmds, n);
      FitsCapped(states[n]);
      StepJoined(libs[n - 1], states[n - 1], cmds[n - 1]);
    }
  }

  lemma NothingJoined()
    ensures Joined(map[], INITIAL)
  {
  }

  ghost predicate Bounded(lib: Tables) {
    forall t, id | t in lib && id in lib[t] :: |lib[t][id].conns| <= MAX_SERVERS_CONNECTIONS
  }

  /** Tables stay within their limit whatever happens. */
  lemma {:induction false} AlwaysBounded(states: seq<State>, cmds: seq<Cmd>, libs: seq<Tables>, n: nat)
    requires SystemRun(states, cmds, libs) && n < |states|
    ensures Bounded(libs[n])
  {
    hide CmdOk, Step, LibStep, Bounded;
    if n == 0 {
      NoneBounded();
    } else {
      AlwaysBounded(states, cmds, libs, n - 1);
      StepBounded(libs[n - 1], states[n - 1], cmds[n - 1]);
    }
  }

  lemma NoneBounded()
    ensures Bounded(map[])
  {
  }

  lemma StepBounded(lib: Tables, s: State, cmd: Cmd)
    requires Bounded(lib) && CmdOk(s, cmd)
    ensures Bounded(LibStep(s, cmd, lib))
  {
    hide CmdOk;
  }

  lemma FaithfulFits(lib: Tables, s: State)
    requires Inv(s) && Bounded(lib) && Faithful(s, lib)
    ensures Fits(s)
  {
    hide Inv, FactsOf, MappedTo, Drain, TableOk, MappedConns;
    forall r <- s.servers ensures |MappedConns(s, r)| <= MAX_CLIENTS_PER_SERVER {
      var table := Drained(s, lib, r);
      var t, id := s.servers[r].task, s.servers[r].id;
      if t in s.tasks && t in lib && id in lib[t] {
        DrainBounded(lib[t][id], id, s.tasks[t].queue, Granted(s, id));
      }
      TableUnique(table);
      PairsOfMeaning(table.conns);
      MappedAgree(s, r, PairsOf(table.conns));
      FactsUnique(s);
      AgreeSize(PairsOf(table.conns), FactsOf(s), t, id);
      ServerFacts(s, r);
    }
  }

  /** As long as, and only as long as, no server has had more mapped connections than its table holds, the
      drained table of every live server lists exactly the driver's mapped connections. Repeated disconnect
      notifications and the reuse of identifiers do not matter. */
  lemma MirrorFaithful(states: seq<State>, cmds: seq<Cmd>, libs: seq<Tables>, n: nat)
    requires SystemRun(states, cmds, libs) && n < |states|
    ensures (forall i | 0 <= i <= n :: Fits(states[i])) <==> (forall i | 0 <= i <= n :: Faithful(states[i], libs[i]))
  {
    hide Fits, Faithful, Behavior;
    if forall i | 0 <= i <= n :: Fits(states[i]) {
      forall i | 0 <= i <= n ensures Faithful(states[i], libs[i]) {
        AlwaysJoined(states, cmds, libs, i);
        AlwaysInv(states, cmds, i);
        JoinedFaithful(libs[i], states[i]);
      }
    }
    if forall i | 0 <= i <= n :: Faithful(states[i], libs[i]) {
      forall i | 0 <= i <= n ensures Fits(states[i]) {
        AlwaysInv(states, cmds, i);
        AlwaysBounded(states, cmds, libs, i);
        FaithfulFits(libs[i], states[i]);
      }
    }
  }
}
