/** When each call succeeds, when it fails with which error, and what a successful one has done, in terms of the
    objects that exist rather than of the searches for them. */
module DriverOutcomes {
  import opened Seqs
  import opened IdSpace
  import opened DriverModel
  import opened DriverInvariant
  import opened DriverCommands
  import opened DriverFacts
  import opened DriverTeardown
  import opened DriverSteps
  import opened DriverLinks
  import opened MirrorDriver
  import opened DriverChannels
  import DriverPreservation
  import DriverClose
  import DriverQueues
  import DriverStays
  import DriverZero

  ghost predicate ClientExists(s: State, id: int) {
    exists c :: c in s.clients && s.clients[c].id == id
  }

  ghost predicate ServerExists(s: State, id: int) {
    exists r :: r in s.servers && s.servers[r].id == id
  }

  ghost predicate NameTaken(s: State, name: string) {
    exists r :: r in s.servers && s.servers[r].name == name
  }

  /** k is the connection of the client with this identifier. */
  predicate ConnOf(s: State, id: int, k: Ref) {
    Whole(s, k) && FactOf(s, k).client == id
  }

  /** k connects the server with this identifier over the sub-memory with that one. */
  predicate ConnOver(s: State, id: int, subId: int, k: Ref) {
    Whole(s, k) && FactOf(s, k).server == id && FactOf(s, k).sub == subId
  }

  ghost predicate Connected(s: State, id: int) {
    exists k :: ConnOf(s, id, k)
  }

  ghost predicate ConnectedOver(s: State, id: int, subId: int) {
    exists k :: ConnOver(s, id, subId, k)
  }

  // ---------- searches ----------

  lemma ClientSearch(s: State, id: int)
    requires Inv(s)
    ensures var c := ClientById(s, id);
            && (c != NULL <==> ClientExists(s, id))
            && (c != NULL ==> c in s.clients && s.clients[c].id == id)
            && (c != NULL && s.clients[c].conn != NULL <==> Connected(s, id))
            && (c != NULL && s.clients[c].conn != NULL ==> ConnOf(s, id, s.clients[c].conn))
  {
    hide Inv;
    var c := ClientById(s, id);
    if ClientExists(s, id) {
      var x :| x in s.clients && s.clients[x].id == id;
      ClientFound(s, x);
    }
    ClientsNotNull(s);
    AllWhole(s);
    if c != NULL && s.clients[c].conn != NULL {
      ConnOfClient(s, c);
      WholeParts(s, s.clients[c].conn);
      assert ConnOf(s, id, s.clients[c].conn);
    }
    if Connected(s, id) {
      var k :| ConnOf(s, id, k);
      WholeParts(s, k);
      ConnOfBoth(s, k);
      ClientFound(s, s.conns[k].client);
    }
  }

  lemma ClientsNotNull(s: State)
    requires Inv(s)
    ensures NULL !in s.clients && NULL !in s.servers && NULL !in s.entries
  {
    hide Inv;
    InvParts(s);
  }

  lemma ServerSearch(s: State, id: int, subId: int)
    requires Inv(s)
    ensures var r := ServerById(s, id);
            && (r != NULL <==> ServerExists(s, id))
            && (r != NULL ==> r in s.servers && s.servers[r].id == id)
            && (r != NULL && EntryByMem(s, r, subId) != NULL <==> ConnectedOver(s, id, subId))
            && (r != NULL && EntryByMem(s, r, subId) != NULL ==>
                  EntryByMem(s, r, subId) in s.entries && ConnOver(s, id, subId, s.entries[EntryByMem(s, r, subId)]))
  {
    hide Inv, EntryByMem;
    var r := ServerById(s, id);
    if ServerExists(s, id) {
      var x :| x in s.servers && s.servers[x].id == id;
      ServerFound(s, x);
    }
    ClientsNotNull(s);
    AllWhole(s);
    if r != NULL && EntryByMem(s, r, subId) != NULL {
      EntryOfServer(s, r, subId);
      EntryId(s, r, subId);
      WholeParts(s, s.entries[EntryByMem(s, r, subId)]);
      assert ConnOver(s, id, subId, s.entries[EntryByMem(s, r, subId)]);
    }
    if ConnectedOver(s, id, subId) {
      var k :| ConnOver(s, id, subId, k);
      WholeParts(s, k);
      ConnOfBoth(s, k);
      ServerFound(s, s.conns[k].server);
      EntryThere(s, k);
    }
  }

  lemma EntryId(s: State, r: Ref, subId: int)
    requires Inv(s) && r in s.servers && EntryByMem(s, r, subId) != NULL
    ensures var e := EntryByMem(s, r, subId);
            e in s.entries && s.entries[e] in s.conns && Whole(s, s.entries[e]) && FactOf(s, s.entries[e]).sub == subId
  {
    hide Inv;
    AllWhole(s);
  }

  lemma NameSearch(s: State, name: string)
    requires Inv(s)
    ensures ServerByName(s, name) != NULL <==> NameTaken(s, name)
  {
    hide Inv;
    InvParts(s);
  }

  // ---------- the calls ----------

  /** Opening fails only when sixteen tasks are open or this process has one already. */
  lemma OpenOutcome(s: State, process: nat, t: Ref)
    requires Reachable(s) && t != NULL && t !in s.tasks
    ensures var (s', ret) := OpenStep(s, process, t);
            && (ret == -ENOSPC <==> |s.tasks| == MAX_PROCESSES)
            && (ret == -ENOMEM <==> |s.tasks| < MAX_PROCESSES && Registered(s, process))
            && (ret == 0 <==> |s.tasks| < MAX_PROCESSES && !Registered(s, process))
            && (ret != 0 ==> s' == s)
            && (ret == 0 ==>
                  && s' == s.(tasks := s'.tasks, taskList := [t] + s.taskList) && s'.tasks - {t} == s.tasks
                  && t in s'.tasks && s'.tasks[t] == Task(process, false, [], 0, [], 0, [], 0))
  {
    hide Inv, Reachable, Registered, AddTask;
    ReachableInv(s);
    ListsLive(s);
    TasksBounded(s);
    TaskAdded(s, process, t);
  }

  lemma TaskAdded(s: State, process: nat, t: Ref)
    requires t !in s.tasks
    ensures var s' := AddTask(s, t, process);
            && s' == s.(tasks := s'.tasks, taskList := [t] + s.taskList) && s'.tasks - {t} == s.tasks
            && t in s'.tasks && s'.tasks[t] == Task(process, false, [], 0, [], 0, [], 0)
  {
  }

  /** The lowest identifier that was not in use, taken. */
  ghost predicate TakesId(ids: set<int>, ids': set<int>, id: int) {
    ValidId(id) && id !in ids && (forall j | 0 <= j < id :: j in ids) && ids' == ids + {id}
  }

  /** Server r is new, and nothing else has changed but the lists it is entered in. */
  ghost predicate ServerAdded(s: State, s': State, t: Ref, r: Ref, name: string) {
    && r in s'.servers && s'.servers == s.servers[r := DriverModel.Server(s'.servers[r].id, name, t, [])]
    && TakesId(s.ids, s'.ids, s'.servers[r].id)
    && t in s.tasks && s'.tasks == s.tasks[t := s.tasks[t].(servers := [r] + s.tasks[t].servers,
                                                          numServers := |s.tasks[t].servers| + 1)]
    && s' == s.(servers := s'.servers, serverList := s.serverList + [r], tasks := s'.tasks, ids := s'.ids)
  }

  ghost predicate ClientAdded(s: State, s': State, t: Ref, c: Ref) {
    && c in s'.clients && s'.clients == s.clients[c := Client(s'.clients[c].id, t, NULL)]
    && TakesId(s.ids, s'.ids, s'.clients[c].id)
    && t in s.tasks && s'.tasks == s.tasks[t := s.tasks[t].(clients := [c] + s.tasks[t].clients,
                                                          numClients := |s.tasks[t].clients| + 1)]
    && s' == s.(clients := s'.clients, clientList := s.clientList + [c], tasks := s'.tasks, ids := s'.ids)
  }

  lemma TasksBounded(s: State)
    requires Inv(s)
    ensures |s.taskList| <= MAX_PROCESSES
  {
    hide Linked, Listed, Owned, Pooled, Identified, Separate, Named, Lists;
  }

  /** A server is refused for a monitor, for a task with sixteen servers, and for a name that is taken. */
  lemma RegisterServerOutcome(s: State, t: Ref, name: string, r: Ref)
    requires Reachable(s) && CmdOk(s, RegisterServer(t, name, r))
    ensures var (s', ret) := RegisterServerStep(s, t, name, r);
            var full := s.tasks[t].monitor || |s.tasks[t].servers| == MAX_SERVERS_PER_PID;
            && (ret == -ENOSPC <==> full) && (ret == -EEXIST <==> !full && NameTaken(s, name))
            && (ret == 0 <==> !full && !NameTaken(s, name))
            && (ret != 0 ==> s' == s)
            && (ret == 0 ==> ServerAdded(s, s', t, r, name))
  {
    hide Inv, Reachable, ServerByName, Distinct, AddServer, ServerAdded;
    ReachableInv(s);
    TaskCounters(s, t);
    NameSearch(s, name);
    if RegisterServerStep(s, t, name, r).1 == 0 {
      NewIdFree(s, t);
      ServerIsAdded(s, t, r, name);
    }
  }

  lemma NewIdFree(s: State, t: Ref)
    requires Inv(s) && t in s.tasks
    requires s.tasks[t].numClients < MAX_CLIENTS_PER_PID || s.tasks[t].numServers < MAX_SERVERS_PER_PID
    ensures TakesId(s.ids, Taken(s.ids), GenerateId(s.ids))
  {
    hide Inv, GenerateId;
    DriverPreservation.IdRoom(s, t);
    GenerateDense(s.ids);
  }

  lemma ServerIsAdded(s: State, t: Ref, r: Ref, name: string)
    requires t in s.tasks && TakesId(s.ids, Taken(s.ids), GenerateId(s.ids))
    requires s.tasks[t].numServers == |s.tasks[t].servers|
    ensures ServerAdded(s, AddServer(s, t, r, name), t, r, name)
  {
    hide TakesId, Taken, GenerateId;
  }

  lemma ClientIsAdded(s: State, t: Ref, c: Ref)
    requires t in s.tasks && TakesId(s.ids, Taken(s.ids), GenerateId(s.ids))
    requires s.tasks[t].numClients == |s.tasks[t].clients|
    ensures ClientAdded(s, AddClient(s, t, c), t, c)
  {
    hide TakesId, Taken, GenerateId;
  }

  lemma RegisterClientOutcome(s: State, t: Ref, c: Ref)
    requires Reachable(s) && CmdOk(s, RegisterClient(t, c))
    ensures var (s', ret) := RegisterClientStep(s, t, c);
            var full := s.tasks[t].monitor || |s.tasks[t].clients| == MAX_CLIENTS_PER_PID;
            && (ret == -ENOSPC <==> full) && (ret == 0 <==> !full) && (ret != 0 ==> s' == s)
            && (ret == 0 ==> ClientAdded(s, s', t, c))
  {
    hide Inv, Reachable, Distinct, AddClient, ClientAdded;
    ReachableInv(s);
    TaskCounters(s, t);
    if RegisterClientStep(s, t, c).1 == 0 {
      NewIdFree(s, t);
      ClientIsAdded(s, t, c);
    }
  }

  predicate Bare(s: State, t: Ref)
    requires t in s.tasks
  {
    s.tasks[t].servers == [] && s.tasks[t].clients == []
  }

  /** A monitor must have no clients and no servers and be the only one. Registering changes nothing but that the task
      is the monitor. */
  lemma MonitorOutcome(s: State, t: Ref)
    requires Reachable(s) && t in s.tasks
    ensures var (s', ret) := RegisterMonitorStep(s, t);
            && (ret == -EFAULT <==> !Bare(s, t)) && (ret == -EEXIST <==> Bare(s, t) && HasMonitor(s))
            && (ret == 0 <==> Bare(s, t) && !HasMonitor(s))
            && (ret != 0 ==> s' == s)
            && (ret == 0 ==>
                  && s' == s.(tasks := s'.tasks) && s'.tasks.Keys == s.tasks.Keys
                  && s'.tasks[t] == s.tasks[t].(monitor := true) && s'.tasks - {t} == s.tasks - {t})
  {
    hide Inv, Reachable, HasMonitor, Distinct;
    ReachableInv(s);
    TaskCounters(s, t);
  }

  /** Once a task has registered as the monitor and as long as it is open: no other task can become one, it gets no
      servers and no clients, and all it reads are snapshots. */
  lemma MonitorReigns(states: seq<State>, cmds: seq<Cmd>, t: Ref, i: nat, j: nat, cmd: Cmd)
    requires Behavior(states, cmds) && i < |cmds| && DriverStays.TaskLives(states, t, i + 1, j)
    requires cmds[i] == RegisterMonitor(t) && CmdOk(states[i], cmds[i]) && Step(states[i], cmds[i]).1 == 0
    requires CmdOk(states[j], cmd)
    ensures var (s', ret) := Step(states[j], cmd);
            && (cmd.RegisterMonitor? ==> s' == states[j] && ret == if Bare(states[j], cmd.t) then -EEXIST else -EFAULT)
            && ((cmd.RegisterServer? || cmd.RegisterClient?) && cmd.t == t ==> s' == states[j] && ret == -ENOSPC)
            && (cmd.Read? && cmd.t == t ==>
                  s' == states[j] && ret == if cmd.count >= SNAPSHOT_SIZE then SNAPSHOT_SIZE else -EMSGSIZE)
  {
    hide Inv, Reachable, Distinct, Bare, OpenStep, ConnectStep, ClientEndWritingStep, ServerEndWritingStep,
         ClientDisconnectStep, ServerDisconnectStep, ClientUnregisterStep, ServerUnregisterStep, MmapStep, CloseTask,
         ServerByName;
    var s := states[j];
    RunReachable(states, cmds, i);
    RunReachable(states, cmds, j);
    MonitorOutcome(states[i], t);
    DriverStays.MonitorStays(states, cmds, t, i + 1, j);
    if cmd.RegisterMonitor? {
      MonitorOutcome(s, cmd.t);
    }
  }

  /** Reading: the monitor gets a snapshot if its buffer is large enough. Another task gets its oldest notification,
      which leaves its queue even if the buffer is too small. */
  lemma ReadOutcome(s: State, t: Ref, count: int)
    requires Reachable(s) && t in s.tasks
    ensures s.tasks[t].monitor ==>
              var (s', ret) := Step(s, Read(t, count));
              && (ret == SNAPSHOT_SIZE <==> count >= SNAPSHOT_SIZE) && (ret == -EMSGSIZE <==> count < SNAPSHOT_SIZE)
              && s' == s
    ensures !s.tasks[t].monitor ==>
              var (s', ret) := Step(s, Read(t, count));
              var q := s.tasks[t].queue;
              && (ret == -ENOENT <==> q == []) && (ret == NOTIF_SIZE <==> q != [] && count >= NOTIF_SIZE)
              && (ret == -EMSGSIZE <==> q != [] && count < NOTIF_SIZE)
              && (q == [] ==> s' == s)
              && (q != [] ==>
                    && s' == s.(tasks := s'.tasks) && s'.tasks.Keys == s.tasks.Keys
                    && s'.tasks[t] == s.tasks[t].(queue := s'.tasks[t].queue, pending := |s'.tasks[t].queue|)
                    && [q[0]] + s'.tasks[t].queue == q && s'.tasks - {t} == s.tasks - {t})
  {
    hide Inv, Reachable, Distinct;
    ReachableInv(s);
    TaskCounters(s, t);
  }

  // ---------- first fit ----------

  predicate Used(s: State, u: Ref) {
    u in s.subs && s.subs[u].conn != NULL
  }

  /** u is in the pool, and all that come before it have connections. */
  ghost predicate FirstIn(s: State, us: seq<Ref>, u: Ref) {
    exists j :: 0 <= j < |us| && us[j] == u && forall x <- us[..j] :: Used(s, x)
  }

  predicate AllUsed(s: State, p: Ref) {
    p in s.pools && forall x <- s.pools[p].subs :: Used(s, x)
  }

  /** u is the first sub-memory without a connection of the first pool that has one, u itself aside. */
  ghost predicate FirstFree(s: State, ps: seq<Ref>, u: Ref) {
    exists i :: 0 <= i < |ps| && ps[i] in s.pools && FirstIn(s, s.pools[ps[i]].subs, u)
                && forall p <- ps[..i] :: AllUsed(s, p)
  }

  lemma {:induction false} FreeInFirst(s: State, us: seq<Ref>)
    requires NULL !in s.subs && forall x <- us :: x in s.subs
    ensures FreeIn(s, us) != NULL ==> FirstIn(s, us, FreeIn(s, us))
    ensures FreeIn(s, us) == NULL ==> forall x <- us :: Used(s, x)
    decreases |us|
  {
    if us != [] {
      FreeInFirst(s, us[1..]);
      if FreeIn(s, us) == us[0] {
        assert us[..0] == [];
      } else if FreeIn(s, us) != NULL {
        var j :| 0 <= j < |us[1..]| && us[1..][j] == FreeIn(s, us) && forall x <- us[1..][..j] :: Used(s, x);
        assert us[..j + 1] == [us[0]] + us[1..][..j];
        assert us[j + 1] == FreeIn(s, us);
      }
    }
  }

  lemma PoolSearched(s: State, p: Ref)
    requires NULL !in s.subs && p in s.pools && forall x <- s.pools[p].subs :: x in s.subs
    ensures var us := s.pools[p].subs; FreeIn(s, us) != NULL ==> FirstIn(s, us, FreeIn(s, us))
    ensures FreeIn(s, s.pools[p].subs) == NULL ==> AllUsed(s, p)
  {
    hide FreeIn, FirstIn, Used;
    FreeInFirst(s, s.pools[p].subs);
  }

  lemma {:induction false} FreeSubFirst(s: State, ps: seq<Ref>)
    requires NULL !in s.subs
    requires forall p <- ps :: p in s.pools && forall x <- s.pools[p].subs :: x in s.subs
    ensures FreeSub(s, ps) != NULL ==> FirstFree(s, ps, FreeSub(s, ps))
    decreases |ps|
  {
    hide FreeIn, FirstIn, Used, AllUsed;
    if ps != [] {
      PoolSearched(s, ps[0]);
      FreeSubFirst(s, ps[1..]);
      var u := FreeSub(s, ps);
      if FreeIn(s, s.pools[ps[0]].subs) != NULL {
        assert ps[..0] == [];
      } else if u != NULL {
        var i :| 0 <= i < |ps[1..]| && ps[1..][i] in s.pools && FirstIn(s, s.pools[ps[1..][i]].subs, u)
                 && forall p <- ps[1..][..i] :: AllUsed(s, p);
        assert ps[..i + 1] == [ps[0]] + ps[1..][..i] && ps[i + 1] == ps[1..][i];
      }
    }
  }

  lemma FirstKept(s: State, s': State, ps: seq<Ref>, u: Ref)
    requires FirstFree(s, ps, u) && s'.pools == s.pools && forall x | Used(s, x) :: Used(s', x)
    ensures FirstFree(s', ps, u)
  {
    hide FirstIn, Used;
    var i :| 0 <= i < |ps| && ps[i] in s.pools && FirstIn(s, s.pools[ps[i]].subs, u)
             && forall p <- ps[..i] :: AllUsed(s, p);
    assert FirstIn(s', s'.pools[ps[i]].subs, u) by {
      FirstInKept(s, s', s.pools[ps[i]].subs, u);
    }
  }

  lemma FirstInKept(s: State, s': State, us: seq<Ref>, u: Ref)
    requires FirstIn(s, us, u) && forall x | Used(s, x) :: Used(s', x)
    ensures FirstIn(s', us, u)
  {
    hide Used;
  }

  /** The connection is listed last and heads its server's list. Its client points to it, no task is told anything, and
      a pool that was needed is the first of the list. */
  ghost predicate ConnectionMade(s: State, s': State, k: Ref, e: Ref, p: Ref) {
    && k in s'.conns && s'.conns[k].client in s.clients && s'.conns[k].server in s.servers
    && s'.clients == s.clients[s'.conns[k].client := s.clients[s'.conns[k].client].(conn := k)]
    && s'.servers == s.servers[s'.conns[k].server := s.servers[s'.conns[k].server].(
                                 entries := [e] + s.servers[s'.conns[k].server].entries)]
    && s'.connList == s.connList + [k] && s'.tasks == s.tasks
    && (s'.poolList == s.poolList || s'.poolList == [p] + s.poolList)
    && FirstFree(s', s'.poolList, s'.conns[k].mem)
  }

  lemma ConnectionIsMade(s: State, c: Ref, r: Ref, k: Ref, e: Ref, p: Ref, us: seq<Ref>)
    requires Inv(s) && c in s.clients && s.clients[c].conn == NULL && r in s.servers && p !in s.pools && p != NULL
    requires |us| == SHM_POOL_SIZE && Distinct(us) && (forall u <- us :: u != NULL && u !in s.subs) && k != NULL
    ensures ConnectionMade(s, ConnectTo(s, c, r, k, e, p, us), k, e, p)
  {
    hide Inv, WithRoom, FreeSub, Distinct, FirstFree, Used;
    var s1 := WithRoom(s, p, us);
    RoomToConnect(s, c, r, p, us);
    WithRoomInv(s, c, p, us);
    RoomListed(s, p, us);
    PoolsLive(s1);
    InvParts(s1);
    FreeSubFirst(s1, s1.poolList);
    var u := FreeSub(s1, s1.poolList);
    UsedStay(s1, c, r, u, k, e);
    FirstKept(s1, AddConn(s1, c, r, u, k, e), s1.poolList, u);
  }

  lemma RoomListed(s: State, p: Ref, us: seq<Ref>)
    ensures var s1 := WithRoom(s, p, us); s1.poolList == s.poolList || s1.poolList == [p] + s.poolList
  {
    hide FreeSub, GenerateId, Taken;
    PoolListKept(s, us);
  }

  lemma {:induction false} PoolListKept(s: State, us: seq<Ref>)
    ensures AddSubs(s, us).poolList == s.poolList
    decreases |us|
  {
    hide GenerateId, Taken;
    if us != [] {
      PoolListKept(AddSub(s, us[0]), us[1..]);
    }
  }

  lemma UsedStay(s: State, c: Ref, r: Ref, u: Ref, k: Ref, e: Ref)
    requires c in s.clients && r in s.servers && u in s.subs && k != NULL
    ensures forall x | Used(s, x) :: Used(AddConn(s, c, r, u, k, e), x)
  {
  }

  // ---------- connecting ----------

  /** Connecting follows a null pointer if there is no such client, and fails for a connected client and for an
      unknown name. Otherwise there is one connection more, between that client and that server, over a
      sub-memory that no other connection uses. */
  lemma ConnectOutcome(s: State, cmd: Cmd)
    requires CmdOk(s, cmd) && Reachable(s) && cmd.Connect?
    ensures var (s', ret) := Step(s, cmd);
            var idle := ClientExists(s, cmd.clientId) && !Connected(s, cmd.clientId);
            && (ret == OOPS <==> !ClientExists(s, cmd.clientId))
            && (ret == -EEXIST <==> Connected(s, cmd.clientId))
            && (ret == -ENODATA <==> idle && !NameTaken(s, cmd.name))
            && (ret == 0 <==> idle && NameTaken(s, cmd.name))
            && (ret != 0 ==> s' == s)
            && (ret == 0 ==>
                  && s'.conns.Keys == s.conns.Keys + {cmd.k} && (forall k <- s.conns :: s'.conns[k] == s.conns[k])
                  && ConnOf(s', cmd.clientId, cmd.k) && s'.servers[s'.conns[cmd.k].server].name == cmd.name
                  && !s'.conns[cmd.k].mapped
                  && ConnectionMade(s, s', cmd.k, cmd.e, cmd.p)
                  && forall k <- s.conns :: Whole(s', k) && FactOf(s', k).sub != FactOf(s', cmd.k).sub)
  {
    hide Inv, Reachable, WithRoom, FreeSub, Distinct, ConnectTo, ConnectionMade, Connected,
         ClientExists, NameTaken, ServerByName, ConnOf;
    ReachableInv(s);
    ClientSearch(s, cmd.clientId);
    NameSearch(s, cmd.name);
    if Step(s, cmd).1 == 0 {
      ConnectEffect(s, cmd);
    }
  }

  lemma ConnectEffect(s: State, cmd: Cmd)
    requires CmdOk(s, cmd) && Inv(s) && cmd.Connect?
    requires ConnectStep(s, cmd.clientId, cmd.name, cmd.k, cmd.e, cmd.p, cmd.us).1 == 0
    ensures var s' := ConnectStep(s, cmd.clientId, cmd.name, cmd.k, cmd.e, cmd.p, cmd.us).0;
            && s'.conns.Keys == s.conns.Keys + {cmd.k} && (forall k <- s.conns :: s'.conns[k] == s.conns[k])
            && ConnOf(s', cmd.clientId, cmd.k) && s'.servers[s'.conns[cmd.k].server].name == cmd.name
            && !s'.conns[cmd.k].mapped && ConnectionMade(s, s', cmd.k, cmd.e, cmd.p)
            && forall k <- s.conns :: Whole(s', k) && FactOf(s', k).sub != FactOf(s', cmd.k).sub
  {
    hide Inv, WithRoom, FreeSub, Distinct, FactOf, Whole, AddConn, ConnectionMade;
    var c, r := ClientById(s, cmd.clientId), ServerByName(s, cmd.name);
    var s' := ConnectStep(s, cmd.clientId, cmd.name, cmd.k, cmd.e, cmd.p, cmd.us).0;
    RoomToConnect(s, c, r, cmd.p, cmd.us);
    RoomLeavesRest(s, c, cmd.p, cmd.us);
    var s1 := WithRoom(s, cmd.p, cmd.us);
    ConnAdded(s1, c, r, FreeSub(s1, s1.poolList), cmd.k, cmd.e);
    ConnectInv(s, cmd.clientId, cmd.name, cmd.k, cmd.e, cmd.p, cmd.us);
    ConnectionIsMade(s, c, r, cmd.k, cmd.e, cmd.p, cmd.us);
    AllWhole(s');
    WholeParts(s', cmd.k);
    forall k <- s.conns ensures FactOf(s', k).sub != FactOf(s', cmd.k).sub {
      IdsTell(s', k, cmd.k);
    }
  }

  lemma RoomLeavesRest(s: State, c: Ref, p: Ref, us: seq<Ref>)
    requires Inv(s) && c in s.clients && s.clients[c].conn == NULL && p !in s.pools && p != NULL
    requires |us| == SHM_POOL_SIZE && Distinct(us) && forall u <- us :: u != NULL && u !in s.subs
    ensures var s1 := WithRoom(s, p, us); s1.conns == s.conns && s1.clients == s.clients && s1.servers == s.servers
  {
    hide Inv, WithRoom, FreeSub, Distinct;
    WithRoomInv(s, c, p, us);
  }

  lemma ConnAdded(s: State, c: Ref, r: Ref, u: Ref, k: Ref, e: Ref)
    requires c in s.clients && r in s.servers && u in s.subs && k !in s.conns
    ensures var s' := AddConn(s, c, r, u, k, e);
            && s'.conns.Keys == s.conns.Keys + {k} && (forall x <- s.conns :: s'.conns[x] == s.conns[x])
            && s'.conns[k] == Conn(c, r, u, false)
            && c in s'.clients && s'.clients[c].id == s.clients[c].id && r in s'.servers
            && s'.servers[r].name == s.servers[r].name
  {
  }

  lemma NotifySucceeds(s: State, who: Sender, kind: Kind, k: Ref)
    requires Inv(s) && k in s.conns
    ensures var (s', ret) := Notify(s, who, kind, k); ret == 0 && s' == s.(tasks := s'.tasks)
  {
    hide Inv, Push;
    SendSucceeds(s, k, kind);
    SendLeavesConns(s, who, kind, k);
  }

  /** Task t has been sent one notification, and nothing else has changed. */
  ghost predicate Told(s: State, s': State, t: Ref, n: Notif) {
    && t in s.tasks
    && s' == s.(tasks := s.tasks[t := s.tasks[t].(queue := s.tasks[t].queue + [n], pending := s.tasks[t].pending + 1)])
  }

  /** The task at the other end of connection k has been sent the identifiers of its sub-memory, of the side that sends
      and of the other side. */
  ghost predicate SideTold(s: State, s': State, who: Sender, kind: Kind, k: Ref) {
    && k in s.conns && s.conns[k].client in s.clients && s.conns[k].server in s.servers && s.conns[k].mem in s.subs
    && var c, r, u := s.clients[s.conns[k].client], s.servers[s.conns[k].server], s.subs[s.conns[k].mem];
       if who == CLIENT then Told(s, s', r.task, Notif(CLIENT, kind, u.id, c.id, r.id))
       else Told(s, s', c.task, Notif(SERVER, kind, u.id, r.id, c.id))
  }

  lemma NotifyTells(s: State, who: Sender, kind: Kind, k: Ref)
    requires Inv(s) && k in s.conns
    ensures SideTold(s, Notify(s, who, kind, k).0, who, kind, k)
  {
    hide Inv;
    SendSucceeds(s, k, kind);
  }

  /** A message goes through exactly if there is a connection for it, whose other side is then told. A server
      that exists and has no connection over the sub-memory makes the driver follow a null pointer. */
  lemma MessageOutcome(s: State, cmd: Cmd)
    requires CmdOk(s, cmd) && Reachable(s) && (cmd.ClientEndWriting? || cmd.ServerEndWriting?)
    ensures cmd.ClientEndWriting? ==>
              var (s', ret) := Step(s, cmd);
              && (ret == -ENODATA <==> !ClientExists(s, cmd.clientId))
              && (ret == -ENOENT <==> ClientExists(s, cmd.clientId) && !Connected(s, cmd.clientId))
              && (ret == 0 <==> Connected(s, cmd.clientId))
              && (ret == 0 ==> exists k :: ConnOf(s, cmd.clientId, k) && SideTold(s, s', CLIENT, NEW_MESSAGE, k))
    ensures cmd.ServerEndWriting? ==>
              var (s', ret) := Step(s, cmd);
              && (ret == -ENODATA <==> !ServerExists(s, cmd.serverId)) &&
                   (ret == 0 <==> ConnectedOver(s, cmd.serverId, cmd.subId))
              && (ret == OOPS <==> ServerExists(s, cmd.serverId) && !ConnectedOver(s, cmd.serverId, cmd.subId))
              && (ret == 0 ==> exists k :: ConnOver(s, cmd.serverId, cmd.subId, k) &&
                                 SideTold(s, s', SERVER, NEW_MESSAGE, k))
    ensures Step(s, cmd).1 != 0 ==> Step(s, cmd).0 == s
  {
    hide Inv, Reachable, Connected, ConnectedOver, ClientExists, ServerExists, Notify, ConnOf, ConnOver, SideTold;
    ReachableInv(s);
    if cmd.ClientEndWriting? {
      ClientSearch(s, cmd.clientId);
      var c := ClientById(s, cmd.clientId);
      if c != NULL && s.clients[c].conn != NULL {
        ConnOfClient(s, c);
        NotifySucceeds(s, CLIENT, NEW_MESSAGE, s.clients[c].conn);
        NotifyTells(s, CLIENT, NEW_MESSAGE, s.clients[c].conn);
      }
    } else {
      ServerSearch(s, cmd.serverId, cmd.subId);
      var r := ServerById(s, cmd.serverId);
      if r != NULL && EntryByMem(s, r, cmd.subId) != NULL {
        EntryOfServer(s, r, cmd.subId);
        NotifySucceeds(s, SERVER, NEW_MESSAGE, s.entries[EntryByMem(s, r, cmd.subId)]);
        NotifyTells(s, SERVER, NEW_MESSAGE, s.entries[EntryByMem(s, r, cmd.subId)]);
      }
    }
  }

  /** A disconnect call removes exactly the connection it is for, and fails only if there is none. */
  lemma DisconnectOutcome(s: State, cmd: Cmd)
    requires CmdOk(s, cmd) && Reachable(s) && (cmd.ClientDisconnect? || cmd.ServerDisconnect?)
    ensures cmd.ClientDisconnect? ==>
              var (s', ret) := Step(s, cmd);
              && (ret == -ENOENT <==> !Connected(s, cmd.clientId)) && (ret == 0 <==> Connected(s, cmd.clientId))
              && (ret == 0 ==> exists k :: ConnOf(s, cmd.clientId, k) && s'.conns == s.conns - {k})
    ensures cmd.ServerDisconnect? ==>
              var (s', ret) := Step(s, cmd);
              && (ret == -ENODATA <==> !ServerExists(s, cmd.serverId))
              && (ret == -ENOENT <==> ServerExists(s, cmd.serverId) && !ConnectedOver(s, cmd.serverId, cmd.subId))
              && (ret == 0 <==> ConnectedOver(s, cmd.serverId, cmd.subId))
              && (ret == 0 ==> exists k :: ConnOver(s, cmd.serverId, cmd.subId, k) && s'.conns == s.conns - {k})
    ensures Step(s, cmd).1 != 0 ==> Step(s, cmd).0 == s
  {
    hide Inv, Reachable, Connected, ConnectedOver, ServerExists, ClientExists, Notify, ConnOf, ConnOver, UnlinkAll,
         TornDown;
    ReachableInv(s);
    if cmd.ClientDisconnect? {
      ClientSearch(s, cmd.clientId);
      var c := ClientById(s, cmd.clientId);
      if c != NULL && s.clients[c].conn != NULL {
        ConnOfClient(s, c);
        DisconnectTornDown(s, CLIENT, s.clients[c].conn);
      }
    } else {
      ServerSearch(s, cmd.serverId, cmd.subId);
      var r := ServerById(s, cmd.serverId);
      if r != NULL && EntryByMem(s, r, cmd.subId) != NULL {
        EntryOfServer(s, r, cmd.subId);
        DisconnectTornDown(s, SERVER, s.entries[EntryByMem(s, r, cmd.subId)]);
      }
    }
  }

  /** Client c with its connection k and its identifier is gone, and no other object is. */
  ghost predicate ClientLeft(s: State, s': State, id: int, c: Ref, k: Ref) {
    && c in s.clients && s.clients[c].id == id && ConnOf(s, id, k)
    && s'.clients.Keys == s.clients.Keys - {c} && s'.conns == s.conns - {k}
    && s'.servers.Keys == s.servers.Keys && s'.ids == s.ids - {id}
  }

  /** Server r with its connections and its identifier is gone, and no other object is. */
  ghost predicate ServerLeft(s: State, s': State, id: int, r: Ref) {
    && r in s.servers && s.servers[r].id == id
    && s'.servers.Keys == s.servers.Keys - {r} && s'.clients.Keys == s.clients.Keys
    && s'.conns == s.conns - (set k | k in s.conns && s.conns[k].server == r) && s'.ids == s.ids - {id}
  }

  /** Unregistering removes the object, its identifier and its connections, and no other object. A client that
      is not connected is refused. */
  lemma UnregisterOutcome(s: State, cmd: Cmd)
    requires CmdOk(s, cmd) && Reachable(s) && (cmd.ClientUnregister? || cmd.ServerUnregister?)
    ensures cmd.ClientUnregister? ==>
              var (s', ret) := Step(s, cmd);
              && (ret == -ENOENT <==> !Connected(s, cmd.clientId)) && (ret == 0 <==> Connected(s, cmd.clientId))
              && (ret == 0 ==> exists c, k :: ClientLeft(s, s', cmd.clientId, c, k))
    ensures cmd.ServerUnregister? ==>
              var (s', ret) := Step(s, cmd);
              && (ret == -ENODATA <==> !ServerExists(s, cmd.serverId)) && (ret == 0 <==> ServerExists(s, cmd.serverId))
              && (ret == 0 ==> exists r :: ServerLeft(s, s', cmd.serverId, r))
    ensures Step(s, cmd).1 != 0 ==> Step(s, cmd).0 == s
  {
    hide Inv, Reachable, Connected, ServerExists, ClientExists, Notify, ConnOf, UnlinkAll, CleanServer, Trimmed,
         OnlyDisconnects, RemoveClient, RemoveServer;
    ReachableInv(s);
    if cmd.ClientUnregister? {
      ClientSearch(s, cmd.clientId);
      var c := ClientById(s, cmd.clientId);
      if c != NULL && s.clients[c].conn != NULL {
        ConnOfClient(s, c);
        DisconnectTornDown(s, CLIENT, s.clients[c].conn);
        ClientStays(s, cmd.clientId);
        var s1 := ClientDisconnectStep(s, cmd.clientId).0;
        DriverClose.TrimmedKeys(s, s1);
        ClientRemoved(s1, c);
        assert ClientLeft(s, Step(s, cmd).0, cmd.clientId, c, s.clients[c].conn);
      }
    } else {
      ServerSearch(s, cmd.serverId, 0);
      var r := ServerById(s, cmd.serverId);
      if r != NULL {
        CleanServerTornDown(s, r);
        DriverClose.TrimmedKeys(s, CleanServer(s, r));
        ServerHasTask(CleanServer(s, r), r);
        ServerRemoved(CleanServer(s, r), r);
        assert ServerLeft(s, Step(s, cmd).0, cmd.serverId, r);
      }
    }
  }

  lemma ClientRemoved(s: State, c: Ref)
    requires Inv(s) && c in s.clients && s.clients[c].task in s.tasks
    ensures var s' := RemoveClient(s, c);
            && s'.clients.Keys == s.clients.Keys - {c} && s'.conns == s.conns && s'.servers == s.servers
            && s'.ids == s.ids - {s.clients[c].id}
  {
    hide Inv, Remove;
    IdsValid(s);
  }

  lemma ServerRemoved(s: State, r: Ref)
    requires Inv(s) && r in s.servers && s.servers[r].task in s.tasks
    ensures var s' := RemoveServer(s, r);
            && s'.servers.Keys == s.servers.Keys - {r} && s'.conns == s.conns && s'.clients == s.clients
            && s'.ids == s.ids - {s.servers[r].id}
  {
    hide Inv, Remove;
    IdsValid(s);
  }

  /** The one sub-memory that an mmap call may map is that of connection k. */
  ghost predicate MapsThat(s: State, targetId: int, subId: int, k: Ref) {
    k in s.conns && forall mem :: MayMap(s, targetId, subId, mem) <==> mem == s.conns[k].mem
  }

  ghost predicate ServerBusy(s: State, id: int) {
    exists k :: Whole(s, k) && FactOf(s, k).server == id
  }

  lemma MapUnique(s: State, targetId: int, subId: int, k: Ref)
    requires Inv(s) && (ConnOf(s, targetId, k) || (!ClientExists(s, targetId) && ConnOver(s, targetId, subId, k)))
    ensures MapsThat(s, targetId, subId, k)
  {
    hide Inv, ClientExists;
    AllWhole(s);
    forall mem ensures MayMap(s, targetId, subId, mem) <==> mem == s.conns[k].mem {
      if MayMap(s, targetId, subId, mem) {
        var k' :| MapOver(s, targetId, subId, mem, k');
        IdsTell(s, k, k');
        if s.clients[s.conns[k'].client].id == targetId {
          assert ClientExists(s, targetId) by { ClientThere(s, s.conns[k'].client); }
        } else if ConnOf(s, targetId, k) {
          DriverZero.OwnersDiffer(s, s.conns[k].client, s.conns[k'].server);
        }
      }
      if mem == s.conns[k].mem {
        ConnMem(s, k);
        assert MapOver(s, targetId, subId, mem, k);
      }
    }
  }

  lemma ClientThere(s: State, c: Ref)
    requires c in s.clients
    ensures ClientExists(s, s.clients[c].id)
  {
  }

  lemma ConnMem(s: State, k: Ref)
    requires Inv(s) && k in s.conns
    ensures s.conns[k].mem in s.subs && s.subs[s.conns[k].mem].conn == k
  {
    hide Inv;
    ConnIntact(s, k);
  }

  lemma ServerBusyList(s: State, r: Ref)
    requires Inv(s) && r in s.servers
    ensures s.servers[r].entries != [] <==> ServerBusy(s, s.servers[r].id)
  {
    hide Inv;
    AllWhole(s);
    if s.servers[r].entries != [] {
      EntryConn(s, r, s.servers[r].entries[0]);
      WholeParts(s, s.entries[s.servers[r].entries[0]]);
    }
    if ServerBusy(s, s.servers[r].id) {
      var k :| Whole(s, k) && FactOf(s, k).server == s.servers[r].id;
      WholeParts(s, k);
      ServersTell(s, s.conns[k].server, r);
      EntryThere(s, k);
    }
  }

  /** Mapping: a client gets the memory of its connection, which from then on counts as mapped; a server gets the
      memory it names if it is that of one of its connections and is not called 0. The error tells a server
      without any connection, or without that one, from one that names the memory 0. */
  lemma MmapOutcome(s: State, cmd: Cmd)
    requires CmdOk(s, cmd) && Reachable(s) && cmd.Mmap?
    ensures ClientExists(s, cmd.targetId) ==>
              var (s', ret) := Step(s, cmd);
              && (ret == 0 <==> Connected(s, cmd.targetId)) && (ret == -EINVAL <==> !Connected(s, cmd.targetId))
              && (ret != 0 ==> s' == s)
              && (ret == 0 ==> exists k :: ConnOf(s, cmd.targetId, k) && MapsThat(s, cmd.targetId, cmd.subId, k)
                                  && s'.conns == s.conns[k := s.conns[k].(mapped := true)]
                                  && SideTold(s, s'.(conns := s.conns), CLIENT, NEW_CONNECTION, k))
    ensures !ClientExists(s, cmd.targetId) ==>
              var (s', ret) := Step(s, cmd);
              && s' == s && (ret == 0 <==> ConnectedOver(s, cmd.targetId, cmd.subId) && cmd.subId != 0)
              && (ret == -EINVAL <==> ServerBusy(s, cmd.targetId) && cmd.subId == 0)
              && (ret == -ENOENT <==>
                    !ServerBusy(s, cmd.targetId) || (cmd.subId != 0 && !ConnectedOver(s, cmd.targetId, cmd.subId)))
              && (ret == 0 ==>
                    exists k :: ConnOver(s, cmd.targetId, cmd.subId, k) && MapsThat(s, cmd.targetId, cmd.subId, k))
  {
    hide Inv, Reachable, Connected, ConnectedOver, ClientExists, ServerExists, ServerBusy, Notify, ConnOf, ConnOver,
         EntryByMem, MapsThat, SideTold;
    ReachableInv(s);
    ClientSearch(s, cmd.targetId);
    var c := ClientById(s, cmd.targetId);
    if c != NULL && s.clients[c].conn != NULL {
      ConnOfClient(s, c);
      DriverQueues.PackingSucceeds(s, c, s.clients[c].conn);
      NotifySucceeds(s, CLIENT, NEW_CONNECTION, s.clients[c].conn);
      NotifyTells(s, CLIENT, NEW_CONNECTION, s.clients[c].conn);
      MapUnique(s, cmd.targetId, cmd.subId, s.clients[c].conn);
    } else if c == NULL {
      ServerSearch(s, cmd.targetId, cmd.subId);
      EmptyListFindsNothing(s, cmd.targetId, cmd.subId);
      var r := ServerById(s, cmd.targetId);
      if r == NULL {
        NoServerIdle(s, cmd.targetId, cmd.subId);
      } else {
        ServerBusyList(s, r);
        if EntryByMem(s, r, cmd.subId) != NULL {
          MapUnique(s, cmd.targetId, cmd.subId, s.entries[EntryByMem(s, r, cmd.subId)]);
        }
      }
    }
  }

  lemma NoServerIdle(s: State, id: int, subId: int)
    requires !ServerExists(s, id)
    ensures !ServerBusy(s, id) && !ConnectedOver(s, id, subId)
  {
  }

  lemma EmptyListFindsNothing(s: State, id: int, subId: int)
    ensures var r := ServerById(s, id); r != NULL && s.servers[r].entries == [] ==> EntryByMem(s, r, subId) == NULL
  {
  }
}
