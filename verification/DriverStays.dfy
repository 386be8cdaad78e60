/** What an object keeps for as long as it exists, in single calls and over runs. */
module DriverStays {
  import opened Seqs
  import opened DriverModel
  import opened DriverInvariant
  import opened DriverPreservation
  import opened DriverCommands
  import opened DriverFacts
  import opened DriverTeardown
  import opened DriverClose
  import opened DriverSteps
  import IdSpace

  /** A client keeps its identifier and its task; a new one is the one that the call registers. */
  ghost predicate ClientsKept(clients: map<Ref, Client>, clients': map<Ref, Client>, cmd: Cmd) {
    forall c <- clients' ::
      if c in clients then clients'[c].id == clients[c].id && clients'[c].task == clients[c].task
      else cmd.RegisterClient? && c == cmd.c && clients'[c].task == cmd.t
  }

  /** A server keeps its identifier, its name and its task; a new one is registered under the name given. */
  ghost predicate ServersKept(servers: map<Ref, Server>, servers': map<Ref, Server>, cmd: Cmd) {
    forall r <- servers' ::
      if r in servers then servers'[r] == servers[r].(entries := servers'[r].entries)
      else cmd.RegisterServer? && r == cmd.r && servers'[r].name == cmd.name && servers'[r].task == cmd.t
  }

  /** A task keeps its process and stays a monitor; it becomes one by registering. */
  ghost predicate TasksKept(tasks: map<Ref, Task>, tasks': map<Ref, Task>, cmd: Cmd) {
    forall t <- tasks' ::
      if t in tasks then
        && tasks'[t].process == tasks[t].process && (tasks[t].monitor ==> tasks'[t].monitor)
        && (tasks'[t].monitor ==> tasks[t].monitor || cmd == RegisterMonitor(t))
      else cmd.Open? && t == cmd.t && tasks'[t].process == cmd.process && !tasks'[t].monitor
  }

  /** Sub-memories and pools stay, a pool with its sub-memories and all with their identifiers. */
  ghost predicate MemoryKept(subs: map<Ref, Sub>, subs': map<Ref, Sub>, pools: map<Ref, Pool>, pools': map<Ref, Pool>) {
    && subs.Keys <= subs'.Keys && (forall u <- subs :: subs'[u].id == subs[u].id)
    && pools.Keys <= pools'.Keys && (forall p <- pools :: pools'[p] == pools[p])
  }

  ghost predicate Keeps(s: State, s': State, cmd: Cmd) {
    && ClientsKept(s.clients, s'.clients, cmd) && ServersKept(s.servers, s'.servers, cmd)
    && TasksKept(s.tasks, s'.tasks, cmd) && MemoryKept(s.subs, s'.subs, s.pools, s'.pools)
  }

  // ---------- the parts of the calls ----------

  lemma MembersSame(s: State, cmd: Cmd)
    ensures ClientsKept(s.clients, s.clients, cmd) && ServersKept(s.servers, s.servers, cmd)
    ensures TasksKept(s.tasks, s.tasks, cmd) && MemoryKept(s.subs, s.subs, s.pools, s.pools)
  {
  }

  lemma TaskKept(tasks: map<Ref, Task>, tasks': map<Ref, Task>, t: Ref, task: Task, cmd: Cmd)
    requires TasksKept(tasks, tasks', cmd) && t in tasks'
    requires task.process == tasks'[t].process && task.monitor == tasks'[t].monitor
    ensures TasksKept(tasks, tasks'[t := task], cmd)
  {
  }

  lemma NotifyKept(s: State, who: Sender, kind: Kind, k: Ref, cmd: Cmd)
    requires Inv(s) && k in s.conns
    ensures Keeps(s, Notify(s, who, kind, k).0, cmd)
  {
    hide Inv, ClientsKept, ServersKept, TasksKept, MemoryKept;
    MembersSame(s, cmd);
    SendSucceeds(s, k, kind);
    var t, n := if who == CLIENT then ServerTask(s, k) else ClientTask(s, k),
        if who == CLIENT then ToServer(s, k, kind) else ToClient(s, k, kind);
    TaskKept(s.tasks, s.tasks, t, Push(s, t, n).tasks[t], cmd);
  }

  lemma TornDownKept(s: State, s': State, cmd: Cmd)
    requires TornDown(s, s')
    ensures Keeps(s, s', cmd)
  {
    hide Inv, ClientsKept, ServersKept, TasksKept, MemoryKept;
    TrimmedKept(s, s', cmd);
    ToldKept(s.tasks, s'.tasks, cmd);
  }

  lemma TrimmedKept(s: State, s': State, cmd: Cmd)
    requires Trimmed(s, s')
    ensures ClientsKept(s.clients, s'.clients, cmd) && ServersKept(s.servers, s'.servers, cmd)
    ensures MemoryKept(s.subs, s'.subs, s.pools, s'.pools)
  {
    hide TrimmedEntries;
  }

  lemma ToldKept(tasks: map<Ref, Task>, tasks': map<Ref, Task>, cmd: Cmd)
    requires OnlyDisconnects(tasks, tasks')
    ensures TasksKept(tasks, tasks', cmd)
  {
  }

  lemma ClientDestroyed(s: State, s1: State, c: Ref, cmd: Cmd)
    requires Keeps(s, s1, cmd)
    ensures Keeps(s, DestroyClient(s1, c), cmd)
  {
    hide Remove, Freed, MemoryKept, ServersKept, ClientsKept, TasksKept;
    if c in s1.clients && s1.clients[c].task in s1.tasks {
      FewerKept(s, s1, c, cmd);
      var t := s1.clients[c].task;
      TaskKept(s.tasks, s1.tasks, t, RemoveClient(s1, c).tasks[t], cmd);
    }
  }

  lemma ServerDestroyed(s: State, s1: State, r: Ref, cmd: Cmd)
    requires Keeps(s, s1, cmd)
    ensures Keeps(s, DestroyServer(s1, r), cmd)
  {
    hide Remove, Freed, MemoryKept, ServersKept, ClientsKept, TasksKept;
    if r in s1.servers && s1.servers[r].task in s1.tasks {
      FewerKept(s, s1, r, cmd);
      var t := s1.servers[r].task;
      TaskKept(s.tasks, s1.tasks, t, RemoveServer(s1, r).tasks[t], cmd);
    }
  }

  lemma FewerKept(s: State, s1: State, x: Ref, cmd: Cmd)
    requires ClientsKept(s.clients, s1.clients, cmd) && ServersKept(s.servers, s1.servers, cmd)
    ensures ClientsKept(s.clients, s1.clients - {x}, cmd) && ServersKept(s.servers, s1.servers - {x}, cmd)
  {
  }

  lemma LeavingKept(s: State, cmd: Cmd)
    requires CmdOk(s, cmd) && Inv(s)
    requires cmd.ClientDisconnect? || cmd.ServerDisconnect? || cmd.ClientUnregister? || cmd.ServerUnregister?
    ensures Keeps(s, Step(s, cmd).0, cmd)
  {
    hide Inv, TornDown, Notify, UnlinkAll, CleanServer, DestroyClient, DestroyServer, ClientsKept, ServersKept,
         TasksKept, MemoryKept;
    MembersSame(s, cmd);
    if cmd.ClientDisconnect? || cmd.ClientUnregister? {
      var c := ClientById(s, cmd.clientId);
      if c != NULL && s.clients[c].conn != NULL {
        ConnOfClient(s, c);
        DisconnectTornDown(s, CLIENT, s.clients[c].conn);
        TornDownKept(s, ClientDisconnectStep(s, cmd.clientId).0, cmd);
        ClientDestroyed(s, ClientDisconnectStep(s, cmd.clientId).0, c, cmd);
      }
    } else {
      var r := ServerById(s, cmd.serverId);
      if r != NULL && cmd.ServerUnregister? {
        CleanServerTornDown(s, r);
        TornDownKept(s, CleanServer(s, r), cmd);
        ServerDestroyed(s, CleanServer(s, r), r, cmd);
      } else if r != NULL && EntryByMem(s, r, cmd.subId) != NULL {
        DisconnectTornDown(s, SERVER, s.entries[EntryByMem(s, r, cmd.subId)]);
        TornDownKept(s, Step(s, cmd).0, cmd);
      }
    }
  }

  lemma CloseKept(s: State, t: Ref)
    requires Inv(s) && t in s.tasks
    ensures Keeps(s, CloseTask(s, t), Close(t))
  {
    hide Inv, CloseTask, TrimmedEntries, Touches, OwnIds;
    CloseTaskEffect(s, t);
  }

  lemma MessageKept(s: State, cmd: Cmd)
    requires CmdOk(s, cmd) && Inv(s) && (cmd.ClientEndWriting? || cmd.ServerEndWriting? || cmd.Mmap?)
    ensures Keeps(s, Step(s, cmd).0, cmd)
  {
    hide Inv, Notify, ClientsKept, ServersKept, TasksKept, MemoryKept;
    MembersSame(s, cmd);
    if cmd.ServerEndWriting? {
      var r := ServerById(s, cmd.serverId);
      if r != NULL && EntryByMem(s, r, cmd.subId) != NULL {
        NotifyKept(s, SERVER, NEW_MESSAGE, s.entries[EntryByMem(s, r, cmd.subId)], cmd);
      }
    } else {
      var c := ClientById(s, if cmd.Mmap? then cmd.targetId else cmd.clientId);
      if c != NULL && s.clients[c].conn != NULL {
        ConnOfClient(s, c);
        NotifyKept(s, CLIENT, NEW_MESSAGE, s.clients[c].conn, cmd);
        NotifyKept(s, CLIENT, NEW_CONNECTION, s.clients[c].conn, cmd);
      }
    }
  }

  lemma ConnectKept(s: State, cmd: Cmd)
    requires CmdOk(s, cmd) && Inv(s) && cmd.Connect?
    ensures Keeps(s, Step(s, cmd).0, cmd)
  {
    hide Inv, WithRoom, FreeSub, Distinct, AddConn, ClientsKept, ServersKept, TasksKept, MemoryKept;
    MembersSame(s, cmd);
    if Step(s, cmd).1 == 0 {
      var c := ClientById(s, cmd.clientId);
      var s1 := WithRoom(s, cmd.p, cmd.us);
      WithRoomInv(s, c, cmd.p, cmd.us);
      RoomKept(s, cmd.p, cmd.us);
      AddConnKept(s, s1, c, ServerByName(s, cmd.name), FreeSub(s1, s1.poolList), cmd);
    }
  }

  lemma RoomKept(s: State, p: Ref, us: seq<Ref>)
    requires |us| == SHM_POOL_SIZE && Distinct(us) && (forall u <- us :: u !in s.subs) && p !in s.pools
    ensures var s1 := WithRoom(s, p, us); MemoryKept(s.subs, s1.subs, s.pools, s1.pools)
  {
    hide Distinct, FreeSub, IdSpace.GenerateId, Taken, AddSubs;
    AddSubsEffect(s, us);
  }

  lemma AddConnKept(s: State, s1: State, c: Ref, r: Ref, u: Ref, cmd: Cmd)
    requires cmd.Connect? && MemoryKept(s.subs, s1.subs, s.pools, s1.pools) && c in s1.clients && r in s1.servers
    requires u in s1.subs && s1.clients == s.clients && s1.servers == s.servers && s1.tasks == s.tasks
    ensures Keeps(s, AddConn(s1, c, r, u, cmd.k, cmd.e), cmd)
  {
  }

  lemma TaskOpened(s: State, process: nat, t: Ref)
    requires t !in s.tasks
    ensures Keeps(s, OpenStep(s, process, t).0, Open(process, t))
  {
    hide ClientsKept, ServersKept, TasksKept, MemoryKept, Registered;
    MembersSame(s, Open(process, t));
    NewTaskKept(s.tasks, t, AddTask(s, t, process).tasks[t], Open(process, t));
  }

  lemma NewTaskKept(tasks: map<Ref, Task>, t: Ref, task: Task, cmd: Cmd)
    requires t !in tasks && cmd.Open? && cmd.t == t && task.process == cmd.process && !task.monitor
    ensures TasksKept(tasks, tasks[t := task], cmd)
  {
  }

  lemma ServerRegistered(s: State, t: Ref, name: string, r: Ref)
    requires t in s.tasks && r !in s.servers
    ensures Keeps(s, RegisterServerStep(s, t, name, r).0, RegisterServer(t, name, r))
  {
    hide ClientsKept, MemoryKept, TasksKept, ServerByName, IdSpace.GenerateId, Taken;
    var cmd := RegisterServer(t, name, r);
    MembersSame(s, cmd);
    TaskKept(s.tasks, s.tasks, t, AddServer(s, t, r, name).tasks[t], cmd);
  }

  lemma ClientRegistered(s: State, t: Ref, c: Ref)
    requires t in s.tasks && c !in s.clients
    ensures Keeps(s, RegisterClientStep(s, t, c).0, RegisterClient(t, c))
  {
    hide ServersKept, MemoryKept, TasksKept, IdSpace.GenerateId, Taken;
    var cmd := RegisterClient(t, c);
    MembersSame(s, cmd);
    TaskKept(s.tasks, s.tasks, t, AddClient(s, t, c).tasks[t], cmd);
  }

  lemma MonitorRegistered(s: State, t: Ref)
    requires t in s.tasks
    ensures Keeps(s, RegisterMonitorStep(s, t).0, RegisterMonitor(t))
  {
    hide ClientsKept, ServersKept, TasksKept, MemoryKept, HasMonitor;
    MembersSame(s, RegisterMonitor(t));
    NewMonitorKept(s.tasks, t);
  }

  lemma NewMonitorKept(tasks: map<Ref, Task>, t: Ref)
    requires t in tasks
    ensures TasksKept(tasks, tasks[t := tasks[t].(monitor := true)], RegisterMonitor(t))
  {
  }

  lemma ReadKept(s: State, t: Ref, count: int)
    requires t in s.tasks
    ensures Keeps(s, ReadStep(s, t, count).0, Read(t, count))
  {
    hide ClientsKept, ServersKept, MemoryKept, TasksKept;
    MembersSame(s, Read(t, count));
    if s.tasks[t].queue != [] {
      TaskKept(s.tasks, s.tasks, t, Pop(s, t).tasks[t], Read(t, count));
    }
  }

  /** Every call leaves every object that outlives it its identifier, its task, its process and its name, brings no
      object but the one it is for, and makes no task a monitor but by registering it. */
  lemma StepKept(s: State, cmd: Cmd)
    requires CmdOk(s, cmd) && Reachable(s)
    ensures Keeps(s, Step(s, cmd).0, cmd)
  {
    hide Inv, Reachable, OpenStep, RegisterServerStep, RegisterClientStep, RegisterMonitorStep, ConnectStep,
         ClientEndWritingStep, ServerEndWritingStep, ClientDisconnectStep, ServerDisconnectStep,
         ClientUnregisterStep, ServerUnregisterStep, MmapStep, ReadStep, CloseTask, Distinct, Keeps;
    ReachableInv(s);
    match cmd
    case Open(process, t) => TaskOpened(s, process, t);
    case RegisterServer(t, name, r) => ServerRegistered(s, t, name, r);
    case RegisterClient(t, c) => ClientRegistered(s, t, c);
    case RegisterMonitor(t) => MonitorRegistered(s, t);
    case Connect(_, _, _, _, _, _) => ConnectKept(s, cmd);
    case ClientEndWriting(_) => MessageKept(s, cmd);
    case ServerEndWriting(_, _) => MessageKept(s, cmd);
    case Mmap(_, _) => MessageKept(s, cmd);
    case Read(t, count) => ReadKept(s, t, count);
    case Close(t) => CloseKept(s, t);
    case _ => LeavingKept(s, cmd);
  }

  // ---------- over runs ----------

  /** Task t is open from state i to state j of a run. */
  ghost predicate TaskLives(states: seq<State>, t: Ref, i: nat, j: nat) {
    i <= j < |states| && forall x | i <= x <= j :: t in states[x].tasks
  }

  ghost predicate ServerLives(states: seq<State>, r: Ref, i: nat, j: nat) {
    i <= j < |states| && forall x | i <= x <= j :: r in states[x].servers
  }

  /** A monitor is a monitor as long as its task is open. */
  lemma {:induction false} MonitorStays(states: seq<State>, cmds: seq<Cmd>, t: Ref, i: nat, j: nat)
    requires Behavior(states, cmds) && TaskLives(states, t, i, j) && states[i].tasks[t].monitor
    ensures states[j].tasks[t].monitor && states[j].tasks[t].process == states[i].tasks[t].process
    decreases j
  {
    hide Reachable, Step, CmdOk;
    if i < j {
      MonitorStays(states, cmds, t, i, j - 1);
      RunReachable(states, cmds, j - 1);
      StepKept(states[j - 1], cmds[j - 1]);
    }
  }

  /** A server bears the name and the identifier that it was given as long as it exists. */
  lemma {:induction false} ServerStays(states: seq<State>, cmds: seq<Cmd>, r: Ref, i: nat, j: nat)
    requires Behavior(states, cmds) && ServerLives(states, r, i, j)
    ensures states[j].servers[r] == states[i].servers[r].(entries := states[j].servers[r].entries)
    decreases j
  {
    hide Reachable, Step, CmdOk;
    if i < j {
      ServerStays(states, cmds, r, i, j - 1);
      RunReachable(states, cmds, j - 1);
      StepKept(states[j - 1], cmds[j - 1]);
    }
  }

  /** The names of all servers have been accepted by the library. */
  ghost predicate ShortNames(servers: map<Ref, Server>) {
    forall r <- servers :: 0 < |servers[r].name| < MAX_SERVER_NAME
  }

  lemma {:induction false} NamesShort(states: seq<State>, cmds: seq<Cmd>, i: nat)
    requires Behavior(states, cmds) && i < |states|
    ensures ShortNames(states[i].servers)
  {
    hide Reachable, Step;
    if i > 0 {
      NamesShort(states, cmds, i - 1);
      RunReachable(states, cmds, i - 1);
      StepKept(states[i - 1], cmds[i - 1]);
    }
  }

  lemma ReachableNames(s: State)
    requires Reachable(s)
    ensures ShortNames(s.servers)
  {
    hide Step, CmdOk, ShortNames;
    var states, cmds :| Behavior(states, cmds) && s == states[|cmds|];
    NamesShort(states, cmds, |cmds|);
  }
}
