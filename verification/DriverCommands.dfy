/** The system calls of the driver as transitions between states. */
module DriverCommands {
  import opened IdSpace
  import opened DriverModel
  import Seqs

  const NOTIF_SIZE: int := 16
  const SNAPSHOT_SIZE: int := 37060

  /** One system call, with the addresses the allocator would hand out if it were asked: tasks t, servers r,
      clients c, connections k, list entries e, pools p with their sub-memories us. */
  datatype Cmd =
    | Open(process: nat, t: Ref)
    | RegisterServer(t: Ref, name: string, r: Ref)
    | RegisterClient(t: Ref, c: Ref)
    | RegisterMonitor(t: Ref)
    | Connect(clientId: int, name: string, k: Ref, e: Ref, p: Ref, us: seq<Ref>)
    | ClientEndWriting(clientId: int)
    | ServerEndWriting(serverId: int, subId: int)
    | ClientDisconnect(clientId: int)
    | ServerDisconnect(serverId: int, subId: int)
    | ClientUnregister(clientId: int)
    | ServerUnregister(serverId: int)
    | Mmap(targetId: int, subId: int)
    | Read(t: Ref, count: int)
    | Close(t: Ref)

  /** What the driver takes for granted: the file was opened, the allocator returns unused addresses and the
      library checked the name. */
  ghost predicate CmdOk(s: State, cmd: Cmd) {
    match cmd
    case Open(_, t) => t != NULL && t !in s.tasks
    case RegisterServer(t, name, r) => t in s.tasks && 0 < |name| < MAX_SERVER_NAME && r != NULL && r !in s.servers
    case RegisterClient(t, c) => t in s.tasks && c != NULL && c !in s.clients
    case RegisterMonitor(t) => t in s.tasks
    case Connect(_, _, k, e, p, us) =>
      && k != NULL && k !in s.conns && e != NULL && e !in s.entries && p != NULL && p !in s.pools
      && |us| == SHM_POOL_SIZE && Seqs.Distinct(us) && forall u <- us :: u != NULL && u !in s.subs
    case Read(t, _) => t in s.tasks
    case Close(t) => t in s.tasks
    case _ => true
  }

  function Notify(s: State, who: Sender, kind: Kind, k: Ref): (State, int) {
    if Sendable(s, k) then Send(s, who, kind, k) else (s, -EFAULT)
  }

  // ---------- opening, registering ----------

  predicate Registered(s: State, process: nat) {
    exists t :: t in s.tasks && s.tasks[t].process == process
  }

  function OpenStep(s: State, process: nat, t: Ref): (State, int) {
    if |s.taskList| >= MAX_PROCESSES then (s, -ENOSPC)
    else if Registered(s, process) then (s, -ENOMEM)
    else (AddTask(s, t, process), 0)
  }

  function RegisterServerStep(s: State, t: Ref, name: string, r: Ref): (State, int)
    requires t in s.tasks
  {
    if s.tasks[t].monitor || s.tasks[t].numServers >= MAX_SERVERS_PER_PID then (s, -ENOSPC)
    else if ServerByName(s, name) != NULL then (s, -EEXIST)
    else (AddServer(s, t, r, name), 0)
  }

  function RegisterClientStep(s: State, t: Ref, c: Ref): (State, int)
    requires t in s.tasks
  {
    if s.tasks[t].monitor || s.tasks[t].numClients >= MAX_CLIENTS_PER_PID then (s, -ENOSPC)
    else (AddClient(s, t, c), 0)
  }

  function SetMonitor(s: State, t: Ref): State
    requires t in s.tasks
  {
    s.(tasks := s.tasks[t := s.tasks[t].(monitor := true)])
  }

  predicate HasMonitor(s: State) {
    exists t :: t in s.tasks && s.tasks[t].monitor
  }

  function RegisterMonitorStep(s: State, t: Ref): (State, int)
    requires t in s.tasks
  {
    if s.tasks[t].numClients > 0 || s.tasks[t].numServers > 0 then (s, -EFAULT)
    else if HasMonitor(s) then (s, -EEXIST)
    else (SetMonitor(s, t), 0)
  }

  // ---------- connecting ----------

  /** get_free_submem makes a pool when every sub-memory is taken. */
  function WithRoom(s: State, p: Ref, us: seq<Ref>): State {
    if FreeSub(s, s.poolList) != NULL then s else AddPool(s, p, us)
  }

  /** connect_client_to_server */
  function ConnectTo(s: State, c: Ref, r: Ref, k: Ref, e: Ref, p: Ref, us: seq<Ref>): State {
    var s1 := WithRoom(s, p, us);
    var u := FreeSub(s1, s1.poolList);
    if c in s1.clients && r in s1.servers && u != NULL then AddConn(s1, c, r, u, k, e) else s1
  }

  function ConnectStep(s: State, id: int, name: string, k: Ref, e: Ref, p: Ref, us: seq<Ref>): (State, int) {
    var c, r := ClientById(s, id), ServerByName(s, name);
    if c == NULL then (s, OOPS)
    else if s.clients[c].conn != NULL then (s, -EEXIST)
    else if r == NULL then (s, -ENODATA)
    else (ConnectTo(s, c, r, k, e, p, us), 0)
  }

  // ---------- messages ----------

  function ClientEndWritingStep(s: State, id: int): (State, int) {
    var c := ClientById(s, id);
    if c == NULL then (s, -ENODATA)
    else if s.clients[c].conn == NULL then (s, -ENOENT)
    else Notify(s, CLIENT, NEW_MESSAGE, s.clients[c].conn)
  }

  function ServerEndWritingStep(s: State, id: int, subId: int): (State, int) {
    var r := ServerById(s, id);
    if r == NULL then (s, -ENODATA)
    else
      var e := EntryByMem(s, r, subId);
      if e == NULL then (s, OOPS) else Notify(s, SERVER, NEW_MESSAGE, s.entries[e])
  }

  // ---------- disconnecting and unregistering ----------

  function ClientDisconnectStep(s: State, id: int): (State, int) {
    var c := ClientById(s, id);
    if c == NULL || s.clients[c].conn == NULL then (s, -ENOENT)
    else
      var (s1, ret) := Notify(s, CLIENT, REMOTE_DISCONNECT, s.clients[c].conn);
      (UnlinkAll(s1, [s.clients[c].conn]), ret)
  }

  function ServerDisconnectStep(s: State, id: int, subId: int): (State, int) {
    var r := ServerById(s, id);
    if r == NULL then (s, -ENODATA)
    else
      var e := EntryByMem(s, r, subId);
      if e == NULL then (s, -ENOENT)
      else
        var (s1, ret) := Notify(s, SERVER, REMOTE_DISCONNECT, s.entries[e]);
        (UnlinkAll(s1, [s.entries[e]]), ret)
  }

  function DestroyClient(s: State, c: Ref): State {
    if c in s.clients && s.clients[c].task in s.tasks then RemoveClient(s, c) else s
  }

  function DestroyServer(s: State, r: Ref): State {
    if r in s.servers && s.servers[r].task in s.tasks then RemoveServer(s, r) else s
  }

  function ClientUnregisterStep(s: State, id: int): (State, int) {
    var c := ClientById(s, id);
    var (s1, ret) := ClientDisconnectStep(s, id);
    if c == NULL || s.clients[c].conn == NULL then (s1, ret) else (DestroyClient(s1, c), ret)
  }

  function ServerUnregisterStep(s: State, id: int): (State, int) {
    var r := ServerById(s, id);
    if r == NULL then (s, -ENODATA) else (DestroyServer(CleanServer(s, r), r), 0)
  }

  // ---------- mapping ----------

  function MapClient(s: State, k: Ref): State {
    var s1 := Notify(s, CLIENT, NEW_CONNECTION, k).0;
    if k in s1.conns then SetMapped(s1, k) else s1
  }

  function MmapStep(s: State, targetId: int, subId: int): (State, int) {
    var c := ClientById(s, targetId);
    if c != NULL then
      var k := s.clients[c].conn;
      if k == NULL then (s, -EINVAL)
      else if k in s.conns && s.conns[k].mem in s.subs &&
              PackIds(s.clients[c].id, s.subs[s.conns[k].mem].id) == WORD - EINVAL then (s, 0)
      else (MapClient(s, k), 0)
    else
      var r := ServerById(s, targetId);
      if r == NULL || s.servers[r].entries == [] then (s, -ENOENT)
      else if subId == 0 then (s, -EINVAL)
      else if EntryByMem(s, r, subId) == NULL then (s, -ENOENT)
      else (s, 0)
  }

  // ---------- reading and closing ----------

  function Pop(s: State, t: Ref): State
    requires t in s.tasks && s.tasks[t].queue != []
  {
    s.(tasks := s.tasks[t := s.tasks[t].(queue := s.tasks[t].queue[1..], pending := s.tasks[t].pending - 1)])
  }

  /** A notification that does not fit the caller's buffer has left the queue all the same. */
  function ReadStep(s: State, t: Ref, count: int): (State, int)
    requires t in s.tasks
  {
    if s.tasks[t].monitor then (s, if count < SNAPSHOT_SIZE then -EMSGSIZE else SNAPSHOT_SIZE)
    else if s.tasks[t].queue == [] then (s, -ENOENT)
    else (Pop(s, t), if NOTIF_SIZE > count then -EMSGSIZE else NOTIF_SIZE)
  }

  function CleanServers(s: State, rs: seq<Ref>): State
    decreases |rs|
  {
    if rs == [] then s
    else if rs[0] in s.servers then CleanServers(CleanServer(s, rs[0]), rs[1..])
    else CleanServers(s, rs[1..])
  }

  function CleanClients(s: State, cs: seq<Ref>): State
    decreases |cs|
  {
    if cs == [] then s
    else if cs[0] in s.clients then CleanClients(CleanClient(s, cs[0]), cs[1..])
    else CleanClients(s, cs[1..])
  }

  function DestroyServers(s: State, rs: seq<Ref>): State
    decreases |rs|
  {
    if rs == [] then s else DestroyServers(DestroyServer(s, rs[0]), rs[1..])
  }

  function DestroyClients(s: State, cs: seq<Ref>): State
    decreases |cs|
  {
    if cs == [] then s else DestroyClients(DestroyClient(s, cs[0]), cs[1..])
  }

  /** reg_task_delete: connections of its servers, connections of its clients, servers, clients, task. */
  function CloseTask(s: State, t: Ref): State
    requires t in s.tasks
  {
    var rs, cs := s.tasks[t].servers, s.tasks[t].clients;
    RemoveTask(DestroyClients(DestroyServers(CleanClients(CleanServers(s, rs), cs), rs), cs), t)
  }

  // ---------- all together ----------

  function Step(s: State, cmd: Cmd): (State, int)
    requires CmdOk(s, cmd)
  {
    match cmd
    case Open(process, t) => OpenStep(s, process, t)
    case RegisterServer(t, name, r) => RegisterServerStep(s, t, name, r)
    case RegisterClient(t, c) => RegisterClientStep(s, t, c)
    case RegisterMonitor(t) => RegisterMonitorStep(s, t)
    case Connect(id, name, k, e, p, us) => ConnectStep(s, id, name, k, e, p, us)
    case ClientEndWriting(id) => ClientEndWritingStep(s, id)
    case ServerEndWriting(id, subId) => ServerEndWritingStep(s, id, subId)
    case ClientDisconnect(id) => ClientDisconnectStep(s, id)
    case ServerDisconnect(id, subId) => ServerDisconnectStep(s, id, subId)
    case ClientUnregister(id) => ClientUnregisterStep(s, id)
    case ServerUnregister(id) => ServerUnregisterStep(s, id)
    case Mmap(targetId, subId) => MmapStep(s, targetId, subId)
    case Read(t, count) => ReadStep(s, t, count)
    case Close(t) => (CloseTask(s, t), 0)
  }

  /** A run of the driver: the states between successive system calls, from the freshly loaded module on. */
  ghost predicate Behavior(states: seq<State>, cmds: seq<Cmd>) {
    && |states| == |cmds| + 1
    && states[0] == INITIAL
    && forall i | 0 <= i < |cmds| :: CmdOk(states[i], cmds[i]) && states[i + 1] == Step(states[i], cmds[i]).0
  }
}
