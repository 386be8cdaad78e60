/** The driver's memory and the effect of each of its operations on it.

    A kernel object is an entry of the map of its kind, under the address the allocator returned; a pointer
    is such an address or NULL, and freeing an object removes its entry. Looking an object up therefore
    carries the obligation that the pointer does not dangle, and an address may be handed out again. */
module DriverModel {
  import opened Seqs
  import opened IdSpace

  type Ref = nat
  const NULL: Ref := 0

  const ENOENT: int := 2
  const ENOMEM: int := 12
  const EFAULT: int := 14
  const EEXIST: int := 17
  const ENODATA: int := 61
  const EMSGSIZE: int := 90
  const ENOPARAM: int := 519

  /** No return code: the call follows a null pointer, having changed nothing, and does not return. */
  const OOPS: int := -4096

  const MAX_PROCESSES: int := 16
  const MAX_SERVERS_PER_PID: int := 16
  const MAX_CLIENTS_PER_PID: int := 16
  const MAX_CLIENTS_PER_SERVER: int := 16
  const SHM_POOL_SIZE: int := 4
  const MAX_SERVER_NAME: int := 64

  datatype Sender = SERVER | CLIENT
  datatype Kind = NEW_CONNECTION | NEW_MESSAGE | REMOTE_DISCONNECT

  datatype Notif = Notif(who: Sender, kind: Kind, subId: int, sender: int, receiver: int)

  datatype Task = Task(
    process: nat,
    monitor: bool,
    queue: seq<Notif>, pending: int,
    servers: seq<Ref>, numServers: int,
    clients: seq<Ref>, numClients: int)
  datatype Client = Client(id: int, task: Ref, conn: Ref)
  datatype Server = Server(id: int, name: string, task: Ref, entries: seq<Ref>)
  datatype Conn = Conn(client: Ref, server: Ref, mem: Ref, mapped: bool)
  datatype Sub = Sub(id: int, conn: Ref)
  datatype Pool = Pool(id: int, subs: seq<Ref>)

  /** All of the driver's global state. Entries are the elements of the servers' connection lists; the
      lists are the global linked lists in their order. */
  datatype State = State(
    tasks: map<Ref, Task>,
    clients: map<Ref, Client>,
    servers: map<Ref, Server>,
    conns: map<Ref, Conn>,
    entries: map<Ref, Ref>,
    subs: map<Ref, Sub>,
    pools: map<Ref, Pool>,
    taskList: seq<Ref>,
    clientList: seq<Ref>,
    serverList: seq<Ref>,
    connList: seq<Ref>,
    poolList: seq<Ref>,
    ids: set<int>)

  const INITIAL: State :=
    State(map[], map[], map[], map[], map[], map[], map[], [], [], [], [], [], {})

  // ---------- notifications ----------

  /** reg_task_add_notification */
  function Push(s: State, t: Ref, n: Notif): State
    requires t in s.tasks
  {
    s.(tasks := s.tasks[t := s.tasks[t].(queue := s.tasks[t].queue + [n], pending := s.tasks[t].pending + 1)])
  }

  /** notification_create followed by reg_task_add_notification: an identifier out of range is refused. */
  function Post(s: State, t: Ref, n: Notif): (State, int)
    requires t in s.tasks
  {
    if ValidId(n.sender) && ValidId(n.subId) && ValidId(n.receiver) then (Push(s, t, n), 0) else (s, -EFAULT)
  }

  /** Every pointer a notification about connection k follows is NULL or leads to a live object. */
  predicate Sendable(s: State, k: Ref) {
    && k in s.conns
    && (s.conns[k].mem == NULL || s.conns[k].mem in s.subs)
    && (s.conns[k].client == NULL ||
        (s.conns[k].client in s.clients && s.clients[s.conns[k].client].task in s.tasks))
    && (s.conns[k].server == NULL ||
        (s.conns[k].server in s.servers && s.servers[s.conns[k].server].task in s.tasks))
  }

  /** notification_send. A missing receiver has identifier -1, which notification_create refuses. */
  function Send(s: State, who: Sender, kind: Kind, k: Ref): (State, int)
    requires Sendable(s, k)
  {
    var con := s.conns[k];
    if con.mem == NULL then (s, -ENOPARAM)
    else if who == CLIENT && con.client == NULL then (s, -ENOENT)
    else if who == SERVER && con.server == NULL then (s, -ENOENT)
    else if con.client == NULL || con.server == NULL then (s, -EFAULT)
    else
      var c, r, u := s.clients[con.client], s.servers[con.server], s.subs[con.mem];
      if who == CLIENT then Post(s, r.task, Notif(CLIENT, kind, u.id, c.id, r.id))
      else Post(s, c.task, Notif(SERVER, kind, u.id, r.id, c.id))
  }

  // ---------- connections ----------

  /** A connection list without the entries that stand for connection k. */
  function WithoutConn(list: seq<Ref>, entries: map<Ref, Ref>, k: Ref): seq<Ref> {
    if list == [] then []
    else if list[0] in entries && entries[list[0]] == k then WithoutConn(list[1..], entries, k)
    else [list[0]] + WithoutConn(list[1..], entries, k)
  }

  function ClientsWithout(clients: map<Ref, Client>, k: Ref): map<Ref, Client> {
    map c | c in clients :: if clients[c].conn == k then clients[c].(conn := NULL) else clients[c]
  }

  function SubsWithout(subs: map<Ref, Sub>, k: Ref): map<Ref, Sub> {
    map u | u in subs :: if subs[u].conn == k then subs[u].(conn := NULL) else subs[u]
  }

  function ServersWithout(servers: map<Ref, Server>, entries: map<Ref, Ref>, k: Ref): map<Ref, Server> {
    map r | r in servers :: servers[r].(entries := WithoutConn(servers[r].entries, entries, k))
  }

  function EntriesWithout(entries: map<Ref, Ref>, k: Ref): map<Ref, Ref> {
    map e | e in entries && entries[e] != k :: entries[e]
  }

  /** The state with every trace of connection k gone: nothing points to it and it is listed nowhere. */
  function DropConn(s: State, k: Ref): State {
    s.(clients := ClientsWithout(s.clients, k),
       subs := SubsWithout(s.subs, k),
       servers := ServersWithout(s.servers, s.entries, k),
       entries := EntriesWithout(s.entries, k),
       conns := s.conns - {k},
       connList := Remove(s.connList, k))
  }

  /** What deleting a connection amounts to: both sides are told, then the connection is gone. */
  function Unlink(s: State, k: Ref): State
    requires Sendable(s, k)
  {
    var told := Send(s, SERVER, REMOTE_DISCONNECT, k).0;
    DropConn(Send(told, CLIENT, REMOTE_DISCONNECT, k).0, k)
  }

  /** Deleting several connections one after the other. The walk would end at a dangling pointer; the
      invariant rules that out. */
  function UnlinkAll(s: State, ks: seq<Ref>): State
    decreases |ks|
  {
    if ks == [] || !Sendable(s, ks[0]) then s else UnlinkAll(Unlink(s, ks[0]), ks[1..])
  }

  /** The connections behind a list of entries. */
  function ConnsBehind(entries: map<Ref, Ref>, es: seq<Ref>): (ks: seq<Ref>)
    ensures (forall e <- es :: e in entries) ==> |ks| == |es| && forall i | 0 <= i < |es| :: ks[i] == entries[es[i]]
  {
    if es == [] then []
    else if es[0] in entries then [entries[es[0]]] + ConnsBehind(entries, es[1..])
    else ConnsBehind(entries, es[1..])
  }

  /** server_cleanup_connections: every connection of one server is deleted, in list order. */
  function CleanServer(s: State, r: Ref): State
    requires r in s.servers
  {
    UnlinkAll(s, ConnsBehind(s.entries, s.servers[r].entries))
  }

  /** client_cleanup_connection */
  function CleanClient(s: State, c: Ref): State
    requires c in s.clients
  {
    if s.clients[c].conn == NULL then s else UnlinkAll(s, [s.clients[c].conn])
  }

  /** The connection object k, its entry e and the back pointers of client c, server r and sub-memory u. */
  function AddConn(s: State, c: Ref, r: Ref, u: Ref, k: Ref, e: Ref): State
    requires c in s.clients && r in s.servers && u in s.subs
  {
    s.(conns := s.conns[k := Conn(c, r, u, false)],
       connList := s.connList + [k],
       clients := s.clients[c := s.clients[c].(conn := k)],
       subs := s.subs[u := s.subs[u].(conn := k)],
       entries := s.entries[e := k],
       servers := s.servers[r := s.servers[r].(entries := [e] + s.servers[r].entries)])
  }

  function SetMapped(s: State, k: Ref): State
    requires k in s.conns
  {
    s.(conns := s.conns[k := s.conns[k].(mapped := true)])
  }

  // ---------- searches over lists ----------

  /** find_client_by_id: the first client in the list with this identifier. */
  function FindClient(s: State, list: seq<Ref>, id: int): (c: Ref)
    ensures c != NULL ==> c in list && c in s.clients && s.clients[c].id == id
    ensures c == NULL && NULL !in s.clients ==> forall x <- list :: x in s.clients ==> s.clients[x].id != id
  {
    if list == [] then NULL
    else if list[0] in s.clients && s.clients[list[0]].id == id then list[0]
    else FindClient(s, list[1..], id)
  }

  function ClientById(s: State, id: int): Ref {
    if ValidId(id) then FindClient(s, s.clientList, id) else NULL
  }

  /** find_server_by_id */
  function FindServer(s: State, list: seq<Ref>, id: int): (r: Ref)
    ensures r != NULL ==> r in list && r in s.servers && s.servers[r].id == id
    ensures r == NULL && NULL !in s.servers ==> forall x <- list :: x in s.servers ==> s.servers[x].id != id
  {
    if list == [] then NULL
    else if list[0] in s.servers && s.servers[list[0]].id == id then list[0]
    else FindServer(s, list[1..], id)
  }

  function ServerById(s: State, id: int): Ref {
    if ValidId(id) then FindServer(s, s.serverList, id) else NULL
  }

  /** find_server_by_name */
  function FindName(s: State, list: seq<Ref>, name: string): (r: Ref)
    ensures r != NULL ==> r in list && r in s.servers && s.servers[r].name == name
    ensures r == NULL && NULL !in s.servers ==> forall x <- list :: x in s.servers ==> s.servers[x].name != name
  {
    if list == [] then NULL
    else if list[0] in s.servers && s.servers[list[0]].name == name then list[0]
    else FindName(s, list[1..], name)
  }

  function ServerByName(s: State, name: string): Ref {
    FindName(s, s.serverList, name)
  }

  /** The pointers from a list entry to its connection and on to the sub-memory are live. */
  predicate EntryLive(s: State, e: Ref) {
    e in s.entries && s.entries[e] in s.conns && s.conns[s.entries[e]].mem in s.subs
  }

  function EntryMemId(s: State, e: Ref): int
    requires EntryLive(s, e)
  {
    s.subs[s.conns[s.entries[e]].mem].id
  }

  /** server_find_conn_by_sub_mem_id */
  function FindMem(s: State, list: seq<Ref>, id: int): (e: Ref)
    ensures e != NULL ==> e in list && EntryLive(s, e) && EntryMemId(s, e) == id
    ensures e == NULL && NULL !in s.entries ==> forall x <- list :: EntryLive(s, x) ==> EntryMemId(s, x) != id
  {
    if list == [] then NULL
    else if EntryLive(s, list[0]) && EntryMemId(s, list[0]) == id then list[0]
    else FindMem(s, list[1..], id)
  }

  function EntryByMem(s: State, r: Ref, id: int): Ref
    requires r in s.servers
  {
    if ValidId(id) then FindMem(s, s.servers[r].entries, id) else NULL
  }

  // ---------- pools ----------

  /** shm_get_free_submem: the first sub-memory of a pool without a connection. */
  function FreeIn(s: State, us: seq<Ref>): (u: Ref)
    ensures u != NULL ==> u in us && u in s.subs && s.subs[u].conn == NULL
    ensures u == NULL && NULL !in s.subs ==> forall x <- us :: x in s.subs ==> s.subs[x].conn != NULL
  {
    if us == [] then NULL
    else if us[0] in s.subs && s.subs[us[0]].conn == NULL then us[0]
    else FreeIn(s, us[1..])
  }

  /** The search of get_free_submem through the existing pools. */
  function FreeSub(s: State, ps: seq<Ref>): (u: Ref)
    ensures u != NULL ==> u in s.subs && s.subs[u].conn == NULL
    ensures u == NULL && NULL !in s.subs ==> forall p, x | p in ps && p in s.pools && x in s.pools[p].subs &&
            x in s.subs :: s.subs[x].conn != NULL
  {
    if ps == [] then NULL
    else
      var u := if ps[0] in s.pools then FreeIn(s, s.pools[ps[0]].subs) else NULL;
      if u != NULL then u else FreeSub(s, ps[1..])
  }

  /** The identifiers in use once generate_id has run; a failed allocation takes none. */
  function Taken(ids: set<int>): set<int> {
    var id := GenerateId(ids);
    if id < 0 then ids else ids + {id}
  }

  /** free_id */
  function Freed(ids: set<int>, id: int): set<int> {
    if ValidId(id) then ids - {id} else ids
  }

  /** submem_init */
  function AddSub(s: State, u: Ref): State {
    s.(subs := s.subs[u := Sub(GenerateId(s.ids), NULL)], ids := Taken(s.ids))
  }

  function AddSubs(s: State, us: seq<Ref>): State
    decreases |us|
  {
    if us == [] then s else AddSubs(AddSub(s, us[0]), us[1..])
  }

  /** shm_create: the sub-memories take their identifiers before the pool does; the pool is listed first. */
  function AddPool(s: State, p: Ref, us: seq<Ref>): State {
    var s1 := AddSubs(s, us);
    s1.(pools := s1.pools[p := Pool(GenerateId(s1.ids), us)], poolList := [p] + s1.poolList, ids := Taken(s1.ids))
  }

  // ---------- clients, servers and tasks ----------

  /** client_create and reg_task_add_client */
  function AddClient(s: State, t: Ref, c: Ref): State
    requires t in s.tasks
  {
    s.(clients := s.clients[c := Client(GenerateId(s.ids), t, NULL)],
       clientList := s.clientList + [c],
       ids := Taken(s.ids),
       tasks := s.tasks[t := s.tasks[t].(clients := [c] + s.tasks[t].clients, numClients := s.tasks[t].numClients + 1)])
  }

  /** server_create and reg_task_add_server */
  function AddServer(s: State, t: Ref, r: Ref, name: string): State
    requires t in s.tasks
  {
    s.(servers := s.servers[r := Server(GenerateId(s.ids), name, t, [])],
       serverList := s.serverList + [r],
       ids := Taken(s.ids),
       tasks := s.tasks[t := s.tasks[t].(servers := [r] + s.tasks[t].servers, numServers := s.tasks[t].numServers + 1)])
  }

  /** reg_task_delete_client and client_destroy */
  function RemoveClient(s: State, c: Ref): State
    requires c in s.clients && s.clients[c].task in s.tasks
  {
    var t := s.clients[c].task;
    s.(clients := s.clients - {c},
       clientList := Remove(s.clientList, c),
       ids := Freed(s.ids, s.clients[c].id),
       tasks := s.tasks[t := s.tasks[t].(clients := Remove(s.tasks[t].clients, c),
           numClients := s.tasks[t].numClients - 1)])
  }

  /** reg_task_delete_server and server_destroy */
  function RemoveServer(s: State, r: Ref): State
    requires r in s.servers && s.servers[r].task in s.tasks
  {
    var t := s.servers[r].task;
    s.(servers := s.servers - {r},
       serverList := Remove(s.serverList, r),
       ids := Freed(s.ids, s.servers[r].id),
       tasks := s.tasks[t := s.tasks[t].(servers := Remove(s.tasks[t].servers, r),
           numServers := s.tasks[t].numServers - 1)])
  }

  /** reg_task_create */
  function AddTask(s: State, t: Ref, process: nat): State {
    s.(tasks := s.tasks[t := Task(process, false, [], 0, [], 0, [], 0)], taskList := [t] + s.taskList)
  }

  /** The end of reg_task_delete */
  function RemoveTask(s: State, t: Ref): State {
    s.(tasks := s.tasks - {t}, taskList := Remove(s.taskList, t))
  }
}
