/** The global invariant of the driver. Each part mentions only the fields it constrains. */
module DriverInvariant {
  import opened Seqs
  import opened DriverModel

  // ---------- who points to whom ----------

  /** Each connection is pointed to by its client and its sub-memory, and every connection pointer of a
      client or a sub-memory names a connection that points back. */
  ghost predicate Linked(conns: map<Ref, Conn>, clients: map<Ref, Client>, subs: map<Ref, Sub>) {
    && NULL !in conns && NULL !in clients && NULL !in subs
    && (forall k <- conns :: conns[k].client in clients && clients[conns[k].client].conn == k)
    && (forall k <- conns :: conns[k].mem in subs && subs[conns[k].mem].conn == k)
    && (forall c <- clients :: clients[c].conn != NULL ==>
          clients[c].conn in conns && conns[clients[c].conn].client == c)
    && (forall u <- subs :: subs[u].conn != NULL ==>
          subs[u].conn in conns && conns[subs[u].conn].mem == u)
  }

  ghost predicate HasEntry(entries: map<Ref, Ref>, k: Ref) {
    exists e :: e in entries && entries[e] == k
  }

  /** Entries and connections correspond one to one, and an entry is in the list of its connection's
      server and in no other list. */
  ghost predicate Listed(conns: map<Ref, Conn>, servers: map<Ref, Server>, entries: map<Ref, Ref>) {
    && NULL !in servers && NULL !in entries
    && (forall k <- conns :: conns[k].server in servers && HasEntry(entries, k))
    && (forall e <- entries :: entries[e] in conns)
    && (forall e, e' | e in entries && e' in entries && entries[e] == entries[e'] :: e == e')
    && (forall r <- servers :: Distinct(servers[r].entries))
    && (forall r, e | r in servers :: e in servers[r].entries <==> e in entries && conns[entries[e]].server == r)
  }

  // ---------- tasks ----------

  ghost predicate TaskOk(t: Ref, task: Task, clients: map<Ref, Client>, servers: map<Ref, Server>) {
    && task.pending == |task.queue|
    && Distinct(task.servers) && Distinct(task.clients)
    && task.numServers == |task.servers| <= MAX_SERVERS_PER_PID
    && task.numClients == |task.clients| <= MAX_CLIENTS_PER_PID
    && (task.monitor ==> task.servers == [] && task.clients == [])
    && (forall r :: r in task.servers <==> r in servers && servers[r].task == t)
    && (forall c :: c in task.clients <==> c in clients && clients[c].task == t)
  }

  /** Every client and server is listed by the task it belongs to, within the per-task limits. */
  ghost predicate Owned(tasks: map<Ref, Task>, clients: map<Ref, Client>, servers: map<Ref, Server>) {
    && NULL !in tasks
    && (forall t <- tasks :: TaskOk(t, tasks[t], clients, servers))
    && (forall r <- servers :: servers[r].task in tasks)
    && (forall c <- clients :: clients[c].task in tasks)
  }

  /** No process is registered twice and there is at most one monitor. */
  ghost predicate Separate(tasks: map<Ref, Task>) {
    && (forall t, t' | t in tasks && t' in tasks && tasks[t].process == tasks[t'].process :: t == t')
    && (forall t, t' | t in tasks && t' in tasks && tasks[t].monitor && tasks[t'].monitor :: t == t')
  }

  /** Server names are unique and were accepted by the library. */
  ghost predicate Named(servers: map<Ref, Server>) {
    forall r, r' | r in servers && r' in servers && servers[r].name == servers[r'].name :: r == r'
  }

  // ---------- pools ----------

  const MAX_POOLS: int := 64

  ghost predicate InPool(pools: map<Ref, Pool>, u: Ref) {
    exists p :: p in pools && u in pools[p].subs
  }

  /** The pools partition the sub-memories into groups of four. */
  ghost predicate Pooled(pools: map<Ref, Pool>, subs: set<Ref>) {
    && NULL !in pools
    && (forall p <- pools :: |pools[p].subs| == SHM_POOL_SIZE && Distinct(pools[p].subs))
    && (forall p, u | p in pools && u in pools[p].subs :: u in subs)
    && (forall p, p', u | p in pools && p' in pools && u in pools[p].subs && u in pools[p'].subs :: p == p')
    && (forall u <- subs :: InPool(pools, u))
    && |subs| == SHM_POOL_SIZE * |pools|
    && |pools| <= MAX_POOLS
  }

  // ---------- identifiers ----------

  const ID_BUDGET: int := 832

  /** The four kinds of objects that draw on the shared identifier space. */
  datatype Owner = OfClient(c: Ref) | OfServer(r: Ref) | OfSub(u: Ref) | OfPool(p: Ref)

  datatype Holders = Holders(clients: map<Ref, Client>, servers: map<Ref, Server>, subs: map<Ref, Sub>,
      pools: map<Ref, Pool>)
  {
    predicate Live(o: Owner) {
      match o
      case OfClient(c) => c in clients
      case OfServer(r) => r in servers
      case OfSub(u) => u in subs
      case OfPool(p) => p in pools
    }

    function IdOf(o: Owner): int
      requires Live(o)
    {
      match o
      case OfClient(c) => clients[c].id
      case OfServer(r) => servers[r].id
      case OfSub(u) => subs[u].id
      case OfPool(p) => pools[p].id
    }

    ghost predicate Holds(id: int) {
      exists o :: Live(o) && IdOf(o) == id
    }

    function Count(): nat {
      |clients| + |servers| + |subs| + |pools|
    }
  }

  function HoldersOf(s: State): Holders {
    Holders(s.clients, s.servers, s.subs, s.pools)
  }

  /** The identifiers in use are exactly those of the live objects, each of one object, all within budget. */
  ghost predicate Identified(ids: set<int>, h: Holders) {
    && (forall o | h.Live(o) :: h.IdOf(o) in ids)
    && (forall o, o' | h.Live(o) && h.Live(o') && h.IdOf(o) == h.IdOf(o') :: o == o')
    && (forall i <- ids :: 0 <= i < ID_BUDGET && h.Holds(i))
    && |ids| == h.Count()
  }

  // ---------- all together ----------

  /** The global lists enumerate the live objects. */
  ghost predicate Enumerated(s: State) {
    && Lists(s.taskList, s.tasks.Keys) && |s.taskList| <= MAX_PROCESSES
    && Lists(s.clientList, s.clients.Keys)
    && Lists(s.serverList, s.servers.Keys)
    && Lists(s.connList, s.conns.Keys)
    && Lists(s.poolList, s.pools.Keys)
  }

  ghost predicate Inv(s: State) {
    && Linked(s.conns, s.clients, s.subs)
    && Listed(s.conns, s.servers, s.entries)
    && Owned(s.tasks, s.clients, s.servers)
    && Separate(s.tasks)
    && Named(s.servers)
    && Pooled(s.pools, s.subs.Keys)
    && Identified(s.ids, HoldersOf(s))
    && Enumerated(s)
  }

  // ---------- two parts depend on some fields of the objects only ----------

  lemma OwnedFrame(tasks: map<Ref, Task>, clients: map<Ref, Client>, servers: map<Ref, Server>,
                   clients': map<Ref, Client>, servers': map<Ref, Server>)
    requires Owned(tasks, clients, servers)
    requires clients'.Keys == clients.Keys && forall c <- clients :: clients'[c].task == clients[c].task
    requires servers'.Keys == servers.Keys && forall r <- servers :: servers'[r].task == servers[r].task
    ensures Owned(tasks, clients', servers')
  {
    forall t <- tasks
      ensures TaskOk(t, tasks[t], clients', servers')
    {
      assert TaskOk(t, tasks[t], clients, servers);
    }
  }

  ghost predicate SameHolders(h: Holders, h': Holders) {
    && h'.pools == h.pools
    && h'.clients.Keys == h.clients.Keys && (forall c <- h.clients :: h'.clients[c].id == h.clients[c].id)
    && h'.servers.Keys == h.servers.Keys && (forall r <- h.servers :: h'.servers[r].id == h.servers[r].id)
    && h'.subs.Keys == h.subs.Keys && (forall u <- h.subs :: h'.subs[u].id == h.subs[u].id)
  }

  lemma IdentifiedFrame(ids: set<int>, h: Holders, h': Holders)
    requires Identified(ids, h) && SameHolders(h, h')
    ensures Identified(ids, h')
  {
    assert |h.clients.Keys| == |h.clients| && |h.servers.Keys| == |h.servers| && |h.subs.Keys| == |h.subs|;
    assert |h'.clients.Keys| == |h'.clients| && |h'.servers.Keys| == |h'.servers| && |h'.subs.Keys| == |h'.subs|;
    assert forall o :: h'.Live(o) == h.Live(o);
    assert forall o | h.Live(o) :: h'.IdOf(o) == h.IdOf(o);
    forall i <- ids ensures h'.Holds(i) {
      assert h.Holds(i);
    }
  }
}
