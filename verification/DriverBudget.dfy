/** Counting: what the per-task and global limits say about the number of live objects and identifiers. */
module DriverBudget {
  import opened Seqs
  import opened DriverModel
  import opened DriverInvariant

  const MAX_SERVERS: int := MAX_PROCESSES * MAX_SERVERS_PER_PID
  const MAX_CLIENTS: int := MAX_PROCESSES * MAX_CLIENTS_PER_PID

  function ServerTasks(servers: map<Ref, Server>): map<Ref, Ref> {
    map r | r in servers :: servers[r].task
  }

  function ClientTasks(clients: map<Ref, Client>): map<Ref, Ref> {
    map c | c in clients :: clients[c].task
  }

  lemma PerTask(tasks: map<Ref, Task>, clients: map<Ref, Client>, servers: map<Ref, Server>, t: Ref)
    requires Owned(tasks, clients, servers) && t in tasks
    ensures |Fibre(ServerTasks(servers), t)| == tasks[t].numServers <= MAX_SERVERS_PER_PID
    ensures |Fibre(ClientTasks(clients), t)| == tasks[t].numClients <= MAX_CLIENTS_PER_PID
  {
    assert TaskOk(t, tasks[t], clients, servers);
    ListsSize(tasks[t].servers, Fibre(ServerTasks(servers), t));
    ListsSize(tasks[t].clients, Fibre(ClientTasks(clients), t));
  }

  /** A task with room for one more server means that the whole system has room for one more. */
  lemma ServerBudget(tasks: map<Ref, Task>, clients: map<Ref, Client>, servers: map<Ref, Server>)
    requires Owned(tasks, clients, servers) && |tasks| <= MAX_PROCESSES
    ensures |servers| <= MAX_SERVERS
    ensures forall t | t in tasks && tasks[t].numServers < MAX_SERVERS_PER_PID :: |servers| < MAX_SERVERS
  {
    var f := ServerTasks(servers);
    assert f.Keys == servers.Keys && forall r <- f :: f[r] in tasks.Keys;
    assert |f.Keys| == |f| && |servers.Keys| == |servers| && |tasks.Keys| == |tasks|;
    forall t <- tasks.Keys
      ensures |Fibre(f, t)| == tasks[t].numServers <= MAX_SERVERS_PER_PID
    {
      PerTask(tasks, clients, servers, t);
    }
    hide Owned, Fibre;
    FibreBound(f, tasks.Keys, MAX_SERVERS_PER_PID);
    forall t | t in tasks && tasks[t].numServers < MAX_SERVERS_PER_PID
      ensures |servers| < MAX_SERVERS
    {
      FibreBoundStrict(f, tasks.Keys, MAX_SERVERS_PER_PID, t);
    }
  }

  lemma ClientBudget(tasks: map<Ref, Task>, clients: map<Ref, Client>, servers: map<Ref, Server>)
    requires Owned(tasks, clients, servers) && |tasks| <= MAX_PROCESSES
    ensures |clients| <= MAX_CLIENTS
    ensures forall t | t in tasks && tasks[t].numClients < MAX_CLIENTS_PER_PID :: |clients| < MAX_CLIENTS
  {
    var f := ClientTasks(clients);
    assert f.Keys == clients.Keys && forall c <- f :: f[c] in tasks.Keys;
    assert |f.Keys| == |f| && |clients.Keys| == |clients| && |tasks.Keys| == |tasks|;
    forall t <- tasks.Keys
      ensures |Fibre(f, t)| == tasks[t].numClients <= MAX_CLIENTS_PER_PID
    {
      PerTask(tasks, clients, servers, t);
    }
    hide Owned, Fibre;
    FibreBound(f, tasks.Keys, MAX_CLIENTS_PER_PID);
    forall t | t in tasks && tasks[t].numClients < MAX_CLIENTS_PER_PID
      ensures |clients| < MAX_CLIENTS
    {
      FibreBoundStrict(f, tasks.Keys, MAX_CLIENTS_PER_PID, t);
    }
  }

  lemma OwnersLive(tasks: map<Ref, Task>, clients: map<Ref, Client>, servers: map<Ref, Server>)
    requires Owned(tasks, clients, servers)
    ensures forall r <- servers :: servers[r].task in tasks
    ensures forall c <- clients :: clients[c].task in tasks
  {
  }

  lemma TaskCount(s: State)
    requires Enumerated(s)
    ensures |s.tasks| <= MAX_PROCESSES
  {
    ListsSize(s.taskList, s.tasks.Keys);
  }

  // ---------- connections, sub-memories and pools ----------

  function UsedSubs(subs: map<Ref, Sub>): set<Ref> {
    set u | u in subs && subs[u].conn != NULL
  }

  /** There are as many used sub-memories as connections, and no more than clients. */
  lemma UsedCount(conns: map<Ref, Conn>, clients: map<Ref, Client>, subs: map<Ref, Sub>)
    requires Linked(conns, clients, subs)
    ensures |UsedSubs(subs)| == |conns| <= |clients|
    ensures forall c | c in clients && clients[c].conn == NULL :: |conns| < |clients|
  {
    InjectionBound(conns.Keys, UsedSubs(subs), map k | k in conns :: conns[k].mem);
    InjectionBound(UsedSubs(subs), conns.Keys, map u | u in subs :: subs[u].conn);
    var f := map k | k in conns :: conns[k].client;
    InjectionBound(conns.Keys, clients.Keys, f);
    forall c | c in clients && clients[c].conn == NULL
      ensures |conns| < |clients|
    {
      InjectionBound(conns.Keys, clients.Keys - {c}, f);
    }
  }

  /** When every sub-memory is taken and a client still wants one, a further pool stays within bounds. */
  lemma PoolBudget(s: State, c: Ref)
    requires Inv(s) && c in s.clients && s.clients[c].conn == NULL
    requires forall u <- s.subs :: s.subs[u].conn != NULL
    ensures |s.conns| == SHM_POOL_SIZE * |s.pools|
    ensures |s.pools| < MAX_POOLS
  {
    assert UsedSubs(s.subs) == s.subs.Keys;
    assert |s.subs.Keys| == |s.subs|;
    PoolSizes(s.pools, s.subs.Keys);
    UsedCount(s.conns, s.clients, s.subs);
    ClientTotal(s);
  }

  lemma ClientTotal(s: State)
    requires Inv(s)
    ensures |s.clients| <= MAX_CLIENTS
  {
    hide Linked, Listed, Owned, Pooled, Identified, Lists, Separate, Named;
    TaskCount(s);
    ClientBudget(s.tasks, s.clients, s.servers);
  }

  lemma PoolSizes(pools: map<Ref, Pool>, subs: set<Ref>)
    requires Pooled(pools, subs)
    ensures |subs| == SHM_POOL_SIZE * |pools| && |pools| <= MAX_POOLS
  {
  }

  /** The live identifiers never exceed 256 + 256 + 5 * 64. */
  lemma IdBudget(s: State)
    requires Inv(s)
    ensures |s.ids| == |s.servers| + |s.clients| + 5 * |s.pools| <= ID_BUDGET
  {
    PoolSizes(s.pools, s.subs.Keys);
    assert |s.ids| == HoldersOf(s).Count();
    assert |s.subs.Keys| == |s.subs|;
    hide Linked, Listed, Owned, Pooled, Identified, Lists, Separate, Named;
    TaskCount(s);
    ServerBudget(s.tasks, s.clients, s.servers);
    ClientBudget(s.tasks, s.clients, s.servers);
  }
}
