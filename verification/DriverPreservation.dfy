/** Every elementary change of the driver's state keeps the global invariant. */
module DriverPreservation {
  import opened Seqs
  import opened IdSpace
  import opened DriverModel
  import opened DriverInvariant
  import opened DriverBudget

  // ---------- queues ----------

  lemma QueueInv(s: State, t: Ref, q: seq<Notif>)
    requires Inv(s) && t in s.tasks
    ensures Inv(s.(tasks := s.tasks[t := s.tasks[t].(queue := q, pending := |q|)]))
  {
    hide Linked, Listed, Pooled, Identified, Named, Lists;
    var s' := s.(tasks := s.tasks[t := s.tasks[t].(queue := q, pending := |q|)]);
    assert s'.tasks.Keys == s.tasks.Keys;
    QueueOwned(s.tasks, s.clients, s.servers, t, q);
  }

  lemma QueueOwned(tasks: map<Ref, Task>, clients: map<Ref, Client>, servers: map<Ref, Server>, t: Ref, q: seq<Notif>)
    requires Owned(tasks, clients, servers) && t in tasks
    ensures Owned(tasks[t := tasks[t].(queue := q, pending := |q|)], clients, servers)
  {
    var tasks' := tasks[t := tasks[t].(queue := q, pending := |q|)];
    forall t' <- tasks' ensures TaskOk(t', tasks'[t'], clients, servers) {
      assert TaskOk(t', tasks[t'], clients, servers);
    }
  }

  lemma PushInv(s: State, t: Ref, n: Notif)
    requires Inv(s) && t in s.tasks
    ensures Inv(Push(s, t, n))
  {
    assert TaskOk(t, s.tasks[t], s.clients, s.servers);
    hide Linked, Listed, Pooled, Identified, Named, Enumerated, Owned, TaskOk;
    QueueInv(s, t, s.tasks[t].queue + [n]);
  }

  // ---------- deleting a connection ----------

  lemma {:induction false} WithoutConnKeeps(list: seq<Ref>, entries: map<Ref, Ref>, k: Ref)
    ensures forall e :: e in WithoutConn(list, entries, k) <==> e in list && !(e in entries && entries[e] == k)
    ensures Distinct(list) ==> Distinct(WithoutConn(list, entries, k))
  {
    if list != [] {
      WithoutConnKeeps(list[1..], entries, k);
      assert list == [list[0]] + list[1..];
      if Distinct(list) {
        assert Distinct(list[1..]);
        assert list[0] !in list[1..];
      }
    }
  }

  lemma DropConnLinked(conns: map<Ref, Conn>, clients: map<Ref, Client>, subs: map<Ref, Sub>, k: Ref)
    requires Linked(conns, clients, subs) && k in conns
    ensures Linked(conns - {k}, ClientsWithout(clients, k), SubsWithout(subs, k))
  {
  }

  lemma ServersWithoutKeeps(servers: map<Ref, Server>, entries: map<Ref, Ref>, k: Ref)
    requires forall r <- servers :: Distinct(servers[r].entries)
    ensures ServersWithout(servers, entries, k).Keys == servers.Keys
    ensures forall r, e | r in servers :: e in ServersWithout(servers, entries, k)[r].entries <==>
              e in servers[r].entries && !(e in entries && entries[e] == k)
    ensures forall r <- servers :: Distinct(ServersWithout(servers, entries, k)[r].entries)
  {
    forall r <- servers
      ensures Distinct(WithoutConn(servers[r].entries, entries, k))
      ensures forall e :: e in WithoutConn(servers[r].entries, entries, k) <==>
                e in servers[r].entries && !(e in entries && entries[e] == k)
    {
      WithoutConnKeeps(servers[r].entries, entries, k);
    }
  }

  lemma DropConnListed(conns: map<Ref, Conn>, servers: map<Ref, Server>, entries: map<Ref, Ref>, k: Ref)
    requires Listed(conns, servers, entries) && k in conns
    ensures Listed(conns - {k}, ServersWithout(servers, entries, k), EntriesWithout(entries, k))
  {
    hide Distinct, ServersWithout, HasEntry;
    ServersWithoutKeeps(servers, entries, k);
    forall k' | k' in conns && k' != k
      ensures HasEntry(EntriesWithout(entries, k), k')
    {
      OtherEntry(entries, k, k');
    }
  }

  lemma OtherEntry(entries: map<Ref, Ref>, k: Ref, k': Ref)
    requires HasEntry(entries, k') && k' != k
    ensures HasEntry(EntriesWithout(entries, k), k')
  {
    var e :| e in entries && entries[e] == k';
    assert e in EntriesWithout(entries, k);
  }

  lemma DropConnFrame(s: State, k: Ref)
    ensures var s' := DropConn(s, k);
            && s'.clients.Keys == s.clients.Keys && s'.servers.Keys == s.servers.Keys && s'.subs.Keys == s.subs.Keys
            && SameHolders(HoldersOf(s), HoldersOf(s'))
            && (forall c <- s.clients :: s'.clients[c].task == s.clients[c].task)
            && (forall r <- s.servers :: s'.servers[r].task == s.servers[r].task &&
                 s'.servers[r].name == s.servers[r].name)
  {
  }

  lemma DropConnInv(s: State, k: Ref)
    requires Inv(s) && k in s.conns
    ensures Inv(DropConn(s, k))
  {
    DropConnFrame(s, k);
    hide Linked, Listed, Owned, Pooled, Identified, Lists, ClientsWithout, ServersWithout, SubsWithout, EntriesWithout;
    var s' := DropConn(s, k);
    DropConnLinked(s.conns, s.clients, s.subs, k);
    DropConnListed(s.conns, s.servers, s.entries, k);
    OwnedFrame(s.tasks, s.clients, s.servers, s'.clients, s'.servers);
    IdentifiedFrame(s.ids, HoldersOf(s), HoldersOf(s'));
    RemoveLists(s.connList, s.conns.Keys, k);
    assert s'.conns.Keys == s.conns.Keys - {k};
  }

  // ---------- making a connection ----------

  lemma AddConnLinked(conns: map<Ref, Conn>, clients: map<Ref, Client>, subs: map<Ref, Sub>, k: Ref, con: Conn)
    requires Linked(conns, clients, subs) && k !in conns && k != NULL
    requires con.client in clients && clients[con.client].conn == NULL
    requires con.mem in subs && subs[con.mem].conn == NULL
    ensures Linked(conns[k := con], clients[con.client := clients[con.client].(conn := k)],
                   subs[con.mem := subs[con.mem].(conn := k)])
  {
  }

  lemma AddConnListed(conns: map<Ref, Conn>, servers: map<Ref, Server>, entries: map<Ref, Ref>, k: Ref, con: Conn,
                      e: Ref)
    requires Listed(conns, servers, entries) && k !in conns && e !in entries && e != NULL
    requires con.server in servers
    ensures Listed(conns[k := con],
                   servers[con.server := servers[con.server].(entries := [e] + servers[con.server].entries)],
                   entries[e := k])
  {
    var r := con.server;
    var list := servers[r].entries;
    assert e !in list;
    PrependDistinct(list, e);
    var entries' := entries[e := k];
    assert entries'[e] == k;
    forall k' | k' in conns[k := con]
      ensures HasEntry(entries', k')
    {
      if k' != k {
        var e' :| e' in entries && entries[e'] == k';
        assert entries'[e'] == k';
      }
    }
    hide Distinct;
    assert forall x :: x in [e] + list <==> x == e || x in list;
  }

  lemma PrependDistinct<T>(list: seq<T>, x: T)
    requires Distinct(list) && x !in list
    ensures Distinct([x] + list)
  {
  }

  lemma AppendLists<T(!new)>(list: seq<T>, xs: set<T>, x: T)
    requires Lists(list, xs) && x !in xs
    ensures Lists(list + [x], xs + {x})
    ensures Lists([x] + list, xs + {x})
  {
    assert forall y :: y in list + [x] <==> y in list || y == x;
    assert forall y :: y in [x] + list <==> y in list || y == x;
  }

  lemma AddConnFrame(s: State, c: Ref, r: Ref, u: Ref, k: Ref, e: Ref)
    requires c in s.clients && u in s.subs && r in s.servers && k !in s.conns
    ensures var s' := AddConn(s, c, r, u, k, e);
            && s'.clients.Keys == s.clients.Keys && s'.servers.Keys == s.servers.Keys && s'.subs.Keys == s.subs.Keys
            && s'.conns.Keys == s.conns.Keys + {k}
            && SameHolders(HoldersOf(s), HoldersOf(s'))
            && (forall x <- s.clients :: s'.clients[x].task == s.clients[x].task)
            && (forall x <- s.servers :: s'.servers[x].task == s.servers[x].task &&
                 s'.servers[x].name == s.servers[x].name)
  {
  }

  lemma AddConnInv(s: State, c: Ref, r: Ref, u: Ref, k: Ref, e: Ref)
    requires Inv(s) && k !in s.conns && k != NULL && e !in s.entries && e != NULL
    requires c in s.clients && s.clients[c].conn == NULL
    requires u in s.subs && s.subs[u].conn == NULL
    requires r in s.servers
    ensures Inv(AddConn(s, c, r, u, k, e))
  {
    hide Linked, Listed, Owned, Pooled, Identified, Lists, SameHolders;
    AddConnFrame(s, c, r, u, k, e);
    AddConnLinked(s.conns, s.clients, s.subs, k, Conn(c, r, u, false));
    AddConnListed(s.conns, s.servers, s.entries, k, Conn(c, r, u, false), e);
    var s' := AddConn(s, c, r, u, k, e);
    OwnedFrame(s.tasks, s.clients, s.servers, s'.clients, s'.servers);
    IdentifiedFrame(s.ids, HoldersOf(s), HoldersOf(s'));
    AppendLists(s.connList, s.conns.Keys, k);
  }

  lemma SetMappedInv(s: State, k: Ref)
    requires Inv(s) && k in s.conns
    ensures Inv(SetMapped(s, k))
  {
    hide Linked, Listed, Owned, Pooled, Identified, Lists, Separate, Named;
    assert SetMapped(s, k).conns.Keys == s.conns.Keys;
    MappedLinked(s.conns, s.clients, s.subs, k);
    MappedListed(s.conns, s.servers, s.entries, k);
  }

  lemma MappedLinked(conns: map<Ref, Conn>, clients: map<Ref, Client>, subs: map<Ref, Sub>, k: Ref)
    requires Linked(conns, clients, subs) && k in conns
    ensures Linked(conns[k := conns[k].(mapped := true)], clients, subs)
  {
  }

  lemma MappedListed(conns: map<Ref, Conn>, servers: map<Ref, Server>, entries: map<Ref, Ref>, k: Ref)
    requires Listed(conns, servers, entries) && k in conns
    ensures Listed(conns[k := conns[k].(mapped := true)], servers, entries)
  {
    hide Distinct, HasEntry;
  }

  // ---------- taking and returning identifiers ----------

  ghost predicate Gains(h: Holders, h': Holders, o: Owner) {
    && !h.Live(o)
    && (forall x :: h'.Live(x) <==> h.Live(x) || x == o)
    && (forall x | h.Live(x) :: h'.IdOf(x) == h.IdOf(x))
    && h'.Count() == h.Count() + 1
  }

  lemma IdentifiedAdd(ids: set<int>, h: Holders, h': Holders, o: Owner)
    requires Identified(ids, h) && |ids| < ID_BUDGET
    requires Gains(h, h', o) && h'.IdOf(o) == GenerateId(ids)
    ensures Identified(Taken(ids), h')
    ensures ValidId(GenerateId(ids)) && |Taken(ids)| == |ids| + 1
  {
    TakenSize(ids);
    hide Taken, GenerateId, Holders.Live, Holders.IdOf, Holders.Count, Holders.Holds;
    HoldsGrows(h, h', o);
  }

  lemma HoldsGrows(h: Holders, h': Holders, o: Owner)
    requires Gains(h, h', o)
    ensures h'.Holds(h'.IdOf(o))
    ensures forall i | h.Holds(i) :: h'.Holds(i)
  {
    hide Holders.Live, Holders.IdOf, Holders.Count;
    forall i | h.Holds(i) ensures h'.Holds(i) {
      var x :| h.Live(x) && h.IdOf(x) == i;
      assert h'.Live(x);
    }
  }

  lemma TakenSize(ids: set<int>)
    requires |ids| < ID_BUDGET
    ensures 0 <= GenerateId(ids) < ID_BUDGET && GenerateId(ids) !in ids
    ensures Taken(ids) == ids + {GenerateId(ids)} && |Taken(ids)| == |ids| + 1
  {
    GenerateDense(ids);
  }

  lemma IdentifiedRemove(ids: set<int>, h: Holders, h': Holders, o: Owner)
    requires Identified(ids, h) && Gains(h', h, o)
    ensures Identified(Freed(ids, h.IdOf(o)), h')
    ensures Freed(ids, h.IdOf(o)) == ids - {h.IdOf(o)}
  {
    var id := h.IdOf(o);
    assert id in ids;
    forall i <- ids - {id} ensures h'.Holds(i) {
      assert h.Holds(i);
      var x :| h.Live(x) && h.IdOf(x) == i;
      assert h'.Live(x);
    }
  }

  // ---------- pools ----------

  lemma AddSubIds(s: State, u: Ref)
    requires Identified(s.ids, HoldersOf(s)) && |s.ids| < ID_BUDGET && u !in s.subs
    ensures Identified(AddSub(s, u).ids, HoldersOf(AddSub(s, u)))
    ensures |AddSub(s, u).ids| == |s.ids| + 1
  {
    hide Identified, Taken, GenerateId;
    IdentifiedAdd(s.ids, HoldersOf(s), HoldersOf(AddSub(s, u)), OfSub(u));
  }

  lemma AddSubLinked(s: State, u: Ref)
    requires Linked(s.conns, s.clients, s.subs) && u !in s.subs && u != NULL
    ensures Linked(s.conns, s.clients, AddSub(s, u).subs)
  {
  }

  /** Sub-memories and pools touch nothing else. */
  ghost predicate OnlyPools(s: State, s': State) {
    s' == s.(subs := s'.subs, pools := s'.pools, poolList := s'.poolList, ids := s'.ids)
  }

  lemma {:induction false} AddSubsKeeps(s: State, us: seq<Ref>)
    requires Identified(s.ids, HoldersOf(s)) && |s.ids| + |us| <= ID_BUDGET
    requires Linked(s.conns, s.clients, s.subs)
    requires Distinct(us) && forall u <- us :: u !in s.subs && u != NULL
    ensures var s' := AddSubs(s, us);
            && Linked(s'.conns, s'.clients, s'.subs)
            && Identified(s'.ids, HoldersOf(s'))
            && |s'.ids| == |s.ids| + |us|
    decreases |us|
  {
    hide Linked, Identified, Taken, GenerateId;
    if us != [] {
      AddSubIds(s, us[0]);
      AddSubLinked(s, us[0]);
      var rest := us[1..];
      assert us == [us[0]] + rest;
      AddSubsKeeps(AddSub(s, us[0]), rest);
    }
  }

  lemma {:induction false} AddSubsEffect(s: State, us: seq<Ref>)
    requires Distinct(us) && forall u <- us :: u !in s.subs
    ensures var s' := AddSubs(s, us);
            && OnlyPools(s, s') && s'.pools == s.pools && s'.poolList == s.poolList
            && (forall u :: u in s'.subs <==> u in s.subs || u in us)
            && (forall u <- us :: s'.subs[u].conn == NULL)
            && (forall u <- s.subs :: s'.subs[u] == s.subs[u])
    decreases |us|
  {
    if us != [] {
      hide Taken, GenerateId;
      assert us == [us[0]] + us[1..];
      AddSubsEffect(AddSub(s, us[0]), us[1..]);
    }
  }

  lemma AddPoolPooled(pools: map<Ref, Pool>, subs: set<Ref>, p: Ref, pool: Pool, subs': set<Ref>)
    requires Pooled(pools, subs) && |pools| < MAX_POOLS && p !in pools && p != NULL
    requires |pool.subs| == SHM_POOL_SIZE && Distinct(pool.subs)
    requires forall u <- pool.subs :: u !in subs
    requires forall u :: u in subs' <==> u in subs || u in pool.subs
    ensures Pooled(pools[p := pool], subs')
  {
    hide Distinct;
    AddPoolSize(subs, pool.subs, subs');
    hide Lists;
    assert |pools[p := pool]| == |pools| + 1;
    forall u <- subs' ensures InPool(pools[p := pool], u) {
      AddPoolIn(pools, p, pool, u);
    }
  }

  lemma AddPoolIn(pools: map<Ref, Pool>, p: Ref, pool: Pool, u: Ref)
    requires p !in pools && (u in pool.subs || InPool(pools, u))
    ensures InPool(pools[p := pool], u)
  {
    var pools' := pools[p := pool];
    if u in pool.subs {
      assert p in pools' && u in pools'[p].subs;
    } else {
      var q :| q in pools && u in pools[q].subs;
      assert q in pools' && u in pools'[q].subs;
    }
  }

  lemma AddPoolSize(subs: set<Ref>, us: seq<Ref>, subs': set<Ref>)
    requires Distinct(us) && forall u <- us :: u !in subs
    requires forall u :: u in subs' <==> u in subs || u in us
    ensures |subs'| == |subs| + |us|
  {
    ListsSize(us, subs' - subs);
    assert subs' == subs + (subs' - subs);
  }

  lemma AddPoolIds(s: State, p: Ref, us: seq<Ref>)
    requires Identified(s.ids, HoldersOf(s)) && |s.ids| + |us| < ID_BUDGET
    requires Linked(s.conns, s.clients, s.subs)
    requires Distinct(us) && forall u <- us :: u !in s.subs && u != NULL
    requires p !in s.pools
    ensures var s' := AddPool(s, p, us);
            && Linked(s'.conns, s'.clients, s'.subs)
            && Identified(s'.ids, HoldersOf(s'))
  {
    hide Linked, Identified, Taken, GenerateId, Distinct, AddSubs;
    AddSubsKeeps(s, us);
    AddSubsEffect(s, us);
    var s1 := AddSubs(s, us);
    IdentifiedAdd(s1.ids, HoldersOf(s1), HoldersOf(AddPool(s, p, us)), OfPool(p));
  }

  lemma AddPoolInv(s: State, p: Ref, us: seq<Ref>)
    requires Inv(s) && |s.pools| < MAX_POOLS
    requires p !in s.pools && p != NULL
    requires |us| == SHM_POOL_SIZE && Distinct(us) && forall u <- us :: u !in s.subs && u != NULL
    ensures Inv(AddPool(s, p, us))
    ensures OnlyPools(s, AddPool(s, p, us))
    ensures |AddPool(s, p, us).pools| == |s.pools| + 1
  {
    hide Linked, Listed, Owned, Pooled, Identified, Lists, Separate, Named, Taken, GenerateId, AddSubs, Distinct;
    AddSubsEffect(s, us);
    PoolRoom(s);
    AddPoolIds(s, p, us);
    var s' := AddPool(s, p, us);
    AddPoolPooled(s.pools, s.subs.Keys, p, s'.pools[p], s'.subs.Keys);
    AppendLists(s.poolList, s.pools.Keys, p);
    assert s'.pools.Keys == s.pools.Keys + {p};
  }

  /** A pool and its sub-memories find room in the identifier space. */
  lemma PoolRoom(s: State)
    requires Inv(s) && |s.pools| < MAX_POOLS
    ensures |s.ids| + SHM_POOL_SIZE < ID_BUDGET
  {
    hide Linked, Listed, Owned, Pooled, Identified, Lists, Separate, Named;
    IdBudget(s);
    TaskCount(s);
    ServerBudget(s.tasks, s.clients, s.servers);
    ClientBudget(s.tasks, s.clients, s.servers);
  }

  // ---------- clients ----------

  lemma AddClientOwned(tasks: map<Ref, Task>, clients: map<Ref, Client>, servers: map<Ref, Server>, t: Ref, c: Ref,
                       client: Client, task: Task)
    requires Owned(tasks, clients, servers) && t in tasks && c !in clients && client.task == t
    requires !tasks[t].monitor && tasks[t].numClients < MAX_CLIENTS_PER_PID
    requires task == tasks[t].(clients := [c] + tasks[t].clients, numClients := tasks[t].numClients + 1)
    ensures Owned(tasks[t := task], clients[c := client], servers)
  {
    assert TaskOk(t, tasks[t], clients, servers);
    PrependDistinct(tasks[t].clients, c);
    assert forall x :: x in task.clients <==> x == c || x in tasks[t].clients;
    hide Distinct;
    forall t' <- tasks
      ensures TaskOk(t', tasks[t := task][t'], clients[c := client], servers)
    {
      assert TaskOk(t', tasks[t'], clients, servers);
    }
  }

  lemma AddClientEffect(s: State, t: Ref, c: Ref)
    requires t in s.tasks && c !in s.clients
    ensures var s' := AddClient(s, t, c);
            && s'.clients.Keys == s.clients.Keys + {c} && SameProcesses(s.tasks, s'.tasks)
            && Gains(HoldersOf(s), HoldersOf(s'), OfClient(c))
  {
    hide Taken, GenerateId, Gains;
    GainsClient(HoldersOf(s), c, AddClient(s, t, c).clients[c]);
  }

  lemma GainsClient(h: Holders, c: Ref, client: Client)
    requires c !in h.clients
    ensures Gains(h, h.(clients := h.clients[c := client]), OfClient(c))
  {
  }

  lemma AddClientInv(s: State, t: Ref, c: Ref)
    requires Inv(s) && t in s.tasks && c !in s.clients && c != NULL
    requires !s.tasks[t].monitor && s.tasks[t].numClients < MAX_CLIENTS_PER_PID
    ensures Inv(AddClient(s, t, c))
  {
    hide Linked, Listed, Owned, Pooled, Identified, Lists, Separate, Named, Taken, GenerateId, Gains;
    var s' := AddClient(s, t, c);
    AddClientEffect(s, t, c);
    AddClientLinked(s.conns, s.clients, s.subs, c, s'.clients[c]);
    IdRoom(s, t);
    AddClientOwned(s.tasks, s.clients, s.servers, t, c, s'.clients[c], s'.tasks[t]);
    SeparateFrame(s.tasks, s'.tasks);
    IdentifiedAdd(s.ids, HoldersOf(s), HoldersOf(s'), OfClient(c));
    AppendLists(s.clientList, s.clients.Keys, c);
  }

  lemma AddClientLinked(conns: map<Ref, Conn>, clients: map<Ref, Client>, subs: map<Ref, Sub>, c: Ref, client: Client)
    requires Linked(conns, clients, subs) && c !in clients && c != NULL && client.conn == NULL
    ensures Linked(conns, clients[c := client], subs)
  {
  }

  ghost predicate SameProcesses(tasks: map<Ref, Task>, tasks': map<Ref, Task>) {
    && tasks'.Keys == tasks.Keys
    && forall t <- tasks :: tasks'[t].process == tasks[t].process && tasks'[t].monitor == tasks[t].monitor
  }

  lemma SeparateFrame(tasks: map<Ref, Task>, tasks': map<Ref, Task>)
    requires Separate(tasks) && SameProcesses(tasks, tasks')
    ensures Separate(tasks')
  {
  }

  /** A task that may register one more server or client leaves room for one more identifier. */
  lemma IdRoom(s: State, t: Ref)
    requires Inv(s) && t in s.tasks
    requires s.tasks[t].numClients < MAX_CLIENTS_PER_PID || s.tasks[t].numServers < MAX_SERVERS_PER_PID
    ensures |s.ids| < ID_BUDGET
  {
    hide Linked, Listed, Owned, Pooled, Identified, Lists, Separate, Named;
    IdBudget(s);
    PoolSizes(s.pools, s.subs.Keys);
    TaskCount(s);
    ServerBudget(s.tasks, s.clients, s.servers);
    ClientBudget(s.tasks, s.clients, s.servers);
  }

  lemma RemoveClientOwned(tasks: map<Ref, Task>, clients: map<Ref, Client>, servers: map<Ref, Server>, c: Ref,
                          task: Task)
    requires Owned(tasks, clients, servers) && c in clients
    requires var t := clients[c].task;
             task == tasks[t].(clients := Remove(tasks[t].clients, c), numClients := tasks[t].numClients - 1)
    ensures Owned(tasks[clients[c].task := task], clients - {c}, servers)
  {
    hide TaskOk, Remove;
    forall t <- tasks
      ensures TaskOk(t, tasks[clients[c].task := task][t], clients - {c}, servers)
    {
      TaskLosesClient(t, tasks[t], clients, servers, c);
    }
  }

  lemma TaskLosesClient(t: Ref, task: Task, clients: map<Ref, Client>, servers: map<Ref, Server>, c: Ref)
    requires TaskOk(t, task, clients, servers) && c in clients
    ensures TaskOk(t,
                   if clients[c].task == t
                   then task.(clients := Remove(task.clients, c), numClients := task.numClients - 1)
                   else task,
                   clients - {c}, servers)
  {
    hide Distinct, Remove;
    if clients[c].task == t {
      RemoveKeeps(task.clients, c);
      RemoveShrinks(task.clients, c);
    }
  }

  lemma RemoveShrinks<T>(list: seq<T>, x: T)
    requires Distinct(list) && x in list
    ensures |Remove(list, x)| == |list| - 1
  {
    var i :| 0 <= i < |list| && list[i] == x;
    RemoveAt(list, i);
  }

  lemma RemoveClientLinked(conns: map<Ref, Conn>, clients: map<Ref, Client>, subs: map<Ref, Sub>, c: Ref)
    requires Linked(conns, clients, subs) && c in clients && clients[c].conn == NULL
    ensures Linked(conns, clients - {c}, subs)
  {
  }

  lemma RemoveClientEffect(s: State, c: Ref)
    requires c in s.clients && s.clients[c].task in s.tasks
    ensures var s' := RemoveClient(s, c);
            && s'.clients.Keys == s.clients.Keys - {c} && SameProcesses(s.tasks, s'.tasks)
            && Gains(HoldersOf(s'), HoldersOf(s), OfClient(c))
  {
    RemoveCount(s.clients, c);
  }

  lemma RemoveClientInv(s: State, c: Ref)
    requires Inv(s) && c in s.clients && s.clients[c].conn == NULL
    ensures s.clients[c].task in s.tasks
    ensures Inv(RemoveClient(s, c))
    ensures RemoveClient(s, c).ids == s.ids - {s.clients[c].id}
  {
    hide Linked, Listed, Owned, Pooled, Identified, Lists, Separate, Named, Freed, Gains;
    OwnersLive(s.tasks, s.clients, s.servers);
    RemoveClientLinked(s.conns, s.clients, s.subs, c);
    var s' := RemoveClient(s, c);
    RemoveClientEffect(s, c);
    RemoveClientOwned(s.tasks, s.clients, s.servers, c, s'.tasks[s.clients[c].task]);
    SeparateFrame(s.tasks, s'.tasks);
    IdentifiedRemove(s.ids, HoldersOf(s), HoldersOf(s'), OfClient(c));
    RemoveLists(s.clientList, s.clients.Keys, c);
  }

  lemma RemoveCount<T>(m: map<Ref, T>, x: Ref)
    requires x in m
    ensures |m - {x}| == |m| - 1
  {
    assert (m - {x}).Keys == m.Keys - {x};
    assert |(m - {x}).Keys| == |m - {x}| && |m.Keys| == |m|;
  }

  // ---------- servers ----------

  lemma AddServerOwned(tasks: map<Ref, Task>, clients: map<Ref, Client>, servers: map<Ref, Server>, t: Ref, r: Ref,
                       server: Server, task: Task)
    requires Owned(tasks, clients, servers) && t in tasks && r !in servers && server.task == t
    requires !tasks[t].monitor && tasks[t].numServers < MAX_SERVERS_PER_PID
    requires task == tasks[t].(servers := [r] + tasks[t].servers, numServers := tasks[t].numServers + 1)
    ensures Owned(tasks[t := task], clients, servers[r := server])
  {
    assert TaskOk(t, tasks[t], clients, servers);
    PrependDistinct(tasks[t].servers, r);
    assert forall x :: x in task.servers <==> x == r || x in tasks[t].servers;
    hide Distinct;
    forall t' <- tasks
      ensures TaskOk(t', tasks[t := task][t'], clients, servers[r := server])
    {
      assert TaskOk(t', tasks[t'], clients, servers);
    }
  }

  lemma AddServerListed(conns: map<Ref, Conn>, servers: map<Ref, Server>, entries: map<Ref, Ref>, r: Ref,
                        server: Server)
    requires Listed(conns, servers, entries) && r !in servers && r != NULL && server.entries == []
    ensures Listed(conns, servers[r := server], entries)
  {
    hide HasEntry;
  }

  lemma AddServerNamed(servers: map<Ref, Server>, r: Ref, server: Server)
    requires Named(servers) && r !in servers
    requires forall x <- servers :: servers[x].name != server.name
    ensures Named(servers[r := server])
  {
  }

  lemma AddServerEffect(s: State, t: Ref, r: Ref, name: string)
    requires t in s.tasks && r !in s.servers
    ensures var s' := AddServer(s, t, r, name);
            && s'.servers.Keys == s.servers.Keys + {r} && SameProcesses(s.tasks, s'.tasks)
            && Gains(HoldersOf(s), HoldersOf(s'), OfServer(r))
  {
    hide Taken, GenerateId, Gains;
    GainsServer(HoldersOf(s), r, AddServer(s, t, r, name).servers[r]);
  }

  lemma GainsServer(h: Holders, r: Ref, server: Server)
    requires r !in h.servers
    ensures Gains(h, h.(servers := h.servers[r := server]), OfServer(r))
  {
  }

  lemma AddServerInv(s: State, t: Ref, r: Ref, name: string)
    requires Inv(s) && t in s.tasks && r !in s.servers && r != NULL
    requires !s.tasks[t].monitor && s.tasks[t].numServers < MAX_SERVERS_PER_PID
    requires forall x <- s.servers :: s.servers[x].name != name
    ensures Inv(AddServer(s, t, r, name))
  {
    hide Linked, Listed, Owned, Pooled, Identified, Lists, Separate, Named, Taken, GenerateId, Gains;
    var s' := AddServer(s, t, r, name);
    AddServerEffect(s, t, r, name);
    AddServerListed(s.conns, s.servers, s.entries, r, s'.servers[r]);
    AddServerNamed(s.servers, r, s'.servers[r]);
    IdRoom(s, t);
    AddServerOwned(s.tasks, s.clients, s.servers, t, r, s'.servers[r], s'.tasks[t]);
    SeparateFrame(s.tasks, s'.tasks);
    IdentifiedAdd(s.ids, HoldersOf(s), HoldersOf(s'), OfServer(r));
    AppendLists(s.serverList, s.servers.Keys, r);
  }

  lemma RemoveServerOwned(tasks: map<Ref, Task>, clients: map<Ref, Client>, servers: map<Ref, Server>, r: Ref,
                          task: Task)
    requires Owned(tasks, clients, servers) && r in servers
    requires var t := servers[r].task;
             task == tasks[t].(servers := Remove(tasks[t].servers, r), numServers := tasks[t].numServers - 1)
    ensures Owned(tasks[servers[r].task := task], clients, servers - {r})
  {
    hide TaskOk, Remove;
    forall t <- tasks
      ensures TaskOk(t, tasks[servers[r].task := task][t], clients, servers - {r})
    {
      TaskLosesServer(t, tasks[t], clients, servers, r);
    }
  }

  lemma TaskLosesServer(t: Ref, task: Task, clients: map<Ref, Client>, servers: map<Ref, Server>, r: Ref)
    requires TaskOk(t, task, clients, servers) && r in servers
    ensures TaskOk(t,
                   if servers[r].task == t
                   then task.(servers := Remove(task.servers, r), numServers := task.numServers - 1)
                   else task,
                   clients, servers - {r})
  {
    hide Distinct, Remove;
    if servers[r].task == t {
      RemoveKeeps(task.servers, r);
      RemoveShrinks(task.servers, r);
    }
  }

  lemma RemoveServerListed(conns: map<Ref, Conn>, servers: map<Ref, Server>, entries: map<Ref, Ref>, r: Ref)
    requires Listed(conns, servers, entries) && r in servers && servers[r].entries == []
    ensures Listed(conns, servers - {r}, entries)
  {
    forall k <- conns
      ensures conns[k].server != r
    {
      var e :| e in entries && entries[e] == k;
      assert e in servers[conns[k].server].entries;
    }
    hide Distinct, HasEntry;
  }

  lemma RemoveServerEffect(s: State, r: Ref)
    requires r in s.servers && s.servers[r].task in s.tasks
    ensures var s' := RemoveServer(s, r);
            && s'.servers.Keys == s.servers.Keys - {r} && SameProcesses(s.tasks, s'.tasks)
            && Gains(HoldersOf(s'), HoldersOf(s), OfServer(r))
            && (Named(s.servers) ==> Named(s'.servers))
  {
    RemoveCount(s.servers, r);
  }

  lemma RemoveServerInv(s: State, r: Ref)
    requires Inv(s) && r in s.servers && s.servers[r].entries == []
    ensures s.servers[r].task in s.tasks
    ensures Inv(RemoveServer(s, r))
    ensures RemoveServer(s, r).ids == s.ids - {s.servers[r].id}
  {
    hide Linked, Listed, Owned, Pooled, Identified, Lists, Separate, Named, Freed, Gains;
    OwnersLive(s.tasks, s.clients, s.servers);
    RemoveServerListed(s.conns, s.servers, s.entries, r);
    var s' := RemoveServer(s, r);
    RemoveServerEffect(s, r);
    RemoveServerOwned(s.tasks, s.clients, s.servers, r, s'.tasks[s.servers[r].task]);
    SeparateFrame(s.tasks, s'.tasks);
    IdentifiedRemove(s.ids, HoldersOf(s), HoldersOf(s'), OfServer(r));
    RemoveLists(s.serverList, s.servers.Keys, r);
  }

  // ---------- tasks ----------

  lemma AddTaskInv(s: State, t: Ref, process: nat)
    requires Inv(s) && t !in s.tasks && t != NULL && |s.taskList| < MAX_PROCESSES
    requires forall x <- s.tasks :: s.tasks[x].process != process
    ensures Inv(AddTask(s, t, process))
  {
    hide Linked, Listed, Owned, Pooled, Identified, Lists, Separate, Named;
    var s' := AddTask(s, t, process);
    AddTaskOwned(s.tasks, s.clients, s.servers, t, s'.tasks[t]);
    AddTaskSeparate(s.tasks, t, s'.tasks[t]);
    AppendLists(s.taskList, s.tasks.Keys, t);
    assert s'.tasks.Keys == s.tasks.Keys + {t};
  }

  lemma AddTaskOwned(tasks: map<Ref, Task>, clients: map<Ref, Client>, servers: map<Ref, Server>, t: Ref, task: Task)
    requires Owned(tasks, clients, servers) && t !in tasks && t != NULL
    requires task == Task(task.process, false, [], 0, [], 0, [], 0)
    ensures Owned(tasks[t := task], clients, servers)
  {
    assert TaskOk(t, task, clients, servers);
    hide TaskOk;
  }

  lemma AddTaskSeparate(tasks: map<Ref, Task>, t: Ref, task: Task)
    requires Separate(tasks) && t !in tasks && !task.monitor
    requires forall x <- tasks :: tasks[x].process != task.process
    ensures Separate(tasks[t := task])
  {
  }

  lemma RemoveTaskInv(s: State, t: Ref)
    requires Inv(s) && t in s.tasks && s.tasks[t].servers == [] && s.tasks[t].clients == []
    ensures Inv(RemoveTask(s, t))
  {
    hide Linked, Listed, Owned, Pooled, Identified, Lists, Separate, Named;
    var s' := RemoveTask(s, t);
    RemoveTaskOwned(s.tasks, s.clients, s.servers, t);
    RemoveLists(s.taskList, s.tasks.Keys, t);
    RemoveKeeps(s.taskList, t);
    assert s'.tasks.Keys == s.tasks.Keys - {t};
  }

  lemma RemoveTaskOwned(tasks: map<Ref, Task>, clients: map<Ref, Client>, servers: map<Ref, Server>, t: Ref)
    requires Owned(tasks, clients, servers) && t in tasks && tasks[t].servers == [] && tasks[t].clients == []
    ensures Owned(tasks - {t}, clients, servers)
    ensures Separate(tasks) ==> Separate(tasks - {t})
  {
    assert TaskOk(t, tasks[t], clients, servers);
    hide Distinct;
    forall r <- servers ensures servers[r].task != t {
      assert r !in tasks[t].servers;
    }
    forall c <- clients ensures clients[c].task != t {
      assert c !in tasks[t].clients;
    }
    hide TaskOk;
  }

  lemma SetMonitorInv(s: State, t: Ref)
    requires Inv(s) && t in s.tasks && s.tasks[t].numServers == 0 && s.tasks[t].numClients == 0
    requires forall x <- s.tasks :: !s.tasks[x].monitor
    ensures Inv(s.(tasks := s.tasks[t := s.tasks[t].(monitor := true)]))
  {
    hide Linked, Listed, Owned, Pooled, Identified, Lists, Named;
    var s' := s.(tasks := s.tasks[t := s.tasks[t].(monitor := true)]);
    SetMonitorOwned(s.tasks, s.clients, s.servers, t);
    assert s'.tasks.Keys == s.tasks.Keys;
  }

  lemma SetMonitorOwned(tasks: map<Ref, Task>, clients: map<Ref, Client>, servers: map<Ref, Server>, t: Ref)
    requires Owned(tasks, clients, servers) && t in tasks && tasks[t].numServers == 0 && tasks[t].numClients == 0
    ensures Owned(tasks[t := tasks[t].(monitor := true)], clients, servers)
  {
    hide Distinct;
    forall t' <- tasks
      ensures TaskOk(t', tasks[t := tasks[t].(monitor := true)][t'], clients, servers)
    {
      assert TaskOk(t', tasks[t'], clients, servers);
    }
  }
}
