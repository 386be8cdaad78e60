/** When the step-by-step removal of a connection amounts to Unlink, whichever of its links was cut before. */
module DriverLinks {
  import opened Seqs
  import opened DriverModel
  import opened DriverInvariant
  import opened DriverFacts
  import opened DriverCommands
  import opened DriverTeardown
  import opened DriverClose
  import IdSpace
  import DriverBudget
  import DriverPreservation
  import DriverSteps

  // ---------- finding and removing a list entry ----------

  /** server_find_conn: the first entry of a list that stands for connection k. */
  function FindEntry(list: seq<Ref>, entries: map<Ref, Ref>, k: Ref): (e: Ref)
    ensures e != NULL ==> e in list && e in entries && entries[e] == k
    ensures e == NULL && NULL !in entries ==> forall x <- list :: x in entries ==> entries[x] != k
  {
    if list == [] then NULL
    else if list[0] in entries && entries[list[0]] == k then list[0]
    else FindEntry(list[1..], entries, k)
  }

  ghost predicate OneEntry(list: seq<Ref>, entries: map<Ref, Ref>, k: Ref) {
    && Distinct(list) && NULL !in entries
    && forall e, e' | e in entries && e' in entries && entries[e] == k && entries[e'] == k :: e == e'
  }

  lemma {:induction false} WithoutNone(list: seq<Ref>, entries: map<Ref, Ref>, k: Ref)
    requires forall e <- list :: e in entries ==> entries[e] != k
    ensures WithoutConn(list, entries, k) == list
  {
    if list != [] {
      assert list == [list[0]] + list[1..];
      WithoutNone(list[1..], entries, k);
    }
  }

  lemma {:induction false} WithoutOne(list: seq<Ref>, entries: map<Ref, Ref>, k: Ref, e: Ref)
    requires OneEntry(list, entries, k) && e in entries && entries[e] == k
    ensures WithoutConn(list, entries, k) == Remove(list, e)
  {
    if list != [] {
      assert list == [list[0]] + list[1..];
      WithoutOne(list[1..], entries, k, e);
    }
  }

  // ---------- the effect on each map ----------

  lemma CutClients(clients: map<Ref, Client>, k: Ref, c: Ref)
    requires forall x <- clients :: clients[x].conn == k ==> x == c
    ensures ClientsWithout(clients, k) ==
              if c in clients && clients[c].conn == k then clients[c := clients[c].(conn := NULL)] else clients
  {
  }

  lemma CutSubs(subs: map<Ref, Sub>, k: Ref, u: Ref)
    requires forall x <- subs :: subs[x].conn == k ==> x == u
    ensures SubsWithout(subs, k) == if u in subs && subs[u].conn == k then subs[u := subs[u].(conn := NULL)] else subs
  {
  }

  lemma CutServers(servers: map<Ref, Server>, entries: map<Ref, Ref>, k: Ref, r: Ref)
    requires forall x, e | x in servers && e in servers[x].entries :: e in entries && (entries[e] == k ==> x == r)
    requires r in servers ==> OneEntry(servers[r].entries, entries, k)
    ensures ServersWithout(servers, entries, k) ==
              if r in servers && FindEntry(servers[r].entries, entries, k) != NULL
              then servers[r := servers[r].(entries := Remove(servers[r].entries,
                  FindEntry(servers[r].entries, entries, k)))]
              else servers
  {
    hide OneEntry, Remove, WithoutConn, FindEntry;
    forall x <- servers ensures x != r ==> WithoutConn(servers[x].entries, entries, k) == servers[x].entries {
      if x != r {
        WithoutNone(servers[x].entries, entries, k);
      }
    }
    if r in servers {
      CutList(servers[r].entries, entries, k);
    }
  }

  lemma CutList(list: seq<Ref>, entries: map<Ref, Ref>, k: Ref)
    requires OneEntry(list, entries, k)
    ensures WithoutConn(list, entries, k) ==
              if FindEntry(list, entries, k) != NULL then Remove(list, FindEntry(list, entries, k)) else list
  {
    var e := FindEntry(list, entries, k);
    hide FindEntry;
    if e != NULL {
      WithoutOne(list, entries, k, e);
    } else {
      WithoutNone(list, entries, k);
    }
  }

  lemma CutEntries(servers: map<Ref, Server>, entries: map<Ref, Ref>, k: Ref, r: Ref)
    requires NULL !in entries
    requires forall e <- entries :: entries[e] == k ==> r in servers && e in servers[r].entries
    requires forall e, e' | e in entries && e' in entries && entries[e] == k && entries[e'] == k :: e == e'
    ensures EntriesWithout(entries, k) ==
              if r in servers && FindEntry(servers[r].entries, entries, k) != NULL
              then entries - {FindEntry(servers[r].entries, entries, k)} else entries
  {
    hide FindEntry;
  }

  // ---------- all links of a connection ----------

  /** All pointers to connection k come from the objects k itself points to; some may have been cut. */
  ghost predicate OnlyLinks(s: State, k: Ref) {
    && Sendable(s, k)
    && NULL !in s.clients && NULL !in s.subs && NULL !in s.servers
    && (forall c <- s.clients :: s.clients[c].conn == k ==> c == s.conns[k].client)
    && (forall u <- s.subs :: s.subs[u].conn == k ==> u == s.conns[k].mem)
    && OnlyEntry(s.servers, s.entries, k, s.conns[k].server)
  }

  ghost predicate OnlyEntry(servers: map<Ref, Server>, entries: map<Ref, Ref>, k: Ref, r: Ref) {
    && NULL !in entries
    && (forall x <- servers :: Distinct(servers[x].entries))
    && (forall x, e | x in servers && e in servers[x].entries :: e in entries && (entries[e] == k ==> x == r))
    && (forall e <- entries :: entries[e] == k ==> r in servers && e in servers[r].entries)
    && (forall e, e' | e in entries && e' in entries && entries[e] == k && entries[e'] == k :: e == e')
  }

  lemma InvOnlyLinks(s: State, k: Ref)
    requires Inv(s) && k in s.conns
    ensures OnlyLinks(s, k)
  {
    hide Linked, Listed, Owned, Pooled, Identified, Separate, Named, Enumerated, Distinct;
    ConnIntact(s, k);
    LinkedOnly(s.conns, s.clients, s.subs, k);
    ListedOnly(s.conns, s.servers, s.entries, k);
  }

  lemma LinkedOnly(conns: map<Ref, Conn>, clients: map<Ref, Client>, subs: map<Ref, Sub>, k: Ref)
    requires Linked(conns, clients, subs) && k in conns
    ensures NULL !in clients && NULL !in subs
    ensures forall c <- clients :: clients[c].conn == k ==> c == conns[k].client
    ensures forall u <- subs :: subs[u].conn == k ==> u == conns[k].mem
  {
  }

  lemma ListedOnly(conns: map<Ref, Conn>, servers: map<Ref, Server>, entries: map<Ref, Ref>, k: Ref)
    requires Listed(conns, servers, entries) && k in conns
    ensures OnlyEntry(servers, entries, k, conns[k].server) && NULL !in servers
  {
    hide Distinct, HasEntry;
  }

  // ---------- cutting a link first makes no difference ----------

  function ClientCut(s: State, c: Ref): State
    requires c in s.clients
  {
    s.(clients := s.clients[c := s.clients[c].(conn := NULL)])
  }

  function EntryCut(s: State, r: Ref, e: Ref): State
    requires r in s.servers
  {
    s.(servers := s.servers[r := s.servers[r].(entries := Remove(s.servers[r].entries, e))], entries := s.entries - {e})
  }

  lemma ClientCutLinks(s: State, k: Ref)
    requires OnlyLinks(s, k) && s.conns[k].client in s.clients
    ensures OnlyLinks(ClientCut(s, s.conns[k].client), k)
  {
    hide OnlyEntry;
  }

  lemma ClientCutUnlink(s: State, k: Ref)
    requires OnlyLinks(s, k) && s.conns[k].client in s.clients && s.clients[s.conns[k].client].conn == k
    ensures Sendable(ClientCut(s, s.conns[k].client), k)
    ensures Unlink(ClientCut(s, s.conns[k].client), k) == Unlink(s, k)
  {
    hide OnlyEntry, DropConn;
    var c := s.conns[k].client;
    var s1 := ClientCut(s, c);
    SendClientCut(s, SERVER, k, c);
    var told := Send(s, SERVER, REMOTE_DISCONNECT, k).0;
    SendKeeps(s, SERVER, k);
    SendClientCut(told, CLIENT, k, c);
    SendKeeps(told, CLIENT, k);
    DropClientCut(Send(told, CLIENT, REMOTE_DISCONNECT, k).0, k, c);
  }

  lemma SendKeeps(s: State, who: Sender, k: Ref)
    requires Sendable(s, k)
    ensures var s' := Send(s, who, REMOTE_DISCONNECT, k).0;
            s' == s.(tasks := s'.tasks) && s'.tasks.Keys == s.tasks.Keys && Sendable(s', k)
  {
  }

  lemma SendClientCut(s: State, who: Sender, k: Ref, c: Ref)
    requires Sendable(s, k) && c in s.clients
    ensures Sendable(ClientCut(s, c), k)
    ensures Send(ClientCut(s, c), who, REMOTE_DISCONNECT, k).0 == ClientCut(Send(s, who, REMOTE_DISCONNECT, k).0, c)
  {
  }

  lemma DropClientCut(s: State, k: Ref, c: Ref)
    requires c in s.clients && (forall x <- s.clients :: s.clients[x].conn == k ==> x == c) && s.clients[c].conn == k
    ensures DropConn(ClientCut(s, c), k) == DropConn(s, k)
  {
    CutClients(s.clients, k, c);
    CutClients(ClientCut(s, c).clients, k, c);
  }

  lemma EntryCutLinks(s: State, k: Ref, e: Ref)
    requires OnlyLinks(s, k) && e in s.entries && s.entries[e] == k
    ensures s.conns[k].server in s.servers
    ensures OnlyLinks(EntryCut(s, s.conns[k].server, e), k)
  {
    hide Remove, Distinct;
    RemoveKeeps(s.servers[s.conns[k].server].entries, e);
  }

  lemma EntryCutUnlink(s: State, k: Ref, e: Ref)
    requires OnlyLinks(s, k) && e in s.entries && s.entries[e] == k
    ensures s.conns[k].server in s.servers && Sendable(EntryCut(s, s.conns[k].server, e), k)
    ensures Unlink(EntryCut(s, s.conns[k].server, e), k) == Unlink(s, k)
  {
    hide OnlyEntry, DropConn, Remove;
    EntryCutLinks(s, k, e);
    var r := s.conns[k].server;
    SendEntryCut(s, SERVER, k, r, e);
    var told := Send(s, SERVER, REMOTE_DISCONNECT, k).0;
    SendKeeps(s, SERVER, k);
    SendEntryCut(told, CLIENT, k, r, e);
    SendKeeps(told, CLIENT, k);
    DropEntryCut(Send(told, CLIENT, REMOTE_DISCONNECT, k).0, k, r, e);
  }

  lemma SendEntryCut(s: State, who: Sender, k: Ref, r: Ref, e: Ref)
    requires Sendable(s, k) && r in s.servers
    ensures Sendable(EntryCut(s, r, e), k)
    ensures Send(EntryCut(s, r, e), who, REMOTE_DISCONNECT, k).0 == EntryCut(Send(s, who, REMOTE_DISCONNECT, k).0, r, e)
  {
    hide Remove, Push;
    forall t, n | t in s.tasks
      ensures r in Push(s, t, n).servers && Push(EntryCut(s, r, e), t, n) == EntryCut(Push(s, t, n), r, e)
    {
      PushEntryCut(s, r, e, t, n);
    }
  }

  lemma PushEntryCut(s: State, r: Ref, e: Ref, t: Ref, n: Notif)
    requires r in s.servers && t in s.tasks
    ensures Push(s, t, n).servers == s.servers && Push(EntryCut(s, r, e), t, n) == EntryCut(Push(s, t, n), r, e)
  {
    hide Remove;
  }

  lemma DropEntryCut(s: State, k: Ref, r: Ref, e: Ref)
    requires OnlyEntry(s.servers, s.entries, k, r) && r in s.servers && e in s.entries && s.entries[e] == k
    ensures DropConn(EntryCut(s, r, e), k) == DropConn(s, k)
  {
    DropEntry(s.servers, s.entries, k, r, e);
    hide OnlyEntry, ServersWithout, EntriesWithout, Remove;
  }

  lemma DropEntry(servers: map<Ref, Server>, entries: map<Ref, Ref>, k: Ref, r: Ref, e: Ref)
    requires OnlyEntry(servers, entries, k, r) && r in servers && e in entries && entries[e] == k
    ensures var servers', entries' := servers[r := servers[r].(entries := Remove(servers[r].entries, e))],
            entries - {e};
            && ServersWithout(servers', entries', k) == ServersWithout(servers, entries, k)
            && EntriesWithout(entries', k) == EntriesWithout(entries, k)
  {
    hide Remove, WithoutConn, Distinct;
    var servers', entries' := servers[r := servers[r].(entries := Remove(servers[r].entries, e))], entries - {e};
    RemoveKeeps(servers[r].entries, e);
    forall x <- servers
      ensures WithoutConn(servers'[x].entries, entries', k) == WithoutConn(servers[x].entries, entries, k)
    {
      WithoutNone(servers'[x].entries, entries', k);
      if x == r {
        WithoutOne(servers[r].entries, entries, k, e);
      } else {
        WithoutNone(servers[x].entries, entries, k);
      }
    }
  }

  // ---------- walking a server's list while it shrinks ----------

  /** The entry after e on a circular list whose head is written NULL. An entry that has left the list has
      no successor to follow. */
  function Next(list: seq<Ref>, e: Ref): (n: Ref)
    requires e == NULL || e in list
    ensures n == NULL || n in list
  {
    if list == [] then NULL
    else if e == NULL then list[0]
    else if list[0] == e then (if |list| > 1 then list[1] else NULL)
    else Next(list[1..], e)
  }

  /** Deleting the first connection of a server takes exactly the first entry off its list, and off no other. */
  lemma UnlinkFirst(s: State, r: Ref)
    requires Inv(s) && r in s.servers && s.servers[r].entries != []
    ensures var es := s.servers[r].entries;
            && es[0] in s.entries && s.entries[es[0]] in s.conns && s.conns[s.entries[es[0]]].server == r
            && Sendable(s, s.entries[es[0]])
            && var s' := Unlink(s, s.entries[es[0]]);
               && Inv(s') && r in s'.servers
               && s'.servers == s.servers[r := s.servers[r].(entries := es[1..])]
               && s'.entries == s.entries - {es[0]}
  {
    hide Linked, Listed, Owned, Pooled, Identified, Separate, Named, Enumerated, Unlink, OnlyEntry, ServersWithout,
         EntriesWithout, Intact, Distinct;
    FirstEntry(s.conns, s.servers, s.entries, r);
    var k := s.entries[s.servers[r].entries[0]];
    UnlinkInv(s, k);
    UnlinkServers(s, k);
    ListedOnly(s.conns, s.servers, s.entries, k);
    CutFirst(s.servers, s.entries, k, r);
  }

  lemma UnlinkServers(s: State, k: Ref)
    requires Inv(s) && k in s.conns
    ensures Sendable(s, k)
    ensures Unlink(s, k).servers == ServersWithout(s.servers, s.entries, k)
    ensures Unlink(s, k).entries == EntriesWithout(s.entries, k)
  {
    hide Inv, ServersWithout, EntriesWithout, ClientsWithout, SubsWithout, Intact;
    UnlinkShape(s, k);
  }

  lemma CutFirst(servers: map<Ref, Server>, entries: map<Ref, Ref>, k: Ref, r: Ref)
    requires OnlyEntry(servers, entries, k, r) && r in servers && servers[r].entries != []
    requires servers[r].entries[0] in entries && entries[servers[r].entries[0]] == k
    ensures ServersWithout(servers, entries, k) == servers[r := servers[r].(entries := servers[r].entries[1..])]
    ensures EntriesWithout(entries, k) == entries - {servers[r].entries[0]}
  {
    hide ServersWithout, EntriesWithout, Remove;
    var es := servers[r].entries;
    CutServers(servers, entries, k, r);
    CutEntries(servers, entries, k, r);
    RemoveAt(es, 0);
    assert FindEntry(es, entries, k) == es[0];
    assert es[..0] + es[0 + 1..] == es[1..];
  }

  lemma FirstEntry(conns: map<Ref, Conn>, servers: map<Ref, Server>, entries: map<Ref, Ref>, r: Ref)
    requires Listed(conns, servers, entries) && r in servers && servers[r].entries != []
    ensures var e := servers[r].entries[0]; e in entries && entries[e] in conns && conns[entries[e]].server == r
    ensures Distinct(servers[r].entries)
  {
    assert servers[r].entries[0] in servers[r].entries;
  }

  lemma {:induction false} BehindSame(entries: map<Ref, Ref>, es: seq<Ref>, e: Ref)
    requires e !in es
    ensures ConnsBehind(entries - {e}, es) == ConnsBehind(entries, es)
  {
    if es != [] {
      assert es == [es[0]] + es[1..];
      BehindSame(entries, es[1..], e);
    }
  }

  lemma CleanServerFirst(s: State, r: Ref)
    requires Inv(s) && r in s.servers && s.servers[r].entries != []
    ensures var e := s.servers[r].entries[0];
            && e in s.entries && Sendable(s, s.entries[e])
            && r in Unlink(s, s.entries[e]).servers
            && CleanServer(Unlink(s, s.entries[e]), r) == CleanServer(s, r)
  {
    hide Inv, Unlink, Sendable;
    UnlinkFirst(s, r);
    var es := s.servers[r].entries;
    ServerConns(s, r);
    EntriesDistinct(s, r);
    BehindSame(s.entries, es[1..], es[0]);
  }

  lemma EntriesDistinct(s: State, r: Ref)
    requires Inv(s) && r in s.servers
    ensures Distinct(s.servers[r].entries) && NULL !in s.servers[r].entries
    ensures s.servers[r].entries != [] ==> s.servers[r].entries[0] !in s.servers[r].entries[1..]
  {
    hide Linked, Owned, Pooled, Identified, Separate, Named, Enumerated, HasEntry;
  }

  lemma NothingToClean(s: State, r: Ref)
    requires r in s.servers && s.servers[r].entries == []
    ensures CleanServer(s, r) == s
  {
  }


  // ---------- the two ways a caller begins ----------

  lemma ClientCutFirst(s: State, c: Ref)
    requires Inv(s) && c in s.clients && s.clients[c].conn != NULL
    ensures OnlyLinks(ClientCut(s, c), s.clients[c].conn)
    ensures Unlink(ClientCut(s, c), s.clients[c].conn) == CleanClient(s, c)
  {
    hide Inv, Unlink, OnlyLinks, Intact;
    var k := s.clients[c].conn;
    ConnOfClient(s, c);
    InvOnlyLinks(s, k);
    ConnIntact(s, k);
    ClientCutLinks(s, k);
    ClientCutUnlink(s, k);
    assert UnlinkAll(s, [k]) == Unlink(s, k);
  }

  lemma CleanClientInv(s: State, c: Ref)
    requires Inv(s) && c in s.clients
    ensures Inv(CleanClient(s, c))
  {
    hide Inv, Trimmed, OnlyDisconnects;
    CleanClientTornDown(s, c);
  }

  lemma EntryCutFirst(s: State, e: Ref)
    requires Inv(s) && e in s.entries && s.entries[e] in s.conns
    ensures var k := s.entries[e];
            && k != NULL && s.conns[k].server in s.servers && Sendable(s, k) && Inv(Unlink(s, k))
            && OnlyLinks(EntryCut(s, s.conns[k].server, e), k)
            && Unlink(EntryCut(s, s.conns[k].server, e), k) == Unlink(s, k)
  {
    hide Inv, Unlink, OnlyLinks;
    var k := s.entries[e];
    ConnIntact(s, k);
    InvOnlyLinks(s, k);
    EntryCutLinks(s, k, e);
    EntryCutUnlink(s, k, e);
    UnlinkInv(s, k);
  }

  // ---------- pools ----------

  lemma PoolsLive(s: State)
    requires Inv(s)
    ensures forall p <- s.poolList :: p in s.pools && forall u <- s.pools[p].subs :: u in s.subs
  {
    hide Linked, Listed, Owned, Identified, Separate, Named, Distinct;
  }

  lemma NewPoolLive(s: State, p: Ref, us: seq<Ref>)
    requires Distinct(us) && forall u <- us :: u !in s.subs
    ensures var s1 := AddPool(s, p, us);
            p in s1.pools && s1.pools[p].subs == us && s1.poolList == [p] + s.poolList && forall u <- us :: u in s1.subs
  {
    hide AddSubs, IdSpace.GenerateId, Taken, Distinct;
    DriverPreservation.AddSubsEffect(s, us);
  }

  lemma RoomToConnect(s: State, c: Ref, r: Ref, p: Ref, us: seq<Ref>)
    requires Inv(s) && c in s.clients && s.clients[c].conn == NULL && r in s.servers
    requires p !in s.pools && p != NULL
    requires |us| == SHM_POOL_SIZE && Distinct(us) && forall u <- us :: u != NULL && u !in s.subs
    ensures var s1 := WithRoom(s, p, us);
            && c in s1.clients && s1.clients[c].conn == NULL && r in s1.servers
            && FreeSub(s1, s1.poolList) in s1.subs && FreeSub(s1, s1.poolList) != NULL
  {
    hide Inv, WithRoom, FreeSub, Distinct;
    DriverSteps.WithRoomInv(s, c, p, us);
  }

  // ---------- the global lists ----------

  lemma ListsLive(s: State)
    requires Inv(s)
    ensures forall x <- s.taskList :: x in s.tasks
    ensures forall x <- s.tasks :: x in s.taskList
    ensures |s.taskList| == |s.tasks|
    ensures forall x <- s.clientList :: x in s.clients
    ensures forall x <- s.serverList :: x in s.servers
    ensures NULL !in s.tasks && NULL !in s.clients && NULL !in s.servers && NULL !in s.entries
  {
    hide Pooled, Identified, Separate, Named, Distinct, HasEntry, TaskOk;
    TaskListSize(s);
  }

  lemma TaskListSize(s: State)
    requires Enumerated(s)
    ensures |s.taskList| == |s.tasks|
  {
    ListsSize(s.taskList, s.tasks.Keys);
    assert |s.tasks.Keys| == |s.tasks|;
  }

  lemma EntriesLive(s: State, r: Ref)
    requires Inv(s) && r in s.servers
    ensures forall e <- s.servers[r].entries :: EntryLive(s, e) && e != NULL
  {
    hide Linked, Owned, Pooled, Identified, Separate, Named, Enumerated, Listed;
    ListedLive(s.conns, s.servers, s.entries, r);
    forall e <- s.servers[r].entries ensures EntryLive(s, e) {
      ConnEnds(s.conns, s.clients, s.subs, s.entries[e]);
    }
  }

  lemma ListedLive(conns: map<Ref, Conn>, servers: map<Ref, Server>, entries: map<Ref, Ref>, r: Ref)
    requires Listed(conns, servers, entries) && r in servers
    ensures forall e <- servers[r].entries :: e in entries && e != NULL
    ensures forall e <- servers[r].entries :: entries[e] in conns && conns[entries[e]].server == r
  {
    hide Distinct, HasEntry;
  }

  // ---------- walking the lists of a task ----------

  lemma CleanServerTask(s: State, r: Ref, t: Ref)
    requires Inv(s) && r in s.servers && t in s.tasks
    ensures var s' := CleanServer(s, r);
            && Inv(s') && t in s'.tasks && s'.tasks[t].servers == s.tasks[t].servers
            && s'.tasks[t].clients == s.tasks[t].clients
            && s'.servers.Keys == s.servers.Keys && s'.clients.Keys == s.clients.Keys
  {
    hide Inv, Trimmed, CleanServer;
    CleanServerTornDown(s, r);
    TrimmedKeys(s, CleanServer(s, r));
  }

  lemma CleanClientTask(s: State, c: Ref, t: Ref)
    requires Inv(s) && c in s.clients && t in s.tasks
    ensures var s' := CleanClient(s, c);
            && Inv(s') && t in s'.tasks && s'.tasks[t].servers == s.tasks[t].servers
            && s'.tasks[t].clients == s.tasks[t].clients
            && s'.servers.Keys == s.servers.Keys && s'.clients.Keys == s.clients.Keys
  {
    hide Inv, Trimmed, CleanClient;
    CleanClientTornDown(s, c);
    TrimmedKeys(s, CleanClient(s, c));
  }

  lemma TaskServersLive(s: State, t: Ref)
    requires Inv(s) && t in s.tasks
    ensures forall r <- s.tasks[t].servers :: r in s.servers && s.servers[r].task == t && r != NULL
    ensures forall c <- s.tasks[t].clients :: c in s.clients && s.clients[c].task == t && c != NULL
  {
    hide Inv, Distinct;
    TaskMembers(s, t);
    ListsLive(s);
  }

  /** Destroying the first server of a task takes it off the task's list and leaves the rest to destroy. */
  lemma DestroyFirstServer(s: State, t: Ref)
    requires Inv(s) && t in s.tasks && s.tasks[t].servers != []
    requires forall k <- s.conns :: s.conns[k].server !in s.tasks[t].servers
    ensures var rs := s.tasks[t].servers;
            && rs[0] in s.servers && s.servers[rs[0]].task == t
            && var s' := RemoveServer(s, rs[0]);
               && Inv(s') && t in s'.tasks && s'.tasks[t].servers == rs[1..]
               && s'.tasks[t].clients == s.tasks[t].clients
               && s'.conns == s.conns && DestroyServers(s', rs[1..]) == DestroyServers(s, rs)
  {
    hide Inv, Distinct;
    var rs := s.tasks[t].servers;
    TaskServersLive(s, t);
    TaskMembers(s, t);
    assert rs[0] in rs;
    NoConnsNoEntries(s, rs[0]);
    DriverPreservation.RemoveServerInv(s, rs[0]);
    RemoveFirst(rs);
  }

  lemma RemoveFirst(list: seq<Ref>)
    requires Distinct(list) && list != []
    ensures Remove(list, list[0]) == list[1..]
  {
    RemoveAt(list, 0);
    assert list[..0] + list[0 + 1..] == list[1..];
  }

  lemma DestroyFirstClient(s: State, t: Ref)
    requires Inv(s) && t in s.tasks && s.tasks[t].clients != []
    requires forall k <- s.conns :: s.conns[k].client !in s.tasks[t].clients
    ensures var cs := s.tasks[t].clients;
            && cs[0] in s.clients && s.clients[cs[0]].task == t
            && var s' := RemoveClient(s, cs[0]);
               && Inv(s') && t in s'.tasks && s'.tasks[t].clients == cs[1..]
               && s'.conns == s.conns && DestroyClients(s', cs[1..]) == DestroyClients(s, cs)
  {
    hide Inv, Distinct;
    var cs := s.tasks[t].clients;
    TaskServersLive(s, t);
    TaskMembers(s, t);
    assert cs[0] in cs;
    NoConnsNoPointer(s, cs[0]);
    DriverPreservation.RemoveClientInv(s, cs[0]);
    RemoveFirst(cs);
  }

  /** Once a task's connections are deleted, none is left that would name one of its servers or clients. */
  lemma NoneLeft(s: State, t: Ref)
    requires Inv(s) && t in s.tasks
    ensures var s1 := Disconnected(s, t);
            && t in s1.tasks && s1.tasks[t].servers == s.tasks[t].servers && s1.tasks[t].clients == s.tasks[t].clients
            && forall k <- s1.conns :: s1.conns[k].server !in s.tasks[t].servers &&
                 s1.conns[k].client !in s.tasks[t].clients
  {
    hide Inv, Trimmed, CleanServers, CleanClients, Distinct;
    DisconnectedEffect(s, t);
    TaskServersLive(s, t);
  }

  lemma NothingToDestroy(s: State)
    ensures DestroyServers(s, []) == s && DestroyClients(s, []) == s
  {
  }

  lemma CloseTaskInv(s: State, t: Ref)
    requires Inv(s) && t in s.tasks
    ensures Inv(CloseTask(s, t))
  {
    hide Inv, CloseTask, OnlyDisconnects, TrimmedSubs, TrimmedEntries, Touches, OwnIds;
    CloseTaskEffect(s, t);
  }

  lemma PendingCounts(s: State, t: Ref)
    requires Inv(s) && t in s.tasks
    ensures s.tasks[t].pending == |s.tasks[t].queue|
  {
    hide Inv, Distinct;
    TaskCounters(s, t);
  }

  // ---------- around notifications ----------

  lemma TellInv(s: State, who: Sender, k: Ref)
    requires Inv(s) && k in s.conns
    ensures k != NULL && Sendable(s, k) && s.conns[k].client != NULL && s.conns[k].server != NULL
    ensures var s1 := Send(s, who, REMOTE_DISCONNECT, k).0;
            Inv(s1) && s1 == s.(tasks := s1.tasks) &&
            Notify(s, who, REMOTE_DISCONNECT, k) == Send(s, who, REMOTE_DISCONNECT, k)
  {
    hide Inv, Push;
    SendSucceeds(s, k, REMOTE_DISCONNECT);
    SendKeeps(s, who, k);
  }

  lemma EntryConn(s: State, r: Ref, e: Ref)
    requires Inv(s) && r in s.servers && e in s.servers[r].entries
    ensures e in s.entries && s.entries[e] in s.conns && s.conns[s.entries[e]].server == r
  {
    hide Linked, Owned, Pooled, Identified, Separate, Named, Enumerated, Listed;
    ListedLive(s.conns, s.servers, s.entries, r);
  }

  lemma ClientStays(s: State, id: int)
    requires Inv(s)
    ensures var c, s1 := ClientById(s, id), ClientDisconnectStep(s, id).0;
            c != NULL && s.clients[c].conn != NULL ==> c in s1.clients && s1.clients[c].task in s1.tasks
  {
    hide Inv, UnlinkAll, Notify, Trimmed;
    var c := ClientById(s, id);
    if c != NULL && s.clients[c].conn != NULL {
      ConnOfClient(s, c);
      DisconnectTornDown(s, CLIENT, s.clients[c].conn);
      TrimmedKeys(s, ClientDisconnectStep(s, id).0);
      ClientHasTask(s, c);
    }
  }

  lemma ClientHasTask(s: State, c: Ref)
    requires Inv(s) && c in s.clients
    ensures s.clients[c].task in s.tasks
  {
    hide Linked, Listed, Pooled, Identified, Separate, Named, Enumerated;
    DriverBudget.OwnersLive(s.tasks, s.clients, s.servers);
  }

  lemma ServerHasTask(s: State, r: Ref)
    requires Inv(s) && r in s.servers
    ensures s.servers[r].task in s.tasks
  {
    hide Linked, Listed, Pooled, Identified, Separate, Named, Enumerated;
    DriverBudget.OwnersLive(s.tasks, s.clients, s.servers);
  }

  lemma UnlinkOne(s: State, k: Ref)
    requires Sendable(s, k)
    ensures UnlinkAll(s, [k]) == Unlink(s, k)
  {
    hide Unlink, Sendable;
    assert [k][1..] == [];
  }

  lemma SendLeavesConns(s: State, who: Sender, kind: Kind, k: Ref)
    requires Sendable(s, k)
    ensures var s1 := Send(s, who, kind, k).0; s1 == s.(tasks := s1.tasks)
  {
  }

  /** The sub-memory is the one of the client's connection, or the named one of a connection of the server. */
  ghost predicate MayMap(s: State, targetId: int, subId: int, mem: Ref) {
    exists k :: MapOver(s, targetId, subId, mem, k)
  }

  predicate MapOver(s: State, targetId: int, subId: int, mem: Ref, k: Ref) {
    && k in s.conns && s.conns[k].mem == mem && mem in s.subs && s.subs[mem].conn == k
    && s.conns[k].client in s.clients && s.conns[k].server in s.servers
    && (s.clients[s.conns[k].client].id == targetId
        || (s.servers[s.conns[k].server].id == targetId && s.subs[mem].id == subId))
  }

  lemma ServerNotNull(s: State)
    requires Inv(s)
    ensures forall k <- s.conns :: s.conns[k].server != NULL
  {
    hide Inv, Intact;
    forall k <- s.conns ensures s.conns[k].server != NULL {
      ServerEnd(s, k);
    }
  }

  lemma ServerEnd(s: State, k: Ref)
    requires Inv(s) && k in s.conns
    ensures s.conns[k].server != NULL
  {
    hide Inv;
    ConnIntact(s, k);
  }
}
