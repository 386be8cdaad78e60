/** Deleting connections, and everything that goes with them when a server, a client or a task goes away. */
module DriverTeardown {
  import opened Seqs
  import opened DriverModel
  import opened DriverInvariant
  import opened DriverFacts
  import DriverPreservation
  import DriverCommands

  // ---------- deleting one connection ----------

  /** On a consistent state deletion tells the client's task, then the server's task, then drops the connection. */
  lemma UnlinkShape(s: State, k: Ref)
    requires Inv(s) && k in s.conns
    ensures Intact(s, k) && Sendable(s, k)
    ensures var told := Push(s, ClientTask(s, k), ToClient(s, k, REMOTE_DISCONNECT));
            && ServerTask(s, k) in told.tasks
            && Unlink(s, k) == DropConn(Push(told, ServerTask(s, k), ToServer(s, k, REMOTE_DISCONNECT)), k)
  {
    hide Inv, DropConn;
    SendSucceeds(s, k, REMOTE_DISCONNECT);
    SendSucceeds(Push(s, ClientTask(s, k), ToClient(s, k, REMOTE_DISCONNECT)), k, REMOTE_DISCONNECT);
  }

  lemma UnlinkInv(s: State, k: Ref)
    requires Inv(s) && k in s.conns
    ensures Sendable(s, k) && Inv(Unlink(s, k))
    ensures Unlink(s, k).conns == s.conns - {k}
  {
    hide Inv;
    SendSucceeds(s, k, REMOTE_DISCONNECT);
    var told := Push(s, ClientTask(s, k), ToClient(s, k, REMOTE_DISCONNECT));
    SendSucceeds(told, k, REMOTE_DISCONNECT);
    DriverPreservation.DropConnInv(Send(told, CLIENT, REMOTE_DISCONNECT, k).0, k);
  }

  /** k if the connection is still there, else NULL: the value of a pointer once connections are gone. */
  function Kept(conns: map<Ref, Conn>, k: Ref): Ref {
    if k in conns then k else NULL
  }

  ghost predicate TrimmedClients(clients: map<Ref, Client>, clients': map<Ref, Client>, conns': map<Ref, Conn>) {
    && clients'.Keys == clients.Keys
    && forall c <- clients :: clients'[c] == clients[c].(conn := Kept(conns', clients[c].conn))
  }

  ghost predicate TrimmedSubs(subs: map<Ref, Sub>, subs': map<Ref, Sub>, conns': map<Ref, Conn>) {
    subs'.Keys == subs.Keys && forall u <- subs :: subs'[u] == subs[u].(conn := Kept(conns', subs[u].conn))
  }

  ghost predicate TrimmedEntries(entries: map<Ref, Ref>, entries': map<Ref, Ref>, conns': map<Ref, Conn>) {
    && (forall e :: e in entries' <==> e in entries && entries[e] in conns')
    && (forall e <- entries' :: entries'[e] == entries[e])
  }

  ghost predicate TrimmedServers(servers: map<Ref, Server>, servers': map<Ref, Server>, entries': map<Ref, Ref>) {
    && servers'.Keys == servers.Keys
    && (forall r <- servers :: servers'[r] == servers[r].(entries := servers'[r].entries))
    && (forall r, e | r in servers :: e in servers'[r].entries <==> e in servers[r].entries && e in entries')
  }

  /** The two states differ in some connections being gone, together with all pointers to them. */
  ghost predicate Trimmed(s: State, s': State) {
    && s'.conns.Keys <= s.conns.Keys && (forall k <- s'.conns :: s'.conns[k] == s.conns[k])
    && TrimmedClients(s.clients, s'.clients, s'.conns)
    && TrimmedSubs(s.subs, s'.subs, s'.conns)
    && TrimmedEntries(s.entries, s'.entries, s'.conns)
    && TrimmedServers(s.servers, s'.servers, s'.entries)
    && s'.pools == s.pools && s'.ids == s.ids && s'.poolList == s.poolList
    && s'.taskList == s.taskList && s'.clientList == s.clientList && s'.serverList == s.serverList
  }

  /** Tasks differ only by disconnect notifications at the end of their queues. */
  ghost predicate OnlyDisconnects(tasks: map<Ref, Task>, tasks': map<Ref, Task>) {
    && tasks'.Keys == tasks.Keys
    && (forall t <- tasks :: tasks'[t] == tasks[t].(queue := tasks'[t].queue, pending := tasks'[t].pending))
    && (forall t <- tasks :: tasks[t].queue <= tasks'[t].queue)
    && (forall t, i | t in tasks && |tasks[t].queue| <= i < |tasks'[t].queue| ::
         tasks'[t].queue[i].kind == REMOTE_DISCONNECT)
  }

  lemma PushDisconnect(tasks: map<Ref, Task>, tasks': map<Ref, Task>, t: Ref, n: Notif)
    requires OnlyDisconnects(tasks, tasks') && t in tasks && n.kind == REMOTE_DISCONNECT
    ensures OnlyDisconnects(tasks, tasks'[t := tasks'[t].(queue := tasks'[t].queue + [n],
            pending := tasks'[t].pending + 1)])
  {
  }

  lemma OnlyDisconnectsTrans(a: map<Ref, Task>, b: map<Ref, Task>, c: map<Ref, Task>)
    requires OnlyDisconnects(a, b) && OnlyDisconnects(b, c)
    ensures OnlyDisconnects(a, c)
  {
    forall t, i | t in a && |a[t].queue| <= i < |c[t].queue|
      ensures c[t].queue[i].kind == REMOTE_DISCONNECT
    {
      if i < |b[t].queue| {
        assert c[t].queue[i] == b[t].queue[i];
      }
    }
  }

  lemma TrimmedTrans(a: State, b: State, c: State)
    requires Trimmed(a, b) && Trimmed(b, c)
    ensures Trimmed(a, c)
  {
  }

  lemma DropConnTrimmed(s: State, k: Ref)
    requires Inv(s) && k in s.conns
    ensures Trimmed(s, DropConn(s, k))
  {
    hide Owned, Pooled, Identified, Separate, Named, Enumerated;
    DropTrimsEnds(s.conns, s.clients, s.subs, k);
    DropTrimsLists(s.conns, s.servers, s.entries, k);
    hide Linked, Listed, TrimmedClients, TrimmedSubs, TrimmedEntries, TrimmedServers;
  }

  lemma DropTrimsEnds(conns: map<Ref, Conn>, clients: map<Ref, Client>, subs: map<Ref, Sub>, k: Ref)
    requires Linked(conns, clients, subs) && k in conns
    ensures TrimmedClients(clients, ClientsWithout(clients, k), conns - {k})
    ensures TrimmedSubs(subs, SubsWithout(subs, k), conns - {k})
  {
  }

  lemma DropTrimsLists(conns: map<Ref, Conn>, servers: map<Ref, Server>, entries: map<Ref, Ref>, k: Ref)
    requires Listed(conns, servers, entries) && k in conns
    ensures TrimmedEntries(entries, EntriesWithout(entries, k), conns - {k})
    ensures TrimmedServers(servers, ServersWithout(servers, entries, k), EntriesWithout(entries, k))
  {
    hide Distinct, HasEntry, ServersWithout, TrimmedServers;
    DropTrimsServers(servers, entries, k);
  }

  lemma DropTrimsServers(servers: map<Ref, Server>, entries: map<Ref, Ref>, k: Ref)
    requires forall r <- servers :: Distinct(servers[r].entries)
    requires forall r, e | r in servers && e in servers[r].entries :: e in entries
    ensures TrimmedServers(servers, ServersWithout(servers, entries, k), EntriesWithout(entries, k))
  {
    hide Distinct;
    DriverPreservation.ServersWithoutKeeps(servers, entries, k);
  }

  lemma UnlinkTrimmed(s: State, k: Ref)
    requires Inv(s) && k in s.conns
    ensures Sendable(s, k) && Trimmed(s, Unlink(s, k)) && OnlyDisconnects(s.tasks, Unlink(s, k).tasks)
  {
    hide Inv, Trimmed, OnlyDisconnects, DropConn;
    UnlinkShape(s, k);
    var nc, ns := ToClient(s, k, REMOTE_DISCONNECT), ToServer(s, k, REMOTE_DISCONNECT);
    var told := Push(s, ClientTask(s, k), nc);
    var told2 := Push(told, ServerTask(s, k), ns);
    DriverPreservation.PushInv(s, ClientTask(s, k), nc);
    DriverPreservation.PushInv(told, ServerTask(s, k), ns);
    DropConnTrimmed(told2, k);
    TrimmedFrame(s, told2, DropConn(told2, k));
    NoDisconnects(s.tasks);
    PushDisconnect(s.tasks, s.tasks, ClientTask(s, k), nc);
    PushDisconnect(s.tasks, told.tasks, ServerTask(s, k), ns);
    DropConnTasks(told2, k);
  }

  lemma NoDisconnects(tasks: map<Ref, Task>)
    ensures OnlyDisconnects(tasks, tasks)
  {
  }

  lemma DropConnTasks(s: State, k: Ref)
    ensures DropConn(s, k).tasks == s.tasks
  {
  }

  lemma TrimmedFrame(s: State, b: State, c: State)
    requires Trimmed(b, c) && b == s.(tasks := b.tasks)
    ensures Trimmed(s, c)
  {
    hide TrimmedClients, TrimmedSubs, TrimmedEntries, TrimmedServers;
  }

  // ---------- deleting several connections ----------

  /** s' is consistent and is s without some connections; tasks were told, nothing else happened. */
  ghost predicate TornDown(s: State, s': State) {
    Inv(s') && Trimmed(s, s') && OnlyDisconnects(s.tasks, s'.tasks)
  }

  lemma TornDownTrans(a: State, b: State, c: State)
    requires TornDown(a, b) && TornDown(b, c)
    ensures TornDown(a, c)
  {
    hide Inv, Trimmed, OnlyDisconnects;
    TrimmedTrans(a, b, c);
    OnlyDisconnectsTrans(a.tasks, b.tasks, c.tasks);
  }

  lemma TornDownRefl(s: State)
    requires Inv(s)
    ensures TornDown(s, s)
  {
    hide Owned, Pooled, Identified, Separate, Named, Enumerated;
    NoDisconnects(s.tasks);
    TrimsNothing(s.conns, s.clients, s.subs);
    ListsNothing(s.conns, s.servers, s.entries);
    hide Linked, Listed, TrimmedClients, TrimmedSubs, TrimmedEntries, TrimmedServers, OnlyDisconnects;
  }

  lemma TrimsNothing(conns: map<Ref, Conn>, clients: map<Ref, Client>, subs: map<Ref, Sub>)
    requires Linked(conns, clients, subs)
    ensures TrimmedClients(clients, clients, conns) && TrimmedSubs(subs, subs, conns)
  {
  }

  lemma ListsNothing(conns: map<Ref, Conn>, servers: map<Ref, Server>, entries: map<Ref, Ref>)
    requires Listed(conns, servers, entries)
    ensures TrimmedEntries(entries, entries, conns) && TrimmedServers(servers, servers, entries)
  {
    hide Distinct, HasEntry;
  }

  lemma {:induction false} UnlinkAllTornDown(s: State, ks: seq<Ref>)
    requires Inv(s) && Distinct(ks) && forall k <- ks :: k in s.conns
    ensures TornDown(s, UnlinkAll(s, ks))
    ensures UnlinkAll(s, ks).conns == s.conns - (set k | k in ks)
    decreases |ks|
  {
    hide Inv, Unlink, Distinct, Trimmed, OnlyDisconnects;
    if ks == [] {
      TornDownRefl(s);
    } else {
      UnlinkInv(s, ks[0]);
      UnlinkTrimmed(s, ks[0]);
      DistinctTail(ks);
      UnlinkAllTornDown(Unlink(s, ks[0]), ks[1..]);
      TornDownTrans(s, Unlink(s, ks[0]), UnlinkAll(s, ks));
    }
  }

  lemma ServerConns(s: State, r: Ref)
    requires Inv(s) && r in s.servers
    ensures forall e <- s.servers[r].entries :: e in s.entries
    ensures var ks := ConnsBehind(s.entries, s.servers[r].entries);
            Distinct(ks) && forall k :: k in ks <==> k in s.conns && s.conns[k].server == r
  {
    hide Linked, Owned, Pooled, Identified, Separate, Named, Enumerated;
    ListedConns(s.conns, s.servers, s.entries, r);
  }

  lemma ListedConns(conns: map<Ref, Conn>, servers: map<Ref, Server>, entries: map<Ref, Ref>, r: Ref)
    requires Listed(conns, servers, entries) && r in servers
    ensures forall e <- servers[r].entries :: e in entries
    ensures var ks := ConnsBehind(entries, servers[r].entries);
            Distinct(ks) && forall k :: k in ks <==> k in conns && conns[k].server == r
  {
    var es := servers[r].entries;
    var ks := ConnsBehind(entries, es);
    forall k | k in ks ensures k in conns && conns[k].server == r {
      var i :| 0 <= i < |ks| && ks[i] == k;
      assert es[i] in es;
    }
    forall k | k in conns && conns[k].server == r ensures k in ks {
      var e :| e in entries && entries[e] == k;
      assert e in es;
      var i :| 0 <= i < |es| && es[i] == e;
      assert ks[i] == k;
    }
    forall i, j | 0 <= i < j < |ks| ensures ks[i] != ks[j] {
      assert es[i] in es && es[j] in es;
    }
  }

  lemma CleanServerTornDown(s: State, r: Ref)
    requires Inv(s) && r in s.servers
    ensures TornDown(s, CleanServer(s, r))
    ensures CleanServer(s, r).conns == s.conns - (set k | k in s.conns && s.conns[k].server == r)
  {
    hide Inv, UnlinkAll, Distinct, ConnsBehind, TornDown;
    ServerConns(s, r);
    var ks := ConnsBehind(s.entries, s.servers[r].entries);
    UnlinkAllTornDown(s, ks);
    assert (set k | k in ks) == (set k | k in s.conns && s.conns[k].server == r);
  }

  lemma CleanClientTornDown(s: State, c: Ref)
    requires Inv(s) && c in s.clients
    ensures TornDown(s, CleanClient(s, c))
    ensures CleanClient(s, c).conns == s.conns - (set k | k in s.conns && s.conns[k].client == c)
  {
    hide Linked, Listed, Owned, Pooled, Identified, Separate, Named, Enumerated, UnlinkAll, TornDown;
    ClientConn(s.conns, s.clients, s.subs, c);
    var k := s.clients[c].conn;
    if k != NULL {
      UnlinkAllTornDown(s, [k]);
    } else {
      TornDownRefl(s);
    }
  }

  /** Telling the other side first and then deleting the connection. */
  lemma DisconnectTornDown(s: State, who: Sender, k: Ref)
    requires Inv(s) && k in s.conns
    ensures var s' := UnlinkAll(DriverCommands.Notify(s, who, REMOTE_DISCONNECT, k).0, [k]);
            && TornDown(s, s') && s'.conns == s.conns - {k}
            && DriverCommands.Notify(s, who, REMOTE_DISCONNECT, k).1 == 0
  {
    hide Inv, UnlinkAll, Trimmed, OnlyDisconnects;
    SendSucceeds(s, k, REMOTE_DISCONNECT);
    var s1 := DriverCommands.Notify(s, who, REMOTE_DISCONNECT, k).0;
    UnlinkAllTornDown(s1, [k]);
    var s2 := UnlinkAll(s1, [k]);
    TrimmedFrame(s, s1, s2);
    NoDisconnects(s.tasks);
    if who == CLIENT {
      PushDisconnect(s.tasks, s.tasks, ServerTask(s, k), ToServer(s, k, REMOTE_DISCONNECT));
    } else {
      PushDisconnect(s.tasks, s.tasks, ClientTask(s, k), ToClient(s, k, REMOTE_DISCONNECT));
    }
    OnlyDisconnectsTrans(s.tasks, s1.tasks, s2.tasks);
  }
}
