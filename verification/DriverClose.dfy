/** Closing a task: what goes, and that everything else stays. */
module DriverClose {
  import opened Seqs
  import opened DriverModel
  import opened DriverInvariant
  import opened DriverCommands
  import opened DriverTeardown
  import DriverPreservation
  import DriverFacts

  // ---------- first the connections ----------

  lemma {:induction false} CleanServersTornDown(s: State, rs: seq<Ref>)
    requires Inv(s) && forall r <- rs :: r in s.servers
    ensures TornDown(s, CleanServers(s, rs))
    ensures CleanServers(s, rs).conns == s.conns - (set k | k in s.conns && s.conns[k].server in rs)
    decreases |rs|
  {
    hide Inv, Trimmed, OnlyDisconnects, CleanServer;
    if rs == [] {
      TornDownRefl(s);
    } else {
      var s1 := CleanServer(s, rs[0]);
      CleanServerTornDown(s, rs[0]);
      TrimmedKeys(s, s1);
      CleanServersTornDown(s1, rs[1..]);
      TornDownTrans(s, s1, CleanServers(s, rs));
      assert rs == [rs[0]] + rs[1..];
    }
  }

  lemma {:induction false} CleanClientsTornDown(s: State, cs: seq<Ref>)
    requires Inv(s) && forall c <- cs :: c in s.clients
    ensures TornDown(s, CleanClients(s, cs))
    ensures CleanClients(s, cs).conns == s.conns - (set k | k in s.conns && s.conns[k].client in cs)
    decreases |cs|
  {
    hide Inv, Trimmed, OnlyDisconnects, CleanClient;
    if cs == [] {
      TornDownRefl(s);
    } else {
      var s1 := CleanClient(s, cs[0]);
      CleanClientTornDown(s, cs[0]);
      TrimmedKeys(s, s1);
      CleanClientsTornDown(s1, cs[1..]);
      TornDownTrans(s, s1, CleanClients(s, cs));
      assert cs == [cs[0]] + cs[1..];
    }
  }

  lemma TrimmedKeys(s: State, s': State)
    requires Trimmed(s, s')
    ensures s'.clients.Keys == s.clients.Keys && s'.servers.Keys == s.servers.Keys && s'.subs.Keys == s.subs.Keys
    ensures s'.conns.Keys <= s.conns.Keys && forall k <- s'.conns :: s'.conns[k] == s.conns[k]
    ensures forall c <- s.clients :: s'.clients[c].task == s.clients[c].task && s'.clients[c].id == s.clients[c].id
    ensures forall r <- s.servers :: s'.servers[r].task == s.servers[r].task && s'.servers[r].id == s.servers[r].id
    ensures s'.ids == s.ids && s'.pools == s.pools
  {
    hide TrimmedEntries;
  }

  // ---------- then the servers and the clients ----------

  lemma NoConnsNoEntries(s: State, r: Ref)
    requires Inv(s) && r in s.servers && forall k <- s.conns :: s.conns[k].server != r
    ensures s.servers[r].entries == []
  {
    hide Owned, Pooled, Identified, Separate, Named, Enumerated, Linked;
    ListedNothing(s.conns, s.servers, s.entries, r);
  }

  lemma ListedNothing(conns: map<Ref, Conn>, servers: map<Ref, Server>, entries: map<Ref, Ref>, r: Ref)
    requires Listed(conns, servers, entries) && r in servers && forall k <- conns :: conns[k].server != r
    ensures servers[r].entries == []
  {
    hide Distinct;
    ListedConns(conns, servers, entries, r);
    ListsSize(ConnsBehind(entries, servers[r].entries), {});
  }

  lemma NoConnsNoPointer(s: State, c: Ref)
    requires Inv(s) && c in s.clients && forall k <- s.conns :: s.conns[k].client != c
    ensures s.clients[c].conn == NULL
  {
    hide Owned, Pooled, Identified, Separate, Named, Enumerated, Linked, Listed;
    DriverFacts.ClientConn(s.conns, s.clients, s.subs, c);
  }

  /** Only one task's list of servers changes. */
  ghost predicate OtherTasksSame(tasks: map<Ref, Task>, tasks': map<Ref, Task>, t: Ref) {
    && t in tasks && tasks'.Keys == tasks.Keys
    && (forall x | x in tasks && x != t :: tasks'[x] == tasks[x])
    && tasks'[t].queue == tasks[t].queue
  }

  ghost predicate ServersGone(s: State, s': State, rs: seq<Ref>, t: Ref) {
    && (forall r <- rs :: r in s.servers)
    && s'.servers == s.servers - (set r | r in rs)
    && s'.ids == s.ids - (set r | r in rs :: s.servers[r].id)
    && OtherTasksSame(s.tasks, s'.tasks, t) && s'.tasks[t].clients == s.tasks[t].clients
    && s'.conns == s.conns && s'.clients == s.clients && s'.subs == s.subs && s'.entries == s.entries
    && s'.pools == s.pools
  }

  lemma {:induction false} DestroyServersEffect(s: State, rs: seq<Ref>, t: Ref)
    requires Inv(s) && t in s.tasks && Distinct(rs)
    requires forall r <- rs :: r in s.servers && s.servers[r].task == t
    requires forall k <- s.conns :: s.conns[k].server !in rs
    ensures Inv(DestroyServers(s, rs)) && ServersGone(s, DestroyServers(s, rs), rs, t)
    decreases |rs|
  {
    hide Inv, Distinct, RemoveServer, ServersGone;
    if rs == [] {
      ServersGoneNone(s, t);
    } else {
      DistinctTail(rs);
      var r := rs[0];
      NoConnsNoEntries(s, r);
      DriverPreservation.RemoveServerInv(s, r);
      RemoveServerGone(s, r);
      var s1 := DestroyServer(s, r);
      ServersLeft(s, s1, r, rs[1..], t);
      DestroyServersEffect(s1, rs[1..], t);
      ServersGoneMore(s, s1, DestroyServers(s, rs), rs, t);
    }
  }

  lemma ServersGoneNone(s: State, t: Ref)
    requires t in s.tasks
    ensures ServersGone(s, s, [], t)
  {
  }

  lemma RemoveServerGone(s: State, r: Ref)
    requires r in s.servers && s.servers[r].task in s.tasks && RemoveServer(s, r).ids == s.ids - {s.servers[r].id}
    ensures ServersGone(s, RemoveServer(s, r), [r], s.servers[r].task)
  {
  }

  lemma ServersLeft(s: State, s1: State, r: Ref, rest: seq<Ref>, t: Ref)
    requires ServersGone(s, s1, [r], t) && r !in rest
    requires forall x <- rest :: x in s.servers && s.servers[x].task == t
    ensures forall x <- rest :: x in s1.servers && s1.servers[x] == s.servers[x]
    ensures t in s1.tasks && s1.conns == s.conns
  {
  }

  lemma ServersGoneMore(a: State, b: State, c: State, rs: seq<Ref>, t: Ref)
    requires rs != [] && rs == [rs[0]] + rs[1..] && rs[0] !in rs[1..]
    requires ServersGone(a, b, [rs[0]], t) && ServersGone(b, c, rs[1..], t)
    ensures ServersGone(a, c, rs, t)
  {
    assert forall r <- rs[1..] :: b.servers[r] == a.servers[r];
    assert (set r | r in rs :: a.servers[r].id) == {a.servers[rs[0]].id} + (set r | r in rs[1..] :: b.servers[r].id);
    assert (set r | r in rs) == {rs[0]} + (set r | r in rs[1..]);
  }

  ghost predicate ClientsGone(s: State, s': State, cs: seq<Ref>, t: Ref) {
    && (forall c <- cs :: c in s.clients)
    && s'.clients == s.clients - (set c | c in cs)
    && s'.ids == s.ids - (set c | c in cs :: s.clients[c].id)
    && OtherTasksSame(s.tasks, s'.tasks, t)
    && s'.conns == s.conns && s'.servers == s.servers && s'.subs == s.subs && s'.entries == s.entries
    && s'.pools == s.pools
  }

  lemma {:induction false} DestroyClientsEffect(s: State, cs: seq<Ref>, t: Ref)
    requires Inv(s) && t in s.tasks && Distinct(cs)
    requires forall c <- cs :: c in s.clients && s.clients[c].task == t
    requires forall k <- s.conns :: s.conns[k].client !in cs
    ensures Inv(DestroyClients(s, cs)) && ClientsGone(s, DestroyClients(s, cs), cs, t)
    decreases |cs|
  {
    hide Inv, Distinct, RemoveClient, ClientsGone;
    if cs == [] {
      ClientsGoneNone(s, t);
    } else {
      DistinctTail(cs);
      var c := cs[0];
      NoConnsNoPointer(s, c);
      DriverPreservation.RemoveClientInv(s, c);
      RemoveClientGone(s, c);
      var s1 := DestroyClient(s, c);
      ClientsLeft(s, s1, c, cs[1..], t);
      DestroyClientsEffect(s1, cs[1..], t);
      ClientsGoneMore(s, s1, DestroyClients(s, cs), cs, t);
    }
  }

  lemma ClientsGoneNone(s: State, t: Ref)
    requires t in s.tasks
    ensures ClientsGone(s, s, [], t)
  {
  }

  lemma RemoveClientGone(s: State, c: Ref)
    requires c in s.clients && s.clients[c].task in s.tasks && RemoveClient(s, c).ids == s.ids - {s.clients[c].id}
    ensures ClientsGone(s, RemoveClient(s, c), [c], s.clients[c].task)
  {
  }

  lemma ClientsLeft(s: State, s1: State, c: Ref, rest: seq<Ref>, t: Ref)
    requires ClientsGone(s, s1, [c], t) && c !in rest
    requires forall x <- rest :: x in s.clients && s.clients[x].task == t
    ensures forall x <- rest :: x in s1.clients && s1.clients[x] == s.clients[x]
    ensures t in s1.tasks && s1.conns == s.conns
  {
  }

  lemma ClientsGoneMore(a: State, b: State, c: State, cs: seq<Ref>, t: Ref)
    requires cs != [] && cs == [cs[0]] + cs[1..] && cs[0] !in cs[1..]
    requires ClientsGone(a, b, [cs[0]], t) && ClientsGone(b, c, cs[1..], t)
    ensures ClientsGone(a, c, cs, t)
  {
    assert forall x <- cs[1..] :: b.clients[x] == a.clients[x];
    assert (set x | x in cs :: a.clients[x].id) == {a.clients[cs[0]].id} + (set x | x in cs[1..] :: b.clients[x].id);
    assert (set x | x in cs) == {cs[0]} + (set x | x in cs[1..]);
  }

  // ---------- the whole task ----------

  /** Connection k has a side that belongs to task t. */
  predicate Touches(s: State, t: Ref, k: Ref) {
    && k in s.conns
    && ((s.conns[k].client in s.clients && s.clients[s.conns[k].client].task == t) ||
        (s.conns[k].server in s.servers && s.servers[s.conns[k].server].task == t))
  }

  /** The state before servers, clients and the task itself are destroyed. */
  function Disconnected(s: State, t: Ref): State
    requires t in s.tasks
  {
    CleanClients(CleanServers(s, s.tasks[t].servers), s.tasks[t].clients)
  }

  lemma TaskMembers(s: State, t: Ref)
    requires Inv(s) && t in s.tasks
    ensures Distinct(s.tasks[t].servers) && Distinct(s.tasks[t].clients)
    ensures forall r :: r in s.tasks[t].servers <==> r in s.servers && s.servers[r].task == t
    ensures forall c :: c in s.tasks[t].clients <==> c in s.clients && s.clients[c].task == t
  {
    DriverFacts.TaskCounters(s, t);
    hide Inv, Distinct;
  }

  lemma ConnSides(s: State)
    requires Inv(s)
    ensures forall k <- s.conns :: s.conns[k].client in s.clients && s.conns[k].server in s.servers
  {
    hide Owned, Pooled, Identified, Separate, Named, Enumerated, Distinct, HasEntry;
  }

  lemma DisconnectedEffect(s: State, t: Ref)
    requires Inv(s) && t in s.tasks
    ensures TornDown(s, Disconnected(s, t))
    ensures Disconnected(s, t).conns == map k | k in s.conns && !Touches(s, t, k) :: s.conns[k]
  {
    hide Inv, Trimmed, OnlyDisconnects, CleanServers, CleanClients, Distinct;
    var rs, cs := s.tasks[t].servers, s.tasks[t].clients;
    TaskMembers(s, t);
    ConnSides(s);
    CleanServersTornDown(s, rs);
    var s1 := CleanServers(s, rs);
    TrimmedKeys(s, s1);
    CleanClientsTornDown(s1, cs);
    TornDownTrans(s, s1, CleanClients(s1, cs));
  }

  /** The servers and then the clients of a task without connections are destroyed. */
  lemma DestroyMembers(s: State, t: Ref)
    requires Inv(s) && t in s.tasks && forall k <- s.conns :: !Touches(s, t, k)
    ensures var s' := DestroyClients(DestroyServers(s, s.tasks[t].servers), s.tasks[t].clients);
            && Inv(s') && OtherTasksSame(s.tasks, s'.tasks, t)
            && s'.servers == (map r | r in s.servers && s.servers[r].task != t :: s.servers[r])
            && s'.clients == (map c | c in s.clients && s.clients[c].task != t :: s.clients[c])
            && s'.ids == s.ids - OwnIds(s, t)
            && s'.conns == s.conns && s'.subs == s.subs && s'.entries == s.entries && s'.pools == s.pools
  {
    hide Inv, Distinct, DestroyServers, DestroyClients, OwnIds;
    var rs, cs := s.tasks[t].servers, s.tasks[t].clients;
    TaskMembers(s, t);
    ConnSides(s);
    DestroyServersEffect(s, rs, t);
    DestroyClientsEffect(DestroyServers(s, rs), cs, t);
    OthersLeft(s.servers, s.clients, t, rs, cs);
    OwnIdsSplit(s, t, rs, cs);
  }

  lemma OthersLeft(servers: map<Ref, Server>, clients: map<Ref, Client>, t: Ref, rs: seq<Ref>, cs: seq<Ref>)
    requires forall r :: r in rs <==> r in servers && servers[r].task == t
    requires forall c :: c in cs <==> c in clients && clients[c].task == t
    ensures servers - (set r | r in rs) == map r | r in servers && servers[r].task != t :: servers[r]
    ensures clients - (set c | c in cs) == map c | c in clients && clients[c].task != t :: clients[c]
  {
  }

  lemma DestroyEffect(s: State, t: Ref)
    requires Inv(s) && t in s.tasks && forall k <- s.conns :: !Touches(s, t, k)
    ensures var s' := RemoveTask(DestroyClients(DestroyServers(s, s.tasks[t].servers), s.tasks[t].clients), t);
            && Inv(s')
            && s'.tasks == s.tasks - {t}
            && s'.servers == (map r | r in s.servers && s.servers[r].task != t :: s.servers[r])
            && s'.clients == (map c | c in s.clients && s.clients[c].task != t :: s.clients[c])
            && s'.ids == s.ids - OwnIds(s, t)
            && s'.conns == s.conns && s'.subs == s.subs && s'.entries == s.entries && s'.pools == s.pools
  {
    hide Inv, Distinct, DestroyServers, DestroyClients, OwnIds, Touches;
    DestroyMembers(s, t);
    var s2 := DestroyClients(DestroyServers(s, s.tasks[t].servers), s.tasks[t].clients);
    NothingLeft(s2, t);
    DriverPreservation.RemoveTaskInv(s2, t);
  }

  function OwnIds(s: State, t: Ref): set<int> {
    (set r | r in s.servers && s.servers[r].task == t :: s.servers[r].id) +
    (set c | c in s.clients && s.clients[c].task == t :: s.clients[c].id)
  }

  lemma OwnIdsSplit(s: State, t: Ref, rs: seq<Ref>, cs: seq<Ref>)
    requires forall r :: r in rs <==> r in s.servers && s.servers[r].task == t
    requires forall c :: c in cs <==> c in s.clients && s.clients[c].task == t
    ensures OwnIds(s, t) == (set r | r in rs :: s.servers[r].id) + (set c | c in cs :: s.clients[c].id)
  {
  }

  lemma NothingLeft(s: State, t: Ref)
    requires Inv(s) && t in s.tasks
    requires forall r <- s.servers :: s.servers[r].task != t
    requires forall c <- s.clients :: s.clients[c].task != t
    ensures s.tasks[t].servers == [] && s.tasks[t].clients == []
  {
    hide Inv, Distinct;
    TaskMembers(s, t);
    ListsSize(s.tasks[t].servers, {});
    ListsSize(s.tasks[t].clients, {});
  }

  /** Closing a task removes exactly its servers, its clients, their identifiers and the connections that
      touch it; the other tasks keep all else and at most find disconnect notifications at the end of
      their queues. */
  lemma CloseTaskEffect(s: State, t: Ref)
    requires Inv(s) && t in s.tasks
    ensures var s' := CloseTask(s, t);
            && Inv(s')
            && s'.tasks.Keys == s.tasks.Keys - {t}
            && OnlyDisconnects(s.tasks - {t}, s'.tasks)
            && s'.servers.Keys == (set r | r in s.servers && s.servers[r].task != t)
            && s'.clients.Keys == (set c | c in s.clients && s.clients[c].task != t)
            && s'.ids == s.ids - OwnIds(s, t) && s'.pools == s.pools
            && s'.conns == (map k | k in s.conns && !Touches(s, t, k) :: s.conns[k])
            && TrimmedSubs(s.subs, s'.subs, s'.conns)
            && TrimmedEntries(s.entries, s'.entries, s'.conns)
            && (forall c <- s'.clients :: s'.clients[c] == s.clients[c].(conn := Kept(s'.conns, s.clients[c].conn)))
            && (forall r <- s'.servers :: s'.servers[r] == s.servers[r].(entries := s'.servers[r].entries))
  {
    hide Inv, Trimmed, OnlyDisconnects, CleanServers, CleanClients, DestroyServers, DestroyClients, TrimmedEntries,
         RemoveTask;
    DisconnectedEffect(s, t);
    var s1 := Disconnected(s, t);
    TrimmedParts(s, s1);
    DisconnectsParts(s.tasks, s1.tasks, t);
    assert OwnIds(s1, t) == OwnIds(s, t);
    assert forall k <- s1.conns :: !Touches(s1, t, k);
    DestroyEffect(s1, t);
  }

  lemma TrimmedParts(s: State, s': State)
    requires Trimmed(s, s')
    ensures s'.conns.Keys <= s.conns.Keys && (forall k <- s'.conns :: s'.conns[k] == s.conns[k])
    ensures TrimmedClients(s.clients, s'.clients, s'.conns)
    ensures TrimmedSubs(s.subs, s'.subs, s'.conns)
    ensures TrimmedEntries(s.entries, s'.entries, s'.conns)
    ensures TrimmedServers(s.servers, s'.servers, s'.entries)
    ensures s'.ids == s.ids && s'.pools == s.pools
  {
    hide TrimmedClients, TrimmedSubs, TrimmedEntries, TrimmedServers;
  }

  lemma DisconnectsParts(tasks: map<Ref, Task>, tasks': map<Ref, Task>, t: Ref)
    requires OnlyDisconnects(tasks, tasks') && t in tasks
    ensures tasks'.Keys == tasks.Keys
    ensures tasks'[t].servers == tasks[t].servers && tasks'[t].clients == tasks[t].clients
    ensures OnlyDisconnects(tasks - {t}, tasks' - {t})
  {
  }
}
