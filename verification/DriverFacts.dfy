/** What the invariant says about lookups and about the two sides of a live connection. */
module DriverFacts {
  import opened IdSpace
  import opened DriverModel
  import opened DriverInvariant
  import Seqs
  import DriverBudget
  import DriverPreservation
  import DriverCommands

  // ---------- facts about a consistent state ----------

  lemma IdsValid(s: State)
    requires Inv(s)
    ensures forall c <- s.clients :: ValidId(s.clients[c].id)
    ensures forall r <- s.servers :: ValidId(s.servers[r].id)
    ensures forall u <- s.subs :: ValidId(s.subs[u].id)
    ensures forall p <- s.pools :: ValidId(s.pools[p].id)
  {
    HoldersValid(s.ids, HoldersOf(s));
  }

  lemma HoldersValid(ids: set<int>, h: Holders)
    requires Identified(ids, h)
    ensures forall c <- h.clients :: ValidId(h.clients[c].id)
    ensures forall r <- h.servers :: ValidId(h.servers[r].id)
    ensures forall u <- h.subs :: ValidId(h.subs[u].id)
    ensures forall p <- h.pools :: ValidId(h.pools[p].id)
  {
    hide Holders.Holds, Holders.Count;
    forall c <- h.clients ensures ValidId(h.clients[c].id) {
      assert h.Live(OfClient(c)) && h.IdOf(OfClient(c)) in ids;
    }
    forall r <- h.servers ensures ValidId(h.servers[r].id) {
      assert h.Live(OfServer(r)) && h.IdOf(OfServer(r)) in ids;
    }
    forall u <- h.subs ensures ValidId(h.subs[u].id) {
      assert h.Live(OfSub(u)) && h.IdOf(OfSub(u)) in ids;
    }
    forall p <- h.pools ensures ValidId(h.pools[p].id) {
      assert h.Live(OfPool(p)) && h.IdOf(OfPool(p)) in ids;
    }
  }

  // ---------- notifications about a live connection ----------

  /** All objects that connection k ties together are live and point back. */
  ghost predicate Intact(s: State, k: Ref) {
    && k in s.conns && k != NULL
    && s.conns[k].client != NULL && s.conns[k].client in s.clients && s.clients[s.conns[k].client].conn == k
    && s.conns[k].mem != NULL && s.conns[k].mem in s.subs && s.subs[s.conns[k].mem].conn == k
    && s.conns[k].server != NULL && s.conns[k].server in s.servers
    && s.clients[s.conns[k].client].task in s.tasks
    && s.servers[s.conns[k].server].task in s.tasks
    && ValidId(s.clients[s.conns[k].client].id)
    && ValidId(s.servers[s.conns[k].server].id)
    && ValidId(s.subs[s.conns[k].mem].id)
  }

  lemma ConnIntact(s: State, k: Ref)
    requires Inv(s) && k in s.conns
    ensures Intact(s, k) && Sendable(s, k)
  {
    hide Linked, Listed, Owned, Pooled, Identified, Separate, Named, Enumerated;
    ConnEnds(s.conns, s.clients, s.subs, k);
    ConnServer(s.conns, s.servers, s.entries, k);
    DriverBudget.OwnersLive(s.tasks, s.clients, s.servers);
    IdsValid(s);
  }

  lemma ConnEnds(conns: map<Ref, Conn>, clients: map<Ref, Client>, subs: map<Ref, Sub>, k: Ref)
    requires Linked(conns, clients, subs) && k in conns
    ensures k != NULL && conns[k].client in clients && clients[conns[k].client].conn == k && conns[k].client != NULL
    ensures conns[k].mem in subs && subs[conns[k].mem].conn == k && conns[k].mem != NULL
  {
  }

  lemma ConnServer(conns: map<Ref, Conn>, servers: map<Ref, Server>, entries: map<Ref, Ref>, k: Ref)
    requires Listed(conns, servers, entries) && k in conns
    ensures conns[k].server in servers && conns[k].server != NULL
  {
  }

  function ClientTask(s: State, k: Ref): Ref
    requires k in s.conns && s.conns[k].client in s.clients
  {
    s.clients[s.conns[k].client].task
  }

  function ServerTask(s: State, k: Ref): Ref
    requires k in s.conns && s.conns[k].server in s.servers
  {
    s.servers[s.conns[k].server].task
  }

  /** The notification a client sends to its server. */
  function ToServer(s: State, k: Ref, kind: Kind): Notif
    requires Sendable(s, k) && Intact(s, k)
  {
    Notif(CLIENT, kind, s.subs[s.conns[k].mem].id, s.clients[s.conns[k].client].id, s.servers[s.conns[k].server].id)
  }

  /** The notification a server sends to its client. */
  function ToClient(s: State, k: Ref, kind: Kind): Notif
    requires Sendable(s, k) && Intact(s, k)
  {
    Notif(SERVER, kind, s.subs[s.conns[k].mem].id, s.servers[s.conns[k].server].id, s.clients[s.conns[k].client].id)
  }

  /** On a consistent state sending never fails and reaches the queue of the other side's task. */
  lemma SendSucceeds(s: State, k: Ref, kind: Kind)
    requires Inv(s) && k in s.conns
    ensures Intact(s, k) && Sendable(s, k)
    ensures Send(s, CLIENT, kind, k) == (Push(s, ServerTask(s, k), ToServer(s, k, kind)), 0)
    ensures Send(s, SERVER, kind, k) == (Push(s, ClientTask(s, k), ToClient(s, k, kind)), 0)
    ensures Inv(Send(s, CLIENT, kind, k).0) && Inv(Send(s, SERVER, kind, k).0)
  {
    hide Inv;
    ConnIntact(s, k);
    DriverPreservation.PushInv(s, ServerTask(s, k), ToServer(s, k, kind));
    DriverPreservation.PushInv(s, ClientTask(s, k), ToClient(s, k, kind));
  }

  lemma NotifyInv(s: State, who: Sender, kind: Kind, k: Ref)
    requires Inv(s) && k in s.conns
    ensures DriverCommands.Notify(s, who, kind, k).1 == 0
    ensures Inv(DriverCommands.Notify(s, who, kind, k).0)
    ensures DriverCommands.Notify(s, who, kind, k).0.conns == s.conns
  {
    hide Inv;
    SendSucceeds(s, k, kind);
  }

  lemma InvParts(s: State)
    requires Inv(s)
    ensures NULL !in s.clients && NULL !in s.servers && NULL !in s.subs && NULL !in s.entries && NULL !in s.conns
    ensures forall x <- s.clients :: x in s.clientList
    ensures forall x <- s.servers :: x in s.serverList
    ensures forall p <- s.pools :: p in s.poolList
  {
    hide Owned, Pooled, Identified, Separate, Named, Seqs.Distinct, HasEntry;
  }

  lemma TaskCounters(s: State, t: Ref)
    requires Inv(s) && t in s.tasks
    ensures TaskOk(t, s.tasks[t], s.clients, s.servers)
  {
    hide Linked, Listed, Pooled, Identified, Separate, Named, Enumerated, TaskOk;
  }

  lemma ClientConn(conns: map<Ref, Conn>, clients: map<Ref, Client>, subs: map<Ref, Sub>, c: Ref)
    requires Linked(conns, clients, subs) && c in clients
    ensures NULL !in conns
    ensures clients[c].conn != NULL ==> clients[c].conn in conns
    ensures forall k <- conns :: conns[k].client == c <==> clients[c].conn == k
  {
  }

  lemma ConnOfClient(s: State, c: Ref)
    requires Inv(s) && c in s.clients && s.clients[c].conn != NULL
    ensures s.clients[c].conn in s.conns && s.conns[s.clients[c].conn].client == c
  {
    hide Listed, Owned, Pooled, Identified, Separate, Named, Enumerated, Linked;
    ClientConn(s.conns, s.clients, s.subs, c);
  }
}
