/** The driver's operations as seen by the tables: which facts they change and what they queue. */
module MirrorDriver {
  import opened DriverModel
  import opened DriverInvariant
  import opened DriverCommands
  import opened DriverFacts
  import opened DriverTeardown
  import opened DriverClose
  import opened MirrorFacts
  import Seqs
  import DriverPreservation
  import LibServer
  import Mirror

  type Queues = map<Ref, seq<Notif>>

  /** The tables that the processes' libraries hold: for each task, one for each of its servers. */
  type Tables = map<Ref, map<int, LibServer.Table>>

  predicate Whole(s: State, k: Ref) {
    && k in s.conns
    && s.conns[k].client in s.clients && s.conns[k].mem in s.subs && s.conns[k].server in s.servers
  }

  function FactOf(s: State, k: Ref): Fact
    requires Whole(s, k)
  {
    var con := s.conns[k];
    Fact(s.servers[con.server].task, s.servers[con.server].id, s.clients[con.client].id, s.subs[con.mem].id)
  }

  function FactsOf(s: State): Facts {
    map k | k in s.conns && Whole(s, k) && s.conns[k].mapped :: FactOf(s, k)
  }

  function QueuesOf(s: State): Queues {
    map t | t in s.tasks :: s.tasks[t].queue
  }

  /** The pairs in the table of server id of task t; no table, no pairs. */
  function Base(lib: Tables, t: Ref, id: int): Mirror.Pairs {
    if t in lib && id in lib[t] then Mirror.PairsOf(lib[t][id].conns) else map[]
  }

  /** Every queue leads every table it concerns to the driver's facts. */
  ghost predicate Mirrored(lib: Tables, qs: Queues, fs: Facts) {
    forall t, id: int | t in qs :: Leads(Base(lib, t, id), qs[t], fs, t, id)
  }

  // ---------- facts ----------

  lemma AllWhole(s: State)
    requires Inv(s)
    ensures forall k <- s.conns :: Whole(s, k)
    ensures forall k <- s.conns :: FactOf(s, k).task in s.tasks && ValidFact(FactOf(s, k))
  {
    hide Inv;
    forall k <- s.conns ensures Whole(s, k) && FactOf(s, k).task in s.tasks && ValidFact(FactOf(s, k)) {
      ConnIntact(s, k);
    }
  }

  /** Two connections never have the same client identifier or the same sub-memory identifier. */
  lemma IdsTell(s: State, k: Ref, k': Ref)
    requires Inv(s) && Whole(s, k) && Whole(s, k')
    ensures FactOf(s, k).client == FactOf(s, k').client ==> k == k'
    ensures FactOf(s, k).sub == FactOf(s, k').sub ==> k == k'
  {
    OwnersTell(s.ids, HoldersOf(s), OfClient(s.conns[k].client), OfClient(s.conns[k'].client));
    OwnersTell(s.ids, HoldersOf(s), OfSub(s.conns[k].mem), OfSub(s.conns[k'].mem));
    hide Listed, Owned, Pooled, Identified, Separate, Named, Enumerated, Linked;
    ConnEnds(s.conns, s.clients, s.subs, k);
    ConnEnds(s.conns, s.clients, s.subs, k');
  }

  lemma OwnersTell(ids: set<int>, h: Holders, o: Owner, o': Owner)
    requires Identified(ids, h) && h.Live(o) && h.Live(o')
    ensures h.IdOf(o) == h.IdOf(o') ==> o == o'
  {
  }

  lemma FactsUnique(s: State)
    requires Inv(s)
    ensures Unique(FactsOf(s))
  {
    hide Inv;
    AllWhole(s);
    var fs := FactsOf(s);
    forall k, k' | k in fs && k' in fs ensures (fs[k].client == fs[k'].client ==> k == k') &&
        (fs[k].sub == fs[k'].sub ==> k == k') {
      IdsTell(s, k, k');
    }
  }

  lemma FactAlone(s: State, k: Ref, fs: Facts)
    requires Inv(s) && k in s.conns && (fs == FactsOf(s) || fs == FactsOf(s) - {k})
    ensures Whole(s, k) && Alone(fs, k, FactOf(s, k)) && ValidFact(FactOf(s, k))
  {
    hide Inv;
    AllWhole(s);
    forall x <- fs ensures x != k ==> fs[x].client != FactOf(s, k).client {
      IdsTell(s, x, k);
    }
  }

  /** Connections may have gone; those left still tie the same identifiers together. */
  ghost predicate SidesKept(s: State, s': State) {
    forall k <- s'.conns :: k in s.conns && s'.conns[k] == s.conns[k] && Whole(s, k) && Whole(s', k) &&
        FactOf(s', k) == FactOf(s, k)
  }

  lemma FactsKept(s: State, s': State)
    requires SidesKept(s, s')
    ensures FactsOf(s') == map k | k in FactsOf(s) && k in s'.conns :: FactsOf(s)[k]
  {
    hide Whole, FactOf;
  }

  lemma FactsSame(s: State, s': State)
    requires SidesKept(s, s') && s'.conns == s.conns
    ensures FactsOf(s') == FactsOf(s)
  {
    FactsKept(s, s');
  }

  // ---------- one more notification ----------

  lemma QuietMirrored(lib: Tables, qs: Queues, fs: Facts, t: Ref, n: Notif)
    requires Mirrored(lib, qs, fs) && t in qs && Quiet(n)
    ensures Mirrored(lib, qs[t := qs[t] + [n]], fs)
  {
    hide Base, Leads, Quiet;
    forall id: int ensures Leads(Base(lib, t, id), qs[t] + [n], fs, t, id) {
      QuietLeads(Base(lib, t, id), qs[t], fs, t, id, n);
    }
  }

  lemma NewMirrored(lib: Tables, qs: Queues, fs: Facts, k: Ref, f: Fact)
    requires Mirrored(lib, qs, fs) && f.task in qs
    requires Unique(fs[k := f]) && Capped(fs[k := f]) && (k in fs ==> fs[k] == f)
    ensures Mirrored(lib, qs[f.task := qs[f.task] + [Told(NEW_CONNECTION, f)]], fs[k := f])
  {
    hide Base, Leads, Unique, Capped;
    var qs' := qs[f.task := qs[f.task] + [Told(NEW_CONNECTION, f)]];
    forall t, id: int | t in qs' ensures Leads(Base(lib, t, id), qs'[t], fs[k := f], t, id) {
      NewLeads(Base(lib, t, id), qs[t], fs, t, id, k, f);
    }
  }

  lemma CutMirrored(lib: Tables, qs: Queues, fs: Facts, k: Ref, f: Fact)
    requires Mirrored(lib, qs, fs) && f.task in qs && ValidFact(f) && Alone(fs, k, f)
    ensures Mirrored(lib, qs[f.task := qs[f.task] + [Told(REMOTE_DISCONNECT, f)]], fs - {k})
  {
    hide Base, Leads, ValidFact, Alone;
    var qs' := qs[f.task := qs[f.task] + [Told(REMOTE_DISCONNECT, f)]];
    forall t, id: int | t in qs' ensures Leads(Base(lib, t, id), qs'[t], fs - {k}, t, id) {
      CutLeads(Base(lib, t, id), qs[t], fs, t, id, k, f);
    }
  }

  // ---------- deleting connections ----------

  lemma PushShape(s: State, t: Ref, n: Notif)
    requires t in s.tasks
    ensures QueuesOf(Push(s, t, n)) == QueuesOf(s)[t := QueuesOf(s)[t] + [n]]
    ensures FactsOf(Push(s, t, n)) == FactsOf(s)
  {
    PushSides(s, t, n);
    hide Whole, FactOf;
  }

  lemma PushSides(s: State, t: Ref, n: Notif)
    requires t in s.tasks
    ensures forall k :: Whole(Push(s, t, n), k) == Whole(s, k)
    ensures forall k | Whole(s, k) :: FactOf(Push(s, t, n), k) == FactOf(s, k)
  {
  }

  lemma ToServerTold(s: State, k: Ref, kind: Kind)
    requires Inv(s) && k in s.conns
    ensures Whole(s, k) && Intact(s, k) && Sendable(s, k)
    ensures ToServer(s, k, kind) == Told(kind, FactOf(s, k)) && ServerTask(s, k) == FactOf(s, k).task
    ensures ServerTask(s, k) in s.tasks
    ensures Quiet(ToClient(s, k, kind)) && ClientTask(s, k) in s.tasks
  {
    hide Inv;
    ConnIntact(s, k);
  }

  lemma TrimmedSides(s: State, s': State)
    requires Inv(s) && Inv(s') && Trimmed(s, s')
    ensures SidesKept(s, s')
  {
    hide Inv, Trimmed;
    AllWhole(s);
    AllWhole(s');
    TrimmedKeys(s, s');
    TrimmedParts(s, s');
  }

  lemma UnlinkFacts(s: State, k: Ref)
    requires Inv(s) && k in s.conns
    ensures Sendable(s, k) && FactsOf(Unlink(s, k)) == FactsOf(s) - {k}
  {
    hide Inv, Trimmed, OnlyDisconnects, Unlink, SidesKept;
    UnlinkInv(s, k);
    UnlinkTrimmed(s, k);
    TrimmedSides(s, Unlink(s, k));
    FactsKept(s, Unlink(s, k));
    FactsWithin(s);
  }

  lemma FactsWithin(s: State)
    ensures forall k <- FactsOf(s) :: k in s.conns
  {
  }

  /** Deleting a connection keeps the tables on track, even if its server has been told before. */
  lemma UnlinkMirrored(lib: Tables, s: State, k: Ref, fs: Facts)
    requires Inv(s) && k in s.conns && (fs == FactsOf(s) || fs == FactsOf(s) - {k})
    requires Mirrored(lib, QueuesOf(s), fs)
    ensures Sendable(s, k) && Mirrored(lib, QueuesOf(Unlink(s, k)), FactsOf(Unlink(s, k)))
  {
    hide Inv, Mirrored, Alone, DropConn, Push, FactsOf, QueuesOf, Whole, FactOf;
    UnlinkShape(s, k);
    UnlinkFacts(s, k);
    ToServerTold(s, k, REMOTE_DISCONNECT);
    FactAlone(s, k, fs);
    var told := Push(s, ClientTask(s, k), ToClient(s, k, REMOTE_DISCONNECT));
    PushShape(s, ClientTask(s, k), ToClient(s, k, REMOTE_DISCONNECT));
    QueueKeys(s);
    QuietMirrored(lib, QueuesOf(s), fs, ClientTask(s, k), ToClient(s, k, REMOTE_DISCONNECT));
    PushShape(told, ServerTask(s, k), ToServer(s, k, REMOTE_DISCONNECT));
    CutMirrored(lib, QueuesOf(told), fs, k, FactOf(s, k));
    DropQueues(Push(told, ServerTask(s, k), ToServer(s, k, REMOTE_DISCONNECT)), k);
    assert fs - {k} == FactsOf(s) - {k};
  }

  lemma QueueKeys(s: State)
    ensures QueuesOf(s).Keys == s.tasks.Keys
  {
  }

  lemma DropQueues(s: State, k: Ref)
    ensures QueuesOf(DropConn(s, k)) == QueuesOf(s)
  {
  }

  /** The library's tables are on track for the state. */
  ghost predicate OnTrack(lib: Tables, s: State) {
    Mirrored(lib, QueuesOf(s), FactsOf(s))
  }

  lemma {:induction false} UnlinkAllOnTrack(lib: Tables, s: State, ks: seq<Ref>)
    requires Inv(s) && Seqs.Distinct(ks) && (forall k <- ks :: k in s.conns) && OnTrack(lib, s)
    ensures OnTrack(lib, UnlinkAll(s, ks))
    decreases |ks|
  {
    hide Inv, Unlink, Seqs.Distinct, Mirrored;
    if ks != [] {
      UnlinkInv(s, ks[0]);
      UnlinkMirrored(lib, s, ks[0], FactsOf(s));
      Seqs.DistinctTail(ks);
      UnlinkAllOnTrack(lib, Unlink(s, ks[0]), ks[1..]);
    }
  }

  /** A disconnect call notifies, then deletes, and so tells one side twice. */
  lemma DisconnectOnTrack(lib: Tables, s: State, who: Sender, k: Ref)
    requires Inv(s) && k in s.conns && OnTrack(lib, s)
    ensures OnTrack(lib, UnlinkAll(Notify(s, who, REMOTE_DISCONNECT, k).0, [k]))
  {
    hide Inv, Unlink, Mirrored, Push, QueuesOf, FactsOf, Alone;
    SendSucceeds(s, k, REMOTE_DISCONNECT);
    NotifyInv(s, who, REMOTE_DISCONNECT, k);
    var s1 := Notify(s, who, REMOTE_DISCONNECT, k).0;
    ToServerTold(s, k, REMOTE_DISCONNECT);
    QueueKeys(s);
    if who == SERVER {
      PushShape(s, ClientTask(s, k), ToClient(s, k, REMOTE_DISCONNECT));
      QuietMirrored(lib, QueuesOf(s), FactsOf(s), ClientTask(s, k), ToClient(s, k, REMOTE_DISCONNECT));
      UnlinkMirrored(lib, s1, k, FactsOf(s1));
    } else {
      PushShape(s, ServerTask(s, k), ToServer(s, k, REMOTE_DISCONNECT));
      FactAlone(s, k, FactsOf(s));
      CutMirrored(lib, QueuesOf(s), FactsOf(s), k, FactOf(s, k));
      UnlinkMirrored(lib, s1, k, FactsOf(s1) - {k});
    }
    assert UnlinkAll(s1, [k]) == Unlink(s1, k);
  }

  lemma CleanServerOnTrack(lib: Tables, s: State, r: Ref)
    requires Inv(s) && r in s.servers && OnTrack(lib, s)
    ensures OnTrack(lib, CleanServer(s, r))
  {
    hide Inv, UnlinkAll, OnTrack, Seqs.Distinct, ConnsBehind;
    ServerConns(s, r);
    UnlinkAllOnTrack(lib, s, ConnsBehind(s.entries, s.servers[r].entries));
  }

  lemma CleanClientOnTrack(lib: Tables, s: State, c: Ref)
    requires Inv(s) && c in s.clients && OnTrack(lib, s)
    ensures OnTrack(lib, CleanClient(s, c))
  {
    hide Inv, UnlinkAll, OnTrack;
    if s.clients[c].conn != NULL {
      ConnOfClient(s, c);
      UnlinkAllOnTrack(lib, s, [s.clients[c].conn]);
    }
  }

  lemma {:induction false} CleanServersOnTrack(lib: Tables, s: State, rs: seq<Ref>)
    requires Inv(s) && OnTrack(lib, s) && forall r <- rs :: r in s.servers
    ensures OnTrack(lib, CleanServers(s, rs))
    decreases |rs|
  {
    hide Inv, Trimmed, OnlyDisconnects, CleanServer, OnTrack;
    if rs != [] {
      CleanServerOnTrack(lib, s, rs[0]);
      CleanServerTornDown(s, rs[0]);
      TrimmedKeys(s, CleanServer(s, rs[0]));
      CleanServersOnTrack(lib, CleanServer(s, rs[0]), rs[1..]);
    }
  }

  lemma {:induction false} CleanClientsOnTrack(lib: Tables, s: State, cs: seq<Ref>)
    requires Inv(s) && OnTrack(lib, s) && forall c <- cs :: c in s.clients
    ensures OnTrack(lib, CleanClients(s, cs))
    decreases |cs|
  {
    hide Inv, Trimmed, OnlyDisconnects, CleanClient, OnTrack;
    if cs != [] {
      CleanClientOnTrack(lib, s, cs[0]);
      CleanClientTornDown(s, cs[0]);
      TrimmedKeys(s, CleanClient(s, cs[0]));
      CleanClientsOnTrack(lib, CleanClient(s, cs[0]), cs[1..]);
    }
  }

  // ---------- closing a task ----------

  lemma DisconnectedOnTrack(lib: Tables, s: State, t: Ref)
    requires Inv(s) && t in s.tasks && OnTrack(lib, s)
    ensures OnTrack(lib, Disconnected(s, t))
  {
    hide Inv, Trimmed, OnlyDisconnects, CleanServers, CleanClients, Seqs.Distinct, OnTrack;
    TaskMembers(s, t);
    CleanServersOnTrack(lib, s, s.tasks[t].servers);
    CleanServersTornDown(s, s.tasks[t].servers);
    TrimmedKeys(s, CleanServers(s, s.tasks[t].servers));
    CleanClientsOnTrack(lib, CleanServers(s, s.tasks[t].servers), s.tasks[t].clients);
  }

  /** Objects without connections may go: facts stay, and queues do unless their task goes. */
  lemma Destroyed(lib: Tables, lib': Tables, s: State, s': State)
    requires Inv(s) && Inv(s') && OnTrack(lib, s)
    requires s'.conns == s.conns && s'.subs == s.subs
    requires forall c <- s'.clients :: c in s.clients && s'.clients[c] == s.clients[c]
    requires forall r <- s'.servers :: r in s.servers && s'.servers[r] == s.servers[r]
    requires forall t <- s'.tasks :: t in s.tasks && s'.tasks[t].queue == s.tasks[t].queue
    requires forall t, id: int | t in s'.tasks :: Base(lib', t, id) == Base(lib, t, id)
    ensures OnTrack(lib', s') && FactsOf(s') == FactsOf(s)
  {
    hide Inv, Base, Leads;
    AllWhole(s);
    AllWhole(s');
    FactsSame(s, s');
    hide FactsOf;
    forall t, id: int | t in QueuesOf(s') ensures Leads(Base(lib', t, id), QueuesOf(s')[t], FactsOf(s), t, id) {
      assert t in QueuesOf(s) && Leads(Base(lib, t, id), QueuesOf(s)[t], FactsOf(s), t, id);
    }
  }

  lemma CloseOnTrack(lib: Tables, s: State, t: Ref)
    requires Inv(s) && t in s.tasks && OnTrack(lib, s)
    ensures OnTrack(lib - {t}, CloseTask(s, t))
  {
    hide Inv, Trimmed, OnlyDisconnects, CleanServers, CleanClients, DestroyServers, DestroyClients, OnTrack,
         RemoveTask, Touches, OwnIds;
    DisconnectedOnTrack(lib, s, t);
    DisconnectedEffect(s, t);
    var s1 := Disconnected(s, t);
    TrimmedParts(s, s1);
    DisconnectsParts(s.tasks, s1.tasks, t);
    hide TrimmedClients, TrimmedSubs, TrimmedEntries, TrimmedServers;
    NoneTouches(s, s1, t);
    DestroyEffect(s1, t);
    Destroyed(lib, lib - {t}, s1, CloseTask(s, t));
  }

  lemma NoneTouches(s: State, s1: State, t: Ref)
    requires Trimmed(s, s1) && s1.conns == map k | k in s.conns && !Touches(s, t, k) :: s.conns[k]
    ensures forall k <- s1.conns :: !Touches(s1, t, k)
  {
    TrimmedKeys(s, s1);
  }

  // ---------- mapping ----------

  lemma SetMappedFacts(s: State, k: Ref)
    requires Whole(s, k)
    ensures FactsOf(SetMapped(s, k)) == FactsOf(s)[k := FactOf(s, k)]
    ensures QueuesOf(SetMapped(s, k)) == QueuesOf(s)
  {
    var s' := SetMapped(s, k);
    assert forall x :: Whole(s', x) == Whole(s, x);
    assert forall x | Whole(s, x) :: FactOf(s', x) == FactOf(s, x);
    hide Whole, FactOf;
  }

  lemma MapOnTrack(lib: Tables, s: State, k: Ref)
    requires Inv(s) && k in s.conns && OnTrack(lib, s) && Capped(FactsOf(MapClient(s, k)))
    ensures OnTrack(lib, MapClient(s, k))
  {
    hide Inv, Mirrored, Push, QueuesOf, FactsOf, Unique, Capped, SetMapped, FactOf, Whole;
    SendSucceeds(s, k, NEW_CONNECTION);
    ToServerTold(s, k, NEW_CONNECTION);
    var n, t := ToServer(s, k, NEW_CONNECTION), ServerTask(s, k);
    var s1 := Push(s, t, n);
    PushShape(s, t, n);
    PushKeeps(s, t, n, k);
    SetMappedFacts(s1, k);
    QueueKeys(s);
    DriverPreservation.SetMappedInv(s1, k);
    FactsUnique(SetMapped(s1, k));
    FactKnown(s, k);
    NewMirrored(lib, QueuesOf(s), FactsOf(s), k, FactOf(s, k));
  }

  lemma PushKeeps(s: State, t: Ref, n: Notif, k: Ref)
    requires t in s.tasks && Whole(s, k)
    ensures k in Push(s, t, n).conns && Whole(Push(s, t, n), k) && FactOf(Push(s, t, n), k) == FactOf(s, k)
  {
  }

  lemma FactKnown(s: State, k: Ref)
    requires Whole(s, k)
    ensures k in FactsOf(s) ==> FactsOf(s)[k] == FactOf(s, k)
  {
  }
}
