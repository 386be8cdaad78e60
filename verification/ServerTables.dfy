/** One server's table beside the driver, for as long as one of the server's connections lives. */
module ServerTables {
  import opened DriverModel
  import opened DriverInvariant
  import opened DriverCommands
  import opened DriverTeardown
  import opened DriverSteps
  import opened DriverQueues
  import opened LibServer
  import opened Mirror
  import opened MirrorFacts
  import opened MirrorDriver
  import opened MirrorSteps
  import IdSpace
  import DriverClose
  import DriverTelling
  import DriverChannels
  import DriverLives
  import DriverZero

  ghost predicate HasTable(lib: Tables, f: Fact) {
    f.task in lib && f.server in lib[f.task]
  }

  /** A read of the server's task that hands its library a notification. */
  predicate Hands(s: State, cmd: Cmd, f: Fact) {
    cmd.Read? && cmd.t == f.task && cmd.t in s.tasks && !s.tasks[cmd.t].monitor && s.tasks[cmd.t].queue != []
  }

  /** The notification that is handed over is for the server of connection k. */
  predicate Heard(s: State, cmd: Cmd, f: Fact) {
    Hands(s, cmd, f) && s.tasks[cmd.t].queue[0].who == CLIENT && s.tasks[cmd.t].queue[0].receiver == f.server
  }

  /** The server's table once its library has dealt with the notification, mmap call included. */
  function Handed(s: State, cmd: Cmd, table: Table, f: Fact): Table
    requires Heard(s, cmd, f)
  {
    var n := s.tasks[cmd.t].queue[0];
    Handle(table, f.server, n, Grants(s, f.server, n.subId))
  }

  // ---------- the table follows what is handed over, and nothing else changes it ----------

  lemma ServerIdInUse(s: State, k: Ref)
    requires Inv(s) && Whole(s, k)
    ensures FactOf(s, k).server in s.ids && FactOf(s, k).task in s.tasks
  {
    ServerIdsUsed(s, FactOf(s, k).task);
    hide Inv;
    AllWhole(s);
  }

  lemma RegisterOther(s: State, lib: Tables, cmd: Cmd, k: Ref)
    requires CmdOk(s, cmd) && Inv(s) && Whole(s, k) && HasTable(lib, FactOf(s, k)) && cmd.RegisterServer?
    ensures var f, lib' := FactOf(s, k), LibStep(s, cmd, lib);
            HasTable(lib', f) && lib'[f.task][f.server] == lib[f.task][f.server]
  {
    hide Inv, ServerByName, IdSpace.GenerateId, AddServer;
    ServerIdInUse(s, k);
    if RegisterServerStep(s, cmd.t, cmd.name, cmd.r).1 == 0 {
      NewIdUnused(s, cmd.t);
    }
  }

  lemma UnregisterOther(s: State, lib: Tables, cmd: Cmd, k: Ref)
    requires CmdOk(s, cmd) && Inv(s) && Whole(s, k) && HasTable(lib, FactOf(s, k)) && cmd.ServerUnregister?
    requires k in Step(s, cmd).0.conns
    ensures var f, lib' := FactOf(s, k), LibStep(s, cmd, lib);
            HasTable(lib', f) && lib'[f.task][f.server] == lib[f.task][f.server]
  {
    hide Inv, CleanServer, Trimmed, OnlyDisconnects;
    var r := ServerById(s, cmd.serverId);
    if r != NULL && cmd.serverId == FactOf(s, k).server {
      DriverChannels.ServersTell(s, r, s.conns[k].server);
      CleanServerTornDown(s, r);
      DestroyedConns(CleanServer(s, r), r);
      assert false;
    }
  }

  lemma DestroyedConns(s: State, r: Ref)
    ensures DestroyServer(s, r).conns == s.conns
  {
  }

  lemma CloseOther(s: State, lib: Tables, cmd: Cmd, k: Ref)
    requires CmdOk(s, cmd) && Inv(s) && Whole(s, k) && HasTable(lib, FactOf(s, k)) && cmd.Close?
    requires k in Step(s, cmd).0.conns
    ensures var f, lib' := FactOf(s, k), LibStep(s, cmd, lib);
            HasTable(lib', f) && lib'[f.task][f.server] == lib[f.task][f.server]
  {
    hide Inv, CloseTask, OnlyDisconnects, TrimmedSubs, TrimmedEntries, DriverClose.OwnIds;
    DriverClose.CloseTaskEffect(s, cmd.t);
  }

  lemma ReadTable(s: State, lib: Tables, cmd: Cmd, f: Fact)
    requires CmdOk(s, cmd) && HasTable(lib, f) && cmd.Read? && NOTIF_SIZE <= cmd.count
    ensures var lib' := LibStep(s, cmd, lib);
            && HasTable(lib', f)
            && lib'[f.task][f.server] ==
                 if Heard(s, cmd, f) then Handed(s, cmd, lib[f.task][f.server], f) else lib[f.task][f.server]
  {
    hide Handle, Grants;
  }

  /** While a connection lives, the table of its server is there and moves exactly by what the server is handed. */
  lemma TableFollows(s: State, lib: Tables, cmd: Cmd, k: Ref)
    requires CmdOk(s, cmd) && Reachable(s) && WholeRead(cmd) && k in s.conns && k in Step(s, cmd).0.conns
    requires Whole(s, k) && HasTable(lib, FactOf(s, k))
    ensures var f, lib' := FactOf(s, k), LibStep(s, cmd, lib);
            && HasTable(lib', f)
            && lib'[f.task][f.server] ==
                 if Heard(s, cmd, f) then Handed(s, cmd, lib[f.task][f.server], f) else lib[f.task][f.server]
  {
    hide Inv, Reachable, Step, FactOf, Handle, Grants, ServerById;
    ReachableInv(s);
    match cmd
    case Read(_, _) => ReadTable(s, lib, cmd, FactOf(s, k));
    case RegisterServer(_, _, _) => RegisterOther(s, lib, cmd, k);
    case ServerUnregister(_) => UnregisterOther(s, lib, cmd, k);
    case Close(_) => CloseOther(s, lib, cmd, k);
    case Open(_, _) => ServerIdInUse(s, k);
    case _ =>
  }

  // ---------- the server's memory ----------

  /** As long as a connection lives, the driver maps its memory for its server if and only if it is not called 0. */
  lemma GrantedUnlessZero(s: State, k: Ref)
    requires Reachable(s) && k in s.conns
    ensures Whole(s, k) && (Grants(s, FactOf(s, k).server, FactOf(s, k).sub) <==> FactOf(s, k).sub != 0)
  {
    hide Reachable, Whole, FactOf, MmapStep;
    DriverZero.ServerMapsUnlessZero(s, k);
  }

  // ---------- no leftovers of earlier connections ----------

  /** Whatever waits for the server from the connection's client or about its sub-memory, and whatever waits for the
      client, is about this connection. */
  ghost predicate Clean(s: State, k: Ref) {
    && Whole(s, k)
    && Receiver(s, k, CLIENT) in s.tasks && AllOurs(s.tasks[Receiver(s, k, CLIENT)].queue, FactOf(s, k))
    && Receiver(s, k, SERVER) in s.tasks && AllOurs(s.tasks[Receiver(s, k, SERVER)].queue, FactOf(s, k))
  }

  ghost predicate AllOurs(q: seq<Notif>, f: Fact) {
    forall n <- q :: Ours(n, f)
  }

  predicate Ours(n: Notif, f: Fact) {
    && (n.who == CLIENT && n.receiver == f.server && (n.sender == f.client || n.subId == f.sub) ==>
          n.sender == f.client && n.subId == f.sub)
    && (n.who == SERVER && n.receiver == f.client ==> n.sender == f.server && n.subId == f.sub)
  }

  lemma SpokenOurs(s: State, q: seq<Notif>, t: Ref, k: Ref)
    requires Inv(s) && DriverTelling.Spoken(s, q, t) && Whole(s, k)
    ensures AllOurs(q, FactOf(s, k))
  {
    hide Inv;
    forall n <- q ensures Ours(n, FactOf(s, k)) {
      assert DriverTelling.Concerns(s, n, t);
      var k', who :| DriverTelling.IsAbout(s, n, k', who) && Receiver(s, k', who) == t;
      IdsTell(s, k, k');
    }
  }

  lemma QueueStaysOurs(s: State, cmd: Cmd, k: Ref, t: Ref)
    requires CmdOk(s, cmd) && Reachable(s) && Whole(s, k) && t in s.tasks && t in Step(s, cmd).0.tasks
    requires AllOurs(s.tasks[t].queue, FactOf(s, k))
    ensures AllOurs(Step(s, cmd).0.tasks[t].queue, FactOf(s, k))
  {
    hide Inv, Reachable, Step, CmdOk, SentBy, FactOf, Taking, DriverTelling.Spoken, Ours;
    ReachableInv(s);
    var s' := Step(s, cmd).0;
    StepConserves(s, cmd, t);
    DriverLives.StepSpoken(s, cmd, t);
    SpokenOurs(s, SentBy(s, cmd, t), t, k);
    forall n <- s'.tasks[t].queue ensures Ours(n, FactOf(s, k)) {
      assert n in Taking(s, cmd, t) + s'.tasks[t].queue;
      assert n in s.tasks[t].queue + SentBy(s, cmd, t);
    }
  }

  lemma CleanStep(s: State, cmd: Cmd, k: Ref)
    requires CmdOk(s, cmd) && Reachable(s) && Clean(s, k) && k in Step(s, cmd).0.conns
    ensures Clean(Step(s, cmd).0, k)
  {
    hide Inv, Reachable, Step, CmdOk, FactOf, Whole, Receiver, AllOurs;
    ReachableInv(s);
    StepInv(s, cmd);
    WholeListed(s, k);
    DriverTelling.StepSameConn(s, cmd, k);
    DriverChannels.ReceiverLive(Step(s, cmd).0, k, CLIENT);
    DriverChannels.ReceiverLive(Step(s, cmd).0, k, SERVER);
    QueueStaysOurs(s, cmd, k, Receiver(s, k, CLIENT));
    QueueStaysOurs(s, cmd, k, Receiver(s, k, SERVER));
  }

  lemma WholeListed(s: State, k: Ref)
    requires Whole(s, k)
    ensures k in s.conns
  {
  }

  // ---------- room for the client's announcement ----------

  /** With tables on track, the announcement that the server reads next finds the connection in the table or room
      for it. */
  lemma HelloFits(s: State, lib: Tables, k: Ref)
    requires Inv(s) && Joined(lib, s) && Whole(s, k) && HasTable(lib, FactOf(s, k))
    requires FactOf(s, k).task in s.tasks && s.tasks[FactOf(s, k).task].queue != []
    requires s.tasks[FactOf(s, k).task].queue[0] == About(s, k, CLIENT, NEW_CONNECTION)
    ensures var f := FactOf(s, k);
            var table := lib[f.task][f.server];
            || Find(table.conns, f.client) < |table.conns|
            || (|table.conns| < MAX_SERVERS_CONNECTIONS && |table.mappings| < MAX_SERVERS_MAPPING)
  {
    hide Inv, Leads, FactsOf, FactOf, TablesOk, TableOk;
    var f := FactOf(s, k);
    var q := s.tasks[f.task].queue;
    assert f.task in QueuesOf(s) && Leads(Base(lib, f.task, f.server), QueuesOf(s)[f.task], FactsOf(s), f.task,
        f.server);
    LeadsHead(Base(lib, f.task, f.server), q, FactsOf(s), f.task, f.server);
    TableThere(lib, s, f);
    HeadFits(lib[f.task][f.server], f.server, q[0]);
  }

  lemma LeadsHead(m: Pairs, q: seq<Notif>, fs: Facts, t: Ref, id: int)
    requires Leads(m, q, fs, t, id) && q != []
    ensures Mirror.Good(Apply(m, id, q[0]))
  {
    hide Agree, Fold;
    GoodRunStep(m, id, q);
  }

  lemma TableThere(lib: Tables, s: State, f: Fact)
    requires TablesOk(lib, s) && HasTable(lib, f)
    ensures TableOk(lib[f.task][f.server])
  {
    hide TableOk;
  }

  lemma HeadFits(table: Table, id: int, n: Notif)
    requires TableOk(table) && n.who == CLIENT && n.receiver == id && n.kind == NEW_CONNECTION
    requires Mirror.Good(Apply(PairsOf(table.conns), id, n))
    ensures || Find(table.conns, n.sender) < |table.conns|
            || (|table.conns| < MAX_SERVERS_CONNECTIONS && |table.mappings| < MAX_SERVERS_MAPPING)
  {
    var m := PairsOf(table.conns);
    FindMeans(table.conns, n.sender);
    TableSize(table);
    if n.sender !in m {
      assert |m[n.sender := n.subId]| == |m| + 1;
    }
  }
}
