/** A connection's share of the driver's queues, which is all that the two libraries see of the driver. */
module DriverChannels {
  import opened DriverModel
  import opened DriverInvariant
  import opened DriverCommands
  import opened DriverFacts
  import opened MirrorDriver
  import opened DriverQueues
  import opened DriverTelling
  import Seqs
  import DriverBudget
  import DriverSteps
  import DriverLinks

  /** What one side of connection k has said and the other side's task has not read. */
  function Channel(s: State, k: Ref, who: Sender): seq<Kind>
    requires Whole(s, k) && Receiver(s, k, who) in s.tasks
  {
    KindsOf(s, s.tasks[Receiver(s, k, who)].queue, k, who)
  }

  /** What a call adds to the channel: the notification that the call is for. */
  function Says(s: State, cmd: Cmd, k: Ref, who: Sender): seq<Kind>
    requires Whole(s, k)
  {
    var f := FactOf(s, k);
    match cmd
    case ClientEndWriting(id) => if who == CLIENT && id == f.client then [NEW_MESSAGE] else []
    case Mmap(id, _) => if who == CLIENT && id == f.client then [NEW_CONNECTION] else []
    case ServerEndWriting(id, subId) => if who == SERVER && id == f.server && subId == f.sub then [NEW_MESSAGE] else []
    case _ => []
  }

  // ---------- identifiers lead to their objects ----------

  lemma ClientFound(s: State, c: Ref)
    requires Inv(s) && c in s.clients
    ensures forall id :: ClientById(s, id) == c <==> id == s.clients[c].id
  {
    hide Inv;
    DriverLinks.ListsLive(s);
    InvParts(s);
    IdsValid(s);
    forall id ensures ClientById(s, id) == c <==> id == s.clients[c].id {
      var x := ClientById(s, id);
      if x != NULL {
        ClientsTell(s, c, x);
      }
    }
  }

  lemma ClientsTell(s: State, c: Ref, x: Ref)
    requires Inv(s) && c in s.clients && x in s.clients
    ensures s.clients[c].id == s.clients[x].id <==> c == x
  {
    OwnersTell(s.ids, HoldersOf(s), OfClient(c), OfClient(x));
    hide Inv;
  }

  lemma ServersTell(s: State, r: Ref, x: Ref)
    requires Inv(s) && r in s.servers && x in s.servers
    ensures s.servers[r].id == s.servers[x].id <==> r == x
  {
    OwnersTell(s.ids, HoldersOf(s), OfServer(r), OfServer(x));
    hide Inv;
  }

  lemma ServerFound(s: State, r: Ref)
    requires Inv(s) && r in s.servers
    ensures forall id :: ServerById(s, id) == r <==> id == s.servers[r].id
  {
    hide Inv;
    DriverLinks.ListsLive(s);
    InvParts(s);
    IdsValid(s);
    forall id ensures ServerById(s, id) == r <==> id == s.servers[r].id {
      var x := ServerById(s, id);
      if x != NULL {
        ServersTell(s, r, x);
      }
    }
  }

  /** A list entry found by its sub-memory identifier stands for connection k exactly if it is k's identifier. */
  lemma EntryFound(s: State, k: Ref, subId: int)
    requires Inv(s) && Whole(s, k)
    ensures var e := EntryByMem(s, s.conns[k].server, subId);
            e != NULL ==> (s.entries[e] == k <==> subId == FactOf(s, k).sub)
  {
    hide Inv;
    AllWhole(s);
    var e := EntryByMem(s, s.conns[k].server, subId);
    if e != NULL {
      IdsTell(s, k, s.entries[e]);
    }
  }

  /** The entry of a connection is found under the identifier of its memory. */
  lemma EntryThere(s: State, k: Ref)
    requires Inv(s) && k in s.conns && Whole(s, k)
    ensures EntryByMem(s, s.conns[k].server, FactOf(s, k).sub) != NULL
    ensures s.servers[s.conns[k].server].entries != []
  {
    hide Inv;
    var r := s.conns[k].server;
    InvParts(s);
    IdsValid(s);
    var e := EntryFor(s, k);
    assert EntryLive(s, e) && EntryMemId(s, e) == FactOf(s, k).sub;
  }

  lemma EntryFor(s: State, k: Ref) returns (e: Ref)
    requires Inv(s) && k in s.conns
    ensures s.conns[k].server in s.servers && e in s.servers[s.conns[k].server].entries
    ensures e in s.entries && s.entries[e] == k
  {
    hide Linked, Owned, Pooled, Identified, Separate, Named, Enumerated;
    e := ListedEntry(s.conns, s.servers, s.entries, k);
  }

  lemma ListedEntry(conns: map<Ref, Conn>, servers: map<Ref, Server>, entries: map<Ref, Ref>, k: Ref) returns (e: Ref)
    requires Listed(conns, servers, entries) && k in conns
    ensures conns[k].server in servers && e in servers[conns[k].server].entries && e in entries && entries[e] == k
  {
    hide Seqs.Distinct;
    assert HasEntry(entries, k);
    e :| e in entries && entries[e] == k;
  }

  // ---------- each call ----------

  lemma SaidByClient(s: State, cmd: Cmd, k: Ref, who: Sender)
    requires CmdOk(s, cmd) && Inv(s) && k in s.conns && (cmd.ClientEndWriting? || cmd.Mmap?)
    ensures Whole(s, k) && KindsOf(s, SentBy(s, cmd, Receiver(s, k, who)), k, who) == Says(s, cmd, k, who)
  {
    hide Inv, KindsOf, Note, Whole, Receiver;
    AllWhole(s);
    NamedAsItself(s, s);
    KindsOfNothing(s, k, who);
    WholeParts(s, k);
    var id := if cmd.Mmap? then cmd.targetId else cmd.clientId;
    var c := ClientById(s, id);
    ClientFound(s, s.conns[k].client);
    ConnOfBoth(s, k);
    if c != NULL && s.clients[c].conn != NULL {
      ConnOfClient(s, c);
      NoteKinds(s, s, CLIENT, if cmd.Mmap? then NEW_CONNECTION else NEW_MESSAGE, s.clients[c].conn,
          Receiver(s, k, who), k, who);
    }
  }

  lemma WholeParts(s: State, k: Ref)
    requires Whole(s, k)
    ensures k in s.conns && s.conns[k].client in s.clients && s.conns[k].server in s.servers && s.conns[k].mem in s.subs
    ensures FactOf(s, k).client == s.clients[s.conns[k].client].id
    ensures FactOf(s, k).server == s.servers[s.conns[k].server].id
  {
  }

  lemma ConnOfBoth(s: State, k: Ref)
    requires Inv(s) && k in s.conns
    ensures k != NULL && s.conns[k].client in s.clients && s.clients[s.conns[k].client].conn == k
    ensures s.conns[k].client != NULL
    ensures s.conns[k].server != NULL
  {
    hide Inv;
    ConnIntact(s, k);
  }

  lemma SaidByServer(s: State, cmd: Cmd, k: Ref, who: Sender)
    requires CmdOk(s, cmd) && Inv(s) && k in s.conns && cmd.ServerEndWriting?
    ensures Whole(s, k) && KindsOf(s, SentBy(s, cmd, Receiver(s, k, who)), k, who) == Says(s, cmd, k, who)
  {
    hide Inv, KindsOf, Note, Whole, Receiver, EntryByMem;
    AllWhole(s);
    NamedAsItself(s, s);
    KindsOfNothing(s, k, who);
    WholeParts(s, k);
    ConnOfBoth(s, k);
    ServerFound(s, s.conns[k].server);
    var r := ServerById(s, cmd.serverId);
    if r != NULL && EntryByMem(s, r, cmd.subId) != NULL {
      EntryOfServer(s, r, cmd.subId);
      var x := s.entries[EntryByMem(s, r, cmd.subId)];
      if r == s.conns[k].server {
        EntryFound(s, k, cmd.subId);
      }
      NoteKinds(s, s, SERVER, NEW_MESSAGE, x, Receiver(s, k, who), k, who);
    } else if r == s.conns[k].server {
      EntryThere(s, k);
    }
  }

  lemma EntryOfServer(s: State, r: Ref, subId: int)
    requires Inv(s) && r in s.servers && EntryByMem(s, r, subId) != NULL
    ensures var e := EntryByMem(s, r, subId);
            e in s.entries && s.entries[e] in s.conns && s.conns[s.entries[e]].server == r
  {
    hide Inv;
    DriverLinks.EntryConn(s, r, EntryByMem(s, r, subId));
  }

  lemma Said(s: State, cmd: Cmd, k: Ref, who: Sender)
    requires CmdOk(s, cmd) && Inv(s) && k in s.conns && k in Step(s, cmd).0.conns
    ensures Whole(s, k) && KindsOf(s, SentBy(s, cmd, Receiver(s, k, who)), k, who) == Says(s, cmd, k, who)
  {
    hide Inv, SentBy, KindsOf, Step, CmdOk, Whole, Receiver, FactOf;
    if cmd.ClientEndWriting? || cmd.Mmap? {
      SaidByClient(s, cmd, k, who);
    } else if cmd.ServerEndWriting? {
      SaidByServer(s, cmd, k, who);
    } else {
      SaidNothing(s, cmd, k, who);
    }
  }

  lemma SaidNothing(s: State, cmd: Cmd, k: Ref, who: Sender)
    requires CmdOk(s, cmd) && Inv(s) && k in s.conns && k in Step(s, cmd).0.conns
    requires !cmd.ClientEndWriting? && !cmd.Mmap? && !cmd.ServerEndWriting?
    ensures Whole(s, k) && KindsOf(s, SentBy(s, cmd, Receiver(s, k, who)), k, who) == []
  {
    hide Inv, KindsOf, Step, CmdOk, Whole, Receiver, FactOf;
    AllWhole(s);
    if cmd.Read? || cmd.Open? || cmd.RegisterServer? || cmd.RegisterClient? || cmd.RegisterMonitor? || cmd.Connect? {
      QuietCall(s, cmd, Receiver(s, k, who));
      KindsOfNothing(s, k, who);
    } else {
      GoneSaysNothing(s, cmd, k, who);
    }
  }

  /** A call that deletes connections says nothing about those that stay. */
  lemma GoneSaysNothing(s: State, cmd: Cmd, k: Ref, who: Sender)
    requires CmdOk(s, cmd) && Inv(s) && k in s.conns && k in Step(s, cmd).0.conns
    requires cmd.ClientDisconnect? || cmd.ServerDisconnect? || cmd.ClientUnregister? || cmd.ServerUnregister? ||
            cmd.Close?
    ensures Whole(s, k) && KindsOf(s, SentBy(s, cmd, Receiver(s, k, who)), k, who) == []
  {
    hide Inv, KindsOf, Step, CmdOk, Whole, Receiver, FactOf, SentBy;
    AllWhole(s);
    var t := Receiver(s, k, who);
    match cmd
    case ServerUnregister(_) => ServerUnregisterSays(s, cmd, t, k, who);
    case Close(_) => CloseSays(s, cmd, t, k, who);
    case ClientDisconnect(_) => DisconnectCallSays(s, cmd, t, k, who);
    case ClientUnregister(_) => DisconnectCallSays(s, cmd, t, k, who);
    case ServerDisconnect(_, _) => DisconnectCallSays(s, cmd, t, k, who);
  }

  /** As long as a connection lives, its channel loses what is read and gains what the call says, and keeps its
      order: the driver is a pair of FIFO channels to its two sides. */
  lemma ChannelStep(s: State, cmd: Cmd, k: Ref, who: Sender)
    requires CmdOk(s, cmd) && DriverSteps.Reachable(s) && k in s.conns && k in Step(s, cmd).0.conns
    ensures var s' := Step(s, cmd).0;
            && Whole(s, k) && Whole(s', k)
            && Receiver(s', k, who) == Receiver(s, k, who) && Receiver(s, k, who) in s.tasks
            && Receiver(s, k, who) in s'.tasks
            && KindsOf(s, Taking(s, cmd, Receiver(s, k, who)), k, who) + Channel(s', k, who) == Channel(s, k, who) +
                 Says(s, cmd, k, who)
  {
    hide Inv, DriverSteps.Reachable, Step, CmdOk, Whole, FactOf, SentBy, KindsOf, Taking, Says;
    DriverSteps.ReachableInv(s);
    var s' := Step(s, cmd).0;
    StepSameConn(s, cmd, k);
    DriverSteps.StepInv(s, cmd);
    ReceiverLive(s, k, who);
    ReceiverLive(s', k, who);
    var t := Receiver(s, k, who);
    StepConserves(s, cmd, t);
    SayKinds(s, s', s'.tasks[t].queue, k, who);
    KindsOfSum(s, Taking(s, cmd, t), s'.tasks[t].queue, k, who);
    KindsOfSum(s, s.tasks[t].queue, SentBy(s, cmd, t), k, who);
    Said(s, cmd, k, who);
  }

  lemma ReceiverLive(s: State, k: Ref, who: Sender)
    requires Inv(s) && Whole(s, k)
    ensures Receiver(s, k, who) in s.tasks
  {
    hide Linked, Listed, Pooled, Identified, Separate, Named, Enumerated;
    DriverBudget.OwnersLive(s.tasks, s.clients, s.servers);
  }
}
