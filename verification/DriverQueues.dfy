/** What each system call sends to each task, and that nothing is lost on the way to the reader. */
module DriverQueues {
  import opened Seqs
  import opened DriverModel
  import opened DriverInvariant
  import opened DriverCommands
  import opened DriverFacts
  import opened DriverTeardown
  import opened DriverClose
  import opened DriverSteps
  import IdSpace
  import MirrorDriver

  // ---------- what is sent ----------

  /** The notification about connection k that one of its sides sends. */
  function About(s: State, k: Ref, who: Sender, kind: Kind): Notif
    requires MirrorDriver.Whole(s, k)
  {
    var f := MirrorDriver.FactOf(s, k);
    if who == CLIENT then Notif(CLIENT, kind, f.sub, f.client, f.server)
    else Notif(SERVER, kind, f.sub, f.server, f.client)
  }

  function Receiver(s: State, k: Ref, who: Sender): Ref
    requires MirrorDriver.Whole(s, k)
  {
    if who == CLIENT then s.servers[s.conns[k].server].task else s.clients[s.conns[k].client].task
  }

  /** The share of task t in one notification. */
  function Note(s: State, who: Sender, kind: Kind, k: Ref, t: Ref): seq<Notif> {
    if MirrorDriver.Whole(s, k) && Receiver(s, k, who) == t then [About(s, k, who, kind)] else []
  }

  function UnlinkNotes(s: State, k: Ref, t: Ref): seq<Notif> {
    Note(s, SERVER, REMOTE_DISCONNECT, k, t) + Note(s, CLIENT, REMOTE_DISCONNECT, k, t)
  }

  function UnlinkAllNotes(s: State, ks: seq<Ref>, t: Ref): seq<Notif>
    decreases |ks|
  {
    if ks == [] || !Sendable(s, ks[0]) then []
    else UnlinkNotes(s, ks[0], t) + UnlinkAllNotes(Unlink(s, ks[0]), ks[1..], t)
  }

  function CleanServersNotes(s: State, rs: seq<Ref>, t: Ref): seq<Notif>
    decreases |rs|
  {
    if rs == [] then []
    else if rs[0] in s.servers then
      UnlinkAllNotes(s, ConnsBehind(s.entries, s.servers[rs[0]].entries), t) +
          CleanServersNotes(CleanServer(s, rs[0]), rs[1..], t)
    else CleanServersNotes(s, rs[1..], t)
  }

  function CleanClientsNotes(s: State, cs: seq<Ref>, t: Ref): seq<Notif>
    decreases |cs|
  {
    if cs == [] then []
    else if cs[0] in s.clients then
      (if s.clients[cs[0]].conn == NULL then [] else UnlinkAllNotes(s, [s.clients[cs[0]].conn], t))
      + CleanClientsNotes(CleanClient(s, cs[0]), cs[1..], t)
    else CleanClientsNotes(s, cs[1..], t)
  }

  /** A disconnect call announces itself before the connection is deleted. */
  function DisconnectNotes(s: State, who: Sender, k: Ref, t: Ref): seq<Notif> {
    Note(s, who, REMOTE_DISCONNECT, k, t) + UnlinkAllNotes(Notify(s, who, REMOTE_DISCONNECT, k).0, [k], t)
  }

  /** Everything a system call sends to task t, in order. */
  function SentBy(s: State, cmd: Cmd, t: Ref): seq<Notif>
    requires CmdOk(s, cmd)
  {
    match cmd
    case ClientEndWriting(id) =>
      var c := ClientById(s, id);
      if c == NULL || s.clients[c].conn == NULL then [] else Note(s, CLIENT, NEW_MESSAGE, s.clients[c].conn, t)
    case ServerEndWriting(id, subId) =>
      var r := ServerById(s, id);
      if r == NULL || EntryByMem(s, r, subId) == NULL then []
      else Note(s, SERVER, NEW_MESSAGE, s.entries[EntryByMem(s, r, subId)], t)
    case Mmap(id, subId) =>
      var c := ClientById(s, id);
      if c == NULL || s.clients[c].conn == NULL then [] else Note(s, CLIENT, NEW_CONNECTION, s.clients[c].conn, t)
    case ClientDisconnect(id) =>
      var c := ClientById(s, id);
      if c == NULL || s.clients[c].conn == NULL then [] else DisconnectNotes(s, CLIENT, s.clients[c].conn, t)
    case ClientUnregister(id) =>
      var c := ClientById(s, id);
      if c == NULL || s.clients[c].conn == NULL then [] else DisconnectNotes(s, CLIENT, s.clients[c].conn, t)
    case ServerDisconnect(id, subId) =>
      var r := ServerById(s, id);
      if r == NULL || EntryByMem(s, r, subId) == NULL then []
      else DisconnectNotes(s, SERVER, s.entries[EntryByMem(s, r, subId)], t)
    case ServerUnregister(id) =>
      var r := ServerById(s, id);
      if r == NULL then [] else UnlinkAllNotes(s, ConnsBehind(s.entries, s.servers[r].entries), t)
    case Close(x) =>
      CleanServersNotes(s, s.tasks[x].servers, t)
      + CleanClientsNotes(CleanServers(s, s.tasks[x].servers), s.tasks[x].clients, t)
    case _ => []
  }

  // ---------- it arrives in the queue ----------

  ghost predicate Grew(s: State, s': State, t: Ref, q: seq<Notif>) {
    t in s.tasks && t in s'.tasks && s'.tasks[t].queue == s.tasks[t].queue + q
  }

  lemma NotifyGrew(s: State, who: Sender, kind: Kind, k: Ref, t: Ref)
    requires Inv(s) && k in s.conns && t in s.tasks
    ensures Grew(s, Notify(s, who, kind, k).0, t, Note(s, who, kind, k, t))
  {
    hide Inv;
    SendSucceeds(s, k, kind);
  }

  lemma UnlinkGrew(s: State, k: Ref, t: Ref)
    requires Inv(s) && k in s.conns && t in s.tasks
    ensures Sendable(s, k) && Grew(s, Unlink(s, k), t, UnlinkNotes(s, k, t))
  {
    hide Inv, DropConn;
    UnlinkShape(s, k);
    var told := Push(s, ClientTask(s, k), ToClient(s, k, REMOTE_DISCONNECT));
    DropConnTasks(Push(told, ServerTask(s, k), ToServer(s, k, REMOTE_DISCONNECT)), k);
  }

  lemma {:induction false} UnlinkAllGrew(s: State, ks: seq<Ref>, t: Ref)
    requires Inv(s) && Distinct(ks) && (forall k <- ks :: k in s.conns) && t in s.tasks
    ensures Grew(s, UnlinkAll(s, ks), t, UnlinkAllNotes(s, ks, t))
    decreases |ks|
  {
    hide Inv, Unlink, Distinct, UnlinkNotes;
    if ks != [] {
      UnlinkInv(s, ks[0]);
      UnlinkGrew(s, ks[0], t);
      DistinctTail(ks);
      UnlinkAllGrew(Unlink(s, ks[0]), ks[1..], t);
    }
  }

  lemma {:induction false} CleanServersGrew(s: State, rs: seq<Ref>, t: Ref)
    requires Inv(s) && (forall r <- rs :: r in s.servers) && t in s.tasks
    ensures Grew(s, CleanServers(s, rs), t, CleanServersNotes(s, rs, t))
    decreases |rs|
  {
    hide Inv, Trimmed, OnlyDisconnects, Distinct, ConnsBehind, UnlinkAllNotes, UnlinkAll;
    if rs != [] {
      var s1 := CleanServer(s, rs[0]);
      ServerConns(s, rs[0]);
      UnlinkAllGrew(s, ConnsBehind(s.entries, s.servers[rs[0]].entries), t);
      CleanServerTornDown(s, rs[0]);
      TrimmedKeys(s, s1);
      CleanServersGrew(s1, rs[1..], t);
    }
  }

  lemma {:induction false} CleanClientsGrew(s: State, cs: seq<Ref>, t: Ref)
    requires Inv(s) && (forall c <- cs :: c in s.clients) && t in s.tasks
    ensures Grew(s, CleanClients(s, cs), t, CleanClientsNotes(s, cs, t))
    decreases |cs|
  {
    hide Inv, Trimmed, OnlyDisconnects, UnlinkAllNotes, UnlinkAll;
    if cs != [] {
      var s1 := CleanClient(s, cs[0]);
      if s.clients[cs[0]].conn != NULL {
        ConnOfClient(s, cs[0]);
        UnlinkAllGrew(s, [s.clients[cs[0]].conn], t);
      }
      CleanClientTornDown(s, cs[0]);
      TrimmedKeys(s, s1);
      CleanClientsGrew(s1, cs[1..], t);
    }
  }

  lemma DisconnectGrew(s: State, who: Sender, k: Ref, t: Ref)
    requires Inv(s) && k in s.conns && t in s.tasks
    ensures Grew(s, UnlinkAll(Notify(s, who, REMOTE_DISCONNECT, k).0, [k]), t, DisconnectNotes(s, who, k, t))
  {
    hide Inv, Notify, UnlinkAll, UnlinkAllNotes, Note;
    NotifyInv(s, who, REMOTE_DISCONNECT, k);
    NotifyGrew(s, who, REMOTE_DISCONNECT, k, t);
    UnlinkAllGrew(Notify(s, who, REMOTE_DISCONNECT, k).0, [k], t);
  }

  // ---------- each system call ----------

  /** What a read takes off its own queue. */
  function Taking(s: State, cmd: Cmd, t: Ref): seq<Notif>
    requires CmdOk(s, cmd)
  {
    if cmd.Read? && cmd.t == t && !s.tasks[t].monitor && s.tasks[t].queue != [] then [s.tasks[t].queue[0]] else []
  }

  /** The queue of a task after a system call: what was there, less what was read, plus what was sent. */
  ghost predicate Conserves(s: State, cmd: Cmd, t: Ref)
    requires CmdOk(s, cmd)
  {
    var s' := Step(s, cmd).0;
    t in s.tasks && t in s'.tasks ==>
      Taking(s, cmd, t) + s'.tasks[t].queue == s.tasks[t].queue + SentBy(s, cmd, t)
  }

  lemma ClientMessageConserves(s: State, id: int, t: Ref)
    requires Inv(s) && t in s.tasks
    ensures Conserves(s, ClientEndWriting(id), t)
  {
    hide Inv, Notify, Note;
    var c := ClientById(s, id);
    if c != NULL && s.clients[c].conn != NULL {
      ConnOfClient(s, c);
      NotifyGrew(s, CLIENT, NEW_MESSAGE, s.clients[c].conn, t);
    }
  }

  lemma ClientLeaves(s: State, id: int, t: Ref)
    requires Inv(s) && t in s.tasks
    ensures Conserves(s, ClientDisconnect(id), t)
    ensures Conserves(s, ClientUnregister(id), t)
  {
    hide Inv, Notify, UnlinkAll, DisconnectNotes;
    var c := ClientById(s, id);
    if c != NULL && s.clients[c].conn != NULL {
      ConnOfClient(s, c);
      DisconnectGrew(s, CLIENT, s.clients[c].conn, t);
    }
  }

  lemma ServerMessageConserves(s: State, id: int, subId: int, t: Ref)
    requires Inv(s) && t in s.tasks
    ensures Conserves(s, ServerEndWriting(id, subId), t)
  {
    hide Inv, Notify, Note;
    var r := ServerById(s, id);
    if r != NULL {
      var e := EntryByMem(s, r, subId);
      if e != NULL {
        NotifyGrew(s, SERVER, NEW_MESSAGE, s.entries[e], t);
      }
    }
  }

  lemma ServerDisconnectConserves(s: State, id: int, subId: int, t: Ref)
    requires Inv(s) && t in s.tasks
    ensures Conserves(s, ServerDisconnect(id, subId), t)
  {
    hide Inv, Notify, UnlinkAll, DisconnectNotes;
    var r := ServerById(s, id);
    if r != NULL {
      var e := EntryByMem(s, r, subId);
      if e != NULL {
        DisconnectGrew(s, SERVER, s.entries[e], t);
      }
    }
  }

  lemma ServerUnregisterConserves(s: State, id: int, t: Ref)
    requires Inv(s) && t in s.tasks
    ensures Conserves(s, ServerUnregister(id), t)
  {
    hide Inv, UnlinkAll, UnlinkAllNotes, ConnsBehind, Distinct;
    var r := ServerById(s, id);
    if r != NULL {
      ServerConns(s, r);
      UnlinkAllGrew(s, ConnsBehind(s.entries, s.servers[r].entries), t);
    }
  }

  lemma MmapConserves(s: State, id: int, subId: int, t: Ref)
    requires Inv(s) && t in s.tasks
    ensures Conserves(s, Mmap(id, subId), t)
  {
    hide Inv, Notify, Note;
    var c := ClientById(s, id);
    if c != NULL && s.clients[c].conn != NULL {
      ConnOfClient(s, c);
      var k := s.clients[c].conn;
      NotifyGrew(s, CLIENT, NEW_CONNECTION, k, t);
      PackingSucceeds(s, c, k);
    }
  }

  /** The packing of live identifiers never looks like an error. */
  lemma PackingSucceeds(s: State, c: Ref, k: Ref)
    requires Inv(s) && c in s.clients && k in s.conns
    ensures s.conns[k].mem in s.subs
    ensures IdSpace.PackIds(s.clients[c].id, s.subs[s.conns[k].mem].id) != IdSpace.WORD - IdSpace.EINVAL
  {
    hide Inv;
    ConnIntact(s, k);
    IdsSmall(s);
    IdSpace.PackErrorAmbiguity(s.clients[c].id, s.subs[s.conns[k].mem].id);
  }

  lemma IdsSmall(s: State)
    requires Inv(s)
    ensures forall c <- s.clients :: 0 <= s.clients[c].id < ID_BUDGET
    ensures forall u <- s.subs :: 0 <= s.subs[u].id < ID_BUDGET
  {
    hide Linked, Listed, Owned, Pooled, Separate, Named, Enumerated;
    var h := HoldersOf(s);
    forall c <- s.clients ensures 0 <= s.clients[c].id < ID_BUDGET {
      assert h.Live(OfClient(c)) && h.IdOf(OfClient(c)) in s.ids;
    }
    forall u <- s.subs ensures 0 <= s.subs[u].id < ID_BUDGET {
      assert h.Live(OfSub(u)) && h.IdOf(OfSub(u)) in s.ids;
    }
  }

  lemma CloseConserves(s: State, x: Ref, t: Ref)
    requires Inv(s) && t in s.tasks && x in s.tasks
    ensures Conserves(s, Close(x), t)
  {
    hide Inv, CleanServers, CleanClients, DestroyServers, DestroyClients, CleanServersNotes, CleanClientsNotes,
         Trimmed, OnlyDisconnects, Distinct, Touches, OwnIds;
    var rs, cs := s.tasks[x].servers, s.tasks[x].clients;
    TaskMembers(s, x);
    CleanServersGrew(s, rs, t);
    CleanServersTornDown(s, rs);
    var s1 := CleanServers(s, rs);
    TrimmedKeys(s, s1);
    CleanClientsGrew(s1, cs, t);
    DisconnectedEffect(s, x);
    var s2 := Disconnected(s, x);
    DisconnectedUntouched(s, x);
    DisconnectsParts(s.tasks, s2.tasks, x);
    DestroyEffect(s2, x);
  }

  lemma DisconnectedUntouched(s: State, x: Ref)
    requires Inv(s) && x in s.tasks
    ensures var s2 := Disconnected(s, x);
            x in s2.tasks && OnlyDisconnects(s.tasks, s2.tasks) && forall k <- s2.conns :: !Touches(s2, x, k)
  {
    hide Inv, Trimmed, OnlyDisconnects, CleanServers, CleanClients;
    DisconnectedEffect(s, x);
    var s2 := Disconnected(s, x);
    TrimmedKeys(s, s2);
    DisconnectsParts(s.tasks, s2.tasks, x);
  }

  lemma ReadConserves(s: State, x: Ref, count: int, t: Ref)
    requires x in s.tasks && t in s.tasks
    ensures Conserves(s, Read(x, count), t)
  {
    hide SentBy;
    assert SentBy(s, Read(x, count), t) == [] by {
      QuietCall(s, Read(x, count), t);
    }
  }

  lemma QuietCall(s: State, cmd: Cmd, t: Ref)
    requires CmdOk(s, cmd)
    requires cmd.Read? || cmd.Open? || cmd.RegisterServer? || cmd.RegisterClient? || cmd.RegisterMonitor? ||
            cmd.Connect?
    ensures SentBy(s, cmd, t) == []
  {
    hide CmdOk;
  }

  lemma RegisterConserves(s: State, cmd: Cmd, t: Ref)
    requires Inv(s) && CmdOk(s, cmd) && t in s.tasks
    requires cmd.Open? || cmd.RegisterServer? || cmd.RegisterClient? || cmd.RegisterMonitor?
    ensures Conserves(s, cmd, t)
  {
    hide Inv, SentBy, Registered, HasMonitor, ServerByName, IdSpace.GenerateId, Taken;
    QuietCall(s, cmd, t);
  }

  lemma ConnectConserves(s: State, id: int, name: string, k: Ref, e: Ref, p: Ref, us: seq<Ref>, t: Ref)
    requires Inv(s) && CmdOk(s, Connect(id, name, k, e, p, us)) && t in s.tasks
    ensures Conserves(s, Connect(id, name, k, e, p, us), t)
  {
    hide Inv, SentBy, Distinct, FreeSub, WithRoom;
    QuietCall(s, Connect(id, name, k, e, p, us), t);
    var c := ClientById(s, id);
    if c != NULL && s.clients[c].conn == NULL {
      WithRoomInv(s, c, p, us);
    }
  }

  /** No call loses, invents or reorders a notification. */
  lemma StepConserves(s: State, cmd: Cmd, t: Ref)
    requires Reachable(s) && CmdOk(s, cmd) && t in s.tasks
    ensures Conserves(s, cmd, t)
  {
    hide Inv, Reachable, Conserves;
    ReachableInv(s);
    match cmd
    case Open(_, _) => RegisterConserves(s, cmd, t);
    case RegisterServer(_, _, _) => RegisterConserves(s, cmd, t);
    case RegisterClient(_, _) => RegisterConserves(s, cmd, t);
    case RegisterMonitor(_) => RegisterConserves(s, cmd, t);
    case Connect(id, name, k, e, p, us) => ConnectConserves(s, id, name, k, e, p, us, t);
    case ClientEndWriting(id) => ClientMessageConserves(s, id, t);
    case ServerEndWriting(id, subId) => ServerMessageConserves(s, id, subId, t);
    case ClientDisconnect(id) => ClientLeaves(s, id, t);
    case ServerDisconnect(id, subId) => ServerDisconnectConserves(s, id, subId, t);
    case ClientUnregister(id) => ClientLeaves(s, id, t);
    case ServerUnregister(id) => ServerUnregisterConserves(s, id, t);
    case Mmap(id, subId) => MmapConserves(s, id, subId, t);
    case Read(x, count) => ReadConserves(s, x, count, t);
    case Close(x) => CloseConserves(s, x, t);
  }

  // ---------- whole runs ----------

  /** The task exists, without interruption, from state i to state j of a run. */
  ghost predicate Alive(states: seq<State>, t: Ref, i: nat, j: nat) {
    i <= j < |states| && forall x | i <= x <= j :: t in states[x].tasks
  }

  ghost function Sent(states: seq<State>, cmds: seq<Cmd>, t: Ref, i: nat, j: nat): seq<Notif>
    requires Behavior(states, cmds) && i <= j <= |cmds|
  {
    if i == j then [] else Sent(states, cmds, t, i, j - 1) + SentBy(states[j - 1], cmds[j - 1], t)
  }

  ghost function TakenOff(states: seq<State>, cmds: seq<Cmd>, t: Ref, i: nat, j: nat): seq<Notif>
    requires Behavior(states, cmds) && i <= j <= |cmds|
  {
    if i == j then [] else TakenOff(states, cmds, t, i, j - 1) + Taking(states[j - 1], cmds[j - 1], t)
  }

  /** What readers received: a read with too small a buffer receives nothing. */
  ghost function Delivered(states: seq<State>, cmds: seq<Cmd>, t: Ref, i: nat, j: nat): seq<Notif>
    requires Behavior(states, cmds) && i <= j <= |cmds|
  {
    if i == j then [] else
      Delivered(states, cmds, t, i, j - 1) +
      (if cmds[j - 1].Read? && cmds[j - 1].count < NOTIF_SIZE then [] else Taking(states[j - 1], cmds[j - 1], t))
  }

  /** A read that found a notification and had no room for it. */
  ghost predicate Wasted(s: State, cmd: Cmd, t: Ref)
    requires CmdOk(s, cmd)
  {
    cmd.Read? && cmd.count < NOTIF_SIZE && Taking(s, cmd, t) != []
  }

  lemma {:induction false} QueueConserved(states: seq<State>, cmds: seq<Cmd>, t: Ref, i: nat, j: nat)
    requires Behavior(states, cmds) && Alive(states, t, i, j)
    ensures TakenOff(states, cmds, t, i, j) + states[j].tasks[t].queue == states[i].tasks[t].queue +
            Sent(states, cmds, t, i, j)
    ensures states[j].tasks[t].pending == |states[j].tasks[t].queue|
    decreases j
  {
    hide Inv, Reachable, CmdOk, Step, SentBy, Taking;
    AlwaysInv(states, cmds, j);
    PendingExact(states[j], t);
    if i < j {
      QueueConserved(states, cmds, t, i, j - 1);
      AlwaysInv(states, cmds, j - 1);
      RunReachable(states, cmds, j - 1);
      StepConserves(states[j - 1], cmds[j - 1], t);
      Chain(TakenOff(states, cmds, t, i, j - 1), states[j - 1].tasks[t].queue, states[i].tasks[t].queue,
          Sent(states, cmds, t, i, j - 1),
            Taking(states[j - 1], cmds[j - 1], t), states[j].tasks[t].queue, SentBy(states[j - 1], cmds[j - 1], t));
    }
  }

  lemma Chain<T>(took: seq<T>, q: seq<T>, first: seq<T>, sent: seq<T>, takes: seq<T>, q': seq<T>, sends: seq<T>)
    requires took + q == first + sent && takes + q' == q + sends
    ensures (took + takes) + q' == first + (sent + sends)
  {
    assert (took + takes) + q' == took + (takes + q');
    assert took + (q + sends) == (took + q) + sends;
    assert (first + sent) + sends == first + (sent + sends);
  }

  lemma PendingExact(s: State, t: Ref)
    requires Inv(s) && t in s.tasks
    ensures s.tasks[t].pending == |s.tasks[t].queue|
  {
    hide Inv, Distinct;
    TaskCounters(s, t);
  }

  lemma {:induction false} DeliveredTaken(states: seq<State>, cmds: seq<Cmd>, t: Ref, i: nat, j: nat)
    requires Behavior(states, cmds) && i <= j <= |cmds|
    ensures |Delivered(states, cmds, t, i, j)| <= |TakenOff(states, cmds, t, i, j)|
    ensures |Delivered(states, cmds, t, i, j)| == |TakenOff(states, cmds, t, i, j)| <==>
              forall x | i <= x < j :: !Wasted(states[x], cmds[x], t)
    ensures (forall x | i <= x < j :: !Wasted(states[x], cmds[x], t)) ==>
            Delivered(states, cmds, t, i, j) == TakenOff(states, cmds, t, i, j)
    decreases j
  {
    hide CmdOk, Step;
    if i < j {
      DeliveredTaken(states, cmds, t, i, j - 1);
    }
  }

  /** Readers have received, in order, exactly what was sent and is not queued any more, if and only if none of
      them offered too small a buffer for a notification that was there. */
  lemma DeliveredExactly(states: seq<State>, cmds: seq<Cmd>, t: Ref, i: nat, j: nat)
    requires Behavior(states, cmds) && Alive(states, t, i, j)
    ensures Delivered(states, cmds, t, i, j) + states[j].tasks[t].queue == states[i].tasks[t].queue +
            Sent(states, cmds, t, i, j)
            <==> forall x | i <= x < j :: !Wasted(states[x], cmds[x], t)
  {
    hide Wasted, Step, CmdOk;
    QueueConserved(states, cmds, t, i, j);
    DeliveredTaken(states, cmds, t, i, j);
  }
}
