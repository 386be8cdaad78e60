/** Every system call keeps the invariant, so every reachable state has it. */
module DriverSteps {
  import opened Seqs
  import opened DriverModel
  import opened DriverInvariant
  import opened DriverPreservation
  import opened DriverCommands
  import opened DriverFacts
  import opened DriverTeardown
  import DriverBudget
  import DriverClose

  // ---------- each system call keeps the invariant ----------

  lemma OpenInv(s: State, process: nat, t: Ref)
    requires Inv(s) && t != NULL && t !in s.tasks
    ensures Inv(OpenStep(s, process, t).0)
  {
    hide Inv;
    if |s.taskList| < MAX_PROCESSES && !Registered(s, process) {
      AddTaskInv(s, t, process);
    }
  }

  lemma RegisterServerInv(s: State, t: Ref, name: string, r: Ref)
    requires Inv(s) && t in s.tasks && r != NULL && r !in s.servers
    ensures Inv(RegisterServerStep(s, t, name, r).0)
  {
    hide Inv;
    InvParts(s);
    if RegisterServerStep(s, t, name, r).1 == 0 {
      AddServerInv(s, t, r, name);
    }
  }

  lemma RegisterClientInv(s: State, t: Ref, c: Ref)
    requires Inv(s) && t in s.tasks && c != NULL && c !in s.clients
    ensures Inv(RegisterClientStep(s, t, c).0)
  {
    hide Inv;
    if RegisterClientStep(s, t, c).1 == 0 {
      AddClientInv(s, t, c);
    }
  }

  lemma RegisterMonitorInv(s: State, t: Ref)
    requires Inv(s) && t in s.tasks
    ensures Inv(RegisterMonitorStep(s, t).0)
  {
    TaskCounters(s, t);
    hide Inv, Distinct;
    if RegisterMonitorStep(s, t).1 == 0 {
      SetMonitorInv(s, t);
    }
  }

  // ---------- connecting ----------

  /** Room is made for one more connection: afterwards there is a free sub-memory, and a pool was added
      exactly when there had been none. */
  lemma WithRoomInv(s: State, c: Ref, p: Ref, us: seq<Ref>)
    requires Inv(s) && c in s.clients && s.clients[c].conn == NULL
    requires p !in s.pools && p != NULL
    requires |us| == SHM_POOL_SIZE && Distinct(us) && forall u <- us :: u != NULL && u !in s.subs
    ensures var s1 := WithRoom(s, p, us);
            && Inv(s1) && OnlyPools(s, s1)
            && FreeSub(s1, s1.poolList) in s1.subs && FreeSub(s1, s1.poolList) != NULL
            && s1.subs[FreeSub(s1, s1.poolList)].conn == NULL
            && |s1.pools| == |s.pools| + (if |s.conns| == SHM_POOL_SIZE * |s.pools| then 1 else 0)
  {
    hide Inv, AddPool, FreeSub;
    InvParts(s);
    if FreeSub(s, s.poolList) == NULL {
      AllTaken(s);
      DriverBudget.PoolBudget(s, c);
      AddPoolInv(s, p, us);
      NewPoolFree(s, p, us);
    } else {
      SomeFree(s, FreeSub(s, s.poolList));
    }
  }

  lemma AllTaken(s: State)
    requires Inv(s) && FreeSub(s, s.poolList) == NULL
    ensures forall u <- s.subs :: s.subs[u].conn != NULL
  {
    InvParts(s);
    SubsInPools(s.pools, s.subs.Keys);
    hide Inv, FreeSub;
    forall u <- s.subs ensures s.subs[u].conn != NULL {
      assert InPool(s.pools, u);
      var p :| p in s.pools && u in s.pools[p].subs;
      assert p in s.poolList;
    }
  }

  lemma SubsInPools(pools: map<Ref, Pool>, subs: set<Ref>)
    requires Pooled(pools, subs)
    ensures forall u <- subs :: InPool(pools, u)
  {
    hide Distinct;
  }

  lemma SomeFree(s: State, u: Ref)
    requires Inv(s) && u in s.subs && s.subs[u].conn == NULL
    ensures |s.conns| < SHM_POOL_SIZE * |s.pools|
  {
    hide Listed, Owned, Identified, Separate, Named, Enumerated, Pooled, Linked;
    DriverBudget.PoolSizes(s.pools, s.subs.Keys);
    DriverBudget.UsedCount(s.conns, s.clients, s.subs);
    SubsetSize(DriverBudget.UsedSubs(s.subs), s.subs.Keys - {u});
  }

  lemma NewPoolFree(s: State, p: Ref, us: seq<Ref>)
    requires p !in s.pools && |us| == SHM_POOL_SIZE && Distinct(us)
    requires forall u <- us :: u != NULL && u !in s.subs
    ensures var s1 := AddPool(s, p, us);
            FreeSub(s1, s1.poolList) == FreeIn(s1, us) == us[0] && us[0] in s1.subs && s1.subs[us[0]].conn == NULL
  {
    AddSubsEffect(s, us);
    var s1 := AddPool(s, p, us);
    assert us[0] in us;
    hide AddSubs;
    assert s1.poolList[0] == p && s1.pools[p].subs == us;
    assert FreeIn(s1, us) == us[0];
  }

  lemma ConnectInv(s: State, id: int, name: string, k: Ref, e: Ref, p: Ref, us: seq<Ref>)
    requires Inv(s) && CmdOk(s, Connect(id, name, k, e, p, us))
    ensures Inv(ConnectStep(s, id, name, k, e, p, us).0)
  {
    hide Inv, WithRoom, AddConn, FreeSub, Distinct;
    var c, r := ClientById(s, id), ServerByName(s, name);
    if ConnectStep(s, id, name, k, e, p, us).1 == 0 {
      WithRoomInv(s, c, p, us);
      var s1 := WithRoom(s, p, us);
      AddConnInv(s1, c, r, FreeSub(s1, s1.poolList), k, e);
    }
  }

  // ---------- messages, disconnection, mapping ----------

  lemma EndWritingInv(s: State, id: int, subId: int)
    requires Inv(s)
    ensures Inv(ClientEndWritingStep(s, id).0)
    ensures Inv(ServerEndWritingStep(s, id, subId).0)
  {
    hide Inv, Notify;
    var c := ClientById(s, id);
    if c != NULL && s.clients[c].conn != NULL {
      ConnOfClient(s, c);
      NotifyInv(s, CLIENT, NEW_MESSAGE, s.clients[c].conn);
    }
    var r := ServerById(s, id);
    if r != NULL {
      var e := EntryByMem(s, r, subId);
      if e != NULL {
        NotifyInv(s, SERVER, NEW_MESSAGE, s.entries[e]);
      }
    }
  }

  lemma ClientDisconnectInv(s: State, id: int)
    requires Inv(s)
    ensures Inv(ClientDisconnectStep(s, id).0)
  {
    hide Inv, Notify, UnlinkAll, Trimmed, OnlyDisconnects;
    var c := ClientById(s, id);
    if c != NULL && s.clients[c].conn != NULL {
      ConnOfClient(s, c);
      DisconnectTornDown(s, CLIENT, s.clients[c].conn);
    }
  }

  lemma ServerDisconnectInv(s: State, id: int, subId: int)
    requires Inv(s)
    ensures Inv(ServerDisconnectStep(s, id, subId).0)
  {
    hide Inv, Notify, UnlinkAll, Trimmed, OnlyDisconnects;
    var r := ServerById(s, id);
    if r != NULL {
      var e := EntryByMem(s, r, subId);
      if e != NULL {
        DisconnectTornDown(s, SERVER, s.entries[e]);
      }
    }
  }

  lemma ClientUnregisterInv(s: State, id: int)
    requires Inv(s)
    ensures Inv(ClientUnregisterStep(s, id).0)
  {
    hide Inv, Notify, UnlinkAll, Trimmed, OnlyDisconnects;
    var c := ClientById(s, id);
    if c != NULL && s.clients[c].conn != NULL {
      ConnOfClient(s, c);
      DisconnectTornDown(s, CLIENT, s.clients[c].conn);
      var s1 := ClientDisconnectStep(s, id).0;
      DriverClose.TrimmedKeys(s, s1);
      OnlyConnOfClient(s, c);
      DriverClose.NoConnsNoPointer(s1, c);
      RemoveClientInv(s1, c);
    }
  }

  lemma OnlyConnOfClient(s: State, c: Ref)
    requires Inv(s) && c in s.clients
    ensures forall k <- s.conns :: s.conns[k].client == c <==> s.clients[c].conn == k
  {
    hide Listed, Owned, Pooled, Identified, Separate, Named, Enumerated, Linked;
    ClientConn(s.conns, s.clients, s.subs, c);
  }

  lemma ServerUnregisterInv(s: State, id: int)
    requires Inv(s)
    ensures Inv(ServerUnregisterStep(s, id).0)
  {
    hide Inv, CleanServer, Trimmed, OnlyDisconnects;
    var r := ServerById(s, id);
    if r != NULL {
      CleanServerTornDown(s, r);
      var s1 := CleanServer(s, r);
      DriverClose.TrimmedKeys(s, s1);
      DriverClose.NoConnsNoEntries(s1, r);
      RemoveServerInv(s1, r);
    }
  }

  lemma MmapInv(s: State, targetId: int, subId: int)
    requires Inv(s)
    ensures Inv(MmapStep(s, targetId, subId).0)
  {
    hide Inv, Notify;
    var c := ClientById(s, targetId);
    if c != NULL && s.clients[c].conn != NULL {
      ConnOfClient(s, c);
      NotifyInv(s, CLIENT, NEW_CONNECTION, s.clients[c].conn);
      SetMappedInv(Notify(s, CLIENT, NEW_CONNECTION, s.clients[c].conn).0, s.clients[c].conn);
    }
  }

  lemma ReadInv(s: State, t: Ref, count: int)
    requires Inv(s) && t in s.tasks
    ensures Inv(ReadStep(s, t, count).0)
  {
    TaskCounters(s, t);
    hide Inv, Distinct;
    if !s.tasks[t].monitor && s.tasks[t].queue != [] {
      QueueInv(s, t, s.tasks[t].queue[1..]);
    }
  }

  /** Every system call keeps the invariant. */
  lemma StepInv(s: State, cmd: Cmd)
    requires Inv(s) && CmdOk(s, cmd)
    ensures Inv(Step(s, cmd).0)
  {
    hide Inv, OpenStep, RegisterServerStep, RegisterClientStep, RegisterMonitorStep, ConnectStep, ClientEndWritingStep,
         ServerEndWritingStep, ClientDisconnectStep, ServerDisconnectStep, ClientUnregisterStep, ServerUnregisterStep,
         MmapStep, ReadStep, CloseTask, Distinct;
    match cmd
    case Open(process, t) => OpenInv(s, process, t);
    case RegisterServer(t, name, r) => RegisterServerInv(s, t, name, r);
    case RegisterClient(t, c) => RegisterClientInv(s, t, c);
    case RegisterMonitor(t) => RegisterMonitorInv(s, t);
    case Connect(id, name, k, e, p, us) => ConnectInv(s, id, name, k, e, p, us);
    case ClientEndWriting(id) => EndWritingInv(s, id, 0);
    case ServerEndWriting(id, subId) => EndWritingInv(s, id, subId);
    case ClientDisconnect(id) => ClientDisconnectInv(s, id);
    case ServerDisconnect(id, subId) => ServerDisconnectInv(s, id, subId);
    case ClientUnregister(id) => ClientUnregisterInv(s, id);
    case ServerUnregister(id) => ServerUnregisterInv(s, id);
    case Mmap(targetId, subId) => MmapInv(s, targetId, subId);
    case Read(t, count) => ReadInv(s, t, count);
    case Close(t) => DriverClose.CloseTaskEffect(s, t);
  }

  lemma InitialInv()
    ensures Inv(INITIAL)
  {
    hide Linked, Listed, Owned, Pooled, Identified, Separate, Named, Enumerated;
    NoObjects();
    NoTasks();
    NoIds();
  }

  lemma NoObjects()
    ensures Linked(map[], map[], map[]) && Listed(map[], map[], map[]) && Named(map[]) && Pooled(map[], {})
  {
  }

  lemma NoTasks()
    ensures Owned(map[], map[], map[]) && Separate(map[])
    ensures Enumerated(INITIAL) && INITIAL.subs.Keys == {}
  {
  }

  lemma NoIds()
    ensures Identified({}, HoldersOf(INITIAL))
  {
  }

  /** Every state of every run of the driver satisfies the invariant. */
  lemma {:induction false} AlwaysInv(states: seq<State>, cmds: seq<Cmd>, i: nat)
    requires Behavior(states, cmds) && i < |states|
    ensures Inv(states[i])
  {
    hide Inv, CmdOk, Step;
    if i == 0 {
      InitialInv();
    } else {
      AlwaysInv(states, cmds, i - 1);
      StepInv(states[i - 1], cmds[i - 1]);
    }
  }

  // ---------- reachable states ----------

  /** Some run of the driver ends in this state. */
  ghost predicate Reachable(s: State) {
    exists states, cmds :: Behavior(states, cmds) && s == states[|cmds|]
  }

  lemma ReachableInv(s: State)
    requires Reachable(s)
    ensures Inv(s)
  {
    hide Inv, Step, CmdOk;
    var states, cmds :| Behavior(states, cmds) && s == states[|cmds|];
    AlwaysInv(states, cmds, |cmds|);
  }

  lemma StepReachable(s: State, cmd: Cmd)
    requires Reachable(s) && CmdOk(s, cmd)
    ensures Reachable(Step(s, cmd).0)
  {
    hide Step, CmdOk;
    var states, cmds :| Behavior(states, cmds) && s == states[|cmds|];
    assert Behavior(states + [Step(s, cmd).0], cmds + [cmd]);
  }

  lemma RunReachable(states: seq<State>, cmds: seq<Cmd>, i: nat)
    requires Behavior(states, cmds) && i < |states|
    ensures Reachable(states[i])
  {
    hide Step, CmdOk;
    assert Behavior(states[..i + 1], cmds[..i]);
  }
}
