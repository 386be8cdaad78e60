/** What holds over whole runs of the driver: identifiers, pools and queues. */
module DriverRuns {
  import opened Seqs
  import opened IdSpace
  import opened DriverModel
  import opened DriverInvariant
  import opened DriverBudget
  import opened DriverCommands
  import opened DriverTeardown
  import opened DriverSteps
  import DriverPreservation
  import DriverFacts
  import DriverClose

  // ---------- identifiers ----------

  /** In every reachable state live objects have pairwise distinct identifiers below the budget, and the
      identifiers in use are exactly theirs. */
  lemma IdsDistinct(states: seq<State>, cmds: seq<Cmd>, i: nat, o: Owner, o': Owner)
    requires Behavior(states, cmds) && i < |states|
    requires HoldersOf(states[i]).Live(o) && HoldersOf(states[i]).Live(o')
    ensures var h := HoldersOf(states[i]);
            && 0 <= h.IdOf(o) < ID_BUDGET
            && (h.IdOf(o) == h.IdOf(o') ==> o == o')
            && PackIds(h.IdOf(o), h.IdOf(o')) != WORD - EINVAL
            && |states[i].ids| == |states[i].servers| + |states[i].clients| + 5 * |states[i].pools| <= ID_BUDGET
  {
    AlwaysInv(states, cmds, i);
    IdBudget(states[i]);
    hide Behavior, Linked, Listed, Owned, Pooled, Separate, Named, Enumerated;
    var h := HoldersOf(states[i]);
    assert h.IdOf(o) in states[i].ids && h.IdOf(o') in states[i].ids;
    PackErrorAmbiguity(h.IdOf(o), h.IdOf(o'));
  }

  /** generate_id never reports exhaustion: whenever a call goes on to allocate, a valid identifier is free
      for each of the objects it creates. */
  lemma NeverExhausted(states: seq<State>, cmds: seq<Cmd>, i: nat)
    requires Behavior(states, cmds) && i < |cmds|
    ensures var s := states[i];
            match cmds[i]
            case RegisterServer(t, name, r) => RegisterServerStep(s, t, name, r).1 == 0 ==> ValidId(GenerateId(s.ids))
            case RegisterClient(t, c) => RegisterClientStep(s, t, c).1 == 0 ==> ValidId(GenerateId(s.ids))
            case Connect(id, name, k, e, p, us) =>
              ConnectStep(s, id, name, k, e, p, us).1 == 0 && FreeSub(s, s.poolList) == NULL ==>
                |AddPool(s, p, us).ids| == |s.ids| + 5
            case _ => true
  {
    AlwaysInv(states, cmds, i);
    var s := states[i];
    hide Inv, AddPool, GenerateId, Distinct, FreeSub, ConnectTo;
    match cmds[i]
    case RegisterServer(t, name, r) =>
      if RegisterServerStep(s, t, name, r).1 == 0 {
        DriverPreservation.IdRoom(s, t);
        GenerateDense(s.ids);
      }
    case RegisterClient(t, c) =>
      if RegisterClientStep(s, t, c).1 == 0 {
        DriverPreservation.IdRoom(s, t);
        GenerateDense(s.ids);
      }
    case Connect(id, name, k, e, p, us) =>
      if ConnectStep(s, id, name, k, e, p, us).1 == 0 && FreeSub(s, s.poolList) == NULL {
        NewPoolIds(s, id, name, k, e, p, us);
      }
    case _ =>
  }

  lemma NewPoolIds(s: State, id: int, name: string, k: Ref, e: Ref, p: Ref, us: seq<Ref>)
    requires Inv(s) && CmdOk(s, Connect(id, name, k, e, p, us))
    requires ConnectStep(s, id, name, k, e, p, us).1 == 0 && FreeSub(s, s.poolList) == NULL
    ensures |AddPool(s, p, us).ids| == |s.ids| + 5
  {
    hide Inv, AddPool, Distinct;
    AllTaken(s);
    PoolBudget(s, ClientById(s, id));
    DriverPreservation.AddPoolInv(s, p, us);
    IdBudget(s);
    IdBudget(AddPool(s, p, us));
  }

  // ---------- pools ----------

  /** A call makes at most one connection, and then a pool exactly when all sub-memories were in use. */
  ghost predicate CountsStep(s: State, s': State) {
    || (|s'.conns| <= |s.conns| && s'.pools == s.pools)
    || (|s'.conns| == |s.conns| + 1 && |s'.pools| == |s.pools| +
        (if |s.conns| == SHM_POOL_SIZE * |s.pools| then 1 else 0))
  }

  lemma FewerConns(s: State, s': State)
    requires s'.conns.Keys <= s.conns.Keys && s'.pools == s.pools
    ensures CountsStep(s, s')
  {
    SubsetSize(s'.conns.Keys, s.conns.Keys);
    assert |s'.conns.Keys| == |s'.conns| && |s.conns.Keys| == |s.conns|;
  }

  lemma ConnectCounts(s: State, id: int, name: string, k: Ref, e: Ref, p: Ref, us: seq<Ref>)
    requires Inv(s) && CmdOk(s, Connect(id, name, k, e, p, us))
    ensures CountsStep(s, ConnectStep(s, id, name, k, e, p, us).0)
  {
    hide Inv, WithRoom, FreeSub, Distinct;
    if ConnectStep(s, id, name, k, e, p, us).1 == 0 {
      WithRoomInv(s, ClientById(s, id), p, us);
    }
  }

  lemma DisconnectCounts(s: State, who: Sender, k: Ref)
    requires Inv(s) && k in s.conns
    ensures var s' := UnlinkAll(Notify(s, who, REMOTE_DISCONNECT, k).0, [k]);
            s'.conns.Keys <= s.conns.Keys && s'.pools == s.pools
  {
    hide Inv, Notify, UnlinkAll, Trimmed, OnlyDisconnects;
    DisconnectTornDown(s, who, k);
    DriverClose.TrimmedKeys(s, UnlinkAll(Notify(s, who, REMOTE_DISCONNECT, k).0, [k]));
  }

  lemma ClientCallCounts(s: State, id: int)
    requires Inv(s)
    ensures CountsStep(s, ClientDisconnectStep(s, id).0)
    ensures CountsStep(s, ClientUnregisterStep(s, id).0)
  {
    hide Inv, Notify, UnlinkAll, CountsStep;
    var c := ClientById(s, id);
    if c != NULL && s.clients[c].conn != NULL {
      DriverFacts.ConnOfClient(s, c);
      DisconnectCounts(s, CLIENT, s.clients[c].conn);
    }
    FewerConns(s, ClientDisconnectStep(s, id).0);
    FewerConns(s, ClientUnregisterStep(s, id).0);
  }

  lemma ServerCallCounts(s: State, id: int, subId: int)
    requires Inv(s)
    ensures CountsStep(s, ServerDisconnectStep(s, id, subId).0)
    ensures CountsStep(s, ServerUnregisterStep(s, id).0)
  {
    hide Inv, Notify, UnlinkAll, CleanServer, CountsStep, Trimmed, OnlyDisconnects;
    var r := ServerById(s, id);
    if r != NULL {
      CleanServerTornDown(s, r);
      DriverClose.TrimmedKeys(s, CleanServer(s, r));
      var e := EntryByMem(s, r, subId);
      if e != NULL {
        DisconnectCounts(s, SERVER, s.entries[e]);
      }
    }
    FewerConns(s, ServerDisconnectStep(s, id, subId).0);
    FewerConns(s, ServerUnregisterStep(s, id).0);
  }

  lemma NotifyKeeps(s: State, who: Sender, kind: Kind, k: Ref)
    ensures Notify(s, who, kind, k).0.conns == s.conns && Notify(s, who, kind, k).0.pools == s.pools
  {
  }

  lemma NotifyCounts(s: State, who: Sender, kind: Kind, k: Ref)
    ensures CountsStep(s, Notify(s, who, kind, k).0)
    ensures CountsStep(s, MapClient(s, k))
  {
    hide Notify, CountsStep;
    NotifyKeeps(s, who, kind, k);
    NotifyKeeps(s, CLIENT, NEW_CONNECTION, k);
    FewerConns(s, Notify(s, who, kind, k).0);
    FewerConns(s, MapClient(s, k));
  }

  lemma SendCounts(s: State, id: int, subId: int)
    ensures CountsStep(s, ClientEndWritingStep(s, id).0)
    ensures CountsStep(s, ServerEndWritingStep(s, id, subId).0)
    ensures CountsStep(s, MmapStep(s, id, subId).0)
  {
    hide Notify, CountsStep, MapClient;
    var c, r := ClientById(s, id), ServerById(s, id);
    FewerConns(s, s);
    if c != NULL {
      NotifyCounts(s, CLIENT, NEW_MESSAGE, s.clients[c].conn);
    }
    if r != NULL {
      var e := EntryByMem(s, r, subId);
      if e != NULL {
        NotifyCounts(s, SERVER, NEW_MESSAGE, s.entries[e]);
      }
    }
  }

  lemma CloseCounts(s: State, t: Ref)
    requires Inv(s) && t in s.tasks
    ensures CountsStep(s, CloseTask(s, t))
  {
    DriverClose.CloseTaskEffect(s, t);
    hide Inv, CloseTask, Trimmed, OnlyDisconnects, TrimmedSubs, TrimmedEntries, CountsStep, DriverClose.Touches,
         DriverClose.OwnIds;
    FewerConns(s, CloseTask(s, t));
  }

  lemma OpenCounts(s: State, process: nat, t: Ref)
    ensures CountsStep(s, OpenStep(s, process, t).0)
  {
    hide CountsStep, Registered;
    FewerConns(s, OpenStep(s, process, t).0);
  }

  lemma RegisterCounts(s: State, t: Ref, name: string, x: Ref)
    requires t in s.tasks
    ensures CountsStep(s, RegisterServerStep(s, t, name, x).0)
    ensures CountsStep(s, RegisterClientStep(s, t, x).0)
  {
    hide GenerateId, Taken, ServerByName, CountsStep;
    FewerConns(s, RegisterServerStep(s, t, name, x).0);
    FewerConns(s, RegisterClientStep(s, t, x).0);
  }

  lemma TaskCallCounts(s: State, t: Ref, count: int)
    requires t in s.tasks
    ensures CountsStep(s, RegisterMonitorStep(s, t).0)
    ensures CountsStep(s, ReadStep(s, t, count).0)
  {
    hide CountsStep, RegisterMonitorStep, ReadStep;
    TaskCallKeeps(s, t, count);
    FewerConns(s, RegisterMonitorStep(s, t).0);
    FewerConns(s, ReadStep(s, t, count).0);
  }

  lemma TaskCallKeeps(s: State, t: Ref, count: int)
    requires t in s.tasks
    ensures RegisterMonitorStep(s, t).0.conns == s.conns && RegisterMonitorStep(s, t).0.pools == s.pools
    ensures ReadStep(s, t, count).0.conns == s.conns && ReadStep(s, t, count).0.pools == s.pools
  {
    hide HasMonitor;
  }

  lemma StepCounts(s: State, cmd: Cmd)
    requires Inv(s) && CmdOk(s, cmd)
    ensures CountsStep(s, Step(s, cmd).0)
  {
    hide Inv, OpenStep, RegisterServerStep, RegisterClientStep, RegisterMonitorStep, ReadStep, ConnectStep,
         ClientEndWritingStep, ServerEndWritingStep, ClientDisconnectStep, ServerDisconnectStep, ClientUnregisterStep,
         ServerUnregisterStep, MmapStep, CloseTask, Distinct, CountsStep;
    match cmd
    case Open(process, t) => OpenCounts(s, process, t);
    case RegisterServer(t, name, r) => RegisterCounts(s, t, name, r);
    case RegisterClient(t, c) => RegisterCounts(s, t, "", c);
    case RegisterMonitor(t) => TaskCallCounts(s, t, 0);
    case Read(t, count) => TaskCallCounts(s, t, count);
    case Connect(id, name, k, e, p, us) => ConnectCounts(s, id, name, k, e, p, us);
    case ClientEndWriting(id) => SendCounts(s, id, 0);
    case ServerEndWriting(id, subId) => SendCounts(s, id, subId);
    case Mmap(id, subId) => SendCounts(s, id, subId);
    case ClientDisconnect(id) => ClientCallCounts(s, id);
    case ServerDisconnect(id, subId) => ServerCallCounts(s, id, subId);
    case ClientUnregister(id) => ClientCallCounts(s, id);
    case ServerUnregister(id) => ServerCallCounts(s, id, 0);
    case Close(t) => CloseCounts(s, t);
  }

  /** The largest number of simultaneous connections in the first i + 1 states. */
  ghost function Peak(states: seq<State>, i: nat): nat
    requires i < |states|
  {
    if i == 0 then |states[0].conns|
    else if |states[i].conns| > Peak(states, i - 1) then |states[i].conns| else Peak(states, i - 1)
  }

  lemma PoolsSuffice(s: State)
    requires Inv(s)
    ensures |s.conns| == |UsedSubs(s.subs)| <= SHM_POOL_SIZE * |s.pools|
  {
    hide Listed, Owned, Identified, Separate, Named, Enumerated, Pooled, Linked;
    PoolSizes(s.pools, s.subs.Keys);
    UsedCount(s.conns, s.clients, s.subs);
    SubsetSize(UsedSubs(s.subs), s.subs.Keys);
  }

  /** At every point of every run there are exactly as many pools as the largest number of simultaneous
      connections so far needs, four to a pool; each connection uses one sub-memory of its own. */
  lemma {:induction false} PoolsTight(states: seq<State>, cmds: seq<Cmd>, i: nat)
    requires Behavior(states, cmds) && i < |states|
    ensures |states[i].pools| == (Peak(states, i) + SHM_POOL_SIZE - 1) / SHM_POOL_SIZE
    ensures |states[i].conns| == |UsedSubs(states[i].subs)|
  {
    hide Inv, CmdOk, Step;
    AlwaysInv(states, cmds, i);
    PoolsSuffice(states[i]);
    if i > 0 {
      AlwaysInv(states, cmds, i - 1);
      PoolsSuffice(states[i - 1]);
      StepCounts(states[i - 1], cmds[i - 1]);
      PoolsTight(states, cmds, i - 1);
    }
  }
}
