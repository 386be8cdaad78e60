/** A server can get more clients than its table and its record in the snapshot have room for. */
module DriverCrowd {
  import opened Seqs
  import opened DriverModel
  import opened DriverInvariant
  import opened DriverCommands
  import opened DriverSteps
  import opened MirrorDriver
  import opened MirrorSteps
  import opened MirrorRuns
  import opened DriverOutcomes
  import DriverFacts
  import DriverTeardown
  import DriverChannels
  import Snapshot
  import IdSpace
  // ---------- runs grow at the end ----------

  ghost predicate EndsIn(states: seq<State>, cmds: seq<Cmd>, libs: seq<Tables>, s: State) {
    SystemRun(states, cmds, libs) && s == states[|cmds|]
  }

  /** Some run of the driver and the libraries ends in this state. */
  ghost predicate RunsTo(s: State) {
    exists states, cmds, libs :: EndsIn(states, cmds, libs, s)
  }

  lemma RunsOn(s: State, cmd: Cmd)
    requires RunsTo(s) && CmdOk(s, cmd) && WholeRead(cmd)
    ensures RunsTo(Step(s, cmd).0)
  {
    hide Step, CmdOk, LibStep, WholeRead;
    var states, cmds, libs :| EndsIn(states, cmds, libs, s);
    var states', cmds', libs' := states + [Step(s, cmd).0], cmds + [cmd], libs + [LibStep(s, cmd, libs[|cmds|])];
    assert EndsIn(states', cmds', libs', Step(s, cmd).0);
  }

  lemma RunsToReachable(s: State)
    requires RunsTo(s)
    ensures Reachable(s)
  {
    hide Step, CmdOk, LibStep, WholeRead;
    var states, cmds, libs :| EndsIn(states, cmds, libs, s);
    assert Behavior(states, cmds);
  }

  // ---------- unused addresses ----------

  function UpTo(n: nat): (xs: set<nat>)
    ensures |xs| == n && forall x :: x in xs <==> 0 < x <= n
  {
    if n == 0 then {} else UpTo(n - 1) + {n}
  }

  lemma Unused(used: set<Ref>) returns (x: Ref)
    ensures x != NULL && x !in used
  {
    if UpTo(|used| + 1) <= used {
      SubsetSize(UpTo(|used| + 1), used);
      assert false;
    }
    x :| x in UpTo(|used| + 1) && x !in used;
  }

  lemma UnusedFour(used: set<Ref>) returns (us: seq<Ref>)
    ensures |us| == SHM_POOL_SIZE && Distinct(us) && forall u <- us :: u != NULL && u !in used
  {
    var a := Unused(used);
    var b := Unused(used + {a});
    var c := Unused(used + {a, b});
    var d := Unused(used + {a, b, c});
    us := [a, b, c, d];
  }

  // ---------- one client more ----------

  /** Server 1 has as many mapped connections as its two tasks have clients. */
  ghost predicate Crowd(s: State, a: nat, b: nat) {
    && 1 in s.servers && s.servers[1].name == "s"
    && Housed(s, 1, a) && Housed(s, 2, b)
    && |MappedConns(s, 1)| == a + b
  }

  predicate Housed(s: State, t: Ref, n: nat) {
    t in s.tasks && !s.tasks[t].monitor && |s.tasks[t].clients| == n
  }

  /** Tasks keep their clients and the server its name. */
  ghost predicate Quietly(s: State, s': State) {
    && s'.tasks.Keys == s.tasks.Keys
    && (forall t <- s.tasks :: s'.tasks[t].monitor == s.tasks[t].monitor && s'.tasks[t].clients == s.tasks[t].clients)
    && (1 in s.servers ==> 1 in s'.servers && s'.servers[1].name == s.servers[1].name)
  }

  lemma RegisterEffect(s: State, t: Ref, c: Ref)
    requires Reachable(s) && CmdOk(s, RegisterClient(t, c)) && Housed(s, t, |s.tasks[t].clients|)
    requires |s.tasks[t].clients| < MAX_CLIENTS_PER_PID
    ensures var (s', ret) := Step(s, RegisterClient(t, c));
            && ret == 0 && c in s'.clients && s'.clients[c].conn == NULL
            && s'.servers == s.servers && s'.conns == s.conns && s'.tasks.Keys == s.tasks.Keys
            && (forall x <- s.tasks :: s'.tasks[x].monitor == s.tasks[x].monitor
                  && |s'.tasks[x].clients| == |s.tasks[x].clients| + (if x == t then 1 else 0))
  {
    hide Inv, Reachable, IdSpace.GenerateId, Taken;
    RegisterClientOutcome(s, t, c);
  }

  lemma ConnectEffects(s: State, cmd: Cmd)
    requires CmdOk(s, cmd) && Inv(s) && cmd.Connect? && Step(s, cmd).1 == 0
    ensures var s' := Step(s, cmd).0; s'.tasks == s.tasks && Quietly(s, s')
  {
    hide Inv, WithRoom, FreeSub, Distinct, AddConn;
    var c, r := ClientById(s, cmd.clientId), ServerByName(s, cmd.name);
    WithRoomInv(s, c, cmd.p, cmd.us);
    var s1 := WithRoom(s, cmd.p, cmd.us);
    AddConnRest(s1, c, r, FreeSub(s1, s1.poolList), cmd.k, cmd.e);
    AddConnNames1(s1, c, r, FreeSub(s1, s1.poolList), cmd.k, cmd.e);
  }

  lemma AddConnNames1(s: State, c: Ref, r: Ref, u: Ref, k: Ref, e: Ref)
    requires c in s.clients && r in s.servers && u in s.subs
    ensures Quietly(s, AddConn(s, c, r, u, k, e))
  {
  }

  lemma MmapEffect(s: State, cmd: Cmd)
    requires CmdOk(s, cmd) && Inv(s) && cmd.Mmap?
    ensures Quietly(s, Step(s, cmd).0)
  {
    hide Inv, Notify;
    var c := ClientById(s, cmd.targetId);
    if c != NULL && s.clients[c].conn != NULL {
      DriverFacts.ConnOfClient(s, c);
      NotifyQuiet(s, CLIENT, NEW_CONNECTION, s.clients[c].conn);
    }
  }

  lemma NotifyQuiet(s: State, who: Sender, kind: Kind, k: Ref)
    ensures var s' := Notify(s, who, kind, k).0; Quietly(s, s') && s'.servers == s.servers
  {
  }

  lemma NameUnique(s: State, r: Ref, r': Ref)
    requires Inv(s) && r in s.servers && r' in s.servers && s.servers[r].name == s.servers[r'].name
    ensures r == r'
  {
    hide Linked, Listed, Owned, Pooled, Identified, Separate, Enumerated;
  }

  lemma OneMoreMapped(s: State, s': State, k: Ref)
    requires k !in MappedConns(s, 1) && k in s.conns && s.conns[k].server == 1
    requires s'.conns == s.conns[k := s.conns[k].(mapped := true)]
    ensures |MappedConns(s', 1)| == |MappedConns(s, 1)| + 1
  {
    assert MappedConns(s', 1) == MappedConns(s, 1) + {k};
  }

  lemma SameMapped(s: State, s': State, k: Ref)
    requires s'.conns.Keys == s.conns.Keys + {k} && k !in s.conns && !s'.conns[k].mapped
    requires forall x <- s.conns :: s'.conns[x] == s.conns[x]
    ensures MappedConns(s', 1) == MappedConns(s, 1)
  {
  }

  /** A new client of task t connects to the server and maps its memory. */
  lemma Join(s: State, t: Ref, a: nat, b: nat) returns (s': State)
    requires RunsTo(s) && Crowd(s, a, b) && (t == 1 || t == 2) && (if t == 1 then a else b) < MAX_CLIENTS_PER_PID
    ensures RunsTo(s') && Crowd(s', if t == 1 then a + 1 else a, if t == 2 then b + 1 else b)
  {
    hide Inv, Reachable, RunsTo, Step, Quietly, ServerByName, MappedConns, FactOf, Distinct;
    var c := Unused(s.clients.Keys);
    var s1 := Step(s, RegisterClient(t, c)).0;
    RunsToReachable(s);
    RegisterEffect(s, t, c);
    RunsOn(s, RegisterClient(t, c));
    assert MappedConns(s1, 1) == MappedConns(s, 1) by { SameConnsMapped(s, s1); }
    var s2, k := ConnectNew(s1, c);
    var id := s1.clients[c].id;
    var cmd := Mmap(id, 0);
    RunsOn(s2, cmd);
    RunsToReachable(s2);
    ReachableInv(s2);
    MmapEffect(s2, cmd);
    s' := Step(s2, cmd).0;
    assert MappedConns(s2, 1) == MappedConns(s1, 1);
    MapNew(s2, cmd, k);
    QuietlyHoused(s1, s2, 1);
    QuietlyHoused(s1, s2, 2);
    QuietlyHoused(s2, s', 1);
    QuietlyHoused(s2, s', 2);
  }

  lemma SameConnsMapped(s: State, s': State)
    requires s'.conns == s.conns
    ensures MappedConns(s', 1) == MappedConns(s, 1)
  {
  }

  lemma QuietlyHoused(s: State, s': State, t: Ref)
    requires Quietly(s, s') && t in s.tasks
    ensures Housed(s', t, |s.tasks[t].clients|) == Housed(s, t, |s.tasks[t].clients|)
    ensures 1 in s.servers ==> 1 in s'.servers && s'.servers[1].name == s.servers[1].name
    ensures t in s'.tasks && s'.tasks[t].clients == s.tasks[t].clients
  {
  }

  /** The client connects over a connection that is not mapped yet. */
  lemma ConnectNew(s: State, c: Ref) returns (s': State, k: Ref)
    requires RunsTo(s) && c in s.clients && s.clients[c].conn == NULL && 1 in s.servers && s.servers[1].name == "s"
    ensures RunsTo(s') && Quietly(s, s') && MappedConns(s', 1) == MappedConns(s, 1)
    ensures k in s'.conns && !s'.conns[k].mapped && s'.conns[k].server == 1 && ConnOf(s', s.clients[c].id, k)
  {
    hide Inv, Reachable, RunsTo, Step, Quietly, ServerByName, MappedConns, FactOf, Distinct, Connected, NameTaken,
         ClientExists;
    k := Unused(s.conns.Keys);
    var e := Unused(s.entries.Keys);
    var p := Unused(s.pools.Keys);
    var us := UnusedFour(s.subs.Keys);
    var cmd := Connect(s.clients[c].id, "s", k, e, p, us);
    RunsToReachable(s);
    ReachableInv(s);
    IdleClient(s, c);
    NameThere(s, 1);
    ConnectOutcome(s, cmd);
    RunsOn(s, cmd);
    s' := Step(s, cmd).0;
    ConnectEffects(s, cmd);
    RunsToReachable(s');
    ReachableInv(s');
    QuietlyServer(s, s');
    ConnServerThere(s', k);
    NameUnique(s', s'.conns[k].server, 1);
    SameMapped(s, s', k);
  }

  lemma QuietlyServer(s: State, s': State)
    requires Quietly(s, s') && 1 in s.servers
    ensures 1 in s'.servers && s'.servers[1].name == s.servers[1].name
  {
  }

  lemma ConnServerThere(s: State, k: Ref)
    requires Inv(s) && k in s.conns
    ensures s.conns[k].server in s.servers
  {
    hide Inv;
    DriverFacts.ConnIntact(s, k);
  }

  lemma NameThere(s: State, r: Ref)
    requires r in s.servers
    ensures NameTaken(s, s.servers[r].name)
  {
  }

  lemma IdleClient(s: State, c: Ref)
    requires Inv(s) && c in s.clients && s.clients[c].conn == NULL
    ensures ClientExists(s, s.clients[c].id) && !Connected(s, s.clients[c].id)
  {
    hide Inv, Connected;
    ClientThere(s, c);
    DriverChannels.ClientFound(s, c);
    ClientSearch(s, s.clients[c].id);
  }

  lemma MapNew(s: State, cmd: Cmd, k: Ref)
    requires CmdOk(s, cmd) && Reachable(s) && cmd.Mmap? && ConnOf(s, cmd.targetId, k) && !s.conns[k].mapped
    requires s.conns[k].server == 1
    ensures |MappedConns(Step(s, cmd).0, 1)| == |MappedConns(s, 1)| + 1
  {
    hide Inv, Reachable, Step, MapsThat;
    ReachableInv(s);
    ClientSearch(s, cmd.targetId);
    MmapOutcome(s, cmd);
    var s' := Step(s, cmd).0;
    var k' :| ConnOf(s, cmd.targetId, k') && s'.conns == s.conns[k' := s.conns[k'].(mapped := true)];
    IdsTell(s, k, k');
    OneMoreMapped(s, s', k);
  }

  // ---------- sixteen clients and one more ----------

  lemma TwoTasks() returns (s: State)
    ensures RunsTo(s) && Crowd(s, 0, 0)
  {
    var s1, s2 := Step(INITIAL, Open(1, 1)).0, Step(Step(INITIAL, Open(1, 1)).0, Open(2, 2)).0;
    s := Step(s2, RegisterServer(1, "s", 1)).0;
    FirstSteps();
    hide RunsTo, Step;
    NoRun();
    RunsOn(INITIAL, Open(1, 1));
    RunsOn(s1, Open(2, 2));
    RunsOn(s2, RegisterServer(1, "s", 1));
  }

  lemma NoRun()
    ensures RunsTo(INITIAL)
  {
    assert EndsIn([INITIAL], [], [map[]], INITIAL);
  }

  lemma FirstSteps()
    ensures CmdOk(INITIAL, Open(1, 1))
    ensures var s1 := Step(INITIAL, Open(1, 1)).0; CmdOk(s1, Open(2, 2))
    ensures var s2 := Step(Step(INITIAL, Open(1, 1)).0, Open(2, 2)).0;
            CmdOk(s2, RegisterServer(1, "s", 1)) && Crowd(Step(s2, RegisterServer(1, "s", 1)).0, 0, 0)
  {
    hide IdSpace.GenerateId, Taken;
    var s1 := AddTask(INITIAL, 1, 1);
    assert Step(INITIAL, Open(1, 1)) == (s1, 0);
    assert !Registered(s1, 2);
    var s2 := AddTask(s1, 2, 2);
    assert Step(s1, Open(2, 2)) == (s2, 0);
    assert MappedConns(Step(s2, RegisterServer(1, "s", 1)).0, 1) == {};
  }

  lemma {:induction false} Filled(n: nat) returns (s: State)
    requires n <= MAX_CLIENTS_PER_PID
    ensures RunsTo(s) && Crowd(s, 0, n)
  {
    hide RunsTo, Crowd;
    if n == 0 {
      s := TwoTasks();
    } else {
      s := Filled(n - 1);
      s := Join(s, 2, 0, n - 1);
    }
  }

  lemma ManyEntries(s: State, r: Ref)
    requires Inv(s) && r in s.servers
    ensures |MappedConns(s, r)| <= |s.servers[r].entries|
  {
    hide Inv, ConnsBehind, Distinct;
    DriverTeardown.ServerConns(s, r);
    var ks := ConnsBehind(s.entries, s.servers[r].entries);
    var all := set k | k in s.conns && s.conns[k].server == r;
    assert Lists(ks, all);
    ListsSize(ks, all);
    SubsetSize(MappedConns(s, r), all);
  }

  /** There is a run of the driver and the libraries after which one server has seventeen mapped connections. The
      snapshot of that state contradicts itself and the server's drained table is not what the driver records. */
  lemma CrowdHappens() returns (states: seq<State>, cmds: seq<Cmd>, libs: seq<Tables>)
    ensures SystemRun(states, cmds, libs)
    ensures var s, lib := states[|cmds|], libs[|cmds|];
            && 1 in s.servers && |MappedConns(s, 1)| == 17
            && !Snapshot.Coherent(Snapshot.SnapshotOf(s)) && !Faithful(s, lib)
  {
    hide RunsTo, Inv, Reachable, Step, CmdOk, LibStep, WholeRead, MappedConns, Snapshot.Coherent, Snapshot.SnapshotOf,
         Faithful, Bounded;
    var s := Filled(16);
    s := Join(s, 1, 0, 16);
    states, cmds, libs := TheRun(s);
    RunsToReachable(s);
    ReachableInv(s);
    ManyEntries(s, 1);
    Snapshot.SnapshotCoherent(s);
    AlwaysBounded(states, cmds, libs, |cmds|);
    if Faithful(s, libs[|cmds|]) {
      FaithfulFits(libs[|cmds|], s);
      assert false;
    }
  }

  lemma TheRun(s: State) returns (states: seq<State>, cmds: seq<Cmd>, libs: seq<Tables>)
    requires RunsTo(s)
    ensures SystemRun(states, cmds, libs) && s == states[|cmds|]
  {
    hide Step, CmdOk, LibStep, WholeRead, SystemRun;
    states, cmds, libs :| EndsIn(states, cmds, libs, s);
  }
}
