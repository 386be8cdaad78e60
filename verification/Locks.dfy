/** The driver's mutexes: in which order the system calls take them, and that no set of threads ends up waiting
    in a circle. */
module Locks {
  import opened DriverModel
  import Options

  /** One constructor for each mutex of the driver, with the object that holds it. */
  datatype Lock =
    | RegTaskList | ClientList | ConnList | ShmList
    | ServerList
    | ServerLock(r: Ref) | ServerConns(r: Ref)
    | NotifList(t: Ref) | WaitQueue(t: Ref)

  function Rank(l: Lock): nat {
    match l
    case ServerList => 0
    case ServerLock(_) => 1
    case ServerConns(_) => 2
    case _ => 3
  }

  const TOP_RANK: nat := 4

  datatype Act = Acquire(lock: Lock) | Release(lock: Lock)

  type Script = seq<Act>

  // ---------- what the code does ----------

  function Locked(l: Lock, body: Script): Script {
    [Acquire(l)] + body + [Release(l)]
  }

  /** The two mutexes of a server, as server_find_conn, server_add_connection, server_get_data take them. */
  function InServer(r: Ref): Script {
    Locked(ServerLock(r), Locked(ServerConns(r), []))
  }

  function NotificationSend(t: Ref): Script {
    Locked(NotifList(t), []) + Locked(WaitQueue(t), [])
  }

  function DeleteConnection(clientTask: Ref, serverTask: Ref, r: Ref): Script {
    NotificationSend(clientTask) + NotificationSend(serverTask) + InServer(r) + Locked(ServerConns(r), []) +
        Locked(ConnList, [])
  }

  function ServerCleanupConnection(clientTask: Ref, serverTask: Ref, r: Ref): Script {
    InServer(r) + DeleteConnection(clientTask, serverTask, r) + InServer(r)
  }

  /** clientTasks are the tasks behind the server's connections, one for each. */
  function ServerCleanupConnections(clientTasks: seq<Ref>, serverTask: Ref, r: Ref): Script {
    if clientTasks == [] then []
    else
      ServerCleanupConnection(clientTasks[0], serverTask, r)
      + ServerCleanupConnections(clientTasks[1..], serverTask, r)
  }

  function ServerDestroy(r: Ref): Script {
    Locked(ServerList, Locked(ServerLock(r), []))
  }

  /** find_server_by_id looks at the servers in rs and stops at the last of them. */
  function LookAt(rs: seq<Ref>): Script {
    if rs == [] then [] else Locked(ServerLock(rs[0]), []) + LookAt(rs[1..])
  }

  function FindServerById(rs: seq<Ref>): Script {
    Locked(ServerList, LookAt(rs))
  }

  const FIND_CLIENT: Script := Locked(ClientList, [])
  const FIND_SERVER_BY_NAME: Script := Locked(ServerList, [])

  /** reg_task_get_data gives the list of tasks up around every server and every client. */
  function GetData(rs: seq<Ref>, clients: nat): Script
    decreases |rs| + clients
  {
    if rs != [] then Locked(RegTaskList, []) + InServer(rs[0]) + GetData(rs[1..], clients)
    else if clients > 0 then Locked(RegTaskList, []) + GetData([], clients - 1)
    else Locked(RegTaskList, [])
  }

  function CleanupServers(servers: seq<(Ref, seq<Ref>)>, t: Ref): Script {
    if servers == [] then []
    else ServerCleanupConnections(servers[0].1, t, servers[0].0) + CleanupServers(servers[1..], t)
  }

  /** For each connected client its server and the server's task. */
  function CleanupClients(clients: seq<(Ref, Ref)>, t: Ref): Script {
    if clients == [] then [] else DeleteConnection(t, clients[0].1, clients[0].0) + CleanupClients(clients[1..], t)
  }

  function DestroyServers(servers: seq<(Ref, seq<Ref>)>): Script {
    if servers == [] then [] else ServerDestroy(servers[0].0) + DestroyServers(servers[1..])
  }

  function DestroyClients(n: nat): Script {
    if n == 0 then [] else Locked(ClientList, []) + DestroyClients(n - 1)
  }

  /** A file operation, with the objects it runs into. */
  datatype Operation =
    | Open
    | RegisterServer(r: Ref)
    | RegisterClient
    | RegisterMonitor
    | Connect(r: Ref, newPool: bool)
    | ClientEndWriting(serverTask: Ref)
    | ServerEndWriting(rs: seq<Ref>, r: Ref, clientTask: Ref)
    | ClientDisconnect(clientTask: Ref, serverTask: Ref, r: Ref)
    | ServerDisconnect(rs: seq<Ref>, clientTask: Ref, serverTask: Ref, r: Ref)
    | ClientUnregister(clientTask: Ref, serverTask: Ref, r: Ref)
    | ServerUnregister(rs: seq<Ref>, clientTasks: seq<Ref>, serverTask: Ref, r: Ref)
    | ClientMmap(serverTask: Ref, r: Ref)
    | ServerMmap(rs: seq<Ref>, r: Ref)
    | Read(t: Ref)
    | ReadMonitor(rs: seq<Ref>, clients: nat)
    | Poll(t: Ref)
    | Close(t: Ref, servers: seq<(Ref, seq<Ref>)>, connected: seq<(Ref, Ref)>, clients: nat)

  /** The mutex operations of a file operation that gets as far as it can; one that returns early stops at a
      point where it holds no mutex. */
  function ScriptOf(op: Operation): Script {
    match op
    case Open => Locked(RegTaskList, []) + Locked(RegTaskList, [])
    case RegisterServer(r) => FIND_SERVER_BY_NAME + Locked(ServerList, []) + Locked(ServerLock(r), [])
    case RegisterClient => Locked(ClientList, [])
    case RegisterMonitor => Locked(RegTaskList, [])
    case Connect(r, newPool) =>
      FIND_CLIENT + FIND_SERVER_BY_NAME + (if newPool then Locked(ShmList, []) else []) + Locked(ConnList, []) +
          InServer(r)
    case ClientEndWriting(serverTask) => FIND_CLIENT + NotificationSend(serverTask)
    case ServerEndWriting(rs, r, clientTask) => FindServerById(rs) + InServer(r) + NotificationSend(clientTask)
    case ClientDisconnect(ct, st, r) => FIND_CLIENT + NotificationSend(st) + DeleteConnection(ct, st, r)
    case ServerDisconnect(rs, ct, st, r) =>
      FindServerById(rs) + InServer(r) + NotificationSend(ct) + ServerCleanupConnection(ct, st, r)
    case ClientUnregister(ct, st, r) => FIND_CLIENT + NotificationSend(st) + DeleteConnection(ct, st, r) +
        Locked(ClientList, [])
    case ServerUnregister(rs, cts, st, r) => FindServerById(rs) + ServerCleanupConnections(cts, st, r) +
        ServerDestroy(r)
    case ClientMmap(st, r) => FIND_CLIENT + Locked(ServerLock(r), NotificationSend(st))
    case ServerMmap(rs, r) => FIND_CLIENT + FindServerById(rs) + InServer(r)
    case Read(t) => Locked(NotifList(t), []) + Locked(NotifList(t), [])
    case ReadMonitor(rs, clients) => GetData(rs, clients)
    case Poll(t) => Locked(WaitQueue(t), []) + Locked(NotifList(t), [])
    case Close(t, servers, connected, clients) =>
      CleanupServers(servers, t) + CleanupClients(connected, t) + DestroyServers(servers) + DestroyClients(clients)
      + Locked(NotifList(t), []) + Locked(RegTaskList, [])
  }

  // ---------- scripts that respect the ranks ----------

  datatype Outcome = Fails | Holding(locks: set<Lock>)

  predicate Below(locks: set<Lock>, rank: nat) {
    forall l <- locks :: Rank(l) < rank
  }

  /** Running a script: every mutex taken must rank above all that are held, and only held ones are released. */
  function Run(held: set<Lock>, script: Script): Outcome
    decreases |script|
  {
    if script == [] then Holding(held)
    else
      match script[0]
      case Acquire(l) => if Below(held, Rank(l)) then Run(held + {l}, script[1..]) else Fails
      case Release(l) => if l in held then Run(held - {l}, script[1..]) else Fails
  }

  /** What is held after a script, whatever the ranks. */
  function HeldAfter(held: set<Lock>, script: Script): set<Lock>
    decreases |script|
  {
    if script == [] then held
    else
      match script[0]
      case Acquire(l) => HeldAfter(held + {l}, script[1..])
      case Release(l) => HeldAfter(held - {l}, script[1..])
  }

  /** An operation may return after the first n steps of its script: it has given back all it had taken. */
  predicate MayStop(script: Script, n: nat) {
    n <= |script| && HeldAfter({}, script[..n]) == {}
  }

  /** A script that respects the ranks respects them as far as it gets. */
  lemma {:induction false} RunPrefix(held: set<Lock>, script: Script, n: nat)
    requires Run(held, script).Holding? && n <= |script|
    ensures Run(held, script[..n]) == Holding(HeldAfter(held, script[..n]))
    decreases n
  {
    if n > 0 {
      assert script[..n][0] == script[0] && script[..n][1..] == script[1..][..n - 1];
      match script[0]
      case Acquire(l) => RunPrefix(held + {l}, script[1..], n - 1);
      case Release(l) => RunPrefix(held - {l}, script[1..], n - 1);
    }
  }

  /** Run with any mutexes below the floor held, the script respects the ranks and gives back what it takes. */
  ghost predicate Safe(script: Script, floor: nat) {
    forall held | Below(held, floor) :: Run(held, script) == Holding(held)
  }

  lemma {:induction false} RunSplit(held: set<Lock>, a: Script, b: Script)
    requires Run(held, a).Holding?
    ensures Run(held, a + b) == Run(Run(held, a).locks, b)
    decreases |a|
  {
    if a == [] {
      assert a + b == b;
    } else {
      assert (a + b)[0] == a[0] && (a + b)[1..] == a[1..] + b;
      match a[0]
      case Acquire(l) => RunSplit(held + {l}, a[1..], b);
      case Release(l) => RunSplit(held - {l}, a[1..], b);
    }
  }

  lemma SafeSeq(a: Script, b: Script, floor: nat)
    requires Safe(a, floor) && Safe(b, floor)
    ensures Safe(a + b, floor)
  {
    forall held | Below(held, floor) ensures Run(held, a + b) == Holding(held) {
      RunSplit(held, a, b);
    }
  }

  lemma SafeLocked(l: Lock, body: Script, floor: nat)
    requires floor <= Rank(l) && Safe(body, Rank(l) + 1)
    ensures Safe(Locked(l, body), floor)
  {
    forall held | Below(held, floor) ensures Run(held, Locked(l, body)) == Holding(held) {
      assert Below(held, Rank(l)) && l !in held;
      assert Below(held + {l}, Rank(l) + 1);
      assert Locked(l, body) == [Acquire(l)] + (body + [Release(l)]);
      RunSplit(held + {l}, body, [Release(l)]);
      assert held + {l} - {l} == held;
    }
  }

  lemma SafeNothing(floor: nat)
    ensures Safe([], floor)
  {
  }

  lemma SafeLower(script: Script, floor: nat, lower: nat)
    requires Safe(script, floor) && lower <= floor
    ensures Safe(script, lower)
  {
  }

  lemma SafeLeaf(l: Lock, floor: nat)
    requires floor <= Rank(l)
    ensures Safe(Locked(l, []), floor)
  {
    SafeNothing(Rank(l) + 1);
    SafeLocked(l, [], floor);
  }

  lemma SafeInServer(r: Ref)
    ensures Safe(InServer(r), 0)
  {
    SafeLeaf(ServerConns(r), 2);
    SafeLocked(ServerLock(r), Locked(ServerConns(r), []), 0);
  }

  lemma SafeSend(t: Ref)
    ensures Safe(NotificationSend(t), 2)
    ensures Safe(NotificationSend(t), 0)
  {
    SafeLeaf(NotifList(t), 2);
    SafeLeaf(WaitQueue(t), 2);
    SafeSeq(Locked(NotifList(t), []), Locked(WaitQueue(t), []), 2);
    SafeLower(NotificationSend(t), 2, 0);
  }

  lemma SafeDelete(ct: Ref, st: Ref, r: Ref)
    ensures Safe(DeleteConnection(ct, st, r), 0)
  {
    hide Safe, InServer, NotificationSend, Locked;
    SafeSend(ct);
    SafeSend(st);
    SafeInServer(r);
    SafeLeaf(ServerConns(r), 0);
    SafeLeaf(ConnList, 0);
    SafeSeq(NotificationSend(ct), NotificationSend(st), 0);
    SafeSeq(NotificationSend(ct) + NotificationSend(st), InServer(r), 0);
    SafeSeq(NotificationSend(ct) + NotificationSend(st) + InServer(r), Locked(ServerConns(r), []), 0);
    SafeSeq(NotificationSend(ct) + NotificationSend(st) + InServer(r) + Locked(ServerConns(r), []),
        Locked(ConnList, []), 0);
  }

  lemma SafeCleanup(ct: Ref, st: Ref, r: Ref)
    ensures Safe(ServerCleanupConnection(ct, st, r), 0)
  {
    hide Safe, InServer, DeleteConnection;
    SafeInServer(r);
    SafeDelete(ct, st, r);
    SafeSeq(InServer(r), DeleteConnection(ct, st, r), 0);
    SafeSeq(InServer(r) + DeleteConnection(ct, st, r), InServer(r), 0);
  }

  lemma {:induction false} SafeCleanups(cts: seq<Ref>, st: Ref, r: Ref)
    ensures Safe(ServerCleanupConnections(cts, st, r), 0)
  {
    hide Safe, ServerCleanupConnection;
    if cts == [] {
      SafeNothing(0);
    } else {
      SafeCleanup(cts[0], st, r);
      SafeCleanups(cts[1..], st, r);
      SafeSeq(ServerCleanupConnection(cts[0], st, r), ServerCleanupConnections(cts[1..], st, r), 0);
    }
  }

  lemma {:induction false} SafeLookAt(rs: seq<Ref>)
    ensures Safe(LookAt(rs), 1)
  {
    hide Safe, Locked;
    if rs == [] {
      SafeNothing(1);
    } else {
      SafeLeaf(ServerLock(rs[0]), 1);
      SafeLookAt(rs[1..]);
      SafeSeq(Locked(ServerLock(rs[0]), []), LookAt(rs[1..]), 1);
    }
  }

  lemma SafeFindById(rs: seq<Ref>)
    ensures Safe(FindServerById(rs), 0)
  {
    SafeLookAt(rs);
    SafeLocked(ServerList, LookAt(rs), 0);
  }

  lemma SafeDestroy(r: Ref)
    ensures Safe(ServerDestroy(r), 0)
  {
    SafeLeaf(ServerLock(r), 1);
    SafeLocked(ServerList, Locked(ServerLock(r), []), 0);
  }

  lemma {:induction false} SafeGetData(rs: seq<Ref>, clients: nat)
    ensures Safe(GetData(rs, clients), 0)
    decreases |rs| + clients
  {
    hide Safe, Locked, InServer;
    SafeLeaf(RegTaskList, 0);
    if rs != [] {
      SafeInServer(rs[0]);
      SafeGetData(rs[1..], clients);
      SafeSeq(Locked(RegTaskList, []), InServer(rs[0]), 0);
      SafeSeq(Locked(RegTaskList, []) + InServer(rs[0]), GetData(rs[1..], clients), 0);
    } else if clients > 0 {
      SafeGetData([], clients - 1);
      SafeSeq(Locked(RegTaskList, []), GetData([], clients - 1), 0);
    }
  }

  lemma {:induction false} SafeCloseLoops(servers: seq<(Ref, seq<Ref>)>, connected: seq<(Ref, Ref)>, clients: nat,
                                          t: Ref)
    ensures Safe(CleanupServers(servers, t), 0) && Safe(CleanupClients(connected, t), 0)
    ensures Safe(DestroyServers(servers), 0) && Safe(DestroyClients(clients), 0)
    decreases |servers| + |connected| + clients
  {
    hide Safe, Locked, ServerDestroy, DeleteConnection, ServerCleanupConnections;
    SafeNothing(0);
    if servers != [] {
      SafeCloseLoops(servers[1..], connected, clients, t);
      SafeCleanups(servers[0].1, t, servers[0].0);
      SafeDestroy(servers[0].0);
      SafeSeq(ServerCleanupConnections(servers[0].1, t, servers[0].0), CleanupServers(servers[1..], t), 0);
      SafeSeq(ServerDestroy(servers[0].0), DestroyServers(servers[1..]), 0);
    } else if connected != [] {
      SafeCloseLoops(servers, connected[1..], clients, t);
      SafeDelete(t, connected[0].1, connected[0].0);
      SafeSeq(DeleteConnection(t, connected[0].1, connected[0].0), CleanupClients(connected[1..], t), 0);
    } else if clients > 0 {
      SafeCloseLoops(servers, connected, clients - 1, t);
      SafeLeaf(ClientList, 0);
      SafeSeq(Locked(ClientList, []), DestroyClients(clients - 1), 0);
    }
  }

  lemma SafeThree(a: Script, b: Script, c: Script)
    requires Safe(a, 0) && Safe(b, 0) && Safe(c, 0)
    ensures Safe(a + b, 0) && Safe(a + b + c, 0)
  {
    hide Safe;
    SafeSeq(a, b, 0);
    SafeSeq(a + b, c, 0);
  }

  /** Every file operation takes its mutexes in rank order and returns with none of them held. */
  lemma OperationSafe(op: Operation)
    ensures Safe(ScriptOf(op), 0)
  {
    hide Safe, Locked, InServer, NotificationSend, DeleteConnection, ServerCleanupConnection, ServerCleanupConnections,
         FindServerById, ServerDestroy, GetData, CleanupServers, CleanupClients, DestroyServers, DestroyClients;
    SafeLeaf(ClientList, 0);
    SafeLeaf(ServerList, 0);
    SafeLeaf(RegTaskList, 0);
    SafeNothing(0);
    match op
    case Open => SafeSeq(Locked(RegTaskList, []), Locked(RegTaskList, []), 0);
    case RegisterServer(r) =>
      SafeLeaf(ServerLock(r), 0);
      SafeThree(FIND_SERVER_BY_NAME, Locked(ServerList, []), Locked(ServerLock(r), []));
    case RegisterClient =>
    case RegisterMonitor =>
    case Connect(r, newPool) =>
      SafeLeaf(ShmList, 0);
      SafeLeaf(ConnList, 0);
      SafeInServer(r);
      var pool := if newPool then Locked(ShmList, []) else [];
      SafeThree(FIND_CLIENT, FIND_SERVER_BY_NAME, pool);
      SafeThree(FIND_CLIENT + FIND_SERVER_BY_NAME + pool, Locked(ConnList, []), InServer(r));
    case ClientEndWriting(t) =>
      SafeSend(t);
      SafeSeq(FIND_CLIENT, NotificationSend(t), 0);
    case ServerEndWriting(rs, r, t) =>
      SafeFindById(rs);
      SafeInServer(r);
      SafeSend(t);
      SafeThree(FindServerById(rs), InServer(r), NotificationSend(t));
    case ClientDisconnect(ct, st, r) =>
      SafeSend(st);
      SafeDelete(ct, st, r);
      SafeThree(FIND_CLIENT, NotificationSend(st), DeleteConnection(ct, st, r));
    case ServerDisconnect(rs, ct, st, r) =>
      SafeFindById(rs);
      SafeInServer(r);
      SafeSend(ct);
      SafeCleanup(ct, st, r);
      SafeThree(FindServerById(rs), InServer(r), NotificationSend(ct));
      SafeSeq(FindServerById(rs) + InServer(r) + NotificationSend(ct), ServerCleanupConnection(ct, st, r), 0);
    case ClientUnregister(ct, st, r) =>
      SafeSend(st);
      SafeDelete(ct, st, r);
      SafeThree(FIND_CLIENT, NotificationSend(st), DeleteConnection(ct, st, r));
      SafeSeq(FIND_CLIENT + NotificationSend(st) + DeleteConnection(ct, st, r), Locked(ClientList, []), 0);
    case ServerUnregister(rs, cts, st, r) =>
      SafeFindById(rs);
      SafeCleanups(cts, st, r);
      SafeDestroy(r);
      SafeThree(FindServerById(rs), ServerCleanupConnections(cts, st, r), ServerDestroy(r));
    case ClientMmap(st, r) =>
      SafeSend(st);
      SafeLocked(ServerLock(r), NotificationSend(st), 0);
      SafeSeq(FIND_CLIENT, Locked(ServerLock(r), NotificationSend(st)), 0);
    case ServerMmap(rs, r) =>
      SafeFindById(rs);
      SafeInServer(r);
      SafeThree(FIND_CLIENT, FindServerById(rs), InServer(r));
    case Read(t) =>
      SafeLeaf(NotifList(t), 0);
      SafeSeq(Locked(NotifList(t), []), Locked(NotifList(t), []), 0);
    case ReadMonitor(rs, clients) => SafeGetData(rs, clients);
    case Poll(t) =>
      SafeLeaf(WaitQueue(t), 0);
      SafeLeaf(NotifList(t), 0);
      SafeSeq(Locked(WaitQueue(t), []), Locked(NotifList(t), []), 0);
    case Close(t, servers, connected, clients) =>
      SafeCloseLoops(servers, connected, clients, t);
      SafeLeaf(NotifList(t), 0);
      SafeThree(CleanupServers(servers, t), CleanupClients(connected, t), DestroyServers(servers));
      SafeThree(CleanupServers(servers, t) + CleanupClients(connected, t) + DestroyServers(servers),
          DestroyClients(clients), Locked(NotifList(t), []));
      SafeSeq(CleanupServers(servers, t) + CleanupClients(connected, t) + DestroyServers(servers) +
          DestroyClients(clients) + Locked(NotifList(t), []),
              Locked(RegTaskList, []), 0);
  }

  // ---------- threads ----------

  datatype Thread = Thread(held: set<Lock>, todo: Script)

  type Threads = map<nat, Thread>

  predicate Free(threads: Threads, l: Lock) {
    forall i <- threads :: l !in threads[i].held
  }

  /** The next mutex operation of thread i is possible. A mutex is not free for the thread that holds it, either. */
  predicate CanGo(threads: Threads, i: nat) {
    i in threads && threads[i].todo != [] && (threads[i].todo[0].Acquire? ==> Free(threads, threads[i].todo[0].lock))
  }

  function Go(thread: Thread): Thread
    requires thread.todo != []
  {
    match thread.todo[0]
    case Acquire(l) => Thread(thread.held + {l}, thread.todo[1..])
    case Release(l) => Thread(thread.held - {l}, thread.todo[1..])
  }

  /** Threads begin operations when they are idle and otherwise go on one mutex operation at a time. steps is
      the point at which the operation returns. */
  datatype Event = Begin(i: nat, op: Operation, steps: nat) | Continue(i: nat)

  predicate Enabled(threads: Threads, e: Event) {
    match e
    case Begin(i, op, steps) => (i !in threads || threads[i].todo == []) && MayStop(ScriptOf(op), steps)
    case Continue(i) => CanGo(threads, i)
  }

  function Next(threads: Threads, e: Event): Threads
    requires Enabled(threads, e)
  {
    match e
    case Begin(i, op, steps) => threads[i := Thread({}, ScriptOf(op)[..steps])]
    case Continue(i) => threads[i := Go(threads[i])]
  }

  /** Mutexes exclude each other, and what every thread has still to do respects the ranks. */
  ghost predicate Disciplined(threads: Threads) {
    && (forall i <- threads :: Run(threads[i].held, threads[i].todo) == Holding({}))
    && (forall i, j, l | i in threads && j in threads && l in threads[i].held && l in threads[j].held :: i == j)
  }

  lemma NextDisciplined(threads: Threads, e: Event)
    requires Disciplined(threads) && Enabled(threads, e)
    ensures Disciplined(Next(threads, e))
  {
    hide ScriptOf;
    match e
    case Begin(i, op, steps) =>
      OperationSafe(op);
      SafeFromScratch(ScriptOf(op));
      RunPrefix({}, ScriptOf(op), steps);
    case Continue(i) =>
  }

  lemma SafeFromScratch(script: Script)
    requires Safe(script, 0)
    ensures Run({}, script) == Holding({})
  {
    assert Below({}, 0);
  }

  /** The rank of the mutex that a thread waits for. */
  function WaitRank(threads: Threads, i: nat): nat
    requires i in threads
  {
    if threads[i].todo != [] && threads[i].todo[0].Acquire? then Rank(threads[i].todo[0].lock) else 0
  }

  /** Following the chain of waiting from any thread that is not idle leads, upwards in rank, to one that can go on. */
  lemma {:induction false} SomeoneCanGo(threads: Threads, i: nat) returns (j: nat)
    requires Disciplined(threads) && i in threads && threads[i].todo != []
    ensures CanGo(threads, j)
    decreases TOP_RANK - WaitRank(threads, i)
  {
    if CanGo(threads, i) {
      return i;
    }
    var l := threads[i].todo[0].lock;
    var k :| k in threads && l in threads[k].held;
    HolderIsBusy(threads[k], l);
    HolderWaitsAbove(threads[k], l);
    if CanGo(threads, k) {
      return k;
    }
    j := SomeoneCanGo(threads, k);
  }

  lemma HolderIsBusy(thread: Thread, l: Lock)
    requires Run(thread.held, thread.todo) == Holding({}) && l in thread.held
    ensures thread.todo != []
  {
  }

  lemma HolderWaitsAbove(thread: Thread, l: Lock)
    requires Run(thread.held, thread.todo) == Holding({}) && l in thread.held && thread.todo != []
    ensures thread.todo[0].Acquire? ==> Rank(thread.todo[0].lock) > Rank(l)
  {
  }

  function Reached(threads: Threads, events: seq<Event>): Options.Option<Threads>
    decreases |events|
  {
    if events == [] then Options.Some(threads)
    else if Enabled(threads, events[0]) then Reached(Next(threads, events[0]), events[1..])
    else Options.None
  }

  lemma {:induction false} AlwaysDisciplined(threads: Threads, events: seq<Event>)
    requires Disciplined(threads) && Reached(threads, events).Some?
    ensures Disciplined(Reached(threads, events).value)
    decreases |events|
  {
    hide Disciplined, Enabled, Next;
    if events != [] {
      NextDisciplined(threads, events[0]);
      AlwaysDisciplined(Next(threads, events[0]), events[1..]);
    }
  }

  /** Any number of threads, any operations returning at any point, any interleaving: as long as some thread is
      inside an operation, some thread inside an operation can go on. */
  lemma NoDeadlock(events: seq<Event>, i: nat)
    requires Reached(map[], events).Some?
    requires i in Reached(map[], events).value && Reached(map[], events).value[i].todo != []
    ensures exists j :: CanGo(Reached(map[], events).value, j)
  {
    hide Disciplined, Enabled, Next, CanGo;
    NobodyDisciplined();
    AlwaysDisciplined(map[], events);
    var j := SomeoneCanGo(Reached(map[], events).value, i);
  }

  lemma NobodyDisciplined()
    ensures Disciplined(map[])
  {
  }

  // ---------- the exception ----------

  /** delete_server_list holds the list's mutex while server_destroy takes it again. */
  function DeleteServerList(rs: seq<Ref>): Script {
    Locked(ServerList, DestroyAll(rs))
  }

  function DestroyAll(rs: seq<Ref>): Script {
    if rs == [] then [] else ServerDestroy(rs[0]) + DestroyAll(rs[1..])
  }

  /** A thread alone in the system gets through delete_server_list if and only if there is no server: otherwise
      its second step waits for a mutex that it holds itself. */
  lemma DeleteServerListStuck(rs: seq<Ref>, i: nat)
    ensures var script := DeleteServerList(rs);
            var entered := map[i := Thread({ServerList}, script[1..])];
            && CanGo(map[i := Thread({}, script)], i) && Go(Thread({}, script)) == entered[i]
            && (CanGo(entered, i) <==> rs == [])
  {
    var script := DeleteServerList(rs);
    if rs == [] {
      assert script == [Acquire(ServerList), Release(ServerList)];
    } else {
      assert script[1] == Acquire(ServerList);
      assert script[1..][0] == Acquire(ServerList);
    }
  }

  /** Thread i waits for a mutex that it holds itself. */
  predicate WaitsForItself(threads: Threads, i: nat) {
    i in threads && threads[i].todo != [] && threads[i].todo[0].Acquire? && threads[i].todo[0].lock in threads[i].held
  }

  /** Such a thread never goes on, and nobody else ever gets the mutex. */
  lemma {:induction false} SelfWaitIsForever(threads: Threads, events: seq<Event>, i: nat)
    requires WaitsForItself(threads, i) && Reached(threads, events).Some?
    ensures i in Reached(threads, events).value && Reached(threads, events).value[i] == threads[i]
    ensures !CanGo(Reached(threads, events).value, i) && !Free(Reached(threads, events).value, threads[i].todo[0].lock)
    decreases |events|
  {
    hide ScriptOf;
    if events != [] {
      SelfWaitIsForever(Next(threads, events[0]), events[1..], i);
    }
  }

  /** Once inside delete_server_list with a server in the list, a thread blocks the mutex of the list for good,
      whatever other threads do. */
  lemma DeleteServerListBlocks(threads: Threads, events: seq<Event>, i: nat, rs: seq<Ref>)
    requires i in threads && threads[i] == Thread({ServerList}, DeleteServerList(rs)[1..]) && rs != []
    requires Reached(threads, events).Some?
    ensures !CanGo(Reached(threads, events).value, i) && !Free(Reached(threads, events).value, ServerList)
  {
    assert DeleteServerList(rs)[1] == Acquire(ServerList);
    assert threads[i].todo[0] == DeleteServerList(rs)[1];
    SelfWaitIsForever(threads, events, i);
  }
}
