/** What the two sides of a connection are told about it while it lives and when it goes: new connections and
    messages, then one or two disconnects. */
module DriverTelling {
  import opened Seqs
  import opened DriverModel
  import opened DriverInvariant
  import opened DriverCommands
  import opened DriverTeardown
  import opened DriverClose
  import opened DriverSteps
  import opened MirrorDriver
  import opened DriverQueues
  import IdSpace
  import DriverPreservation
  import DriverFacts

  /** The kinds of those notifications in q that differ from n in nothing but the kind. */
  function KindsLike(q: seq<Notif>, n: Notif): seq<Kind> {
    if q == [] then []
    else (if q[0].(kind := n.kind) == n then [q[0].kind] else []) + KindsLike(q[1..], n)
  }

  lemma {:induction false} KindsLikeSum(q: seq<Notif>, q': seq<Notif>, n: Notif)
    ensures KindsLike(q + q', n) == KindsLike(q, n) + KindsLike(q', n)
  {
    if q == [] {
      assert q + q' == q';
    } else {
      assert (q + q')[0] == q[0] && (q + q')[1..] == q[1..] + q';
      KindsLikeSum(q[1..], q', n);
    }
  }

  /** The kinds of the notifications about connection k among q, as sent by one side. */
  function KindsOf(s: State, q: seq<Notif>, k: Ref, who: Sender): seq<Kind> {
    if Whole(s, k) then KindsLike(q, About(s, k, who, REMOTE_DISCONNECT)) else []
  }

  lemma KindsOfSum(s: State, q: seq<Notif>, q': seq<Notif>, k: Ref, who: Sender)
    ensures KindsOf(s, q + q', k, who) == KindsOf(s, q, k, who) + KindsOf(s, q', k, who)
  {
    if Whole(s, k) {
      KindsLikeSum(q, q', About(s, k, who, REMOTE_DISCONNECT));
    }
  }

  /** Connections may have gone since s0; those left carry the same names and belong to the same tasks. */
  ghost predicate NamedAs(s0: State, s: State) {
    forall k <- s.conns ::
      && Whole(s0, k) && Whole(s, k) && FactOf(s, k) == FactOf(s0, k)
      && Receiver(s, k, CLIENT) == Receiver(s0, k, CLIENT) && Receiver(s, k, SERVER) == Receiver(s0, k, SERVER)
  }

  lemma NamedAsTrimmed(s0: State, s: State)
    requires Inv(s0) && TornDown(s0, s)
    ensures NamedAs(s0, s)
  {
    hide Inv, Trimmed, OnlyDisconnects;
    AllWhole(s0);
    AllWhole(s);
    TrimmedKeys(s0, s);
    TrimmedSides(s0, s);
  }

  /** A notification is about no other connection than its own. */
  lemma NoteKinds(s0: State, s: State, who: Sender, kind: Kind, k: Ref, t: Ref, k': Ref, who': Sender)
    requires Inv(s0) && NamedAs(s0, s) && k in s.conns && k' in s0.conns
    ensures KindsOf(s0, Note(s, who, kind, k, t), k', who') ==
              if k == k' && who == who' && Receiver(s, k, who) == t then [kind] else []
  {
    hide Inv, FactOf, Whole, Receiver, KindsLike;
    AllWhole(s0);
    IdsTell(s0, k, k');
    KindsLikeOne(About(s, k, who, kind), About(s0, k', who', REMOTE_DISCONNECT));
    KindsLikeNone(About(s0, k', who', REMOTE_DISCONNECT));
  }

  lemma KindsLikeOne(n: Notif, m: Notif)
    ensures KindsLike([n], m) == if n.(kind := m.kind) == m then [n.kind] else []
  {
    assert [n][1..] == [];
  }

  lemma KindsLikeNone(m: Notif)
    ensures KindsLike([], m) == []
  {
  }

  predicate IsAbout(s: State, n: Notif, k: Ref, who: Sender) {
    Whole(s, k) && n == About(s, k, who, n.kind)
  }

  /** The notification tells task t about a connection of state s, and comes from the other side of it. */
  ghost predicate Concerns(s: State, n: Notif, t: Ref) {
    exists k, who :: IsAbout(s, n, k, who) && Receiver(s, k, who) == t
  }

  ghost predicate Spoken(s: State, q: seq<Notif>, t: Ref) {
    forall n <- q :: Concerns(s, n, t)
  }

  lemma NoteSpoken(s0: State, s: State, who: Sender, kind: Kind, k: Ref, t: Ref)
    requires NamedAs(s0, s) && k in s.conns
    ensures Spoken(s0, Note(s, who, kind, k, t), t)
  {
    hide FactOf;
    if Receiver(s, k, who) == t {
      assert IsAbout(s0, About(s, k, who, kind), k, who);
    }
  }

  lemma SpokenSum(s: State, q: seq<Notif>, q': seq<Notif>, t: Ref)
    requires Spoken(s, q, t) && Spoken(s, q', t)
    ensures Spoken(s, q + q', t)
  {
    hide Concerns;
  }

  /** On the way from s to s' each connection that goes is told of once on each side, and nothing else is said. */
  ghost predicate Tells(s0: State, s: State, s': State, q: seq<Notif>, t: Ref) {
    && Spoken(s0, q, t)
    && forall k, who | k in s0.conns ::
         KindsOf(s0, q, k, who) ==
           if k in s.conns && k !in s'.conns && Whole(s0, k) && Receiver(s0, k, who) == t then [REMOTE_DISCONNECT]
           else []
  }

  lemma TellsNothing(s0: State, s: State, t: Ref)
    ensures Tells(s0, s, s, [], t)
  {
  }

  lemma TellsTrans(s0: State, a: State, b: State, c: State, q: seq<Notif>, q': seq<Notif>, t: Ref)
    requires Tells(s0, a, b, q, t) && Tells(s0, b, c, q', t)
    requires c.conns.Keys <= b.conns.Keys <= a.conns.Keys
    ensures Tells(s0, a, c, q + q', t)
  {
    hide Whole, Receiver, KindsOf, Spoken;
    SpokenSum(s0, q, q', t);
    forall k, who | k in s0.conns
      ensures KindsOf(s0, q + q', k, who) ==
                if k in a.conns && k !in c.conns && Whole(s0, k) && Receiver(s0, k, who) == t then [REMOTE_DISCONNECT]
                else []
    {
      KindsOfSum(s0, q, q', k, who);
    }
  }

  lemma UnlinkTells(s0: State, s: State, k: Ref, t: Ref)
    requires Inv(s0) && Inv(s) && NamedAs(s0, s) && k in s.conns
    ensures Sendable(s, k) && Tells(s0, s, Unlink(s, k), UnlinkNotes(s, k, t), t)
  {
    hide Inv, Unlink, KindsOf, Note, Whole, Receiver, FactOf, Spoken;
    UnlinkInv(s, k);
    NoteSpoken(s0, s, SERVER, REMOTE_DISCONNECT, k, t);
    NoteSpoken(s0, s, CLIENT, REMOTE_DISCONNECT, k, t);
    SpokenSum(s0, Note(s, SERVER, REMOTE_DISCONNECT, k, t), Note(s, CLIENT, REMOTE_DISCONNECT, k, t), t);
    forall k', who | k' in s0.conns
      ensures KindsOf(s0, UnlinkNotes(s, k, t), k', who) ==
                if k' in s.conns && k' !in Unlink(s, k).conns && Whole(s0, k') && Receiver(s0, k', who) == t
                then [REMOTE_DISCONNECT]
                else []
    {
      NoteKinds(s0, s, SERVER, REMOTE_DISCONNECT, k, t, k', who);
      NoteKinds(s0, s, CLIENT, REMOTE_DISCONNECT, k, t, k', who);
      KindsOfSum(s0, Note(s, SERVER, REMOTE_DISCONNECT, k, t), Note(s, CLIENT, REMOTE_DISCONNECT, k, t), k', who);
    }
  }

  lemma NamedAsTrans(s0: State, s: State, s': State)
    requires NamedAs(s0, s) && NamedAs(s, s')
    ensures NamedAs(s0, s')
  {
    hide Whole, FactOf, Receiver;
    assert forall k <- s'.conns :: Whole(s, k) ==> k in s.conns by {
      WholeLive(s);
    }
  }

  lemma WholeLive(s: State)
    ensures forall k | Whole(s, k) :: k in s.conns
  {
  }

  lemma {:induction false} UnlinkAllTells(s0: State, s: State, ks: seq<Ref>, t: Ref)
    requires Inv(s0) && Inv(s) && NamedAs(s0, s) && Distinct(ks) && forall k <- ks :: k in s.conns
    ensures Tells(s0, s, UnlinkAll(s, ks), UnlinkAllNotes(s, ks, t), t)
    ensures TornDown(s, UnlinkAll(s, ks))
    decreases |ks|
  {
    hide Inv, Unlink, Distinct, UnlinkNotes, Trimmed, OnlyDisconnects, NamedAs, Tells;
    UnlinkAllTornDown(s, ks);
    if ks == [] {
      TellsNothing(s0, s, t);
    } else {
      var s1 := Unlink(s, ks[0]);
      UnlinkTells(s0, s, ks[0], t);
      UnlinkInv(s, ks[0]);
      UnlinkTrimmed(s, ks[0]);
      NamedAsTrimmed(s, s1);
      NamedAsTrans(s0, s, s1);
      DistinctTail(ks);
      UnlinkAllTells(s0, s1, ks[1..], t);
      TrimmedKeys(s, s1);
      TrimmedKeys(s1, UnlinkAll(s1, ks[1..]));
      TellsTrans(s0, s, s1, UnlinkAll(s1, ks[1..]), UnlinkNotes(s, ks[0], t), UnlinkAllNotes(s1, ks[1..], t), t);
    }
  }

  lemma {:induction false} CleanServersTells(s0: State, s: State, rs: seq<Ref>, t: Ref)
    requires Inv(s0) && Inv(s) && NamedAs(s0, s) && forall r <- rs :: r in s.servers
    ensures Tells(s0, s, CleanServers(s, rs), CleanServersNotes(s, rs, t), t)
    decreases |rs|
  {
    hide Inv, Trimmed, OnlyDisconnects, Distinct, ConnsBehind, UnlinkAllNotes, UnlinkAll, NamedAs, Tells;
    if rs == [] {
      TellsNothing(s0, s, t);
    } else {
      var s1 := CleanServer(s, rs[0]);
      ServerConns(s, rs[0]);
      UnlinkAllTells(s0, s, ConnsBehind(s.entries, s.servers[rs[0]].entries), t);
      NamedAsTrimmed(s, s1);
      NamedAsTrans(s0, s, s1);
      TrimmedKeys(s, s1);
      CleanServersTells(s0, s1, rs[1..], t);
      CleanServersTornDown(s1, rs[1..]);
      TrimmedKeys(s1, CleanServers(s1, rs[1..]));
      TellsTrans(s0, s, s1, CleanServers(s1, rs[1..]),
                 UnlinkAllNotes(s, ConnsBehind(s.entries, s.servers[rs[0]].entries), t),
                 CleanServersNotes(s1, rs[1..], t), t);
    }
  }

  lemma CleanClientTells(s0: State, s: State, c: Ref, t: Ref)
    requires Inv(s0) && Inv(s) && NamedAs(s0, s) && c in s.clients
    ensures Tells(s0, s, CleanClient(s, c),
                  if s.clients[c].conn == NULL then [] else UnlinkAllNotes(s, [s.clients[c].conn], t), t)
    ensures TornDown(s, CleanClient(s, c))
  {
    hide Inv, TornDown, UnlinkAllNotes, UnlinkAll, NamedAs, Tells;
    CleanClientTornDown(s, c);
    if s.clients[c].conn == NULL {
      TellsNothing(s0, s, t);
    } else {
      DriverFacts.ConnOfClient(s, c);
      UnlinkAllTells(s0, s, [s.clients[c].conn], t);
    }
  }

  lemma {:induction false} CleanClientsTells(s0: State, s: State, cs: seq<Ref>, t: Ref)
    requires Inv(s0) && Inv(s) && NamedAs(s0, s) && forall c <- cs :: c in s.clients
    ensures Tells(s0, s, CleanClients(s, cs), CleanClientsNotes(s, cs, t), t)
    decreases |cs|
  {
    hide Inv, Trimmed, OnlyDisconnects, UnlinkAllNotes, CleanClient, NamedAs, Tells;
    if cs == [] {
      TellsNothing(s0, s, t);
    } else {
      var s1 := CleanClient(s, cs[0]);
      CleanClientTells(s0, s, cs[0], t);
      NamedAsTrimmed(s, s1);
      NamedAsTrans(s0, s, s1);
      TrimmedKeys(s, s1);
      CleanClientsTells(s0, s1, cs[1..], t);
      CleanClientsTornDown(s1, cs[1..]);
      TrimmedKeys(s1, CleanClients(s1, cs[1..]));
      TellsTrans(s0, s, s1, CleanClients(s1, cs[1..]),
          if s.clients[cs[0]].conn == NULL then [] else UnlinkAllNotes(s, [s.clients[cs[0]].conn], t),
                 CleanClientsNotes(s1, cs[1..], t), t);
    }
  }

  // ---------- each system call ----------

  /** What one call says to task t about connection k. */
  ghost predicate SaysRight(s: State, s': State, q: seq<Notif>, t: Ref, k: Ref, who: Sender) {
    var kinds := KindsOf(s, q, k, who);
    if !Whole(s, k) || Receiver(s, k, who) != t then kinds == []
    else if k in s'.conns then kinds == [] || kinds == [NEW_MESSAGE] || kinds == [NEW_CONNECTION]
    else kinds == [REMOTE_DISCONNECT] || kinds == [REMOTE_DISCONNECT, REMOTE_DISCONNECT]
  }

  /** What a call that is about no living connection says about connection k. */
  ghost predicate SaysGone(s: State, s': State, q: seq<Notif>, t: Ref, k: Ref, who: Sender) {
    var kinds := KindsOf(s, q, k, who);
    if !Whole(s, k) || Receiver(s, k, who) != t || k in s'.conns then kinds == []
    else kinds == [REMOTE_DISCONNECT] || kinds == [REMOTE_DISCONNECT, REMOTE_DISCONNECT]
  }

  lemma NamedAsItself(s: State, s': State)
    requires Inv(s) && s' == s.(tasks := s'.tasks)
    ensures NamedAs(s, s')
  {
    hide Inv;
    AllWhole(s);
  }

  lemma QuietSays(s: State, s': State, t: Ref, k: Ref, who: Sender)
    requires k in s.conns && k in s'.conns
    ensures SaysRight(s, s', [], t, k, who) && SaysGone(s, s', [], t, k, who)
  {
  }

  lemma MessageSays(s: State, s': State, who: Sender, kind: Kind, k: Ref, t: Ref, k': Ref, who': Sender)
    requires Inv(s) && k in s.conns && k' in s.conns && kind != REMOTE_DISCONNECT && s'.conns.Keys == s.conns.Keys
    ensures SaysRight(s, s', Note(s, who, kind, k, t), t, k', who')
  {
    hide Inv, KindsOf, Note, FactOf, Whole;
    NamedAsItself(s, s);
    NoteKinds(s, s, who, kind, k, t, k', who');
  }

  lemma DisconnectSays(s: State, s': State, who: Sender, k: Ref, t: Ref, k': Ref, who': Sender)
    requires Inv(s) && k in s.conns && k' in s.conns && s'.conns.Keys == s.conns.Keys - {k}
    ensures SaysGone(s, s', DisconnectNotes(s, who, k, t), t, k', who')
  {
    hide Inv, KindsOf, Note, UnlinkAllNotes, UnlinkAll, FactOf, Whole, Notify, NamedAs, TornDown, Receiver;
    var s1 := Notify(s, who, REMOTE_DISCONNECT, k).0;
    AllWhole(s);
    NotifyShape(s, who, k);
    NamedAsItself(s, s);
    NamedAsItself(s, s1);
    NoteKinds(s, s, who, REMOTE_DISCONNECT, k, t, k', who');
    UnlinkAllTells(s, s1, [k], t);
    UnlinkAllTornDown(s1, [k]);
    assert UnlinkAll(s1, [k]).conns == s1.conns - {k};
    KindsOfSum(s, Note(s, who, REMOTE_DISCONNECT, k, t), UnlinkAllNotes(s1, [k], t), k', who');
  }

  lemma NotifyShape(s: State, who: Sender, k: Ref)
    requires Inv(s) && k in s.conns
    ensures var s1 := Notify(s, who, REMOTE_DISCONNECT, k).0; Inv(s1) && s1 == s.(tasks := s1.tasks)
  {
    hide Inv;
    DriverFacts.SendSucceeds(s, k, REMOTE_DISCONNECT);
  }

  lemma TellsSays(s: State, s': State, s'': State, q: seq<Notif>, t: Ref, k: Ref, who: Sender)
    requires Inv(s) && Tells(s, s, s', q, t) && k in s.conns && s''.conns == s'.conns
    ensures SaysGone(s, s'', q, t, k, who)
  {
    hide Inv, KindsOf, Spoken;
    AllWhole(s);
  }

  lemma ServerUnregisterSays(s: State, cmd: Cmd, t: Ref, k: Ref, who: Sender)
    requires CmdOk(s, cmd) && Inv(s) && k in s.conns && cmd.ServerUnregister?
    ensures SaysGone(s, Step(s, cmd).0, SentBy(s, cmd, t), t, k, who)
  {
    hide Inv, UnlinkAllNotes, UnlinkAll, ConnsBehind, Distinct, SaysGone, Tells, TornDown, NamedAs;
    var r := ServerById(s, cmd.serverId);
    if r != NULL {
      ServerConns(s, r);
      NamedAsItself(s, s);
      UnlinkAllTells(s, s, ConnsBehind(s.entries, s.servers[r].entries), t);
      TellsSays(s, CleanServer(s, r), Step(s, cmd).0, SentBy(s, cmd, t), t, k, who);
    } else {
      QuietSays(s, s, t, k, who);
    }
  }

  lemma CloseSays(s: State, cmd: Cmd, t: Ref, k: Ref, who: Sender)
    requires CmdOk(s, cmd) && Inv(s) && k in s.conns && cmd.Close?
    ensures SaysGone(s, Step(s, cmd).0, SentBy(s, cmd, t), t, k, who)
  {
    hide Inv, CleanServers, CleanClients, CloseTask, CleanServersNotes, CleanClientsNotes, Trimmed, OnlyDisconnects,
         Distinct, Touches, OwnIds, SaysGone, Tells, NamedAs;
    var x := cmd.t;
    CloseTells(s, x, t);
    CloseConns(s, x);
    TellsSays(s, Disconnected(s, x), CloseTask(s, x), SentBy(s, cmd, t), t, k, who);
  }

  lemma CloseTells(s: State, x: Ref, t: Ref)
    requires x in s.tasks && Inv(s)
    ensures Tells(s, s, Disconnected(s, x),
                  CleanServersNotes(s, s.tasks[x].servers, t) +
                      CleanClientsNotes(CleanServers(s, s.tasks[x].servers), s.tasks[x].clients, t), t)
  {
    hide Inv, CleanServers, CleanClients, CleanServersNotes, CleanClientsNotes, Trimmed, OnlyDisconnects, Distinct,
         Tells, NamedAs;
    var rs, cs := s.tasks[x].servers, s.tasks[x].clients;
    TaskMembers(s, x);
    NamedAsItself(s, s);
    CleanServersTells(s, s, rs, t);
    CleanServersTornDown(s, rs);
    var s1 := CleanServers(s, rs);
    NamedAsTrimmed(s, s1);
    TrimmedKeys(s, s1);
    CleanClientsTells(s, s1, cs, t);
    CleanClientsTornDown(s1, cs);
    var s2 := CleanClients(s1, cs);
    TrimmedKeys(s1, s2);
    TellsTrans(s, s, s1, s2, CleanServersNotes(s, rs, t), CleanClientsNotes(s1, cs, t), t);
  }

  lemma CloseConns(s: State, x: Ref)
    requires x in s.tasks && Inv(s)
    ensures CloseTask(s, x).conns == Disconnected(s, x).conns
  {
    hide Inv, CloseTask, OnlyDisconnects, TrimmedSubs, TrimmedEntries, Touches, OwnIds, CleanServers, CleanClients;
    CloseTaskEffect(s, x);
    DisconnectedEffect(s, x);
  }

  lemma NotifyStays(s: State, who: Sender, kind: Kind, k: Ref)
    ensures Notify(s, who, kind, k).0.conns == s.conns
  {
  }

  lemma MessageCallSays(s: State, cmd: Cmd, t: Ref, k: Ref, who: Sender)
    requires CmdOk(s, cmd) && Inv(s) && k in s.conns
    requires cmd.ClientEndWriting? || cmd.ServerEndWriting? || cmd.Mmap?
    ensures SaysRight(s, Step(s, cmd).0, SentBy(s, cmd, t), t, k, who)
  {
    hide Inv, SaysRight, Note, Notify;
    if cmd.ServerEndWriting? {
      var r := ServerById(s, cmd.serverId);
      if r != NULL && EntryByMem(s, r, cmd.subId) != NULL {
        MessageSays(s, Step(s, cmd).0, SERVER, NEW_MESSAGE, s.entries[EntryByMem(s, r, cmd.subId)], t, k, who) by {
          NotifyStays(s, SERVER, NEW_MESSAGE, s.entries[EntryByMem(s, r, cmd.subId)]);
        }
      } else {
        QuietSays(s, s, t, k, who);
      }
    } else {
      var c := ClientById(s, if cmd.Mmap? then cmd.targetId else cmd.clientId);
      if c != NULL && s.clients[c].conn != NULL {
        var kind := if cmd.Mmap? then NEW_CONNECTION else NEW_MESSAGE;
        DriverFacts.ConnOfClient(s, c);
        NotifyStays(s, CLIENT, kind, s.clients[c].conn);
        MessageSays(s, Step(s, cmd).0, CLIENT, kind, s.clients[c].conn, t, k, who);
      } else {
        QuietSays(s, s, t, k, who);
      }
    }
  }

  lemma DisconnectCallSays(s: State, cmd: Cmd, t: Ref, k: Ref, who: Sender)
    requires CmdOk(s, cmd) && Inv(s) && k in s.conns
    requires cmd.ClientDisconnect? || cmd.ClientUnregister? || cmd.ServerDisconnect?
    ensures SaysGone(s, Step(s, cmd).0, SentBy(s, cmd, t), t, k, who)
  {
    hide Inv, SaysGone, DisconnectNotes, Notify, UnlinkAll, TornDown;
    if cmd.ServerDisconnect? {
      var r := ServerById(s, cmd.serverId);
      if r != NULL && EntryByMem(s, r, cmd.subId) != NULL {
        var x := s.entries[EntryByMem(s, r, cmd.subId)];
        DisconnectTornDown(s, SERVER, x);
        DisconnectSays(s, Step(s, cmd).0, SERVER, x, t, k, who);
      } else {
        QuietSays(s, s, t, k, who);
      }
    } else {
      var c := ClientById(s, cmd.clientId);
      if c != NULL && s.clients[c].conn != NULL {
        DriverFacts.ConnOfClient(s, c);
        DisconnectTornDown(s, CLIENT, s.clients[c].conn);
        DisconnectSays(s, Step(s, cmd).0, CLIENT, s.clients[c].conn, t, k, who);
      } else {
        QuietSays(s, s, t, k, who);
      }
    }
  }

  lemma RegisterSays(s: State, cmd: Cmd, t: Ref, k: Ref, who: Sender)
    requires CmdOk(s, cmd) && Inv(s) && k in s.conns
    requires cmd.Read? || cmd.Open? || cmd.RegisterServer? || cmd.RegisterClient? || cmd.RegisterMonitor? ||
            cmd.Connect?
    ensures SaysGone(s, Step(s, cmd).0, SentBy(s, cmd, t), t, k, who)
  {
    hide Inv, SentBy, Registered, HasMonitor, ServerByName, IdSpace.GenerateId, Taken, SaysGone, SaysRight, WithRoom,
         FreeSub, Distinct;
    QuietCall(s, cmd, t);
    if cmd.Connect? && ClientById(s, cmd.clientId) != NULL && s.clients[ClientById(s, cmd.clientId)].conn == NULL {
      WithRoomInv(s, ClientById(s, cmd.clientId), cmd.p, cmd.us);
    }
    QuietSays(s, Step(s, cmd).0, t, k, who);
  }

  /** One call tells each side of a connection at most one thing about it, unless the connection goes: then it
      tells of that once or twice, and of nothing else. */
  lemma StepSays(s: State, cmd: Cmd, t: Ref, k: Ref, who: Sender)
    requires CmdOk(s, cmd) && Reachable(s) && k in s.conns
    ensures SaysRight(s, Step(s, cmd).0, SentBy(s, cmd, t), t, k, who)
  {
    hide Inv, Reachable, SaysRight, SaysGone, SentBy, Step, CmdOk;
    ReachableInv(s);
    GoneIsRight(s, Step(s, cmd).0, SentBy(s, cmd, t), t, k, who);
    match cmd
    case ClientEndWriting(_) => MessageCallSays(s, cmd, t, k, who);
    case ServerEndWriting(_, _) => MessageCallSays(s, cmd, t, k, who);
    case Mmap(_, _) => MessageCallSays(s, cmd, t, k, who);
    case ClientDisconnect(_) => DisconnectCallSays(s, cmd, t, k, who);
    case ServerDisconnect(_, _) => DisconnectCallSays(s, cmd, t, k, who);
    case ClientUnregister(_) => DisconnectCallSays(s, cmd, t, k, who);
    case ServerUnregister(_) => ServerUnregisterSays(s, cmd, t, k, who);
    case Close(_) => CloseSays(s, cmd, t, k, who);
    case _ => RegisterSays(s, cmd, t, k, who);
  }

  lemma GoneIsRight(s: State, s': State, q: seq<Notif>, t: Ref, k: Ref, who: Sender)
    ensures SaysGone(s, s', q, t, k, who) ==> SaysRight(s, s', q, t, k, who)
  {
  }

  // ---------- a connection keeps its names ----------

  ghost predicate SameConn(s: State, s': State, k: Ref) {
    && Whole(s, k) && Whole(s', k) && FactOf(s', k) == FactOf(s, k)
    && Receiver(s', k, CLIENT) == Receiver(s, k, CLIENT) && Receiver(s', k, SERVER) == Receiver(s, k, SERVER)
  }

  /** Objects that are in both states have the same identifiers, tasks and ends. */
  ghost predicate Steady(s: State, s': State) {
    && (forall c | c in s.clients && c in s'.clients :: s'.clients[c].id == s.clients[c].id &&
         s'.clients[c].task == s.clients[c].task)
    && (forall r | r in s.servers && r in s'.servers :: s'.servers[r].id == s.servers[r].id &&
         s'.servers[r].task == s.servers[r].task)
    && (forall u | u in s.subs && u in s'.subs :: s'.subs[u].id == s.subs[u].id)
    && (forall k | k in s.conns && k in s'.conns :: s'.conns[k] == s.conns[k].(mapped := s'.conns[k].mapped))
  }

  lemma SteadySame(s: State, s': State, k: Ref)
    requires Inv(s) && Inv(s') && Steady(s, s') && k in s.conns && k in s'.conns
    ensures SameConn(s, s', k)
  {
    hide Inv;
    AllWhole(s);
    AllWhole(s');
  }

  lemma TrimmedSteady(s: State, s': State)
    requires Trimmed(s, s')
    ensures Steady(s, s')
  {
    hide TrimmedEntries;
  }

  lemma TearDownSteady(s: State, cmd: Cmd)
    requires CmdOk(s, cmd) && Inv(s)
    requires cmd.ClientDisconnect? || cmd.ServerDisconnect? || cmd.ClientUnregister? || cmd.ServerUnregister?
    ensures Steady(s, Step(s, cmd).0)
  {
    hide Inv, Trimmed, OnlyDisconnects, Notify, UnlinkAll, CleanServer, RemoveClient, RemoveServer, Steady;
    ItselfSteady(s);
    if cmd.ClientDisconnect? || cmd.ClientUnregister? {
      var c := ClientById(s, cmd.clientId);
      if c != NULL && s.clients[c].conn != NULL {
        DriverFacts.ConnOfClient(s, c);
        var s1 := ClientDisconnectStep(s, cmd.clientId).0;
        DisconnectTornDown(s, CLIENT, s.clients[c].conn);
        TrimmedSteady(s, s1);
        if Step(s, cmd).0 != s1 {
          TrimmedKeys(s, s1);
          ClientRemovedSteady(s, s1, c);
        }
      }
    } else {
      var r := ServerById(s, cmd.serverId);
      if r != NULL && cmd.ServerUnregister? {
        CleanServerTornDown(s, r);
        TrimmedSteady(s, CleanServer(s, r));
        TrimmedKeys(s, CleanServer(s, r));
        ServerRemovedSteady(s, CleanServer(s, r), r);
      } else if r != NULL && EntryByMem(s, r, cmd.subId) != NULL {
        var x := s.entries[EntryByMem(s, r, cmd.subId)];
        DisconnectTornDown(s, SERVER, x);
        TrimmedSteady(s, Step(s, cmd).0);
      }
    }
  }

  lemma ItselfSteady(s: State)
    ensures Steady(s, s)
  {
  }

  lemma ClientRemovedSteady(s: State, s1: State, c: Ref)
    requires Steady(s, s1) && s1.clients.Keys == s.clients.Keys && s1.servers.Keys == s.servers.Keys
    ensures Steady(s, DestroyClient(s1, c))
  {
    hide Remove, Freed;
  }

  lemma ServerRemovedSteady(s: State, s1: State, r: Ref)
    requires Steady(s, s1) && s1.clients.Keys == s.clients.Keys && s1.servers.Keys == s.servers.Keys
    ensures Steady(s, DestroyServer(s1, r))
  {
    hide Remove, Freed;
  }

  lemma CloseSteady(s: State, t: Ref)
    requires Inv(s) && t in s.tasks
    ensures Steady(s, CloseTask(s, t))
  {
    hide Inv, CloseTask, OnlyDisconnects, TrimmedEntries, Touches, OwnIds;
    CloseTaskEffect(s, t);
  }

  lemma OtherSteady(s: State, cmd: Cmd)
    requires CmdOk(s, cmd) && Inv(s)
    requires cmd.Open? || cmd.RegisterServer? || cmd.RegisterClient? || cmd.RegisterMonitor? || cmd.Read?
    ensures Steady(s, Step(s, cmd).0)
  {
    hide Inv, Steady, RegisterServerStep, RegisterClientStep, OpenStep, RegisterMonitorStep, ReadStep;
    match cmd
    case RegisterServer(t, name, r) =>
      RegisterServerGrows(s, t, name, r);
      GrownSteady(s, RegisterServerStep(s, t, name, r).0);
    case RegisterClient(t, c) =>
      RegisterClientGrows(s, t, c);
      GrownSteady(s, RegisterClientStep(s, t, c).0);
    case Open(process, t) => OpenSteady(s, process, t);
    case RegisterMonitor(t) => TaskOnlySteady(s, t, 0);
    case Read(t, count) => TaskOnlySteady(s, t, count);
  }

  lemma OpenSteady(s: State, process: nat, t: Ref)
    ensures Steady(s, OpenStep(s, process, t).0)
  {
    hide Registered;
  }

  lemma TaskOnlySteady(s: State, t: Ref, count: int)
    requires t in s.tasks
    ensures Steady(s, RegisterMonitorStep(s, t).0) && Steady(s, ReadStep(s, t, count).0)
  {
    hide RegisterMonitorStep, ReadStep, Steady;
    TaskOnly(s, t, count);
    GrownSteady(s, RegisterMonitorStep(s, t).0);
    GrownSteady(s, ReadStep(s, t, count).0);
  }

  lemma TaskOnly(s: State, t: Ref, count: int)
    requires t in s.tasks
    ensures var s' := RegisterMonitorStep(s, t).0; s' == s.(tasks := s'.tasks)
    ensures var s' := ReadStep(s, t, count).0; s' == s.(tasks := s'.tasks)
  {
    hide HasMonitor;
  }

  lemma RegisterServerGrows(s: State, t: Ref, name: string, r: Ref)
    requires t in s.tasks && r !in s.servers
    ensures var s' := RegisterServerStep(s, t, name, r).0;
            && s'.conns == s.conns && s'.subs == s.subs && s'.clients == s.clients
            && forall x <- s.servers :: x in s'.servers && s'.servers[x] == s.servers[x]
  {
    hide ServerByName, IdSpace.GenerateId, Taken;
  }

  lemma RegisterClientGrows(s: State, t: Ref, c: Ref)
    requires t in s.tasks && c !in s.clients
    ensures var s' := RegisterClientStep(s, t, c).0;
            && s'.conns == s.conns && s'.subs == s.subs && s'.servers == s.servers
            && forall x <- s.clients :: x in s'.clients && s'.clients[x] == s.clients[x]
  {
    hide IdSpace.GenerateId, Taken;
  }

  lemma GrownSteady(s: State, s': State)
    requires s'.conns == s.conns && s'.subs == s.subs
    requires forall c <- s.clients :: c in s'.clients && s'.clients[c] == s.clients[c]
    requires forall r <- s.servers :: r in s'.servers && s'.servers[r] == s.servers[r]
    ensures Steady(s, s')
  {
  }

  lemma NotifySteady(s: State, who: Sender, kind: Kind, k: Ref)
    ensures Steady(s, Notify(s, who, kind, k).0) && Steady(s, MapClient(s, k))
  {
    hide Notify;
    NotifyTasks(s, who, kind, k);
    NotifyTasks(s, CLIENT, NEW_CONNECTION, k);
  }

  lemma NotifyTasks(s: State, who: Sender, kind: Kind, k: Ref)
    ensures var s' := Notify(s, who, kind, k).0; s' == s.(tasks := s'.tasks)
  {
  }

  lemma MessageSteady(s: State, cmd: Cmd)
    requires CmdOk(s, cmd) && Inv(s) && (cmd.ClientEndWriting? || cmd.ServerEndWriting? || cmd.Mmap?)
    ensures Steady(s, Step(s, cmd).0)
  {
    hide Inv, Notify, MapClient, Steady;
    ItselfSteady(s);
    if cmd.ServerEndWriting? {
      var r := ServerById(s, cmd.serverId);
      if r != NULL && EntryByMem(s, r, cmd.subId) != NULL {
        NotifySteady(s, SERVER, NEW_MESSAGE, s.entries[EntryByMem(s, r, cmd.subId)]);
      }
    } else {
      var c := ClientById(s, if cmd.Mmap? then cmd.targetId else cmd.clientId);
      if c != NULL {
        NotifySteady(s, CLIENT, NEW_MESSAGE, s.clients[c].conn);
      }
    }
  }

  lemma ConnectSteady(s: State, cmd: Cmd)
    requires CmdOk(s, cmd) && Inv(s) && cmd.Connect?
    ensures Steady(s, Step(s, cmd).0)
  {
    hide Inv, WithRoom, FreeSub, Distinct, AddConn;
    var c := ClientById(s, cmd.clientId);
    if Step(s, cmd).1 == 0 {
      var s1 := WithRoom(s, cmd.p, cmd.us);
      WithRoomInv(s, c, cmd.p, cmd.us);
      WithRoomSteady(s, cmd.p, cmd.us);
      AddConnSteady(s, s1, c, ServerByName(s, cmd.name), FreeSub(s1, s1.poolList), cmd.k, cmd.e);
    }
  }

  lemma WithRoomSteady(s: State, p: Ref, us: seq<Ref>)
    requires |us| == SHM_POOL_SIZE && Distinct(us) && forall u <- us :: u !in s.subs
    ensures Steady(s, WithRoom(s, p, us))
  {
    hide Distinct, FreeSub, IdSpace.GenerateId, Taken, AddSubs;
    DriverPreservation.AddSubsEffect(s, us);
  }

  lemma AddConnSteady(s: State, s1: State, c: Ref, r: Ref, u: Ref, k: Ref, e: Ref)
    requires Steady(s, s1) && c in s1.clients && r in s1.servers && u in s1.subs && k !in s.conns
    ensures Steady(s, AddConn(s1, c, r, u, k, e))
  {
  }

  /** A connection that survives a call is still between the same client and server over the same sub-memory. */
  lemma StepSameConn(s: State, cmd: Cmd, k: Ref)
    requires CmdOk(s, cmd) && Reachable(s) && k in s.conns && k in Step(s, cmd).0.conns
    ensures SameConn(s, Step(s, cmd).0, k)
  {
    hide Inv, Reachable, Step, CmdOk, Steady;
    ReachableInv(s);
    StepInv(s, cmd);
    StepSteady(s, cmd);
    SteadySame(s, Step(s, cmd).0, k);
  }

  lemma StepSteady(s: State, cmd: Cmd)
    requires CmdOk(s, cmd) && Inv(s)
    ensures Steady(s, Step(s, cmd).0)
  {
    hide Inv, Steady, OpenStep, RegisterServerStep, RegisterClientStep, RegisterMonitorStep, ConnectStep,
         ClientEndWritingStep, ServerEndWritingStep, ClientDisconnectStep, ServerDisconnectStep, ClientUnregisterStep,
         ServerUnregisterStep, MmapStep, ReadStep, CloseTask, Distinct;
    match cmd
    case Connect(_, _, _, _, _, _) => ConnectSteady(s, cmd);
    case ClientEndWriting(_) => MessageSteady(s, cmd);
    case ServerEndWriting(_, _) => MessageSteady(s, cmd);
    case Mmap(_, _) => MessageSteady(s, cmd);
    case ClientDisconnect(_) => TearDownSteady(s, cmd);
    case ServerDisconnect(_, _) => TearDownSteady(s, cmd);
    case ClientUnregister(_) => TearDownSteady(s, cmd);
    case ServerUnregister(_) => TearDownSteady(s, cmd);
    case Close(t) => CloseSteady(s, t);
    case _ => OtherSteady(s, cmd);
  }

  // ---------- whole runs ----------

  /** Connection k exists from state i to state j of a run. */
  ghost predicate Lives(states: seq<State>, k: Ref, i: nat, j: nat) {
    i <= j < |states| && forall x | i <= x <= j :: k in states[x].conns
  }

  lemma {:induction false} NamesStay(states: seq<State>, cmds: seq<Cmd>, k: Ref, i: nat, j: nat)
    requires Behavior(states, cmds) && Lives(states, k, i, j)
    ensures SameConn(states[i], states[j], k)
    decreases j
  {
    hide Inv, Reachable, Step, CmdOk, Whole, FactOf, Receiver;
    AlwaysInv(states, cmds, j);
    if i == j {
      AllWhole(states[j]);
    } else {
      AlwaysInv(states, cmds, j - 1);
      NamesStay(states, cmds, k, i, j - 1);
      RunReachable(states, cmds, j - 1);
      StepSameConn(states[j - 1], cmds[j - 1], k);
    }
  }

  ghost predicate OnlyNews(kinds: seq<Kind>) {
    forall x <- kinds :: x == NEW_CONNECTION || x == NEW_MESSAGE
  }

  lemma SayKinds(s0: State, s: State, q: seq<Notif>, k: Ref, who: Sender)
    requires SameConn(s0, s, k)
    ensures KindsOf(s0, q, k, who) == KindsOf(s, q, k, who) && Receiver(s0, k, who) == Receiver(s, k, who)
  {
    hide KindsLike;
  }

  /** While a connection lives its sides hear of new connections and messages only. */
  lemma {:induction false} NewsWhileAlive(states: seq<State>, cmds: seq<Cmd>, k: Ref, who: Sender, t: Ref, i: nat,
                                          j: nat)
    requires Behavior(states, cmds) && Lives(states, k, i, j)
    ensures OnlyNews(KindsOf(states[i], Sent(states, cmds, t, i, j), k, who))
    decreases j
  {
    hide Inv, Reachable, Step, CmdOk, SentBy, Whole, SameConn, KindsOf, Receiver;
    if i == j {
      KindsOfNothing(states[i], k, who);
    } else {
      NewsWhileAlive(states, cmds, k, who, t, i, j - 1);
      AlwaysInv(states, cmds, j - 1);
      RunReachable(states, cmds, j - 1);
      StepSays(states[j - 1], cmds[j - 1], t, k, who);
      assert states[(j - 1) + 1] == Step(states[j - 1], cmds[j - 1]).0;
      NamesStay(states, cmds, k, i, j - 1);
      SayKinds(states[i], states[j - 1], SentBy(states[j - 1], cmds[j - 1], t), k, who);
      KindsOfSum(states[i], Sent(states, cmds, t, i, j - 1), SentBy(states[j - 1], cmds[j - 1], t), k, who);
    }
  }

  lemma KindsOfNothing(s: State, k: Ref, who: Sender)
    ensures KindsOf(s, [], k, who) == []
  {
  }

  /** The whole story of a connection, as the other side's task hears it: news, then one or two disconnects. */
  lemma ConnectionStory(states: seq<State>, cmds: seq<Cmd>, k: Ref, who: Sender, i: nat, j: nat)
      returns (news: seq<Kind>, end: seq<Kind>)
    requires Behavior(states, cmds) && Lives(states, k, i, j) && j + 1 < |states| && k !in states[j + 1].conns
    ensures Whole(states[i], k) && OnlyNews(news) && (end == [REMOTE_DISCONNECT] ||
            end == [REMOTE_DISCONNECT, REMOTE_DISCONNECT])
    ensures KindsOf(states[i], Sent(states, cmds, Receiver(states[i], k, who), i, j + 1), k, who) == news + end
  {
    hide Inv, Reachable, Step, CmdOk, SentBy, KindsOf, FactOf;
    AlwaysInv(states, cmds, i);
    AlwaysInv(states, cmds, j);
    AllWhole(states[i]);
    AllWhole(states[j]);
    var t := Receiver(states[i], k, who);
    NewsWhileAlive(states, cmds, k, who, t, i, j);
    NamesStay(states, cmds, k, i, j);
    RunReachable(states, cmds, j);
    StepSays(states[j], cmds[j], t, k, who);
    SayKinds(states[i], states[j], SentBy(states[j], cmds[j], t), k, who);
    KindsOfSum(states[i], Sent(states, cmds, t, i, j), SentBy(states[j], cmds[j], t), k, who);
    news := KindsOf(states[i], Sent(states, cmds, t, i, j), k, who);
    end := KindsOf(states[i], SentBy(states[j], cmds[j], t), k, who);
  }
}
