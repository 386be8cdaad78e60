/** The whole life of a connection as its two sides hear it: what every notification is about, and that nothing is
    said about a connection that is gone. */
module DriverLives {
  import opened DriverModel
  import opened DriverInvariant
  import opened DriverCommands
  import opened DriverSteps
  import opened MirrorDriver
  import opened DriverQueues
  import opened DriverTelling
  import Seqs
  import DriverFacts
  import DriverTeardown
  import DriverClose
  // ---------- nothing is said that is not about a connection ----------

  lemma SilenceSpoken(s: State, t: Ref)
    ensures Spoken(s, [], t)
  {
  }

  lemma MessageSpoken(s: State, cmd: Cmd, t: Ref)
    requires CmdOk(s, cmd) && Inv(s) && (cmd.ClientEndWriting? || cmd.ServerEndWriting? || cmd.Mmap?)
    ensures Spoken(s, SentBy(s, cmd, t), t)
  {
    hide Inv, Note, Spoken, NamedAs;
    SilenceSpoken(s, t);
    NamedAsItself(s, s);
    if cmd.ServerEndWriting? {
      var r := ServerById(s, cmd.serverId);
      if r != NULL && EntryByMem(s, r, cmd.subId) != NULL {
        NoteSpoken(s, s, SERVER, NEW_MESSAGE, s.entries[EntryByMem(s, r, cmd.subId)], t);
      }
    } else {
      var c := ClientById(s, if cmd.Mmap? then cmd.targetId else cmd.clientId);
      if c != NULL && s.clients[c].conn != NULL {
        DriverFacts.ConnOfClient(s, c);
        NoteSpoken(s, s, CLIENT, if cmd.Mmap? then NEW_CONNECTION else NEW_MESSAGE, s.clients[c].conn, t);
      }
    }
  }

  lemma TellsSpoken(s0: State, s: State, s': State, q: seq<Notif>, t: Ref)
    requires Tells(s0, s, s', q, t)
    ensures Spoken(s0, q, t)
  {
  }

  lemma DisconnectNotesSpoken(s: State, who: Sender, k: Ref, t: Ref)
    requires Inv(s) && k in s.conns
    ensures Spoken(s, DisconnectNotes(s, who, k, t), t)
  {
    hide Inv, Note, UnlinkAllNotes, UnlinkAll, Notify, NamedAs, DriverTeardown.TornDown, Spoken, Tells;
    var s1 := Notify(s, who, REMOTE_DISCONNECT, k).0;
    NotifyShape(s, who, k);
    NamedAsItself(s, s);
    NamedAsItself(s, s1);
    NoteSpoken(s, s, who, REMOTE_DISCONNECT, k, t);
    UnlinkAllTells(s, s1, [k], t);
    TellsSpoken(s, s1, UnlinkAll(s1, [k]), UnlinkAllNotes(s1, [k], t), t);
    SpokenSum(s, Note(s, who, REMOTE_DISCONNECT, k, t), UnlinkAllNotes(s1, [k], t), t);
  }

  lemma DisconnectSpoken(s: State, cmd: Cmd, t: Ref)
    requires CmdOk(s, cmd) && Inv(s) && (cmd.ClientDisconnect? || cmd.ClientUnregister? || cmd.ServerDisconnect?)
    ensures Spoken(s, SentBy(s, cmd, t), t)
  {
    hide Inv, DisconnectNotes, Spoken;
    SilenceSpoken(s, t);
    if cmd.ServerDisconnect? {
      var r := ServerById(s, cmd.serverId);
      if r != NULL && EntryByMem(s, r, cmd.subId) != NULL {
        DisconnectNotesSpoken(s, SERVER, s.entries[EntryByMem(s, r, cmd.subId)], t);
      }
    } else {
      var c := ClientById(s, cmd.clientId);
      if c != NULL && s.clients[c].conn != NULL {
        DriverFacts.ConnOfClient(s, c);
        DisconnectNotesSpoken(s, CLIENT, s.clients[c].conn, t);
      }
    }
  }

  lemma TeardownSpoken(s: State, cmd: Cmd, t: Ref)
    requires CmdOk(s, cmd) && Inv(s) && (cmd.ServerUnregister? || cmd.Close?)
    ensures Spoken(s, SentBy(s, cmd, t), t)
  {
    hide Inv, UnlinkAllNotes, UnlinkAll, ConnsBehind, Seqs.Distinct, Tells, DriverTeardown.TornDown, NamedAs,
         CleanServers, CleanClients, CleanServersNotes, CleanClientsNotes, Spoken;
    if cmd.Close? {
      CloseTells(s, cmd.t, t);
      TellsSpoken(s, s, DriverClose.Disconnected(s, cmd.t), SentBy(s, cmd, t), t);
    } else {
      SilenceSpoken(s, t);
      var r := ServerById(s, cmd.serverId);
      if r != NULL {
        DriverTeardown.ServerConns(s, r);
        NamedAsItself(s, s);
        UnlinkAllTells(s, s, ConnsBehind(s.entries, s.servers[r].entries), t);
        TellsSpoken(s, s, CleanServer(s, r), SentBy(s, cmd, t), t);
      }
    }
  }

  /** Every notification that a call sends is about a connection that exists when the call is made, carries the
      names of its two ends and its sub-memory, and goes to the task of the end that did not send it. */
  lemma StepSpoken(s: State, cmd: Cmd, t: Ref)
    requires CmdOk(s, cmd) && Reachable(s)
    ensures Spoken(s, SentBy(s, cmd, t), t)
  {
    hide Inv, Reachable, Spoken, SentBy, CmdOk;
    ReachableInv(s);
    match cmd
    case ClientEndWriting(_) => MessageSpoken(s, cmd, t);
    case ServerEndWriting(_, _) => MessageSpoken(s, cmd, t);
    case Mmap(_, _) => MessageSpoken(s, cmd, t);
    case ClientDisconnect(_) => DisconnectSpoken(s, cmd, t);
    case ServerDisconnect(_, _) => DisconnectSpoken(s, cmd, t);
    case ClientUnregister(_) => DisconnectSpoken(s, cmd, t);
    case ServerUnregister(_) => TeardownSpoken(s, cmd, t);
    case Close(_) => TeardownSpoken(s, cmd, t);
    case _ =>
      QuietCall(s, cmd, t);
      SilenceSpoken(s, t);
  }

  // ---------- names ----------

  /** Connection k carries the names that notification n mentions, n being sent by one of its sides. */
  predicate Bears(s: State, k: Ref, n: Notif) {
    IsAbout(s, n, k, n.who)
  }

  ghost predicate Borne(s: State, n: Notif) {
    exists k :: Bears(s, k, n)
  }

  lemma {:induction false} NoneLike(s: State, q: seq<Notif>, t: Ref, n: Notif)
    requires Spoken(s, q, t) && (!Borne(s, n) || forall k | Bears(s, k, n) :: Receiver(s, k, n.who) != t)
    ensures KindsLike(q, n) == []
  {
    hide FactOf, Whole, Receiver, Bears;
    if q != [] {
      assert Spoken(s, q[1..], t);
      NoneLike(s, q[1..], t, n);
      if q[0].(kind := n.kind) == n {
        assert Concerns(s, q[0], t);
        var k, who :| IsAbout(s, q[0], k, who) && Receiver(s, k, who) == t;
        LikeBears(s, q[0], k, who, n);
      }
    }
  }

  lemma LikeBears(s: State, n0: Notif, k: Ref, who: Sender, n: Notif)
    requires IsAbout(s, n0, k, who) && n0.(kind := n.kind) == n
    ensures Bears(s, k, n) && n.who == who
  {
    hide FactOf;
  }

  /** A call says to task t about a set of names what it says about the connection that bears them at that moment,
      whichever connection bore them before; if none does, it says nothing about them. */
  lemma HeardOf(s: State, cmd: Cmd, t: Ref, n: Notif)
    requires CmdOk(s, cmd) && Reachable(s) && n.kind == REMOTE_DISCONNECT
    ensures !Borne(s, n) ==> KindsLike(SentBy(s, cmd, t), n) == []
    ensures forall k | Bears(s, k, n) ::
              && (forall k' | Bears(s, k', n) :: k' == k)
              && KindsLike(SentBy(s, cmd, t), n) == KindsOf(s, SentBy(s, cmd, t), k, n.who)
              && SaysRight(s, Step(s, cmd).0, SentBy(s, cmd, t), t, k, n.who)
  {
    hide Inv, Reachable, CmdOk, SentBy, Step, Spoken, SaysRight, FactOf, Receiver;
    ReachableInv(s);
    StepSpoken(s, cmd, t);
    if !Borne(s, n) {
      NoneLike(s, SentBy(s, cmd, t), t, n);
    }
    forall k | Bears(s, k, n)
      ensures forall k' | Bears(s, k', n) :: k' == k
      ensures SaysRight(s, Step(s, cmd).0, SentBy(s, cmd, t), t, k, n.who)
    {
      StepSays(s, cmd, t, k, n.who);
      forall k' | Bears(s, k', n) ensures k' == k {
        OneBearer(s, k, k', n);
      }
    }
  }

  lemma OneBearer(s: State, k: Ref, k': Ref, n: Notif)
    requires Inv(s) && Bears(s, k, n) && Bears(s, k', n)
    ensures k == k'
  {
    hide Inv;
    IdsTell(s, k, k');
  }

  // ---------- whole lives ----------

  /** After connection k has gone, and as long as no other connection bears its names, no task hears of them. */
  lemma {:induction false} SilenceAfter(states: seq<State>, cmds: seq<Cmd>, n: Notif, t: Ref, i: nat, m: nat)
    requires Behavior(states, cmds) && i <= m <= |cmds| && n.kind == REMOTE_DISCONNECT
    requires forall x | i <= x < m :: !Borne(states[x], n)
    ensures KindsLike(Sent(states, cmds, t, i, m), n) == []
    decreases m
  {
    hide Reachable, Step, CmdOk, SentBy, Borne, Bears;
    if i < m {
      SilenceAfter(states, cmds, n, t, i, m - 1);
      RunReachable(states, cmds, m - 1);
      HeardOf(states[m - 1], cmds[m - 1], t, n);
      KindsLikeSum(Sent(states, cmds, t, i, m - 1), SentBy(states[m - 1], cmds[m - 1], t), n);
    }
  }

  /** A task that is not at the other end never hears of the connection. */
  lemma {:induction false} QuietElsewhere(states: seq<State>, cmds: seq<Cmd>, k: Ref, who: Sender, t: Ref, i: nat,
                                          j: nat)
    requires Behavior(states, cmds) && Lives(states, k, i, j) && j < |cmds|
    requires Whole(states[i], k) && Receiver(states[i], k, who) != t
    ensures KindsOf(states[i], Sent(states, cmds, t, i, j + 1), k, who) == []
    decreases j
  {
    hide Inv, Reachable, Step, CmdOk, SentBy, FactOf, KindsOf, Receiver, Whole, SameConn;
    var a := Sent(states, cmds, t, i, j);
    if i < j {
      QuietElsewhere(states, cmds, k, who, t, i, j - 1);
    } else {
      KindsOfNothing(states[i], k, who);
    }
    assert KindsOf(states[i], a, k, who) == [];
    var q := SentBy(states[j], cmds[j], t);
    NamesStay(states, cmds, k, i, j);
    RunReachable(states, cmds, j);
    StepSays(states[j], cmds[j], t, k, who);
    SayKinds(states[i], states[j], q, k, who);
    KindsOfSum(states[i], a, q, k, who);
    assert Sent(states, cmds, t, i, j + 1) == a + q;
  }

  lemma {:induction false} SentSplit(states: seq<State>, cmds: seq<Cmd>, t: Ref, i: nat, j: nat, m: nat)
    requires Behavior(states, cmds) && i <= j <= m <= |cmds|
    ensures Sent(states, cmds, t, i, m) == Sent(states, cmds, t, i, j) + Sent(states, cmds, t, j, m)
    decreases m
  {
    hide SentBy, Step, CmdOk;
    if j < m {
      SentSplit(states, cmds, t, i, j, m - 1);
      var a, b, c := Sent(states, cmds, t, i, j), Sent(states, cmds, t, j, m - 1),
          SentBy(states[m - 1], cmds[m - 1], t);
      assert (a + b) + c == a + (b + c);
    }
  }

  /** No connection bears the names from state j + 1 up to the last call before state m. */
  ghost predicate Unborne(states: seq<State>, n: Notif, j: nat, m: nat)
    requires m <= |states|
  {
    forall x | j < x < m :: !Borne(states[x], n)
  }

  /** The whole life of a connection, from any point i of it, through the call j that ends it, to any later point m
      up to which its names are not given to another connection. The task at the other end hears of new
      connections and messages, then of one or two disconnects, and then of nothing; no other task ever hears of
      the connection. */
  lemma WholeLife(states: seq<State>, cmds: seq<Cmd>, k: Ref, who: Sender, t: Ref, i: nat, j: nat, m: nat)
      returns (news: seq<Kind>, end: seq<Kind>)
    requires Behavior(states, cmds) && Lives(states, k, i, j) && j < m <= |cmds| && k !in states[j + 1].conns
    requires Whole(states[i], k) && Unborne(states, About(states[i], k, who, REMOTE_DISCONNECT), j, m)
    ensures var heard := KindsLike(Sent(states, cmds, t, i, m), About(states[i], k, who, REMOTE_DISCONNECT));
            if t == Receiver(states[i], k, who)
            then
              && heard == news + end && OnlyNews(news)
              && (end == [REMOTE_DISCONNECT] || end == [REMOTE_DISCONNECT, REMOTE_DISCONNECT])
            else heard == []
    ensures KindsLike(Sent(states, cmds, t, j + 1, m), About(states[i], k, who, REMOTE_DISCONNECT)) == []
  {
    hide Reachable, Step, CmdOk, SentBy, Borne, Receiver, FactOf, Sent, Whole, About;
    var n := About(states[i], k, who, REMOTE_DISCONNECT);
    AboutKind(states[i], k, who);
    SentSplit(states, cmds, t, i, j + 1, m);
    KindsLikeSum(Sent(states, cmds, t, i, j + 1), Sent(states, cmds, t, j + 1, m), n);
    SilenceAfter(states, cmds, n, t, j + 1, m);
    if t == Receiver(states[i], k, who) {
      news, end := ConnectionStory(states, cmds, k, who, i, j);
    } else {
      news, end := [], [];
      QuietElsewhere(states, cmds, k, who, t, i, j);
    }
  }

  lemma AboutKind(s: State, k: Ref, who: Sender)
    requires Whole(s, k)
    ensures About(s, k, who, REMOTE_DISCONNECT).kind == REMOTE_DISCONNECT
    ensures About(s, k, who, REMOTE_DISCONNECT).who == who
  {
    hide FactOf;
  }
}
