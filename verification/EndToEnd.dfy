/** The two libraries on top of the driver: the exchange over a connection, with its messages carried by the
    notification queues of the driver's tasks and the server's table kept from those queues. */
module EndToEnd {
  import opened Options
  import opened DriverModel
  import opened DriverCommands
  import opened DriverSteps
  import opened MirrorDriver
  import opened DriverQueues
  import opened DriverTelling
  import opened DriverChannels
  import opened Routing
  import opened MirrorFacts
  import opened MirrorSteps
  import opened MirrorRuns
  import opened ServerTables
  import DriverInvariant
  import Framing
  import Exchange
  import ExchangeFate
  import Seqs
  import IdSpace
  import Mirror
  import LibServer

  /** A system call by anyone, a move of the connection's two libraries, or both at once. */
  datatype Event = Event(cmd: Option<Cmd>, move: Option<Exchange.Move>)

  /** The driver's queues hold for connection k what the exchange believes to be under way. */
  ghost predicate Carries(s: State, x: Exchange.Link, k: Ref) {
    && Whole(s, k) && Receiver(s, k, CLIENT) in s.tasks && Receiver(s, k, SERVER) in s.tasks
    && Channel(s, k, CLIENT) == x.toServer && Channel(s, k, SERVER) == x.toClient
  }

  /** The exchange's table is that of the connection's server, and nothing that an earlier connection of the client or
      over the sub-memory has left waits for the server or the client. */
  ghost predicate Keeps(s: State, lib: Tables, x: Exchange.Link, k: Ref) {
    && Whole(s, k)
    && var f := FactOf(s, k);
       && x.ends == Exchange.Ends(f.client, f.server, f.sub)
       && HasTable(lib, f) && lib[f.task][f.server] == x.table
       && Clean(s, k)
  }

  ghost predicate Agrees(s: State, lib: Tables, x: Exchange.Link, k: Ref) {
    Carries(s, x, k) && Keeps(s, lib, x, k)
  }

  /** The server's library is about to send its answer. */
  predicate WillAnswer(x: Exchange.Link, urls: Table<nat>) {
    && x.serverBusy && Exchange.HasPages(x)
    && var r := Exchange.ReadRequest(x.bytes, x.beyond); r.Some? && Exchange.Target(urls, r.value.0).Some?
  }

  /** What is read from the queue of connection k's side by a call. */
  function Took(s: State, cmd: Cmd, k: Ref, who: Sender): seq<Kind>
    requires CmdOk(s, cmd) && Whole(s, k)
  {
    KindsOf(s, Taking(s, cmd, Receiver(s, k, who)), k, who)
  }

  /** The move of a server that hears from another client, with the driver's answer to its mmap call. */
  function OtherHeard(s: State, cmd: Cmd, f: Fact): Exchange.Move
    requires Heard(s, cmd, f)
  {
    var n := s.tasks[cmd.t].queue[0];
    Exchange.ServerOther(n, Grants(s, f.server, n.subId))
  }

  /** Calls about the connection come from its two libraries, which make them as part of the matching move; a
      library reads whole notifications, and about the connection only when it has dealt with what it read
      before. What the server's library reads for the server from other clients is a move as well. */
  ghost predicate Proper(s: State, x: Exchange.Link, e: Event, k: Ref, urls: Table<nat>)
    requires e.cmd.Some? ==> CmdOk(s, e.cmd.value)
  {
    && Whole(s, k)
    && match e.cmd
       case None =>
         e.move.Some? && (e.move.value.ClientDeliver? || (e.move.value.ServerAnswer? && !WillAnswer(x, urls)))
       case Some(cmd) =>
         WholeRead(cmd) &&
         if Says(s, cmd, k, CLIENT) == [NEW_MESSAGE] then
           e.move.Some? && e.move.value.CallServer? && x.mapped && !x.sent
         else if Says(s, cmd, k, CLIENT) == [NEW_CONNECTION] then e.move == Some(Exchange.Map)
         else if Says(s, cmd, k, SERVER) == [NEW_MESSAGE] then
           e.move == Some(Exchange.ServerAnswer) && WillAnswer(x, urls)
         else if Took(s, cmd, k, CLIENT) != [] then e.move == Some(Exchange.ServerTake) && !x.serverBusy && !x.dead
         else if Took(s, cmd, k, SERVER) != [] then e.move == Some(Exchange.ClientTake) && !x.clientBusy
         else if Heard(s, cmd, FactOf(s, k)) then e.move == Some(OtherHeard(s, cmd, FactOf(s, k))) && !x.dead
         else e.move == None
  }

  function NextState(s: State, e: Event): State
    requires e.cmd.Some? ==> CmdOk(s, e.cmd.value)
  {
    if e.cmd.Some? then Step(s, e.cmd.value).0 else s
  }

  function NextTables(s: State, e: Event, lib: Tables): Tables
    requires e.cmd.Some? ==> CmdOk(s, e.cmd.value)
  {
    if e.cmd.Some? then LibStep(s, e.cmd.value, lib) else lib
  }

  function NextLink(x: Exchange.Link, e: Event, urls: Table<nat>, respond: Exchange.Respond): Exchange.Link {
    if e.move.Some? then Exchange.Step(x, e.move.value, urls, respond) else x
  }

  // ---------- one event ----------

  /** A call takes at most one notification about the connection, and says at most one thing. */
  lemma OneAtATime(s: State, cmd: Cmd, k: Ref)
    requires CmdOk(s, cmd) && Whole(s, k)
    ensures |Took(s, cmd, k, CLIENT)| + |Took(s, cmd, k, SERVER)| + |Says(s, cmd, k, CLIENT)| +
            |Says(s, cmd, k, SERVER)| <= 1
    ensures Says(s, cmd, k, CLIENT) == [] || Says(s, cmd, k, CLIENT) == [NEW_MESSAGE] ||
            Says(s, cmd, k, CLIENT) == [NEW_CONNECTION]
    ensures Says(s, cmd, k, SERVER) == [] || Says(s, cmd, k, SERVER) == [NEW_MESSAGE]
  {
    hide CmdOk, FactOf, Whole, Receiver, Taking, KindsOf;
    TookOne(s, cmd, k, CLIENT);
    TookOne(s, cmd, k, SERVER);
  }

  lemma TookOne(s: State, cmd: Cmd, k: Ref, who: Sender)
    requires CmdOk(s, cmd) && Whole(s, k)
    ensures Took(s, cmd, k, who) == [] ||
            (cmd.Read? && cmd.t in s.tasks && s.tasks[cmd.t].queue != [] && s.tasks[cmd.t].queue[0].who == who &&
             |Took(s, cmd, k, who)| == 1)
  {
    hide FactOf, Whole, Receiver;
    KindsOfNothing(s, k, who);
    if Taking(s, cmd, Receiver(s, k, who)) != [] {
      KindsLikeOne(s.tasks[cmd.t].queue[0], About(s, k, who, REMOTE_DISCONNECT));
    }
  }

  lemma Nothing<T>(a: seq<T>, b: seq<T>)
    requires [] + a == b + []
    ensures a == b
  {
    assert [] + a == a && b + [] == b;
  }

  lemma First<T>(took: seq<T>, a: seq<T>, b: seq<T>)
    requires |took| == 1 && took + a == b + []
    ensures b != [] && a == b[1..]
  {
    assert (took + a)[1..] == a && b + [] == b;
  }

  /** What a move takes from the two queues and puts into them. */
  lemma MoveQueues(x: Exchange.Link, m: Exchange.Move, urls: Table<nat>, respond: Exchange.Respond)
    ensures var x' := Exchange.Step(x, m, urls, respond);
            && x'.toServer == (match m
                 case Map => x.toServer + [NEW_CONNECTION]
                 case CallServer(_) => if x.mapped && !x.sent then x.toServer + [NEW_MESSAGE] else x.toServer
                 case ServerTake => if x.dead || x.serverBusy || x.toServer == [] then x.toServer else x.toServer[1..]
                 case _ => x.toServer)
            && x'.toClient == (match m
                 case ServerAnswer => if WillAnswer(x, urls) then x.toClient + [NEW_MESSAGE] else x.toClient
                 case ClientTake => if x.clientBusy || x.toClient == [] then x.toClient else x.toClient[1..]
                 case _ => x.toClient)
  {
    hide LibServer.Handle, Exchange.Known, Exchange.Foreign, Exchange.WriteRequest, Exchange.FetchPayload,
         Exchange.Answered, Exchange.Hello, Exchange.MayMap, WillAnswer;
    AnswerQueues(x, urls, respond);
  }

  lemma AnswerQueues(x: Exchange.Link, urls: Table<nat>, respond: Exchange.Respond)
    ensures WillAnswer(x, urls) ==> x.serverBusy
    ensures var x' := Exchange.Answered(x, urls, respond);
            && x'.toServer == x.toServer
            && (x.serverBusy ==> x'.toClient == if WillAnswer(x, urls) then x.toClient + [NEW_MESSAGE] else x.toClient)
  {
    hide Exchange.WriteResponse, Exchange.ReadRequest, Exchange.Target, LibServer.SlotOf;
  }

  lemma EventCarries(s: State, x: Exchange.Link, e: Event, k: Ref, urls: Table<nat>, respond: Exchange.Respond)
    requires e.cmd.Some? ==> CmdOk(s, e.cmd.value)
    requires Reachable(s) && k in s.conns && Carries(s, x, k) && Proper(s, x, e, k, urls) && k in NextState(s, e).conns
    ensures Carries(NextState(s, e), NextLink(x, e, urls, respond), k)
  {
    hide Reachable, CmdOk, Step, Whole, Receiver, Says, Took, Channel, Heard, FactOf, Grants, WillAnswer, Exchange.Step;
    if e.move.Some? {
      MoveQueues(x, e.move.value, urls, respond);
    }
    if e.cmd.Some? {
      var cmd, s' := e.cmd.value, NextState(s, e);
      OneAtATime(s, cmd, k);
      ChannelMoves(s, cmd, k, CLIENT);
      ChannelMoves(s, cmd, k, SERVER);
    }
  }

  /** The notification that a read takes from the connection's channel to the server. */
  lemma TookHead(s: State, cmd: Cmd, k: Ref)
    requires CmdOk(s, cmd) && Whole(s, k)
    ensures Took(s, cmd, k, CLIENT) != [] ==>
              && Heard(s, cmd, FactOf(s, k)) && cmd.t in s.tasks && s.tasks[cmd.t].queue != []
              && s.tasks[cmd.t].queue[0] == About(s, k, CLIENT, s.tasks[cmd.t].queue[0].kind)
              && Took(s, cmd, k, CLIENT) == [s.tasks[cmd.t].queue[0].kind]
    ensures Heard(s, cmd, FactOf(s, k)) && Took(s, cmd, k, CLIENT) == [] ==>
              s.tasks[cmd.t].queue[0].(kind := REMOTE_DISCONNECT) != About(s, k, CLIENT, REMOTE_DISCONNECT)
  {
    hide Whole, FactOf;
    KindsOfNothing(s, k, CLIENT);
    if Taking(s, cmd, Receiver(s, k, CLIENT)) != [] {
      KindsLikeOne(s.tasks[cmd.t].queue[0], About(s, k, CLIENT, REMOTE_DISCONNECT));
    }
    ServerReceives(s, k);
  }

  lemma ServerReceives(s: State, k: Ref)
    requires Whole(s, k)
    ensures Receiver(s, k, CLIENT) == FactOf(s, k).task
  {
  }

  lemma AboutHello(s: State, k: Ref)
    requires Whole(s, k)
    ensures var f := FactOf(s, k);
            && About(s, k, CLIENT, NEW_CONNECTION) == Exchange.Hello(Exchange.Ends(f.client, f.server, f.sub))
            && forall kind :: About(s, k, CLIENT, kind).kind == kind
  {
  }

  lemma ChannelHead(s: State, k: Ref)
    requires Whole(s, k) && Receiver(s, k, CLIENT) in s.tasks && s.tasks[Receiver(s, k, CLIENT)].queue != []
    requires var n := s.tasks[Receiver(s, k, CLIENT)].queue[0]; n == About(s, k, CLIENT, n.kind)
    ensures Channel(s, k, CLIENT) != [] && Channel(s, k, CLIENT)[0] == s.tasks[Receiver(s, k, CLIENT)].queue[0].kind
  {
    hide FactOf;
  }

  /** A notification for the server that is not the connection's own is foreign, for none is left over. */
  lemma NotOursForeign(s: State, k: Ref, n: Notif)
    requires Whole(s, k) && Ours(n, FactOf(s, k)) && n.who == CLIENT && n.receiver == FactOf(s, k).server
    requires n.(kind := REMOTE_DISCONNECT) != About(s, k, CLIENT, REMOTE_DISCONNECT)
    ensures Exchange.Foreign(Exchange.Ends(FactOf(s, k).client, FactOf(s, k).server, FactOf(s, k).sub), n)
  {
    hide FactOf;
  }

  /** What the server's library hears moves the exchange's table. */
  ghost predicate TableMoves(s: State, x: Exchange.Link, x': Exchange.Link, cmd: Cmd, f: Fact) {
    && x'.ends == x.ends
    && x'.table == if Heard(s, cmd, f) then Handed(s, cmd, x.table, f) else x.table
  }

  lemma TakeMatches(s: State, x: Exchange.Link, cmd: Cmd, k: Ref, urls: Table<nat>, respond: Exchange.Respond)
    requires CmdOk(s, cmd) && Reachable(s) && k in s.conns && Carries(s, x, k) && Took(s, cmd, k, CLIENT) != []
    requires !x.serverBusy && !x.dead && Exchange.Orderly(x)
    requires x.ends == Exchange.Ends(FactOf(s, k).client, FactOf(s, k).server, FactOf(s, k).sub)
    ensures TableMoves(s, x, Exchange.Step(x, Exchange.ServerTake, urls, respond), cmd, FactOf(s, k))
  {
    hide CmdOk, Reachable, Whole, Took, FactOf, Channel, Grants, Exchange.RequestFits, Exchange.Known;
    TookHead(s, cmd, k);
    GrantedUnlessZero(s, k);
    ServerReceives(s, k);
    ChannelHead(s, k);
    AboutHello(s, k);
  }

  lemma OtherMatches(s: State, x: Exchange.Link, cmd: Cmd, k: Ref, urls: Table<nat>, respond: Exchange.Respond)
    requires CmdOk(s, cmd) && Clean(s, k) && Took(s, cmd, k, CLIENT) == [] && Heard(s, cmd, FactOf(s, k)) && !x.dead
    requires x.ends == Exchange.Ends(FactOf(s, k).client, FactOf(s, k).server, FactOf(s, k).sub)
    ensures TableMoves(s, x, Exchange.Step(x, OtherHeard(s, cmd, FactOf(s, k)), urls, respond), cmd, FactOf(s, k))
  {
    hide CmdOk, Whole, Took, FactOf, LibServer.Handle, Grants, Exchange.Foreign, Ours;
    TookHead(s, cmd, k);
    ServerReceives(s, k);
    NotOursForeign(s, k, s.tasks[cmd.t].queue[0]);
  }

  lemma QuietMatches(s: State, x: Exchange.Link, e: Event, k: Ref, urls: Table<nat>, respond: Exchange.Respond)
    requires e.cmd.Some? && CmdOk(s, e.cmd.value) && Whole(s, k) && Proper(s, x, e, k, urls)
    requires Took(s, e.cmd.value, k, CLIENT) == []
    requires !Heard(s, e.cmd.value, FactOf(s, k)) || Took(s, e.cmd.value, k, SERVER) != []
             || Says(s, e.cmd.value, k, CLIENT) != [] || Says(s, e.cmd.value, k, SERVER) != []
    ensures TableMoves(s, x, NextLink(x, e, urls, respond), e.cmd.value, FactOf(s, k))
  {
    hide CmdOk, Whole, FactOf, Exchange.WriteRequest, Exchange.WriteResponse, Exchange.ReadRequest, Exchange.Target,
         Exchange.FetchPayload, Exchange.Known, Taking, Receiver, KindsOf, LibServer.Handle, WillAnswer, Handed;
    OneAtATime(s, e.cmd.value, k);
    TookOne(s, e.cmd.value, k, SERVER);
  }

  lemma HandleMatches(s: State, x: Exchange.Link, e: Event, k: Ref, urls: Table<nat>, respond: Exchange.Respond)
    requires e.cmd.Some? && CmdOk(s, e.cmd.value) && Reachable(s) && k in s.conns
    requires Carries(s, x, k) && Clean(s, k) && Proper(s, x, e, k, urls) && Exchange.Orderly(x)
    requires x.ends == Exchange.Ends(FactOf(s, k).client, FactOf(s, k).server, FactOf(s, k).sub)
    ensures TableMoves(s, x, NextLink(x, e, urls, respond), e.cmd.value, FactOf(s, k))
  {
    hide CmdOk, Reachable, Whole, Took, FactOf, Channel, Exchange.Step, TableMoves, Heard, Clean, WillAnswer, Receiver,
         Says, Exchange.Orderly;
    var cmd := e.cmd.value;
    OneAtATime(s, cmd, k);
    if Took(s, cmd, k, CLIENT) != [] {
      TakeMatches(s, x, cmd, k, urls, respond);
    } else if Heard(s, cmd, FactOf(s, k)) && Took(s, cmd, k, SERVER) == [] && Says(s, cmd, k, CLIENT) == [] &&
        Says(s, cmd, k, SERVER) == [] {
      OtherMatches(s, x, cmd, k, urls, respond);
    } else {
      QuietMatches(s, x, e, k, urls, respond);
    }
  }

  lemma EventKeeps(s: State, lib: Tables, x: Exchange.Link, e: Event, k: Ref, urls: Table<nat>,
                   respond: Exchange.Respond)
    requires e.cmd.Some? ==> CmdOk(s, e.cmd.value)
    requires Reachable(s) && k in s.conns && Carries(s, x, k) && Keeps(s, lib, x, k) && Exchange.Orderly(x)
    requires Proper(s, x, e, k, urls) && k in NextState(s, e).conns
    ensures Keeps(NextState(s, e), NextTables(s, e, lib), NextLink(x, e, urls, respond), k)
  {
    hide Reachable, CmdOk, Step, LibStep, Whole, FactOf, Carries, Exchange.Step, Heard, Clean, Exchange.Orderly,
         Handed, HasTable;
    if e.cmd.Some? {
      var cmd := e.cmd.value;
      assert WholeRead(cmd);
      HandleMatches(s, x, e, k, urls, respond);
      TableFollows(s, lib, cmd, k);
      CleanStep(s, cmd, k);
      StepSameConn(s, cmd, k);
    } else {
      AloneKeeps(x, e, urls, respond, s, k);
    }
  }

  lemma AloneKeeps(x: Exchange.Link, e: Event, urls: Table<nat>, respond: Exchange.Respond, s: State, k: Ref)
    requires e.cmd.None? && Proper(s, x, e, k, urls)
    ensures NextLink(x, e, urls, respond).ends == x.ends && NextLink(x, e, urls, respond).table == x.table
  {
    hide Took, Says, Heard, OtherHeard, WillAnswer, FactOf, Whole, LibServer.Handle, Exchange.Known, Exchange.Foreign,
         Exchange.WriteRequest, Exchange.WriteResponse, Exchange.ReadRequest, Exchange.Target, Exchange.FetchPayload;
  }

  /** Whatever is taken is what the exchange expects to be taken, whatever is said is what it says, and its table
      remains the server's. */
  lemma EventAgrees(s: State, lib: Tables, x: Exchange.Link, e: Event, k: Ref, urls: Table<nat>,
                    respond: Exchange.Respond)
    requires e.cmd.Some? ==> CmdOk(s, e.cmd.value)
    requires Reachable(s) && k in s.conns && Agrees(s, lib, x, k) && Exchange.Orderly(x)
    requires Proper(s, x, e, k, urls) && k in NextState(s, e).conns
    ensures Agrees(NextState(s, e), NextTables(s, e, lib), NextLink(x, e, urls, respond), k)
  {
    hide Reachable, CmdOk, NextState, NextTables, NextLink, Carries, Keeps, Proper, Exchange.Orderly;
    EventCarries(s, x, e, k, urls, respond);
    EventKeeps(s, lib, x, e, k, urls, respond);
  }

  /** The driver's side of an event. */
  lemma ChannelMoves(s: State, cmd: Cmd, k: Ref, who: Sender)
    requires CmdOk(s, cmd) && Reachable(s) && k in s.conns && k in Step(s, cmd).0.conns
    ensures var s' := Step(s, cmd).0;
            && Whole(s, k) && Whole(s', k) && Receiver(s, k, who) in s.tasks && Receiver(s', k, who) in s'.tasks
            && (Took(s, cmd, k, who) == [] && Says(s, cmd, k, who) == [] ==> Channel(s', k, who) == Channel(s, k, who))
            && (Took(s, cmd, k, who) == [] ==> Channel(s', k, who) == Channel(s, k, who) + Says(s, cmd, k, who))
            && (|Took(s, cmd, k, who)| == 1 && Says(s, cmd, k, who) == [] ==>
                  Channel(s, k, who) != [] && Channel(s', k, who) == Channel(s, k, who)[1..])
  {
    hide Reachable, CmdOk, Step, Whole, Receiver, Says, Channel, KindsOf, Taking;
    ChannelStep(s, cmd, k, who);
    var took, says, a, b := Took(s, cmd, k, who), Says(s, cmd, k, who), Channel(Step(s, cmd).0, k, who),
        Channel(s, k, who);
    assert took + a == b + says;
    if took == [] {
      assert [] + a == a;
      assert says == [] ==> b + says == b;
    } else if |took| == 1 && says == [] {
      First(took, a, b);
    }
  }

  // ---------- whole lives ----------

  /** The driver and the libraries' tables, seen together with one connection's exchange, event by event. */
  ghost predicate JointRun(states: seq<State>, libs: seq<Tables>, links: seq<Exchange.Link>, events: seq<Event>, k: Ref,
                           urls: Table<nat>, respond: Exchange.Respond)
  {
    && |states| == |links| == |libs| == |events| + 1
    && (forall i | 0 <= i < |states| :: k in states[i].conns)
    && forall i | 0 <= i < |events| ::
         && (events[i].cmd.Some? ==> CmdOk(states[i], events[i].cmd.value))
         && Proper(states[i], links[i], events[i], k, urls)
         && states[i + 1] == NextState(states[i], events[i])
         && libs[i + 1] == NextTables(states[i], events[i], libs[i])
         && links[i + 1] == NextLink(links[i], events[i], urls, respond)
         && (events[i].move.Some? ==> Exchange.MoveFits(events[i].move.value, |links[0].bytes|))
  }

  /** A connection without a past: the queues hold nothing about it, its server's table is what the library has,
      without an entry of another connection of the client. */
  ghost predicate Begins(s: State, lib: Tables, x: Exchange.Link, k: Ref, respond: Exchange.Respond) {
    && Reachable(s) && Agrees(s, lib, x, k)
    && x == Exchange.Start(x.ends, x.bytes, x.beyond, x.table) && Exchange.Own(x)
    && 0 < |x.bytes| < Framing.SIZE_ERROR && Exchange.RespondFits(respond, |x.bytes|)
  }

  /** As long as a connection lives, and whatever else the tasks of the system do: the queues carry exactly the
      messages of the exchange and the server's table is the one that the exchange goes by. So at most one message
      is on its way, and the callbacks that have run are those of the first calls, each with its own answer. */
  lemma {:induction false} DriverCarriesExchange(states: seq<State>, libs: seq<Tables>, links: seq<Exchange.Link>,
                                                 events: seq<Event>, k: Ref,
                                                 urls: Table<nat>, respond: Exchange.Respond, n: nat)
    requires JointRun(states, libs, links, events, k, urls, respond) && n < |states|
    requires Begins(states[0], libs[0], links[0], k, respond)
    ensures Reachable(states[n]) && Agrees(states[n], libs[n], links[n], k)
    ensures Exchange.Good(links[n], urls, respond) && |links[n].bytes| == |links[0].bytes|
    decreases n
  {
    hide Reachable, CmdOk, Proper, NextState, NextTables, Exchange.Step, Exchange.MoveFits, Agrees, Exchange.Good,
         Exchange.RespondFits, Exchange.Own;
    if n == 0 {
      Exchange.StartGood(links[0], urls, respond);
    } else {
      DriverCarriesExchange(states, libs, links, events, k, urls, respond, n - 1);
      var s, lib, x, e := states[n - 1], libs[n - 1], links[n - 1], events[n - 1];
      NextReachable(s, e);
      assert states[(n - 1) + 1] == NextState(s, e);
      ExchangeFate.TurnOf(x, urls, respond);
      EventAgrees(s, lib, x, e, k, urls, respond);
      if e.move.Some? {
        Exchange.StepGood(x, e.move.value, urls, respond);
      }
    }
  }

  lemma NextReachable(s: State, e: Event)
    requires Reachable(s) && (e.cmd.Some? ==> CmdOk(s, e.cmd.value))
    ensures Reachable(NextState(s, e))
  {
    hide Reachable, CmdOk, Step;
    if e.cmd.Some? {
      StepReachable(s, e.cmd.value);
    }
  }

  // ---------- servers within their limit ----------

  lemma NextJoined(s: State, lib: Tables, x: Exchange.Link, e: Event, k: Ref, urls: Table<nat>)
    requires (e.cmd.Some? ==> CmdOk(s, e.cmd.value)) && Proper(s, x, e, k, urls)
    requires Reachable(s) && Joined(lib, s) && Fits(NextState(s, e))
    ensures Joined(NextTables(s, e, lib), NextState(s, e))
  {
    hide Reachable, CmdOk, DriverInvariant.Inv, Step, LibStep, Joined, Fits, Capped, FactsOf;
    if e.cmd.Some? {
      assert WholeRead(e.cmd.value);
      ReachableInv(s);
      StepInv(s, e.cmd.value);
      FitsCapped(Step(s, e.cmd.value).0);
      StepJoined(lib, s, e.cmd.value);
    }
  }

  /** A library whose tables are on track turns no announcement away. */
  lemma NotTurned(s: State, lib: Tables, x: Exchange.Link, e: Event, k: Ref, urls: Table<nat>)
    requires (e.cmd.Some? ==> CmdOk(s, e.cmd.value)) && Proper(s, x, e, k, urls) && e.move.Some?
    requires Reachable(s) && Joined(lib, s) && Agrees(s, lib, x, k) && Exchange.Own(x)
    ensures !ExchangeFate.Turned(x, e.move.value)
  {
    hide Reachable, CmdOk, DriverInvariant.Inv, Joined, Whole, FactOf, Channel, Exchange.Own, Says, Heard, Took,
         WillAnswer, HasTable;
    ReachableInv(s);
    if ExchangeFate.Turned(x, e.move.value) {
      var cmd := e.cmd.value;
      TookHead(s, cmd, k);
      ServerReceives(s, k);
      ReadsHere(s, cmd, FactOf(s, k));
      ChannelHead(s, k);
      HelloFits(s, lib, k);
      FoundIsKnown(x);
    }
  }

  lemma ReadsHere(s: State, cmd: Cmd, f: Fact)
    requires Heard(s, cmd, f)
    ensures cmd.Read? && cmd.t == f.task && f.task in s.tasks && s.tasks[f.task].queue != []
  {
  }

  lemma FoundIsKnown(x: Exchange.Link)
    requires Exchange.Own(x) && LibServer.Find(x.table.conns, x.ends.client) < |x.table.conns|
    ensures Exchange.Known(x)
  {
    hide Exchange.OwnTable;
    Exchange.ListedMeans(x.ends, x.table);
  }

  /** If no server ever has more mapped connections than its table holds, the server knows the connection whenever
      it reads a message about it. So a request that reaches the server is answered, by the four moves and with
      its own response, if and only if its address leads to a handler and the sub-memory is not called 0. */
  lemma RequestsReachHandlers(states: seq<State>, libs: seq<Tables>, links: seq<Exchange.Link>, events: seq<Event>,
                              k: Ref,
                              urls: Table<nat>, respond: Exchange.Respond, n: nat)
    requires JointRun(states, libs, links, events, k, urls, respond) && n < |states|
    requires Begins(states[0], libs[0], links[0], k, respond) && Joined(libs[0], states[0])
    requires Sorted(urls) && forall i | 0 <= i <= n :: Fits(states[i])
    ensures Whole(states[n], k)
    ensures ExchangeFate.Arriving(links[n]) ==>
              && Exchange.Known(links[n]) && links[n].calls != []
              && var r := Exchange.Last(links[n]);
                 var answered := FactOf(states[n], k).sub != 0 && Exchange.Served(urls, r.url);
                 && (!answered <==>
                       ExchangeFate.Stranded(Exchange.Play(links[n], [Exchange.ServerTake, Exchange.ServerAnswer],
                           urls, respond)))
                 && (answered ==>
                       && !Exchange.Play(links[n], ExchangeFate.ROUND, urls, respond).sent
                       && Exchange.DeliversNext(links[n].delivered, Exchange.Play(links[n], ExchangeFate.ROUND, urls,
                            respond).delivered, r, urls, respond))
  {
    hide Begins, Joined, Fits, Proper, NextState, NextTables, NextLink, CmdOk, Exchange.MoveFits, Exchange.Good,
         Exchange.Known, Exchange.HasPages, Exchange.Target, Exchange.Play, ExchangeFate.Stranded, Agrees, Reachable,
         FactOf, Whole, Exchange.Own, Sorted, Exchange.Served, Exchange.Answer, Exchange.Delivers;
    DriverCarriesExchange(states, libs, links, events, k, urls, respond, n);
    AlwaysReady(states, libs, links, events, k, urls, respond, n);
    var x := links[n];
    AgreesEnds(states[n], libs[n], x, k);
    if ExchangeFate.Arriving(x) {
      ExchangeFate.ReadyKnown(x);
      ExchangeFate.GoodOwn(x, urls, respond);
      Exchange.PagesUnlessZero(x);
      ExchangeFate.TakenMessage(x, [], urls, respond);
      ExchangeFate.HandledFate(x, urls, respond);
      ExchangeFate.HandledPlay(x, urls, respond);
      Exchange.TargetLeast(urls, Exchange.Last(x).url, 0);
      if ExchangeFate.Answerable(x, urls) {
        Exchange.AnswerDelivers(Exchange.Last(x), urls, respond, x.delivered,
          Exchange.Play(x, ExchangeFate.ROUND, urls, respond).delivered);
      }
    }
  }

  lemma AgreesEnds(s: State, lib: Tables, x: Exchange.Link, k: Ref)
    requires Agrees(s, lib, x, k)
    ensures Whole(s, k) && x.ends == Exchange.Ends(FactOf(s, k).client, FactOf(s, k).server, FactOf(s, k).sub)
  {
    hide Whole, FactOf, Carries, Clean, HasTable;
  }

  lemma {:induction false} AlwaysReady(states: seq<State>, libs: seq<Tables>, links: seq<Exchange.Link>,
                                       events: seq<Event>, k: Ref,
                                       urls: Table<nat>, respond: Exchange.Respond, n: nat)
    requires JointRun(states, libs, links, events, k, urls, respond) && n < |states|
    requires Begins(states[0], libs[0], links[0], k, respond) && Joined(libs[0], states[0])
    requires forall i | 0 <= i <= n :: Fits(states[i])
    ensures Joined(libs[n], states[n]) && ExchangeFate.Ready(links[n])
    decreases n
  {
    hide Reachable, CmdOk, Proper, NextState, NextTables, Exchange.Step, Exchange.MoveFits, Agrees, Exchange.Good,
         Exchange.RespondFits, Exchange.Own, Joined, Fits, ExchangeFate.Ready, ExchangeFate.Turned;
    if n == 0 {
      ExchangeFate.StartReady(links[0]);
    } else {
      AlwaysReady(states, libs, links, events, k, urls, respond, n - 1);
      DriverCarriesExchange(states, libs, links, events, k, urls, respond, n - 1);
      var s, lib, x, e := states[n - 1], libs[n - 1], links[n - 1], events[n - 1];
      assert states[(n - 1) + 1] == NextState(s, e) && libs[(n - 1) + 1] == NextTables(s, e, lib);
      NextJoined(s, lib, x, e, k, urls);
      ExchangeFate.GoodOwn(x, urls, respond);
      if e.move.Some? {
        NotTurned(s, lib, x, e, k, urls);
        ExchangeFate.ReadyStep(x, e.move.value, urls, respond);
      }
    }
  }

  // ---------- how it begins ----------

  /** None of the notifications in q is for this client, and none that is for this server is from the client or about
      the sub-memory. */
  ghost predicate Unmentioned(q: seq<Notif>, f: Fact) {
    forall n <- q ::
      && !(n.who == CLIENT && n.receiver == f.server && (n.sender == f.client || n.subId == f.sub))
      && !(n.who == SERVER && n.receiver == f.client)
  }

  lemma {:induction false} UnmentionedSilent(s: State, q: seq<Notif>, k: Ref, who: Sender)
    requires Whole(s, k) && Unmentioned(q, FactOf(s, k))
    ensures KindsOf(s, q, k, who) == []
    decreases |q|
  {
    hide Whole, FactOf;
    if q != [] {
      assert forall n <- q[1..] :: n in q;
      UnmentionedSilent(s, q[1..], k, who);
      assert q[0] in q;
    }
  }

  predicate Unlisted(t: LibServer.Table, f: Fact) {
    forall e <- t.conns :: e.clientId != f.client && e.subId != f.sub
  }

  lemma UnlistedOwn(t: LibServer.Table, f: Fact)
    requires Unlisted(t, f) && Mirror.TableOk(t)
    requires IdSpace.ValidId(f.client) && IdSpace.ValidId(f.server) && IdSpace.ValidId(f.sub)
    requires f.sub < DriverInvariant.ID_BUDGET
    ensures Exchange.OwnTable(Exchange.Ends(f.client, f.server, f.sub), t)
  {
    IdSpace.PackErrorAmbiguity(f.server, f.sub);
  }

  lemma SubSmall(s: State, k: Ref)
    requires DriverInvariant.Inv(s) && Whole(s, k)
    ensures FactOf(s, k).sub < DriverInvariant.ID_BUDGET
  {
    hide DriverInvariant.Inv;
    IdsSmall(s);
  }

  /** A connection that has just been made begins an exchange, if nothing for its client waits in a queue, nothing for
      its server from the client or over the sub-memory, and the server's table lists neither: no matter what is in
      its memory. */
  lemma ConnectBegins(s: State, cmd: Cmd, lib: Tables, bytes: string, beyond: char, respond: Exchange.Respond)
      returns (x: Exchange.Link)
    requires CmdOk(s, cmd) && Reachable(s) && cmd.Connect? && Step(s, cmd).1 == 0 && TablesOk(lib, s)
    requires 0 < |bytes| < Framing.SIZE_ERROR && Exchange.RespondFits(respond, |bytes|)
    requires var s' := Step(s, cmd).0;
             Whole(s', cmd.k) ==>
               && (forall t <- s.tasks :: Unmentioned(s.tasks[t].queue, FactOf(s', cmd.k)))
               && (HasTable(lib, FactOf(s', cmd.k)) ==>
                     Unlisted(lib[FactOf(s', cmd.k).task][FactOf(s', cmd.k).server], FactOf(s', cmd.k)))
    ensures cmd.k in Step(s, cmd).0.conns && Begins(Step(s, cmd).0, lib, x, cmd.k, respond) && x.bytes == bytes
    ensures x.beyond == beyond
  {
    hide Reachable, DriverInvariant.Inv, Step, CmdOk, FactOf, Whole, Exchange.RespondFits, TaskTables, ServerIds,
         Receiver, KindsOf, Mirror.TableOk, Exchange.OwnTable;
    ReachableInv(s);
    StepInv(s, cmd);
    StepReachable(s, cmd);
    var s', k := Step(s, cmd).0, cmd.k;
    ConnectMakes(s, cmd);
    AllWhole(s');
    var f := FactOf(s', k);
    ServerListed(s', k);
    SameServers(s, s', lib, f);
    TableThere(lib, s, f);
    SubSmall(s', k);
    UnlistedOwn(lib[f.task][f.server], f);
    x := Exchange.Start(Exchange.Ends(f.client, f.server, f.sub), bytes, beyond, lib[f.task][f.server]);
    ReceiverLive(s', k, CLIENT);
    ReceiverLive(s', k, SERVER);
    UnmentionedSilent(s', s'.tasks[Receiver(s', k, CLIENT)].queue, k, CLIENT);
    UnmentionedSilent(s', s'.tasks[Receiver(s', k, SERVER)].queue, k, SERVER);
    assert Exchange.Own(x);
    ServerReceives(s', k);
  }

  lemma ConnectMakes(s: State, cmd: Cmd)
    requires CmdOk(s, cmd) && DriverInvariant.Inv(s) && cmd.Connect? && Step(s, cmd).1 == 0
    ensures var s' := Step(s, cmd).0;
            && cmd.k in s'.conns && s'.tasks == s.tasks
            && (forall r <- s'.servers :: r in s.servers && s'.servers[r].id == s.servers[r].id &&
                 s'.servers[r].task == s.servers[r].task)
  {
    hide DriverInvariant.Inv, WithRoom, FreeSub, Seqs.Distinct, AddConn;
    var c, r := ClientById(s, cmd.clientId), ServerByName(s, cmd.name);
    WithRoomInv(s, c, cmd.p, cmd.us);
    var s1 := WithRoom(s, cmd.p, cmd.us);
    AddConnRest(s1, c, r, FreeSub(s1, s1.poolList), cmd.k, cmd.e);
    NewConnThere(s1, c, r, FreeSub(s1, s1.poolList), cmd.k, cmd.e);
  }

  lemma NewConnThere(s: State, c: Ref, r: Ref, u: Ref, k: Ref, e: Ref)
    requires c in s.clients && r in s.servers && u in s.subs
    ensures k in AddConn(s, c, r, u, k, e).conns
  {
  }

  lemma ServerListed(s: State, k: Ref)
    requires Whole(s, k)
    ensures s.conns[k].server in s.servers && s.servers[s.conns[k].server].task == FactOf(s, k).task
    ensures s.servers[s.conns[k].server].id == FactOf(s, k).server
  {
  }

  lemma SameServers(s: State, s': State, lib: Tables, f: Fact)
    requires TablesOk(lib, s) && f.task in s'.tasks && s'.tasks == s.tasks
    requires forall r <- s'.servers :: r in s.servers
    requires forall r <- s'.servers :: s'.servers[r].id == s.servers[r].id && s'.servers[r].task == s.servers[r].task
    requires exists r :: r in s'.servers && s'.servers[r].task == f.task && s'.servers[r].id == f.server
    ensures HasTable(lib, f)
  {
    hide Mirror.TableOk;
  }
}
